/** The create/edit dialog (frontend/components/PostForm.tsx): the form
    record and how one input change updates it, the choice between the update
    and the create call on submit, and the loading/error lifecycle of a
    submission. */
module PostFormView {
  import opened Common
  import opened Types
  import opened Text
  import opened Models
  import opened Views

  /** The `name` of each input of the form. */
  datatype Field = Title | Content | Platform | Status | Likes | Shares | Comments | Impressions | ScheduledTime {
    predicate IsCounter() { this == Likes || this == Shares || this == Comments || this == Impressions }
  }

  /** What a form field holds: text, a number, or a nullable text. */
  datatype FieldValue = Text(text: string) | Number(number: int) | Nullable(nullable: Option<string>)

  function Get(fd: Post, f: Field): FieldValue {
    match f
    case Title => Text(fd.title)
    case Content => Text(fd.content)
    case Platform => Text(fd.platform)
    case Status => Text(fd.status)
    case Likes => Number(fd.likes)
    case Shares => Number(fd.shares)
    case Comments => Number(fd.comments)
    case Impressions => Number(fd.impressions)
    case ScheduledTime => Nullable(fd.scheduledTime)
  }

  /** Two form records with the same id and the same value in every field are equal. */
  lemma FieldsDetermineForm(a: Post, b: Post)
    requires a.id == b.id
    requires forall f: Field :: Get(a, f) == Get(b, f)
    ensures a == b
  {
    assert Get(a, Title) == Get(b, Title) && Get(a, Content) == Get(b, Content);
    assert Get(a, Platform) == Get(b, Platform) && Get(a, Status) == Get(b, Status);
    assert Get(a, Likes) == Get(b, Likes) && Get(a, Shares) == Get(b, Shares);
    assert Get(a, Comments) == Get(b, Comments) && Get(a, Impressions) == Get(b, Impressions);
    assert Get(a, ScheduledTime) == Get(b, ScheduledTime);
  }

  /** The record a new post starts from. It has no id. */
  const DefaultForm: Post := Post(None, "", "", "twitter", "draft", 0, 0, 0, 0, None)

  /** The new-post form starts from the backend's own defaults. */
  lemma DefaultFormMatchesBackendDefaults()
    ensures DefaultForm.id == None
    ensures DefaultForm.title == "" && DefaultForm.content == ""
    ensures DefaultForm == NewRow(0).(id := None)
    ensures IsPlatform(DefaultForm.platform) && IsStatus(DefaultForm.status)
  {
    PlatformsAreClosed(DefaultForm.platform);
    StatusesAreClosed(DefaultForm.status);
  }

  /** `value || null`: an absent or empty scheduled time is null. */
  function OrNull(s: Option<string>): (r: Option<string>)
    ensures r.Some? ==> r.value != "" && r == s
    ensures s.Some? && s.value != "" ==> r == s
  {
    if s.Some? && s.value != "" then s else None
  }

  /** The form record for editing `post`: the nine editable fields copied,
      no id, and a falsy scheduled time turned into null. */
  function Prefill(post: Post): (fd: Post)
    ensures fd.id == None
    ensures forall f: Field :: f != ScheduledTime ==> Get(fd, f) == Get(post, f)
    ensures fd.scheduledTime == OrNull(post.scheduledTime)
  {
    Post(None, post.title, post.content, post.platform, post.status,
         post.likes, post.shares, post.comments, post.impressions, OrNull(post.scheduledTime))
  }

  /** `handleChange` on the input `f` with the text `value`: a counter
      stores `parseInt(value) || 0`, the scheduled time stores the text, any
      other field stores the text as is. No other field changes. */
  function WithField(fd: Post, f: Field, value: string): (r: Post)
    ensures r.id == fd.id
    ensures f.IsCounter() ==> Get(r, f) == Number(ParseIntOrZero(value))
    ensures f == ScheduledTime ==> Get(r, f) == Nullable(Some(value))
    ensures !f.IsCounter() && f != ScheduledTime ==> Get(r, f) == Text(value)
  {
    Post(fd.id,
         if f == Title then value else fd.title,
         if f == Content then value else fd.content,
         if f == Platform then value else fd.platform,
         if f == Status then value else fd.status,
         if f == Likes then ParseIntOrZero(value) else fd.likes,
         if f == Shares then ParseIntOrZero(value) else fd.shares,
         if f == Comments then ParseIntOrZero(value) else fd.comments,
         if f == Impressions then ParseIntOrZero(value) else fd.impressions,
         if f == ScheduledTime then Some(value) else fd.scheduledTime)
  }

  /** `handleChange` changes no field but the one named. */
  lemma WithFieldChangesOnlyThatField(fd: Post, f: Field, value: string)
    ensures forall g: Field :: g != f ==> Get(WithField(fd, f, value), g) == Get(fd, g)
  {
    forall g: Field | g != f
      ensures Get(WithField(fd, f, value), g) == Get(fd, g)
    {
      match g
      case Title => case Content => case Platform => case Status =>
      case Likes => case Shares => case Comments => case Impressions =>
      case ScheduledTime =>
    }
  }

  /** Typing the number a counter shows back into it keeps the number, negative ones included. */
  lemma CounterEchoKeepsValue(fd: Post, f: Field, n: int)
    requires f.IsCounter()
    ensures Get(WithField(fd, f, IntToDecimal(n)), f) == Number(n)
  {
    ParseIntRoundTrip(n);
  }

  /** Text that does not start with a number stores 0 in a counter. */
  lemma CounterWithoutNumberIsZero(fd: Post, f: Field, value: string)
    requires f.IsCounter()
    requires value == [] || (DigitValue(value[0]) >= 10 && value[0] != '-' && value[0] != '+' && !IsJsSpace(value[0]))
    ensures Get(WithField(fd, f, value), f) == Number(0)
  {
  }

  /** Changing the status never touches the scheduled time, though its input
      is shown only for scheduled posts. */
  lemma StatusChangeKeepsScheduledTime(fd: Post, value: string)
    ensures WithField(fd, Status, value).scheduledTime == fd.scheduledTime
    ensures ShowsScheduledTime(WithField(fd, Status, value)) <==> value == "scheduled"
  {
    assert Get(WithField(fd, Status, value), ScheduledTime) == Get(fd, ScheduledTime);
  }

  /** The scheduled-time input is on screen only for a scheduled post. */
  predicate ShowsScheduledTime(fd: Post) {
    fd.status == "scheduled"
  }

  /** `post?.id` is truthy: the post exists and has a non-zero id. */
  predicate HasTruthyId(post: Option<Post>) {
    post.Some? && post.value.id.Some? && post.value.id.value != 0
  }

  /** The one call a submission makes: an update of the edited post's id
      with the form plus that id, or else the creation of the form as it is. */
  function RequestFor(post: Option<Post>, fd: Post): (c: ApiCall)
    ensures c.UpdatePost? <==> HasTruthyId(post)
    ensures c.UpdatePost? ==> Some(c.id) == post.value.id && c.data == fd.(id := Some(c.id))
    ensures !c.UpdatePost? ==> c == CreatePost(fd)
  {
    if HasTruthyId(post) then UpdatePost(post.value.id.value, fd.(id := post.value.id))
    else CreatePost(fd)
  }

  /** A post with id 0 is created anew, although the dialog is in edit mode. */
  lemma IdZeroCreates(post: Post, fd: Post)
    requires post.id == Some(0)
    ensures RequestFor(Some(post), fd) == CreatePost(fd)
    ensures SubmitLabel(false, Some(post)) == "Update Post"
  {
  }

  /** The text of the submit button. */
  function SubmitLabel(loading: bool, post: Option<Post>): (s: string)
    ensures loading ==> s == "Saving..."
    ensures !loading ==> (s == "Update Post" <==> post.Some?) && (s == "Create Post" <==> post.None?)
  {
    if loading then "Saving..." else if post.Some? then "Update Post" else "Create Post"
  }

  /** `err.response?.data?.message || 'An error occurred'`. */
  function ErrorText(message: Option<string>): (e: string)
    ensures e != ""
    ensures message.Some? && message.value != "" ==> e == message.value
    ensures message.None? || message.value == "" ==> e == "An error occurred"
  {
    if message.Some? && message.value != "" then message.value else "An error occurred"
  }

  /** The `message` field of a response body, if it has one: a message body
      and a successful trends payload carry one, no other body does. */
  function MessageOf(b: Body): (m: Option<string>)
    ensures m.Some? <==> b.MessageBody? || (b.TrendsBody? && b.payload.TrendsSuccess?)
    ensures b.MessageBody? ==> m == Some(b.message)
    ensures b.TrendsBody? && b.payload.TrendsSuccess? ==> m == Some(b.payload.message)
  {
    match b
    case MessageBody(message) => Some(message)
    case TrendsBody(TrendsSuccess(_, message)) => Some(message)
    case _ => None
  }

  /** Every failure the backend answers a create or an update with (404 with
      an `error` field, 400 with field errors) carries no `message`, so the
      form always shows the generic text. */
  lemma BackendFailuresShowGenericText(errs: seq<string>)
    ensures ErrorText(MessageOf(NotFound.body)) == "An error occurred"
    ensures ErrorText(MessageOf(FieldErrorsBody(errs))) == "An error occurred"
  {
  }

  /** The browser's constraint validation of the form: title and content are
      `required`, so not empty, and the four counters have `min="0"`. A form
      that fails it is not submitted at all. */
  predicate Submittable(fd: Post)
    ensures Submittable(fd) <==>
      Get(fd, Title) != Text("") && Get(fd, Content) != Text("") &&
      forall f: Field :: f.IsCounter() ==> Get(fd, f).number >= 0
  {
    assert Get(fd, Likes).number == fd.likes && Get(fd, Shares).number == fd.shares;
    assert Get(fd, Comments).number == fd.comments && Get(fd, Impressions).number == fd.impressions;
    fd.title != "" && fd.content != "" &&
    fd.likes >= 0 && fd.shares >= 0 && fd.comments >= 0 && fd.impressions >= 0
  }

  /** A new-post form cannot be submitted until its title and content are
      filled in; then it can. */
  lemma NewFormNeedsTitleAndContent(title: string, content: string)
    requires title != "" && content != ""
    ensures !Submittable(DefaultForm)
    ensures Submittable(WithField(WithField(DefaultForm, Title, title), Content, content))
  {
    var fd := WithField(DefaultForm, Title, title);
    WithFieldChangesOnlyThatField(DefaultForm, Title, title);
    WithFieldChangesOnlyThatField(fd, Content, content);
    assert Get(fd, Likes) == Get(DefaultForm, Likes) && Get(fd, Shares) == Get(DefaultForm, Shares);
    assert Get(fd, Comments) == Get(DefaultForm, Comments) && Get(fd, Impressions) == Get(DefaultForm, Impressions);
  }

  /** Typing a negative number into a counter blocks the submission. */
  lemma NegativeCounterBlocksSubmit(fd: Post, f: Field, n: int)
    requires f.IsCounter() && n < 0
    ensures !Submittable(WithField(fd, f, IntToDecimal(n)))
  {
    CounterEchoKeepsValue(fd, f, n);
  }

  /** The dialog's state. `post` is the post being edited, if any; `closed`
      records that `onClose` has been called. */
  class PostForm {
    const post: Option<Post>
    var formData: Post
    var loading: bool
    var error: string
    var closed: bool

    /** The form record never carries an id. */
    ghost predicate Valid()
      reads this
    {
      formData.id == None
    }

    constructor (post: Option<Post>)
      ensures Valid() && this.post == post
      ensures formData == DefaultForm && !loading && error == "" && !closed
    {
      this.post := post;
      formData := DefaultForm;
      loading := false;
      error := "";
      closed := false;
    }

    /** The effect that runs for the `post` prop: in edit mode the form takes
        the post's fields. */
    method LoadPost()
      requires Valid()
      modifies this
      ensures Valid()
      ensures post.Some? ==> formData == Prefill(post.value)
      ensures post.None? ==> formData == old(formData)
      ensures loading == old(loading) && error == old(error) && closed == old(closed)
    {
      if post.Some? {
        formData := Prefill(post.value);
      }
    }

    /** `handleChange` */
    method HandleChange(f: Field, value: string)
      requires Valid()
      modifies this
      ensures Valid()
      ensures formData == WithField(old(formData), f, value)
      ensures loading == old(loading) && error == old(error) && closed == old(closed)
    {
      match f {
        case Title => formData := formData.(title := value);
        case Content => formData := formData.(content := value);
        case Platform => formData := formData.(platform := value);
        case Status => formData := formData.(status := value);
        case Likes => formData := formData.(likes := ParseIntOrZero(value));
        case Shares => formData := formData.(shares := ParseIntOrZero(value));
        case Comments => formData := formData.(comments := ParseIntOrZero(value));
        case Impressions => formData := formData.(impressions := ParseIntOrZero(value));
        case ScheduledTime => formData := formData.(scheduledTime := Some(value));
      }
    }

    /** The submit button is enabled unless a submission is in flight. */
    predicate SubmitEnabled()
      reads this
    {
      !loading
    }

    /** The first half of `handleSubmit`, up to the awaited call: nothing
        while the button is disabled or the browser refuses the form;
        otherwise `loading` is set, the error cleared, and the one call for
        this form is issued. */
    method BeginSubmit() returns (call: Option<ApiCall>)
      requires Valid()
      modifies this
      ensures Valid() && formData == old(formData) && closed == old(closed)
      ensures !old(SubmitEnabled()) || !Submittable(formData) ==>
        call == None && loading == old(loading) && error == old(error)
      ensures old(SubmitEnabled()) && Submittable(formData) ==>
        call == Some(RequestFor(post, formData)) && loading && error == ""
    {
      if loading || !Submittable(formData) {
        return None;
      }
      loading := true;
      error := "";
      call := Some(RequestFor(post, formData));
    }

    /** The second half of `handleSubmit`, once the call has settled: on
        success the alert for the path taken and `onClose`; on failure the
        error text and the dialog stays open. `loading` ends false either way. */
    method FinishSubmit(outcome: Fetched<Post>) returns (alert: Option<string>)
      requires Valid()
      modifies this
      ensures Valid() && formData == old(formData) && !loading
      ensures outcome.Got? ==>
        (closed && error == old(error) &&
         alert == Some(if HasTruthyId(post) then "Post updated successfully!" else "Post created successfully!"))
      ensures outcome.Rejected? ==> closed == old(closed) && alert == None && error == ErrorText(outcome.message)
    {
      match outcome {
        case Got(_) =>
          if post.Some? && post.value.id.Some? && post.value.id.value != 0 {
            alert := Some("Post updated successfully!");
          } else {
            alert := Some("Post created successfully!");
          }
          closed := true;
        case Rejected(message) =>
          alert := None;
          if message.Some? && message.value != "" {
            error := message.value;
          } else {
            error := "An error occurred";
          }
      }
      loading := false;
    }

    /** A click on the submit button: while a submission is in flight the
        button is disabled, and a form the browser refuses is not submitted;
        in both cases nothing happens. Otherwise exactly one call, the right
        one for this form, and `loading` back to false at the end. */
    method HandleSubmit(outcome: Fetched<Post>) returns (calls: seq<ApiCall>, alert: Option<string>)
      requires Valid()
      modifies this
      ensures Valid() && formData == old(formData)
      ensures old(loading) || !Submittable(formData) ==>
        calls == [] && alert == None && loading == old(loading) && error == old(error) && closed == old(closed)
      ensures !old(loading) && Submittable(formData) ==> calls == [RequestFor(post, formData)] && !loading
      ensures !old(loading) && Submittable(formData) && outcome.Got? ==>
        closed && error == "" &&
        alert == Some(if HasTruthyId(post) then "Post updated successfully!" else "Post created successfully!")
      ensures !old(loading) && Submittable(formData) && outcome.Rejected? ==>
        closed == old(closed) && alert == None && error == ErrorText(outcome.message)
    {
      var call := BeginSubmit();
      if call == None {
        return [], None;
      }
      calls := [call.value];
      alert := FinishSubmit(outcome);
    }
  }
}
