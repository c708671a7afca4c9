/** The `SocialPost` record of the backend (backend/posts/models.py): its
    closed sets of platform and status choices, its field defaults, the title
    length bound, the validation that these field declarations impose on
    incoming data, the derived engagement rate and the display string. */
module Models {
  import opened Common
  import opened Types

  datatype Choice = Choice(key: string, displayName: string)

  const PlatformChoices: seq<Choice> := [
    Choice("twitter", "Twitter/X"),
    Choice("instagram", "Instagram"),
    Choice("facebook", "Facebook"),
    Choice("linkedin", "LinkedIn")
  ]

  const StatusChoices: seq<Choice> := [
    Choice("draft", "Draft"),
    Choice("published", "Published"),
    Choice("scheduled", "Scheduled")
  ]

  const TitleMaxLength: nat := 200
  const DefaultPlatform: string := "twitter"
  const DefaultStatus: string := "draft"

  function Keys(choices: seq<Choice>): (keys: seq<string>)
    ensures |keys| == |choices|
    ensures forall i :: 0 <= i < |keys| ==> keys[i] == choices[i].key
  {
    seq(|choices|, i requires 0 <= i < |choices| => choices[i].key)
  }

  predicate IsPlatform(s: string) { s in Keys(PlatformChoices) }
  predicate IsStatus(s: string) { s in Keys(StatusChoices) }

  /** No key occurs twice in a list of keys. */
  predicate Distinct(keys: seq<string>) {
    forall i, j :: 0 <= i < j < |keys| ==> keys[i] != keys[j]
  }

  lemma PlatformsAreClosed(s: string)
    ensures IsPlatform(s) <==> s == "twitter" || s == "instagram" || s == "facebook" || s == "linkedin"
    ensures Distinct(Keys(PlatformChoices)) && |Keys(PlatformChoices)| == 4
  {
    assert Keys(PlatformChoices) == ["twitter", "instagram", "facebook", "linkedin"];
  }

  lemma StatusesAreClosed(s: string)
    ensures IsStatus(s) <==> s == "draft" || s == "published" || s == "scheduled"
    ensures Distinct(Keys(StatusChoices)) && |Keys(StatusChoices)| == 3
  {
    assert Keys(StatusChoices) == ["draft", "published", "scheduled"];
  }

  predicate ValidTitle(s: string) { 0 < |s| <= TitleMaxLength }
  predicate ValidContent(s: string) { 0 < |s| }

  /** What every stored row satisfies: a non-blank title of at most 200
      characters, non-blank content, and a platform and a status among the
      choices. */
  predicate WellFormed(p: Post) {
    ValidTitle(p.title) && ValidContent(p.content) && IsPlatform(p.platform) && IsStatus(p.status)
  }

  /** A new row before the request's fields are applied: every field that has
      a default holds it. */
  function NewRow(id: int): (p: Post)
    ensures p.id == Some(id) && p.platform == DefaultPlatform && p.status == DefaultStatus
    ensures p.likes == 0 && p.shares == 0 && p.comments == 0 && p.impressions == 0
    ensures p.scheduledTime == None
  {
    Post(Some(id), "", "", DefaultPlatform, DefaultStatus, 0, 0, 0, 0, None)
  }

  // ---------------------------------------------------------------------
  // Incoming data and its validation
  // ---------------------------------------------------------------------

  /** The fields of a request body; `None` is a field the body leaves out.
      `id` is read-only, so a body's `id` is never looked at. */
  datatype PostInput = PostInput(
    title: Option<string>,
    content: Option<string>,
    platform: Option<string>,
    status: Option<string>,
    likes: Option<int>,
    shares: Option<int>,
    comments: Option<int>,
    impressions: Option<int>,
    scheduledTime: Option<Option<string>>)

  /** The body a client sends for a full post: every field present. */
  function InputOf(p: Post): PostInput {
    PostInput(Some(p.title), Some(p.content), Some(p.platform), Some(p.status),
              Some(p.likes), Some(p.shares), Some(p.comments), Some(p.impressions),
              Some(p.scheduledTime))
  }

  function CheckText(name: string, v: Option<string>, required: bool, ok: string -> bool): (errs: seq<string>)
    ensures errs == [] || errs == [name]
    ensures errs == [name] <==> (v.None? && required) || (v.Some? && !ok(v.value))
  {
    match v
    case None => if required then [name] else []
    case Some(s) => if ok(s) then [] else [name]
  }

  /** The names of the fields the serializer rejects, in declaration order.
      Title and content are required unless the update is partial; a present
      title must be non-blank and at most 200 characters, present content
      non-blank, a present platform or status one of the choices. Fields with
      a default, and the nullable `scheduled_time`, may be left out. */
  function FieldErrors(d: PostInput, partial: bool): (errs: seq<string>)
    ensures errs == [] <==>
      (partial || (d.title.Some? && d.content.Some?)) &&
      (d.title.Some? ==> ValidTitle(d.title.value)) &&
      (d.content.Some? ==> ValidContent(d.content.value)) &&
      (d.platform.Some? ==> IsPlatform(d.platform.value)) &&
      (d.status.Some? ==> IsStatus(d.status.value))
    ensures forall e :: e in errs ==> e in ["title", "content", "platform", "status"]
    ensures "title" in errs <==> (!partial && d.title.None?) || (d.title.Some? && !ValidTitle(d.title.value))
    ensures "content" in errs <==> (!partial && d.content.None?) || (d.content.Some? && !ValidContent(d.content.value))
    ensures "platform" in errs <==> d.platform.Some? && !IsPlatform(d.platform.value)
    ensures "status" in errs <==> d.status.Some? && !IsStatus(d.status.value)
  {
    var t := CheckText("title", d.title, !partial, ValidTitle);
    var c := CheckText("content", d.content, !partial, ValidContent);
    var p := CheckText("platform", d.platform, false, IsPlatform);
    var s := CheckText("status", d.status, false, IsStatus);
    assert t + c + p + s == [] <==> t == [] && c == [] && p == [] && s == [];
    assert "title" in t + c + p + s <==> t != [];
    assert "content" in t + c + p + s <==> c != [];
    assert "platform" in t + c + p + s <==> p != [];
    assert "status" in t + c + p + s <==> s != [];
    t + c + p + s
  }

  /** `serializer.save()` on `base`: every field the body carries replaces
      the one in `base`; the others, and the id, stay. */
  function Merge(base: Post, d: PostInput): (p: Post)
    ensures p.id == base.id
    ensures (d.title.Some? ==> p.title == d.title.value) && (d.title.None? ==> p.title == base.title)
    ensures (d.content.Some? ==> p.content == d.content.value) && (d.content.None? ==> p.content == base.content)
    ensures (d.platform.Some? ==> p.platform == d.platform.value) && (d.platform.None? ==> p.platform == base.platform)
    ensures (d.status.Some? ==> p.status == d.status.value) && (d.status.None? ==> p.status == base.status)
    ensures (d.likes.Some? ==> p.likes == d.likes.value) && (d.likes.None? ==> p.likes == base.likes)
    ensures (d.shares.Some? ==> p.shares == d.shares.value) && (d.shares.None? ==> p.shares == base.shares)
    ensures (d.comments.Some? ==> p.comments == d.comments.value) && (d.comments.None? ==> p.comments == base.comments)
    ensures (d.impressions.Some? ==> p.impressions == d.impressions.value) && (d.impressions.None? ==> p.impressions == base.impressions)
    ensures (d.scheduledTime.Some? ==> p.scheduledTime == d.scheduledTime.value) && (d.scheduledTime.None? ==> p.scheduledTime == base.scheduledTime)
  {
    Post(base.id,
         d.title.GetOr(base.title), d.content.GetOr(base.content),
         d.platform.GetOr(base.platform), d.status.GetOr(base.status),
         d.likes.GetOr(base.likes), d.shares.GetOr(base.shares),
         d.comments.GetOr(base.comments), d.impressions.GetOr(base.impressions),
         d.scheduledTime.GetOr(base.scheduledTime))
  }

  /** An empty body changes nothing, and saving the same body twice is saving
      it once. */
  lemma MergeEmptyAndTwice(base: Post, d: PostInput)
    ensures Merge(base, PostInput(None, None, None, None, None, None, None, None, None)) == base
    ensures Merge(Merge(base, d), d) == Merge(base, d)
  {
  }

  /** Data the serializer accepts always yields a well-formed row, whether it
      is applied to a new row (create) or to a stored one (update). */
  lemma AcceptedIsWellFormed(base: Post, d: PostInput, partial: bool)
    requires FieldErrors(d, partial) == []
    requires IsPlatform(base.platform) && IsStatus(base.status)
    requires partial ==> WellFormed(base)
    ensures WellFormed(Merge(base, d))
  {
  }

  /** A full post body is accepted exactly when the post is well-formed, and
      it then replaces every field but the id. */
  lemma FullInputAccepted(base: Post, p: Post)
    ensures FieldErrors(InputOf(p), false) == [] <==> WellFormed(p)
    ensures Merge(base, InputOf(p)) == p.(id := base.id)
  {
  }

  /** A body with only a title and content picks up every default. */
  lemma CreateUsesDefaults(id: int, title: string, content: string)
    requires ValidTitle(title) && ValidContent(content)
    ensures var d := PostInput(Some(title), Some(content), None, None, None, None, None, None, None);
      FieldErrors(d, false) == [] &&
      Merge(NewRow(id), d) == Post(Some(id), title, content, "twitter", "draft", 0, 0, 0, 0, None)
  {
  }

  // ---------------------------------------------------------------------
  // Derived values
  // ---------------------------------------------------------------------

  /** `engagement_rate`: (likes + shares + comments) per impression, as a
      percentage, and 0 when there are no impressions. */
  function EngagementRate(p: Post): (r: real)
    ensures p.impressions == 0 ==> r == 0.0
    ensures p.impressions != 0 ==>
      r * (p.impressions as real) == ((p.likes + p.shares + p.comments) * 100) as real
    ensures p.impressions > 0 && p.likes >= 0 && p.shares >= 0 && p.comments >= 0 ==> r >= 0.0
  {
    if p.impressions == 0 then 0.0
    else (p.likes + p.shares + p.comments) as real / p.impressions as real * 100.0
  }

  /** `__str__`: the title, a dash, and the platform. */
  function Display(p: Post): (s: string)
    ensures |s| == |p.title| + 3 + |p.platform|
    ensures s[..|p.title|] == p.title && s[|p.title|..|p.title| + 3] == " - "
    ensures s[|s| - |p.platform|..] == p.platform
  {
    p.title + " - " + p.platform
  }

  /** For posts on valid platforms the display string determines both the
      title and the platform (each platform key ends in its own letter). */
  lemma DisplayDeterminesTitleAndPlatform(p: Post, q: Post)
    requires IsPlatform(p.platform) && IsPlatform(q.platform)
    requires Display(p) == Display(q)
    ensures p.title == q.title && p.platform == q.platform
  {
    PlatformsAreClosed(p.platform);
    PlatformsAreClosed(q.platform);
    var s := Display(p);
    assert s[|s| - 1] == p.platform[|p.platform| - 1];
    assert s[|s| - 1] == q.platform[|q.platform| - 1];
    assert p.platform == q.platform;
    assert p.title == s[..|s| - 3 - |p.platform|];
    assert q.title == s[..|s| - 3 - |q.platform|];
  }
}
