/** The post list screen (frontend/components/PostList.tsx): the visible
    subset of the loaded posts under a search term and two select filters, and
    the state the screen keeps while posts are loaded, deleted and edited. */
module PostListView {
  import opened Common
  import opened Types
  import opened Text

  /** The value of a select filter that restricts nothing. */
  const All: string := "all"

  /** The search term occurs in the title or in the content, ignoring case. */
  predicate MatchesSearch(p: Post, term: string) {
    Contains(Lower(p.title), Lower(term)) || Contains(Lower(p.content), Lower(term))
  }

  /** Whether the list shows `p` for the current search term and filters. */
  predicate Visible(p: Post, term: string, platform: string, status: string) {
    MatchesSearch(p, term) &&
    (platform == All || p.platform == platform) &&
    (status == All || p.status == status)
  }

  function VisibleFilter(term: string, platform: string, status: string): Post -> bool {
    (p: Post) => Visible(p, term, platform, status)
  }

  /** `filteredPosts`: the loaded posts the screen shows, in loaded order. */
  function FilteredPosts(posts: seq<Post>, term: string, platform: string, status: string): (r: seq<Post>)
    ensures |r| <= |posts|
    ensures forall p :: p in r <==>
      p in posts &&
      (Contains(Lower(p.title), Lower(term)) || Contains(Lower(p.content), Lower(term))) &&
      (platform == All || p.platform == platform) &&
      (status == All || p.status == status)
  {
    Filter(posts, VisibleFilter(term, platform, status))
  }

  /** The shown posts keep their relative order, and each one as often as it was loaded. */
  lemma FilteredIsOrderedSelection(posts: seq<Post>, term: string, platform: string, status: string)
    ensures IsSubsequence(FilteredPosts(posts, term, platform, status), posts)
    ensures forall p :: Visible(p, term, platform, status) ==>
      multiset(FilteredPosts(posts, term, platform, status))[p] == multiset(posts)[p]
  {
    FilterIsSubsequence(posts, VisibleFilter(term, platform, status));
    forall p | Visible(p, term, platform, status)
      ensures multiset(FilteredPosts(posts, term, platform, status))[p] == multiset(posts)[p]
    {
      FilterMultiplicity(posts, VisibleFilter(term, platform, status), p);
    }
  }

  /** An empty search with both filters on "all" shows every loaded post. */
  lemma NoCriteriaShowsAll(posts: seq<Post>)
    ensures FilteredPosts(posts, "", All, All) == posts
  {
    forall i | 0 <= i < |posts| ensures Visible(posts[i], "", All, All) {
      ContainsEmpty(Lower(posts[i].title));
    }
    FilterAllPass(posts, VisibleFilter("", All, All));
  }

  /** The search ignores the case of the term. */
  lemma SearchIgnoresCase(posts: seq<Post>, term: string, platform: string, status: string)
    ensures FilteredPosts(posts, Lower(term), platform, status) == FilteredPosts(posts, term, platform, status)
  {
    LowerIdempotent(term);
    FilterExt(posts, VisibleFilter(Lower(term), platform, status), VisibleFilter(term, platform, status));
  }

  /** A post whose title holds the term in another case is found. */
  lemma FindsTitleInOtherCase()
    ensures var p := Post(Some(1), "Launch Day", "Big news", "twitter", "draft", 0, 0, 0, 0, None);
      FilteredPosts([p], "LAUNCH", All, All) == [p]
  {
    var p := Post(Some(1), "Launch Day", "Big news", "twitter", "draft", 0, 0, 0, 0, None);
    assert Lower("LAUNCH") == "launch";
    assert Lower(p.title) == "launch day";
    assert OccursAt(Lower(p.title), Lower("LAUNCH"), 0);
    assert Visible(p, "LAUNCH", All, All);
  }

  /** The local removal after a delete: the posts without that id, in the
      same order; a list without that id stays as it is. */
  lemma RemoveByIdKeepsTheRest(posts: seq<Post>, id: int)
    ensures IsSubsequence(Filter(posts, NotId(id)), posts)
    ensures forall p :: p in Filter(posts, NotId(id)) <==> p in posts && p.id != Some(id)
    ensures (forall i :: 0 <= i < |posts| ==> posts[i].id != Some(id)) ==> Filter(posts, NotId(id)) == posts
  {
    FilterIsSubsequence(posts, NotId(id));
    if forall i :: 0 <= i < |posts| ==> posts[i].id != Some(id) {
      FilterAllPass(posts, NotId(id));
    }
  }

  /** The screen's state. */
  class PostList {
    var posts: seq<Post>
    var loading: bool
    var showForm: bool
    var editingPost: Option<Post>
    var searchTerm: string
    var filterPlatform: string
    var filterStatus: string

    /** The dialog closes only through `handleFormClose`, which forgets the
        edited post, so a closed dialog never holds one. */
    ghost predicate Valid()
      reads this
    {
      !showForm ==> editingPost == None
    }

    constructor ()
      ensures Valid()
      ensures posts == [] && loading && !showForm && editingPost == None
      ensures searchTerm == "" && filterPlatform == All && filterStatus == All
    {
      posts := [];
      loading := true;
      showForm := false;
      editingPost := None;
      searchTerm := "";
      filterPlatform := All;
      filterStatus := All;
    }

    /** The posts the grid shows. */
    function Shown(): seq<Post>
      reads this
    {
      FilteredPosts(posts, searchTerm, filterPlatform, filterStatus)
    }

    /** `fetchPosts`: the loaded list replaces the old one; a failed load keeps
        it. The spinner goes away either way. */
    method FetchPosts(outcome: Fetched<seq<Post>>)
      requires Valid()
      modifies this
      ensures Valid()
      ensures !loading
      ensures outcome.Got? ==> posts == outcome.data
      ensures outcome.Rejected? ==> posts == old(posts)
      ensures showForm == old(showForm) && editingPost == old(editingPost)
      ensures searchTerm == old(searchTerm) && filterPlatform == old(filterPlatform) && filterStatus == old(filterStatus)
    {
      match outcome {
        case Got(data) =>
          posts := data;
          loading := false;
        case Rejected(_) =>
          loading := false;
      }
    }

    /** `handleDelete`: asks for confirmation (`confirmed`), then issues one
        delete call; on success drops every post with that id, on failure keeps
        the list. Returns the calls made and the alert shown. */
    method HandleDelete(id: int, confirmed: bool, outcome: Fetched<()>)
      returns (calls: seq<ApiCall>, alert: Option<string>)
      requires Valid()
      modifies this
      ensures Valid()
      ensures !confirmed ==> calls == [] && alert == None && posts == old(posts)
      ensures confirmed ==> calls == [DeletePost(id)]
      ensures confirmed && outcome.Got? ==>
        posts == Filter(old(posts), NotId(id)) && alert == Some("Post deleted successfully!")
      ensures confirmed && outcome.Rejected? ==>
        posts == old(posts) && alert == Some("Failed to delete post")
      ensures loading == old(loading) && showForm == old(showForm) && editingPost == old(editingPost)
      ensures searchTerm == old(searchTerm) && filterPlatform == old(filterPlatform) && filterStatus == old(filterStatus)
    {
      if !confirmed {
        return [], None;
      }
      calls := [DeletePost(id)];
      match outcome {
        case Got(_) =>
          posts := Filter(posts, NotId(id));
          alert := Some("Post deleted successfully!");
        case Rejected(_) =>
          alert := Some("Failed to delete post");
      }
    }

    /** `handleEdit`: opens the form on `post`. */
    method HandleEdit(post: Post)
      requires Valid()
      modifies this
      ensures Valid()
      ensures editingPost == Some(post) && showForm
      ensures posts == old(posts) && loading == old(loading)
      ensures searchTerm == old(searchTerm) && filterPlatform == old(filterPlatform) && filterStatus == old(filterStatus)
    {
      editingPost := Some(post);
      showForm := true;
    }

    /** The "Create Post" button: opens the form and leaves `editingPost` as
        it is; from a closed dialog that is an empty form. */
    method OpenCreateForm()
      requires Valid()
      modifies this
      ensures Valid()
      ensures showForm && editingPost == old(editingPost)
      ensures !old(showForm) ==> FormProps() == Some(None)
      ensures posts == old(posts) && loading == old(loading)
      ensures searchTerm == old(searchTerm) && filterPlatform == old(filterPlatform) && filterStatus == old(filterStatus)
    {
      showForm := true;
    }

    /** `handleFormClose`: closes the form, forgets the edited post and reloads
        the list (`reload` is the outcome of that load). */
    method HandleFormClose(reload: Fetched<seq<Post>>)
      requires Valid()
      modifies this
      ensures Valid()
      ensures !showForm && editingPost == None && !loading
      ensures reload.Got? ==> posts == reload.data
      ensures reload.Rejected? ==> posts == old(posts)
      ensures searchTerm == old(searchTerm) && filterPlatform == old(filterPlatform) && filterStatus == old(filterStatus)
    {
      showForm := false;
      editingPost := None;
      FetchPosts(reload);
    }

    /** The search box. */
    method SetSearchTerm(term: string)
      requires Valid()
      modifies this
      ensures Valid()
      ensures searchTerm == term && Shown() == FilteredPosts(old(posts), term, old(filterPlatform), old(filterStatus))
      ensures posts == old(posts) && filterPlatform == old(filterPlatform) && filterStatus == old(filterStatus)
      ensures loading == old(loading) && showForm == old(showForm) && editingPost == old(editingPost)
    {
      searchTerm := term;
    }

    /** The platform select. */
    method SetFilterPlatform(platform: string)
      requires Valid()
      modifies this
      ensures Valid()
      ensures filterPlatform == platform && Shown() == FilteredPosts(old(posts), old(searchTerm), platform, old(filterStatus))
      ensures posts == old(posts) && searchTerm == old(searchTerm) && filterStatus == old(filterStatus)
      ensures loading == old(loading) && showForm == old(showForm) && editingPost == old(editingPost)
    {
      filterPlatform := platform;
    }

    /** The status select. */
    method SetFilterStatus(status: string)
      requires Valid()
      modifies this
      ensures Valid()
      ensures filterStatus == status && Shown() == FilteredPosts(old(posts), old(searchTerm), old(filterPlatform), status)
      ensures posts == old(posts) && searchTerm == old(searchTerm) && filterPlatform == old(filterPlatform)
      ensures loading == old(loading) && showForm == old(showForm) && editingPost == old(editingPost)
    {
      filterStatus := status;
    }

    /** The props of the form dialog, when it is open: the post being edited,
        or none for a new post. */
    function FormProps(): (r: Option<Option<Post>>)
      reads this
      ensures r.Some? <==> showForm
      ensures r.Some? ==> r.value == editingPost
    {
      if showForm then Some(editingPost) else None
    }
  }
}
