/** The REST endpoints of the backend (backend/posts/views.py) over an
    in-memory post table: list with query-parameter filtering, create,
    retrieve, full and partial update, destroy, the dashboard statistics,
    and the reshaping of the external trends feed. */
module Views {
  import opened Common
  import opened Types
  import opened Models

  const HTTP_200_OK: int := 200
  const HTTP_201_CREATED: int := 201
  const HTTP_204_NO_CONTENT: int := 204
  const HTTP_400_BAD_REQUEST: int := 400
  const HTTP_404_NOT_FOUND: int := 404
  const HTTP_503_SERVICE_UNAVAILABLE: int := 503

  /** The JSON bodies the views answer with. */
  datatype Body =
    | PostBody(post: Post)
    | PostsBody(posts: seq<Post>)
    | ErrorBody(error: string)              // {'error': ...}
    | MessageBody(message: string)          // {'message': ...}
    | FieldErrorsBody(fields: seq<string>)  // serializer.errors, by field name
    | StatsBody(stats: DashboardStats)
    | TrendsBody(payload: TrendsPayload)

  datatype Response = Response(status: int, body: Body)

  const NotFound: Response := Response(HTTP_404_NOT_FOUND, ErrorBody("Post not found"))
  const RecentCount: nat := 5

  // ---------------------------------------------------------------------
  // Selection and counting over rows
  // ---------------------------------------------------------------------

  /** A query parameter restricts the list only when present and non-empty. */
  predicate Given(param: Option<string>) {
    param.Some? && param.value != ""
  }

  function PlatformOf(p: Post): string { p.platform }
  function StatusOf(p: Post): string { p.status }
  function LikesOf(p: Post): int { p.likes }
  function SharesOf(p: Post): int { p.shares }
  function CommentsOf(p: Post): int { p.comments }
  function ImpressionsOf(p: Post): int { p.impressions }

  /** `filter(platform=key)` and `filter(status=key)`. */
  function FieldIs(field: Post -> string, key: string): Post -> bool {
    (p: Post) => field(p) == key
  }

  /** The rows `list` keeps for the given query parameters. */
  function ListFilter(platform: Option<string>, status: Option<string>): Post -> bool {
    (p: Post) =>
      (Given(platform) ==> p.platform == platform.value) &&
      (Given(status) ==> p.status == status.value)
  }

  /** The two chained `queryset.filter` calls of `list`: together they select
      exactly the rows that pass both restrictions, in table order. */
  function Listed(rows: seq<Post>, platform: Option<string>, status: Option<string>): (r: seq<Post>)
    ensures r == Filter(rows, ListFilter(platform, status))
  {
    var byPlatform := if Given(platform) then Filter(rows, FieldIs(PlatformOf, platform.value)) else rows;
    var byStatus := if Given(status) then Filter(byPlatform, FieldIs(StatusOf, status.value)) else byPlatform;
    var both := ListFilter(platform, status);
    if Given(platform) && Given(status) then
      FilterTwice(rows, FieldIs(PlatformOf, platform.value), FieldIs(StatusOf, status.value), both);
      byStatus
    else if Given(platform) then
      FilterExt(rows, FieldIs(PlatformOf, platform.value), both);
      byStatus
    else if Given(status) then
      FilterExt(rows, FieldIs(StatusOf, status.value), both);
      byStatus
    else
      FilterAllPass(rows, both);
      byStatus
  }

  /** The position of the row with primary key `pk`. */
  function IndexOf(rows: seq<Post>, pk: int): (r: Option<nat>)
    ensures r.Some? ==> r.value < |rows| && rows[r.value].id == Some(pk)
    ensures r.None? ==> forall i :: 0 <= i < |rows| ==> rows[i].id != Some(pk)
  {
    if rows == [] then None
    else if rows[0].id == Some(pk) then Some(0)
    else match IndexOf(rows[1..], pk)
      case None => None
      case Some(i) => Some(i + 1)
  }

  /** `posts.filter(field=key).count()` */
  function CountBy(rows: seq<Post>, field: Post -> string, key: string): nat {
    |Filter(rows, FieldIs(field, key))|
  }

  /** One entry per key, in the order of the keys, each holding its count;
      a key no row has is present with count 0. */
  function CountsByKey(rows: seq<Post>, keys: seq<string>, field: Post -> string): (e: Entries)
    ensures |e| == |keys|
    ensures forall j :: 0 <= j < |keys| ==> e[j] == (keys[j], CountBy(rows, field, keys[j]))
  {
    if keys == [] then []
    else [(keys[0], CountBy(rows, field, keys[0]))] + CountsByKey(rows, keys[1..], field)
  }

  function Count(entry: (string, int)): int { entry.1 }

  /** The sum of the counts of a list of entries. */
  function SumValues(e: Entries): int {
    SumOf(e, Count)
  }

  function Occurrences(keys: seq<string>, x: string): nat {
    if keys == [] then 0 else (if keys[0] == x then 1 else 0) + Occurrences(keys[1..], x)
  }

  lemma {:induction false} OccursOnce(keys: seq<string>, x: string)
    requires Distinct(keys) && x in keys
    ensures Occurrences(keys, x) == 1
  {
    if keys[0] == x {
      OccursNot(keys[1..], x);
    } else {
      OccursOnce(keys[1..], x);
    }
  }

  lemma {:induction false} OccursNot(keys: seq<string>, x: string)
    requires x !in keys
    ensures Occurrences(keys, x) == 0
  {
    if keys != [] {
      OccursNot(keys[1..], x);
    }
  }

  /** Taking the first row off the table lowers the count of its own key by one. */
  lemma {:induction false} CountsDropFirst(rows: seq<Post>, keys: seq<string>, field: Post -> string)
    requires rows != []
    ensures SumValues(CountsByKey(rows, keys, field)) ==
            SumValues(CountsByKey(rows[1..], keys, field)) + Occurrences(keys, field(rows[0]))
  {
    if keys != [] {
      CountsDropFirst(rows, keys[1..], field);
      var p := FieldIs(field, keys[0]);
      assert Filter(rows, p) == (if p(rows[0]) then [rows[0]] else []) + Filter(rows[1..], p);
    }
  }

  /** When every row's key is one of the distinct keys, the per-key counts
      add up to the number of rows. */
  lemma {:induction false} CountsPartitionRows(rows: seq<Post>, keys: seq<string>, field: Post -> string)
    requires Distinct(keys)
    requires forall i :: 0 <= i < |rows| ==> field(rows[i]) in keys
    ensures SumValues(CountsByKey(rows, keys, field)) == |rows|
  {
    if rows == [] {
      ZeroCounts(keys, field);
    } else {
      CountsPartitionRows(rows[1..], keys, field);
      CountsDropFirst(rows, keys, field);
      OccursOnce(keys, field(rows[0]));
    }
  }

  lemma {:induction false} ZeroCounts(keys: seq<string>, field: Post -> string)
    ensures SumValues(CountsByKey([], keys, field)) == 0
  {
    if keys != [] {
      ZeroCounts(keys[1..], field);
    }
  }

  /** The loop of `dashboard_stats` that stores, for each choice in order,
      the number of rows holding that choice's key. */
  method CountPerChoice(rows: seq<Post>, choices: seq<Choice>, field: Post -> string)
    returns (entries: Entries)
    ensures entries == CountsByKey(rows, Keys(choices), field)
  {
    entries := [];
    var i := 0;
    while i < |choices|
      invariant 0 <= i <= |choices|
      invariant |entries| == i
      invariant forall j :: 0 <= j < i ==> entries[j] == (choices[j].key, CountBy(rows, field, choices[j].key))
    {
      var key := choices[i].key;
      entries := entries + [(key, CountBy(rows, field, key))];
      i := i + 1;
    }
  }

  /** The table invariant: every row is stored, well-formed and has its own
      key below `nextId`. */
  ghost predicate ValidRows(rows: seq<Post>, nextId: int) {
    1 <= nextId &&
    (forall i :: 0 <= i < |rows| ==>
      rows[i].id.Some? && 1 <= rows[i].id.value < nextId && WellFormed(rows[i])) &&
    (forall i, j :: 0 <= i < j < |rows| ==> rows[i].id != rows[j].id)
  }

  lemma RemoveKeepsValid(rows: seq<Post>, nextId: int, i: nat)
    requires ValidRows(rows, nextId) && i < |rows|
    ensures ValidRows(rows[..i] + rows[i + 1..], nextId)
  {
    var s := rows[..i] + rows[i + 1..];
    assert forall k :: 0 <= k < |s| ==> s[k] == rows[if k < i then k else k + 1];
  }

  /** `total / count`, and 0 for no items. */
  function Average(total: int, count: nat): (avg: real)
    ensures count == 0 ==> avg == 0.0
    ensures count > 0 ==> avg * (count as real) == total as real
  {
    if count == 0 then 0.0 else total as real / count as real
  }

  /** In a valid table every post is counted under exactly one platform and
      exactly one status. */
  lemma CountsCoverTable(rows: seq<Post>, nextId: int)
    requires ValidRows(rows, nextId)
    ensures SumValues(CountsByKey(rows, Keys(PlatformChoices), PlatformOf)) == |rows|
    ensures SumValues(CountsByKey(rows, Keys(StatusChoices), StatusOf)) == |rows|
  {
    PlatformsAreClosed("");
    RowsHaveChoices(rows, nextId);
    CountsPartitionRows(rows, Keys(PlatformChoices), PlatformOf);
    StatusesAreClosed("");
    CountsPartitionRows(rows, Keys(StatusChoices), StatusOf);
  }

  lemma RowsHaveChoices(rows: seq<Post>, nextId: int)
    requires ValidRows(rows, nextId)
    ensures forall i :: 0 <= i < |rows| ==> PlatformOf(rows[i]) in Keys(PlatformChoices)
    ensures forall i :: 0 <= i < |rows| ==> StatusOf(rows[i]) in Keys(StatusChoices)
  {
    forall i | 0 <= i < |rows|
      ensures PlatformOf(rows[i]) in Keys(PlatformChoices) && StatusOf(rows[i]) in Keys(StatusChoices)
    {
      assert WellFormed(rows[i]);
    }
  }

  // ---------------------------------------------------------------------
  // The post table and its endpoints
  // ---------------------------------------------------------------------

  /** What a full or partial update leaves behind: 404 and no change for an
      unknown key, 400 and no change for rejected data, otherwise the one row
      with that key replaced by its merge with the data, and 200. */
  ghost predicate UpdateOutcome(before: seq<Post>, after: seq<Post>, pk: int, d: PostInput,
                                partial: bool, r: Response)
  {
    match IndexOf(before, pk)
    case None => r == NotFound && after == before
    case Some(i) =>
      var errs := FieldErrors(d, partial);
      if errs != [] then r == Response(HTTP_400_BAD_REQUEST, FieldErrorsBody(errs)) && after == before
      else after == before[i := Merge(before[i], d)] && r == Response(HTTP_200_OK, PostBody(after[i]))
  }

  /** `SocialPost.objects`: the rows in the model's default ordering (newest
      `created_at` first) and the next primary key the database assigns. */
  class PostTable {
    var rows: seq<Post>
    var nextId: int

    ghost predicate Valid()
      reads this
    {
      ValidRows(rows, nextId)
    }

    constructor ()
      ensures Valid() && rows == [] && nextId == 1
    {
      rows := [];
      nextId := 1;
    }

    /** GET /posts/ with optional `platform` and `status` parameters. */
    function List(platform: Option<string>, status: Option<string>): (r: Response)
      reads this
      ensures r.status == HTTP_200_OK && r.body.PostsBody?
      ensures IsSubsequence(r.body.posts, rows)
      ensures forall p :: p in r.body.posts <==>
        p in rows && (Given(platform) ==> p.platform == platform.value) &&
        (Given(status) ==> p.status == status.value)
    {
      FilterIsSubsequence(rows, ListFilter(platform, status));
      Response(HTTP_200_OK, PostsBody(Listed(rows, platform, status)))
    }

    /** POST /posts/: valid data becomes a new row (the newest, so first in
        the default ordering) with the next key and every default it leaves
        out; invalid data changes nothing. */
    method Create(d: PostInput) returns (r: Response)
      requires Valid()
      modifies this
      ensures Valid()
      ensures FieldErrors(d, false) == [] ==>
        rows == [Merge(NewRow(old(nextId)), d)] + old(rows) && nextId == old(nextId) + 1 &&
        r == Response(HTTP_201_CREATED, PostBody(rows[0]))
      ensures FieldErrors(d, false) != [] ==>
        rows == old(rows) && nextId == old(nextId) &&
        r == Response(HTTP_400_BAD_REQUEST, FieldErrorsBody(FieldErrors(d, false)))
    {
      var errs := FieldErrors(d, false);
      if errs == [] {
        PlatformsAreClosed(DefaultPlatform);
        StatusesAreClosed(DefaultStatus);
        AcceptedIsWellFormed(NewRow(nextId), d, false);
        var row := Merge(NewRow(nextId), d);
        rows := [row] + rows;
        nextId := nextId + 1;
        r := Response(HTTP_201_CREATED, PostBody(row));
      } else {
        r := Response(HTTP_400_BAD_REQUEST, FieldErrorsBody(errs));
      }
    }

    /** GET /posts/{pk}/ */
    function Retrieve(pk: int): (r: Response)
      reads this
      ensures r.status == HTTP_200_OK || r == NotFound
      ensures r.status == HTTP_200_OK <==> exists i :: 0 <= i < |rows| && rows[i].id == Some(pk)
      ensures r.status == HTTP_200_OK ==>
        r.body.PostBody? && r.body.post in rows && r.body.post.id == Some(pk)
    {
      match IndexOf(rows, pk)
      case None => NotFound
      case Some(i) => Response(HTTP_200_OK, PostBody(rows[i]))
    }

    /** PUT /posts/{pk}/ */
    method Update(pk: int, d: PostInput) returns (r: Response)
      requires Valid()
      modifies this
      ensures Valid() && nextId == old(nextId)
      ensures UpdateOutcome(old(rows), rows, pk, d, false, r)
    {
      r := Save(pk, d, false);
    }

    /** PATCH /posts/{pk}/ */
    method PartialUpdate(pk: int, d: PostInput) returns (r: Response)
      requires Valid()
      modifies this
      ensures Valid() && nextId == old(nextId)
      ensures UpdateOutcome(old(rows), rows, pk, d, true, r)
    {
      r := Save(pk, d, true);
    }

    method Save(pk: int, d: PostInput, partial: bool) returns (r: Response)
      requires Valid()
      modifies this
      ensures Valid() && nextId == old(nextId)
      ensures UpdateOutcome(old(rows), rows, pk, d, partial, r)
    {
      match IndexOf(rows, pk) {
        case None =>
          r := NotFound;
        case Some(i) =>
          var errs := FieldErrors(d, partial);
          if errs != [] {
            r := Response(HTTP_400_BAD_REQUEST, FieldErrorsBody(errs));
          } else {
            AcceptedIsWellFormed(rows[i], d, partial);
            var row := Merge(rows[i], d);
            rows := rows[i := row];
            r := Response(HTTP_200_OK, PostBody(row));
          }
      }
    }

    /** DELETE /posts/{pk}/: exactly the row with that key goes. */
    method Destroy(pk: int) returns (r: Response)
      requires Valid()
      modifies this
      ensures Valid() && nextId == old(nextId)
      ensures IndexOf(old(rows), pk).None? ==> r == NotFound && rows == old(rows)
      ensures IndexOf(old(rows), pk).Some? ==>
        r == Response(HTTP_204_NO_CONTENT, MessageBody("Post deleted successfully")) &&
        |rows| == |old(rows)| - 1 && rows == Filter(old(rows), NotId(pk))
    {
      match IndexOf(rows, pk) {
        case None =>
          r := NotFound;
        case Some(i) =>
          RemoveAtIsFilter(rows, i, NotId(pk));
          RemoveKeepsValid(rows, nextId, i);
          rows := rows[..i] + rows[i + 1..];
          r := Response(HTTP_204_NO_CONTENT, MessageBody("Post deleted successfully"));
      }
    }

    /** GET /posts/dashboard_stats/ */
    method DashboardStatistics() returns (stats: DashboardStats)
      requires Valid()
      ensures stats.totalPosts == |rows|
      ensures stats.totalLikes == SumOf(rows, LikesOf) && stats.totalShares == SumOf(rows, SharesOf)
      ensures stats.totalComments == SumOf(rows, CommentsOf)
      ensures stats.totalImpressions == SumOf(rows, ImpressionsOf)
      ensures stats.avgEngagementRate == Average(stats.totalLikes, |rows|)
      ensures stats.postsByPlatform == CountsByKey(rows, Keys(PlatformChoices), PlatformOf)
      ensures stats.postsByStatus == CountsByKey(rows, Keys(StatusChoices), StatusOf)
      ensures SumValues(stats.postsByPlatform) == |rows| && SumValues(stats.postsByStatus) == |rows|
      ensures |stats.recentPosts| == Min(RecentCount, |rows|) && stats.recentPosts <= rows
    {
      var totalLikes := SumOf(rows, LikesOf);
      var avg := Average(totalLikes, |rows|);

      var byPlatform := CountPerChoice(rows, PlatformChoices, PlatformOf);
      var byStatus := CountPerChoice(rows, StatusChoices, StatusOf);
      CountsCoverTable(rows, nextId);
      stats := DashboardStats(
        |rows|, totalLikes, SumOf(rows, SharesOf), SumOf(rows, CommentsOf), SumOf(rows, ImpressionsOf),
        avg, byPlatform, byStatus, Prefix(rows, RecentCount));
    }
  }

  // ---------------------------------------------------------------------
  // The external trends feed
  // ---------------------------------------------------------------------

  /** One post of the external feed. */
  datatype ExternalPost = ExternalPost(id: int, title: string, body: string)

  /** The outcome of the outgoing request: a reply with its status code and
      decoded posts, or a transport failure with its description. */
  datatype ExternalReply =
    | Reply(statusCode: int, posts: seq<ExternalPost>)
    | RequestFailed(reason: string)

  /** The trend shown for one external post: the title cut to 50 characters,
      the body to 100, a mock engagement of 100 per unit of id. */
  function TrendOf(p: ExternalPost): (t: Trend)
    ensures t.id == p.id && t.engagement == p.id * 100 && t.source == "external_api"
    ensures |t.title| == Min(50, |p.title|) && t.title <= p.title
    ensures |t.content| == Min(100, |p.body|) && t.content <= p.body
  {
    Trend(p.id, Prefix(p.title, 50), Prefix(p.body, 100), p.id * 100, "external_api")
  }

  /** The loop that builds `trends` from the first five external posts. */
  method ReshapeTrends(posts: seq<ExternalPost>) returns (trends: seq<Trend>)
    ensures |trends| == Min(5, |posts|)
    ensures forall i :: 0 <= i < |trends| ==> trends[i] == TrendOf(posts[i])
  {
    var head := Prefix(posts, 5);
    trends := [];
    var i := 0;
    while i < |head|
      invariant 0 <= i <= |head|
      invariant |trends| == i
      invariant forall j :: 0 <= j < i ==> trends[j] == TrendOf(head[j])
    {
      var post := head[i];
      trends := trends + [Trend(post.id, Prefix(post.title, 50), Prefix(post.body, 100),
                                post.id * 100, "external_api")];
      i := i + 1;
    }
  }

  /** GET /social-trends/ */
  method FetchSocialTrends(reply: ExternalReply) returns (r: Response)
    ensures reply.Reply? && reply.statusCode == 200 ==>
      r.status == HTTP_200_OK && r.body.TrendsBody? && r.body.payload.TrendsSuccess? &&
      r.body.payload.message == "Successfully fetched trending topics" &&
      |r.body.payload.trends| == Min(5, |reply.posts|) &&
      forall i :: 0 <= i < |r.body.payload.trends| ==> r.body.payload.trends[i] == TrendOf(reply.posts[i])
    ensures reply.Reply? && reply.statusCode != 200 ==>
      r == Response(HTTP_503_SERVICE_UNAVAILABLE,
                    TrendsBody(TrendsFailure("Failed to fetch data from external API", Some(reply.statusCode))))
    ensures reply.RequestFailed? ==>
      r == Response(HTTP_503_SERVICE_UNAVAILABLE,
                    TrendsBody(TrendsFailure("API request failed: " + reply.reason, None)))
  {
    match reply {
      case Reply(code, posts) =>
        if code == 200 {
          var trends := ReshapeTrends(posts);
          r := Response(HTTP_200_OK, TrendsBody(TrendsSuccess(trends, "Successfully fetched trending topics")));
        } else {
          r := Response(HTTP_503_SERVICE_UNAVAILABLE,
                        TrendsBody(TrendsFailure("Failed to fetch data from external API", Some(code))));
        }
      case RequestFailed(reason) =>
        r := Response(HTTP_503_SERVICE_UNAVAILABLE,
                      TrendsBody(TrendsFailure("API request failed: " + reason, None)));
    }
  }
}
