/** The dashboard screen (frontend/components/Dashboard.tsx): the chart
    series built from the statistics, the shortened bodies of the recent
    posts, the cyclic pie colours, the visibility of the two external panels,
    and the state the screen keeps while the statistics and the external data
    load. */
module DashboardView {
  import opened Common
  import opened Types
  import opened Text
  import opened Models
  import opened Views

  /** One bar or pie slice: its label and its value. */
  datatype ChartEntry = ChartEntry(name: string, value: int)

  /** `Object.entries(counts).map(([name, value]) => ({name: Capitalised(name), value}))` */
  function ChartData(e: Entries): (r: seq<ChartEntry>)
    ensures |r| == |e|
    ensures forall i :: 0 <= i < |r| ==> r[i].value == e[i].1
    ensures forall i :: 0 <= i < |r| ==>
      |r[i].name| == |e[i].0| && (e[i].0 != [] ==> r[i].name[1..] == e[i].0[1..] && r[i].name[0] == UpperChar(e[i].0[0]))
  {
    seq(|e|, i requires 0 <= i < |e| => ChartEntry(Capitalize(e[i].0), e[i].1))
  }

  function Names(r: seq<ChartEntry>): seq<string> {
    seq(|r|, i requires 0 <= i < |r| => r[i].name)
  }

  /** The chart values add up to the counts they come from. */
  lemma {:induction false} ChartKeepsTotal(e: Entries)
    ensures ChartTotal(ChartData(e)) == SumValues(e)
  {
    if e != [] {
      ChartKeepsTotal(e[1..]);
      assert ChartData(e)[1..] == ChartData(e[1..]);
    }
  }

  function Value(c: ChartEntry): int { c.value }

  /** The sum of the chart's values. */
  function ChartTotal(r: seq<ChartEntry>): int {
    SumOf(r, Value)
  }

  function Labels(keys: seq<string>): seq<string> {
    seq(|keys|, i requires 0 <= i < |keys| => Capitalize(keys[i]))
  }

  /** The bars of a count chart are labelled by the capitalised keys, in order. */
  lemma ChartNamesAreLabels(rows: seq<Post>, keys: seq<string>, field: Post -> string)
    ensures Names(ChartData(CountsByKey(rows, keys, field))) == Labels(keys)
  {
  }

  lemma CapitalizeWord(w: string, shown: string)
    requires w != [] && |shown| == |w|
    requires shown[0] == UpperChar(w[0]) && shown[1..] == w[1..]
    ensures Capitalize(w) == shown
  {
  }

  lemma PlatformLabels()
    ensures Labels(Keys(PlatformChoices)) == ["Twitter", "Instagram", "Facebook", "Linkedin"]
  {
    assert Keys(PlatformChoices) == ["twitter", "instagram", "facebook", "linkedin"];
    CapitalizeWord("twitter", "Twitter");
    CapitalizeWord("instagram", "Instagram");
    CapitalizeWord("facebook", "Facebook");
    CapitalizeWord("linkedin", "Linkedin");
  }

  lemma StatusLabels()
    ensures Labels(Keys(StatusChoices)) == ["Draft", "Published", "Scheduled"]
  {
    assert Keys(StatusChoices) == ["draft", "published", "scheduled"];
    CapitalizeWord("draft", "Draft");
    CapitalizeWord("published", "Published");
    CapitalizeWord("scheduled", "Scheduled");
  }

  /** For the statistics of any valid table, the platform chart has one bar
      per platform key, labelled by the capitalised key (so "Linkedin", not
      the model's display name "LinkedIn"), and its bars add up to the number
      of posts. */
  lemma PlatformChartOfStats(rows: seq<Post>, nextId: int)
    requires ValidRows(rows, nextId)
    ensures var chart := ChartData(CountsByKey(rows, Keys(PlatformChoices), PlatformOf));
      Names(chart) == ["Twitter", "Instagram", "Facebook", "Linkedin"] &&
      ChartTotal(chart) == |rows|
  {
    ChartNamesAreLabels(rows, Keys(PlatformChoices), PlatformOf);
    PlatformLabels();
    CountsCoverTable(rows, nextId);
    ChartKeepsTotal(CountsByKey(rows, Keys(PlatformChoices), PlatformOf));
  }

  /** The same for the status chart. */
  lemma StatusChartOfStats(rows: seq<Post>, nextId: int)
    requires ValidRows(rows, nextId)
    ensures var chart := ChartData(CountsByKey(rows, Keys(StatusChoices), StatusOf));
      Names(chart) == ["Draft", "Published", "Scheduled"] &&
      ChartTotal(chart) == |rows|
  {
    ChartNamesAreLabels(rows, Keys(StatusChoices), StatusOf);
    StatusLabels();
    CountsCoverTable(rows, nextId);
    ChartKeepsTotal(CountsByKey(rows, Keys(StatusChoices), StatusOf));
  }

  /** What a recent post's body shows: at most its first 100 characters,
      followed by "..." whatever its length. */
  function RecentBody(content: string): (r: string)
    ensures |r| == Min(100, |content|) + 3
    ensures r[..|r| - 3] <= content && r[|r| - 3..] == "..."
    ensures |content| <= 100 ==> r == content + "..."
  {
    Prefix(content, 100) + "..."
  }

  const Colors: seq<string> := ["#3b82f6", "#10b981", "#f59e0b", "#ef4444"]

  /** The fill of pie slice `i`. */
  function SliceColor(i: nat): (c: string)
    ensures c in Colors
  {
    Colors[i % |Colors|]
  }

  /** The colours repeat every four slices, and neighbouring slices never share one. */
  lemma SliceColorsCycle(i: nat)
    ensures SliceColor(i + 4) == SliceColor(i)
    ensures SliceColor(i + 1) != SliceColor(i)
  {
    assert (i + 4) % 4 == i % 4;
    assert (i + 1) % 4 == if i % 4 == 3 then 0 else i % 4 + 1;
  }

  /** What the screen shows first. */
  datatype Screen = Spinner | NoData | Ready(stats: DashboardStats)

  function ScreenFor(loading: bool, stats: Option<DashboardStats>): (s: Screen)
    ensures s.Spinner? <==> loading
    ensures s.NoData? <==> !loading && stats.None?
    ensures s.Ready? ==> stats == Some(s.stats)
  {
    if loading then Spinner
    else if stats.None? then NoData
    else Ready(stats.value)
  }

  /** The screen's state. */
  class Dashboard {
    var stats: Option<DashboardStats>
    var trends: Option<TrendsPayload>
    var weather: Option<WeatherPayload>
    var loading: bool

    constructor ()
      ensures stats == None && trends == None && weather == None && loading
    {
      stats := None;
      trends := None;
      weather := None;
      loading := true;
    }

    function View(): Screen
      reads this
    {
      ScreenFor(loading, stats)
    }

    /** `fetchDashboardData`: the statistics on success; the spinner goes
        away either way. */
    method FetchDashboardData(outcome: Fetched<DashboardStats>)
      modifies this
      ensures !loading
      ensures outcome.Got? ==> stats == Some(outcome.data) && View() == Ready(outcome.data)
      ensures outcome.Rejected? ==> stats == old(stats)
      ensures trends == old(trends) && weather == old(weather)
    {
      if outcome.Got? {
        stats := Some(outcome.data);
      }
      loading := false;
    }

    /** `fetchExternalData`: both fetches are awaited together, so the two
        payloads are stored only when both succeed; one failure leaves both
        as they were. */
    method FetchExternalData(t: Fetched<TrendsPayload>, w: Fetched<WeatherPayload>)
      modifies this
      ensures t.Got? && w.Got? ==> trends == Some(t.data) && weather == Some(w.data)
      ensures !(t.Got? && w.Got?) ==> trends == old(trends) && weather == old(weather)
      ensures stats == old(stats) && loading == old(loading)
      ensures ShowsTrends() <==> if t.Got? && w.Got? then View().Ready? && t.data.TrendsSuccess? else old(ShowsTrends())
      ensures ShowsWeather() <==> if t.Got? && w.Got? then View().Ready? && w.data.success else old(ShowsWeather())
    {
      if t.Got? && w.Got? {
        trends := Some(t.data);
        weather := Some(w.data);
      }
    }

    /** The trends panel is part of the screen with the statistics only, and
        shows only a successful payload. */
    function ShowsTrends(): (b: bool)
      reads this
      ensures b ==> !loading && stats.Some?
      ensures b <==> View().Ready? && trends.Some? && trends.value.TrendsSuccess?
    {
      View().Ready? && trends.Some? && trends.value.Success()
    }

    /** The weather panel likewise. */
    function ShowsWeather(): (b: bool)
      reads this
      ensures b ==> !loading && stats.Some?
      ensures b <==> View().Ready? && weather.Some? && weather.value.success
    {
      View().Ready? && weather.Some? && weather.value.success
    }
  }

  /** Opening the dashboard when the statistics cannot be loaded ends in the
      "No data available" view, which shows neither panel whatever the
      external fetches return. */
  method OpenWithFailures(message: Option<string>, t: Fetched<TrendsPayload>, w: Fetched<WeatherPayload>)
    returns (d: Dashboard)
    ensures d.View() == NoData
    ensures !d.ShowsTrends() && !d.ShowsWeather()
  {
    d := new Dashboard();
    d.FetchDashboardData(Rejected(message));
    d.FetchExternalData(t, w);
  }

  /** Opening the dashboard when the statistics load shows them, and each
      panel exactly when both external fetches succeed and its own payload
      reports success: one rejected fetch hides both panels. */
  method OpenWithData(stats: DashboardStats, t: Fetched<TrendsPayload>, w: Fetched<WeatherPayload>)
    returns (d: Dashboard)
    ensures d.View() == Ready(stats)
    ensures d.ShowsTrends() <==> t.Got? && w.Got? && t.data.TrendsSuccess?
    ensures d.ShowsWeather() <==> t.Got? && w.Got? && w.data.success
  {
    d := new Dashboard();
    d.FetchDashboardData(Got(stats));
    d.FetchExternalData(t, w);
  }
}
