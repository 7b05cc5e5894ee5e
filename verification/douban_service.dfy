/**
 * The ranking service of src/services/doubanService.js: the static category
 * catalogs, the fixed fallback (mock) datasets, and the fetch–normalise–fallback
 * sequence behind getMovieRanking and getTvRanking. The HTTP call itself is an
 * input: the caller passes what the upstream produced (`Upstream`).
 */
module DoubanService {
  import opened Wrappers
  import Js

  // ---------------------------------------------------------------------------
  // Data model
  // ---------------------------------------------------------------------------

  /** The two media kinds, each with its own upstream endpoint and defaults. */
  datatype Kind = Movie | Tv

  /** A catalog leaf: the upstream (category, type) pair a sub-type stands for. */
  datatype Entry = Entry(category: string, subtype: string)

  /** One ranking subject; passed through unchanged (rating and cast are not modelled). */
  datatype Item = Item(id: string, title: string, year: string)

  /** A selectable tab; `subtype` is the upstream `type` field. */
  datatype Tab = Tab(category: string, subtype: string, title: string, selected: bool)

  /**
   * The body of an upstream response. Every field may be absent; `isMockData`
   * stands for its own truthiness (absent is false).
   */
  datatype Payload = Payload(
    items: Option<seq<Item>>,
    subjects: Option<seq<Item>>,
    categories: Option<seq<Tab>>,
    total: Option<int>,
    isMockData: bool,
    mockReason: Option<string>,
    notice: Option<string>)

  /**
   * What the upstream GET produced: it threw, or it answered with a
   * `response.data` that is falsy (`Ok(None)`) or an object (`Ok(Some(p))`).
   */
  datatype Upstream = Failed | Ok(data: Option<Payload>)

  /** The query parameters sent upstream; an absent field is not sent. */
  datatype Params = Params(start: int, limit: int, subtype: Option<string>, category: Option<string>)

  /** The upstream GET: the endpoint path and its query parameters. */
  datatype UpstreamRequest = UpstreamRequest(path: string, params: Params)

  /** The `data` object of a successful ranking result. */
  datatype RankingData = RankingData(
    items: seq<Item>,
    total: int,
    start: int,
    limit: int,
    category: string,
    subtype: string,
    categories: seq<Tab>,
    isMockData: bool,
    mockReason: Option<string>,
    notice: Option<string>)

  /** `{success: true, data}` or `{success: false, data: null, message}`. */
  datatype RankingResult = Success(data: RankingData) | Failure(message: string)

  // ---------------------------------------------------------------------------
  // Constants
  // ---------------------------------------------------------------------------

  const MockNotice: string := "⚠️ 这是模拟数据，非豆瓣实时数据"
  const ReasonCallFailed: string := "API调用失败"
  const ReasonEmpty: string := "API返回空数据"
  const NoDataMessage: string := "未获取到数据"

  /** The category the upstream assumes when none is sent. */
  function DefaultCategory(kind: Kind): string {
    match kind
    case Movie => "热门"
    case Tv => "tv"
  }

  /** The type the upstream assumes when none is sent. */
  function DefaultSubtype(kind: Kind): string {
    match kind
    case Movie => "全部"
    case Tv => "tv"
  }

  function EndpointPath(kind: Kind): string {
    match kind
    case Movie => "/subject/recent_hot/movie"
    case Tv => "/subject/recent_hot/tv"
  }

  // ---------------------------------------------------------------------------
  // Category catalog
  // ---------------------------------------------------------------------------

  /** The five movie sub-types of one major category, all under upstream category `c`. */
  function MovieRegions(c: string): map<string, Entry> {
    map["全部" := Entry(c, "全部"), "华语" := Entry(c, "华语"), "欧美" := Entry(c, "欧美"),
        "韩国" := Entry(c, "韩国"), "日本" := Entry(c, "日本")]
  }

  /** `movieCategories`: four major categories of five sub-types each. */
  function MovieCategories(): map<string, map<string, Entry>> {
    map["热门电影" := MovieRegions("热门"), "最新电影" := MovieRegions("最新"),
        "豆瓣高分" := MovieRegions("豆瓣高分"), "冷门佳片" := MovieRegions("冷门佳片")]
  }

  /** `tvCategories['最近热门剧集']`. */
  function DramaCategories(): map<string, Entry> {
    map["综合" := Entry("tv", "tv"), "国产剧" := Entry("tv", "tv_domestic"),
        "欧美剧" := Entry("tv", "tv_american"), "日剧" := Entry("tv", "tv_japanese"),
        "韩剧" := Entry("tv", "tv_korean"), "动画" := Entry("tv", "tv_animation"),
        "纪录片" := Entry("tv", "tv_documentary")]
  }

  /** `tvCategories['最近热门综艺']`. */
  function VarietyCategories(): map<string, Entry> {
    map["综合" := Entry("show", "show"), "国内" := Entry("show", "show_domestic"),
        "国外" := Entry("show", "show_foreign")]
  }

  /** `tvCategories`: two major categories of seven and three sub-types. */
  function TvCategories(): map<string, map<string, Entry>> {
    map["最近热门剧集" := DramaCategories(), "最近热门综艺" := VarietyCategories()]
  }

  /** `getAllCategories()`. */
  datatype AllCategories = AllCategories(movie: map<string, map<string, Entry>>, tv: map<string, map<string, Entry>>)

  function GetAllCategories(): AllCategories {
    AllCategories(MovieCategories(), TvCategories())
  }

  /** `getMovieSubCategories(main)`: the sub-types of `main`, or `{}` for an unknown name. */
  function GetMovieSubCategories(main: string): map<string, Entry> {
    if main in MovieCategories() then MovieCategories()[main] else map[]
  }

  /** `getTvSubCategories(main)`. */
  function GetTvSubCategories(main: string): map<string, Entry> {
    if main in TvCategories() then TvCategories()[main] else map[]
  }

  /** The upstream category each movie major category stands for. */
  function MovieMajorCode(main: string): string {
    if main == "热门电影" then "热门" else if main == "最新电影" then "最新" else main
  }

  /** Every movie major category has the same five sub-types, each standing for (c, its own name). */
  lemma MovieRegionsShape(c: string, sub: string)
    ensures MovieRegions(c).Keys == {"全部", "华语", "欧美", "韩国", "日本"}
    ensures sub in MovieRegions(c) ==> MovieRegions(c)[sub] == Entry(c, sub)
  {
  }

  /**
   * The movie catalog has exactly four major categories, each with the same five
   * sub-types, and every leaf is (the major's upstream code, the sub-type's own name).
   */
  lemma MovieCatalogShape(main: string, sub: string)
    ensures MovieCategories().Keys == {"热门电影", "最新电影", "豆瓣高分", "冷门佳片"}
    ensures main in MovieCategories() ==>
      GetMovieSubCategories(main).Keys == {"全部", "华语", "欧美", "韩国", "日本"}
    ensures sub in GetMovieSubCategories(main) ==>
      GetMovieSubCategories(main)[sub] == Entry(MovieMajorCode(main), sub)
    ensures main !in MovieCategories() ==> GetMovieSubCategories(main) == map[]
    ensures GetAllCategories().movie.Keys == MovieCategories().Keys
    ensures main in GetAllCategories().movie ==> GetAllCategories().movie[main] == GetMovieSubCategories(main)
  {
    if main in MovieCategories() {
      assert MovieCategories()[main] == MovieRegions(MovieMajorCode(main));
      MovieRegionsShape(MovieMajorCode(main), sub);
    }
  }

  /**
   * The TV catalog has the drama group of seven sub-types, all under upstream
   * category 'tv', and the variety group of three, all under 'show'.
   */
  lemma TvCatalogShape(main: string, sub: string)
    ensures TvCategories().Keys == {"最近热门剧集", "最近热门综艺"}
    ensures GetTvSubCategories("最近热门剧集").Keys ==
      {"综合", "国产剧", "欧美剧", "日剧", "韩剧", "动画", "纪录片"}
    ensures GetTvSubCategories("最近热门综艺").Keys == {"综合", "国内", "国外"}
    ensures sub in GetTvSubCategories("最近热门剧集") ==> GetTvSubCategories("最近热门剧集")[sub].category == "tv"
    ensures sub in GetTvSubCategories("最近热门综艺") ==> GetTvSubCategories("最近热门综艺")[sub].category == "show"
    ensures main !in TvCategories() ==> GetTvSubCategories(main) == map[]
    ensures GetAllCategories().tv.Keys == TvCategories().Keys
    ensures main in GetAllCategories().tv ==> GetAllCategories().tv[main] == GetTvSubCategories(main)
  {
  }

  // ---------------------------------------------------------------------------
  // Fixed fallback data and default tabs
  // ---------------------------------------------------------------------------

  function MockItems(kind: Kind): seq<Item> {
    match kind
    case Movie =>
      [Item("1292052", "肖申克的救赎", "1994"),
       Item("1291546", "霸王别姬", "1993"),
       Item("1295644", "阿甘正传", "1994")]
    case Tv =>
      [Item("26794435", "请回答1988", "2015"),
       Item("1309163", "大明王朝1566", "2007"),
       Item("1309169", "亮剑", "2005")]
  }

  /** `getMockMovieData()` / `getMockTvData()`: notice, three items and total 3. */
  function MockData(kind: Kind): Payload {
    Payload(Some(MockItems(kind)), None, None, Some(3), false, None, Some(MockNotice))
  }

  /** The eight tabs synthesised when the upstream sends none. */
  function DefaultTabs(kind: Kind): seq<Tab> {
    match kind
    case Movie =>
      [Tab("热门", "全部", "热门", true),
       Tab("最新", "全部", "最新", false),
       Tab("豆瓣高分", "全部", "豆瓣高分", false),
       Tab("冷门佳片", "全部", "冷门佳片", false),
       Tab("热门", "华语", "华语", false),
       Tab("热门", "欧美", "欧美", false),
       Tab("热门", "韩国", "韩国", false),
       Tab("热门", "日本", "日本", false)]
    case Tv =>
      [Tab("tv", "tv", "综合", true),
       Tab("tv", "tv_domestic", "国产剧", false),
       Tab("show", "show", "综艺", false),
       Tab("tv", "tv_american", "欧美剧", false),
       Tab("tv", "tv_japanese", "日剧", false),
       Tab("tv", "tv_korean", "韩剧", false),
       Tab("tv", "tv_animation", "动画", false),
       Tab("tv", "tv_documentary", "纪录片", false)]
  }

  /** Whether `e` is a leaf of the movie catalog. */
  predicate InMovieCatalog(e: Entry) {
    exists main, sub :: main in MovieCategories() && sub in MovieCategories()[main] && MovieCategories()[main][sub] == e
  }

  /** Whether `e` is a leaf of the TV catalog. */
  predicate InTvCatalog(e: Entry) {
    exists main, sub :: main in TvCategories() && sub in TvCategories()[main] && TvCategories()[main][sub] == e
  }

  /** Each of the four upstream movie categories paired with each of the five sub-types is a catalog leaf. */
  lemma MovieLeaf(c: string, sub: string)
    requires c in {"热门", "最新", "豆瓣高分", "冷门佳片"} && sub in {"全部", "华语", "欧美", "韩国", "日本"}
    ensures InMovieCatalog(Entry(c, sub))
  {
    var main := if c == "热门" then "热门电影" else if c == "最新" then "最新电影" else c;
    MovieRegionsShape(c, sub);
    assert MovieCategories()[main] == MovieRegions(c);
  }

  /** Every default movie tab names a leaf of the movie catalog. */
  lemma MovieDefaultTabsInCatalog(i: int)
    requires 0 <= i < |DefaultTabs(Movie)|
    ensures |DefaultTabs(Movie)| == 8
    ensures InMovieCatalog(Entry(DefaultTabs(Movie)[i].category, DefaultTabs(Movie)[i].subtype))
  {
    var t := DefaultTabs(Movie)[i];
    assert t.category in {"热门", "最新", "豆瓣高分", "冷门佳片"} && t.subtype in {"全部", "华语", "欧美", "韩国", "日本"};
    MovieLeaf(t.category, t.subtype);
  }

  /** Every default TV tab names a leaf of the TV catalog: the drama tabs by their title, 综艺 as the variety 综合. */
  lemma TvDefaultTabsInCatalog(i: int)
    requires 0 <= i < |DefaultTabs(Tv)|
    ensures |DefaultTabs(Tv)| == 8
    ensures InTvCatalog(Entry(DefaultTabs(Tv)[i].category, DefaultTabs(Tv)[i].subtype))
  {
    var t := DefaultTabs(Tv)[i];
    if t.category == "tv" {
      assert TvCategories()["最近热门剧集"][t.title] == Entry(t.category, t.subtype);
    } else {
      assert TvCategories()["最近热门综艺"]["综合"] == Entry(t.category, t.subtype);
    }
  }

  // ---------------------------------------------------------------------------
  // Tab selection
  // ---------------------------------------------------------------------------

  /** Whether a tab is the one for the request's (category, type). */
  predicate Matches(t: Tab, category: string, subtype: string) {
    t.category == category && t.subtype == subtype
  }

  /**
   * `categories.map(cat => ({...cat, selected: ...}))`: the `selected` flag of
   * every tab is overwritten; nothing else about the tabs changes.
   */
  function SelectTabs(tabs: seq<Tab>, category: string, subtype: string): (r: seq<Tab>)
    ensures |r| == |tabs|
    ensures forall i :: 0 <= i < |r| ==>
      r[i].category == tabs[i].category && r[i].subtype == tabs[i].subtype && r[i].title == tabs[i].title
    ensures forall i :: 0 <= i < |r| ==> (r[i].selected <==> Matches(tabs[i], category, subtype))
  {
    if tabs == [] then []
    else [tabs[0].(selected := Matches(tabs[0], category, subtype))] + SelectTabs(tabs[1..], category, subtype)
  }

  /** The number of selected tabs. */
  function CountSelected(tabs: seq<Tab>): nat {
    if tabs == [] then 0 else (if tabs[0].selected then 1 else 0) + CountSelected(tabs[1..])
  }

  /** No two tabs share a (category, type) pair. */
  predicate DistinctPairs(tabs: seq<Tab>) {
    forall i, j :: 0 <= i < j < |tabs| ==>
      tabs[i].category != tabs[j].category || tabs[i].subtype != tabs[j].subtype
  }

  /** Whether some tab is the one for (category, type). */
  predicate HasTab(tabs: seq<Tab>, category: string, subtype: string) {
    exists i :: 0 <= i < |tabs| && Matches(tabs[i], category, subtype)
  }

  lemma DistinctPairsTail(tabs: seq<Tab>)
    requires tabs != [] && DistinctPairs(tabs)
    ensures DistinctPairs(tabs[1..])
  {
    var rest := tabs[1..];
    forall i, j | 0 <= i < j < |rest|
      ensures rest[i].category != rest[j].category || rest[i].subtype != rest[j].subtype
    {
      assert rest[i] == tabs[i + 1] && rest[j] == tabs[j + 1];
    }
  }

  lemma HasTabUnfold(tabs: seq<Tab>, category: string, subtype: string)
    requires tabs != []
    ensures HasTab(tabs, category, subtype) <==> Matches(tabs[0], category, subtype) || HasTab(tabs[1..], category, subtype)
  {
    var rest := tabs[1..];
    if HasTab(tabs, category, subtype) && !Matches(tabs[0], category, subtype) {
      var k :| 0 <= k < |tabs| && Matches(tabs[k], category, subtype);
      assert rest[k - 1] == tabs[k];
    }
    if HasTab(rest, category, subtype) {
      var k :| 0 <= k < |rest| && Matches(rest[k], category, subtype);
      assert tabs[k + 1] == rest[k];
    }
  }

  lemma FirstMatchIsOnlyMatch(tabs: seq<Tab>, category: string, subtype: string)
    requires tabs != [] && DistinctPairs(tabs) && Matches(tabs[0], category, subtype)
    ensures !HasTab(tabs[1..], category, subtype)
  {
    var rest := tabs[1..];
    forall k | 0 <= k < |rest| ensures !Matches(rest[k], category, subtype) {
      assert rest[k] == tabs[k + 1];
    }
  }

  lemma CountSelectedUnfold(tabs: seq<Tab>, category: string, subtype: string)
    requires tabs != []
    ensures CountSelected(SelectTabs(tabs, category, subtype)) ==
      (if Matches(tabs[0], category, subtype) then 1 else 0) + CountSelected(SelectTabs(tabs[1..], category, subtype))
  {
    var r := SelectTabs(tabs, category, subtype);
    assert r[1..] == SelectTabs(tabs[1..], category, subtype);
  }

  /**
   * Over tabs with distinct pairs, exactly one tab is selected when the
   * request's pair is among them, and none otherwise.
   */
  lemma {:induction false} SelectedAtMostOne(tabs: seq<Tab>, category: string, subtype: string)
    requires DistinctPairs(tabs)
    ensures CountSelected(SelectTabs(tabs, category, subtype)) == if HasTab(tabs, category, subtype) then 1 else 0
  {
    if tabs != [] {
      DistinctPairsTail(tabs);
      SelectedAtMostOne(tabs[1..], category, subtype);
      CountSelectedUnfold(tabs, category, subtype);
      HasTabUnfold(tabs, category, subtype);
      if Matches(tabs[0], category, subtype) {
        FirstMatchIsOnlyMatch(tabs, category, subtype);
      }
    }
  }

  /** The default tab lists have distinct pairs, so at most one default tab is ever selected. */
  lemma DefaultTabsSelectAtMostOne(kind: Kind, category: string, subtype: string)
    ensures CountSelected(SelectTabs(DefaultTabs(kind), category, subtype)) <= 1
    ensures HasTab(DefaultTabs(kind), category, subtype) ==>
      CountSelected(SelectTabs(DefaultTabs(kind), category, subtype)) == 1
  {
    if kind == Movie {
      MovieDefaultTabsDistinct();
    } else {
      TvDefaultTabsDistinct();
    }
    SelectedAtMostOne(DefaultTabs(kind), category, subtype);
  }

  lemma MovieDefaultTabsDistinct()
    ensures DistinctPairs(DefaultTabs(Movie))
  {
  }

  lemma TvDefaultTabsDistinct()
    ensures DistinctPairs(DefaultTabs(Tv))
  {
  }

  /**
   * An upstream tab list may repeat a pair; then every copy is selected, so
   * "at most one selected tab" depends on the pairs being distinct.
   */
  lemma RepeatedUpstreamPairSelectsBoth()
    ensures var tabs := [Tab("tv", "tv", "综合", false), Tab("tv", "tv", "全部剧集", false)];
      CountSelected(SelectTabs(tabs, "tv", "tv")) == 2
  {
    var tabs := [Tab("tv", "tv", "综合", false), Tab("tv", "tv", "全部剧集", false)];
    CountSelectedUnfold(tabs, "tv", "tv");
    CountSelectedUnfold(tabs[1..], "tv", "tv");
    assert tabs[1..][1..] == [];
  }

  // ---------------------------------------------------------------------------
  // The ranking operation
  // ---------------------------------------------------------------------------

  /** `items || subjects || []`: a present `items` array wins even when empty. */
  function UpstreamItems(p: Payload): seq<Item> {
    if p.items.Some? then p.items.value else if p.subjects.Some? then p.subjects.value else []
  }

  /** `categories || []` followed by the default-tab synthesis for an empty list. */
  function UpstreamTabs(kind: Kind, categories: Option<seq<Tab>>): seq<Tab> {
    if categories.Some? && categories.value != [] then categories.value else DefaultTabs(kind)
  }

  /** A present but empty `items` array shadows a non-empty `subjects`. */
  lemma EmptyItemsShadowSubjects(p: Payload)
    requires p.items == Some([]) && p.subjects.Some? && p.subjects.value != []
    ensures UpstreamItems(p) == [] && UpstreamItems(p) != p.subjects.value
  {
  }

  /**
   * The upstream query: `start` and `limit` always, `type` only when it is not
   * the kind's default type, `category` only when it is not the default category.
   */
  method BuildRequest(kind: Kind, category: string, subtype: string, start: int, limit: int)
    returns (req: UpstreamRequest)
    ensures req.path == EndpointPath(kind)
    ensures req.params.start == start && req.params.limit == limit
    ensures req.params.subtype.Some? <==> subtype != DefaultSubtype(kind)
    ensures req.params.subtype.Some? ==> req.params.subtype.value == subtype
    ensures req.params.category.Some? <==> category != DefaultCategory(kind)
    ensures req.params.category.Some? ==> req.params.category.value == category
  {
    var params := Params(start, limit, None, None);
    if category != DefaultCategory(kind) || subtype != DefaultSubtype(kind) {
      if subtype != DefaultSubtype(kind) {
        params := params.(subtype := Some(subtype));
      }
      if category != DefaultCategory(kind) {
        params := params.(category := Some(category));
      }
    }
    req := UpstreamRequest(EndpointPath(kind), params);
  }

  /**
   * `categories || []`, replaced by the default tabs when empty, then every
   * tab's `selected` recomputed from the request.
   */
  method NormaliseTabs(kind: Kind, upstreamTabs: Option<seq<Tab>>, category: string, subtype: string)
    returns (tabs: seq<Tab>)
    ensures tabs == SelectTabs(UpstreamTabs(kind, upstreamTabs), category, subtype)
  {
    tabs := if upstreamTabs.Some? then upstreamTabs.value else [];
    if |tabs| == 0 {
      tabs := DefaultTabs(kind);
    }
    tabs := SelectTabs(tabs, category, subtype);
  }

  /**
   * The normalisation getMovieRanking / getTvRanking apply to a truthy response
   * body: fall back to the mock items when there are none, synthesise the tabs
   * when there are none and recompute `selected`, truncate the items to `limit`
   * and assemble the envelope.
   */
  method Normalise(kind: Kind, data: Payload, category: string, subtype: string, start: int, limit: int)
    returns (d: RankingData)
    // the request is echoed, tabs are upstream or default tabs with `selected` recomputed
    ensures d.start == start && d.limit == limit && d.category == category && d.subtype == subtype
    ensures d.categories == SelectTabs(UpstreamTabs(kind, data.categories), category, subtype)
    // mock-only fields appear exactly for mock data
    ensures d.mockReason.Some? <==> d.isMockData
    ensures d.notice == if d.isMockData then Some(Js.StrOr(data.notice, MockNotice)) else None
    // no items: fallback items, but the upstream total still wins when truthy
    ensures UpstreamItems(data) == [] ==>
      && d.isMockData && d.mockReason == Some(ReasonEmpty)
      && d.items == Js.Slice(MockItems(kind), limit) && d.total == Js.NumOr(data.total, 3)
    // real items: passed through, total falls back to the untruncated count
    ensures UpstreamItems(data) != [] ==>
      && d.isMockData == data.isMockData
      && (d.isMockData ==> d.mockReason == Some(Js.StrOr(data.mockReason, "")))
      && d.items == Js.Slice(UpstreamItems(data), limit)
      && d.total == Js.NumOr(data.total, |UpstreamItems(data)|)
  {
    var items := if data.items.Some? then data.items.value
                 else if data.subjects.Some? then data.subjects.value
                 else [];
    var isMockData := data.isMockData;
    var mockReason := Js.StrOr(data.mockReason, "");
    assert items == UpstreamItems(data);

    if |items| == 0 {
      var mockData := MockData(kind);
      items := if mockData.items.Some? then mockData.items.value else [];
      isMockData := true;
      mockReason := ReasonEmpty;
    }

    var categories := NormaliseTabs(kind, data.categories, category, subtype);

    d := RankingData(
      items := Js.Slice(items, limit),
      total := Js.NumOr(data.total, |items|),
      start := start,
      limit := limit,
      category := category,
      subtype := subtype,
      categories := categories,
      isMockData := isMockData,
      mockReason := if isMockData then Some(mockReason) else None,
      notice := if isMockData then Some(Js.StrOr(data.notice, MockNotice)) else None);
  }

  /**
   * getMovieRanking / getTvRanking: build the upstream request, substitute the
   * mock dataset when the call throws, and normalise a truthy response body.
   */
  method GetRanking(kind: Kind, category: string, subtype: string, start: int, limit: int, upstream: Upstream)
    returns (req: UpstreamRequest, r: RankingResult)
    ensures req.path == EndpointPath(kind) && req.params.start == start && req.params.limit == limit
    ensures req.params.subtype == (if subtype != DefaultSubtype(kind) then Some(subtype) else None)
    ensures req.params.category == (if category != DefaultCategory(kind) then Some(category) else None)
    // a falsy response body is the only way to fail
    ensures r.Failure? <==> upstream == Ok(None)
    ensures r.Failure? ==> r.message == NoDataMessage
    ensures r.Success? ==>
      && r.data.start == start && r.data.limit == limit
      && r.data.category == category && r.data.subtype == subtype
      && (r.data.mockReason.Some? <==> r.data.isMockData)
      && (r.data.notice.Some? <==> r.data.isMockData)
    // the call threw: the fallback dataset, the default tabs, total 3
    ensures upstream.Failed? ==>
      && r.Success? && r.data.isMockData
      && r.data.mockReason == Some(ReasonCallFailed) && r.data.notice == Some(MockNotice)
      && r.data.items == Js.Slice(MockItems(kind), limit) && r.data.total == 3
      && r.data.categories == SelectTabs(DefaultTabs(kind), category, subtype)
    // the call answered with a body: its tabs, or the defaults, with `selected` recomputed
    ensures upstream.Ok? && upstream.data.Some? ==>
      r.Success? && r.data.categories == SelectTabs(UpstreamTabs(kind, upstream.data.value.categories), category, subtype)
    // ... and no items: fallback items, but the upstream total and notice still win when truthy
    ensures upstream.Ok? && upstream.data.Some? && UpstreamItems(upstream.data.value) == [] ==>
      var p := upstream.data.value;
      && r.Success? && r.data.isMockData
      && r.data.mockReason == Some(ReasonEmpty) && r.data.notice == Some(Js.StrOr(p.notice, MockNotice))
      && r.data.items == Js.Slice(MockItems(kind), limit) && r.data.total == Js.NumOr(p.total, 3)
    // ... or real items: passed through, total falls back to the untruncated count
    ensures upstream.Ok? && upstream.data.Some? && UpstreamItems(upstream.data.value) != [] ==>
      var p := upstream.data.value;
      && r.Success? && r.data.isMockData == p.isMockData
      && r.data.items == Js.Slice(UpstreamItems(p), limit)
      && r.data.total == Js.NumOr(p.total, |UpstreamItems(p)|)
      && (p.isMockData ==>
            r.data.mockReason == Some(Js.StrOr(p.mockReason, "")) && r.data.notice == Some(Js.StrOr(p.notice, MockNotice)))
  {
    req := BuildRequest(kind, category, subtype, start, limit);

    var response: Option<Payload>;
    match upstream {
      case Failed =>
        var mockData := MockData(kind);
        mockData := mockData.(isMockData := true, mockReason := Some(ReasonCallFailed));
        response := Some(mockData);
      case Ok(data) =>
        response := data;
    }

    if response.None? {
      r := Failure(NoDataMessage);
      return;
    }
    var d := Normalise(kind, response.value, category, subtype, start, limit);
    r := Success(d);
  }

  /** The fallback dataset is never empty, so a fallback never triggers a second one. */
  lemma MockItemsNonEmpty(kind: Kind)
    ensures |MockItems(kind)| == 3 && UpstreamItems(MockData(kind)) == MockItems(kind)
  {
  }

  /**
   * The returned items are a prefix of the normalised items of length at most
   * `limit`; `total` counts the normalised items, not the truncated ones.
   */
  lemma TruncationKeepsPrefix(items: seq<Item>, limit: int)
    requires 0 <= limit
    ensures Js.Slice(items, limit) == items[..|Js.Slice(items, limit)|]
    ensures |Js.Slice(items, limit)| == Js.Min(limit, |items|)
  {
  }

  /**
   * Scenario: a movie request for the default tab while the upstream is down
   * yields the three fallback movies, total 3, and the 热门/全部 default tab selected.
   */
  method ScenarioMovieUpstreamDown() {
    var req, r := GetRanking(Movie, "热门", "全部", 0, 20, Failed);
    assert req.params == Params(0, 20, None, None);
    assert r.data.items == MockItems(Movie);
    assert r.data.items[0].title == "肖申克的救赎";
    assert r.data.total == 3 && r.data.isMockData;
    assert r.data.categories[0].selected && !r.data.categories[1].selected;
  }

  /**
   * Scenario: a tv_korean request with upstream tabs holding only the 综合 tab
   * leaves that tab unselected; with limit 1 the total still counts all items.
   */
  method ScenarioTvKoreanWithUpstreamTab(items: seq<Item>) requires |items| == 10 {
    var upstreamTab := Tab("tv", "tv", "综合", true);
    var p := Payload(Some(items), None, Some([upstreamTab]), None, false, None, None);
    var req, r := GetRanking(Tv, "tv", "tv_korean", 0, 1, Ok(Some(p)));
    assert req.params == Params(0, 1, Some("tv_korean"), None);
    assert |r.data.categories| == 1 && !r.data.categories[0].selected;
    assert |r.data.items| == 1 && r.data.total == 10;
    assert !r.data.isMockData && r.data.notice == None;
  }
}
