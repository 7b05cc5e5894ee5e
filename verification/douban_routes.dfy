/**
 * The ranking handlers of src/routes/douban.js: parse `start`/`limit`, reject
 * out-of-range values, resolve each route's (category, type) pair, call the
 * ranking service, and turn its result into a 200 or 500 reply.
 */
module DoubanRoutes {
  import opened Wrappers
  import Js
  import S = DoubanService
  import E = ErrorHandler

  /** The ranking routes under /api/douban. */
  datatype Route =
    | MovieRecentHot   // GET /movie/recent_hot
    | MovieHot         // GET /movie/hot/:type?
    | MovieLatest      // GET /movie/latest/:type?
    | MovieTop         // GET /movie/top/:type?
    | MovieUnderrated  // GET /movie/underrated/:type?
    | TvRecentHot      // GET /tv/recent_hot
    | TvDrama          // GET /tv/drama/:type?
    | TvVariety        // GET /tv/variety/:type?
    | RecentHot        // GET /recent_hot (legacy)

  /**
   * The inputs of a handler: the optional `:type` path segment, the query
   * strings `category`, `type` and `subtype`, and `parseInt` of the query's
   * `start` and `limit` (`None` for NaN; an absent value parses as its default).
   */
  datatype Request = Request(
    pathType: Option<string>,
    category: Option<string>,
    queryType: Option<string>,
    subtype: Option<string>,
    start: Option<int>,
    limit: Option<int>)

  /** A call of the ranking service. */
  datatype Call = Call(kind: S.Kind, category: string, subtype: string, start: int, limit: int)

  /** A handler either answers 400 with a message or calls the service. */
  datatype Dispatch = Reject(message: string) | Invoke(call: Call)

  /** An HTTP reply: status and JSON body. */
  datatype Response = Response(status: int, body: E.ApiResponse<S.RankingData>)

  const LimitTooLarge: string := "limit参数不能超过100"
  const StartNegative: string := "start参数不能小于0"
  const UnsupportedType: string := "type参数只支持movie或tv"
  const MaxLimit: int := 100

  /** `parseInt(start) || 0`: NaN becomes 0; every other value, negatives included, passes. */
  function ParseStart(start: Option<int>): (n: int)
    ensures start.Some? ==> n == start.value
    ensures start.None? ==> n == 0
  {
    Js.NumOr(start, 0)
  }

  /** `parseInt(limit) || 20`: NaN and 0 both become 20; negative values pass. */
  function ParseLimit(limit: Option<int>): (n: int)
    ensures n != 0
    ensures limit.Some? && limit.value != 0 ==> n == limit.value
    ensures limit.None? || limit == Some(0) ==> n == 20
  {
    Js.NumOr(limit, 20)
  }

  /** Only the three `recent_hot` handlers reject a negative start. */
  predicate ChecksStart(route: Route) {
    route == MovieRecentHot || route == TvRecentHot || route == RecentHot
  }

  /** The movie path routes and the major category each one fixes. */
  predicate FixedMovieRoute(route: Route) {
    route == MovieHot || route == MovieLatest || route == MovieTop || route == MovieUnderrated
  }

  function FixedMovieCategory(route: Route): string
    requires FixedMovieRoute(route)
  {
    match route
    case MovieHot => "热门"
    case MovieLatest => "最新"
    case MovieTop => "豆瓣高分"
    case MovieUnderrated => "冷门佳片"
  }

  /** The media kind the legacy route's `type` names, if it names one. */
  function LegacyKind(req: Request): Option<S.Kind> {
    var t := req.queryType.GetOr("movie");
    if t == "movie" then Some(S.Movie) else if t == "tv" then Some(S.Tv) else None
  }

  /** Whether a handler answers 400 before calling the service. */
  predicate Rejected(route: Route, req: Request) {
    || ParseLimit(req.limit) > MaxLimit
    || (ChecksStart(route) && ParseStart(req.start) < 0)
    || (route == RecentHot && LegacyKind(req).None?)
  }

  /** The media kind a handler asks the service for. */
  function KindOf(route: Route, req: Request): S.Kind {
    match route
    case MovieRecentHot | MovieHot | MovieLatest | MovieTop | MovieUnderrated => S.Movie
    case TvRecentHot | TvDrama | TvVariety => S.Tv
    case RecentHot => if req.queryType.GetOr("movie") == "movie" then S.Movie else S.Tv
  }

  /** The sub-type a catalog group maps `name` to, or `fallback` for a name outside it. */
  function CatalogType(group: map<string, S.Entry>, name: string, fallback: string): string {
    if name in group then group[name].subtype else fallback
  }

  /** The upstream category a route asks for once validation has passed. */
  function RouteCategory(route: Route, req: Request): string {
    match route
    case MovieRecentHot => req.category.GetOr("热门")
    case MovieHot => "热门"
    case MovieLatest => "最新"
    case MovieTop => "豆瓣高分"
    case MovieUnderrated => "冷门佳片"
    case TvRecentHot => req.category.GetOr("tv")
    case TvDrama => "tv"
    case TvVariety => "show"
    case RecentHot => req.category.GetOr("热门")
  }

  /** The upstream type a route asks for: drama and variety names go through the catalog. */
  function RouteSubtype(route: Route, req: Request): string {
    match route
    case MovieRecentHot => req.queryType.GetOr("全部")
    case MovieHot | MovieLatest | MovieTop | MovieUnderrated => req.pathType.GetOr("全部")
    case TvRecentHot => req.queryType.GetOr("tv")
    case TvDrama => CatalogType(S.DramaCategories(), req.pathType.GetOr("综合"), "tv")
    case TvVariety => CatalogType(S.VarietyCategories(), req.pathType.GetOr("综合"), "show")
    case RecentHot => req.subtype.GetOr("全部")
  }

  /**
   * What a handler decides, as a specification: the first failed check in the
   * handler's order answers 400, otherwise the service is called with the
   * route's pair and the parsed start and limit.
   */
  function Resolve(route: Route, req: Request): Dispatch {
    var start := ParseStart(req.start);
    var limit := ParseLimit(req.limit);
    if limit > MaxLimit then Reject(LimitTooLarge)
    else if ChecksStart(route) && start < 0 then Reject(StartNegative)
    else if route == RecentHot && LegacyKind(req).None? then Reject(UnsupportedType)
    else Invoke(Call(KindOf(route, req), RouteCategory(route, req), RouteSubtype(route, req), start, limit))
  }

  /**
   * The drama handler's `switch (type)`: the upstream pair is always under
   * category 'tv'; an unknown name falls back to type 'tv'.
   */
  method DramaType(name: string) returns (category: string, apiType: string)
    ensures category == "tv"
    ensures name in S.DramaCategories() ==> S.Entry(category, apiType) == S.DramaCategories()[name]
    ensures name !in S.DramaCategories() ==> apiType == "tv"
  {
    match name {
      case "综合" => category, apiType := "tv", "tv";
      case "国产剧" => category, apiType := "tv", "tv_domestic";
      case "欧美剧" => category, apiType := "tv", "tv_american";
      case "日剧" => category, apiType := "tv", "tv_japanese";
      case "韩剧" => category, apiType := "tv", "tv_korean";
      case "动画" => category, apiType := "tv", "tv_animation";
      case "纪录片" => category, apiType := "tv", "tv_documentary";
      case _ => category, apiType := "tv", "tv";
    }
  }

  /**
   * The variety handler's `switch (type)`: always category 'show'; '综合',
   * '国内', '国外' pick their type and any other name falls back to 'show'.
   */
  method VarietyType(name: string) returns (category: string, apiType: string)
    ensures category == "show"
    ensures name in S.VarietyCategories() ==> S.Entry(category, apiType) == S.VarietyCategories()[name]
    ensures name !in S.VarietyCategories() ==> apiType == "show"
  {
    match name {
      case "综合" => category, apiType := "show", "show";
      case "国内" => category, apiType := "show", "show_domestic";
      case "国外" => category, apiType := "show", "show_foreign";
      case _ => category, apiType := "show", "show";
    }
  }

  /**
   * What the resolution means route by route: the validation order and
   * messages, the parsed start and limit, and each route's (category, type).
   */
  lemma ResolveShape(route: Route, req: Request, d: Dispatch)
    requires d == Resolve(route, req)
    // validation: which requests are rejected, and with which message
    ensures d.Reject? <==> Rejected(route, req)
    ensures ParseLimit(req.limit) > MaxLimit ==> d == Reject(LimitTooLarge)
    ensures ParseLimit(req.limit) <= MaxLimit && ChecksStart(route) && ParseStart(req.start) < 0 ==>
      d == Reject(StartNegative)
    ensures
      && ParseLimit(req.limit) <= MaxLimit && !(ChecksStart(route) && ParseStart(req.start) < 0)
      && route == RecentHot && LegacyKind(req).None?
      ==> d == Reject(UnsupportedType)
    ensures d.Reject? && d.message == UnsupportedType ==> route == RecentHot
    // a call carries the parsed start and limit
    ensures d.Invoke? ==>
      && d.call.kind == KindOf(route, req)
      && d.call.start == ParseStart(req.start) && d.call.limit == ParseLimit(req.limit)
      && d.call.limit <= MaxLimit && d.call.limit != 0
      && (ChecksStart(route) ==> d.call.start >= 0)
    // generic routes forward the query's pair, with the kind's defaults
    ensures d.Invoke? && route == MovieRecentHot ==>
      d.call.kind == S.Movie && d.call.category == req.category.GetOr("热门") && d.call.subtype == req.queryType.GetOr("全部")
    ensures d.Invoke? && route == TvRecentHot ==>
      d.call.kind == S.Tv && d.call.category == req.category.GetOr("tv") && d.call.subtype == req.queryType.GetOr("tv")
    // movie path routes fix the major category; the type defaults to '全部'
    ensures d.Invoke? && FixedMovieRoute(route) ==>
      d.call.kind == S.Movie && d.call.category == FixedMovieCategory(route) && d.call.subtype == req.pathType.GetOr("全部")
    // drama and variety routes map the sub-type name through the catalog
    ensures d.Invoke? && route == TvDrama ==>
      var name := req.pathType.GetOr("综合");
      && d.call.kind == S.Tv && d.call.category == "tv"
      && (name in S.DramaCategories() ==> d.call.subtype == S.DramaCategories()[name].subtype)
      && (name !in S.DramaCategories() ==> d.call.subtype == "tv")
    ensures d.Invoke? && route == TvVariety ==>
      var name := req.pathType.GetOr("综合");
      && d.call.kind == S.Tv && d.call.category == "show"
      && (name in S.VarietyCategories() ==> d.call.subtype == S.VarietyCategories()[name].subtype)
      && (name !in S.VarietyCategories() ==> d.call.subtype == "show")
    // the legacy route picks the kind from `type` and forwards (category, subtype)
    ensures d.Invoke? && route == RecentHot ==>
      && LegacyKind(req) == Some(d.call.kind)
      && d.call.category == req.category.GetOr("热门") && d.call.subtype == req.subtype.GetOr("全部")
  {
  }

  /**
   * Everything a ranking handler does before awaiting the service: parse,
   * validate in the handler's order (limit, then start on the recent_hot
   * routes, then the legacy `type`), and resolve the service call.
   */
  method Decide(route: Route, req: Request) returns (d: Dispatch)
    ensures d == Resolve(route, req)
  {
    var startNum := ParseStart(req.start);
    var limitNum := ParseLimit(req.limit);

    if limitNum > MaxLimit {
      return Reject(LimitTooLarge);
    }
    if ChecksStart(route) && startNum < 0 {
      return Reject(StartNegative);
    }

    match route {
      case MovieRecentHot =>
        d := Invoke(Call(S.Movie, req.category.GetOr("热门"), req.queryType.GetOr("全部"), startNum, limitNum));
      case MovieHot =>
        d := Invoke(Call(S.Movie, "热门", req.pathType.GetOr("全部"), startNum, limitNum));
      case MovieLatest =>
        d := Invoke(Call(S.Movie, "最新", req.pathType.GetOr("全部"), startNum, limitNum));
      case MovieTop =>
        d := Invoke(Call(S.Movie, "豆瓣高分", req.pathType.GetOr("全部"), startNum, limitNum));
      case MovieUnderrated =>
        d := Invoke(Call(S.Movie, "冷门佳片", req.pathType.GetOr("全部"), startNum, limitNum));
      case TvRecentHot =>
        d := Invoke(Call(S.Tv, req.category.GetOr("tv"), req.queryType.GetOr("tv"), startNum, limitNum));
      case TvDrama =>
        var category, apiType := DramaType(req.pathType.GetOr("综合"));
        d := Invoke(Call(S.Tv, category, apiType, startNum, limitNum));
      case TvVariety =>
        var category, apiType := VarietyType(req.pathType.GetOr("综合"));
        d := Invoke(Call(S.Tv, category, apiType, startNum, limitNum));
      case RecentHot =>
        var kind := req.queryType.GetOr("movie");
        var category := req.category.GetOr("热门");
        var subtype := req.subtype.GetOr("全部");
        if kind == "movie" {
          d := Invoke(Call(S.Movie, category, subtype, startNum, limitNum));
        } else if kind == "tv" {
          d := Invoke(Call(S.Tv, category, subtype, startNum, limitNum));
        } else {
          d := Reject(UnsupportedType);
        }
    }
  }

  /** The message of a 200 reply. */
  function SuccessMessage(route: Route, req: Request): string {
    match route
    case MovieRecentHot => "获取电影榜单成功: " + req.category.GetOr("热门") + " - " + req.queryType.GetOr("全部")
    case MovieHot => "获取热门电影榜单成功: " + req.pathType.GetOr("全部")
    case MovieLatest => "获取最新电影榜单成功: " + req.pathType.GetOr("全部")
    case MovieTop => "获取豆瓣高分电影榜单成功: " + req.pathType.GetOr("全部")
    case MovieUnderrated => "获取冷门佳片榜单成功: " + req.pathType.GetOr("全部")
    case TvRecentHot => "获取电视剧榜单成功: " + req.category.GetOr("tv") + " - " + req.queryType.GetOr("tv")
    case TvDrama => "获取最近热门剧集榜单成功: " + req.pathType.GetOr("综合")
    case TvVariety => "获取最近热门综艺榜单成功: " + req.pathType.GetOr("综合")
    case RecentHot => "获取" + (if req.queryType.GetOr("movie") == "movie" then "电影" else "电视剧") + "榜单成功"
  }

  /** The fixed message of a 500 reply when the service result carries none. */
  function FailureMessage(route: Route): string {
    match route
    case MovieRecentHot => "获取电影榜单失败"
    case MovieHot => "获取热门电影榜单失败"
    case MovieLatest => "获取最新电影榜单失败"
    case MovieTop => "获取豆瓣高分电影榜单失败"
    case MovieUnderrated => "获取冷门佳片榜单失败"
    case TvRecentHot => "获取电视剧榜单失败"
    case TvDrama => "获取最近热门剧集榜单失败"
    case TvVariety => "获取最近热门综艺榜单失败"
    case RecentHot => "获取榜单失败"
  }

  /**
   * A ranking handler end to end, given what the upstream produces: a 400 when
   * the request is rejected (the service is not called), otherwise the
   * service's result as a 200 `ApiResponse.success` or a 500 `ApiResponse.error`.
   * `sent` is the upstream request the service issued, if any.
   */
  method Handle(route: Route, req: Request, upstream: S.Upstream) returns (sent: Option<S.UpstreamRequest>, resp: Response)
    ensures resp.status in {200, 400, 500}
    // the service is called exactly when the request is not rejected
    ensures sent.None? <==> resp.status == 400
    ensures resp.status == 400 <==> Rejected(route, req)
    ensures sent.Some? ==> sent.value.path == S.EndpointPath(KindOf(route, req))
    ensures resp.status == 400 ==> !resp.body.success && resp.body.code == E.DefaultErrorCode && resp.body.data.None?
    ensures ParseLimit(req.limit) > MaxLimit ==> resp.status == 400 && resp.body.message == LimitTooLarge
    ensures sent.Some? ==>
      sent.value.params.limit == ParseLimit(req.limit) <= MaxLimit && sent.value.params.start == ParseStart(req.start)
    // a 500 happens only for a falsy response body, and always carries the service's own message
    ensures resp.status == 500 <==> sent.Some? && upstream == S.Ok(None)
    ensures resp.status == 500 ==> resp.body == E.Error(S.NoDataMessage)
    // a 200 carries the normalised ranking, never more items than a positive limit
    ensures resp.status == 200 ==>
      && resp.body.success && resp.body.code == 0 && resp.body.data.Some?
      && resp.body.message == SuccessMessage(route, req)
      && resp.body.data.value.limit == ParseLimit(req.limit)
      && (0 < ParseLimit(req.limit) ==> |resp.body.data.value.items| <= ParseLimit(req.limit))
    ensures resp.status == 200 && upstream.Failed? ==>
      && resp.body.data.value.isMockData
      && resp.body.data.value.items == Js.Slice(S.MockItems(KindOf(route, req)), ParseLimit(req.limit))
    // a rejection answers the resolved message; a call sends the resolved pair under the service's rule
    ensures Resolve(route, req).Reject? ==>
      sent.None? && resp == Response(400, E.Error(Resolve(route, req).message))
    ensures Resolve(route, req).Invoke? ==>
      var c := Resolve(route, req).call;
      && sent.Some? && sent.value.path == S.EndpointPath(c.kind)
      && sent.value.params == S.Params(c.start, c.limit,
           if c.subtype != S.DefaultSubtype(c.kind) then Some(c.subtype) else None,
           if c.category != S.DefaultCategory(c.kind) then Some(c.category) else None)
    // a 200 echoes the resolved call and carries its tabs and items
    ensures resp.status == 200 ==>
      var c := Resolve(route, req).call;
      var data := resp.body.data.value;
      && Resolve(route, req).Invoke?
      && data.category == c.category && data.subtype == c.subtype && data.start == c.start
    ensures resp.status == 200 && upstream.Failed? ==>
      var c := Resolve(route, req).call;
      resp.body.data.value.categories == S.SelectTabs(S.DefaultTabs(c.kind), c.category, c.subtype)
    ensures resp.status == 200 && upstream.Ok? && upstream.data.Some? ==>
      var c := Resolve(route, req).call;
      var p := upstream.data.value;
      var data := resp.body.data.value;
      && data.categories == S.SelectTabs(S.UpstreamTabs(c.kind, p.categories), c.category, c.subtype)
      && (S.UpstreamItems(p) == [] ==> data.isMockData && data.items == Js.Slice(S.MockItems(c.kind), c.limit))
      && (S.UpstreamItems(p) != [] ==> data.items == Js.Slice(S.UpstreamItems(p), c.limit))
  {
    var d := Decide(route, req);
    ResolveShape(route, req, d);
    match d {
      case Reject(message) =>
        sent := None;
        resp := Response(400, E.Error(message));
      case Invoke(call) =>
        var upstreamRequest, result := S.GetRanking(call.kind, call.category, call.subtype, call.start, call.limit, upstream);
        sent := Some(upstreamRequest);
        if result.Success? {
          resp := Response(200, E.Success(result.data, SuccessMessage(route, req)));
        } else {
          resp := Response(500, E.Error(Js.StrOr(Some(result.message), FailureMessage(route))));
        }
    }
  }

  /**
   * Scenario: `limit=-1` passes validation (only `limit > 100` is rejected) and,
   * with the upstream down, JS `slice(0, -1)` returns two of the three fallback
   * items, while `limit=0` is falsy and becomes 20.
   */
  method ScenarioNegativeLimit() {
    var req := Request(None, None, None, None, None, Some(-1));
    var sent, resp := Handle(MovieHot, req, S.Failed);
    assert resp.status == 200;
    assert |resp.body.data.value.items| == 2;
    assert resp.body.message == "获取热门电影榜单成功: 全部";
    var sent0, resp0 := Handle(TvDrama, req.(limit := Some(0)), S.Failed);
    assert resp0.status == 200 && sent0.value.params.limit == 20;
  }

  /**
   * Scenario: /tv/drama/韩剧 asks the upstream for type tv_korean (category 'tv'
   * is the TV default, so it is not sent), and the reply echoes that pair.
   */
  method ScenarioKoreanDrama(items: seq<S.Item>) requires items != [] {
    var req := Request(Some("韩剧"), None, None, None, None, None);
    var p := S.Payload(Some(items), None, None, None, false, None, None);
    var sent, resp := Handle(TvDrama, req, S.Ok(Some(p)));
    assert S.DramaCategories()["韩剧"] == S.Entry("tv", "tv_korean");
    assert sent.value.params == S.Params(0, 20, Some("tv_korean"), None);
    assert resp.status == 200 && resp.body.data.value.subtype == "tv_korean";
  }

  /** Scenario: the legacy route rejects `type=book` with 400 and does not call the service. */
  method ScenarioLegacyBadType() {
    var req := Request(None, None, Some("book"), None, None, None);
    var sent, resp := Handle(RecentHot, req, S.Failed);
    assert sent.None? && resp.status == 400 && resp.body.message == UnsupportedType;
  }
}
