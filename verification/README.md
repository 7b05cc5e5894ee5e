# douban-api ranking core in Dafny

douban-api is an Express service that proxies Douban's mobile "recent hot"
ranking endpoints for movies and TV. This project models its core in Dafny and
proves properties of the model:

- **DoubanService** (`douban_service.dfy`) models `getMovieRanking` and `getTvRanking`:
  - the upstream query parameters;
  - the fallback dataset used when the upstream call throws, and the one used when it returns no items;
  - the default tabs synthesised when none are sent, and the recomputed `selected` flags;
  - truncation to `limit`, and the response envelope;
  - the movie and TV category catalogs, with their sub-category lookups.
- **DoubanRoutes** (`douban_routes.dfy`) models the nine ranking handlers:
  - parsing of `start` and `limit`;
  - the 400 validations;
  - each route's (category, type) resolution, including the drama and variety `switch`es and the legacy `/recent_hot` dispatch on `type`;
  - the 200 and 500 replies.
- **ErrorHandler** (`error_handler.dfy`) models the `ApiResponse` envelope and the error middleware's classification chain.
- `js.dfy` spells out the JavaScript semantics the code relies on:
  - `a || b` on strings and numbers;
  - `Array.prototype.slice(0, end)`, including a negative `end`.
- `wrappers.dfy` holds `Option`.

The Douban HTTP call is an input of the model. `Upstream.Failed` stands for a
thrown request. `Upstream.Ok(None)` is a response whose `data` is falsy.
`Upstream.Ok(Some(p))` is a response whose body is `p`.

Step-by-step code is modelled as methods proved against specification
functions: `BuildRequest`, `NormaliseTabs`, `Normalise`, `GetRanking`,
`Decide`, `Handle`, `HandleError`, `DramaType` and `VarietyType`. Expression
code is modelled as functions and lemmas: the `categories.map(...)`, the
catalogs and the classification rules.

Where the code and its documentation disagree, the model follows the code:

- `total` falls back to the number of normalised items *before* truncation
  (`response.data.total || items.length` is evaluated on the untruncated list).
- `limit` has no lower bound in the handlers. `parseInt('0') || 20` is 20, and
  a negative limit reaches `items.slice(0, limit)`, which drops items from the end.
- The legacy `/recent_hot` handler forwards `category` and `subtype` with the
  defaults '热门' and '全部' even when `type` is `tv`.
- "At most one tab is selected" holds only when the tab list has no repeated
  (category, type) pair. It does hold for both default tab lists.
- A 500 reply always carries the service's own message '未获取到数据'. The
  handlers' fallback messages (`result.message || '获取…失败'`) can never be chosen.

## Model

| member | source | states |
|---|---|---|
| Js.StrOr | src/services/doubanService.js:168 | JS `s || fallback` on a string: the fallback, or a non-empty present value |
| Js.NumOr | src/services/doubanService.js:159 | JS `n || fallback` on a number: the fallback, or a non-zero present value |
| Js.Slice | src/services/doubanService.js:158 | `slice(0, end)` returns a prefix. For `end >= 0` it has at most `end` items and is the whole list when shorter. For `end < 0` its length is `max(0, len + end)` |
| DoubanService.MovieRegionsShape | src/services/doubanService.js:26-32 | every movie major category has the sub-types 全部, 华语, 欧美, 韩国, 日本, each standing for (its category, its own name) |
| DoubanService.MovieCatalogShape | src/services/doubanService.js:25-374 | exactly four movie major categories, each with the same five sub-types; each leaf is (the major's upstream code, the sub-type); `getMovieSubCategories` returns the major's table, or `{}` for a name outside the table; `getAllCategories().movie` has the same majors and agrees with `getMovieSubCategories` on each |
| DoubanService.TvCatalogShape | src/services/doubanService.js:57-381 | two TV groups: seven drama sub-types under 'tv', three variety sub-types under 'show'; `getTvSubCategories` returns the group's table, or `{}` for a name outside the table; `getAllCategories().tv` has the same groups and agrees with `getTvSubCategories` on each |
| DoubanService.MovieLeaf | src/services/doubanService.js:25-54 | every pair of the four upstream movie categories and five sub-types is a catalog leaf |
| DoubanService.MovieDefaultTabsInCatalog | src/services/doubanService.js:137-146 | there are eight default movie tabs, and each names a movie catalog leaf |
| DoubanService.TvDefaultTabsInCatalog | src/services/doubanService.js:246-255 | there are eight default TV tabs, and each names a TV catalog leaf |
| DoubanService.SelectTabs | src/services/doubanService.js:150-153 | the map keeps every tab's category, type and title, and sets `selected` exactly when the tab's pair equals the request's |
| DoubanService.SelectedAtMostOne | src/services/doubanService.js:150-153 | over tabs with distinct pairs, the number selected is 1 if the requested pair is present and 0 otherwise |
| DoubanService.DefaultTabsSelectAtMostOne | src/services/doubanService.js:136-153 | at most one default tab is selected, and exactly one when the requested pair is a default tab |
| DoubanService.MovieDefaultTabsDistinct | src/services/doubanService.js:137-146 | the default movie tabs have distinct (category, type) pairs |
| DoubanService.TvDefaultTabsDistinct | src/services/doubanService.js:246-255 | the default TV tabs have distinct (category, type) pairs |
| DoubanService.RepeatedUpstreamPairSelectsBoth | src/services/doubanService.js:259-262 | an upstream list that repeats a pair gets both copies selected |
| DoubanService.EmptyItemsShadowSubjects | src/services/doubanService.js:120 | a present but empty `items` array hides a non-empty `subjects` |
| DoubanService.BuildRequest | src/services/doubanService.js:88-212 | `start` and `limit` are always sent. `type` is sent iff it differs from the kind's default type ('全部' for movies, 'tv' for TV), and `category` iff it differs from the default category ('热门' / 'tv') |
| DoubanService.NormaliseTabs | src/services/doubanService.js:121-153 | the tabs are the upstream tabs, or the defaults when none are sent, with `selected` recomputed |
| DoubanService.Normalise | src/services/doubanService.js:118-171 | echoes the request. With no items: fallback items, isMockData, reason 'API返回空数据'. Otherwise the upstream items truncated to `limit`, with `total` falling back to the untruncated count. `mockReason`/`notice` are present iff isMockData |
| DoubanService.GetRanking | src/services/doubanService.js:83-293 | for movies and TV: the request parameters. Failure iff the body is falsy. A thrown call gives the fallback set with reason 'API调用失败', total 3 and the default tabs. A truthy body is normalised |
| DoubanService.MockItemsNonEmpty | src/services/doubanService.js:386-453 | each fallback dataset has three items, so using it never triggers the empty-data fallback again |
| DoubanService.TruncationKeepsPrefix | src/services/doubanService.js:158 | for a non-negative limit the returned items are the first `min(limit, n)` normalised items |
| DoubanRoutes.ParseLimit | src/routes/douban.js:21 | `parseInt(limit) || 20`: NaN and 0 give 20, and any other value passes unchanged |
| DoubanRoutes.ParseStart | src/routes/douban.js:20 | `parseInt(start) || 0`: an unparseable start becomes 0, and every other value, negatives included, passes unchanged |
| DoubanRoutes.DramaType | src/routes/douban.js:186-204 | always category 'tv'. A known name resolves to its `最近热门剧集` catalog leaf, and an unknown one to 'tv' |
| DoubanRoutes.VarietyType | src/routes/douban.js:231-241 | always category 'show'. A known name resolves to its `最近热门综艺` catalog leaf, and an unknown one to 'show' |
| DoubanRoutes.ResolveShape | src/routes/douban.js:12-311 | the resolution rejects exactly: a limit over 100 ('limit参数不能超过100'); then a negative start on the three recent_hot routes ('start参数不能小于0'); then a legacy `type` other than movie or tv ('type参数只支持movie或tv'). A call carries the parsed start and limit. Movie path routes fix the major category with type defaulting to '全部'. Drama and variety names map through the catalog, default '综合'. Generic routes forward the query pair with the kind's defaults |
| DoubanRoutes.Decide | src/routes/douban.js:12-311 | the handlers' step-by-step parsing, checks and `switch`es (drama and variety through `DramaType`/`VarietyType`) produce exactly `Resolve`, the catalog-based resolution whose meaning `ResolveShape` states |
| DoubanRoutes.Handle | src/routes/douban.js:12-318 | 400 iff the resolution rejects, with its message, and then the service is not called. Otherwise the upstream request carries the resolved pair under the service's default-omission rule. 500 iff the upstream body is falsy, always with '未获取到数据'. A 200 carries the route's message and echoes the resolved category, type, start and limit; its tabs are the default or upstream tabs with `selected` recomputed, its items the fallback or upstream items truncated to `limit`, never more than a positive `limit` |
| ErrorHandler.Success | src/middleware/errorHandler.js:13-15 | the factory's fields: success, code 0, the data, and the message with default '操作成功' |
| ErrorHandler.Error | src/middleware/errorHandler.js:17-19 | the factory's fields: failure, the code with default 10000, no data, and the message |
| ErrorHandler.FirstApplicable | src/middleware/errorHandler.js:34-61 | the index of the first applicable branch in order: it applies and none before it does |
| ErrorHandler.Classify | src/middleware/errorHandler.js:34-61 | the chosen branch applies, and no applicable branch comes earlier |
| ErrorHandler.ClassifyIsFirstMatch | src/middleware/errorHandler.js:34-61 | a branch is taken iff its condition holds and no earlier condition does |
| ErrorHandler.HandleError | src/middleware/errorHandler.js:25-65 | the reply is the outcome of the first applicable branch, sent as `ApiResponse.error(message, code)` under its status |
| ErrorHandler.CodeIdentifiesBranch | src/middleware/errorHandler.js:34-61 | each code other than 10000 belongs to exactly one branch |
| ErrorHandler.ValidationBeatsConnectionRefused | src/middleware/errorHandler.js:34-49 | a ValidationError is a 400 even when its code is ECONNREFUSED |
| ErrorHandler.UpstreamStatusPassesThrough | src/middleware/errorHandler.js:54-58 | an otherwise unmatched error with a truthy response status keeps that status and gets code 10006. The message is a truthy `response.data.message`, else a truthy `err.message`, else '外部服务错误' |
| ErrorHandler.UnclassifiedIsInternal | src/middleware/errorHandler.js:28-31 | an error no named branch matches is a 500 with code 10000. It carries its own non-empty message, else '服务器内部错误' |

## Left out

- The axios client, its base URL, headers and 30-second timeout are not modelled. The upstream call is the `Upstream` input.
- Logging (`console.log`/`console.error`) is not modelled.
- The `timestamp` field of `ApiResponse` is left out, because it reads the clock.
- The outer `catch` that rethrows `获取电影榜单失败: …` is left out. Nothing in the modelled body can throw once the call's failure is an input.
- `asyncHandler`'s forwarding of a rejected promise to the middleware is left out. The middleware itself is `HandleError`.
- `getSpecificMovieData` and `getSpecificTvData` are left out, because no route calls them.
- The category-listing routes (`/movie/categories`, `/tv/categories`, `/categories`) are not modelled. They only wrap the catalogs, which are modelled by `MovieCategories`, `TvCategories` and `GetAllCategories`.
- `src/app.js` (server setup, CORS, 404 handler) is not part of this model.
- Item fields other than `id`, `title` and `year` are left out: `rating`, `directors`, `actors`, and whatever else the upstream sends. Every item is passed through unchanged.
- Tab fields other than category, type, title and selected are left out for the same reason.
- `parseInt` is a parameter: `start`/`limit` arrive already parsed, with `None` for NaN or an absent value.
- Query values that are arrays, and a non-boolean `isMockData` from the upstream, are not modelled.
- Empty-string and absent values of a query string are distinguished (`Some("")` against `None`), because destructuring defaults apply only to `undefined`.
- Error `name` and `code` use the empty string for an absent property, since they are only compared against non-empty constants.
- DoubanService.MovieCatalogShape: `getMovieSubCategories` is modelled on a plain map, so a name that is an `Object.prototype` member ('constructor', 'toString', '__proto__') gives `{}` in the model, while the JavaScript lookup returns the inherited member.
- DoubanService.TvCatalogShape: the same `Object.prototype` lookup is not modelled for `getTvSubCategories`.
