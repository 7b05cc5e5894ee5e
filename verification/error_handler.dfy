/**
 * src/middleware/errorHandler.js: the ApiResponse envelope and the error
 * middleware that maps a thrown error to (HTTP status, message, numeric code).
 */
module ErrorHandler {
  import opened Wrappers
  import Js

  // ---------------------------------------------------------------------------
  // ApiResponse
  // ---------------------------------------------------------------------------

  /** The JSON envelope of every reply (its timestamp is not modelled). */
  datatype ApiResponse<T> = ApiResponse(success: bool, code: int, data: Option<T>, message: string)

  const DefaultSuccessMessage: string := "操作成功"
  const DefaultErrorCode: int := 10000

  /** `ApiResponse.success(data, message = "操作成功")`. */
  function Success<T>(data: T, message: string := DefaultSuccessMessage): (r: ApiResponse<T>)
    ensures r.success && r.code == 0 && r.data == Some(data) && r.message == message
  {
    ApiResponse(true, 0, Some(data), message)
  }

  /** `ApiResponse.error(message, code = 10000)`: no data. */
  function Error<T>(message: string, code: int := DefaultErrorCode): (r: ApiResponse<T>)
    ensures !r.success && r.code == code && r.data == None && r.message == message
  {
    ApiResponse(false, code, None, message)
  }

  // ---------------------------------------------------------------------------
  // Errors and their classification
  // ---------------------------------------------------------------------------

  /** `err.response`: the HTTP status and `response.data?.message`. */
  datatype ErrorResponse = ErrorResponse(status: int, dataMessage: Option<string>)

  /**
   * A thrown error. `name` and `code` are compared only against fixed non-empty
   * names, so an absent property is the empty string; a `status` of 0 is falsy.
   */
  datatype Err = Err(name: string, code: string, message: Option<string>, response: Option<ErrorResponse>)

  /** The branches of the middleware, each with its own condition. */
  datatype Rule = Validation | Unauthorized | NotFound | Unavailable | Timeout | Upstream | WithMessage | Internal

  /** The condition of each branch on its own, regardless of the others. */
  predicate Applies(rule: Rule, err: Err) {
    match rule
    case Validation => err.name == "ValidationError"
    case Unauthorized => err.name == "UnauthorizedError"
    case NotFound => err.name == "NotFoundError"
    case Unavailable => err.code == "ECONNREFUSED" || err.code == "ENOTFOUND"
    case Timeout => err.code == "ECONNABORTED"
    case Upstream => err.response.Some? && err.response.value.status != 0
    case WithMessage => err.message.Some? && err.message.value != ""
    case Internal => true
  }

  /** The order in which the branches are tried. */
  const Priority: seq<Rule> := [Validation, Unauthorized, NotFound, Unavailable, Timeout, Upstream, WithMessage, Internal]

  /** A branch's position in `Priority`. */
  function Rank(rule: Rule): nat {
    match rule
    case Validation => 0
    case Unauthorized => 1
    case NotFound => 2
    case Unavailable => 3
    case Timeout => 4
    case Upstream => 5
    case WithMessage => 6
    case Internal => 7
  }

  lemma PriorityRanks(j: int)
    requires 0 <= j < |Priority|
    ensures |Priority| == 8 && Rank(Priority[j]) == j
  {
  }

  /** The index of the first rule of `rules` that applies to `err`, or `|rules|`. */
  function FirstApplicable(rules: seq<Rule>, err: Err): (k: nat)
    ensures k <= |rules|
    ensures k < |rules| ==> Applies(rules[k], err)
    ensures forall j :: 0 <= j < k ==> !Applies(rules[j], err)
  {
    if rules == [] then 0
    else if Applies(rules[0], err) then 0
    else 1 + FirstApplicable(rules[1..], err)
  }

  /** The branch the middleware takes: the applicable rule that comes first in `Priority`. */
  function Classify(err: Err): (rule: Rule)
    ensures Applies(rule, err)
    ensures forall r :: Applies(r, err) ==> Rank(rule) <= Rank(r)
  {
    var k := FirstApplicable(Priority, err);
    assert Applies(Priority[7], err);
    assert k < |Priority|;
    PriorityRanks(k);
    assert forall r :: Applies(r, err) ==> Rank(Priority[k]) <= Rank(r) by {
      forall r | Applies(r, err) ensures k <= Rank(r) {
        var j := Rank(r);
        assert Priority[j] == r;
      }
    }
    Priority[k]
  }

  /** The reply of the error middleware. */
  datatype Reply = Reply(status: int, message: string, code: int)

  /** What each branch answers. */
  function Outcome(rule: Rule, err: Err): Reply
    requires Applies(rule, err)
  {
    match rule
    case Validation => Reply(400, "请求参数错误", 10001)
    case Unauthorized => Reply(401, "未授权访问", 10002)
    case NotFound => Reply(404, "资源不存在", 10003)
    case Unavailable => Reply(503, "豆瓣服务暂时不可用", 10004)
    case Timeout => Reply(408, "请求超时", 10005)
    case Upstream =>
      Reply(err.response.value.status,
            Js.StrOr(err.response.value.dataMessage, Js.StrOr(err.message, "外部服务错误")),
            10006)
    case WithMessage => Reply(500, err.message.value, 10000)
    case Internal => Reply(500, "服务器内部错误", 10000)
  }

  /**
   * The middleware `errorHandler`: start from (500, '服务器内部错误', 10000) and
   * overwrite in the first branch whose condition holds; reply with
   * `ApiResponse.error(message, code)` under that status.
   */
  method HandleError(err: Err) returns (status: int, body: ApiResponse<()>)
    ensures var reply := Outcome(Classify(err), err);
      status == reply.status && body == Error(reply.message, reply.code)
  {
    status := 500;
    var message := "服务器内部错误";
    var code := 10000;

    if err.name == "ValidationError" {
      status := 400;
      message := "请求参数错误";
      code := 10001;
      ClassifyIsFirstMatch(err, Validation);
    } else if err.name == "UnauthorizedError" {
      status := 401;
      message := "未授权访问";
      code := 10002;
      ClassifyIsFirstMatch(err, Unauthorized);
    } else if err.name == "NotFoundError" {
      status := 404;
      message := "资源不存在";
      code := 10003;
      ClassifyIsFirstMatch(err, NotFound);
    } else if err.code == "ECONNREFUSED" || err.code == "ENOTFOUND" {
      status := 503;
      message := "豆瓣服务暂时不可用";
      code := 10004;
      ClassifyIsFirstMatch(err, Unavailable);
    } else if err.code == "ECONNABORTED" {
      status := 408;
      message := "请求超时";
      code := 10005;
      ClassifyIsFirstMatch(err, Timeout);
    } else if err.response.Some? && err.response.value.status != 0 {
      status := err.response.value.status;
      message := Js.StrOr(err.response.value.dataMessage, Js.StrOr(err.message, "外部服务错误"));
      code := 10006;
      ClassifyIsFirstMatch(err, Upstream);
    } else if err.message.Some? && err.message.value != "" {
      message := err.message.value;
      ClassifyIsFirstMatch(err, WithMessage);
    } else {
      ClassifyIsFirstMatch(err, Internal);
    }

    body := Error(message, code);
  }

  // ---------------------------------------------------------------------------
  // Properties of the classification
  // ---------------------------------------------------------------------------

  /**
   * Exactly one branch is taken: `rule` is taken iff its condition holds and no
   * branch tried before it applies.
   */
  lemma ClassifyIsFirstMatch(err: Err, rule: Rule)
    ensures Classify(err) == rule <==>
      Applies(rule, err) && forall r :: Rank(r) < Rank(rule) ==> !Applies(r, err)
  {
    var c := Classify(err);
    if Applies(rule, err) && forall r :: Rank(r) < Rank(rule) ==> !Applies(r, err) {
      assert Rank(c) <= Rank(rule);
    }
  }

  /** Each numeric code but the generic 10000 belongs to exactly one branch. */
  lemma CodeIdentifiesBranch(err: Err, rule: Rule)
    requires Applies(rule, err)
    ensures Outcome(Classify(err), err).code == Outcome(rule, err).code ==>
      Classify(err) == rule || (Classify(err) in {WithMessage, Internal} && rule in {WithMessage, Internal})
  {
  }

  /** An earlier branch wins over a later one: a ValidationError is never a 503, whatever its code. */
  lemma ValidationBeatsConnectionRefused(message: Option<string>, response: Option<ErrorResponse>)
    ensures Classify(Err("ValidationError", "ECONNREFUSED", message, response)) == Validation
    ensures Outcome(Validation, Err("ValidationError", "ECONNREFUSED", message, response)) == Reply(400, "请求参数错误", 10001)
  {
    ClassifyIsFirstMatch(Err("ValidationError", "ECONNREFUSED", message, response), Validation);
  }

  /**
   * An error carrying a truthy `response.status`, and matching none of the name
   * and code branches, replies with that status and code 10006; its message is
   * `response.data.message`, else `err.message`, else '外部服务错误'.
   */
  lemma UpstreamStatusPassesThrough(err: Err)
    requires err.name !in {"ValidationError", "UnauthorizedError", "NotFoundError"}
    requires err.code !in {"ECONNREFUSED", "ENOTFOUND", "ECONNABORTED"}
    requires err.response.Some? && err.response.value.status != 0
    ensures Classify(err) == Upstream
    ensures Outcome(Upstream, err).status == err.response.value.status && Outcome(Upstream, err).code == 10006
    ensures err.response.value.dataMessage.Some? && err.response.value.dataMessage.value != "" ==>
      Outcome(Upstream, err).message == err.response.value.dataMessage.value
    ensures Js.StrOr(err.response.value.dataMessage, "") == "" && err.message.Some? && err.message.value != "" ==>
      Outcome(Upstream, err).message == err.message.value
    ensures Js.StrOr(err.response.value.dataMessage, "") == "" && Js.StrOr(err.message, "") == "" ==>
      Outcome(Upstream, err).message == "外部服务错误"
  {
    ClassifyIsFirstMatch(err, Upstream);
  }

  /**
   * An error matching no specific branch is a 500 with code 10000, carrying its
   * own message when it has a non-empty one and '服务器内部错误' otherwise.
   */
  lemma UnclassifiedIsInternal(err: Err)
    requires forall r :: Rank(r) < Rank(WithMessage) ==> !Applies(r, err)
    ensures Outcome(Classify(err), err).status == 500 && Outcome(Classify(err), err).code == 10000
    ensures Outcome(Classify(err), err).message ==
      if err.message.Some? && err.message.value != "" then err.message.value else "服务器内部错误"
  {
    if err.message.Some? && err.message.value != "" {
      ClassifyIsFirstMatch(err, WithMessage);
    } else {
      ClassifyIsFirstMatch(err, Internal);
    }
  }
}
