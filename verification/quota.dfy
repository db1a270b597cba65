/** `consumeQuota`: one call to the `consume_user_quota` remote procedure and
    the interpretation of its `{ data, error }` response as granted or not. */
module Quota {
  import opened Wrappers

  /** The quota categories the procedure knows. */
  datatype QuotaKey = Llm | Image | Text

  /** The JavaScript values the procedure's `data` can take. */
  datatype JsValue =
    | JsBool(b: bool)
    | JsNumber(n: real)
    | JsString(s: string)
    | JsArray(items: seq<JsValue>)
    | JsObject
    | JsNull
    | JsUndefined

  /** JavaScript truthiness (NaN is not modelled). */
  predicate Truthy(v: JsValue) {
    match v
    case JsBool(b) => b
    case JsNumber(n) => n != 0.0
    case JsString(s) => s != ""
    case JsArray(_) => true
    case JsObject => true
    case JsNull => false
    case JsUndefined => false
  }

  /** `v[i]`: an array element, or `undefined` past the end or on a non-array. */
  function Index(v: JsValue, i: nat): JsValue {
    if v.JsArray? && i < |v.items| then v.items[i] else JsUndefined
  }

  /** What the remote procedure call does: it resolves with `data` and an
      `error` (a database error, which always carries a message), or it throws. */
  datatype RpcOutcome = RpcResolved(data: JsValue, error: Option<string>) | RpcThrew(thrown: Thrown)

  /** The call issued: procedure name and arguments. */
  datatype RpcCall = RpcCall(procedure: string, userId: string, quotaKey: QuotaKey, amount: int)

  datatype ConsumeResult = ConsumeResult(ok: bool, error: Option<string>)

  /** One run of `consumeQuota`: the call it makes and the result it returns. */
  datatype QuotaRun = QuotaRun(call: RpcCall, result: ConsumeResult)

  const DefaultAmount := 1
  const ProcedureName := "consume_user_quota"
  const NoBalanceMessage := "Sem saldo de quota"
  const UnknownErrorMessage := "Erro desconhecido"

  /** The responses that mean the decrement happened: `true`, or an array whose first element is `true`. */
  predicate Granted(data: JsValue) {
    || data == JsBool(true)
    || (data.JsArray? && |data.items| > 0 && data.items[0] == JsBool(true))
  }

  /** `consumeQuota(userId, quotaKey, amount = 1)` given the procedure's outcome. */
  function ConsumeQuota(userId: string, quotaKey: QuotaKey, rpc: RpcOutcome, amount: int := DefaultAmount): (q: QuotaRun)
    ensures q.call == RpcCall(ProcedureName, userId, quotaKey, amount)
    ensures q.result.ok <==> rpc.RpcResolved? && rpc.error.None? && Granted(rpc.data)
    ensures q.result.ok <==> q.result.error.None?
    ensures rpc.RpcResolved? && rpc.error.Some? ==> q.result.error == rpc.error
    ensures rpc.RpcResolved? && rpc.error.None? && !Granted(rpc.data) ==> q.result.error == Some(NoBalanceMessage)
    ensures rpc.RpcThrew? ==> q.result.error == Some(rpc.thrown.message.GetOr(UnknownErrorMessage))
  {
    var call := RpcCall(ProcedureName, userId, quotaKey, amount);
    match rpc
    case RpcThrew(t) => QuotaRun(call, ConsumeResult(false, Some(t.message.GetOr(UnknownErrorMessage))))
    case RpcResolved(data, error) =>
      if error.Some? then QuotaRun(call, ConsumeResult(false, error))
      else if data == JsBool(true) || (data.JsArray? && Index(data, 0) == JsBool(true)) then QuotaRun(call, ConsumeResult(true, None))
      else QuotaRun(call, ConsumeResult(false, Some(NoBalanceMessage)))
  }

  /** A granted response is always truthy, but truthiness alone does not grant:
      `[false]`, a non-zero number and a non-empty string are truthy and refused. */
  lemma GrantedIsStricterThanTruthy(data: JsValue)
    ensures Granted(data) ==> Truthy(data)
    ensures Truthy(JsArray([JsBool(false)])) && !ConsumeQuota("u", Image, RpcResolved(JsArray([JsBool(false)]), None)).result.ok
    ensures Truthy(JsNumber(1.0)) && !ConsumeQuota("u", Image, RpcResolved(JsNumber(1.0), None)).result.ok
    ensures Truthy(JsString("true")) && !ConsumeQuota("u", Image, RpcResolved(JsString("true"), None)).result.ok
  {
  }

  /** How the documented response shapes are read. */
  lemma ResponseExamples()
    ensures ConsumeQuota("u", Image, RpcResolved(JsBool(true), None)).result == ConsumeResult(true, None)
    ensures ConsumeQuota("u", Image, RpcResolved(JsArray([JsBool(true)]), None)).result == ConsumeResult(true, None)
    ensures ConsumeQuota("u", Image, RpcResolved(JsArray([JsBool(true), JsBool(false)]), None)).result.ok
    ensures ConsumeQuota("u", Image, RpcResolved(JsBool(false), None)).result == ConsumeResult(false, Some(NoBalanceMessage))
    ensures ConsumeQuota("u", Image, RpcResolved(JsArray([]), None)).result == ConsumeResult(false, Some(NoBalanceMessage))
    ensures ConsumeQuota("u", Image, RpcResolved(JsArray([JsArray([JsBool(true)])]), None)).result.error == Some(NoBalanceMessage)
    ensures ConsumeQuota("u", Image, RpcResolved(JsBool(true), Some("boom"))).result == ConsumeResult(false, Some("boom"))
    ensures ConsumeQuota("u", Image, RpcThrew(Thrown(None))).result == ConsumeResult(false, Some(UnknownErrorMessage))
  {
  }

  /** The arguments are forwarded unchanged, the amount defaulting to 1, and
      the call is made whatever the outcome. */
  lemma ArgumentsForwarded(userId: string, quotaKey: QuotaKey, rpc: RpcOutcome)
    ensures ConsumeQuota(userId, quotaKey, rpc).call.amount == 1
    ensures ConsumeQuota(userId, quotaKey, rpc).call == ConsumeQuota(userId, quotaKey, RpcThrew(Thrown(None))).call
  {
  }
}
