/**
 * The request body every backend call sends: `{method, params}`, where `params`
 * is a copy of the caller's parameters with `sessionId` defined last.
 */
module Envelope {
  import opened Wrappers
  import opened Json
  import SessionStore

  const SessionIdKey := "sessionId"

  /** What `sessionId` is set to: the session token read, not awaited. */
  const SessionRead := StoreRead(SessionStore.SessionTokenKey)

  datatype Body = Body(methodName: string, params: seq<Field>)

  /**
   * `method(name, params)`: `{method: name, params: {...(params ?? {}), sessionId: read}}`.
   * `params` is None when the caller passes nothing (or a nullish value).
   */
  function Build(name: string, params: Option<seq<Field>>): (b: Body)
    requires params.Some? ==> Distinct(Keys(params.value))
    ensures b.methodName == name
    ensures Lookup(b.params, SessionIdKey) == Some(SessionRead)
    ensures forall k :: k != SessionIdKey ==> Lookup(b.params, k) == Lookup(params.GetOr([]), k)
    ensures Keys(b.params) ==
      if SessionIdKey in Keys(params.GetOr([])) then Keys(params.GetOr([]))
      else Keys(params.GetOr([])) + [SessionIdKey]
    ensures Distinct(Keys(b.params))
  {
    var copy := Spread([], params.GetOr([]));
    SpreadIntoEmpty(params.GetOr([]));
    AssignDistinct(copy, SessionIdKey, SessionRead);
    Body(name, Assign(copy, SessionIdKey, SessionRead))
  }

  /** Without caller parameters the body's params hold `sessionId` alone. */
  lemma NoParamsOnlySessionId(name: string)
    ensures Build(name, None).params == [Field(SessionIdKey, SessionRead)]
  {
  }

  /**
   * With caller parameters that have no `sessionId`, the body's params are the
   * caller's properties in their order, followed by `sessionId`.
   */
  lemma CallerParamsThenSessionId(name: string, params: seq<Field>)
    requires Distinct(Keys(params)) && SessionIdKey !in Keys(params)
    ensures Build(name, Some(params)).params == params + [Field(SessionIdKey, SessionRead)]
  {
    SpreadIntoEmpty(params);
    AssignNewKey(params, SessionIdKey, SessionRead);
  }
}
