/**
  The unauthorized-response check that the create-post and profile pages
  repeat around their authenticated requests: a 401 or 403 invokes the
  context's `handleUnauthorized` callback and throws a page-specific sentinel
  error, before the generic `response.ok` check; the page then suppresses the
  user-facing message for that sentinel only. The callback is opaque: the
  model records that it is invoked and nothing else.
 */
module Interceptor {
  import opened Wrappers
  import opened Http
  import opened Effects

  /**
    The `handleUnauthorized` member of the context value: a function, or
    `undefined` when the provider does not define one.
   */
  datatype Callback = Provided | Missing

  /** The TypeError message a JavaScript engine (V8) throws when calling an undefined `handleUnauthorized`. */
  const NotAFunction := "handleUnauthorized is not a function"

  /** How an authenticated call ends: an error thrown (with the effects made before), or the parsed data. */
  datatype Attempt = Threw(effects: seq<Effect>, message: string) | Returned(data: JsonObject)

  /** Calling the callback, then throwing the sentinel; calling `undefined` throws a TypeError first. */
  function Intercept(handler: Callback, sentinel: string): (a: Attempt)
    ensures a.Threw?
    ensures CallUnauthorized in a.effects <==> handler.Provided?
    ensures handler.Provided? ==> a.message == sentinel
    ensures handler.Missing? ==> a.effects == [] && a.message == NotAFunction
  {
    match handler
    case Provided => Threw([CallUnauthorized], sentinel)
    case Missing => Threw([], NotAFunction)
  }

  /**
    The outcome of one authenticated call, given the server's answer: the
    401/403 check first, then `response.ok` with the `detail || message ||
    <prefix><status>` chain, then `response.json()` of the success body.
   */
  function Call(handler: Callback, sentinel: string, failPrefix: string, answer: FetchOutcome): (a: Attempt)
    ensures answer.Received? && IsUnauthorized(answer.response.status) ==> a == Intercept(handler, sentinel)
    ensures answer.Received? && !IsOk(answer.response.status) && !IsUnauthorized(answer.response.status) ==>
              a == Threw([], BodyMessage(answer.response.body, StatusMessage(failPrefix, answer.response.status)))
    ensures a.Returned? <==> answer.Received? && IsOk(answer.response.status) && answer.response.body.Parsed?
    ensures a.Returned? ==> a.data == answer.response.body.fields
    ensures answer.Received? && IsOk(answer.response.status) && answer.response.body.Unparsable? ==>
              a == Threw([], answer.response.body.reason)
    ensures answer.NetworkFailure? ==> a == Threw([], answer.message)
    ensures a.Threw? && a.effects != [] ==> a.effects == [CallUnauthorized]
                                            && answer.Received? && IsUnauthorized(answer.response.status)
  {
    match answer
    case NetworkFailure(m) => Threw([], m)
    case Received(Response(status, body)) =>
      if IsUnauthorized(status) then Intercept(handler, sentinel)
      else if !IsOk(status) then Threw([], BodyMessage(body, StatusMessage(failPrefix, status)))
      else
        match body
        case Parsed(obj) => Returned(obj)
        case Unparsable(reason) => Threw([], reason)
  }

  /**
    The message the page's `catch` shows: none for the sentinel, otherwise
    `err.message || fallback`.
   */
  function Shown(message: string, sentinel: string, fallback: string): (r: Option<string>)
    ensures r.None? <==> message == sentinel
    ensures r.Some? && message != "" ==> r.value == message
    ensures r.Some? && message == "" ==> r.value == fallback
  {
    if message == sentinel then None else Some(Or(Some(message), fallback))
  }

  /**
    With the callback provided, a 401/403 answer calls it exactly once and
    shows no message, whatever the body holds.
   */
  lemma UnauthorizedIsSilent(sentinel: string, failPrefix: string, fallback: string, answer: FetchOutcome)
    requires answer.Received? && IsUnauthorized(answer.response.status)
    ensures var a := Call(Provided, sentinel, failPrefix, answer);
            a.Threw? && a.effects == [CallUnauthorized] && Shown(a.message, sentinel, fallback).None?
  {
  }
}
