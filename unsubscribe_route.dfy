/** `GET /api/subscribe/unsubscribe?token=...` (app/api/subscribe/unsubscribe/route.ts). */
module UnsubscribeRoute {
  import opened Wrappers
  import opened Subscriptions
  import opened Http

  const TokenRequired := "Unsubscribe token is required"
  const Unsubscribed := "You have been successfully unsubscribed"
  const UnsubscribeFailed := "Unsubscribe failed"

  /** The token the handler passes to `unsubscribe`; None when it never calls it. */
  function ServiceCall(token: Option<string>): (call: Option<string>)
    ensures call.Some? <==> token.Some? && token.value != ""
    ensures call.Some? ==> call == token
  {
    if token.None? || token.value == "" then None else token
  }

  /** The response, given the query parameter and the outcome of the `unsubscribe` call. */
  function Get(token: Option<string>, outcome: Outcome): (r: Response)
    ensures r.success <==> ServiceCall(token).Some? && outcome.Done?
    ensures ServiceCall(token).None? ==> r == Response(400, false, TokenRequired)
    ensures ServiceCall(token).Some? ==>
      r == if outcome.Done? then Response(200, true, Unsubscribed) else Response(500, false, UnsubscribeFailed)
  {
    match ServiceCall(token)
    case None => Response(400, false, TokenRequired)
    case Some(_) =>
      if outcome.Done? then Response(200, true, Unsubscribed) else Response(500, false, UnsubscribeFailed)
  }

  /** Over the service: a present token succeeds exactly when some record holds it, and
      then that record, and only it, is gone. */
  lemma GetOverService(t: Table, e: string, token: string)
    requires WellFormed(t) && token != ""
    ensures var u := UnsubscribeSpec(t, token);
            var r := Get(Some(token), u.outcome);
      && (r.success <==> !FreshToken(t, UnsubscribeToken, token))
      && (!r.success ==> r == Response(500, false, UnsubscribeFailed) && u.table == t)
      && (Holds(t, e, UnsubscribeToken, token) ==> u.table.Keys == t.Keys - {e})
  {
  }
}
