/** `GET /api/subscribe/confirm?token=...` (app/api/subscribe/confirm/route.ts). */
module ConfirmRoute {
  import opened Wrappers
  import opened Subscriptions
  import opened Http

  const TokenRequired := "Confirmation token is required"
  const Confirmed := "Your subscription has been confirmed"
  const ConfirmationFailed := "Confirmation failed"

  /** The token the handler passes to `confirm`, given the `token` query parameter
      (None when the parameter is absent); None when it never calls `confirm`. */
  function ServiceCall(token: Option<string>): (call: Option<string>)
    ensures call.Some? <==> token.Some? && token.value != ""
    ensures call.Some? ==> call == token
  {
    if token.None? || token.value == "" then None else token
  }

  /** The response, given the query parameter and the outcome of the `confirm` call. */
  function Get(token: Option<string>, outcome: Outcome): (r: Response)
    ensures r.success <==> ServiceCall(token).Some? && outcome.Done?
    ensures ServiceCall(token).None? ==> r == Response(400, false, TokenRequired)
    ensures ServiceCall(token).Some? ==>
      r == if outcome.Done? then Response(200, true, Confirmed) else Response(500, false, ConfirmationFailed)
  {
    match ServiceCall(token)
    case None => Response(400, false, TokenRequired)
    case Some(_) =>
      if outcome.Done? then Response(200, true, Confirmed) else Response(500, false, ConfirmationFailed)
  }

  /** Over the service: a present token succeeds exactly when some record holds it, and
      every failure of `confirm` reads the same. */
  lemma GetOverService(t: Table, token: string, now: string)
    requires token != ""
    ensures var r := Get(Some(token), ConfirmSpec(t, token, now).outcome);
      && (r.success <==> !FreshToken(t, ConfirmationToken, token))
      && (!r.success ==> r == Response(500, false, ConfirmationFailed))
  {
  }

  /** Following the link from the confirmation email confirms the new subscriber: the token
      read from the link is the one stored, the handler accepts it, and the record becomes
      confirmed. */
  lemma EmailedLinkConfirms(t: Table, email: string, gdprConsent: bool, ct: string, ut: string,
                            ts: string, baseUrl: string, now: string)
    requires email !in t
    requires IsHexToken(ct) && FreshToken(t, ConfirmationToken, ct)
    ensures var s := SubscribeSpec(t, email, gdprConsent, ct, ut, ts, baseUrl, None);
            var link := LinkToken(baseUrl, s.sent[0].confirmUrl);
            var c := ConfirmSpec(s.table, ct, now);
      && link == Some(ct)
      && Get(link, c.outcome) == Response(200, true, Confirmed)
      && c.table[email].confirmed
  {
  }
}
