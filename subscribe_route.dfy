/** `POST /api/subscribe` (app/api/subscribe/route.ts): validates the body, calls
    `subscribe`, and turns the outcome into a status and a message. */
module SubscribeRoute {
  import opened Wrappers
  import opened Subscriptions
  import opened Http

  /** The request body after `request.json()`: `Unreadable` when it is not JSON or is
      `null` (reading a field then throws), otherwise its optional `email` and optional
      `gdprConsent`; any other non-object JSON value has neither and is `Body(None, None)`. */
  datatype RequestBody = Unreadable | Body(email: Option<string>, gdprConsent: Option<bool>)

  const ConsentRequired := "Email and GDPR consent are required"
  const CheckYourEmail := "Please check your email to confirm your subscription"
  const AlreadySubscribed := "This email is already subscribed"
  const SubscriptionFailed := "Subscription failed"
  const ConditionalCheckFailed := "ConditionalCheckFailedException"

  /** JavaScript falsiness of an optional string: missing or empty. */
  predicate FalsyString(s: Option<string>)
  {
    s.None? || s.value == ""
  }

  /** JavaScript falsiness of an optional boolean: missing or false. */
  predicate FalsyBool(b: Option<bool>)
  {
    b.None? || !b.value
  }

  /** The arguments the handler passes to `subscribe`, or None when it never calls it. */
  function ServiceCall(body: RequestBody): (call: Option<(string, bool)>)
    ensures call.Some? <==> body.Body? && body.email.Some? && body.email.value != "" && body.gdprConsent == Some(true)
    ensures call.Some? ==> call.value == (body.email.value, true)
  {
    match body
    case Unreadable => None
    case Body(email, gdprConsent) =>
      if FalsyString(email) || FalsyBool(gdprConsent) then None else Some((email.value, gdprConsent.value))
  }

  /** The response, given the body and the outcome of the `subscribe` call (which only
      matters when the handler makes that call). */
  function Post(body: RequestBody, outcome: Outcome): (r: Response)
    ensures r.success <==> ServiceCall(body).Some? && outcome.Done?
    ensures r.success ==> r == Response(200, true, CheckYourEmail)
    ensures body.Body? && ServiceCall(body).None? ==> r == Response(400, false, ConsentRequired)
    ensures body.Unreadable? ==> r == Response(500, false, SubscriptionFailed)
    ensures ServiceCall(body).Some? && outcome.Failed? ==>
      r == if outcome.error.code == Some(ConditionalCheckFailed)
           then Response(400, false, AlreadySubscribed)
           else Response(500, false, SubscriptionFailed)
  {
    match ServiceCall(body)
    case None =>
      if body.Unreadable? then Response(500, false, SubscriptionFailed)
      else Response(400, false, ConsentRequired)
    case Some(_) =>
      match outcome
      case Done => Response(200, true, CheckYourEmail)
      case Failed(err) =>
        if err.code == Some(ConditionalCheckFailed) then Response(400, false, AlreadySubscribed)
        else Response(500, false, SubscriptionFailed)
  }

  /** The handler over the service: for a valid body the response reports success exactly
      when the email is new and the mail went out, and "already subscribed" exactly when the
      email is already in the table. */
  lemma PostOverService(t: Table, body: RequestBody, ct: string, ut: string, ts: string, baseUrl: string,
                        mailError: Option<ServiceError>)
    requires ServiceCall(body).Some?
    requires mailError.Some? ==> mailError.value.code != Some(ConditionalCheckFailed)
    ensures var email := ServiceCall(body).value.0;
            var r := Post(body, SubscribeSpec(t, email, true, ct, ut, ts, baseUrl, mailError).outcome);
      && (r.success <==> email !in t && mailError.None?)
      && (r.message == AlreadySubscribed <==> email in t)
      && (email !in t && mailError.Some? ==> r == Response(500, false, SubscriptionFailed))
  {
  }

  /** A mail failure answers 500 but leaves the pending record behind, so posting the same
      email again is answered with "already subscribed". */
  lemma MailFailureThenRetry(t: Table, email: string, ct1: string, ut1: string, ts1: string,
                             ct2: string, ut2: string, ts2: string, baseUrl: string,
                             err: ServiceError, mail2: Option<ServiceError>)
    requires email !in t && email != ""
    requires err.code != Some(ConditionalCheckFailed)
    ensures var body := Body(Some(email), Some(true));
            var s1 := SubscribeSpec(t, email, true, ct1, ut1, ts1, baseUrl, Some(err));
            var s2 := SubscribeSpec(s1.table, email, true, ct2, ut2, ts2, baseUrl, mail2);
      && Post(body, s1.outcome) == Response(500, false, SubscriptionFailed)
      && email in s1.table && !s1.table[email].confirmed && s1.sent == []
      && Post(body, s2.outcome) == Response(400, false, AlreadySubscribed)
  {
  }
}
