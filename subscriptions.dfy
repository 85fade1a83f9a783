/** The email-subscription lifecycle: a subscriber table keyed by email that moves each
    record from "no record" to pending, to confirmed, and back to "no record" on
    unsubscribe (lib/services/subscription-service.ts, lib/types/subscription.ts). */
module Subscriptions {
  import opened Wrappers

  /** One row of the subscriber table. Timestamps are ISO-8601 strings. */
  datatype Subscription = Subscription(
    email: string,
    confirmationToken: string,
    confirmed: bool,
    createdAt: string,
    updatedAt: string,
    unsubscribeToken: string,
    gdprConsent: bool)

  /** The `subscriptions` table, keyed by email. */
  type Table = map<string, Subscription>

  /** What a failed operation throws: the SDK error's `code` (if any) and its message. */
  datatype ServiceError = ServiceError(code: Option<string>, message: string)

  /** The store's rejection of a conditional put whose condition failed. */
  const DuplicateEmail := ServiceError(Some("ConditionalCheckFailedException"), "The conditional request failed")
  const InvalidConfirmationToken := ServiceError(None, "Invalid confirmation token")
  const InvalidUnsubscribeToken := ServiceError(None, "Invalid unsubscribe token")

  /** How a service call ends: it completes, or it throws. */
  datatype Outcome = Done | Failed(error: ServiceError)

  /** A confirmation message accepted by the mail transport. */
  datatype Mail = Mail(to: string, subject: string, confirmUrl: string)

  const ConfirmSubject := "Confirm your subscription"
  const ConfirmPath := "/api/subscribe/confirm?token="

  /** The two tokens a record carries, each looked up by a scan over the table. */
  datatype TokenKind = ConfirmationToken | UnsubscribeToken

  function TokenOf(s: Subscription, kind: TokenKind): string
  {
    match kind
    case ConfirmationToken => s.confirmationToken
    case UnsubscribeToken => s.unsubscribeToken
  }

  /** What `crypto.randomBytes(32).toString('hex')` produces. */
  predicate IsHexToken(s: string)
  {
    |s| == 64 && forall i :: 0 <= i < |s| ==> s[i] in "0123456789abcdef"
  }

  /** The record stored under `e` carries `token` as its token of the given kind. */
  ghost predicate Holds(t: Table, e: string, kind: TokenKind, token: string)
  {
    e in t && TokenOf(t[e], kind) == token
  }

  /** No record carries `token` as its token of the given kind. */
  ghost predicate FreshToken(t: Table, kind: TokenKind, token: string)
  {
    forall e :: e in t ==> TokenOf(t[e], kind) != token
  }

  /** The table invariant: each row is stored under its own email, and no two rows share
      a token of the same kind (the tokens are 256-bit random values). */
  ghost predicate WellFormed(t: Table)
  {
    && (forall e :: e in t ==> t[e].email == e)
    && (forall e1, e2, kind :: e1 in t && e2 in t && TokenOf(t[e1], kind) == TokenOf(t[e2], kind) ==> e1 == e2)
  }

  /** The link placed in the confirmation email. */
  function ConfirmUrl(baseUrl: string, token: string): string
  {
    baseUrl + ConfirmPath + token
  }

  /** Reads the token back out of a confirmation link built on `baseUrl`. */
  function LinkToken(baseUrl: string, url: string): Option<string>
  {
    var prefix := baseUrl + ConfirmPath;
    if |prefix| <= |url| && url[..|prefix|] == prefix then Some(url[|prefix|..]) else None
  }

  /** A confirmation link carries exactly the token it was built from. */
  lemma LinkTokenRoundTrip(baseUrl: string, token: string)
    ensures LinkToken(baseUrl, ConfirmUrl(baseUrl, token)) == Some(token)
  {
  }

  /** The record `subscribe` writes. */
  function NewSubscription(email: string, gdprConsent: bool, confirmationToken: string,
                           unsubscribeToken: string, timestamp: string): Subscription
  {
    Subscription(email, confirmationToken, false, timestamp, timestamp, unsubscribeToken, gdprConsent)
  }

  /** The result of one operation on the table: the new table, the mails handed to the
      transport, and how the call ended. */
  datatype Transition = Transition(table: Table, sent: seq<Mail>, outcome: Outcome)

  /** `subscribe`: a conditional insert keyed by email, then the confirmation email.
      `mailError` is the transport's failure, if it fails. */
  function SubscribeSpec(t: Table, email: string, gdprConsent: bool, confirmationToken: string,
                         unsubscribeToken: string, timestamp: string, baseUrl: string,
                         mailError: Option<ServiceError>): (r: Transition)
    // an existing email: the put is rejected, nothing changes, nothing is sent
    ensures email in t ==> r == Transition(t, [], Failed(DuplicateEmail))
    // a new email: exactly one record is added, pending, with both tokens and the consent
    ensures email !in t ==>
      && r.table.Keys == t.Keys + {email}
      && (forall e :: e in t ==> r.table[e] == t[e])
      && var s := r.table[email];
         && s.email == email && !s.confirmed && s.createdAt == s.updatedAt == timestamp
         && s.confirmationToken == confirmationToken && s.unsubscribeToken == unsubscribeToken
         && s.gdprConsent == gdprConsent
    // mail goes out only after an insert, and a mail failure does not undo the insert
    ensures r.sent != [] ==> email !in t && r.sent == [Mail(email, ConfirmSubject, ConfirmUrl(baseUrl, confirmationToken))]
    ensures r.outcome.Done? <==> email !in t && mailError.None?
    ensures r.outcome.Done? <==> r.sent != []
    ensures r.outcome.Failed? && email !in t ==> r.outcome.error == mailError.value
  {
    if email in t then Transition(t, [], Failed(DuplicateEmail))
    else
      var table := t[email := NewSubscription(email, gdprConsent, confirmationToken, unsubscribeToken, timestamp)];
      match mailError
      case None => Transition(table, [Mail(email, ConfirmSubject, ConfirmUrl(baseUrl, confirmationToken))], Done)
      case Some(err) => Transition(table, [], Failed(err))
  }

  /** The email of some record holding `token`, as the first item of a filtered scan. */
  ghost function Holder(t: Table, kind: TokenKind, token: string): (r: Option<string>)
    ensures r.Some? ==> Holds(t, r.value, kind, token)
    ensures r.None? <==> FreshToken(t, kind, token)
  {
    if exists e :: Holds(t, e, kind, token) then
      var e :| Holds(t, e, kind, token);
      Some(e)
    else
      assert forall e | e in t :: !Holds(t, e, kind, token);
      None
  }

  /** In a well-formed table the holder of a token is the only record holding it. */
  lemma HolderUnique(t: Table, kind: TokenKind, token: string, e: string)
    requires WellFormed(t) && Holds(t, e, kind, token)
    ensures Holder(t, kind, token) == Some(e)
  {
  }

  /** `confirm`: find the record holding the confirmation token and mark it confirmed. */
  ghost function ConfirmSpec(t: Table, token: string, now: string): (r: Transition)
    ensures r.sent == []
    ensures r.outcome.Failed? <==> FreshToken(t, ConfirmationToken, token)
    ensures r.outcome.Failed? ==> r.outcome.error == InvalidConfirmationToken && r.table == t
    ensures r.outcome.Done? ==>
      exists e :: Holds(t, e, ConfirmationToken, token) && r.table == t[e := t[e].(confirmed := true, updatedAt := now)]
  {
    match Holder(t, ConfirmationToken, token)
    case None => Transition(t, [], Failed(InvalidConfirmationToken))
    case Some(e) => Transition(t[e := t[e].(confirmed := true, updatedAt := now)], [], Done)
  }

  /** `unsubscribe`: find the record holding the unsubscribe token and delete it. */
  ghost function UnsubscribeSpec(t: Table, token: string): (r: Transition)
    ensures r.sent == []
    ensures r.outcome.Failed? <==> FreshToken(t, UnsubscribeToken, token)
    ensures r.outcome.Failed? ==> r.outcome.error == InvalidUnsubscribeToken && r.table == t
    ensures r.outcome.Done? ==> exists e :: Holds(t, e, UnsubscribeToken, token) && r.table == t - {e}
  {
    match Holder(t, UnsubscribeToken, token)
    case None => Transition(t, [], Failed(InvalidUnsubscribeToken))
    case Some(e) => Transition(t - {e}, [], Done)
  }

  // ---------------------------------------------------------------------------
  // Properties of the three operations

  /** A subscribe with fresh tokens keeps the table well formed. */
  lemma SubscribePreservesWellFormed(t: Table, email: string, gdprConsent: bool, confirmationToken: string,
                                     unsubscribeToken: string, timestamp: string, baseUrl: string,
                                     mailError: Option<ServiceError>)
    requires WellFormed(t)
    requires FreshToken(t, ConfirmationToken, confirmationToken) && FreshToken(t, UnsubscribeToken, unsubscribeToken)
    ensures WellFormed(SubscribeSpec(t, email, gdprConsent, confirmationToken, unsubscribeToken, timestamp, baseUrl, mailError).table)
  {
  }

  /** Confirming keeps the table well formed: no key and no token changes. */
  lemma ConfirmPreservesWellFormed(t: Table, token: string, now: string)
    requires WellFormed(t)
    ensures WellFormed(ConfirmSpec(t, token, now).table)
  {
  }

  /** Unsubscribing keeps the table well formed: it only removes a key. */
  lemma UnsubscribePreservesWellFormed(t: Table, token: string)
    requires WellFormed(t)
    ensures WellFormed(UnsubscribeSpec(t, token).table)
  {
  }

  /** With a matching token, confirm changes that email's record only, and in it only
      `confirmed` and `updatedAt`. */
  lemma ConfirmChangesHolderOnly(t: Table, e: string, token: string, now: string)
    requires WellFormed(t) && Holds(t, e, ConfirmationToken, token)
    ensures var r := ConfirmSpec(t, token, now);
      && r.outcome == Done
      && r.table.Keys == t.Keys
      && r.table[e] == t[e].(confirmed := true, updatedAt := now)
      && (forall e' :: e' in t && e' != e ==> r.table[e'] == t[e'])
  {
  }

  /** With a matching token, unsubscribe removes exactly that email, confirmed or not. */
  lemma UnsubscribeRemovesHolderOnly(t: Table, e: string, token: string)
    requires WellFormed(t) && Holds(t, e, UnsubscribeToken, token)
    ensures var r := UnsubscribeSpec(t, token);
      && r.outcome == Done
      && r.table.Keys == t.Keys - {e}
      && (forall e' :: e' in r.table ==> r.table[e'] == t[e'])
  {
  }

  /** The confirmation token is not cleared: a second confirm with it succeeds as well and
      the record stays confirmed. */
  lemma ConfirmTwice(t: Table, e: string, token: string, now1: string, now2: string)
    requires WellFormed(t) && Holds(t, e, ConfirmationToken, token)
    ensures var r1 := ConfirmSpec(t, token, now1);
            var r2 := ConfirmSpec(r1.table, token, now2);
      && r1.outcome == Done && r2.outcome == Done
      && r2.table == r1.table[e := r1.table[e].(updatedAt := now2)]
      && r2.table[e].confirmed
  {
    var r1 := ConfirmSpec(t, token, now1);
    assert r1.table[e].(confirmed := true, updatedAt := now2) == r1.table[e].(updatedAt := now2);
  }

  /** A second subscribe of the same email fails and leaves exactly the first record. */
  lemma SubscribeTwice(t: Table, email: string, gdpr1: bool, gdpr2: bool, ct1: string, ct2: string,
                       ut1: string, ut2: string, ts1: string, ts2: string, baseUrl: string,
                       mail1: Option<ServiceError>, mail2: Option<ServiceError>)
    requires email !in t
    ensures var r1 := SubscribeSpec(t, email, gdpr1, ct1, ut1, ts1, baseUrl, mail1);
            var r2 := SubscribeSpec(r1.table, email, gdpr2, ct2, ut2, ts2, baseUrl, mail2);
      && r2.outcome == Failed(DuplicateEmail)
      && r2.sent == []
      && r2.table == r1.table
      && r2.table[email] == NewSubscription(email, gdpr1, ct1, ut1, ts1)
  {
  }

  /** `confirmed` never goes back from true to false: any record present before and after
      a confirm or an unsubscribe that was confirmed before is confirmed after. */
  lemma ConfirmedIsStable(t: Table, token: string, now: string, e: string)
    requires e in t && t[e].confirmed
    ensures e in ConfirmSpec(t, token, now).table ==> ConfirmSpec(t, token, now).table[e].confirmed
    ensures e in UnsubscribeSpec(t, token).table ==> UnsubscribeSpec(t, token).table[e].confirmed
  {
  }

  /** After an unsubscribe, the removed record's confirmation token no longer confirms
      anything. */
  lemma UnsubscribeIsTerminal(t: Table, e: string, token: string, now: string)
    requires WellFormed(t) && Holds(t, e, UnsubscribeToken, token)
    ensures var r := UnsubscribeSpec(t, token);
      ConfirmSpec(r.table, t[e].confirmationToken, now) == Transition(r.table, [], Failed(InvalidConfirmationToken))
  {
  }

  /** The whole lifecycle of one new email: subscribe (whether or not the mail goes out),
      confirm with its confirmation token, unsubscribe with its unsubscribe token; the table
      ends as it began. */
  lemma Lifecycle(t: Table, email: string, gdprConsent: bool, ct: string, ut: string, ts: string,
                  baseUrl: string, mailError: Option<ServiceError>, now: string)
    requires WellFormed(t) && email !in t
    requires FreshToken(t, ConfirmationToken, ct) && FreshToken(t, UnsubscribeToken, ut)
    ensures var s := SubscribeSpec(t, email, gdprConsent, ct, ut, ts, baseUrl, mailError);
            var c := ConfirmSpec(s.table, ct, now);
            var u := UnsubscribeSpec(c.table, ut);
      && email in s.table && !s.table[email].confirmed
      && c.outcome == Done && email in c.table && c.table[email].confirmed
      && u.outcome == Done && u.table == t
  {
  }

  // ---------------------------------------------------------------------------
  // The service itself

  /** `SubscriptionService` over its table and its mail transport. The table lives in an
      external store in the original; here it is a field that the operations update. */
  class SubscriptionService {
    var table: Table
    /** Every confirmation email accepted by the transport, in order. */
    var outbox: seq<Mail>

    ghost predicate Valid()
      reads this
    {
      WellFormed(table)
    }

    constructor ()
      ensures Valid() && table == map[] && outbox == []
    {
      table := map[];
      outbox := [];
    }

    /** A scan of the table filtered on one token, returning the first matching item. */
    method Scan(kind: TokenKind, token: string) returns (found: Option<Subscription>)
      ensures found.Some? ==> found.value in table.Values && TokenOf(found.value, kind) == token
      ensures found.None? <==> FreshToken(table, kind, token)
    {
      var remaining := table.Keys;
      while remaining != {}
        invariant remaining <= table.Keys
        invariant forall e :: e in table && e !in remaining ==> TokenOf(table[e], kind) != token
        decreases remaining
      {
        var e :| e in remaining;
        if TokenOf(table[e], kind) == token {
          return Some(table[e]);
        }
        remaining := remaining - {e};
      }
      return None;
    }

    /** `subscribe(email, gdprConsent)`. The two tokens and the timestamp are what the
        random generator and the clock produced; `mailError` is the transport's failure. */
    method Subscribe(email: string, gdprConsent: bool, confirmationToken: string, unsubscribeToken: string,
                     timestamp: string, baseUrl: string, mailError: Option<ServiceError>)
      returns (outcome: Outcome)
      requires Valid()
      requires IsHexToken(confirmationToken) && IsHexToken(unsubscribeToken)
      requires FreshToken(table, ConfirmationToken, confirmationToken) && FreshToken(table, UnsubscribeToken, unsubscribeToken)
      modifies this
      ensures Valid()
      ensures var r := SubscribeSpec(old(table), email, gdprConsent, confirmationToken, unsubscribeToken,
                                     timestamp, baseUrl, mailError);
        table == r.table && outbox == old(outbox) + r.sent && outcome == r.outcome
    {
      // put with ConditionExpression attribute_not_exists(email)
      if email in table {
        return Failed(DuplicateEmail);
      }
      table := table[email := NewSubscription(email, gdprConsent, confirmationToken, unsubscribeToken, timestamp)];
      outcome := SendConfirmationEmail(email, confirmationToken, baseUrl, mailError);
    }

    /** `sendConfirmationEmail`: hands the confirmation link to the transport. */
    method SendConfirmationEmail(email: string, token: string, baseUrl: string, mailError: Option<ServiceError>)
      returns (outcome: Outcome)
      modifies this`outbox
      ensures outcome.Done? <==> mailError.None?
      ensures outcome.Failed? ==> outcome.error == mailError.value && outbox == old(outbox)
      ensures outcome.Done? ==> outbox == old(outbox) + [Mail(email, ConfirmSubject, ConfirmUrl(baseUrl, token))]
    {
      match mailError
      case None =>
        outbox := outbox + [Mail(email, ConfirmSubject, ConfirmUrl(baseUrl, token))];
        outcome := Done;
      case Some(err) =>
        outcome := Failed(err);
    }

    /** `confirm(token)`; `now` is the clock reading used for `updatedAt`. */
    method Confirm(token: string, now: string) returns (outcome: Outcome)
      requires Valid()
      modifies this`table
      ensures Valid()
      ensures var r := ConfirmSpec(old(table), token, now);
        table == r.table && outcome == r.outcome
    {
      var found := Scan(ConfirmationToken, token);
      match found
      case None =>
        outcome := Failed(InvalidConfirmationToken);
      case Some(item) =>
        var key := item.email;
        table := table[key := table[key].(confirmed := true, updatedAt := now)];
        outcome := Done;
    }

    /** `unsubscribe(token)`. */
    method Unsubscribe(token: string) returns (outcome: Outcome)
      requires Valid()
      modifies this`table
      ensures Valid()
      ensures var r := UnsubscribeSpec(old(table), token);
        table == r.table && outcome == r.outcome
    {
      var found := Scan(UnsubscribeToken, token);
      match found
      case None =>
        outcome := Failed(InvalidUnsubscribeToken);
      case Some(item) =>
        var key := item.email;
        table := table - {key};
        outcome := Done;
    }
  }
}
