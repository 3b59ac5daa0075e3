/**
 * The in-memory verification-code store and the withdrawal gate.
 * The store maps an email to the one code last issued for it and the
 * time it was issued; the clock reading `now` (milliseconds) and the
 * outcome of the mail delivery are inputs.
 *
 * The code is whatever the caller of the issuing route supplies, so these
 * lemmas concern the store's bookkeeping: they do not show that whoever
 * withdraws has read the mail.
 */
module Codes {
  import opened Wrappers
  import opened Events

  /** A code is accepted up to and including 10 minutes after it was issued. */
  const CodeLifetimeMs: int := 10 * 60 * 1000

  datatype CodeRecord = CodeRecord(code: string, createdAt: int)

  type Store = map<string, CodeRecord>

  /** The HTTP outcome of the two mail routes: 400, 200 or 500. */
  datatype Reply = BadRequest | Sent | SendFailed

  /** The withdrawal gate: a record exists, its code matches exactly, and it has not expired. */
  predicate Accepts(store: Store, email: Option<string>, code: Option<string>, now: int) {
    && email.Some? && email.value in store
    && code == Some(store[email.value].code)
    && now - store[email.value].createdAt <= CodeLifetimeMs
  }

  /**
   * POST /api/send-verification-email. The record is written before the
   * mail is sent, so the store after the call does not depend on `delivered`.
   */
  function IssueStep(store: Store, email: Option<string>, code: Option<string>, now: int, delivered: bool): (r: (Reply, Store))
    ensures r.0 == BadRequest <==> !Given(email) || !Given(code)
    ensures r.0 == BadRequest ==> r.1 == store
    ensures r.0 != BadRequest ==>
      && r.0 == (if delivered then Sent else SendFailed)
      && r.1.Keys == store.Keys + {email.value}
      && r.1[email.value] == CodeRecord(code.value, now)
      && forall e :: e in store && e != email.value ==> r.1[e] == store[e]
  {
    if !Given(email) || !Given(code) then (BadRequest, store)
    else (if delivered then Sent else SendFailed, store[email.value := CodeRecord(code.value, now)])
  }

  /**
   * POST /api/send-withdraw-email. The record is deleted only once the
   * withdrawal mail has gone out; a rejection or a failed delivery keeps it.
   */
  function WithdrawStep(store: Store, email: Option<string>, code: Option<string>, now: int, delivered: bool): (r: (Reply, Store))
    ensures r.0 == BadRequest <==> !Accepts(store, email, code, now)
    ensures r.0 == Sent <==> Accepts(store, email, code, now) && delivered
    ensures r.0 == Sent ==> r.1.Keys == store.Keys - {email.value} && forall e :: e in r.1 ==> r.1[e] == store[e]
    ensures r.0 != Sent ==> r.1 == store
  {
    if !Accepts(store, email, code, now) then (BadRequest, store)
    else if delivered then (Sent, store - {email.value})
    else (SendFailed, store)
  }

  /** A freshly issued code is accepted exactly while its window lasts, and no other code is. */
  lemma IssuedCodeWindow(store: Store, email: string, code: string, t0: int, delivered: bool,
                         supplied: Option<string>, t: int)
    requires email != "" && code != ""
    ensures var s := IssueStep(store, Some(email), Some(code), t0, delivered).1;
      Accepts(s, Some(email), supplied, t) <==> supplied == Some(code) && t - t0 <= CodeLifetimeMs
  {
  }

  /** The window is closed: an elapsed time of exactly 600000 ms passes, one more fails. */
  lemma WindowBoundary(store: Store, email: string, code: string, t0: int)
    requires email != "" && code != ""
    ensures var s := IssueStep(store, Some(email), Some(code), t0, true).1;
      Accepts(s, Some(email), Some(code), t0 + 600000) && !Accepts(s, Some(email), Some(code), t0 + 600001)
  {
  }

  /** A failed verification mail leaves the code stored: the write happens first. */
  lemma IssueKeepsCodeOnFailedDelivery(store: Store, email: Option<string>, code: Option<string>, now: int)
    ensures IssueStep(store, email, code, now, false).1 == IssueStep(store, email, code, now, true).1
  {
  }

  /** Re-issuing a different code for an email makes the earlier code fail, at any time. */
  lemma ReissueInvalidatesEarlierCode(store: Store, email: string, c1: string, c2: string,
                                      t1: int, t2: int, d1: bool, d2: bool, t: int)
    requires email != "" && c1 != "" && c2 != "" && c1 != c2
    ensures var s1 := IssueStep(store, Some(email), Some(c1), t1, d1).1;
      var s2 := IssueStep(s1, Some(email), Some(c2), t2, d2).1;
      !Accepts(s2, Some(email), Some(c1), t)
  {
  }

  /** At most one live code per email: two accepted codes for the same email are the same code. */
  lemma AtMostOneLiveCode(store: Store, email: Option<string>, c1: Option<string>, c2: Option<string>, t1: int, t2: int)
    requires Accepts(store, email, c1, t1) && Accepts(store, email, c2, t2)
    ensures c1 == c2
  {
  }

  /** After a withdrawal whose mail went out, the same code, or any code, is rejected for that email. */
  lemma NoReplayAfterWithdrawal(store: Store, email: Option<string>, code: Option<string>, now: int,
                                supplied: Option<string>, later: int, delivered: bool)
    requires WithdrawStep(store, email, code, now, true).0 == Sent
    ensures var s := WithdrawStep(store, email, code, now, true).1;
      WithdrawStep(s, email, supplied, later, delivered) == (BadRequest, s)
  {
  }

  /** After a failed withdrawal mail the record stays, so a retry inside the window succeeds. */
  lemma RetryAfterFailedDelivery(store: Store, email: Option<string>, code: Option<string>, now: int, later: int)
    requires Accepts(store, email, code, now)
    requires later - store[email.value].createdAt <= CodeLifetimeMs
    ensures var s := WithdrawStep(store, email, code, now, false);
      s == (SendFailed, store) && WithdrawStep(s.1, email, code, later, true).0 == Sent
  {
  }

  /** An expired code stays rejected later on, and rejecting it changes nothing; only a fresh issue helps. */
  lemma ExpiredStaysExpired(store: Store, email: string, code: Option<string>, now: int, later: int, delivered: bool)
    requires email in store && now - store[email].createdAt > CodeLifetimeMs
    requires later >= now
    ensures WithdrawStep(store, Some(email), code, later, delivered) == (BadRequest, store)
  {
  }

  // The gate as written, on a plain JavaScript object.

  /** The names an empty object literal inherits from Object.prototype. */
  const PrototypeMembers: set<string> := {
    "constructor", "hasOwnProperty", "isPrototypeOf", "propertyIsEnumerable", "toString",
    "toLocaleString", "valueOf", "__proto__", "__defineGetter__", "__defineSetter__",
    "__lookupGetter__", "__lookupSetter__"}

  /** The property key an email becomes: an absent email is looked up as "undefined". */
  function Key(email: Option<string>): string {
    if email.Some? then email.value else "undefined"
  }

  /** What `verificationCodes[email]` yields: an own record, an inherited member, or undefined. */
  datatype Lookup = OwnRecord(record: CodeRecord) | InheritedMember | Undefined

  function LookupAsWritten(store: Store, email: Option<string>): Lookup {
    if Key(email) in store then OwnRecord(store[Key(email)])
    else if Key(email) in PrototypeMembers then InheritedMember
    else Undefined
  }

  /**
   * The test at server.js:234 as written. An inherited member is truthy, its
   * `code` is undefined, and its age `Date.now() - undefined` is NaN, which
   * is not greater than the lifetime; so it passes exactly when no code is sent.
   */
  predicate AcceptsAsWritten(store: Store, email: Option<string>, code: Option<string>, now: int) {
    match LookupAsWritten(store, email)
    case OwnRecord(rec) => code == Some(rec.code) && now - rec.createdAt <= CodeLifetimeMs
    case InheritedMember => code.None?
    case Undefined => false
  }

  /** POST /api/send-withdraw-email as written; deleting an inherited member changes nothing. */
  function WithdrawStepAsWritten(store: Store, email: Option<string>, code: Option<string>, now: int, delivered: bool): (Reply, Store) {
    if !AcceptsAsWritten(store, email, code, now) then (BadRequest, store)
    else if delivered then (Sent, store - {Key(email)})
    else (SendFailed, store)
  }

  /**
   * The discrepancy: with no code ever issued, a withdrawal for the email
   * "constructor" that sends no code is mailed, and can be replayed at will;
   * the intended gate refuses it.
   */
  lemma PrototypeMemberOpensTheGate(now: int, later: int)
    ensures WithdrawStepAsWritten(map[], Some("constructor"), None, now, true) == (Sent, map[])
    ensures WithdrawStepAsWritten(map[], Some("constructor"), None, later, true) == (Sent, map[])
    ensures WithdrawStep(map[], Some("constructor"), None, now, true) == (BadRequest, map[])
  {
  }

  /** For an email that names no inherited member, the gate as written is the intended one. */
  lemma AsWrittenAgreesOffPrototype(store: Store, email: Option<string>, code: Option<string>, now: int, delivered: bool)
    requires email.Some? && email.value !in PrototypeMembers
    ensures AcceptsAsWritten(store, email, code, now) == Accepts(store, email, code, now)
    ensures WithdrawStepAsWritten(store, email, code, now, delivered) == WithdrawStep(store, email, code, now, delivered)
  {
  }

  // Replay over whole request sequences.

  /** A request to one of the two mail routes, with its clock reading and delivery outcome. */
  datatype CodeRequest =
    | IssueRequest(email: Option<string>, code: Option<string>, now: int, delivered: bool)
    | WithdrawRequest(email: Option<string>, code: Option<string>, now: int, delivered: bool)

  function Step(store: Store, req: CodeRequest): (Reply, Store) {
    match req
    case IssueRequest(e, c, t, d) => IssueStep(store, e, c, t, d)
    case WithdrawRequest(e, c, t, d) => WithdrawStep(store, e, c, t, d)
  }

  /** The replies to a sequence of requests handled one after the other, and the final store. */
  function Run(store: Store, reqs: seq<CodeRequest>): (r: (seq<Reply>, Store))
    ensures |r.0| == |reqs|
    decreases reqs
  {
    if reqs == [] then ([], store)
    else
      var (reply, next) := Step(store, reqs[0]);
      var (replies, last) := Run(next, reqs[1..]);
      ([reply] + replies, last)
  }

  /** Does this request issue a code for `email`? One rejected for a missing code issues nothing. */
  predicate IssuesFor(req: CodeRequest, email: string) {
    req.IssueRequest? && req.email == Some(email) && Given(req.code)
  }

  /**
   * Once an email has no record, every withdrawal for it is rejected, and
   * it still has none, until a code is issued for it again.
   */
  lemma {:induction false} NoWithdrawalWithoutIssue(store: Store, reqs: seq<CodeRequest>, email: string)
    requires email !in store
    requires forall i :: 0 <= i < |reqs| ==> !IssuesFor(reqs[i], email)
    ensures email !in Run(store, reqs).1
    ensures forall i :: 0 <= i < |reqs| && reqs[i].WithdrawRequest? && reqs[i].email == Some(email) ==>
      Run(store, reqs).0[i] == BadRequest
    decreases reqs
  {
    if reqs != [] {
      var (reply, next) := Step(store, reqs[0]);
      assert email !in next;
      NoWithdrawalWithoutIssue(next, reqs[1..], email);
      var (replies, last) := Run(next, reqs[1..]);
      assert Run(store, reqs).0 == [reply] + replies;
      forall i | 0 <= i < |reqs| && reqs[i].WithdrawRequest? && reqs[i].email == Some(email)
        ensures Run(store, reqs).0[i] == BadRequest
      {
        if i > 0 {
          assert reqs[1..][i - 1] == reqs[i];
        }
      }
    }
  }

  /**
   * A code is redeemed at most once: after a withdrawal mail has gone out,
   * no later withdrawal for that email succeeds until a code is issued again.
   */
  lemma AtMostOneRedemption(store: Store, email: string, code: Option<string>, now: int, reqs: seq<CodeRequest>)
    requires Accepts(store, Some(email), code, now)
    requires forall i :: 0 <= i < |reqs| ==> !IssuesFor(reqs[i], email)
    ensures var after := WithdrawStep(store, Some(email), code, now, true).1;
      forall i :: 0 <= i < |reqs| && reqs[i].WithdrawRequest? && reqs[i].email == Some(email) ==>
        Run(after, reqs).0[i] != Sent
  {
    var after := WithdrawStep(store, Some(email), code, now, true).1;
    NoWithdrawalWithoutIssue(after, reqs, email);
  }
}
