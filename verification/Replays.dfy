/**
 * Requests that may be repeated: once a reservation, an authorization or a recovery has
 * been granted, asking again changes nothing, so a run with repeats ends where the run
 * without them ends.
 */
module Replays {
  import opened Basics
  import opened Registry
  import opened Quotes
  import opened Database
  import opened Invariant
  import opened CampaignTx
  import opened ExecutionTx
  import opened Steps
  import opened Evolution
  import opened Pins
  import opened Reachable

  // ----------------------------------------------------------- lookups that persist

  lemma {:induction false} LastMatch(sessions: seq<Session>, token: nat, s: Id)
    requires s < |sessions| && sessions[s].token == token
    requires forall n :: s < n < |sessions| ==> sessions[n].token != token
    ensures FindSession(sessions, token) == Some(s)
  {
    var n := |sessions| - 1;
    if s < n { LastMatch(sessions[..n], token, s); }
  }

  lemma {:induction false} FoundLast(sessions: seq<Session>, token: nat)
    requires FindSession(sessions, token).Some?
    ensures var s := FindSession(sessions, token).value; forall n :: s < n < |sessions| ==> sessions[n].token != token
  {
    var n := |sessions| - 1;
    if sessions[n].token != token { FoundLast(sessions[..n], token); }
  }

  /** A token keeps naming the same session, and through it the same invite. */
  lemma SessionStays(ss: seq<Session>, ss': seq<Session>, token: nat)
    requires SessionsEvolve(ss, ss') && FindSession(ss, token).Some?
    ensures FindSession(ss', token) == FindSession(ss, token)
    ensures var s := FindSession(ss, token).value; ss'[s].invite == ss[s].invite
  {
    hide FindSession;
    var s := FindSession(ss, token).value;
    FoundLast(ss, token);
    assert SameSession(ss[s], ss'[s]);
    forall n | s < n < |ss'| ensures ss'[n].token != token {
      if n < |ss| { assert SameSession(ss[n], ss'[n]); }
    }
    LastMatch(ss', token, s);
  }

  lemma AttemptStaysFound(rows: seq<Attempt>, rows': seq<Attempt>, invite: Id, key: string)
    requires AttemptsEvolve(rows, rows') && FindAttempt(rows, invite, key).Some?
    ensures FindAttempt(rows', invite, key).Some?
  {
    var a := FindAttempt(rows, invite, key).value;
    assert SameAttempt(rows[a], rows'[a]);
  }

  lemma RegistrationStaysFound(ops: seq<Operation>, ops': seq<Operation>, id: Id)
    requires OperationsEvolve(ops, ops') && FindRegistration(ops, id).Some?
    ensures FindRegistration(ops', id).Some?
  {
    var o := FindRegistration(ops, id).value;
    assert SameOperation(ops[o], ops'[o]) && IsRegistration(ops'[o], id);
  }

  // ---------------------------------------------------------------- one repeat

  /** A repeat of this request: same session and idempotency key, same attempt, or same recovery. */
  predicate Repeats(request: Step, again: Step) {
    || (request.DoReserveAttempt? && again.DoReserveAttempt? && again.token == request.token && again.id == request.id
        && again.idempotencyKey == request.idempotencyKey)
    || (request.DoAuthorize? && again.DoAuthorize? && again.id == request.id)
    || (request.DoReserveRecovery? && again.DoReserveRecovery? && again.id == request.id)
  }

  /** The request was granted in this state. */
  ghost predicate Granted(p: Policy, db: Db, request: Step, now: int)
    requires ForeignKeys(db)
  {
    match request
    case DoReserveAttempt(token, id, key) => ReserveAttempt(p, db, token, id, key, now).Commit?
    case DoAuthorize(token, id, a) => Authorize(p, db, token, id, a, now).Commit?
    case DoReserveRecovery(id, input) => ReserveRecovery(db, id, input, now).Commit?
    case _ => false
  }

  /** What a grant leaves behind for the repeat to find. */
  predicate Remembered(db: Db, request: Step) {
    match request
    case DoReserveAttempt(token, id, key) =>
      var s := FindSession(db.sessions, token);
      s.Some? && FindAttempt(db.attempts, db.sessions[s.value].invite, key).Some?
    case DoAuthorize(token, id, a) => FindRegistration(db.operations, id).Some?
    case DoReserveRecovery(id, input) => FindActiveRecovery(db.operations, id).Some?
    case _ => false
  }

  lemma ReserveRemembered(p: Policy, db: Db, token: nat, id: Id, key: string, now: int)
    requires ForeignKeys(db) && ReserveAttempt(p, db, token, id, key, now).Commit?
    ensures Remembered(ReserveAttempt(p, db, token, id, key, now).db, DoReserveAttempt(token, id, key))
  {
    hide ValidateStoredQuote, UsableCampaign, UsableInvite, ActiveIndexClash, ForeignKeys, FindSession, FindAttempt;
    var r := ReserveAttempt(p, db, token, id, key, now);
    var invite := LockSession(p, db, token, now).invite;
    if FindAttempt(db.attempts, invite, key).None? {
      AppendedFound(db.attempts, r.db.attempts[|db.attempts|], invite, key);
    }
  }

  lemma AppendedFound(rows: seq<Attempt>, a: Attempt, invite: Id, key: string)
    requires a.invite == invite && a.idempotencyKey == key
    ensures FindAttempt(rows + [a], invite, key).Some?
  {
  }

  lemma AuthorizeRemembered(p: Policy, db: Db, token: nat, id: Id, a: Authorization, now: int)
    requires ForeignKeys(db) && Authorize(p, db, token, id, a, now).Commit?
    ensures FindRegistration(Authorize(p, db, token, id, a, now).db.operations, id).Some?
  {
    hide ForeignKeys, Authenticated, MayAuthorize, FreshFor, SamePolicy, ValidPreflight;
    var db' := Authorize(p, db, token, id, a, now).db;
    if FindRegistration(db.operations, id).None? {
      assert IsRegistration(db'.operations[|db.operations|], id);
    }
  }

  lemma RecoveryRemembered(db: Db, id: Id, input: RecoveryInput, now: int)
    requires ForeignKeys(db) && ReserveRecovery(db, id, input, now).Commit?
    ensures FindActiveRecovery(ReserveRecovery(db, id, input, now).db.operations, id).Some?
  {
    hide ForeignKeys, MayRecover;
    var db' := ReserveRecovery(db, id, input, now).db;
    if FindActiveRecovery(db.operations, id).None? {
      assert IsActiveRecovery(db'.operations[|db.operations|], id);
    }
  }

  lemma GrantRemembered(p: Policy, db: Db, request: Step, now: int)
    requires ForeignKeys(db) && Granted(p, db, request, now)
    ensures Remembered(Apply(p, db, request, now), request)
  {
    hide ForeignKeys, CreateCampaign, SetCampaignStatus, IssueInvite, RevokeInvite, RotateInvite, ExchangeInvite, SaveQuote;
    hide ReserveAttempt, ExpireUnsigned, SweepQuotes, Authorize, ClaimJob, PersistSigned, Note, Reschedule, ManualReviewTx;
    hide RequestRetry, Settle, ReserveRecovery, FindSession, FindAttempt, FindRegistration, FindActiveRecovery;
    match request {
      case DoReserveAttempt(token, id, key) =>
        ReserveRemembered(p, db, token, id, key, now);
      case DoAuthorize(token, id, a) =>
        AuthorizeRemembered(p, db, token, id, a, now);
      case DoReserveRecovery(id, input) =>
        RecoveryRemembered(db, id, input, now);
    }
  }

  /** Reservations and authorizations are remembered for good; a recovery as long as it is open. */
  lemma RememberedStays(db: Db, db': Db, request: Step)
    requires Evolves(db, db') && Remembered(db, request)
    requires request.DoReserveRecovery? ==> FindActiveRecovery(db'.operations, request.id).Some?
    ensures Remembered(db', request)
  {
    hide FindSession, FindAttempt, FindRegistration, FindActiveRecovery, SessionsEvolve, AttemptsEvolve, OperationsEvolve;
    match request {
      case DoReserveAttempt(token, id, key) =>
        SessionStays(db.sessions, db'.sessions, token);
        AttemptStaysFound(db.attempts, db'.attempts, db.sessions[FindSession(db.sessions, token).value].invite, key);
      case DoAuthorize(token, id, a) =>
        RegistrationStaysFound(db.operations, db'.operations, id);
      case DoReserveRecovery(id, input) =>
    }
  }

  lemma RepeatReserve(p: Policy, db: Db, token: nat, id: Id, key: string, now: int)
    requires ForeignKeys(db) && Remembered(db, DoReserveAttempt(token, id, key))
    ensures After(db, ReserveAttempt(p, db, token, id, key, now)) == db
  {
    hide ValidateStoredQuote, UsableCampaign, UsableInvite, ActiveIndexClash, ForeignKeys, FindSession, FindAttempt;
  }

  lemma RepeatAuthorize(p: Policy, db: Db, token: nat, id: Id, a: Authorization, now: int)
    requires ForeignKeys(db) && FindRegistration(db.operations, id).Some?
    ensures After(db, Authorize(p, db, token, id, a, now)) == db
  {
    hide ForeignKeys, Authenticated, MayAuthorize, FreshFor, SamePolicy, ValidPreflight, FindRegistration;
  }

  lemma RepeatRecovery(db: Db, id: Id, input: RecoveryInput, now: int)
    requires ForeignKeys(db) && FindActiveRecovery(db.operations, id).Some?
    ensures After(db, ReserveRecovery(db, id, input, now)) == db
  {
    hide ForeignKeys, MayRecover, FindActiveRecovery;
  }

  lemma RepeatStutters(p: Policy, db: Db, request: Step, again: Step, now: int)
    requires ForeignKeys(db) && Remembered(db, request) && Repeats(request, again)
    ensures Apply(p, db, again, now) == db
  {
    hide ForeignKeys, CreateCampaign, SetCampaignStatus, IssueInvite, RevokeInvite, RotateInvite, ExchangeInvite, SaveQuote;
    hide ReserveAttempt, ExpireUnsigned, SweepQuotes, Authorize, ClaimJob, PersistSigned, Note, Reschedule, ManualReviewTx;
    hide RequestRetry, Settle, ReserveRecovery, FindSession, FindAttempt, FindRegistration, FindActiveRecovery;
    match again {
      case DoReserveAttempt(token, id, key) =>
        RepeatReserve(p, db, token, id, key, now);
      case DoAuthorize(token, id, a) =>
        RepeatAuthorize(p, db, token, id, a, now);
      case DoReserveRecovery(id, input) =>
        RepeatRecovery(db, id, input, now);
    }
  }

  // ---------------------------------------------------------------------- runs

  lemma {:induction false} RunSplits(p: Policy, db: Db, s: seq<Timed>, t: seq<Timed>)
    requires ForeignKeys(db)
    ensures Run(p, db, s + t) == Run(p, Run(p, db, s), t)
  {
    hide ForeignKeys, Apply;
    if t == [] {
      assert s + t == s;
    } else {
      var n := |t| - 1;
      assert (s + t)[..|s + t| - 1] == s + t[..n];
      RunSplits(p, db, s, t[..n]);
    }
  }

  lemma OneStep(p: Policy, db: Db, t: Timed)
    requires ForeignKeys(db)
    ensures Run(p, db, [t]) == Apply(p, db, t.step, t.now)
  {
    hide ForeignKeys, Apply;
    assert [t][..0] == [];
  }

  /**
   * Insert a repeat of a granted request anywhere later in a run: every table ends exactly
   * as without it. For a recovery the repeat must come while that recovery is still open.
   */
  lemma ReplayStutters(
    p: Policy, db: Db, request: Timed, mid: seq<Timed>, again: Timed, rest: seq<Timed>)
    requires Good(p, db) && ForeignKeys(db) && Granted(p, db, request.step, request.now) && Repeats(request.step, again.step)
    requires request.step.DoReserveRecovery? ==>
               FindActiveRecovery(Run(p, db, [request] + mid).operations, request.step.id).Some?
    ensures Run(p, db, [request] + mid + [again] + rest) == Run(p, db, [request] + mid + rest)
  {
    hide Inv, Pinned, ForeignKeys, Run, Granted, Remembered, Repeats, Apply, FindActiveRecovery;
    var granted := Run(p, db, [request]);
    OneStep(p, db, request);
    GrantRemembered(p, db, request.step, request.now);
    RunAdvances(p, db, [request]);
    RunSplits(p, db, [request], mid);
    RunAdvances(p, granted, mid);
    var later := Run(p, db, [request] + mid);
    RememberedStays(granted, later, request.step);
    RepeatStutters(p, later, request.step, again.step, again.now);
    OneStep(p, later, again);
    RunSplits(p, db, [request] + mid, [again]);
    RunSplits(p, db, [request] + mid + [again], rest);
    RunSplits(p, db, [request] + mid, rest);
  }
}
