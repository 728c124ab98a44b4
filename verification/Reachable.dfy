/**
 * Every committed transaction keeps the invariant and the pins and evolves the tables, so
 * every run does, from the empty database onwards.
 *
 * One lemma per request shows that its transaction Advances: StepPreserves and
 * SettlePreserves give the invariant, Pins the pins, Evolution what may not change. They
 * meet in StepAdvances, whose induction over a run is RunAdvances.
 */
module Reachable {
  import opened Basics
  import opened Registry
  import opened Quotes
  import opened Database
  import opened Invariant
  import opened CampaignTx
  import opened ExecutionTx
  import opened SettlePreserves
  import opened StepPreserves
  import opened Steps
  import opened Evolution
  import opened Pins

  ghost predicate Good(p: Policy, db: Db) {
    Inv(db) && Pinned(p, db)
  }

  /** The step leads to another good state and changes nothing it may not change. */
  ghost predicate Advances(p: Policy, db: Db, db': Db) {
    Good(p, db') && Evolves(db, db')
  }

  lemma GoodStarts(p: Policy)
    ensures Good(p, EMPTY)
  {
  }

  // ------------------------------------------------------------- campaign steps

  lemma QuietAdvances(p: Policy, db: Db, db': Db)
    requires Good(p, db) && Quiet(db, db') && ForeignKeys(db') && JobsOk(db') && Evolves(db, db')
    requires |db'.quotes| == |db.quotes| && QuoteCustody(db'.quotes)
    ensures Advances(p, db, db')
  {
    hide Sound, Lifecycle, Pointers, Counters, Budgets, Books, QuotesSound, AttemptsPinned, OperationsPinned, AttemptCustody, OpenLast;
    QuietPreserves(db, db');
    PinnedKept(p, db, db');
  }

  lemma CreateAdvances(p: Policy, db: Db, n: NewCampaign)
    requires Good(p, db)
    ensures Advances(p, db, After(db, CreateCampaign(p, db, n)))
  {
    hide Sound, Lifecycle, Pointers, Counters, Budgets, Books, QuotesSound, AttemptsPinned, OperationsPinned, AttemptCustody, OpenLast;
    var db' := After(db, CreateCampaign(p, db, n));
    EvolvesReflexive(db);
    CampaignRowKeys(p, db, n);
    QuietAdvances(p, db, db');
  }

  lemma StatusAdvances(p: Policy, db: Db, id: Id, status: CampaignStatus)
    requires Good(p, db)
    ensures Advances(p, db, After(db, SetCampaignStatus(db, id, status)))
  {
    hide Sound, Lifecycle, Pointers, Counters, Budgets, Books, QuotesSound, AttemptsPinned, OperationsPinned, AttemptCustody, OpenLast;
    hide ForeignKeys, Inv;
    InvParts(db);
    var db' := After(db, SetCampaignStatus(db, id, status));
    EvolvesReflexive(db);
    StatusKeys(db, id, status);
    QuietAdvances(p, db, db');
  }

  lemma IssueAdvances(p: Policy, db: Db, id: Id, wallet: Key, expiresAt: int, token: nat, now: int)
    requires Good(p, db)
    ensures Advances(p, db, After(db, IssueInvite(p, db, id, wallet, expiresAt, token, now)))
  {
    hide Sound, Lifecycle, Pointers, Counters, Budgets, Books, QuotesSound, AttemptsPinned, OperationsPinned, AttemptCustody, OpenLast;
    var db' := After(db, IssueInvite(p, db, id, wallet, expiresAt, token, now));
    EvolvesReflexive(db);
    IssueKeys(p, db, id, wallet, expiresAt, token, now);
    QuietAdvances(p, db, db');
  }

  lemma RevokeAdvances(p: Policy, db: Db, id: Id)
    requires Good(p, db)
    ensures Advances(p, db, After(db, RevokeInvite(db, id)))
  {
    hide Sound, Lifecycle, Pointers, Counters, Budgets, Books, QuotesSound, AttemptsPinned, OperationsPinned, AttemptCustody, OpenLast;
    var db' := After(db, RevokeInvite(db, id));
    EvolvesReflexive(db);
    RevokeKeys(db, id);
    QuietAdvances(p, db, db');
  }

  lemma RotateAdvances(p: Policy, db: Db, id: Id, expiresAt: int, token: nat, now: int)
    requires Good(p, db)
    ensures Advances(p, db, After(db, RotateInvite(db, id, expiresAt, token, now)))
  {
    hide Sound, Lifecycle, Pointers, Counters, Budgets, Books, QuotesSound, AttemptsPinned, OperationsPinned, AttemptCustody, OpenLast;
    var db' := After(db, RotateInvite(db, id, expiresAt, token, now));
    EvolvesReflexive(db);
    RotateKeys(db, id, expiresAt, token, now);
    QuietAdvances(p, db, db');
  }

  lemma ExchangeAdvances(p: Policy, db: Db, token: nat, sessionToken: nat, now: int)
    requires Good(p, db)
    ensures Advances(p, db, After(db, ExchangeInvite(p, db, token, sessionToken, now)))
  {
    hide Sound, Lifecycle, Pointers, Counters, Budgets, Books, QuotesSound, AttemptsPinned, OperationsPinned, AttemptCustody, OpenLast;
    var db' := After(db, ExchangeInvite(p, db, token, sessionToken, now));
    EvolvesReflexive(db);
    ExchangeKeys(p, db, token, sessionToken, now);
    QuietAdvances(p, db, db');
  }

  lemma SweepAdvances(p: Policy, db: Db, ids: set<Id>, now: int)
    requires Good(p, db)
    ensures Advances(p, db, After(db, SweepQuotes(db, ids, now)))
  {
    hide Sound, Lifecycle, Pointers, Counters, Budgets, Books, QuotesSound, AttemptsPinned, OperationsPinned, AttemptCustody, OpenLast;
    var db' := After(db, SweepQuotes(db, ids, now));
    EvolvesReflexive(db);
    SweepKeys(db, ids, now);
    QuietAdvances(p, db, db');
  }

  lemma StoredSound(p: Policy, q: SponsoredQuote, t: Terms, wallet: Key, now: int)
    requires ValidateStoredQuote(p, q, t, wallet, now).Some?
    ensures Sound(p, q, t, wallet)
  {
    WindowIsExact(p, q, t, wallet, now, q.preparedAtMs);
  }

  lemma SaveAdvances(p: Policy, db: Db, db': Db, row: QuoteRow, invite: Id)
    requires Good(p, db) && ForeignKeys(db') && row.campaign < |db.campaigns| && row.invite < |db.invites|
    requires db' == db.(quotes := LapseQuotes(db.quotes, QuotedOn(invite)) + [row])
    requires row.status.Quoted? && row.payerKey.Some?
    requires Sound(p, row.payload, TermsOf(db.campaigns[row.campaign]), db.invites[row.invite].wallet)
    ensures Advances(p, db, db')
  {
    hide Sound, Lifecycle, Pointers, Counters, Budgets, Books, QuotesSound, AttemptsPinned, OperationsPinned, AttemptCustody, OpenLast;
    SavedEvolves(db, row, invite);
    SavedSound(p, db, db', row);
    SavedPinned(p, db, db', row, invite);
    QuietPreserves(db, db');
  }

  lemma SaveQuoteAdvances(p: Policy, db: Db, token: nat, quote: SponsoredQuote, key: string, now: int)
    requires Good(p, db)
    ensures Advances(p, db, After(db, SaveQuote(p, db, token, quote, key, now)))
  {
    hide Sound, ValidateStoredQuote, Evolves, Lifecycle, Pointers, Counters, Budgets, Books, Pinned;
    var r := SaveQuote(p, db, token, quote, key, now);
    EvolvesReflexive(db);
    if r.Commit? {
      SaveQuoteKeys(p, db, token, quote, key, now);
      var invite := LockSession(p, db, token, now).invite;
      var i := db.invites[invite];
      StoredSound(p, quote, TermsOf(db.campaigns[i.campaign]), i.wallet, now);
      SaveAdvances(p, db, r.db,
        QuoteRow(i.campaign, invite, i.wallet, quote.name, quote, Some(key), Quoted, quote.expiresAtMs), invite);
    }
  }

  lemma ReserveAdvances(p: Policy, db: Db, token: nat, quote: Id, key: string, now: int)
    requires Good(p, db)
    ensures Advances(p, db, After(db, ReserveAttempt(p, db, token, quote, key, now)))
  {
    hide Sound, Lifecycle, Pointers, Counters, Budgets, Books, QuotesSound, AttemptsPinned, OperationsPinned, AttemptCustody, OpenLast;
    var r := ReserveAttempt(p, db, token, quote, key, now);
    EvolvesReflexive(db);
    if r.Commit? && r.db != db {
      var reservation := db.quotes[quote].payload.cost.maximumReservation;
      ReservePreserves(db, quote, reservation, key);
      ReservedPinned(p, db, quote, key);
      ReserveEvolves(db, quote, reservation, key);
    }
  }

  lemma ExpireAdvances(p: Policy, db: Db, id: Id, now: int)
    requires Good(p, db)
    ensures Advances(p, db, After(db, ExpireUnsigned(db, id, now)))
  {
    hide Sound, Lifecycle, Pointers, Counters, Budgets, Books, QuotesSound, AttemptsPinned, OperationsPinned, AttemptCustody, OpenLast;
    var r := ExpireUnsigned(db, id, now);
    EvolvesReflexive(db);
    if r.Commit? && r.value {
      ReleasePreserves(db, id);
      ReleaseEvolves(db, id);
      PinnedKept(p, db, r.db);
    }
  }

  lemma CampaignStepAdvances(p: Policy, db: Db, s: Step, now: int)
    requires Good(p, db) && CampaignStep(s)
    ensures Advances(p, db, Apply(p, db, s, now))
  {
    hide Sound, Lifecycle, Pointers, Counters, Budgets, Books, QuotesSound, AttemptsPinned, OperationsPinned, AttemptCustody, OpenLast;
    match s {
      case DoCreateCampaign(n) =>
        CreateAdvances(p, db, n);
      case DoSetStatus(id, status) =>
        StatusAdvances(p, db, id, status);
      case DoIssueInvite(id, wallet, expiresAt, token) =>
        IssueAdvances(p, db, id, wallet, expiresAt, token, now);
      case DoRevokeInvite(id) =>
        RevokeAdvances(p, db, id);
      case DoRotateInvite(id, expiresAt, token) =>
        RotateAdvances(p, db, id, expiresAt, token, now);
      case DoExchangeInvite(token, sessionToken) =>
        ExchangeAdvances(p, db, token, sessionToken, now);
      case DoSaveQuote(token, quote, key) =>
        SaveQuoteAdvances(p, db, token, quote, key, now);
      case DoReserveAttempt(token, id, key) =>
        ReserveAdvances(p, db, token, id, key, now);
      case DoExpireUnsigned(id) =>
        ExpireAdvances(p, db, id, now);
      case DoSweepQuotes(ids) =>
        SweepAdvances(p, db, ids, now);
    }
  }

  // --------------------------------------------------------------- worker steps

  lemma JobsAdvance(p: Policy, db: Db, db': Db)
    requires Good(p, db) && ForeignKeys(db') && JobsOk(db') && db' == db.(jobs := db'.jobs, nextJob := db'.nextJob)
    ensures Advances(p, db, db')
  {
    hide Sound, Lifecycle, Pointers, Counters, Budgets, Books, QuotesSound, AttemptsPinned, OperationsPinned, AttemptCustody, OpenLast;
    EvolvesReflexive(db);
    assert Evolves(db, db');
    QuietAdvances(p, db, db');
  }

  lemma StatusMoveEvolves(db: Db, db': Db, o: Id)
    requires StatusMove(db, db', o) && db'.quotes == db.quotes && db'.sessions == db.sessions
    requires SameOperation(db.operations[o], db'.operations[o])
    requires SameAttempt(db.attempts[db.operations[o].attempt], db'.attempts[db.operations[o].attempt])
    ensures Evolves(db, db')
  {
    hide Sound, Lifecycle, Pointers, Counters, Budgets, Books, QuotesSound, AttemptsPinned, OperationsPinned, AttemptCustody, OpenLast;
  }

  lemma MoveAdvances(p: Policy, db: Db, db': Db, o: Id)
    requires Good(p, db) && StatusMove(db, db', o) && ForeignKeys(db') && JobsOk(db')
    requires db'.quotes == db.quotes && db'.sessions == db.sessions
    requires SameOperation(db.operations[o], db'.operations[o])
    requires SameAttempt(db.attempts[db.operations[o].attempt], db'.attempts[db.operations[o].attempt])
    ensures Advances(p, db, db')
  {
    hide Sound, Lifecycle, Pointers, Counters, Budgets, Books, QuotesSound, AttemptsPinned, OperationsPinned, AttemptCustody, OpenLast;
    StatusPreserves(db, db', o);
    StatusMoveEvolves(db, db', o);
    PinnedKept(p, db, db');
  }

  /** The locked rows of a leased operation: open, and in agreement with each other. */
  lemma LeasedRows(db: Db, l: Lease, now: int)
    requires Inv(db) && Fenced(db, l, now).None?
    ensures var op := db.operations[l.operation]; var a := db.attempts[op.attempt];
            !Settled(op) && OperationOk(op) && AttemptOk(a) && Fits(op, a)
  {
    var op := db.operations[l.operation];
    assert OperationOk(op) && AttemptOk(db.attempts[op.attempt]) && Fits(op, db.attempts[op.attempt]);
  }

  lemma InvParts(db: Db)
    requires Inv(db)
    ensures ForeignKeys(db) && OperationKeys(db) && JobsOk(db)
  {
  }

  predicate Moved(op: Operation, op': Operation, a: Attempt, a': Attempt) {
    && !Settled(op') && op'.kind == op.kind && op'.attempt == op.attempt && SameStanding(a, a')
    && OperationOk(op') && AttemptOk(a') && Fits(op', a') && !Unsigned(a.status)
    && (op.kind.Recovery? ==> a'.signature == a.signature)
    && SameOperation(op, op') && SameAttempt(a, a')
  }

  lemma PersistedRows(op: Operation, a: Attempt, input: SignedInput, o: Id)
    requires OperationOk(op) && AttemptOk(a) && Fits(op, a) && op.status.Signing?
    ensures var op' := op.(status := Signed, signedPayload := Some(Sealed(o, SignedPurpose, input.bytes)),
                           signature := Some(input.signature), userPayload := None);
            var a' := if op.kind.Registration? then a.(status := Signed, signature := Some(input.signature)) else a;
            Moved(op, op', a, a')
  {
    hide Sound, Lifecycle, Pointers, Counters, Budgets, Books, QuotesSound, AttemptsPinned, OperationsPinned, AttemptCustody, OpenLast;
  }

  lemma NotedRows(op: Operation, a: Attempt, state: Status)
    requires OperationOk(op) && AttemptOk(a) && Fits(op, a) && op.signature.Some? && op.signedPayload.Some? && NoteState(state)
    requires op.status.Signed? || op.status.Submitted? || op.status.BroadcastUnknown? || (op.status.Confirmed? && state.Confirmed?)
    ensures Moved(op, op.(status := state), a, if op.kind.Registration? then a.(status := state) else a)
  {
    hide Sound, Lifecycle, Pointers, Counters, Budgets, Books, QuotesSound, AttemptsPinned, OperationsPinned, AttemptCustody, OpenLast;
  }

  lemma ReviewedRows(op: Operation, a: Attempt)
    requires OperationOk(op) && AttemptOk(a) && Fits(op, a) && !Settled(op)
    ensures Moved(op, op.(status := ManualReview), a, a.(status := ManualReview))
  {
    hide Sound, Lifecycle, Pointers, Counters, Budgets, Books, QuotesSound, AttemptsPinned, OperationsPinned, AttemptCustody, OpenLast;
  }

  lemma PersistAdvances(p: Policy, db: Db, l: Lease, input: SignedInput, now: int)
    requires Good(p, db)
    ensures Advances(p, db, After(db, PersistSigned(db, l, input, now)))
  {
    hide Sound, Lifecycle, Pointers, Counters, Budgets, Books, QuotesSound, AttemptsPinned, OperationsPinned, AttemptCustody, OpenLast;
    hide SameOperation, SameAttempt, SameStanding, OperationOk, AttemptOk, Fits, QuoteCustody, Evolves, Inv, ForeignKeys;
    InvParts(db);
    var r := PersistSigned(db, l, input, now);
    EvolvesReflexive(db);
    if r.Commit? {
      LeasedRows(db, l, now);
      var op := db.operations[l.operation];
      PersistedRows(op, db.attempts[op.attempt], input, l.operation);
      PersistKeys(db, l, input, now);
      MoveAdvances(p, db, r.db, l.operation);
    }
  }

  lemma NoteAdvances(p: Policy, db: Db, l: Lease, state: Status, now: int)
    requires Good(p, db) && NoteState(state)
    ensures Advances(p, db, After(db, Note(db, l, state, now)))
  {
    hide Sound, Lifecycle, Pointers, Counters, Budgets, Books, QuotesSound, AttemptsPinned, OperationsPinned, AttemptCustody, OpenLast;
    hide SameOperation, SameAttempt, SameStanding, OperationOk, AttemptOk, Fits, QuoteCustody, Evolves, Inv, ForeignKeys;
    InvParts(db);
    var r := Note(db, l, state, now);
    EvolvesReflexive(db);
    if r.Commit? && r.db != db {
      LeasedRows(db, l, now);
      var op := db.operations[l.operation];
      NotedRows(op, db.attempts[op.attempt], state);
      NoteKeys(db, l, state, now);
      MoveAdvances(p, db, r.db, l.operation);
    }
  }

  lemma ReviewAdvances(p: Policy, db: Db, l: Lease, now: int)
    requires Good(p, db)
    ensures Advances(p, db, After(db, ManualReviewTx(db, l, now)))
  {
    hide Sound, Lifecycle, Pointers, Counters, Budgets, Books, QuotesSound, AttemptsPinned, OperationsPinned, AttemptCustody, OpenLast;
    hide SameOperation, SameAttempt, SameStanding, OperationOk, AttemptOk, Fits, QuoteCustody, Evolves, Inv, ForeignKeys;
    InvParts(db);
    var r := ManualReviewTx(db, l, now);
    EvolvesReflexive(db);
    if r.Commit? {
      LeasedRows(db, l, now);
      var op := db.operations[l.operation];
      ReviewedRows(op, db.attempts[op.attempt]);
      ReviewKeys(db, l, now);
      MoveAdvances(p, db, r.db, l.operation);
    }
  }

  lemma RescheduleAdvances(p: Policy, db: Db, l: Lease, delayMs: int, now: int)
    requires Good(p, db)
    ensures Advances(p, db, After(db, Reschedule(db, l, delayMs, now)))
  {
    hide Sound, Lifecycle, Pointers, Counters, Budgets, Books, QuotesSound, AttemptsPinned, OperationsPinned, AttemptCustody, OpenLast;
    RescheduleKeys(db, l, delayMs, now);
    JobsAdvance(p, db, After(db, Reschedule(db, l, delayMs, now)));
  }

  lemma ClaimAdvances(p: Policy, db: Db, owner: nat, id: Id, sponsor: Option<Key>, now: int)
    requires Good(p, db)
    ensures Advances(p, db, After(db, ClaimJob(db, owner, id, sponsor, now)))
  {
    hide Sound, Lifecycle, Pointers, Counters, Budgets, Books, QuotesSound, AttemptsPinned, OperationsPinned, AttemptCustody, OpenLast;
    ClaimKeys(db, owner, id, sponsor, now);
    JobsAdvance(p, db, After(db, ClaimJob(db, owner, id, sponsor, now)));
  }

  lemma RetryAdvances(p: Policy, db: Db, id: Id, token: Option<nat>, now: int)
    requires Good(p, db)
    ensures Advances(p, db, After(db, RequestRetry(db, id, token, now)))
  {
    hide Sound, Lifecycle, Pointers, Counters, Budgets, Books, QuotesSound, AttemptsPinned, OperationsPinned, AttemptCustody, OpenLast;
    RetryKeys(db, id, token, now);
    JobsAdvance(p, db, After(db, RequestRetry(db, id, token, now)));
  }

  lemma SettleAdvances(p: Policy, db: Db, l: Lease, v: Settlement, now: int)
    requires Good(p, db)
    ensures Advances(p, db, After(db, Settle(db, l, v, now)))
  {
    hide Sound, Lifecycle, Pointers, Counters, Budgets, Books, QuotesSound, AttemptsPinned, OperationsPinned, AttemptCustody, OpenLast;
    var r := Settle(db, l, v, now);
    EvolvesReflexive(db);
    if r.Commit? {
      SettlementPreserves(db, l.operation, v);
      SettleEvolves(db, l.operation, v);
      PinnedKept(p, db, r.db);
    }
  }

  lemma LeasedStepAdvances(p: Policy, db: Db, s: Step, now: int)
    requires Good(p, db) && LeasedStep(s)
    ensures Advances(p, db, Apply(p, db, s, now))
  {
    hide Sound, Lifecycle, Pointers, Counters, Budgets, Books, QuotesSound, AttemptsPinned, OperationsPinned, AttemptCustody, OpenLast;
    match s {
      case DoPersistSigned(l, input) =>
        PersistAdvances(p, db, l, input, now);
      case DoNote(l, state) =>
        EvolvesReflexive(db);
        if NoteState(state) { NoteAdvances(p, db, l, state, now); }
      case DoReschedule(l, delayMs) =>
        RescheduleAdvances(p, db, l, delayMs, now);
      case DoManualReview(l) =>
        ReviewAdvances(p, db, l, now);
      case DoSettle(l, v) =>
        SettleAdvances(p, db, l, v, now);
    }
  }

  // --------------------------------------------------------------- other steps

  lemma QuoteCosts(p: Policy, db: Db, q: Id)
    requires ForeignKeys(db) && QuotesSound(p, db) && q < |db.quotes|
    ensures CostWithin(db.quotes[q].payload.cost, db.campaigns[db.quotes[q].campaign].limits)
  {
    assert Sound(p, db.quotes[q].payload, TermsOf(db.campaigns[db.quotes[q].campaign]), db.invites[db.quotes[q].invite].wallet);
  }

  lemma AuthorizeAdvances(p: Policy, db: Db, token: nat, id: Id, input: Authorization, now: int)
    requires Good(p, db)
    ensures Advances(p, db, After(db, Authorize(p, db, token, id, input, now)))
  {
    hide Sound, Lifecycle, Pointers, Counters, Budgets, Books, QuotesSound, AttemptsPinned, OperationsPinned, AttemptCustody, OpenLast;
    var r := Authorize(p, db, token, id, input, now);
    EvolvesReflexive(db);
    if r.Commit? && r.db != db {
      QuoteCosts(p, db, db.attempts[id].quote);
      AuthorizePreserves(db, id, input.userPayload, now);
      AuthorizedPinned(p, db, id, input.userPayload, now);
      AuthorizeEvolves(db, id, input.userPayload, now);
    }
  }

  lemma RecoverableSettled(db: Db, id: Id)
    requires ForeignKeys(db) && Lifecycle(db) && id < |db.attempts| && FindActiveRecovery(db.operations, id).None?
    requires (db.attempts[id].status.Finalized? || db.attempts[id].status.ManualReview?) && db.attempts[id].residual.Some?
    ensures forall o :: 0 <= o < |db.operations| && db.operations[o].attempt == id ==> Settled(db.operations[o])
  {
    AllSettled(db.operations, id, db.attempts[id]);
  }

  lemma RecoverAdvances(p: Policy, db: Db, id: Id, input: RecoveryInput, now: int)
    requires Good(p, db)
    ensures Advances(p, db, After(db, ReserveRecovery(db, id, input, now)))
  {
    hide Sound, Lifecycle, Pointers, Counters, Budgets, Books, QuotesSound, AttemptsPinned, OperationsPinned, AttemptCustody, OpenLast;
    var r := ReserveRecovery(db, id, input, now);
    EvolvesReflexive(db);
    if r.Commit? && r.db != db {
      var extra := Max(input.fee - db.attempts[id].remaining, 0);
      RecoveryPreserves(db, id, input, extra, now);
      RecoverableSettled(db, id);
      RecoveryPinned(p, db, id, input, extra, now);
      RecoveryEvolves(db, id, input, extra, now);
    }
  }

  /** Any committed or aborted step, by anyone, at any clock reading. */
  lemma StepAdvances(p: Policy, db: Db, s: Step, now: int)
    requires Good(p, db)
    ensures Advances(p, db, Apply(p, db, s, now))
  {
    hide Sound, Lifecycle, Pointers, Counters, Budgets, Books, QuotesSound, AttemptsPinned, OperationsPinned, AttemptCustody, OpenLast;
    if CampaignStep(s) {
      CampaignStepAdvances(p, db, s, now);
    } else if LeasedStep(s) {
      LeasedStepAdvances(p, db, s, now);
    } else {
      match s {
        case DoAuthorize(token, id, a) =>
          AuthorizeAdvances(p, db, token, id, a, now);
        case DoClaimJob(owner, id, sponsor) =>
          ClaimAdvances(p, db, owner, id, sponsor, now);
        case DoRequestRetry(id, session) =>
          RetryAdvances(p, db, id, session, now);
        case DoReserveRecovery(id, input) =>
          RecoverAdvances(p, db, id, input, now);
      }
    }
  }

  /** Every run from a good state advances, in particular every run from the empty tables. */
  lemma {:induction false} RunAdvances(p: Policy, db: Db, steps: seq<Timed>)
    requires Good(p, db)
    ensures Advances(p, db, Run(p, db, steps))
  {
    hide Sound, Lifecycle, Pointers, Counters, Budgets, Books, QuotesSound, AttemptsPinned, OperationsPinned, AttemptCustody, OpenLast;
    if steps == [] {
      EvolvesReflexive(db);
    } else {
      var last := steps[|steps| - 1];
      var before := Run(p, db, steps[..|steps| - 1]);
      RunAdvances(p, db, steps[..|steps| - 1]);
      StepAdvances(p, before, last.step, last.now);
      EvolvesTransitive(db, before, Run(p, db, steps));
    }
  }
}
