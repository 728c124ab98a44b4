/**
 * Only settlement settles: every other transaction leaves costs, residuals, verified slots
 * and settled operations alone, and none of them lowers the hold of an authorized attempt.
 *
 * The cost law and the reconciler both rest on this: between two settlements of an attempt
 * nothing they compare can move.
 */
module Custody {
  import opened Registry
  import opened Quotes
  import opened Database
  import opened Invariant
  import opened CampaignTx
  import opened ExecutionTx
  import opened Steps
  import opened Reachable

  /** Nothing is spent, and a hold past preparation does not shrink. */
  predicate Untaken(a: Attempt, a': Attempt) {
    && a'.cost == a.cost && a'.residual == a.residual && a'.slot == a.slot && a'.status.Failed? == a.status.Failed?
    && (!a.status.Prepared? ==> a.remaining <= a'.remaining)
  }

  predicate Blank(a: Attempt) {
    a.cost == 0 && a.residual.None? && a.slot.None? && !a.status.Failed?
  }

  ghost predicate AttemptsUntaken(rows: seq<Attempt>, rows': seq<Attempt>) {
    && |rows| <= |rows'|
    && (forall a :: 0 <= a < |rows| ==> Untaken(rows[a], rows'[a]))
    && (forall a :: |rows| <= a < |rows'| ==> Blank(rows'[a]))
  }

  ghost predicate NoneSettles(ops: seq<Operation>, ops': seq<Operation>) {
    && |ops| <= |ops'|
    && (forall o :: 0 <= o < |ops| ==> SameOutcome(ops[o], ops'[o]))
    && (forall o :: |ops| <= o < |ops'| ==> !Settled(ops'[o]))
  }

  predicate SameOutcome(op: Operation, op': Operation) {
    Settled(op') == Settled(op) && op'.attempt == op.attempt && op'.kind == op.kind && (Settled(op) ==> op' == op)
  }

  ghost predicate NothingSettles(db: Db, db': Db) {
    AttemptsUntaken(db.attempts, db'.attempts) && NoneSettles(db.operations, db'.operations)
  }

  lemma SameTables(db: Db, db': Db)
    requires db'.attempts == db.attempts && db'.operations == db.operations
    ensures NothingSettles(db, db')
  {
  }

  lemma SaveSettlesNothing(p: Policy, db: Db, token: nat, quote: SponsoredQuote, key: string, now: int)
    requires ForeignKeys(db)
    ensures NothingSettles(db, After(db, SaveQuote(p, db, token, quote, key, now)))
  {
    hide ValidateStoredQuote, LockSession, ForeignKeys;
    SameTables(db, After(db, SaveQuote(p, db, token, quote, key, now)));
  }

  lemma ReserveSettlesNothing(p: Policy, db: Db, token: nat, quote: Id, key: string, now: int)
    requires ForeignKeys(db)
    ensures NothingSettles(db, After(db, ReserveAttempt(p, db, token, quote, key, now)))
  {
    hide ValidateStoredQuote, LockSession, ForeignKeys, ActiveIndexClash, QuoteLive;
  }

  lemma ExpireSettlesNothing(db: Db, id: Id, now: int)
    requires ForeignKeys(db)
    ensures NothingSettles(db, After(db, ExpireUnsigned(db, id, now)))
  {
  }

  lemma QuietStepSettlesNothing(p: Policy, db: Db, s: Step, now: int)
    requires ForeignKeys(db) && CampaignStep(s) && !s.DoSaveQuote? && !s.DoReserveAttempt? && !s.DoExpireUnsigned?
    ensures NothingSettles(db, Apply(p, db, s, now))
  {
    hide ForeignKeys, SaveQuote, ReserveAttempt, ExpireUnsigned, Authorize, ClaimJob, PersistSigned, Note, Reschedule;
    hide ManualReviewTx, RequestRetry, Settle, ReserveRecovery, ValidCampaign, UsableCampaign, UsableInvite;
    SameTables(db, Apply(p, db, s, now));
  }

  lemma CampaignStepSettlesNothing(p: Policy, db: Db, s: Step, now: int)
    requires ForeignKeys(db) && CampaignStep(s)
    ensures NothingSettles(db, Apply(p, db, s, now))
  {
    hide ForeignKeys, CreateCampaign, SetCampaignStatus, IssueInvite, RevokeInvite, RotateInvite, ExchangeInvite, SaveQuote;
    hide ReserveAttempt, ExpireUnsigned, SweepQuotes, Authorize, ClaimJob, PersistSigned, Note, Reschedule, ManualReviewTx;
    hide RequestRetry, Settle, ReserveRecovery, NothingSettles;
    match s {
      case DoSaveQuote(token, quote, key) =>
        SaveSettlesNothing(p, db, token, quote, key, now);
      case DoReserveAttempt(token, id, key) =>
        ReserveSettlesNothing(p, db, token, id, key, now);
      case DoExpireUnsigned(id) =>
        ExpireSettlesNothing(db, id, now);
      case _ =>
        QuietStepSettlesNothing(p, db, s, now);
    }
  }

  lemma MovedSettlesNothing(op: Operation, op': Operation, a: Attempt, a': Attempt)
    requires Moved(op, op', a, a') && !Settled(op)
    ensures SameOutcome(op, op') && Untaken(a, a')
  {
    hide OperationOk, AttemptOk, Fits;
  }

  lemma RowsSettleNothing(db: Db, db': Db, o: Id)
    requires o < |db.operations| && db.operations[o].attempt < |db.attempts|
    requires |db'.operations| == |db.operations| && |db'.attempts| == |db.attempts|
    requires var id := db.operations[o].attempt;
             && db'.operations == db.operations[o := db'.operations[o]] && db'.attempts == db.attempts[id := db'.attempts[id]]
             && SameOutcome(db.operations[o], db'.operations[o]) && Untaken(db.attempts[id], db'.attempts[id])
    ensures NothingSettles(db, db')
  {
  }

  lemma KeysOf(db: Db)
    requires Inv(db)
    ensures ForeignKeys(db) && OperationKeys(db)
  {
  }

  lemma PersistSettlesNothing(db: Db, l: Lease, input: SignedInput, now: int)
    requires Inv(db)
    ensures NothingSettles(db, After(db, PersistSigned(db, l, input, now)))
  {
    hide Inv, ForeignKeys, Moved, NothingSettles, SignatureTaken, OperationOk, AttemptOk, Fits, Holds, Untaken, SameOutcome;
    KeysOf(db);
    var r := PersistSigned(db, l, input, now);
    SameTables(db, db);
    if r.Commit? {
      var op := db.operations[l.operation];
      var a := db.attempts[op.attempt];
      LeasedRows(db, l, now);
      PersistedRows(op, a, input, l.operation);
      MovedSettlesNothing(op, r.db.operations[l.operation], a, r.db.attempts[op.attempt]);
      RowsSettleNothing(db, r.db, l.operation);
    }
  }

  lemma NoteSettlesNothing(db: Db, l: Lease, state: Status, now: int)
    requires Inv(db) && NoteState(state)
    ensures NothingSettles(db, After(db, Note(db, l, state, now)))
  {
    hide Inv, ForeignKeys, Moved, NothingSettles, OperationOk, AttemptOk, Fits, Holds, Untaken, SameOutcome;
    KeysOf(db);
    var r := Note(db, l, state, now);
    SameTables(db, db);
    if r.Commit? && r.db != db {
      var op := db.operations[l.operation];
      var a := db.attempts[op.attempt];
      LeasedRows(db, l, now);
      NotedRows(op, a, state);
      MovedSettlesNothing(op, r.db.operations[l.operation], a, r.db.attempts[op.attempt]);
      RowsSettleNothing(db, r.db, l.operation);
    }
  }

  lemma ReviewSettlesNothing(db: Db, l: Lease, now: int)
    requires Inv(db)
    ensures NothingSettles(db, After(db, ManualReviewTx(db, l, now)))
  {
    hide Inv, ForeignKeys, Moved, NothingSettles, OperationOk, AttemptOk, Fits, Holds, Untaken, SameOutcome;
    KeysOf(db);
    var r := ManualReviewTx(db, l, now);
    SameTables(db, db);
    if r.Commit? {
      var op := db.operations[l.operation];
      var a := db.attempts[op.attempt];
      LeasedRows(db, l, now);
      ReviewedRows(op, a);
      MovedSettlesNothing(op, r.db.operations[l.operation], a, r.db.attempts[op.attempt]);
      RowsSettleNothing(db, r.db, l.operation);
    }
  }

  lemma AuthorizeSettlesNothing(p: Policy, db: Db, token: nat, id: Id, a: Authorization, now: int)
    requires ForeignKeys(db)
    ensures NothingSettles(db, After(db, Authorize(p, db, token, id, a, now)))
  {
    hide Authenticated, FreshFor, SamePolicy, ValidPreflight;
  }

  lemma RecoverSettlesNothing(db: Db, id: Id, input: RecoveryInput, now: int)
    requires ForeignKeys(db)
    ensures NothingSettles(db, After(db, ReserveRecovery(db, id, input, now)))
  {
    hide MayRecover;
  }

  lemma JobStepSettlesNothing(p: Policy, db: Db, s: Step, now: int)
    requires ForeignKeys(db) && (s.DoClaimJob? || s.DoReschedule? || s.DoRequestRetry?)
    ensures NothingSettles(db, Apply(p, db, s, now))
  {
    hide ForeignKeys, CreateCampaign, SetCampaignStatus, IssueInvite, RevokeInvite, RotateInvite, ExchangeInvite, SaveQuote;
    hide ReserveAttempt, ExpireUnsigned, SweepQuotes, Authorize, PersistSigned, Note, ManualReviewTx, Settle, ReserveRecovery;
    hide Holds, Authenticated, RetryJobs;
    SameTables(db, Apply(p, db, s, now));
  }

  /** No transaction but settle settles, spends, or takes from an authorized hold. */
  lemma OnlySettleSettles(p: Policy, db: Db, s: Step, now: int)
    requires Inv(db) && !s.DoSettle?
    ensures NothingSettles(db, Apply(p, db, s, now))
  {
    hide CreateCampaign, SetCampaignStatus, IssueInvite, RevokeInvite, RotateInvite, ExchangeInvite, SaveQuote;
    hide ReserveAttempt, ExpireUnsigned, SweepQuotes, Authorize, ClaimJob, PersistSigned, Note, Reschedule, ManualReviewTx;
    hide RequestRetry, Settle, ReserveRecovery, NothingSettles;
    hide Inv;
    KeysOf(db);
    if CampaignStep(s) {
      CampaignStepSettlesNothing(p, db, s, now);
    } else if s.DoClaimJob? || s.DoReschedule? || s.DoRequestRetry? {
      JobStepSettlesNothing(p, db, s, now);
    } else {
      match s {
        case DoAuthorize(token, id, a) =>
          AuthorizeSettlesNothing(p, db, token, id, a, now);
        case DoPersistSigned(l, input) =>
          PersistSettlesNothing(db, l, input, now);
        case DoNote(l, state) =>
          SameTables(db, db);
          if NoteState(state) { NoteSettlesNothing(db, l, state, now); }
        case DoManualReview(l) =>
          ReviewSettlesNothing(db, l, now);
        case DoReserveRecovery(id, input) =>
          RecoverSettlesNothing(db, id, input, now);
      }
    }
  }
}
