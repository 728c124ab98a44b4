/**
 * One committed transaction is one step; a run is any finite sequence of steps, by any
 * callers, at any clock readings. An aborted transaction leaves every table as it was.
 *
 * Every step keeps the declared references, which is what lets a run be written as a
 * function of its steps.
 */
module Steps {
  import opened Basics
  import opened Registry
  import opened Quotes
  import opened Database
  import opened CampaignTx
  import opened ExecutionTx

  datatype Step =
    | DoCreateCampaign(campaign: NewCampaign)
    | DoSetStatus(id: Id, status: CampaignStatus)
    | DoIssueInvite(id: Id, wallet: Key, expiresAt: int, token: nat)
    | DoRevokeInvite(id: Id)
    | DoRotateInvite(id: Id, expiresAt: int, token: nat)
    | DoExchangeInvite(token: nat, sessionToken: nat)
    | DoSaveQuote(token: nat, quote: SponsoredQuote, payerKey: string)
    | DoReserveAttempt(token: nat, id: Id, idempotencyKey: string)
    | DoExpireUnsigned(id: Id)
    | DoSweepQuotes(ids: set<Id>)
    | DoAuthorize(token: nat, id: Id, authorization: Authorization)
    | DoClaimJob(owner: nat, id: Id, sponsor: Option<Key>)
    | DoPersistSigned(lease: Lease, signed: SignedInput)
    | DoNote(lease: Lease, noted: Status)
    | DoReschedule(lease: Lease, delayMs: int)
    | DoManualReview(lease: Lease)
    | DoRequestRetry(id: Id, session: Option<nat>)
    | DoSettle(lease: Lease, settlement: Settlement)
    | DoReserveRecovery(id: Id, recovery: RecoveryInput)

  /** The tables after a step, committed or aborted. */
  ghost function Apply(p: Policy, db: Db, s: Step, now: int): Db
    requires ForeignKeys(db)
  {
    match s
    case DoCreateCampaign(n) => After(db, CreateCampaign(p, db, n))
    case DoSetStatus(id, status) => After(db, SetCampaignStatus(db, id, status))
    case DoIssueInvite(id, wallet, expiresAt, token) => After(db, IssueInvite(p, db, id, wallet, expiresAt, token, now))
    case DoRevokeInvite(id) => After(db, RevokeInvite(db, id))
    case DoRotateInvite(id, expiresAt, token) => After(db, RotateInvite(db, id, expiresAt, token, now))
    case DoExchangeInvite(token, sessionToken) => After(db, ExchangeInvite(p, db, token, sessionToken, now))
    case DoSaveQuote(token, quote, key) => After(db, SaveQuote(p, db, token, quote, key, now))
    case DoReserveAttempt(token, id, key) => After(db, ReserveAttempt(p, db, token, id, key, now))
    case DoExpireUnsigned(id) => After(db, ExpireUnsigned(db, id, now))
    case DoSweepQuotes(ids) => After(db, SweepQuotes(db, ids, now))
    case DoAuthorize(token, id, a) => After(db, Authorize(p, db, token, id, a, now))
    case DoClaimJob(owner, id, sponsor) => After(db, ClaimJob(db, owner, id, sponsor, now))
    case DoPersistSigned(l, input) => After(db, PersistSigned(db, l, input, now))
    case DoNote(l, state) => if NoteState(state) then After(db, Note(db, l, state, now)) else db
    case DoReschedule(l, delayMs) => After(db, Reschedule(db, l, delayMs, now))
    case DoManualReview(l) => After(db, ManualReviewTx(db, l, now))
    case DoRequestRetry(id, session) => After(db, RequestRetry(db, id, session, now))
    case DoSettle(l, v) => After(db, Settle(db, l, v, now))
    case DoReserveRecovery(id, input) => After(db, ReserveRecovery(db, id, input, now))
  }

  predicate NoteState(s: Status) {
    s.Submitted? || s.BroadcastUnknown? || s.Confirmed?
  }

  lemma ReservedKeys(db: Db, quote: Id, reservation: int, key: string)
    requires ForeignKeys(db) && quote < |db.quotes|
    ensures ForeignKeys(ReserveEffect(db, quote, reservation, key))
  {
  }

  lemma ReleasedKeys(db: Db, id: Id)
    requires ForeignKeys(db) && id < |db.attempts|
    ensures ForeignKeys(ReleaseEffect(db, id))
  {
  }

  lemma AuthorizedKeys(db: Db, id: Id, payload: seq<Byte>, now: int)
    requires ForeignKeys(db) && id < |db.attempts|
    ensures ForeignKeys(AuthorizeEffect(db, id, payload, now))
  {
  }

  lemma SettledRowKeys(op: Operation, a: Attempt, c: Campaign, i: Invite, v: Settlement, o: Id)
    ensures SettledOperation(op, v).attempt == op.attempt && SettledOperation(op, v).campaign == op.campaign
    ensures var a' := SettledAttempt(op, a, c, v); a'.invite == a.invite && a'.quote == a.quote && a'.campaign == a.campaign
    ensures var i' := SettledInvite(op, i, a, c, v); i'.campaign == i.campaign && (i'.active.None? || i'.active == i.active)
    ensures var rows := SettlementEntries(op, o, a, c, v);
            forall k :: 0 <= k < |rows| ==> rows[k].attempt == op.attempt && rows[k].campaign == op.campaign && rows[k].operation == Some(o)
  {
  }

  lemma SettledKeys(db: Db, o: Id, v: Settlement)
    requires ForeignKeys(db) && o < |db.operations|
    ensures ForeignKeys(SettleEffect(db, o, v))
  {
    hide SettledOperation, SettledAttempt, SettledInvite, SettlementEntries, SettledCampaign;
    var op := db.operations[o];
    var a := db.attempts[op.attempt];
    SettledRowKeys(op, a, db.campaigns[a.campaign], db.invites[a.invite], v, o);
  }

  lemma RecoveryReservedKeys(db: Db, id: Id, input: RecoveryInput, extra: int, now: int)
    requires ForeignKeys(db) && id < |db.attempts|
    ensures ForeignKeys(RecoveryEffect(db, id, input, extra, now))
  {
  }

  lemma QuotesKeys(db: Db, q: QuoteRow, invite: Id)
    requires ForeignKeys(db) && q.invite < |db.invites| && q.campaign == db.invites[q.invite].campaign
    ensures ForeignKeys(db.(quotes := LapseQuotes(db.quotes, QuotedOn(invite)) + [q]))
  {
  }

  predicate CampaignStep(s: Step) {
    s.DoCreateCampaign? || s.DoSetStatus? || s.DoIssueInvite? || s.DoRevokeInvite? || s.DoRotateInvite? || s.DoExchangeInvite?
    || s.DoSaveQuote? || s.DoReserveAttempt? || s.DoExpireUnsigned? || s.DoSweepQuotes?
  }

  predicate LeasedStep(s: Step) {
    s.DoPersistSigned? || s.DoNote? || s.DoReschedule? || s.DoManualReview? || s.DoSettle?
  }

  lemma CampaignRowKeys(p: Policy, db: Db, n: NewCampaign)
    requires ForeignKeys(db)
    ensures ForeignKeys(After(db, CreateCampaign(p, db, n)))
  {
  }

  lemma StatusKeys(db: Db, id: Id, status: CampaignStatus)
    requires ForeignKeys(db)
    ensures ForeignKeys(After(db, SetCampaignStatus(db, id, status)))
  {
  }

  lemma IssueKeys(p: Policy, db: Db, id: Id, wallet: Key, expiresAt: int, token: nat, now: int)
    requires ForeignKeys(db)
    ensures ForeignKeys(After(db, IssueInvite(p, db, id, wallet, expiresAt, token, now)))
  {
  }

  lemma RevokeKeys(db: Db, id: Id)
    requires ForeignKeys(db)
    ensures ForeignKeys(After(db, RevokeInvite(db, id)))
  {
  }

  lemma SweepKeys(db: Db, ids: set<Id>, now: int)
    requires ForeignKeys(db)
    ensures ForeignKeys(After(db, SweepQuotes(db, ids, now)))
  {
  }

  lemma RotateKeys(db: Db, id: Id, expiresAt: int, token: nat, now: int)
    requires ForeignKeys(db)
    ensures ForeignKeys(After(db, RotateInvite(db, id, expiresAt, token, now)))
  {
  }

  lemma ExchangeKeys(p: Policy, db: Db, token: nat, sessionToken: nat, now: int)
    requires ForeignKeys(db)
    ensures ForeignKeys(After(db, ExchangeInvite(p, db, token, sessionToken, now)))
  {
  }

  lemma ExpireKeys(db: Db, id: Id, now: int)
    requires ForeignKeys(db)
    ensures ForeignKeys(After(db, ExpireUnsigned(db, id, now)))
  {
    if id < |db.attempts| { ReleasedKeys(db, id); }
  }

  lemma CampaignKeysKept(p: Policy, db: Db, s: Step, now: int)
    requires ForeignKeys(db) && CampaignStep(s)
    ensures ForeignKeys(Apply(p, db, s, now))
  {
    hide ForeignKeys, CreateCampaign, SetCampaignStatus, IssueInvite, RevokeInvite, RotateInvite, ExchangeInvite, SaveQuote;
    hide ReserveAttempt, ExpireUnsigned, SweepQuotes, Authorize, ClaimJob, PersistSigned, Note, Reschedule, ManualReviewTx;
    hide RequestRetry, Settle, ReserveRecovery;
    match s {
      case DoCreateCampaign(n) =>
        CampaignRowKeys(p, db, n);
      case DoSetStatus(id, status) =>
        StatusKeys(db, id, status);
      case DoIssueInvite(id, wallet, expiresAt, token) =>
        IssueKeys(p, db, id, wallet, expiresAt, token, now);
      case DoRevokeInvite(id) =>
        RevokeKeys(db, id);
      case DoRotateInvite(id, expiresAt, token) =>
        RotateKeys(db, id, expiresAt, token, now);
      case DoExchangeInvite(token, sessionToken) =>
        ExchangeKeys(p, db, token, sessionToken, now);
      case DoSaveQuote(token, quote, key) =>
        SaveQuoteKeys(p, db, token, quote, key, now);
      case DoReserveAttempt(token, id, key) =>
        ReserveAttemptKeys(p, db, token, id, key, now);
      case DoExpireUnsigned(id) =>
        ExpireKeys(db, id, now);
      case DoSweepQuotes(ids) =>
        SweepKeys(db, ids, now);
    }
  }

  lemma WithStatusKeys(db: Db, o: Id, op: Operation, attempt: Attempt)
    requires ForeignKeys(db) && o < |db.operations|
    requires op.attempt == db.operations[o].attempt && op.campaign == db.operations[o].campaign
    requires var a := db.attempts[op.attempt];
             attempt.quote == a.quote && attempt.campaign == a.campaign && attempt.invite == a.invite
    ensures ForeignKeys(WithStatus(db, o, op, attempt))
  {
  }

  lemma PersistKeys(db: Db, l: Lease, input: SignedInput, now: int)
    requires ForeignKeys(db)
    ensures ForeignKeys(After(db, PersistSigned(db, l, input, now)))
  {
    if Fenced(db, l, now).None? {
      var op := db.operations[l.operation];
      WithStatusKeys(db, l.operation, op.(status := Signed, signedPayload := Some(Sealed(l.operation, SignedPurpose, input.bytes)),
        signature := Some(input.signature), userPayload := None),
        db.attempts[op.attempt].(status := Signed, signature := Some(input.signature)));
    }
  }

  lemma NoteKeys(db: Db, l: Lease, state: Status, now: int)
    requires ForeignKeys(db) && NoteState(state)
    ensures ForeignKeys(After(db, Note(db, l, state, now)))
  {
    if Fenced(db, l, now).None? {
      var op := db.operations[l.operation];
      WithStatusKeys(db, l.operation, op.(status := state), db.attempts[op.attempt].(status := state));
    }
  }

  lemma ReviewKeys(db: Db, l: Lease, now: int)
    requires ForeignKeys(db)
    ensures ForeignKeys(After(db, ManualReviewTx(db, l, now)))
  {
  }

  lemma RescheduleKeys(db: Db, l: Lease, delayMs: int, now: int)
    requires ForeignKeys(db)
    ensures ForeignKeys(After(db, Reschedule(db, l, delayMs, now)))
  {
  }

  lemma SettleKeys(db: Db, l: Lease, v: Settlement, now: int)
    requires ForeignKeys(db)
    ensures ForeignKeys(After(db, Settle(db, l, v, now)))
  {
    if l.operation < |db.operations| { SettledKeys(db, l.operation, v); }
  }

  lemma ClaimKeys(db: Db, owner: nat, id: Id, sponsor: Option<Key>, now: int)
    requires ForeignKeys(db)
    ensures ForeignKeys(After(db, ClaimJob(db, owner, id, sponsor, now)))
  {
  }

  lemma RetryKeys(db: Db, id: Id, session: Option<nat>, now: int)
    requires ForeignKeys(db)
    ensures ForeignKeys(After(db, RequestRetry(db, id, session, now)))
  {
  }

  lemma AuthorizeKeys(p: Policy, db: Db, token: nat, id: Id, a: Authorization, now: int)
    requires ForeignKeys(db)
    ensures ForeignKeys(After(db, Authorize(p, db, token, id, a, now)))
  {
    if id < |db.attempts| { AuthorizedKeys(db, id, a.userPayload, now); }
  }

  lemma RecoverKeys(db: Db, id: Id, input: RecoveryInput, now: int)
    requires ForeignKeys(db)
    ensures ForeignKeys(After(db, ReserveRecovery(db, id, input, now)))
  {
    if id < |db.attempts| {
      RecoveryReservedKeys(db, id, input, Max(input.fee - db.attempts[id].remaining, 0), now);
    }
  }

  /** Every transaction keeps the declared references. */
  lemma KeysKept(p: Policy, db: Db, s: Step, now: int)
    requires ForeignKeys(db)
    ensures ForeignKeys(Apply(p, db, s, now))
  {
    hide ForeignKeys, CreateCampaign, SetCampaignStatus, IssueInvite, RevokeInvite, RotateInvite, ExchangeInvite, SaveQuote;
    hide ReserveAttempt, ExpireUnsigned, SweepQuotes, Authorize, ClaimJob, PersistSigned, Note, Reschedule, ManualReviewTx;
    hide RequestRetry, Settle, ReserveRecovery;
    if CampaignStep(s) {
      CampaignKeysKept(p, db, s, now);
    } else {
      match s {
        case DoAuthorize(token, id, a) =>
          AuthorizeKeys(p, db, token, id, a, now);
        case DoClaimJob(owner, id, sponsor) =>
          ClaimKeys(db, owner, id, sponsor, now);
        case DoPersistSigned(l, input) =>
          PersistKeys(db, l, input, now);
        case DoNote(l, state) =>
          if NoteState(state) { NoteKeys(db, l, state, now); }
        case DoReschedule(l, delayMs) =>
          RescheduleKeys(db, l, delayMs, now);
        case DoManualReview(l) =>
          ReviewKeys(db, l, now);
        case DoRequestRetry(id, session) =>
          RetryKeys(db, id, session, now);
        case DoSettle(l, v) =>
          SettleKeys(db, l, v, now);
        case DoReserveRecovery(id, input) =>
          RecoverKeys(db, id, input, now);
      }
    }
  }

  lemma SaveQuoteKeys(p: Policy, db: Db, token: nat, quote: SponsoredQuote, key: string, now: int)
    requires ForeignKeys(db)
    ensures ForeignKeys(After(db, SaveQuote(p, db, token, quote, key, now)))
  {
    var locked := LockSession(p, db, token, now);
    if locked.Invited? {
      var i := db.invites[locked.invite];
      QuotesKeys(db, QuoteRow(i.campaign, locked.invite, i.wallet, quote.name, quote, Some(key), Quoted, quote.expiresAtMs), locked.invite);
    }
  }

  lemma ReserveAttemptKeys(p: Policy, db: Db, token: nat, quote: Id, key: string, now: int)
    requires ForeignKeys(db)
    ensures ForeignKeys(After(db, ReserveAttempt(p, db, token, quote, key, now)))
  {
    var r := ReserveAttempt(p, db, token, quote, key, now);
    if r.Commit? && r.db != db {
      ReservedKeys(db, quote, db.quotes[quote].payload.cost.maximumReservation, key);
    }
  }

  // ---------------------------------------------------------------------- runs

  datatype Timed = Timed(step: Step, now: int)

  ghost function Run(p: Policy, db: Db, steps: seq<Timed>): (r: Db)
    requires ForeignKeys(db)
    ensures ForeignKeys(r)
  {
    if steps == [] then db
    else
      var before := Run(p, db, steps[..|steps| - 1]);
      var last := steps[|steps| - 1];
      KeysKept(p, before, last.step, last.now);
      Apply(p, before, last.step, last.now)
  }
}
