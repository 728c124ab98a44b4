/** The inductive invariant of the money and lifecycle state machine, by aspect. */
module Invariant {
  import opened Basics
  import opened Database
  import opened Ledger

  // ------------------------------------------------------------------ lifecycle

  /** Unresolved: the whole reservation is still held and nothing has been spent. */
  predicate Untouched(a: Attempt) {
    a.remaining == a.reservation && a.cost == 0 && a.residual.None? && a.slot.None? && a.payerKey.Some?
  }

  /** Registered with a positive payer residual that still has to be swept. */
  predicate AwaitsSweep(a: Attempt) {
    a.residual.Some? && a.residual.value > 0 && a.slot.Some? && a.payerKey.Some?
  }

  predicate AttemptOk(a: Attempt) {
    && a.reservation > 0 && a.remaining >= 0 && a.cost >= 0
    && (a.residual.Some? ==> a.residual.value >= 0) && (a.slot.Some? ==> SafeCounter(a.slot.value))
    && match a.status
       case Prepared => Untouched(a) && a.signature.None?
       case Expired => a.remaining == 0 && a.cost == 0 && a.residual.None? && a.slot.None? && a.signature.None? && a.payerKey.None?
       case Failed => a.remaining == 0 && a.residual == Some(0) && a.slot.Some? && a.payerKey.None?
       case Complete => a.remaining == 0 && a.residual == Some(0) && a.slot.Some? && a.payerKey.None?
       case Finalized => AwaitsSweep(a)
       case ManualReview => Untouched(a) || AwaitsSweep(a)
       case _ => Untouched(a)
  }

  predicate Settled(op: Operation) {
    op.status.Complete? || op.status.Failed?
  }

  /** A settled operation's recorded amounts, as the settlement guards leave them. */
  predicate SettledAmounts(op: Operation)
    requires op.fee.Some? && op.debit.Some? && op.recovered.Some? && op.evidence.Some?
  {
    && 0 <= op.fee.value <= op.feeCap && op.debit.value >= 0 && op.recovered.value >= 0
    && SafeCounter(op.evidence.value.slot) && op.evidence.value.residual >= 0
    && op.evidence.value.success == op.status.Complete?
    && (if op.kind.Registration? then
          op.recovered.value == 0 && op.fee.value <= op.debit.value <= op.amount && (op.status.Failed? ==> op.debit == op.fee)
        else op.recovered.value == if op.status.Complete? then op.amount else 0)
  }

  predicate OperationOk(op: Operation) {
    && !op.status.Prepared? && !op.status.Finalized? && !op.status.Expired?
    && op.amount >= 0 && op.feeCap > 0
    && (if Settled(op) then
          && op.signature.Some? && op.signedPayload.None? && op.fee.Some? && op.debit.Some? && op.recovered.Some? && op.evidence.Some?
          && SettledAmounts(op)
        else
          && op.fee.None? && op.debit.None? && op.recovered.None? && op.evidence.None?
          && op.signature.Some? == op.signedPayload.Some?
          && (op.status.Signing? ==> op.signature.None?)
          && (!op.status.Signing? && !op.status.ManualReview? ==> op.signature.Some?))
  }

  /** How an operation and its attempt agree. */
  predicate Fits(op: Operation, a: Attempt) {
    if op.kind.Registration? then
      && a.signature == op.signature
      && (if op.status.Complete? then (a.status.Complete? || a.status.Finalized? || a.status.ManualReview?) && a.residual.Some?
          else if op.status.Failed? then a.status.Failed?
          else a.status == op.status && a.residual.None?)
    else
      && a.residual.Some? && !a.status.Failed?
      && (!Settled(op) ==>
            && (a.status.Finalized? || a.status.ManualReview?)
            && a.residual == Some(op.amount) && op.amount > 0 && 0 < op.feeCap <= a.remaining)
  }

  ghost predicate AttemptsOk(attempts: seq<Attempt>) {
    forall a :: 0 <= a < |attempts| ==> AttemptOk(attempts[a])
  }

  ghost predicate OperationsOk(ops: seq<Operation>) {
    forall o :: 0 <= o < |ops| ==> OperationOk(ops[o])
  }

  ghost predicate AllFit(ops: seq<Operation>, attempts: seq<Attempt>) {
    forall o :: 0 <= o < |ops| ==> ops[o].attempt < |attempts| && Fits(ops[o], attempts[ops[o].attempt])
  }

  /** One registration per attempt and one open recovery: the partial unique indexes, implied. */
  ghost predicate OneRegistration(ops: seq<Operation>) {
    forall o, q :: 0 <= o < |ops| && 0 <= q < |ops| && o != q && ops[o].kind.Registration? && ops[q].kind.Registration?
      ==> ops[o].attempt != ops[q].attempt
  }

  ghost predicate OneOpenRecovery(ops: seq<Operation>) {
    forall o, q :: 0 <= o < |ops| && 0 <= q < |ops| && o != q && ops[o].kind.Recovery? && ops[q].kind.Recovery? && !Settled(ops[o]) && !Settled(ops[q])
      ==> ops[o].attempt != ops[q].attempt
  }

  predicate Unsigned(s: Status) {
    s.Prepared? || s.Expired?
  }

  ghost predicate Registered(attempts: seq<Attempt>, ops: seq<Operation>) {
    forall a :: 0 <= a < |attempts| && !Unsigned(attempts[a].status) ==> FindRegistration(ops, a).Some?
  }

  ghost predicate Lifecycle(db: Db) {
    && AttemptsOk(db.attempts) && OperationsOk(db.operations) && AllFit(db.operations, db.attempts)
    && OneRegistration(db.operations) && OneOpenRecovery(db.operations) && Registered(db.attempts, db.operations)
  }

  // -------------------------------------------------------------------- invites

  /** An invite points at an attempt exactly while that attempt is open. */
  ghost predicate PointersExact(attempts: seq<Attempt>, invites: seq<Invite>) {
    && (forall a :: 0 <= a < |attempts| ==>
          attempts[a].invite < |invites| && (Terminal(attempts[a].status) || invites[attempts[a].invite].active == Some(a)))
    && (forall i :: 0 <= i < |invites| && invites[i].active.Some? ==>
          && invites[i].active.value < |attempts|
          && attempts[invites[i].active.value].invite == i && !Terminal(attempts[invites[i].active.value].status))
  }

  /** Success consumes the invite, and a consumed invite carries no other open attempt. */
  ghost predicate ConsumptionExact(attempts: seq<Attempt>, invites: seq<Invite>) {
    forall a :: 0 <= a < |attempts| && attempts[a].invite < |invites| ==>
      && (Succeeded(attempts[a]) ==> invites[attempts[a].invite].status.Consumed?)
      && (invites[attempts[a].invite].status.Consumed? && !Terminal(attempts[a].status) ==> Succeeded(attempts[a]))
  }

  ghost predicate Pointers(db: Db) {
    PointersExact(db.attempts, db.invites) && ConsumptionExact(db.attempts, db.invites)
  }

  // ---------------------------------------------------------------------- money

  /** The campaign's counters are the column totals of its attempts. */
  ghost predicate CountersOk(db: Db, c: Id)
    requires c < |db.campaigns|
  {
    var row := db.campaigns[c];
    && row.reserved == Total(db.attempts, c, Remaining) && row.spent == Total(db.attempts, c, CostSoFar)
    && row.reservedUsers == Total(db.attempts, c, Seats) && row.consumedUsers == Total(db.attempts, c, Passes)
    && row.consumedUsers == ConsumedInvites(db.invites, c)
  }

  ghost predicate Counters(db: Db) {
    forall c: Id :: c < |db.campaigns| ==> CountersOk(db, c)
  }

  predicate WithinLimits(c: Campaign) {
    && c.reserved + c.spent <= c.cap && c.reservedUsers + c.consumedUsers <= c.maxUsers
    && c.limits.recoveryAllowance > 0
  }

  ghost predicate Budgets(db: Db) {
    forall c :: 0 <= c < |db.campaigns| ==> WithinLimits(db.campaigns[c])
  }

  /** An attempt's columns are the sums of its own ledger rows. */
  predicate AttemptBooked(db: Db, a: Id)
    requires a < |db.attempts|
  {
    var s, first := SumsOf(db.ledger, OfAttempt(a)), SumsOf(db.ledger, Initial(a));
    && HeldIn(s) == db.attempts[a].remaining && SpentIn(s) == db.attempts[a].cost
    && first.count == 1 && first.reserve == db.attempts[a].reservation
  }

  ghost predicate AttemptBooks(db: Db) {
    forall a: Id :: a < |db.attempts| ==> AttemptBooked(db, a)
  }

  predicate CampaignBooked(db: Db, c: Id)
    requires c < |db.campaigns|
  {
    var s := SumsOf(db.ledger, InCampaign(c));
    HeldIn(s) == db.campaigns[c].reserved && SpentIn(s) == db.campaigns[c].spent
  }

  ghost predicate CampaignBooks(db: Db) {
    forall c: Id :: c < |db.campaigns| ==> CampaignBooked(db, c)
  }

  /** An operation's rows carry exactly the fee, debit and refund it recorded. */
  predicate OperationBooked(op: Operation, s: Sums) {
    if Settled(op) && op.fee.Some? && op.debit.Some? && op.recovered.Some? then
      && s.fee == op.fee.value && s.recovery == op.recovered.value
      && s.debit == if op.kind.Registration? then op.debit.value - op.fee.value else 0
    else s.fee == 0 && s.debit == 0 && s.recovery == 0
  }

  ghost predicate OperationBooks(ops: seq<Operation>, ledger: seq<Entry>) {
    forall o: Id :: o < |ops| ==> OperationBooked(ops[o], SumsOf(ledger, OfOperation(o)))
  }

  /** What each ledger row may say about the operation or attempt it names. */
  predicate EntryOk(e: Entry, a: Attempt, op: Option<Operation>) {
    && e.amount > 0
    && match op
       case None => e.kind.Reserve? || (e.kind.Release? && a.status.Expired?)
       case Some(o) =>
         && o.attempt == e.attempt
         && (e.kind.Reserve? ==> o.kind.Recovery?)
         && (!e.kind.Reserve? ==> e.signature == o.signature && Settled(o))
         && (e.kind.Recover? ==> o.kind.Recovery? && o.status.Complete?)
         && (e.kind.Debit? ==> o.kind.Registration?)
  }

  function EntryOperation(ops: seq<Operation>, e: Entry): Option<Operation> {
    if e.operation.Some? && e.operation.value < |ops| then Some(ops[e.operation.value]) else None
  }

  ghost predicate EntriesOk(ledger: seq<Entry>, attempts: seq<Attempt>, ops: seq<Operation>) {
    forall e :: 0 <= e < |ledger| ==> EntryFits(ledger[e], attempts, ops)
  }

  predicate EntryFits(e: Entry, attempts: seq<Attempt>, ops: seq<Operation>) {
    && e.attempt < |attempts| && (e.operation.Some? ==> e.operation.value < |ops|)
    && EntryOk(e, attempts[e.attempt], EntryOperation(ops, e))
  }

  ghost predicate Books(db: Db) {
    AttemptBooks(db) && CampaignBooks(db) && OperationBooks(db.operations, db.ledger) && EntriesOk(db.ledger, db.attempts, db.operations)
  }

  // ----------------------------------------------------------------------- jobs

  /** A job exists only for an operation that is still open. */
  ghost predicate JobsOk(db: Db) {
    forall o: Id :: o in db.jobs ==> o < |db.operations| && !Settled(db.operations[o])
  }

  ghost predicate Inv(db: Db) {
    && ForeignKeys(db) && Lifecycle(db) && Pointers(db) && Counters(db) && Budgets(db) && Books(db) && JobsOk(db)
  }
}
