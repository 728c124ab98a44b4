/** Settlement keeps the invariant, whatever amounts pass its guards. */
module SettlePreserves {
  import opened Basics
  import opened Database
  import opened Ledger
  import opened Invariant
  import opened ExecutionTx
  import opened Moves
  import Steps

  /** The guards under which settle commits, on the rows it locked. */
  predicate MaySettle(op: Operation, a: Attempt, c: Campaign, v: Settlement) {
    && WellFormedSettlement(v) && op.signature.Some? && op.signedPayload.Some? && !Closed(op.status) && EvidenceFits(op, a, c, v)
  }

  predicate CanSettle(db: Db, o: Id, v: Settlement)
    requires ForeignKeys(db)
  {
    && o < |db.operations|
    && MaySettle(db.operations[o], db.attempts[db.operations[o].attempt], db.campaigns[db.operations[o].campaign], v)
    && db.invites[db.attempts[db.operations[o].attempt].invite].active == Some(db.operations[o].attempt)
  }

  // ------------------------------------------------------------------ lifecycle

  lemma SettledRows(op: Operation, a: Attempt, c: Campaign, v: Settlement)
    requires OperationOk(op) && AttemptOk(a) && Fits(op, a) && c.limits.recoveryAllowance > 0 && MaySettle(op, a, c, v)
    ensures AttemptOk(SettledAttempt(op, a, c, v)) && OperationOk(SettledOperation(op, v))
    ensures Fits(SettledOperation(op, v), SettledAttempt(op, a, c, v))
  {
  }

  /** Any other operation of the same attempt is a settled one, and still agrees with it. */
  lemma SiblingFits(op: Operation, other: Operation, a: Attempt, c: Campaign, v: Settlement)
    requires OperationOk(op) && OperationOk(other) && Fits(op, a) && Fits(other, a) && MaySettle(op, a, c, v)
    requires op.kind.Registration? ==> !other.kind.Registration?
    requires op.kind.Recovery? && other.kind.Recovery? ==> Settled(other)
    ensures Fits(other, SettledAttempt(op, a, c, v))
  {
  }

  lemma RegistrationStays(ops: seq<Operation>, ops': seq<Operation>, a: Id)
    requires |ops| <= |ops'|
    requires forall o :: 0 <= o < |ops| ==> ops'[o].kind == ops[o].kind && ops'[o].attempt == ops[o].attempt
    ensures FindRegistration(ops, a).Some? ==> FindRegistration(ops', a).Some?
  {
    var r := FindRegistration(ops, a);
    if r.Some? {
      assert IsRegistration(ops'[r.value], a);
    }
  }

  lemma UniqueKept(ops: seq<Operation>, o: Id, op: Operation)
    requires o < |ops| && OneRegistration(ops) && OneOpenRecovery(ops)
    requires op.kind == ops[o].kind && op.attempt == ops[o].attempt && (Settled(ops[o]) ==> Settled(op))
    ensures OneRegistration(ops[o := op]) && OneOpenRecovery(ops[o := op])
  {
  }

  /** Rewriting operation o and its attempt keeps the lifecycle when the rows agree. */
  lemma LifecycleMove(db: Db, db': Db, o: Id)
    requires Lifecycle(db) && o < |db.operations|
    requires var op := db.operations[o]; var id := op.attempt;
             && |db'.operations| == |db.operations| && db'.operations == db.operations[o := db'.operations[o]]
             && |db'.attempts| == |db.attempts| && db'.attempts == db.attempts[id := db'.attempts[id]]
             && db'.operations[o].kind == op.kind && db'.operations[o].attempt == op.attempt
             && (Settled(op) ==> Settled(db'.operations[o]))
             && OperationOk(db'.operations[o]) && AttemptOk(db'.attempts[id]) && Fits(db'.operations[o], db'.attempts[id])
             && !Unsigned(db.attempts[id].status)
    requires forall q :: 0 <= q < |db.operations| && q != o && db.operations[q].attempt == db.operations[o].attempt ==>
               Fits(db.operations[q], db'.attempts[db.operations[o].attempt])
    ensures Lifecycle(db')
  {
    UniqueKept(db.operations, o, db'.operations[o]);
    forall a | 0 <= a < |db'.attempts| && !Unsigned(db'.attempts[a].status) ensures FindRegistration(db'.operations, a).Some? {
      RegistrationStays(db.operations, db'.operations, a);
    }
  }

  lemma SettleLifecycle(db: Db, o: Id, v: Settlement)
    requires ForeignKeys(db) && Lifecycle(db) && Budgets(db) && CanSettle(db, o, v)
    ensures Lifecycle(SettleEffect(db, o, v))
  {
    var op := db.operations[o];
    var a := db.attempts[op.attempt];
    var c := db.campaigns[a.campaign];
    assert OperationOk(op) && AttemptOk(a) && Fits(op, a) && WithinLimits(c);
    SettledRows(op, a, c, v);
    forall q | 0 <= q < |db.operations| && q != o && db.operations[q].attempt == op.attempt
      ensures Fits(db.operations[q], SettledAttempt(op, a, c, v))
    {
      assert OperationOk(db.operations[q]) && Fits(db.operations[q], a);
      SiblingFits(op, db.operations[q], a, c, v);
    }
    LifecycleMove(db, SettleEffect(db, o, v), o);
  }

  // ------------------------------------------------------- invites and counters

  lemma SettledFollows(id: Id, op: Operation, a: Attempt, c: Campaign, i: Invite, v: Settlement)
    requires OperationOk(op) && AttemptOk(a) && Fits(op, a) && c.limits.recoveryAllowance > 0 && MaySettle(op, a, c, v)
    requires i.active == Some(id) && (Succeeded(a) ==> i.status.Consumed?)
    requires i.status.Consumed? && !Terminal(a.status) ==> Succeeded(a)
    ensures InviteFollows(id, a, SettledAttempt(op, a, c, v), i, SettledInvite(op, i, a, c, v))
    ensures CountersFollow(a, SettledAttempt(op, a, c, v), c, SettledCampaign(op, a, c, v), i, SettledInvite(op, i, a, c, v))
  {
  }

  lemma SettleTouches(db: Db, o: Id, v: Settlement)
    requires ForeignKeys(db) && o < |db.operations|
    ensures Touches(db, SettleEffect(db, o, v), db.operations[o].attempt)
  {
  }

  lemma SettlePointers(db: Db, o: Id, v: Settlement)
    requires ForeignKeys(db) && Lifecycle(db) && Pointers(db) && Counters(db) && Budgets(db) && CanSettle(db, o, v)
    ensures Pointers(SettleEffect(db, o, v)) && Counters(SettleEffect(db, o, v))
  {
    var op := db.operations[o];
    var a := db.attempts[op.attempt];
    var c, i := db.campaigns[a.campaign], db.invites[a.invite];
    assert OperationOk(op) && AttemptOk(a) && Fits(op, a) && WithinLimits(c);
    SettledFollows(op.attempt, op, a, c, i, v);
    PointersMove(db.attempts, db.invites, op.attempt, SettledAttempt(op, a, c, v), SettledInvite(op, i, a, c, v));
    SettleTouches(db, o, v);
    CountersMove(db, SettleEffect(db, o, v), op.attempt);
  }

  lemma SettledWithinLimits(op: Operation, a: Attempt, c: Campaign, v: Settlement)
    requires OperationOk(op) && WithinLimits(c) && MaySettle(op, a, c, v)
    ensures WithinLimits(SettledCampaign(op, a, c, v))
  {
  }

  lemma SettleBudgets(db: Db, o: Id, v: Settlement)
    requires ForeignKeys(db) && OperationsOk(db.operations) && Budgets(db) && CanSettle(db, o, v)
    ensures Budgets(SettleEffect(db, o, v))
  {
    var op := db.operations[o];
    SettledWithinLimits(op, db.attempts[op.attempt], db.campaigns[op.campaign], v);
  }

  // ---------------------------------------------------------------------- books

  /** The sums of one row of this kind and amount, rows not counted. */
  function OneRow(kind: EntryType, amount: int): Sums {
    match kind
    case Reserve => Sums(amount, 0, 0, 0, 0, 0)
    case Release => Sums(0, amount, 0, 0, 0, 0)
    case Debit => Sums(0, 0, amount, 0, 0, 0)
    case Fee => Sums(0, 0, 0, amount, 0, 0)
    case Recover => Sums(0, 0, 0, 0, amount, 0)
  }

  lemma EventSums(op: Operation, o: Id, kind: EntryType, amount: int)
    ensures SumsOf(Event(op, o, kind, amount), All).(count := 0) == OneRow(kind, amount)
  {
    var e := Entry(op.campaign, op.attempt, Some(o), kind, amount, op.signature);
    SumsOne(e, All);
    assert SumsOf([], All) == ZERO;
  }

  lemma SumsThree(x: seq<Entry>, y: seq<Entry>, z: seq<Entry>)
    ensures SumsOf(x + y + z, All) == Plus(Plus(SumsOf(x, All), SumsOf(y, All)), SumsOf(z, All))
  {
    hide SumsOf, Plus;
    SumsAppend(x + y, z, All);
    SumsAppend(x, y, All);
  }

  lemma ThreeRows(op: Operation, o: Id, k1: EntryType, n1: int, k2: EntryType, n2: int, n3: int)
    ensures SumsOf(Event(op, o, k1, n1) + Event(op, o, k2, n2) + Event(op, o, Release, n3), All).(count := 0)
         == Plus(Plus(OneRow(k1, n1), OneRow(k2, n2)), OneRow(Release, n3))
  {
    hide SumsOf, Event, OneRow, Plus;
    var x, y, z := Event(op, o, k1, n1), Event(op, o, k2, n2), Event(op, o, Release, n3);
    SumsThree(x, y, z);
    EventSums(op, o, k1, n1);
    EventSums(op, o, k2, n2);
    EventSums(op, o, Release, n3);
    Uncounted(SumsOf(x, All), SumsOf(y, All), SumsOf(z, All));
  }

  lemma Uncounted(s: Sums, t: Sums, u: Sums)
    ensures Plus(Plus(s, t), u).(count := 0) == Plus(Plus(s.(count := 0), t.(count := 0)), u.(count := 0))
  {
  }

  /** The settlement's rows, summed: release, debit, fee and refund as the branch computes them. */
  lemma SettlementSums(op: Operation, o: Id, a: Attempt, c: Campaign, v: Settlement)
    ensures SumsOf(SettlementEntries(op, o, a, c, v), All).(count := 0)
         == if op.kind.Registration? then Sums(0, a.remaining - HeldAfter(op, a, c, v) - v.debit, v.debit - v.fee, v.fee, 0, 0)
            else Sums(0, a.remaining - HeldAfter(op, a, c, v) - v.fee, 0, v.fee, v.recovered, 0)
  {
    hide SumsOf, Event;
    if op.kind.Registration? {
      ThreeRows(op, o, Debit, v.debit - v.fee, Fee, v.fee, a.remaining - SpentChange(op, v) - HeldAfter(op, a, c, v));
    } else {
      ThreeRows(op, o, Fee, v.fee, Recover, v.recovered, a.remaining - HeldAfter(op, a, c, v) - v.fee);
    }
  }

  predicate SettlementRow(op: Operation, o: Id, v: Settlement, e: Entry) {
    && e.campaign == op.campaign && e.attempt == op.attempt && e.operation == Some(o) && e.signature == op.signature && e.amount > 0
    && !e.kind.Reserve? && (e.kind.Debit? ==> op.kind.Registration?) && (e.kind.Recover? ==> op.kind.Recovery? && v.success)
  }

  lemma SettlementRows(op: Operation, o: Id, a: Attempt, c: Campaign, v: Settlement)
    requires MaySettle(op, a, c, v)
    ensures forall e <- SettlementEntries(op, o, a, c, v) :: SettlementRow(op, o, v, e)
    ensures RowsFor(SettlementEntries(op, o, a, c, v), op.campaign, op.attempt, Some(o))
  {
    var rows := SettlementEntries(op, o, a, c, v);
    forall k | 0 <= k < |rows| ensures SettlementRow(op, o, v, rows[k]) {
      OneSettlementRow(op, o, a, c, v, rows[k]);
    }
  }

  lemma OneSettlementRow(op: Operation, o: Id, a: Attempt, c: Campaign, v: Settlement, row: Entry)
    requires MaySettle(op, a, c, v) && row in SettlementEntries(op, o, a, c, v)
    ensures SettlementRow(op, o, v, row)
  {
    if op.kind.Registration? {
      assert row in Event(op, o, Debit, v.debit - v.fee) || row in Event(op, o, Fee, v.fee)
          || row in Event(op, o, Release, a.remaining - SpentChange(op, v) - HeldAfter(op, a, c, v));
    } else {
      assert row in Event(op, o, Fee, v.fee) || row in Event(op, o, Recover, v.recovered)
          || row in Event(op, o, Release, a.remaining - HeldAfter(op, a, c, v) - v.fee);
    }
  }

  lemma BookedNow(op: Operation, v: Settlement, before: Sums, rows: Sums)
    requires OperationOk(op) && !Settled(op) && OperationBooked(op, before)
    requires op.kind.Registration? ==> v.recovered == 0
    requires rows.fee == v.fee && rows.debit == (if op.kind.Registration? then v.debit - v.fee else 0)
    requires rows.recovery == if op.kind.Registration? then 0 else v.recovered
    ensures OperationBooked(SettledOperation(op, v), Plus(before, rows))
  {
  }

  /** Entries keep fitting when rows change without re-opening anything they rely on. */
  lemma EntriesMove(ledger: seq<Entry>, attempts: seq<Attempt>, attempts': seq<Attempt>, ops: seq<Operation>, ops': seq<Operation>)
    requires EntriesOk(ledger, attempts, ops)
    requires |attempts| <= |attempts'| && |ops| <= |ops'|
    requires forall a :: 0 <= a < |attempts| && attempts[a].status.Expired? ==> attempts'[a].status.Expired?
    requires forall o :: 0 <= o < |ops| ==>
               && ops'[o].attempt == ops[o].attempt && ops'[o].kind == ops[o].kind
               && (Settled(ops[o]) ==> ops'[o] == ops[o])
    ensures EntriesOk(ledger, attempts', ops')
  {
    forall e | 0 <= e < |ledger| ensures EntryFits(ledger[e], attempts', ops') {
      assert EntryFits(ledger[e], attempts, ops);
    }
  }

  lemma EntriesAppend(ledger: seq<Entry>, rows: seq<Entry>, attempts: seq<Attempt>, ops: seq<Operation>)
    requires EntriesOk(ledger, attempts, ops) && EntriesOk(rows, attempts, ops)
    ensures EntriesOk(ledger + rows, attempts, ops)
  {
  }

  lemma SettledRowsFit(db: Db, o: Id, v: Settlement)
    requires ForeignKeys(db) && CanSettle(db, o, v)
    ensures var db' := SettleEffect(db, o, v); var a := db.attempts[db.operations[o].attempt];
            EntriesOk(SettlementEntries(db.operations[o], o, a, db.campaigns[a.campaign], v), db'.attempts, db'.operations)
  {
    var db' := SettleEffect(db, o, v);
    var a := db.attempts[db.operations[o].attempt];
    var rows := SettlementEntries(db.operations[o], o, a, db.campaigns[a.campaign], v);
    SettlementRows(db.operations[o], o, a, db.campaigns[a.campaign], v);
    forall e | 0 <= e < |rows| ensures EntryFits(rows[e], db'.attempts, db'.operations) {
      assert SettlementRow(db.operations[o], o, v, rows[e]);
    }
  }

  lemma SettleEntries(db: Db, o: Id, v: Settlement)
    requires ForeignKeys(db) && Lifecycle(db) && CanSettle(db, o, v) && EntriesOk(db.ledger, db.attempts, db.operations)
    ensures var db' := SettleEffect(db, o, v); EntriesOk(db'.ledger, db'.attempts, db'.operations)
  {
    var db' := SettleEffect(db, o, v);
    var a := db.attempts[db.operations[o].attempt];
    assert Fits(db.operations[o], a) && OperationOk(db.operations[o]);
    EntriesMove(db.ledger, db.attempts, db'.attempts, db.operations, db'.operations);
    SettledRowsFit(db, o, v);
    EntriesAppend(db.ledger, SettlementEntries(db.operations[o], o, a, db.campaigns[a.campaign], v), db'.attempts, db'.operations);
  }

  lemma SettlementMoney(op: Operation, o: Id, a: Attempt, c: Campaign, v: Settlement)
    requires MaySettle(op, a, c, v)
    ensures var s := SumsOf(SettlementEntries(op, o, a, c, v), All);
            && HeldIn(s) == HeldAfter(op, a, c, v) - a.remaining && SpentIn(s) == SpentChange(op, v)
  {
    SettlementSums(op, o, a, c, v);
  }

  lemma SettleMoneyBooks(db: Db, o: Id, v: Settlement)
    requires ForeignKeys(db) && CanSettle(db, o, v) && AttemptBooks(db) && CampaignBooks(db)
    ensures AttemptBooks(SettleEffect(db, o, v)) && CampaignBooks(SettleEffect(db, o, v))
  {
    var op := db.operations[o];
    var a := db.attempts[op.attempt];
    var c := db.campaigns[a.campaign];
    SettlementMoney(op, o, a, c, v);
    SettlementRows(op, o, a, c, v);
    SettleTouches(db, o, v);
    BooksMove(db, SettleEffect(db, o, v), op.attempt, Some(o), SettlementEntries(op, o, a, c, v));
  }

  lemma SettledBooks(ops: seq<Operation>, ledger: seq<Entry>, o: Id, a: Attempt, c: Campaign, v: Settlement)
    requires o < |ops| && OperationOk(ops[o]) && MaySettle(ops[o], a, c, v) && OperationBooks(ops, ledger)
    ensures OperationBooks(ops[o := SettledOperation(ops[o], v)], ledger + SettlementEntries(ops[o], o, a, c, v))
  {
    hide SumsOf, OperationBooked, RowsFor, Plus, SettlementEntries, SettledOperation;
    var op := ops[o];
    var rows := SettlementEntries(op, o, a, c, v);
    assert OperationBooked(op, SumsOf(ledger, OfOperation(o)));
    SettlementSums(op, o, a, c, v);
    SettlementRows(op, o, a, c, v);
    BookedNow(op, v, SumsOf(ledger, OfOperation(o)), SumsOf(rows, All));
    var ops' := ops[o := SettledOperation(op, v)];
    forall k: Id | k < |ops'| ensures OperationBooked(ops'[k], SumsOf(ledger + rows, OfOperation(k))) {
      assert OperationBooked(ops[k], SumsOf(ledger, OfOperation(k)));
      AppendedSums(ledger, rows, op.campaign, op.attempt, Some(o), OfOperation(k));
    }
  }

  lemma SettleBooks(db: Db, o: Id, v: Settlement)
    requires ForeignKeys(db) && Lifecycle(db) && CanSettle(db, o, v) && Books(db)
    ensures Books(SettleEffect(db, o, v))
  {
    SettleMoneyBooks(db, o, v);
    var a := db.attempts[db.operations[o].attempt];
    assert OperationOk(db.operations[o]);
    SettledBooks(db.operations, db.ledger, o, a, db.campaigns[a.campaign], v);
    SettleEntries(db, o, v);
  }

  /** Whatever evidence passes the guards of settle, the whole invariant survives it. */
  lemma SettlementPreserves(db: Db, o: Id, v: Settlement)
    requires Inv(db) && CanSettle(db, o, v)
    ensures Inv(SettleEffect(db, o, v))
  {
    Steps.SettledKeys(db, o, v);
    SettleLifecycle(db, o, v);
    SettlePointers(db, o, v);
    SettleBudgets(db, o, v);
    SettleBooks(db, o, v);
  }
}
