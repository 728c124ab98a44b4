/**
 * The reconciler over runs: no false alarm ever, provided settlements come from accepted
 * evidence and each attempt's settled slots do not go back; and, for raw settlements, the
 * exact condition under which the report stays clean.
 */
module AuditRuns {
  import opened Basics
  import opened Registry
  import opened Database
  import opened Invariant
  import opened ExecutionTx
  import opened SettlePreserves
  import opened Steps
  import opened Evolution
  import opened Pins
  import opened Reachable
  import opened Receipts
  import opened Custody
  import opened VerifiedRuns
  import opened CostLaw
  import opened Accounting
  import opened AuditClean

  ghost predicate AllDebits(ops: seq<Operation>) {
    forall o :: 0 <= o < |ops| ==> DebitsItsFee(ops[o])
  }

  ghost predicate AllShow(attempts: seq<Attempt>, ops: seq<Operation>) {
    forall a: Id :: a < |attempts| ==> ShowsLatest(attempts[a], LatestIn(ops, a))
  }

  ghost predicate Reconciled(db: Db) {
    AllDebits(db.operations) && AllShow(db.attempts, db.operations)
  }

  // ------------------------------------------------------------ latest settlements

  lemma {:induction false} LatestKept(ops: seq<Operation>, ops': seq<Operation>, a: Id)
    requires NoneSettles(ops, ops')
    ensures LatestIn(ops', a) == LatestIn(ops, a)
    decreases |ops'|
  {
    if |ops'| > 0 {
      var n := |ops'| - 1;
      if |ops'| > |ops| {
        LatestKept(ops, ops'[..n], a);
      } else {
        assert SameOutcome(ops[n], ops'[n]);
        LatestKept(ops[..n], ops'[..n], a);
      }
    }
  }

  lemma {:induction false} LatestNone(ops: seq<Operation>, a: Id)
    requires forall o :: 0 <= o < |ops| ==> ops[o].attempt != a
    ensures LatestIn(ops, a).None?
  {
    if ops != [] { LatestNone(ops[..|ops| - 1], a); }
  }

  lemma {:induction false} LatestSome(ops: seq<Operation>, a: Id, o: Id)
    requires o < |ops| && ops[o].attempt == a && Settled(ops[o]) && FinalizedEvidence(ops[o]).Some?
    ensures LatestIn(ops, a).Some?
  {
    var n := |ops| - 1;
    if o < n { LatestSome(ops[..n], a, o); }
  }

  lemma {:induction false} LatestElsewhere(ops: seq<Operation>, o: Id, op': Operation, b: Id)
    requires o < |ops| && op'.attempt == ops[o].attempt && b != op'.attempt
    ensures LatestIn(ops[o := op'], b) == LatestIn(ops, b)
  {
    var n := |ops| - 1;
    var u := ops[o := op'];
    if o == n {
      assert u[..n] == ops[..n];
    } else {
      assert u[..n] == ops[..n][o := op'];
      LatestElsewhere(ops[..n], o, op', b);
    }
  }

  /** Settling the last open operation of an attempt adds its evidence as the newest candidate. */
  lemma {:induction false} LatestSettled(ops: seq<Operation>, o: Id, op': Operation)
    requires o < |ops| && op'.attempt == ops[o].attempt && !Settled(ops[o])
    requires forall q :: o < q < |ops| ==> ops[q].attempt != ops[o].attempt
    ensures LatestIn(ops[o := op'], op'.attempt) == Newer(LatestIn(ops, op'.attempt), op')
  {
    var n := |ops| - 1;
    var u := ops[o := op'];
    if o == n {
      assert u[..n] == ops[..n];
    } else {
      assert u[..n] == ops[..n][o := op'];
      LatestSettled(ops[..n], o, op');
    }
  }

  // ------------------------------------------------------------- other transactions

  lemma OtherKeepsReconciled(db: Db, db': Db)
    requires Reconciled(db) && NothingSettles(db, db') && OperationKeys(db)
    ensures Reconciled(db')
  {
    hide LatestIn, DebitsItsFee, ShowsLatest;
    forall o | 0 <= o < |db'.operations| ensures DebitsItsFee(db'.operations[o]) {
      if o < |db.operations| {
        assert SameOutcome(db.operations[o], db'.operations[o]);
        DebitsSame(db.operations[o], db'.operations[o]);
      } else {
        OpenDebits(db'.operations[o]);
      }
    }
    forall a: Id | a < |db'.attempts| ensures ShowsLatest(db'.attempts[a], LatestIn(db'.operations, a)) {
      LatestKept(db.operations, db'.operations, a);
      if a < |db.attempts| {
        ShowsSame(db.attempts[a], db'.attempts[a], LatestIn(db.operations, a));
      } else {
        LatestNone(db.operations, a);
        NothingToShow(db'.attempts[a]);
      }
    }
  }

  lemma DebitsSame(op: Operation, op': Operation)
    requires DebitsItsFee(op) && SameOutcome(op, op')
    ensures DebitsItsFee(op')
  {
  }

  lemma OpenDebits(op: Operation)
    requires !Settled(op)
    ensures DebitsItsFee(op)
  {
  }

  lemma ShowsSame(a: Attempt, a': Attempt, latest: Option<Latest>)
    requires ShowsLatest(a, latest) && Untaken(a, a')
    ensures ShowsLatest(a', latest)
  {
  }

  lemma NothingToShow(a: Attempt)
    ensures ShowsLatest(a, None)
  {
  }

  // ------------------------------------------------------------------- settlements

  /** The settled slot is not before the one the attempt already shows. */
  predicate NotBefore(a: Attempt, v: Settlement) {
    a.slot.Some? ==> a.slot.value <= v.slot
  }

  lemma NoneAfter(ops: seq<Operation>, o: Id)
    requires OpenLast(ops) && o < |ops| && !Settled(ops[o])
    ensures forall q :: o < q < |ops| ==> ops[q].attempt != ops[o].attempt
  {
  }

  lemma SettledShows(op: Operation, a: Attempt, c: Campaign, v: Settlement, prior: Option<Latest>)
    requires MaySettle(op, a, c, v) && ShowsLatest(a, prior) && (a.slot.Some? ==> prior.Some?)
    ensures ShowsLatest(SettledAttempt(op, a, c, v), Newer(prior, SettledOperation(op, v))) <==> NotBefore(a, v)
  {
  }

  /** A shown slot comes from the settled registration. */
  lemma ShownFromSettlement(db: Db, a: Id)
    requires Inv(db) && a < |db.attempts| && db.attempts[a].slot.Some?
    ensures LatestIn(db.operations, a).Some?
  {
    hide Counters, Budgets, Books, Pointers, LatestIn, OneRegistration, OneOpenRecovery;
    assert AttemptOk(db.attempts[a]);
    var r := FindRegistration(db.operations, a);
    assert OperationOk(db.operations[r.value]) && Fits(db.operations[r.value], db.attempts[db.operations[r.value].attempt]);
    LatestSome(db.operations, a, r.value);
  }

  /** After settle, whatever was settled: when the attempt and the operation still reconcile. */
  lemma SettleReconciles(p: Policy, db: Db, o: Id, v: Settlement)
    requires Good(p, db) && Reconciled(db) && CanSettle(db, o, v)
    ensures var op := db.operations[o]; var db' := SettleEffect(db, o, v);
            && (ShowsLatest(db'.attempts[op.attempt], LatestIn(db'.operations, op.attempt)) <==> NotBefore(db.attempts[op.attempt], v))
            && (DebitsItsFee(db'.operations[o]) <==> (op.kind.Recovery? ==> v.debit == v.fee))
            && (forall b: Id :: b < |db'.attempts| && b != op.attempt ==> ShowsLatest(db'.attempts[b], LatestIn(db'.operations, b)))
            && (forall q :: 0 <= q < |db'.operations| && q != o ==> DebitsItsFee(db'.operations[q]))
  {
    hide Lifecycle, Pointers, Counters, Budgets, Books, QuotesSound, AttemptsPinned, OperationsPinned, AttemptCustody, QuoteCustody;
    hide LatestIn, Newer, NotBefore, EvidenceFits, ShowsLatest;
    var op, a := db.operations[o], db.attempts[db.operations[o].attempt];
    var db' := SettleEffect(db, o, v);
    NoneAfter(db.operations, o);
    LatestSettled(db.operations, o, SettledOperation(op, v));
    if a.slot.Some? { ShownFromSettlement(db, op.attempt); }
    SettledShows(op, a, db.campaigns[a.campaign], v, LatestIn(db.operations, op.attempt));
    forall b: Id | b < |db'.attempts| && b != op.attempt ensures ShowsLatest(db'.attempts[b], LatestIn(db'.operations, b)) {
      LatestElsewhere(db.operations, o, SettledOperation(op, v), b);
    }
  }

  lemma ReconciledClean(db: Db, c: Id)
    requires Inv(db) && Reconciled(db) && c < |db.campaigns|
    ensures Readable(SheetOf(db, c)) && Findings(SheetOf(db, c)) == []
  {
    hide Inv, ForeignKeys, SheetOf, Findings, Readable, DebitsItsFee, ShowsLatest, LatestIn;
    CleanExactly(db, c);
    AlwaysReadable(db, c);
  }

  lemma SettleSizes(db: Db, o: Id, v: Settlement)
    requires ForeignKeys(db) && o < |db.operations|
    ensures var op := db.operations[o]; var db' := SettleEffect(db, o, v);
            && |db'.campaigns| == |db.campaigns| && op.campaign < |db.campaigns| && op.attempt < |db.attempts|
            && |db'.operations| == |db.operations| && |db'.attempts| == |db.attempts|
            && db'.operations[o].campaign == op.campaign && db'.attempts[op.attempt].campaign == op.campaign
  {
  }

  /**
   * From a clean, reachable state any settlement the store commits, verified or not,
   * leaves the campaign's report empty if and only if a recovery debited exactly its fee
   * and the slot did not go back.
   */
  lemma RawSettleCleanExactly(p: Policy, db: Db, o: Id, v: Settlement)
    requires Good(p, db) && Reconciled(db) && CanSettle(db, o, v)
    ensures var op := db.operations[o];
            && op.campaign < |SettleEffect(db, o, v).campaigns|
            && (Findings(SheetOf(SettleEffect(db, o, v), op.campaign)) == []
                <==> (op.kind.Recovery? ==> v.debit == v.fee) && NotBefore(db.attempts[op.attempt], v))
  {
    hide Inv, Pinned, Findings, SheetOf, LatestIn, ShowsLatest, DebitsItsFee, MaySettle, SettleEffect, NotBefore, Reconciled;
    KeysOf(db);
    var op := db.operations[o];
    SettlementPreserves(db, o, v);
    SettleReconciles(p, db, o, v);
    SettleSizes(db, o, v);
    CleanExactly(SettleEffect(db, o, v), op.campaign);
  }

  /**
   * The store never reads a recovery's debit: every other amount commits just as well, and
   * the reconciler tells exactly the fee from all others.
   */
  lemma DebitUnread(p: Policy, db: Db, l: Lease, v: Settlement, debit: int, now: int)
    requires Good(p, db) && ForeignKeys(db) && Reconciled(db) && Settle(db, l, v, now).Commit?
    requires db.operations[l.operation].kind.Recovery? && debit >= 0
    ensures var op, t := db.operations[l.operation], Settle(db, l, v.(debit := debit), now);
            && t.Commit? && op.campaign < |t.db.campaigns|
            && (Findings(SheetOf(t.db, op.campaign)) == [] <==> debit == v.fee && NotBefore(db.attempts[op.attempt], v))
  {
    hide Inv, Pinned, ForeignKeys, Reconciled, Findings, SheetOf, SettleEffect, Holds;
    var w := v.(debit := debit);
    CommittedCanSettle(p, db, l, w, now);
    RawSettleCleanExactly(p, db, l.operation, w);
  }

  /** Nor does it compare slots: any slot commits, and the reconciler tells whether it went back. */
  lemma SlotUnread(p: Policy, db: Db, l: Lease, v: Settlement, slot: int, now: int)
    requires Good(p, db) && ForeignKeys(db) && Reconciled(db) && Settle(db, l, v, now).Commit?
    requires db.operations[l.operation].kind.Recovery? && v.debit == v.fee && SafeCounter(slot)
    ensures var op, t := db.operations[l.operation], Settle(db, l, v.(slot := slot), now);
            && t.Commit? && op.campaign < |t.db.campaigns|
            && (Findings(SheetOf(t.db, op.campaign)) == [] <==> NotBefore(db.attempts[op.attempt], v.(slot := slot)))
  {
    hide Inv, Pinned, ForeignKeys, Reconciled, Findings, SheetOf, SettleEffect, Holds;
    var w := v.(slot := slot);
    CommittedCanSettle(p, db, l, w, now);
    RawSettleCleanExactly(p, db, l.operation, w);
  }

  // ------------------------------------------------------------------------- runs

  /** The environment hypothesis: accepted evidence of one attempt arrives in slot order. */
  ghost predicate Timely(p: Policy, h: History, act: Act, now: int)
    requires ForeignKeys(h.db)
  {
    Commits(p, h.db, act, now) ==>
      NotBefore(h.db.attempts[h.db.operations[act.lease.operation].attempt], Presented(p, h.db, act).value)
  }

  ghost predicate SlotsGrow(p: Policy, h: History, acts: seq<TimedAct>)
    requires ForeignKeys(h.db)
  {
    acts != [] ==>
      && SlotsGrow(p, h, acts[..|acts| - 1])
      && Timely(p, Live(p, h, acts[..|acts| - 1]), acts[|acts| - 1].act, acts[|acts| - 1].now)
  }

  lemma CommittedCanSettle(p: Policy, db: Db, l: Lease, v: Settlement, now: int)
    requires ForeignKeys(db) && Settle(db, l, v, now).Commit?
    ensures CanSettle(db, l.operation, v)
  {
    hide EvidenceFits, SettleEffect, Holds;
  }

  lemma PresentKeepsReconciled(p: Policy, h: History, l: Lease, o: ChainObservation, signed: seq<Byte>, now: int)
    requires Good(p, h.db) && Reconciled(h.db) && Commits(p, h.db, Present(l, o, signed), now)
    requires Timely(p, h, Present(l, o, signed), now)
    ensures Reconciled(Perform(p, h, Present(l, o, signed), now).db)
  {
    hide Inv, Pinned, ForeignKeys, LatestIn, ShowsLatest, DebitsItsFee, VerifySettlement, Settle, SettleEffect, Perform, CaseOf;
    KeysOf(h.db);
    CommittedEffect(p, h, l, o, signed, now);
    var v := VerifySettlement(p, CaseOf(h.db, l.operation), o, signed).value;
    CommittedCanSettle(p, h.db, l, v, now);
    AcceptedShape(p, CaseOf(h.db, l.operation), o, signed);
    CaseKind(h.db, l.operation);
    SettleReconciles(p, h.db, l.operation, v);
    SettleSizes(h.db, l.operation, v);
  }

  lemma CaseKind(db: Db, o: Id)
    requires ForeignKeys(db) && o < |db.operations|
    ensures CaseOf(db, o).kind == db.operations[o].kind
  {
  }

  lemma ActKeepsReconciled(p: Policy, h: History, act: Act, now: int)
    requires Good(p, h.db) && ForeignKeys(h.db) && Reconciled(h.db) && Timely(p, h, act, now)
    ensures Good(p, Perform(p, h, act, now).db) && Reconciled(Perform(p, h, act, now).db)
  {
    hide Inv, Pinned, ForeignKeys, Apply, Settle, VerifySettlement, Reconciled, Timely, Evolves, NothingSettles;
    match act {
      case Other(step) =>
        if !step.DoSettle? {
          StepAdvances(p, h.db, step, now);
          OnlySettleSettles(p, h.db, step, now);
          KeysOf(h.db);
          OtherKeepsReconciled(h.db, Apply(p, h.db, step, now));
        }
      case Present(l, o, signed) =>
        if Commits(p, h.db, act, now) {
          SettleAdvances(p, h.db, l, Presented(p, h.db, act).value, now);
          PresentKeepsReconciled(p, h, l, o, signed, now);
        }
    }
  }

  lemma {:induction false} LiveReconciled(p: Policy, h: History, acts: seq<TimedAct>)
    requires ForeignKeys(h.db) && Good(p, h.db) && Reconciled(h.db) && SlotsGrow(p, h, acts)
    ensures Good(p, Live(p, h, acts).db) && Reconciled(Live(p, h, acts).db)
  {
    hide Good, ForeignKeys, Reconciled, Perform, Timely;
    if acts != [] {
      var last := acts[|acts| - 1];
      LiveReconciled(p, h, acts[..|acts| - 1]);
      ActKeepsReconciled(p, Live(p, h, acts[..|acts| - 1]), last.act, last.now);
    }
  }

  /**
   * No false alarms: after any interleaving of committed transactions from the empty
   * tables, with settlements from accepted evidence in slot order, the report on every
   * campaign can be made and lists nothing.
   */
  lemma NoFalseAlarms(p: Policy, acts: seq<TimedAct>, c: Id)
    requires SlotsGrow(p, History(EMPTY, []), acts) && c < |LiveFromEmpty(p, acts).db.campaigns|
    ensures Readable(SheetOf(LiveFromEmpty(p, acts).db, c)) && Findings(SheetOf(LiveFromEmpty(p, acts).db, c)) == []
  {
    hide Inv, Pinned, ForeignKeys, SlotsGrow, Live, SheetOf, Findings, Readable;
    GoodStarts(p);
    KeysOf(EMPTY);
    LiveReconciled(p, History(EMPTY, []), acts);
    ReconciledClean(LiveFromEmpty(p, acts).db, c);
  }

  // ------------------------------------------------------------------- histories

  ghost predicate Orderly(p: Policy, acts: seq<TimedAct>) {
    SlotsGrow(p, History(EMPTY, []), acts)
  }

  /** Some run with accepted evidence in slot order leads from the empty tables to this history. */
  ghost predicate Reached(p: Policy, h: History) {
    exists acts: seq<TimedAct> :: Orderly(p, acts) && LiveFromEmpty(p, acts) == h
  }

  lemma ReachedStart(p: Policy)
    ensures Reached(p, History(EMPTY, []))
  {
    assert Orderly(p, []) && LiveFromEmpty(p, []) == History(EMPTY, []);
  }

  lemma ReachedGood(p: Policy, h: History)
    requires Reached(p, h)
    ensures ForeignKeys(h.db) && Good(p, h.db) && Reconciled(h.db)
  {
    hide Inv, Pinned, ForeignKeys, SlotsGrow, Live;
    var acts: seq<TimedAct> :| Orderly(p, acts) && LiveFromEmpty(p, acts) == h;
    GoodStarts(p);
    KeysOf(EMPTY);
    LiveReconciled(p, History(EMPTY, []), acts);
  }

  lemma ReachedOn(p: Policy, h: History, act: Act, now: int)
    requires Reached(p, h) && ForeignKeys(h.db) && Timely(p, h, act, now)
    ensures Reached(p, Perform(p, h, act, now))
  {
    hide Timely, Perform, ForeignKeys;
    var acts: seq<TimedAct> :| Orderly(p, acts) && LiveFromEmpty(p, acts) == h;
    var more := acts + [TimedAct(act, now)];
    assert more[..|more| - 1] == acts;
    assert Orderly(p, more) && LiveFromEmpty(p, more) == Perform(p, h, act, now);
  }

  lemma StepReaches(p: Policy, db: Db, filed: seq<Filed>, step: Step, now: int, db': Db)
    requires Reached(p, History(db, filed)) && !step.DoSettle?
    requires ForeignKeys(db) ==> Apply(p, db, step, now) == db'
    ensures ForeignKeys(db') && Reached(p, History(db', filed))
  {
    hide Reached, Apply, ForeignKeys;
    ReachedGood(p, History(db, filed));
    ReachedOn(p, History(db, filed), Other(step), now);
    ReachedGood(p, History(db', filed));
  }

  lemma PresentPerforms(
    p: Policy, h: History, l: Lease, o: ChainObservation, signed: seq<Byte>, now: int, k: Case, v: Settlement, db': Db)
    requires ForeignKeys(h.db) && l.operation < |h.db.operations| && CaseOf(h.db, l.operation) == k
    requires VerifySettlement(p, k, o, signed) == Some(v) && Settle(h.db, l, v, now) == Commit(db', ()) && o.receipt.Some?
    requires h.db.attempts[h.db.operations[l.operation].attempt].slot.None?
    ensures Timely(p, h, Present(l, o, signed), now)
    ensures Perform(p, h, Present(l, o, signed), now)
         == History(db', h.filed + [Filed(h.db.operations[l.operation].attempt, k, o.receipt.value)])
  {
    hide CaseOf, VerifySettlement, Settle;
  }

  /** Evidence that is accepted and commits extends the history by its receipt. */
  lemma PresentReaches(
    p: Policy, db: Db, filed: seq<Filed>, l: Lease, o: ChainObservation, signed: seq<Byte>, now: int, k: Case, v: Settlement, db': Db)
    requires Reached(p, History(db, filed)) && ForeignKeys(db) && l.operation < |db.operations| && CaseOf(db, l.operation) == k
    requires VerifySettlement(p, k, o, signed) == Some(v) && Settle(db, l, v, now) == Commit(db', ()) && o.receipt.Some?
    requires db.attempts[db.operations[l.operation].attempt].slot.None?
    ensures ForeignKeys(db') && Reached(p, History(db', filed + [Filed(db.operations[l.operation].attempt, k, o.receipt.value)]))
  {
    hide Reached, ForeignKeys, CaseOf, VerifySettlement, Settle, Timely, Perform;
    PresentPerforms(p, History(db, filed), l, o, signed, now, k, v, db');
    ReachedOn(p, History(db, filed), Present(l, o, signed), now);
    ReachedGood(p, History(db', filed + [Filed(db.operations[l.operation].attempt, k, o.receipt.value)]));
  }

  /** Under a current lease on a signed, open operation only the evidence decides. */
  lemma OpenDecided(db: Db, l: Lease, v: Settlement, now: int)
    requires ForeignKeys(db) && Fenced(db, l, now).None? && WellFormedSettlement(v)
    requires var op := db.operations[l.operation];
             && op.signature.Some? && op.signedPayload.Some? && !Closed(op.status)
             && db.invites[db.attempts[op.attempt].invite].active == Some(op.attempt)
    ensures var op := db.operations[l.operation]; var a := db.attempts[op.attempt];
            if EvidenceFits(op, a, db.campaigns[a.campaign], v) then Settle(db, l, v, now).Commit?
            else Settle(db, l, v, now) == Abort(EvidenceInvalid)
  {
    hide EvidenceFits, SettleEffect, Holds;
  }
}
