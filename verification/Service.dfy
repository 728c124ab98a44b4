/** The running service as a whole: what holds of the tables any workers and callers leave behind. */
module Service {
  import opened Basics
  import opened Registry
  import opened Database
  import opened VerifiedRuns
  import opened CostLaw
  import opened Receipts
  import opened ExecutionTx
  import opened Accounting
  import opened AuditClean
  import opened AuditRuns
  import opened Workers
  import opened WorkerSafety
  import opened Reachable

  /** Whatever the workers did, with settled slots in order, the reconciler has nothing to report. */
  lemma ServiceNeverAlarms(p: Policy, moves: seq<TimedMove>, c: Id)
    requires SlotsGrow(p, History(EMPTY, []), Trace(p, moves)) && c < |Operate(p, moves).history.db.campaigns|
    ensures Readable(SheetOf(Operate(p, moves).history.db, c)) && Findings(SheetOf(Operate(p, moves).history.db, c)) == []
  {
    hide Good, ForeignKeys, SlotsGrow, LiveFromEmpty, SheetOf, Findings, Readable, Operate, Trace, SystemOk;
    WorkersRefine(p, moves);
    NoFalseAlarms(p, Trace(p, moves), c);
  }

  /** And every attempt's cost is what its receipts took from the sponsor. */
  lemma ServiceCosts(p: Policy, moves: seq<TimedMove>, a: Id)
    requires a < |Operate(p, moves).history.db.attempts|
    ensures var h := Operate(p, moves).history; var row := h.db.attempts[a];
            && row.cost == -TallyOf(h.filed, a).sponsor
            && (row.status.Complete? ==> AttemptKeys(h.db) && PaidExactly(h.db, h.filed, a))
            && ResidualCovered(row)
  {
    hide Good, ForeignKeys, LiveFromEmpty, Operate, Trace, SystemOk, PaidExactly, TallyOf;
    WorkersRefine(p, moves);
    WholeLifeCost(p, Trace(p, moves), a);
  }

  /** A worker that still holds its lease can always settle on accepted evidence, one exact case aside. */
  lemma ServiceSettles(p: Policy, moves: seq<TimedMove>, l: Lease, o: ChainObservation, signed: seq<Byte>, now: int)
    requires Fenced(Operate(p, moves).history.db, l, now).None?
    requires ForeignKeys(Operate(p, moves).history.db)
    requires Operate(p, moves).history.db.operations[l.operation].signature.Some?
    requires Operate(p, moves).history.db.operations[l.operation].signedPayload.Some?
    requires VerifySettlement(p, CaseOf(Operate(p, moves).history.db, l.operation), o, signed).Some?
    ensures var db := Operate(p, moves).history.db;
            var op, v := db.operations[l.operation], VerifySettlement(p, CaseOf(db, l.operation), o, signed).value;
            Settle(db, l, v, now).Commit? <==> (op.kind.Registration? || v.success || v.residual == op.amount)
  {
    hide Good, ForeignKeys, LiveFromEmpty, Operate, Trace, SystemOk, VerifySettlement, Settle, Holds, CaseOf;
    WorkersRefine(p, moves);
    EvidenceAlwaysSettles(p, Trace(p, moves), l, o, signed, now);
  }
}
