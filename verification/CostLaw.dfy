/**
 * The whole-life cost law: over every run, through any number of failed recoveries, an
 * attempt's recorded cost is what its receipts took from the sponsor.
 */
module CostLaw {
  import opened Basics
  import opened Registry
  import opened Quotes
  import opened Database
  import opened Ledger
  import opened Invariant
  import opened ExecutionTx
  import opened SettlePreserves
  import opened Steps
  import opened Evolution
  import opened Pins
  import opened Reachable
  import opened Receipts
  import opened Custody
  import opened VerifiedRuns

  /** What an attempt's filed receipts add up to. */
  datatype Tally = Tally(sponsor: int, paid: int, fees: int)

  const NOTHING := Tally(0, 0, 0)

  function Join(s: Tally, t: Tally): Tally {
    Tally(s.sponsor + t.sponsor, s.paid + t.paid, s.fees + t.fees)
  }

  /** Sponsor change, price the registry received, and fee of one receipt. */
  function Share(f: Filed): Tally {
    Tally(ChangeOf(f.receipt, f.facts.sponsor),
          if f.facts.kind.Registration? && !f.receipt.failed then ChangeOf(f.receipt, f.facts.quote.feeReceiver) else 0,
          f.receipt.fee)
  }

  function TallyOf(filed: seq<Filed>, a: Id): Tally {
    if filed == [] then NOTHING
    else
      var rest, last := TallyOf(filed[..|filed| - 1], a), filed[|filed| - 1];
      if last.attempt == a then Join(rest, Share(last)) else rest
  }

  lemma TallySnoc(filed: seq<Filed>, f: Filed, a: Id)
    ensures TallyOf(filed + [f], a) == if f.attempt == a then Join(TallyOf(filed, a), Share(f)) else TallyOf(filed, a)
  {
    assert (filed + [f])[..|filed|] == filed;
  }

  /** The law for one attempt, its quoted rents and its tally. */
  predicate Lawful(a: Attempt, c: Cost, t: Tally) {
    && a.cost == -t.sponsor
    && t.paid >= 0 && t.fees >= 0
    && (a.residual.None? ==> t == NOTHING)
    && (Succeeded(a) ==> a.cost == t.paid + c.domainRent + c.primaryRent + t.fees + a.residual.value)
    && (a.status.Failed? ==> a.cost == t.fees && t.paid == 0)
  }

  function CostOf(db: Db, a: Id): Cost
    requires a < |db.attempts| && db.attempts[a].quote < |db.quotes|
  {
    db.quotes[db.attempts[a].quote].payload.cost
  }

  ghost predicate AllLawful(h: History)
    requires AttemptKeys(h.db)
  {
    forall a: Id :: a < |h.db.attempts| ==> Lawful(h.db.attempts[a], CostOf(h.db, a), TallyOf(h.filed, a))
  }

  ghost predicate FiledKnown(h: History) {
    forall f :: 0 <= f < |h.filed| ==> h.filed[f].attempt < |h.db.attempts|
  }

  ghost predicate LawfulHistory(p: Policy, h: History) {
    Good(p, h.db) && AllLawful(h) && FiledKnown(h)
  }

  lemma {:induction false} NoTally(filed: seq<Filed>, a: Id)
    requires forall f :: 0 <= f < |filed| ==> filed[f].attempt < a
    ensures TallyOf(filed, a) == NOTHING
  {
    if filed != [] { NoTally(filed[..|filed| - 1], a); }
  }

  // --------------------------------------------------------- other transactions

  lemma SameCost(db: Db, db': Db, a: Id)
    requires AttemptKeys(db) && AttemptKeys(db') && a < |db.attempts|
    requires AttemptsEvolve(db.attempts, db'.attempts) && QuotesEvolve(db.quotes, db'.quotes)
    ensures CostOf(db', a) == CostOf(db, a)
  {
    assert SameAttempt(db.attempts[a], db'.attempts[a]);
    assert SameQuote(db.quotes[db.attempts[a].quote], db'.quotes[db.attempts[a].quote]);
  }

  lemma UntakenLawful(a: Attempt, a': Attempt, c: Cost, t: Tally)
    requires Lawful(a, c, t) && Untaken(a, a')
    ensures Lawful(a', c, t)
  {
  }

  lemma OtherKeepsLaw(h: History, db': Db)
    requires AttemptKeys(h.db) && AttemptKeys(db') && AllLawful(h) && FiledKnown(h)
    requires AttemptsUntaken(h.db.attempts, db'.attempts)
    requires AttemptsEvolve(h.db.attempts, db'.attempts) && QuotesEvolve(h.db.quotes, db'.quotes)
    ensures AllLawful(h.(db := db')) && FiledKnown(h.(db := db'))
  {
    hide AttemptsEvolve, QuotesEvolve, Lawful, TallyOf, CostOf, Blank;
    forall a: Id | a < |db'.attempts| ensures Lawful(db'.attempts[a], CostOf(db', a), TallyOf(h.filed, a)) {
      if a < |h.db.attempts| {
        SameCost(h.db, db', a);
        UntakenLawful(h.db.attempts[a], db'.attempts[a], CostOf(h.db, a), TallyOf(h.filed, a));
      } else {
        NoTally(h.filed, a);
        BlankLawful(db'.attempts[a], CostOf(db', a));
      }
    }
  }

  lemma BlankLawful(a: Attempt, c: Cost)
    requires Blank(a)
    ensures Lawful(a, c, NOTHING)
  {
  }

  // ------------------------------------------------------------------ settlement

  /** What a settlement and its receipt agree on, branch by branch. */
  predicate Backed(op: Operation, c: Cost, v: Settlement, s: Tally) {
    && v.debit - v.recovered == -s.sponsor && s.fees == v.fee >= 0
    && (if op.kind.Registration? then
          v.recovered == 0
          && (if v.success then
                v.debit == c.registrationPrice + c.domainRent + c.primaryRent + v.fee && v.residual == c.registrationPrice - s.paid && s.paid >= 0
              else v.debit == v.fee && v.residual == 0 && s.paid == 0)
        else v.debit == v.fee && s.paid == 0)
  }

  lemma AcceptedBacked(p: Policy, op: Operation, k: Case, o: ChainObservation, signed: seq<Byte>, id: Id)
    requires VerifySettlement(p, k, o, signed).Some? && PartiesApart(k) && k.kind == op.kind
    ensures Backed(op, k.quote.cost, VerifySettlement(p, k, o, signed).value, Share(Filed(id, k, o.receipt.value)))
  {
    hide VerifySettlement, PartiesApart, ChangeOf;
    ReceiptConservation(p, k, o, signed);
    AcceptedShape(p, k, o, signed);
    if k.kind.Registration? {
      RegistrationSplit(p, k, o, signed);
    }
  }

  lemma SettledLawful(op: Operation, a: Attempt, c: Campaign, q: Cost, v: Settlement, t: Tally, s: Tally)
    requires AttemptOk(a) && OperationOk(op) && Fits(op, a) && MaySettle(op, a, c, v) && c.limits.recoveryAllowance > 0
    requires Lawful(a, q, t) && Backed(op, q, v, s)
    ensures Lawful(SettledAttempt(op, a, c, v), q, Join(t, s))
  {
  }

  /** Filing one receipt against one rewritten attempt. */
  lemma LawMoves(db: Db, db': Db, filed: seq<Filed>, f: Filed)
    requires AttemptKeys(db) && AttemptKeys(db') && AllLawful(History(db, filed)) && FiledKnown(History(db, filed))
    requires f.attempt < |db.attempts| && |db'.attempts| == |db.attempts| && db'.quotes == db.quotes
    requires db'.attempts == db.attempts[f.attempt := db'.attempts[f.attempt]]
    requires db'.attempts[f.attempt].quote == db.attempts[f.attempt].quote
    requires Lawful(db'.attempts[f.attempt], CostOf(db, f.attempt), Join(TallyOf(filed, f.attempt), Share(f)))
    ensures AllLawful(History(db', filed + [f])) && FiledKnown(History(db', filed + [f]))
  {
    hide Lawful, TallyOf, Join, Share;
    forall b: Id | b < |db'.attempts| ensures Lawful(db'.attempts[b], CostOf(db', b), TallyOf(filed + [f], b)) {
      TallySnoc(filed, f, b);
      assert Lawful(db.attempts[b], CostOf(db, b), TallyOf(filed, b));
    }
  }

  lemma SettleMoves(db: Db, o: Id, v: Settlement)
    requires ForeignKeys(db) && o < |db.operations|
    ensures var id := db.operations[o].attempt; var db' := SettleEffect(db, o, v);
            && id < |db.attempts| && |db'.attempts| == |db.attempts| && db'.quotes == db.quotes
            && db'.attempts == db.attempts[id := db'.attempts[id]]
            && db'.attempts[id].quote == db.attempts[id].quote
            && db'.attempts[id] == SettledAttempt(db.operations[o], db.attempts[id], db.campaigns[db.operations[o].campaign], v)
  {
  }

  /** The rows a committed settlement finds, and the law on them. */
  lemma SettlementLaw(p: Policy, h: History, l: Lease, o: ChainObservation, signed: seq<Byte>, now: int)
    requires LawfulHistory(p, h) && Commits(p, h.db, Present(l, o, signed), now)
    ensures var db := h.db; var op := db.operations[l.operation];
            var v := VerifySettlement(p, CaseOf(db, l.operation), o, signed).value;
            Lawful(SettledAttempt(op, db.attempts[op.attempt], db.campaigns[op.campaign], v), CostOf(db, op.attempt),
                   Join(TallyOf(h.filed, op.attempt), Share(Filed(op.attempt, CaseOf(db, l.operation), o.receipt.value))))
  {
    hide Sound, Pinned, VerifySettlement, PartiesApart, Lifecycle, Pointers, Counters, Books;
    hide SettledAttempt, EvidenceFits, SettleEffect, Holds, Share, Join, TallyOf, Backed, Lawful;
    var op := h.db.operations[l.operation];
    var k := CaseOf(h.db, l.operation);
    LeasedRows(h.db, l, now);
    CaseSound(p, h.db, l.operation);
    AcceptedShape(p, k, o, signed);
    AcceptedBacked(p, op, k, o, signed, op.attempt);
    assert WithinLimits(h.db.campaigns[op.campaign]) && Lawful(h.db.attempts[op.attempt], CostOf(h.db, op.attempt), TallyOf(h.filed, op.attempt));
    SettledLawful(op, h.db.attempts[op.attempt], h.db.campaigns[op.campaign], CostOf(h.db, op.attempt),
      VerifySettlement(p, k, o, signed).value, TallyOf(h.filed, op.attempt), Share(Filed(op.attempt, k, o.receipt.value)));
  }

  lemma CommittedEffect(p: Policy, h: History, l: Lease, o: ChainObservation, signed: seq<Byte>, now: int)
    requires ForeignKeys(h.db) && Commits(p, h.db, Present(l, o, signed), now)
    ensures l.operation < |h.db.operations| && VerifySettlement(p, CaseOf(h.db, l.operation), o, signed).Some? && o.receipt.Some?
    ensures var v := VerifySettlement(p, CaseOf(h.db, l.operation), o, signed).value;
            var h' := Perform(p, h, Present(l, o, signed), now);
            && h'.db == SettleEffect(h.db, l.operation, v) && h'.db == After(h.db, Settle(h.db, l, v, now))
            && h'.filed == h.filed + [Filed(h.db.operations[l.operation].attempt, CaseOf(h.db, l.operation), o.receipt.value)]
  {
    hide ForeignKeys, VerifySettlement, EvidenceFits, SettleEffect, Holds;
    AcceptedShape(p, CaseOf(h.db, l.operation), o, signed);
  }

  lemma SettleKeepsLaw(p: Policy, h: History, l: Lease, o: ChainObservation, signed: seq<Byte>, now: int)
    requires LawfulHistory(p, h) && Commits(p, h.db, Present(l, o, signed), now)
    ensures LawfulHistory(p, Perform(p, h, Present(l, o, signed), now))
  {
    hide Inv, Pinned, VerifySettlement, Commits, Perform, Settle, SettleEffect, SettledAttempt, AllLawful, FiledKnown, Lawful;
    hide ForeignKeys, TallyOf, Join, Share, Evolves;
    KeysOf(h.db);
    CommittedEffect(p, h, l, o, signed, now);
    var v := VerifySettlement(p, CaseOf(h.db, l.operation), o, signed).value;
    SettleAdvances(p, h.db, l, v, now);
    KeysOf(Perform(p, h, Present(l, o, signed), now).db);
    SettlementLaw(p, h, l, o, signed, now);
    SettleMoves(h.db, l.operation, v);
    LawMoves(h.db, SettleEffect(h.db, l.operation, v), h.filed,
      Filed(h.db.operations[l.operation].attempt, CaseOf(h.db, l.operation), o.receipt.value));
  }

  // ------------------------------------------------------------------------ runs

  lemma PerformKeys(p: Policy, h: History, act: Act, now: int)
    requires ForeignKeys(h.db)
    ensures ForeignKeys(Perform(p, h, act, now).db)
  {
    hide ForeignKeys, VerifySettlement, Apply, Settle;
    match act {
      case Other(step) =>
        KeysKept(p, h.db, step, now);
      case Present(l, o, signed) =>
        if Presented(p, h.db, act).Some? { SettleKeys(h.db, l, Presented(p, h.db, act).value, now); }
    }
  }

  ghost function Live(p: Policy, h: History, acts: seq<TimedAct>): (r: History)
    requires ForeignKeys(h.db)
    ensures ForeignKeys(r.db)
  {
    if acts == [] then h
    else
      var before := Live(p, h, acts[..|acts| - 1]);
      var last := acts[|acts| - 1];
      PerformKeys(p, before, last.act, last.now);
      Perform(p, before, last.act, last.now)
  }

  lemma OtherActKeepsLaw(p: Policy, h: History, step: Step, now: int)
    requires LawfulHistory(p, h) && !step.DoSettle?
    ensures LawfulHistory(p, h.(db := Apply(p, h.db, step, now)))
  {
    hide Inv, Pinned, Apply, AllLawful, FiledKnown, ForeignKeys;
    KeysOf(h.db);
    StepAdvances(p, h.db, step, now);
    OnlySettleSettles(p, h.db, step, now);
    KeysOf(Apply(p, h.db, step, now));
    AttemptKeysOf(h.db);
    AttemptKeysOf(Apply(p, h.db, step, now));
    OtherKeepsLaw(h, Apply(p, h.db, step, now));
  }

  lemma AttemptKeysOf(db: Db)
    requires ForeignKeys(db)
    ensures AttemptKeys(db)
  {
  }

  lemma ActKeepsLaw(p: Policy, h: History, act: Act, now: int)
    requires LawfulHistory(p, h)
    ensures ForeignKeys(h.db) && LawfulHistory(p, Perform(p, h, act, now))
  {
    hide Inv, Pinned, Apply, VerifySettlement, Settle, AllLawful, FiledKnown, ForeignKeys;
    KeysOf(h.db);
    match act {
      case Other(step) =>
        if !step.DoSettle? { OtherActKeepsLaw(p, h, step, now); }
      case Present(l, o, signed) =>
        if Commits(p, h.db, act, now) { SettleKeepsLaw(p, h, l, o, signed, now); }
    }
  }

  lemma {:induction false} LiveLawful(p: Policy, h: History, acts: seq<TimedAct>)
    requires ForeignKeys(h.db) && LawfulHistory(p, h)
    ensures LawfulHistory(p, Live(p, h, acts))
  {
    hide Good, Perform, AllLawful, FiledKnown, ForeignKeys;
    if acts != [] {
      var last := acts[|acts| - 1];
      LiveLawful(p, h, acts[..|acts| - 1]);
      ActKeepsLaw(p, Live(p, h, acts[..|acts| - 1]), last.act, last.now);
    }
  }

  /** Everything that can have happened since the tables were empty. */
  ghost function LiveFromEmpty(p: Policy, acts: seq<TimedAct>): (r: History)
    ensures ForeignKeys(r.db)
  {
    Live(p, History(EMPTY, []), acts)
  }

  lemma LiveIsLawful(p: Policy, acts: seq<TimedAct>)
    ensures LawfulHistory(p, LiveFromEmpty(p, acts))
  {
    hide Live;
    GoodStarts(p);
    LiveLawful(p, History(EMPTY, []), acts);
  }

  /** A completed attempt, told by its receipts. */
  ghost predicate PaidExactly(db: Db, filed: seq<Filed>, a: Id)
    requires AttemptKeys(db) && a < |db.attempts|
  {
    var row, c, t := db.attempts[a], CostOf(db, a), TallyOf(filed, a);
    row.cost == t.paid + c.domainRent + c.primaryRent + t.fees && row.residual == Some(0)
  }

  lemma LawfulRow(p: Policy, h: History, a: Id)
    requires LawfulHistory(p, h) && a < |h.db.attempts|
    ensures AttemptKeys(h.db) && AttemptOk(h.db.attempts[a]) && Lawful(h.db.attempts[a], CostOf(h.db, a), TallyOf(h.filed, a))
    ensures CostOf(h.db, a).domainRent >= 0 && CostOf(h.db, a).primaryRent >= 0
  {
    hide Sound, Pointers, Counters, Budgets, Books, TallyOf, AttemptsPinned, OperationsPinned, AttemptCustody, OpenLast;
    QuoteCosts(p, h.db, h.db.attempts[a].quote);
  }

  lemma LawfulMeaning(row: Attempt, c: Cost, t: Tally)
    requires AttemptOk(row) && Lawful(row, c, t) && c.domainRent >= 0 && c.primaryRent >= 0
    ensures row.cost == -t.sponsor && ResidualCovered(row)
    ensures row.status.Complete? ==> row.cost == t.paid + c.domainRent + c.primaryRent + t.fees && row.residual == Some(0)
    ensures row.status.Failed? ==> row.cost == t.fees && row.residual == Some(0)
  {
  }

  /**
   * Over every run from the empty tables whose settlements come from accepted evidence, an
   * attempt's cost is minus the sum of the sponsor's balance changes over its receipts; a
   * completed attempt cost the price the registry received, the rents and every fee, and
   * nothing is left with the payer; a failed one cost its fee.
   */
  lemma WholeLifeCost(p: Policy, acts: seq<TimedAct>, a: Id)
    requires a < |LiveFromEmpty(p, acts).db.attempts|
    ensures var h := LiveFromEmpty(p, acts); var row := h.db.attempts[a];
            && row.cost == -TallyOf(h.filed, a).sponsor
            && (row.status.Complete? ==> AttemptKeys(h.db) && PaidExactly(h.db, h.filed, a))
            && (row.status.Failed? ==> row.cost == TallyOf(h.filed, a).fees && row.residual == Some(0))
            && ResidualCovered(row)
  {
    hide LawfulHistory, LiveFromEmpty, TallyOf, AttemptOk, Lawful, ForeignKeys, ResidualCovered;
    LiveIsLawful(p, acts);
    var h := LiveFromEmpty(p, acts);
    LawfulRow(p, h, a);
    LawfulMeaning(h.db.attempts[a], CostOf(h.db, a), TallyOf(h.filed, a));
  }

  lemma LawfulEvidenceSettles(p: Policy, h: History, l: Lease, o: ChainObservation, signed: seq<Byte>, now: int)
    requires LawfulHistory(p, h) && ForeignKeys(h.db) && Fenced(h.db, l, now).None?
    requires h.db.operations[l.operation].signature.Some? && h.db.operations[l.operation].signedPayload.Some?
    requires VerifySettlement(p, CaseOf(h.db, l.operation), o, signed).Some?
    ensures var op, v := h.db.operations[l.operation], VerifySettlement(p, CaseOf(h.db, l.operation), o, signed).value;
            Settle(h.db, l, v, now).Commit? <==> (op.kind.Registration? || v.success || v.residual == op.amount)
  {
    hide Good, AllLawful, FiledKnown, VerifySettlement, Settle, TallyOf, AttemptOk, Lawful;
    var a := h.db.operations[l.operation].attempt;
    LawfulRow(p, h, a);
    assert h.db.attempts[a].quote < |h.db.quotes|;
    LawfulMeaning(h.db.attempts[a], CostOf(h.db, a), TallyOf(h.filed, a));
    VerifiedEvidenceSettles(p, h.db, l, o, signed, now);
  }

  /**
   * Along every such run a live lease on a signed operation plus accepted evidence passes
   * every guard of settle, whatever became of campaign and invite. The one exception is
   * exact: a failed recovery whose payer balance is not the reserved amount.
   */
  lemma EvidenceAlwaysSettles(p: Policy, acts: seq<TimedAct>, l: Lease, o: ChainObservation, signed: seq<Byte>, now: int)
    requires Fenced(LiveFromEmpty(p, acts).db, l, now).None?
    requires LiveFromEmpty(p, acts).db.operations[l.operation].signature.Some?
    requires LiveFromEmpty(p, acts).db.operations[l.operation].signedPayload.Some?
    requires VerifySettlement(p, CaseOf(LiveFromEmpty(p, acts).db, l.operation), o, signed).Some?
    ensures var db := LiveFromEmpty(p, acts).db;
            var op, v := db.operations[l.operation], VerifySettlement(p, CaseOf(db, l.operation), o, signed).value;
            Settle(db, l, v, now).Commit? <==> (op.kind.Registration? || v.success || v.residual == op.amount)
  {
    hide LawfulHistory, LiveFromEmpty, ForeignKeys, VerifySettlement, Settle, Holds;
    LiveIsLawful(p, acts);
    LawfulEvidenceSettles(p, LiveFromEmpty(p, acts), l, o, signed, now);
  }
}
