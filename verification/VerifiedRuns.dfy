/**
 * Runs in which every settlement comes from accepted evidence: such evidence is never
 * refused by the store, and an attempt's cost is exactly what its receipts say the
 * sponsor lost.
 */
module VerifiedRuns {
  import opened Basics
  import opened Registry
  import opened Quotes
  import Builder
  import opened SponsoredMessage
  import opened Database
  import opened Invariant
  import opened ExecutionTx
  import opened Steps
  import opened Pins
  import opened Reachable
  import opened Receipts

  /** A receipt filed with the settlement it led to. */
  datatype Filed = Filed(attempt: Id, facts: Case, receipt: Receipt)

  datatype History = History(db: Db, filed: seq<Filed>)

  /** Any transaction but settle, or a worker presenting evidence under its lease. */
  datatype Act = Other(step: Step) | Present(lease: Lease, observation: ChainObservation, signed: seq<Byte>)

  datatype TimedAct = TimedAct(act: Act, now: int)

  /** The settlement this act would commit now, if its evidence is accepted. */
  function Presented(p: Policy, db: Db, act: Act): Option<Settlement>
    requires ForeignKeys(db)
  {
    if act.Present? && act.lease.operation < |db.operations| then
      VerifySettlement(p, CaseOf(db, act.lease.operation), act.observation, act.signed)
    else None
  }

  predicate Commits(p: Policy, db: Db, act: Act, now: int)
    requires ForeignKeys(db)
  {
    Presented(p, db, act).Some? && Settle(db, act.lease, Presented(p, db, act).value, now).Commit?
  }

  ghost function Perform(p: Policy, h: History, act: Act, now: int): History
    requires ForeignKeys(h.db)
  {
    match act
    case Other(step) => if step.DoSettle? then h else h.(db := Apply(p, h.db, step, now))
    case Present(l, o, signed) =>
      if !Commits(p, h.db, act, now) then h
      else
        var v := Presented(p, h.db, act).value;
        History(Settle(h.db, l, v, now).db,
                h.filed + [Filed(h.db.operations[l.operation].attempt, CaseOf(h.db, l.operation), o.receipt.value)])
  }

  // ------------------------------------------------------------------ case facts

  lemma AdmissibleParties(p: Policy, e: Input)
    requires Admissible(p, e)
    ensures Distinct([e.sponsor, e.attemptPayer, e.user, e.feeReceiver])
    ensures forall k <- [e.sponsor, e.attemptPayer, e.user, e.feeReceiver] :: k != p.domainPda(e.name) && k != p.primaryPda(e.user)
  {
    hide ValidLabel;
    var actors, all := Actors(e), Actors(e) + [e.feeReceiver];
    assert actors[0] != actors[1] && actors[0] != actors[2] && actors[1] != actors[2];
    assert all == [e.sponsor, e.attemptPayer, e.user, e.feeReceiver];
    forall k <- all ensures k != p.domainPda(e.name) && k != p.primaryPda(e.user) {
      Builder.ProtectedApart(p, e, k);
    }
  }

  lemma SoundFacts(p: Policy, q: SponsoredQuote, t: Terms, wallet: Key)
    requires Sound(p, q, t, wallet)
    ensures Admissible(p, MessageInput(q, q.feeReceiver)) && CostWithin(q.cost, t.limits) && q.sponsor == t.sponsor
    ensures q.expected.domain == p.domainPda(q.name) && q.expected.primary == p.primaryPda(q.user)
  {
    hide CanonicalMessage, Admissible;
  }

  lemma SoundParties(p: Policy, q: SponsoredQuote, t: Terms, wallet: Key, k: Case)
    requires Sound(p, q, t, wallet) && k.quote == q && k.sponsor == t.sponsor && k.payer == q.attemptPayer
    ensures PartiesApart(k) && CostWithin(q.cost, t.limits)
  {
    hide Sound, Admissible;
    SoundFacts(p, q, t, wallet);
    AdmissibleParties(p, MessageInput(q, q.feeReceiver));
    var parties := [q.sponsor, q.attemptPayer, q.user, q.feeReceiver];
    assert parties[0] != parties[1];
    assert parties == [k.sponsor, k.payer, q.user, q.feeReceiver];
  }

  /** In a good state an operation's facts name different parties and its quote's own amounts. */
  lemma CaseSound(p: Policy, db: Db, o: Id)
    requires Good(p, db) && o < |db.operations|
    ensures var k, op := CaseOf(db, o), db.operations[o]; var a := db.attempts[op.attempt];
            && PartiesApart(k) && CostWithin(k.quote.cost, db.campaigns[a.campaign].limits)
            && a.reservation == k.quote.cost.maximumReservation
            && (op.kind.Registration? ==> op.feeCap == k.quote.cost.transactionFee && op.amount == k.quote.cost.maxSponsorDebit)
  {
    hide Sound, Lifecycle, Pointers, Counters, Budgets, Books, AttemptCustody, OpenLast;
    var a := db.operations[o].attempt;
    var q := db.quotes[db.attempts[a].quote];
    assert AttemptPinned(db.attempts[a], q.payload) && OperationPinned(db.operations[o], q.payload);
    assert Sound(p, q.payload, TermsOf(db.campaigns[q.campaign]), db.invites[q.invite].wallet);
    SoundParties(p, q.payload, TermsOf(db.campaigns[q.campaign]), db.invites[q.invite].wallet, CaseOf(db, o));
  }

  // --------------------------------------------------- evidence is never refused

  /** What a recovered or still owed residual is covered by. */
  predicate ResidualCovered(a: Attempt) {
    a.residual.Some? ==> a.residual.value <= a.cost
  }

  /** The one shape of accepted evidence the store may refuse: a failed sweep of another balance. */
  predicate BalanceMatches(op: Operation, v: Settlement) {
    op.kind.Recovery? && !v.success ==> v.residual == op.amount
  }

  lemma RegistrationFits(op: Operation, a: Attempt, c: Campaign, k: Case, v: Settlement)
    requires op.kind.Registration? && a.remaining == a.reservation == k.quote.cost.maximumReservation
    requires CostWithin(k.quote.cost, c.limits) && op.feeCap == k.quote.cost.transactionFee && op.amount == k.quote.cost.maxSponsorDebit
    requires 0 <= v.fee <= op.feeCap && v.recovered == 0
    requires if v.success then v.debit == k.quote.cost.registrationPrice + k.quote.cost.domainRent + k.quote.cost.primaryRent + v.fee
             else v.debit == v.fee && v.residual == 0
    ensures EvidenceFits(op, a, c, v)
  {
  }

  lemma RecoveryFitsEvidence(op: Operation, a: Attempt, c: Campaign, v: Settlement)
    requires op.kind.Recovery? && op.amount >= 0 && op.feeCap <= a.remaining && a.residual == Some(op.amount) && ResidualCovered(a)
    requires 0 <= v.fee <= op.feeCap && (v.success ==> v.recovered == op.amount && v.residual == 0) && (!v.success ==> v.recovered == 0)
    ensures EvidenceFits(op, a, c, v) <==> BalanceMatches(op, v)
  {
  }

  lemma AcceptedShape(p: Policy, k: Case, o: ChainObservation, signed: seq<Byte>)
    requires VerifySettlement(p, k, o, signed).Some?
    ensures o.receipt.Some?
    ensures var v := VerifySettlement(p, k, o, signed).value;
            && 0 <= v.fee <= k.feeCap && SafeCounter(v.slot) && v.residual >= 0
            && (k.kind.Recovery? ==> v.debit == v.fee && (if v.success then v.recovered == k.amount && v.residual == 0 else v.recovered == 0))
  {
  }

  /**
   * A live lease on a signed, unresolved operation and evidence its receipt supports:
   * whatever the status of campaign or invite, settle commits, except for a failed
   * recovery whose payer balance is not the amount the recovery was reserved for.
   */
  lemma VerifiedEvidenceSettles(p: Policy, db: Db, l: Lease, o: ChainObservation, signed: seq<Byte>, now: int)
    requires Good(p, db) && Fenced(db, l, now).None?
    requires db.operations[l.operation].signature.Some? && db.operations[l.operation].signedPayload.Some?
    requires ResidualCovered(db.attempts[db.operations[l.operation].attempt])
    requires VerifySettlement(p, CaseOf(db, l.operation), o, signed).Some?
    ensures var op, v := db.operations[l.operation], VerifySettlement(p, CaseOf(db, l.operation), o, signed).value;
            Settle(db, l, v, now).Commit? <==> (op.kind.Registration? || v.success || v.residual == op.amount)
  {
    hide Sound, Lifecycle, Pointers, Counters, Budgets, Books, Pinned, VerifySettlement, CostWithin, EvidenceFits, PartiesApart, Holds;
    var op := db.operations[l.operation];
    var a := db.attempts[op.attempt];
    var k := CaseOf(db, l.operation);
    var v := VerifySettlement(p, k, o, signed).value;
    LeasedRows(db, l, now);
    PointerOf(db, op.attempt);
    CaseSound(p, db, l.operation);
    AcceptedShape(p, k, o, signed);
    hide Inv, Good, PartiesApart;
    if op.kind.Registration? {
      SplitOf(p, k, o, signed);
      RegistrationFits(op, a, db.campaigns[a.campaign], k, v);
    } else {
      RecoveryFitsEvidence(op, a, db.campaigns[a.campaign], v);
    }
  }

  lemma SplitOf(p: Policy, k: Case, o: ChainObservation, signed: seq<Byte>)
    requires VerifySettlement(p, k, o, signed).Some? && k.kind.Registration? && PartiesApart(k)
    ensures var v, c := VerifySettlement(p, k, o, signed).value, k.quote.cost;
            && v.recovered == 0 && (v.success ==> v.debit == c.registrationPrice + c.domainRent + c.primaryRent + v.fee)
            && (!v.success ==> v.debit == v.fee && v.residual == 0)
  {
    RegistrationSplit(p, k, o, signed);
  }

  lemma PointerOf(db: Db, a: Id)
    requires ForeignKeys(db) && Pointers(db) && a < |db.attempts| && !Terminal(db.attempts[a].status)
    ensures db.invites[db.attempts[a].invite].active == Some(a)
  {
  }
}
