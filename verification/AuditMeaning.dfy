/** What each finding of the report means, for any snapshot whatever: it is listed exactly when the rows show what it names. */
module AuditMeaning {
  import opened Basics
  import opened Database
  import opened Ledger
  import opened Accounting

  // ---------------------------------------------------------------- rows, not maps

  /** The row a key names: the last one that carries it. */
  ghost predicate Named<T(!new)>(rows: seq<Row<T>>, k: int, id: Id) {
    0 <= k < |rows| && rows[k].id == id && forall j :: k < j < |rows| ==> rows[j].id != id
  }

  ghost predicate Missing<T(!new)>(rows: seq<Row<T>>, id: Id) {
    forall k :: 0 <= k < |rows| ==> rows[k].id != id
  }

  lemma {:induction false} NamedLookup<T(!new)>(rows: seq<Row<T>>, id: Id)
    ensures Lookup(rows, id).None? <==> Missing(rows, id)
    ensures Lookup(rows, id).Some? ==> exists k :: Named(rows, k, id)
    ensures forall k :: Named(rows, k, id) ==> Lookup(rows, id) == Some(rows[k].value)
  {
    if rows != [] {
      var n := |rows| - 1;
      var t := rows[..n];
      NamedLookup(t, id);
      if rows[n].id == id {
        assert Named(rows, n, id);
      } else {
        forall k | Named(rows, k, id) ensures Named(t, k, id) {
        }
        if k :| Named(t, k, id) { assert Named(rows, k, id); }
      }
    }
  }

  predicate RegistersFor(op: Operation, attempt: Id) {
    op.kind == Registration && op.attempt == attempt
  }

  /** The registration on record for an attempt: the last one. */
  ghost predicate RegisteredBy(ops: seq<Row<Operation>>, k: int, attempt: Id) {
    0 <= k < |ops| && RegistersFor(ops[k].value, attempt) && forall j :: k < j < |ops| ==> !RegistersFor(ops[j].value, attempt)
  }

  ghost predicate Unregistered(ops: seq<Row<Operation>>, attempt: Id) {
    forall k :: 0 <= k < |ops| ==> !RegistersFor(ops[k].value, attempt)
  }

  lemma RegisteredSnoc(t: seq<Row<Operation>>, last: Row<Operation>, attempt: Id, k: int)
    ensures RegisteredBy(t + [last], k, attempt)
            <==> if RegistersFor(last.value, attempt) then k == |t| else RegisteredBy(t, k, attempt)
  {
    var ops := t + [last];
    assert forall j :: 0 <= j < |t| ==> ops[j] == t[j];
    assert ops[|t|] == last;
  }

  lemma {:induction false} RegisteredLookup(ops: seq<Row<Operation>>, attempt: Id)
    ensures RegistrationOf(ops, attempt).None? <==> Unregistered(ops, attempt)
    ensures RegistrationOf(ops, attempt).Some? ==> exists k :: RegisteredBy(ops, k, attempt)
    ensures forall k :: RegisteredBy(ops, k, attempt) ==> 0 <= k < |ops| && RegistrationOf(ops, attempt) == Some(ops[k].value)
  {
    if ops != [] {
      var n := |ops| - 1;
      var t := ops[..n];
      RegisteredLookup(t, attempt);
      assert ops == t + [ops[n]];
      forall k ensures RegisteredBy(ops, k, attempt) <==> if RegistersFor(ops[n].value, attempt) then k == n else RegisteredBy(t, k, attempt) {
        RegisteredSnoc(t, ops[n], attempt, k);
      }
      hide RegisteredBy;
      assert Unregistered(ops, attempt) <==> Unregistered(t, attempt) && !RegistersFor(ops[n].value, attempt);
      assert IsRegistration(ops[n].value, attempt) <==> RegistersFor(ops[n].value, attempt);
      if RegistersFor(ops[n].value, attempt) {
        assert RegisteredBy(ops, n, attempt);
      } else if k :| RegisteredBy(t, k, attempt) {
        assert RegisteredBy(ops, k, attempt);
      }
    }
  }

  /** Settled, with evidence in range. */
  predicate Proven(op: Operation) {
    op.status in {Complete, Failed} && op.evidence != None
    && 0 <= op.evidence.value.slot <= 9_007_199_254_740_991 && op.evidence.value.residual >= 0
  }

  predicate ProvenFor(op: Operation, attempt: Id) {
    op.attempt == attempt && Proven(op)
  }

  /** The settlement an attempt must show: the greatest slot, the later row on equal slots. */
  ghost predicate Decisive(ops: seq<Row<Operation>>, k: int, attempt: Id) {
    0 <= k < |ops| && ProvenFor(ops[k].value, attempt)
    && forall j :: 0 <= j < |ops| && ProvenFor(ops[j].value, attempt) ==>
         && ops[j].value.evidence.value.slot <= ops[k].value.evidence.value.slot
         && (k < j ==> ops[j].value.evidence.value.slot < ops[k].value.evidence.value.slot)
  }

  function SlotOf(op: Operation): int {
    if op.evidence == None then 0 else op.evidence.value.slot
  }

  /** A row that proves nothing for the attempt changes nothing. */
  lemma DecisiveOther(t: seq<Row<Operation>>, last: Row<Operation>, attempt: Id, k: int)
    requires !ProvenFor(last.value, attempt)
    ensures Decisive(t + [last], k, attempt) <==> Decisive(t, k, attempt)
  {
    var ops := t + [last];
    assert forall j :: 0 <= j < |t| ==> ops[j] == t[j];
    assert ops[|t|] == last;
  }

  /** A proof no older than all before decides alone. */
  lemma DecisiveNewer(t: seq<Row<Operation>>, last: Row<Operation>, attempt: Id, k: int)
    requires ProvenFor(last.value, attempt)
    requires forall j :: 0 <= j < |t| && ProvenFor(t[j].value, attempt) ==> SlotOf(t[j].value) <= SlotOf(last.value)
    ensures Decisive(t + [last], k, attempt) <==> k == |t|
  {
    var ops := t + [last];
    assert forall j :: 0 <= j < |t| ==> ops[j] == t[j];
    assert ops[|t|] == last;
  }

  /** A proof older than one before leaves the decision where it was. */
  lemma DecisiveOlder(t: seq<Row<Operation>>, last: Row<Operation>, attempt: Id, k: int, best: int)
    requires ProvenFor(last.value, attempt) && Decisive(t, best, attempt) && SlotOf(t[best].value) > SlotOf(last.value)
    ensures Decisive(t + [last], k, attempt) <==> Decisive(t, k, attempt)
  {
    var ops := t + [last];
    assert forall j :: 0 <= j < |t| ==> ops[j] == t[j];
    assert ops[|t|] == last && ops[best] == t[best];
  }

  lemma BestSlot(t: seq<Row<Operation>>, attempt: Id, best: int)
    requires Decisive(t, best, attempt)
    ensures forall j :: 0 <= j < |t| && ProvenFor(t[j].value, attempt) ==> SlotOf(t[j].value) <= SlotOf(t[best].value)
  {
  }

  predicate NoneProven(ops: seq<Row<Operation>>, attempt: Id) {
    forall k :: 0 <= k < |ops| ==> !ProvenFor(ops[k].value, attempt)
  }

  lemma NoneProvenSnoc(t: seq<Row<Operation>>, last: Row<Operation>, attempt: Id)
    ensures NoneProven(t + [last], attempt) <==> NoneProven(t, attempt) && !ProvenFor(last.value, attempt)
  {
    var ops := t + [last];
    assert forall j :: 0 <= j < |t| ==> ops[j] == t[j];
    assert ops[|t|] == last;
  }

  lemma NewerExactly(prior: Option<Latest>, op: Operation)
    ensures Newer(prior, op)
         == if Proven(op) && (prior == None || prior.value.slot <= SlotOf(op)) then Some(Latest(SlotOf(op), op.evidence.value.residual)) else prior
  {
  }

  /** The settlement's amounts at a place. */
  function ShownAt(ops: seq<Row<Operation>>, k: int): Latest
    requires 0 <= k < |ops| && ops[k].value.evidence != None
  {
    Latest(ops[k].value.evidence.value.slot, ops[k].value.evidence.value.residual)
  }

  lemma {:induction false} DecisiveLookup(ops: seq<Row<Operation>>, attempt: Id)
    ensures var l := LatestSettlement(ops, attempt);
            && (l.None? <==> NoneProven(ops, attempt))
            && (l.Some? ==> exists k :: Decisive(ops, k, attempt))
            && (forall k :: Decisive(ops, k, attempt) ==> 0 <= k < |ops| && ops[k].value.evidence != None && l == Some(ShownAt(ops, k)))
  {
    hide Newer, Proven;
    if ops != [] {
      var n := |ops| - 1;
      var t, last := ops[..n], ops[n];
      DecisiveLookup(t, attempt);
      assert ops == t + [last];
      NoneProvenSnoc(t, last, attempt);
      NewerExactly(LatestSettlement(t, attempt), last.value);
      DecisiveStep(t, last, attempt);
    }
  }

  /** One more row: the lookup and the decisive row move together. */
  lemma DecisiveStep(t: seq<Row<Operation>>, last: Row<Operation>, attempt: Id)
    requires var l := LatestSettlement(t, attempt);
             && (l.None? <==> NoneProven(t, attempt))
             && (l.Some? ==> exists k :: Decisive(t, k, attempt))
             && (forall k :: Decisive(t, k, attempt) ==> 0 <= k < |t| && t[k].value.evidence != None && l == Some(ShownAt(t, k)))
    ensures var ops := t + [last]; var l := LatestSettlement(ops, attempt);
            && (l.Some? ==> exists k :: Decisive(ops, k, attempt))
            && (forall k :: Decisive(ops, k, attempt) ==> 0 <= k < |ops| && ops[k].value.evidence != None && l == Some(ShownAt(ops, k)))
  {
    hide Newer, Decisive, Proven;
    var ops := t + [last];
    assert ops[..|ops| - 1] == t && ops[|t|] == last;
    assert forall j :: 0 <= j < |t| ==> ops[j] == t[j];
    NewerExactly(LatestSettlement(t, attempt), last.value);
    if !ProvenFor(last.value, attempt) {
      forall k ensures Decisive(ops, k, attempt) <==> Decisive(t, k, attempt) {
        DecisiveOther(t, last, attempt, k);
      }
    } else if best :| Decisive(t, best, attempt) {
      BestSlot(t, attempt, best);
      ProvenSlot(last.value);
      if SlotOf(t[best].value) <= SlotOf(last.value) {
        forall k ensures Decisive(ops, k, attempt) <==> k == |t| {
          DecisiveNewer(t, last, attempt, k);
        }
        assert Decisive(ops, |t|, attempt);
      } else {
        forall k ensures Decisive(ops, k, attempt) <==> Decisive(t, k, attempt) {
          DecisiveOlder(t, last, attempt, k, best);
        }
      }
    } else {
      ProvenSlot(last.value);
      forall k ensures Decisive(ops, k, attempt) <==> k == |t| {
        DecisiveNewer(t, last, attempt, k);
      }
      assert Decisive(ops, |t|, attempt);
    }
  }

  lemma ProvenSlot(op: Operation)
    requires Proven(op)
    ensures op.evidence != None
  {
  }

  // -------------------------------------------------------------- what is wrong, by finding

  predicate Plain(f: Finding) {
    f.expected == None && f.actual == None
  }

  predicate Differ(f: Finding, expected: int, actual: int) {
    f.expected == Some(expected) && f.actual == Some(actual) && expected != actual
  }

  /** The operation a ledger row names, when it is this attempt's. */
  ghost predicate Linked(s: Sheet, e: Entry, j: int) {
    e.operation != None && Named(s.operations, j, e.operation.value) && s.operations[j].value.attempt == e.attempt
  }

  ghost predicate EntryBroken(s: Sheet, e: Entry, problem: Problem) {
    match problem
    case LedgerAttemptMissing => Missing(s.attempts, e.attempt)
    case LedgerOperationIdentityMismatch => e.operation != None && forall j :: !Linked(s, e, j)
    case LedgerOperationRequired =>
      e.operation == None && e.kind != Reserve
      && !(e.kind == Release && exists j :: Named(s.attempts, j, e.attempt) && s.attempts[j].value.status == Expired)
    case _ => exists j :: Linked(s, e, j) && LinkBroken(e, s.operations[j].value, problem)
  }

  ghost predicate OperationBroken(s: Sheet, id: Id, op: Operation, f: Finding) {
    var x := SumsOf(s.entries, OfOperation(id));
    var settled, complete := op.status in {Complete, Failed}, op.fee != None && op.debit != None && op.recovered != None;
    match f.problem
    case OperationAttemptMissing => Plain(f) && Missing(s.attempts, op.attempt)
    case OperationFinalizedEvidenceMissing =>
      Plain(f) && settled && (op.signature == None || !Proven(op) || op.evidence.value.success != (op.status == Complete))
    case OperationSettlementAmountMissing => Plain(f) && settled && !complete
    case OperationUnsettledAmounts => Plain(f) && !settled && (op.fee != None || op.debit != None || op.recovered != None)
    case _ => settled && complete && AmountBroken(op, x, f)
  }

  /** Some registration on record stands in this status. */
  ghost predicate Registered(s: Sheet, id: Id, status: Status) {
    exists k :: RegisteredBy(s.operations, k, id) && s.operations[k].value.status == status
  }

  predicate Over(a: Attempt) {
    a.status in {Complete, Failed, Expired}
  }

  /** The money findings of an attempt. */
  ghost predicate MoneyBroken(s: Sheet, id: Id, a: Attempt, f: Finding) {
    var x, first := SumsOf(s.entries, OfAttempt(id)), SumsOf(s.entries, Initial(id));
    var held, spent := x.reserve - x.release - x.debit - x.fee, x.debit + x.fee - x.recovery;
    match f.problem
    case AttemptLedgerHeldMismatch => Differ(f, held, a.remaining)
    case AttemptLedgerSpentMismatch => Differ(f, spent, a.cost)
    case AttemptNegativeAccounting => Plain(f) && (held < 0 || spent < 0)
    case AttemptInitialReservationCount => Differ(f, 1, first.count)
    case AttemptInitialReservationMismatch => Differ(f, a.reservation, first.reserve)
    case _ => false
  }

  /** The findings on an attempt's invite, registration and funds. */
  ghost predicate StandingBroken(s: Sheet, id: Id, a: Attempt, problem: Problem) {
    match problem
    case AttemptInvitePointerMismatch =>
      || Missing(s.invites, a.invite)
      || exists k :: Named(s.invites, k, a.invite) && (s.invites[k].value.active == Some(id)) == Over(a)
    case AttemptConsumedInviteMismatch =>
      Registered(s, id, Complete)
      && (Missing(s.invites, a.invite) || exists k :: Named(s.invites, k, a.invite) && s.invites[k].value.status != Consumed)
    case AttemptTerminalFundsUnresolved => Over(a) && (a.remaining != 0 || (a.residual != None && a.residual.value != 0))
    case AttemptPreparedAuthorized => a.status == Prepared && !Unregistered(s.operations, id)
    case AttemptRegistrationMissing => a.status !in {Prepared, Expired} && Unregistered(s.operations, id)
    case AttemptSuccessUnverified => a.status in {Complete, Finalized} && !Registered(s, id, Complete)
    case AttemptFailureUnverified => a.status == Failed && !Registered(s, id, Failed)
    case AttemptRegistrationSignatureMismatch =>
      exists k :: RegisteredBy(s.operations, k, id) && s.operations[k].value.signature != a.signature
    case _ => false
  }

  /** The findings on what an attempt shows of its latest settlement. */
  ghost predicate ShownBroken(s: Sheet, id: Id, a: Attempt, f: Finding) {
    exists k :: Decisive(s.operations, k, id) && ShowsOtherThan(a, s.operations[k].value.evidence.value, f)
  }

  predicate ShowsOtherThan(a: Attempt, e: Evidence, f: Finding) {
    match f.problem
    case AttemptVerifiedSlotMissing => Plain(f) && a.slot == None
    case AttemptVerifiedSlotMismatch => a.slot != None && Differ(f, e.slot, a.slot.value)
    case AttemptResidualEvidenceMissing => Plain(f) && a.residual == None
    case AttemptResidualEvidenceMismatch => a.residual != None && Differ(f, e.residual, a.residual.value)
    case _ => false
  }

  ghost predicate AttemptBroken(s: Sheet, id: Id, a: Attempt, f: Finding) {
    MoneyBroken(s, id, a, f) || (Plain(f) && StandingBroken(s, id, a, f.problem)) || ShownBroken(s, id, a, f)
  }

  /** Seats and passes, counted over the rows. */
  ghost predicate PassRow(s: Sheet, k: int) {
    0 <= k < |s.attempts| && Registered(s, s.attempts[k].id, Complete)
  }

  ghost predicate SeatRow(s: Sheet, k: int) {
    0 <= k < |s.attempts| && !Registered(s, s.attempts[k].id, Complete) && !Over(s.attempts[k].value)
  }

  ghost function Passes(s: Sheet): nat {
    |PassRows(s, |s.attempts|)|
  }

  ghost function Seats(s: Sheet): nat {
    |SeatRows(s, |s.attempts|)|
  }

  function HeldBy(rows: seq<Row<Attempt>>): int {
    if rows == [] then 0 else HeldBy(rows[..|rows| - 1]) + rows[|rows| - 1].value.remaining
  }

  function CostOf(rows: seq<Row<Attempt>>): int {
    if rows == [] then 0 else CostOf(rows[..|rows| - 1]) + rows[|rows| - 1].value.cost
  }

  function LeftOn(rows: seq<Row<Attempt>>): int {
    if rows == [] then 0
    else LeftOn(rows[..|rows| - 1]) + (if rows[|rows| - 1].value.residual == None then 0 else rows[|rows| - 1].value.residual.value)
  }

  ghost function ConsumedInvites(rows: seq<Row<Invite>>): nat {
    |set k | 0 <= k < |rows| && rows[k].value.status == Consumed|
  }

  ghost predicate CampaignBroken(s: Sheet, f: Finding) {
    TotalsBroken(s.campaign, SumsOf(s.entries, All), HeldBy(s.attempts), CostOf(s.attempts), Seats(s), Passes(s), ConsumedInvites(s.invites), f)
  }

  ghost predicate InviteBroken(s: Sheet, id: Id, i: Invite, f: Finding) {
    && f.problem == InviteActiveAttemptMismatch && Plain(f) && i.active != None
    && (Missing(s.attempts, i.active.value)
        || exists k :: Named(s.attempts, k, i.active.value) && (s.attempts[k].value.invite != id || Over(s.attempts[k].value)))
  }

  /** The rows show what the finding says. */
  ghost predicate Broken(s: Sheet, f: Finding) {
    || (f.id < |s.entries| && Plain(f) && EntryBroken(s, s.entries[f.id], f.problem))
    || (exists k :: 0 <= k < |s.operations| && s.operations[k].id == f.id && OperationBroken(s, f.id, s.operations[k].value, f))
    || (exists k :: 0 <= k < |s.attempts| && s.attempts[k].id == f.id && AttemptBroken(s, f.id, s.attempts[k].value, f))
    || (f.id == s.id && CampaignBroken(s, f))
    || (exists k :: 0 <= k < |s.invites| && s.invites[k].id == f.id && InviteBroken(s, f.id, s.invites[k].value, f))
  }

  // ------------------------------------------------------------------ row by row

  /** Findings on a row whose operation is on record and its own. */
  predicate LinkBroken(e: Entry, op: Operation, problem: Problem) {
    match problem
    case LedgerOperationSignatureMismatch => e.kind != Reserve && e.signature != op.signature
    case LedgerUnexpectedOperationReserve => e.kind == Reserve && op.kind != Recovery
    case LedgerUnsettledOperation => e.kind != Reserve && op.status !in {Complete, Failed}
    case LedgerUnverifiedRecovery => e.kind == Recover && (op.kind != Recovery || op.status != Complete)
    case LedgerUnexpectedDebit => e.kind == Debit && op.kind != Registration
    case _ => false
  }

  lemma InLink(e: Entry, k: Id, op: Operation, f: Finding)
    ensures f in LinkedEntryFindings(e, k, op) <==> f.id == k && Plain(f) && LinkBroken(e, op, f.problem)
  {
  }

  lemma LinkedBroken(s: Sheet, e: Entry, problem: Problem, at: int)
    requires Linked(s, e, at) && problem != LedgerAttemptMissing
    ensures EntryBroken(s, e, problem) <==> LinkBroken(e, s.operations[at].value, problem)
  {
    assert forall j :: Linked(s, e, j) ==> j == at;
  }

  lemma UnlinkedBroken(s: Sheet, e: Entry, problem: Problem)
    requires (forall j :: !Linked(s, e, j)) && problem !in {LedgerAttemptMissing, LedgerOperationRequired}
    ensures EntryBroken(s, e, problem) <==> problem == LedgerOperationIdentityMismatch && e.operation != None
  {
  }

  lemma InEntry(s: Sheet, k: Id, f: Finding)
    requires k < |s.entries|
    ensures var e := s.entries[k];
            f in EntryFindings(k, e, Lookup(s.attempts, e.attempt), OperationAt(s, e.operation))
            <==> f.id == k && Plain(f) && EntryBroken(s, e, f.problem)
  {
    hide Lookup, Named, Missing, LinkedEntryFindings, LinkBroken;
    var e := s.entries[k];
    NamedLookup(s.attempts, e.attempt);
    if e.operation.Some? {
      NamedLookup(s.operations, e.operation.value);
      var op := Lookup(s.operations, e.operation.value);
      if op.Some? && op.value.attempt == e.attempt {
        var j :| Named(s.operations, j, e.operation.value);
        assert Linked(s, e, j) by { NamedPlace(s.operations, j, e.operation.value); }
        InLink(e, k, op.value, f);
        LinkOnly(e, op.value, f.problem);
        if f.problem != LedgerAttemptMissing { LinkedBroken(s, e, f.problem, j); }
      } else {
        forall j ensures !Linked(s, e, j) {
          if Named(s.operations, j, e.operation.value) { NamedPlace(s.operations, j, e.operation.value); }
        }
        if f.problem !in {LedgerAttemptMissing, LedgerOperationRequired} { UnlinkedBroken(s, e, f.problem); }
      }
    } else if f.problem !in {LedgerAttemptMissing, LedgerOperationRequired} {
      UnlinkedBroken(s, e, f.problem);
    }
  }

  lemma NamedPlace<T(!new)>(rows: seq<Row<T>>, k: int, id: Id)
    requires Named(rows, k, id)
    ensures 0 <= k < |rows|
  {
  }

  lemma LinkOnly(e: Entry, op: Operation, problem: Problem)
    ensures LinkBroken(e, op, problem) ==> problem !in {LedgerAttemptMissing, LedgerOperationIdentityMismatch, LedgerOperationRequired}
  {
  }

  lemma InAmounts(op: Operation, id: Id, x: Sums, f: Finding)
    requires op.status in {Complete, Failed} && op.fee != None && op.debit != None && op.recovered != None
    ensures f in AmountFindings(op, id, x, op.fee.value, op.debit.value, op.recovered.value) <==> f.id == id && AmountBroken(op, x, f)
  {
  }

  /** The findings on a settled operation's amounts. */
  predicate AmountBroken(op: Operation, x: Sums, f: Finding)
    requires op.fee != None && op.debit != None && op.recovered != None
  {
    var fee, debit, recovered := op.fee.value, op.debit.value, op.recovered.value;
    match f.problem
    case OperationLedgerFeeMismatch => Differ(f, fee, x.fee)
    case OperationLedgerDebitMismatch => Differ(f, if op.kind == Registration then debit - fee else 0, x.debit)
    case OperationLedgerRecoveryMismatch => Differ(f, recovered, x.recovery)
    case OperationCostExceedsPolicy => Plain(f) && (fee > op.feeCap || debit < fee || (op.kind == Registration && debit > op.amount))
    case OperationSettlementAmountInvalid =>
      Plain(f)
      && (|| (op.kind == Registration && recovered != 0) || (op.kind == Recovery && debit != fee)
          || (op.kind == Recovery && op.status == Complete && recovered != op.amount)
          || (op.status == Failed && (recovered != 0 || debit != fee)))
    case _ => false
  }

  lemma AmountOnly(op: Operation, x: Sums, f: Finding)
    requires op.fee != None && op.debit != None && op.recovered != None && AmountBroken(op, x, f)
    ensures f.problem !in {OperationAttemptMissing, OperationFinalizedEvidenceMissing, OperationSettlementAmountMissing, OperationUnsettledAmounts}
  {
  }

  lemma InOperation(s: Sheet, row: Row<Operation>, f: Finding)
    ensures f in OperationFindings(row.id, row.value, Lookup(s.attempts, row.value.attempt), SumsOf(s.entries, OfOperation(row.id)))
            <==> f.id == row.id && OperationBroken(s, row.id, row.value, f)
  {
    hide Lookup, Named, Missing, SumsOf, AmountFindings, AmountBroken;
    NamedLookup(s.attempts, row.value.attempt);
    var op := row.value;
    if op.status in {Complete, Failed} && op.fee.Some? && op.debit.Some? && op.recovered.Some? {
      InAmounts(op, row.id, SumsOf(s.entries, OfOperation(row.id)), f);
      if AmountBroken(op, SumsOf(s.entries, OfOperation(row.id)), f) { AmountOnly(op, SumsOf(s.entries, OfOperation(row.id)), f); }
    }
  }

  lemma InMoney(s: Sheet, id: Id, a: Attempt, f: Finding)
    ensures f in MoneyFindings(a, id, SumsOf(s.entries, OfAttempt(id)), SumsOf(s.entries, Initial(id)))
            <==> f.id == id && MoneyBroken(s, id, a, f)
  {
    hide SumsOf;
  }

  lemma InIssue(raised: bool, problem: Problem, id: Id, f: Finding)
    ensures f in IssueIf(raised, problem, id) <==> raised && f.problem == problem && f.id == id && Plain(f)
  {
  }

  lemma InTwo<T>(a: seq<T>, b: seq<T>, x: T)
    ensures x in a + b <==> x in a || x in b
  {
  }

  lemma InParts<T>(a: seq<T>, b: seq<T>, c: seq<T>, d: seq<T>, e: seq<T>, f: seq<T>, g: seq<T>, h: seq<T>, x: T)
    ensures x in a + b + c + d + e + f + g + h <==> x in a || x in b || x in c || x in d || x in e || x in f || x in g || x in h
  {
    InTwo(a, b, x);
    InTwo(a + b, c, x);
    InTwo(a + b + c, d, x);
    InTwo(a + b + c + d, e, x);
    InTwo(a + b + c + d + e, f, x);
    InTwo(a + b + c + d + e + f, g, x);
    InTwo(a + b + c + d + e + f + g, h, x);
  }

  /** Eight issues in a row raise a finding exactly where its own condition holds. */
  lemma InIssues(
    pointer: bool, invite: bool, funds: bool, prepared: bool, missing: bool, success: bool, failure: bool, signature: bool, id: Id, f: Finding)
    ensures f in IssueIf(pointer, AttemptInvitePointerMismatch, id)
                 + IssueIf(invite, AttemptConsumedInviteMismatch, id)
                 + IssueIf(funds, AttemptTerminalFundsUnresolved, id)
                 + IssueIf(prepared, AttemptPreparedAuthorized, id)
                 + IssueIf(missing, AttemptRegistrationMissing, id)
                 + IssueIf(success, AttemptSuccessUnverified, id)
                 + IssueIf(failure, AttemptFailureUnverified, id)
                 + IssueIf(signature, AttemptRegistrationSignatureMismatch, id)
            <==> f.id == id && Plain(f)
                 && (|| (pointer && f.problem == AttemptInvitePointerMismatch)
                     || (invite && f.problem == AttemptConsumedInviteMismatch)
                     || (funds && f.problem == AttemptTerminalFundsUnresolved)
                     || (prepared && f.problem == AttemptPreparedAuthorized)
                     || (missing && f.problem == AttemptRegistrationMissing)
                     || (success && f.problem == AttemptSuccessUnverified)
                     || (failure && f.problem == AttemptFailureUnverified)
                     || (signature && f.problem == AttemptRegistrationSignatureMismatch))
  {
    hide IssueIf, Plain;
    InParts(IssueIf(pointer, AttemptInvitePointerMismatch, id),
            IssueIf(invite, AttemptConsumedInviteMismatch, id),
            IssueIf(funds, AttemptTerminalFundsUnresolved, id),
            IssueIf(prepared, AttemptPreparedAuthorized, id),
            IssueIf(missing, AttemptRegistrationMissing, id),
            IssueIf(success, AttemptSuccessUnverified, id),
            IssueIf(failure, AttemptFailureUnverified, id),
            IssueIf(signature, AttemptRegistrationSignatureMismatch, id), f);
    InIssue(pointer, AttemptInvitePointerMismatch, id, f);
    InIssue(invite, AttemptConsumedInviteMismatch, id, f);
    InIssue(funds, AttemptTerminalFundsUnresolved, id, f);
    InIssue(prepared, AttemptPreparedAuthorized, id, f);
    InIssue(missing, AttemptRegistrationMissing, id, f);
    InIssue(success, AttemptSuccessUnverified, id, f);
    InIssue(failure, AttemptFailureUnverified, id, f);
    InIssue(signature, AttemptRegistrationSignatureMismatch, id, f);
  }

  lemma InStanding(s: Sheet, id: Id, a: Attempt, f: Finding)
    ensures f in StandingFindings(a, id, RegistrationOf(s.operations, id), Lookup(s.invites, a.invite))
            <==> f.id == id && Plain(f) && StandingBroken(s, id, a, f.problem)
  {
    hide Lookup, Named, Missing, RegistrationOf, RegisteredBy, Unregistered, IssueIf, PointerWrong, RegisteredAs, Plain, StandingBroken, ResidualOr0;
    var r, i := RegistrationOf(s.operations, id), Lookup(s.invites, a.invite);
    InIssues(PointerWrong(a, id, i), RegisteredAs(r, Complete) && (i.None? || !i.value.status.Consumed?),
             Terminal(a.status) && (a.remaining != 0 || ResidualOr0(a) != 0), a.status.Prepared? && r.Some?,
             !a.status.Prepared? && !a.status.Expired? && r.None?, (a.status.Complete? || a.status.Finalized?) && !RegisteredAs(r, Complete),
             a.status.Failed? && !RegisteredAs(r, Failed), r.Some? && r.value.signature != a.signature, id, f);
    StandingConditions(s, id, a, f.problem);
  }

  lemma StandingConditions(s: Sheet, id: Id, a: Attempt, problem: Problem)
    ensures var r, i := RegistrationOf(s.operations, id), Lookup(s.invites, a.invite);
            StandingBroken(s, id, a, problem)
            <==> || (PointerWrong(a, id, i) && problem == AttemptInvitePointerMismatch)
                 || (RegisteredAs(r, Complete) && (i.None? || !i.value.status.Consumed?) && problem == AttemptConsumedInviteMismatch)
                 || (Terminal(a.status) && (a.remaining != 0 || ResidualOr0(a) != 0) && problem == AttemptTerminalFundsUnresolved)
                 || (a.status.Prepared? && r.Some? && problem == AttemptPreparedAuthorized)
                 || (!a.status.Prepared? && !a.status.Expired? && r.None? && problem == AttemptRegistrationMissing)
                 || ((a.status.Complete? || a.status.Finalized?) && !RegisteredAs(r, Complete) && problem == AttemptSuccessUnverified)
                 || (a.status.Failed? && !RegisteredAs(r, Failed) && problem == AttemptFailureUnverified)
                 || (r.Some? && r.value.signature != a.signature && problem == AttemptRegistrationSignatureMismatch)
  {
    hide Lookup, Named, Missing, RegistrationOf, RegisteredBy, Unregistered;
    NamedLookup(s.invites, a.invite);
    RegisteredLookup(s.operations, id);
  }

  lemma InShown(s: Sheet, id: Id, a: Attempt, f: Finding)
    ensures f in EvidenceFindings(a, id, LatestSettlement(s.operations, id)) <==> f.id == id && ShownBroken(s, id, a, f)
  {
    hide LatestSettlement, Decisive;
    DecisiveLookup(s.operations, id);
  }

  lemma InAttempt(s: Sheet, row: Row<Attempt>, f: Finding)
    ensures f in AttemptFindings(row.id, row.value, ContextOf(s, row.id, row.value)) <==> f.id == row.id && AttemptBroken(s, row.id, row.value, f)
  {
    hide MoneyFindings, StandingFindings, EvidenceFindings, MoneyBroken, StandingBroken, ShownBroken, SumsOf, Lookup, RegistrationOf, LatestSettlement;
    InMoney(s, row.id, row.value, f);
    InStanding(s, row.id, row.value, f);
    InShown(s, row.id, row.value, f);
  }

  lemma InInvite(s: Sheet, row: Row<Invite>, f: Finding)
    ensures f in InviteFindings(row.id, row.value, AttemptAt(s, row.value.active)) <==> f.id == row.id && InviteBroken(s, row.id, row.value, f)
  {
    hide Lookup, Named, Missing;
    if row.value.active.Some? { NamedLookup(s.attempts, row.value.active.value); }
  }

  // ----------------------------------------------------------------------- the counts

  ghost function PassRows(s: Sheet, upto: nat): set<int> {
    set k | 0 <= k < upto && PassRow(s, k)
  }

  ghost function SeatRows(s: Sheet, upto: nat): set<int> {
    set k | 0 <= k < upto && SeatRow(s, k)
  }

  lemma RowsStep(s: Sheet, upto: nat)
    requires upto > 0
    ensures |PassRows(s, upto)| == |PassRows(s, upto - 1)| + (if PassRow(s, upto - 1) then 1 else 0)
    ensures |SeatRows(s, upto)| == |SeatRows(s, upto - 1)| + (if SeatRow(s, upto - 1) then 1 else 0)
  {
    hide PassRow, SeatRow;
    var n := upto - 1;
    assert PassRows(s, upto) == if PassRow(s, n) then PassRows(s, n) + {n} else PassRows(s, n);
    assert SeatRows(s, upto) == if SeatRow(s, n) then SeatRows(s, n) + {n} else SeatRows(s, n);
  }

  lemma {:induction false} CountedRows(s: Sheet, upto: nat)
    requires upto <= |s.attempts|
    ensures var n := CountUp(s, upto);
            && n.held == HeldBy(s.attempts[..upto]) && n.spent == CostOf(s.attempts[..upto]) && n.residual == LeftOn(s.attempts[..upto])
            && n.consumedUsers == |PassRows(s, upto)| && n.reservedUsers == |SeatRows(s, upto)|
  {
    hide RegistrationOf, Registered, PassRows, SeatRows;
    if upto == 0 {
      NoRows(s);
      assert s.attempts[..0] == [];
    } else {
      var n := upto - 1;
      CountedRows(s, n);
      assert s.attempts[..upto][..n] == s.attempts[..n];
      RegisteredStatus(s, s.attempts[n].id);
      RowsStep(s, upto);
    }
  }

  lemma NoRows(s: Sheet)
    ensures PassRows(s, 0) == {} && SeatRows(s, 0) == {}
  {
  }

  lemma RegisteredStatus(s: Sheet, id: Id)
    ensures forall status :: RegisteredAs(RegistrationOf(s.operations, id), status) <==> Registered(s, id, status)
  {
    hide RegistrationOf, RegisteredBy;
    RegisteredLookup(s.operations, id);
  }

  lemma {:induction false} ConsumedCounted(rows: seq<Row<Invite>>)
    ensures ConsumedRows(rows) == ConsumedInvites(rows)
  {
    var C := set k | 0 <= k < |rows| && rows[k].value.status == Consumed;
    if rows == [] {
      assert C == {};
    } else {
      var n := |rows| - 1;
      ConsumedCounted(rows[..n]);
      var C0 := set k | 0 <= k < |rows[..n]| && rows[..n][k].value.status == Consumed;
      assert C == if rows[n].value.status == Consumed then C0 + {n} else C0;
    }
  }

  /** The campaign's findings, over whatever its rows add up to. */
  predicate TotalsBroken(c: Campaign, x: Sums, held: int, spent: int, seats: int, passes: int, consumed: int, f: Finding) {
    var heldIn, spentIn := x.reserve - x.release - x.debit - x.fee, x.debit + x.fee - x.recovery;
    match f.problem
    case CampaignLedgerHeldMismatch => Differ(f, heldIn, c.reserved)
    case CampaignLedgerSpentMismatch => Differ(f, spentIn, c.spent)
    case CampaignAttemptHeldMismatch => Differ(f, held, c.reserved)
    case CampaignAttemptSpentMismatch => Differ(f, spent, c.spent)
    case CampaignReservedUsersMismatch => Differ(f, seats, c.reservedUsers)
    case CampaignConsumedUsersMismatch => Differ(f, passes, c.consumedUsers)
    case CampaignConsumedInvitesMismatch => Differ(f, passes, consumed)
    case CampaignReconstructedBudgetInvalid => Plain(f) && (heldIn < 0 || spentIn < 0 || heldIn + spentIn > c.cap)
    case CampaignReconstructedCapacityInvalid => Plain(f) && seats + passes > c.maxUsers
    case _ => false
  }

  lemma InTotals(c: Campaign, id: Id, x: Sums, n: Counted, consumed: int, f: Finding)
    ensures f in CampaignFindings(c, id, x, n, consumed) || f in LimitFindings(c, id, x, n)
            <==> f.id == id && TotalsBroken(c, x, n.held, n.spent, n.reservedUsers, n.consumedUsers, consumed, f)
  {
    hide CampaignFindings, LimitFindings, Differ, Plain;
    InMismatches(c, id, x, n, consumed, f);
    InLimits(c, id, x, n, f);
  }

  lemma InMismatches(c: Campaign, id: Id, x: Sums, n: Counted, consumed: int, f: Finding)
    ensures f in CampaignFindings(c, id, x, n, consumed)
            <==> f.id == id
                 && (|| (f.problem == CampaignLedgerHeldMismatch && Differ(f, HeldIn(x), c.reserved))
                     || (f.problem == CampaignLedgerSpentMismatch && Differ(f, SpentIn(x), c.spent))
                     || (f.problem == CampaignAttemptHeldMismatch && Differ(f, n.held, c.reserved))
                     || (f.problem == CampaignAttemptSpentMismatch && Differ(f, n.spent, c.spent))
                     || (f.problem == CampaignReservedUsersMismatch && Differ(f, n.reservedUsers, c.reservedUsers))
                     || (f.problem == CampaignConsumedUsersMismatch && Differ(f, n.consumedUsers, c.consumedUsers))
                     || (f.problem == CampaignConsumedInvitesMismatch && Differ(f, n.consumedUsers, consumed)))
  {
    hide Compare, Differ;
    InCompare(CampaignLedgerHeldMismatch, id, HeldIn(x), c.reserved, f);
    InCompare(CampaignLedgerSpentMismatch, id, SpentIn(x), c.spent, f);
    InCompare(CampaignAttemptHeldMismatch, id, n.held, c.reserved, f);
    InCompare(CampaignAttemptSpentMismatch, id, n.spent, c.spent, f);
    InCompare(CampaignReservedUsersMismatch, id, n.reservedUsers, c.reservedUsers, f);
    InCompare(CampaignConsumedUsersMismatch, id, n.consumedUsers, c.consumedUsers, f);
    InCompare(CampaignConsumedInvitesMismatch, id, n.consumedUsers, consumed, f);
    var all := CampaignFindings(c, id, x, n, consumed);
    assert all + [] == all;
    InParts(Compare(CampaignLedgerHeldMismatch, id, HeldIn(x), c.reserved),
            Compare(CampaignLedgerSpentMismatch, id, SpentIn(x), c.spent),
            Compare(CampaignAttemptHeldMismatch, id, n.held, c.reserved),
            Compare(CampaignAttemptSpentMismatch, id, n.spent, c.spent),
            Compare(CampaignReservedUsersMismatch, id, n.reservedUsers, c.reservedUsers),
            Compare(CampaignConsumedUsersMismatch, id, n.consumedUsers, c.consumedUsers),
            Compare(CampaignConsumedInvitesMismatch, id, n.consumedUsers, consumed), [], f);
  }

  lemma InLimits(c: Campaign, id: Id, x: Sums, n: Counted, f: Finding)
    ensures f in LimitFindings(c, id, x, n)
            <==> f.id == id && Plain(f)
                 && (|| (f.problem == CampaignReconstructedBudgetInvalid && (HeldIn(x) < 0 || SpentIn(x) < 0 || HeldIn(x) + SpentIn(x) > c.cap))
                     || (f.problem == CampaignReconstructedCapacityInvalid && n.reservedUsers + n.consumedUsers > c.maxUsers))
  {
    hide IssueIf, Plain;
    InIssue(HeldIn(x) < 0 || SpentIn(x) < 0 || HeldIn(x) + SpentIn(x) > c.cap, CampaignReconstructedBudgetInvalid, id, f);
    InIssue(n.reservedUsers + n.consumedUsers > c.maxUsers, CampaignReconstructedCapacityInvalid, id, f);
  }

  lemma InCompare(problem: Problem, id: Id, expected: int, actual: int, f: Finding)
    ensures f in Compare(problem, id, expected, actual) <==> f.problem == problem && f.id == id && Differ(f, expected, actual)
  {
  }

  lemma InCampaign(s: Sheet, f: Finding)
    ensures var all, n := SumsOf(s.entries, All), CountUp(s, |s.attempts|);
            f in CampaignFindings(s.campaign, s.id, all, n, ConsumedRows(s.invites)) || f in LimitFindings(s.campaign, s.id, all, n)
            <==> f.id == s.id && CampaignBroken(s, f)
  {
    hide SumsOf, CountUp, ConsumedRows, PassRows, SeatRows, HeldBy, CostOf, CampaignFindings, LimitFindings, TotalsBroken, ConsumedInvites;
    CountedRows(s, |s.attempts|);
    ConsumedCounted(s.invites);
    assert s.attempts[..|s.attempts|] == s.attempts;
    InTotals(s.campaign, s.id, SumsOf(s.entries, All), CountUp(s, |s.attempts|), ConsumedRows(s.invites), f);
  }

  // --------------------------------------------------------------------- whole tables

  lemma {:induction false} InEntries(s: Sheet, upto: nat, f: Finding)
    requires upto <= |s.entries|
    ensures f in AllEntryFindings(s, upto) <==> f.id < upto && Plain(f) && EntryBroken(s, s.entries[f.id], f.problem)
  {
    hide EntryFindings, EntryBroken, Lookup, OperationAt;
    if upto > 0 {
      InEntries(s, upto - 1, f);
      InEntry(s, upto - 1, f);
    }
  }

  lemma {:induction false} InOperations(s: Sheet, upto: nat, f: Finding)
    requires upto <= |s.operations|
    ensures f in AllOperationFindings(s, upto)
            <==> exists k :: 0 <= k < upto && s.operations[k].id == f.id && OperationBroken(s, f.id, s.operations[k].value, f)
  {
    hide OperationFindings, OperationBroken, Lookup, SumsOf;
    if upto > 0 {
      InOperations(s, upto - 1, f);
      InOperation(s, s.operations[upto - 1], f);
    }
  }

  lemma {:induction false} InAttempts(s: Sheet, upto: nat, f: Finding)
    requires upto <= |s.attempts|
    ensures f in AllAttemptFindings(s, upto)
            <==> exists k :: 0 <= k < upto && s.attempts[k].id == f.id && AttemptBroken(s, f.id, s.attempts[k].value, f)
  {
    hide AttemptFindings, AttemptBroken, ContextOf;
    if upto > 0 {
      InAttempts(s, upto - 1, f);
      InAttempt(s, s.attempts[upto - 1], f);
    }
  }

  lemma {:induction false} InInvites(s: Sheet, upto: nat, f: Finding)
    requires upto <= |s.invites|
    ensures f in AllInviteFindings(s, upto)
            <==> exists k :: 0 <= k < upto && s.invites[k].id == f.id && InviteBroken(s, f.id, s.invites[k].value, f)
  {
    hide InviteFindings, InviteBroken, AttemptAt;
    if upto > 0 {
      InInvites(s, upto - 1, f);
      InInvite(s, s.invites[upto - 1], f);
    }
  }

  /** The report lists a finding, with its expected and actual amounts, exactly when the rows show what it says. */
  lemma ReportExactly(s: Sheet, f: Finding)
    ensures f in Findings(s) <==> Broken(s, f)
  {
    hide AllEntryFindings, AllOperationFindings, AllAttemptFindings, AllInviteFindings, CampaignFindings, LimitFindings;
    hide EntryBroken, OperationBroken, AttemptBroken, InviteBroken, CampaignBroken, SumsOf, CountUp, ConsumedRows;
    InEntries(s, |s.entries|, f);
    InOperations(s, |s.operations|, f);
    InAttempts(s, |s.attempts|, f);
    InInvites(s, |s.invites|, f);
    InCampaign(s, f);
  }

  /** Silence is exactly the absence of everything a finding can say. */
  lemma SilentExactly(s: Sheet)
    ensures Findings(s) == [] <==> forall f :: !Broken(s, f)
  {
    hide Findings, Broken;
    forall f ensures f in Findings(s) <==> Broken(s, f) {
      ReportExactly(s, f);
    }
    if Findings(s) != [] {
      assert Findings(s)[0] in Findings(s);
    }
  }

  // ------------------------------------------------------------- what silence promises

  /** An attempt as a clean report leaves it: its invite, its registration and its funds agree with its status. */
  ghost predicate Stands(s: Sheet, id: Id, a: Attempt) {
    && (exists k :: Named(s.invites, k, a.invite) && (s.invites[k].value.active == Some(id)) == !Over(a))
    && (Registered(s, id, Complete) ==> exists k :: Named(s.invites, k, a.invite) && s.invites[k].value.status == Consumed)
    && (a.status in {Complete, Finalized} ==> Registered(s, id, Complete)) && (a.status == Failed ==> Registered(s, id, Failed))
    && (a.status == Prepared ==> Unregistered(s.operations, id))
    && (a.status !in {Prepared, Expired} ==> exists k :: RegisteredBy(s.operations, k, id))
    && (Over(a) ==> a.remaining == 0 && a.residual in {None, Some(0)})
    && (forall k :: RegisteredBy(s.operations, k, id) ==> s.operations[k].value.signature == a.signature)
  }

  lemma StandsExactly(s: Sheet, id: Id, a: Attempt)
    ensures Stands(s, id, a) <==> forall problem :: !StandingBroken(s, id, a, problem)
  {
    hide Named, RegisteredBy, Unregistered, Missing, Lookup, RegistrationOf;
    NamedLookup(s.invites, a.invite);
    RegisteredLookup(s.operations, id);
    if forall problem :: !StandingBroken(s, id, a, problem) {
      assert !StandingBroken(s, id, a, AttemptInvitePointerMismatch) && !StandingBroken(s, id, a, AttemptConsumedInviteMismatch);
      assert !StandingBroken(s, id, a, AttemptTerminalFundsUnresolved) && !StandingBroken(s, id, a, AttemptPreparedAuthorized);
      assert !StandingBroken(s, id, a, AttemptRegistrationMissing) && !StandingBroken(s, id, a, AttemptSuccessUnverified);
      assert !StandingBroken(s, id, a, AttemptFailureUnverified) && !StandingBroken(s, id, a, AttemptRegistrationSignatureMismatch);
    }
  }

  /** In a clean snapshot every attempt stands. */
  lemma SilenceIsStanding(s: Sheet, k: nat)
    requires Findings(s) == [] && k < |s.attempts|
    ensures Stands(s, s.attempts[k].id, s.attempts[k].value)
  {
    hide Findings, StandingBroken, MoneyBroken, ShownBroken, Stands, CampaignBroken, InviteBroken, OperationBroken, EntryBroken;
    var row := s.attempts[k];
    forall problem ensures !StandingBroken(s, row.id, row.value, problem) {
      var f := Finding(problem, row.id, None, None);
      ReportExactly(s, f);
      assert !AttemptBroken(s, f.id, s.attempts[k].value, f);
    }
    StandsExactly(s, row.id, row.value);
  }

  // ---------------------------------------------------------------------- readability

  /** Nothing a settled operation's test reaches is negative: its amounts, and the cap on them where no earlier test decides. */
  predicate AmountsReadable(op: Operation) {
    op.status in {Complete, Failed} && op.fee != None && op.debit != None && op.recovered != None ==>
      var fee, debit, recovered := op.fee.value, op.debit.value, op.recovered.value;
      && fee >= 0 && debit >= 0 && recovered >= 0 && op.feeCap >= 0
      && (op.kind == Registration && fee <= debit && fee <= op.feeCap ==> op.amount >= 0)
      && (op.kind == Recovery && op.status == Complete && debit == fee ==> op.amount >= 0)
  }

  ghost predicate SlotReadable(s: Sheet, row: Row<Attempt>) {
    row.value.slot != None && !NoneProven(s.operations, row.id) ==> row.value.slot.value >= 0
  }

  /** There is a report exactly when every amount it must read is a natural number. */
  lemma ReadableExactly(s: Sheet)
    ensures Readable(s)
            <==> && s.campaign.cap >= 0 && s.campaign.reserved >= 0 && s.campaign.spent >= 0
                 && (forall k :: 0 <= k < |s.entries| ==> s.entries[k].amount >= 0)
                 && (forall k :: 0 <= k < |s.operations| ==> AmountsReadable(s.operations[k].value))
                 && (forall k :: 0 <= k < |s.attempts| ==> AttemptReadable(s, s.attempts[k]))
  {
    hide LatestSettlement, AttemptReadable, ReadableAttempt, AmountsReadable, ReadableOperation;
    forall k | 0 <= k < |s.attempts|
      ensures ReadableAttempt(s.attempts[k].value, LatestSettlement(s.operations, s.attempts[k].id)) <==> AttemptReadable(s, s.attempts[k])
    {
      AttemptReads(s, s.attempts[k]);
    }
    forall k | 0 <= k < |s.operations| ensures ReadableOperation(s.operations[k].value) <==> AmountsReadable(s.operations[k].value) {
      OperationReads(s.operations[k].value);
    }
  }

  ghost predicate AttemptReadable(s: Sheet, row: Row<Attempt>) {
    && row.value.reservation >= 0 && row.value.remaining >= 0 && row.value.cost >= 0
    && (row.value.residual != None ==> row.value.residual.value >= 0) && SlotReadable(s, row)
  }

  lemma AttemptReads(s: Sheet, row: Row<Attempt>)
    ensures ReadableAttempt(row.value, LatestSettlement(s.operations, row.id)) <==> AttemptReadable(s, row)
  {
    hide LatestSettlement, NoneProven;
    DecisiveLookup(s.operations, row.id);
  }

  lemma OperationReads(op: Operation)
    ensures ReadableOperation(op) <==> AmountsReadable(op)
  {
  }
}
