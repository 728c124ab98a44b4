/**
 * The independent reconciler (src/lib/operations/accounting.ts:156-305): it regroups the
 * ledger, recounts the attempts and lists every disagreement it finds.
 */
module Accounting {
  import opened Basics
  import opened Database
  import opened Ledger
  import opened Invariant

  datatype Row<T> = Row(id: Id, value: T)

  /** One campaign as the reconciler reads it; a ledger row is named by its position. */
  datatype Sheet = Sheet(
    id: Id, campaign: Campaign, attempts: seq<Row<Attempt>>, operations: seq<Row<Operation>>, invites: seq<Row<Invite>>, entries: seq<Entry>)

  datatype Problem =
    | LedgerAttemptMissing | LedgerOperationIdentityMismatch | LedgerOperationSignatureMismatch | LedgerUnexpectedOperationReserve
    | LedgerUnsettledOperation | LedgerUnverifiedRecovery | LedgerUnexpectedDebit | LedgerOperationRequired
    | OperationAttemptMissing | OperationFinalizedEvidenceMissing | OperationSettlementAmountMissing
    | OperationLedgerFeeMismatch | OperationLedgerDebitMismatch | OperationLedgerRecoveryMismatch
    | OperationCostExceedsPolicy | OperationSettlementAmountInvalid | OperationUnsettledAmounts
    | AttemptLedgerHeldMismatch | AttemptLedgerSpentMismatch | AttemptNegativeAccounting
    | AttemptInitialReservationCount | AttemptInitialReservationMismatch | AttemptInvitePointerMismatch
    | AttemptConsumedInviteMismatch | AttemptTerminalFundsUnresolved | AttemptPreparedAuthorized | AttemptRegistrationMissing
    | AttemptSuccessUnverified | AttemptFailureUnverified | AttemptRegistrationSignatureMismatch
    | AttemptVerifiedSlotMissing | AttemptVerifiedSlotMismatch | AttemptResidualEvidenceMissing | AttemptResidualEvidenceMismatch
    | CampaignLedgerHeldMismatch | CampaignLedgerSpentMismatch | CampaignAttemptHeldMismatch | CampaignAttemptSpentMismatch
    | CampaignReservedUsersMismatch | CampaignConsumedUsersMismatch | CampaignConsumedInvitesMismatch
    | InviteActiveAttemptMismatch | CampaignReconstructedBudgetInvalid | CampaignReconstructedCapacityInvalid

  datatype Finding = Finding(problem: Problem, id: Id, expected: Option<int>, actual: Option<int>)

  datatype Report = Report(
    findings: seq<Finding>, ledger: Sums, held: int, spent: int, residual: int, reservedUsers: int, consumedUsers: int)

  function IssueIf(bad: bool, problem: Problem, id: Id): seq<Finding> {
    if bad then [Finding(problem, id, None, None)] else []
  }

  function Compare(problem: Problem, id: Id, expected: int, actual: int): seq<Finding> {
    if expected != actual then [Finding(problem, id, Some(expected), Some(actual))] else []
  }

  // --------------------------------------------------------------------- lookups

  /** A Map built from rows keeps the last row of each key. */
  function Lookup<T>(rows: seq<Row<T>>, id: Id): (r: Option<T>)
    ensures r.Some? ==> exists k :: 0 <= k < |rows| && rows[k] == Row(id, r.value)
    ensures r.None? ==> forall k :: 0 <= k < |rows| ==> rows[k].id != id
  {
    if rows == [] then None
    else if rows[|rows| - 1].id == id then Some(rows[|rows| - 1].value)
    else Lookup(rows[..|rows| - 1], id)
  }

  function RegistrationOf(ops: seq<Row<Operation>>, attempt: Id): Option<Operation> {
    if ops == [] then None
    else
      var last := ops[|ops| - 1].value;
      if IsRegistration(last, attempt) then Some(last) else RegistrationOf(ops[..|ops| - 1], attempt)
  }

  /** Stored evidence that parses as finalized evidence. */
  function FinalizedEvidence(op: Operation): Option<Evidence> {
    if op.evidence.Some? && SafeCounter(op.evidence.value.slot) && op.evidence.value.residual >= 0 then op.evidence else None
  }

  datatype Latest = Latest(slot: int, residual: int)

  /** The later of two settlements by slot; on equal slots the later row wins. */
  function Newer(prior: Option<Latest>, op: Operation): Option<Latest> {
    var e := FinalizedEvidence(op);
    if Settled(op) && e.Some? && (prior.None? || prior.value.slot <= e.value.slot) then Some(Latest(e.value.slot, e.value.residual)) else prior
  }

  function LatestSettlement(ops: seq<Row<Operation>>, attempt: Id): Option<Latest> {
    if ops == [] then None
    else
      var rest, last := LatestSettlement(ops[..|ops| - 1], attempt), ops[|ops| - 1].value;
      if last.attempt == attempt then Newer(rest, last) else rest
  }

  // -------------------------------------------------------------- one row's findings

  function LinkedEntryFindings(e: Entry, k: Id, op: Operation): seq<Finding> {
    // ReserveRecovery books its Reserve row on an unsigned operation, hence the exception for that kind.
    IssueIf(!e.kind.Reserve? && e.signature != op.signature, LedgerOperationSignatureMismatch, k)
    + IssueIf(e.kind.Reserve? && !op.kind.Recovery?, LedgerUnexpectedOperationReserve, k)
    + IssueIf(!e.kind.Reserve? && !Settled(op), LedgerUnsettledOperation, k)
    + IssueIf(e.kind.Recover? && (!op.kind.Recovery? || !op.status.Complete?), LedgerUnverifiedRecovery, k)
    + IssueIf(e.kind.Debit? && !op.kind.Registration?, LedgerUnexpectedDebit, k)
  }

  /** `a` and `op` are what the attempt and operation maps hold for the row's references. */
  function EntryFindings(k: Id, e: Entry, a: Option<Attempt>, op: Option<Operation>): seq<Finding> {
    IssueIf(a.None?, LedgerAttemptMissing, k)
    + if e.operation.Some? then
        (if op.None? || op.value.attempt != e.attempt then [Finding(LedgerOperationIdentityMismatch, k, None, None)]
         else LinkedEntryFindings(e, k, op.value))
      else IssueIf(!e.kind.Reserve? && (!e.kind.Release? || a.None? || !a.value.status.Expired?), LedgerOperationRequired, k)
  }

  predicate CostExceedsPolicy(op: Operation, fee: int, debit: int) {
    fee > op.feeCap || debit < fee || (op.kind.Registration? && debit > op.amount)
  }

  predicate AmountsInvalid(op: Operation, fee: int, debit: int, recovered: int) {
    || (op.kind.Registration? && recovered != 0) || (op.kind.Recovery? && debit != fee)
    || (op.kind.Recovery? && op.status.Complete? && recovered != op.amount)
    || (op.status.Failed? && (recovered != 0 || debit != fee))
  }

  function AmountFindings(op: Operation, id: Id, sums: Sums, fee: int, debit: int, recovered: int): seq<Finding> {
    Compare(OperationLedgerFeeMismatch, id, fee, sums.fee)
    + Compare(OperationLedgerDebitMismatch, id, if op.kind.Registration? then debit - fee else 0, sums.debit)
    + Compare(OperationLedgerRecoveryMismatch, id, recovered, sums.recovery)
    + IssueIf(CostExceedsPolicy(op, fee, debit), OperationCostExceedsPolicy, id)
    + IssueIf(AmountsInvalid(op, fee, debit, recovered), OperationSettlementAmountInvalid, id)
  }

  function OperationFindings(id: Id, op: Operation, a: Option<Attempt>, sums: Sums): seq<Finding> {
    var e := FinalizedEvidence(op);
    IssueIf(a.None?, OperationAttemptMissing, id)
    + if Settled(op) then
        IssueIf(op.signature.None? || e.None? || e.value.success != op.status.Complete?, OperationFinalizedEvidenceMissing, id)
        + (if op.fee.None? || op.debit.None? || op.recovered.None? then [Finding(OperationSettlementAmountMissing, id, None, None)]
           else AmountFindings(op, id, sums, op.fee.value, op.debit.value, op.recovered.value))
      else IssueIf(op.fee.Some? || op.debit.Some? || op.recovered.Some?, OperationUnsettledAmounts, id)
  }

  predicate RegisteredAs(r: Option<Operation>, status: Status) {
    r.Some? && r.value.status == status
  }

  function ResidualOr0(a: Attempt): int {
    if a.residual.None? then 0 else a.residual.value
  }

  function MoneyFindings(a: Attempt, id: Id, sums: Sums, first: Sums): seq<Finding> {
    Compare(AttemptLedgerHeldMismatch, id, HeldIn(sums), a.remaining)
    + Compare(AttemptLedgerSpentMismatch, id, SpentIn(sums), a.cost)
    + IssueIf(HeldIn(sums) < 0 || SpentIn(sums) < 0, AttemptNegativeAccounting, id)
    + (if first.count != 1 then [Finding(AttemptInitialReservationCount, id, Some(1), Some(first.count))] else [])
    + Compare(AttemptInitialReservationMismatch, id, a.reservation, first.reserve)
  }

  predicate PointerWrong(a: Attempt, id: Id, i: Option<Invite>) {
    i.None? || (!Terminal(a.status) && i.value.active != Some(id)) || (Terminal(a.status) && i.value.active == Some(id))
  }

  function StandingFindings(a: Attempt, id: Id, r: Option<Operation>, i: Option<Invite>): seq<Finding> {
    IssueIf(PointerWrong(a, id, i), AttemptInvitePointerMismatch, id)
    + IssueIf(RegisteredAs(r, Complete) && (i.None? || !i.value.status.Consumed?), AttemptConsumedInviteMismatch, id)
    + IssueIf(Terminal(a.status) && (a.remaining != 0 || ResidualOr0(a) != 0), AttemptTerminalFundsUnresolved, id)
    + IssueIf(a.status.Prepared? && r.Some?, AttemptPreparedAuthorized, id)
    + IssueIf(!a.status.Prepared? && !a.status.Expired? && r.None?, AttemptRegistrationMissing, id)
    + IssueIf((a.status.Complete? || a.status.Finalized?) && !RegisteredAs(r, Complete), AttemptSuccessUnverified, id)
    + IssueIf(a.status.Failed? && !RegisteredAs(r, Failed), AttemptFailureUnverified, id)
    + IssueIf(r.Some? && r.value.signature != a.signature, AttemptRegistrationSignatureMismatch, id)
  }

  function EvidenceFindings(a: Attempt, id: Id, latest: Option<Latest>): seq<Finding> {
    if latest.None? then []
    else
      (if a.slot.None? then [Finding(AttemptVerifiedSlotMissing, id, None, None)]
       else Compare(AttemptVerifiedSlotMismatch, id, latest.value.slot, a.slot.value))
      + (if a.residual.None? then [Finding(AttemptResidualEvidenceMissing, id, None, None)]
         else Compare(AttemptResidualEvidenceMismatch, id, latest.value.residual, a.residual.value))
  }

  /** What the maps hold about one attempt. */
  datatype Context = Context(sums: Sums, first: Sums, registration: Option<Operation>, invite: Option<Invite>, latest: Option<Latest>)

  function AttemptFindings(id: Id, a: Attempt, x: Context): seq<Finding> {
    MoneyFindings(a, id, x.sums, x.first) + StandingFindings(a, id, x.registration, x.invite) + EvidenceFindings(a, id, x.latest)
  }

  function InviteFindings(id: Id, i: Invite, a: Option<Attempt>): seq<Finding> {
    IssueIf(i.active.Some? && (a.None? || a.value.invite != id || Terminal(a.value.status)), InviteActiveAttemptMismatch, id)
  }

  // ------------------------------------------------------------------- whole tables

  function OperationAt(s: Sheet, o: Option<Id>): Option<Operation> {
    if o.Some? then Lookup(s.operations, o.value) else None
  }

  function AttemptAt(s: Sheet, a: Option<Id>): Option<Attempt> {
    if a.Some? then Lookup(s.attempts, a.value) else None
  }

  function ContextOf(s: Sheet, id: Id, a: Attempt): Context {
    Context(SumsOf(s.entries, OfAttempt(id)), SumsOf(s.entries, Initial(id)), RegistrationOf(s.operations, id),
            Lookup(s.invites, a.invite), LatestSettlement(s.operations, id))
  }

  function AllEntryFindings(s: Sheet, upto: nat): seq<Finding>
    requires upto <= |s.entries|
  {
    if upto == 0 then []
    else
      var e := s.entries[upto - 1];
      AllEntryFindings(s, upto - 1) + EntryFindings(upto - 1, e, Lookup(s.attempts, e.attempt), OperationAt(s, e.operation))
  }

  function AllOperationFindings(s: Sheet, upto: nat): seq<Finding>
    requires upto <= |s.operations|
  {
    if upto == 0 then []
    else
      var row := s.operations[upto - 1];
      AllOperationFindings(s, upto - 1)
      + OperationFindings(row.id, row.value, Lookup(s.attempts, row.value.attempt), SumsOf(s.entries, OfOperation(row.id)))
  }

  function AllAttemptFindings(s: Sheet, upto: nat): seq<Finding>
    requires upto <= |s.attempts|
  {
    if upto == 0 then []
    else
      var row := s.attempts[upto - 1];
      AllAttemptFindings(s, upto - 1) + AttemptFindings(row.id, row.value, ContextOf(s, row.id, row.value))
  }

  function AllInviteFindings(s: Sheet, upto: nat): seq<Finding>
    requires upto <= |s.invites|
  {
    if upto == 0 then []
    else
      var row := s.invites[upto - 1];
      AllInviteFindings(s, upto - 1) + InviteFindings(row.id, row.value, AttemptAt(s, row.value.active))
  }

  /** What the attempts add up to: holds, costs, residuals, seats taken and passes used. */
  datatype Counted = Counted(held: int, spent: int, residual: int, reservedUsers: int, consumedUsers: int)

  function CountOne(c: Counted, a: Attempt, succeeded: bool): Counted {
    Counted(c.held + a.remaining, c.spent + a.cost, c.residual + ResidualOr0(a),
            c.reservedUsers + (if !succeeded && !Terminal(a.status) then 1 else 0), c.consumedUsers + (if succeeded then 1 else 0))
  }

  function CountUp(s: Sheet, upto: nat): Counted
    requires upto <= |s.attempts|
  {
    if upto == 0 then Counted(0, 0, 0, 0, 0)
    else
      var row := s.attempts[upto - 1];
      CountOne(CountUp(s, upto - 1), row.value, RegisteredAs(RegistrationOf(s.operations, row.id), Complete))
  }

  function ConsumedRows(rows: seq<Row<Invite>>): int {
    if rows == [] then 0 else ConsumedRows(rows[..|rows| - 1]) + (if rows[|rows| - 1].value.status.Consumed? then 1 else 0)
  }

  function CampaignFindings(c: Campaign, id: Id, all: Sums, n: Counted, consumedInvites: int): seq<Finding> {
    Compare(CampaignLedgerHeldMismatch, id, HeldIn(all), c.reserved)
    + Compare(CampaignLedgerSpentMismatch, id, SpentIn(all), c.spent)
    + Compare(CampaignAttemptHeldMismatch, id, n.held, c.reserved)
    + Compare(CampaignAttemptSpentMismatch, id, n.spent, c.spent)
    + Compare(CampaignReservedUsersMismatch, id, n.reservedUsers, c.reservedUsers)
    + Compare(CampaignConsumedUsersMismatch, id, n.consumedUsers, c.consumedUsers)
    + Compare(CampaignConsumedInvitesMismatch, id, n.consumedUsers, consumedInvites)
  }

  function LimitFindings(c: Campaign, id: Id, all: Sums, n: Counted): seq<Finding> {
    IssueIf(HeldIn(all) < 0 || SpentIn(all) < 0 || HeldIn(all) + SpentIn(all) > c.cap, CampaignReconstructedBudgetInvalid, id)
    + IssueIf(n.reservedUsers + n.consumedUsers > c.maxUsers, CampaignReconstructedCapacityInvalid, id)
  }

  /** Everything the reconciler reports about this sheet, in its order. */
  function Findings(s: Sheet): seq<Finding> {
    var all, n := SumsOf(s.entries, All), CountUp(s, |s.attempts|);
    AllEntryFindings(s, |s.entries|) + AllOperationFindings(s, |s.operations|) + AllAttemptFindings(s, |s.attempts|)
    + CampaignFindings(s.campaign, s.id, all, n, ConsumedRows(s.invites)) + AllInviteFindings(s, |s.invites|)
    + LimitFindings(s.campaign, s.id, all, n)
  }

  /** The columns read for every attempt, and the slot where there is a settlement to compare it with. */
  predicate ReadableAttempt(a: Attempt, latest: Option<Latest>) {
    && a.reservation >= 0 && a.remaining >= 0 && a.cost >= 0 && (a.residual.Some? ==> a.residual.value >= 0)
    && (latest.Some? && a.slot.Some? ==> a.slot.value >= 0)
  }

  /** The amount is read only where no earlier condition of its test already decides. */
  predicate AmountRead(op: Operation, fee: int, debit: int) {
    if op.kind.Registration? then fee <= op.feeCap && debit >= fee else op.status.Complete? && debit == fee
  }

  /** Amounts of unsettled operations are not read at all. */
  predicate ReadableOperation(op: Operation) {
    Settled(op) && op.fee.Some? && op.debit.Some? && op.recovered.Some? ==>
      && op.fee.value >= 0 && op.debit.value >= 0 && op.recovered.value >= 0 && op.feeCap >= 0
      && (AmountRead(op, op.fee.value, op.debit.value) ==> op.amount >= 0)
  }

  /** Every amount column the report reaches holds a natural number; anything else makes it unavailable. */
  predicate Readable(s: Sheet) {
    && s.campaign.cap >= 0 && s.campaign.reserved >= 0 && s.campaign.spent >= 0
    && (forall k :: 0 <= k < |s.entries| ==> s.entries[k].amount >= 0)
    && (forall k :: 0 <= k < |s.attempts| ==> ReadableAttempt(s.attempts[k].value, LatestSettlement(s.operations, s.attempts[k].id)))
    && (forall k :: 0 <= k < |s.operations| ==> ReadableOperation(s.operations[k].value))
  }

  // -------------------------------------------------------------------- the report

  function Group(m: map<Id, Sums>, k: Id): Sums {
    if k in m then m[k] else ZERO
  }

  function Bump(m: map<Id, Sums>, k: Id, e: Entry): map<Id, Sums> {
    m[k := Add(Group(m, k), e)]
  }

  /** The grouped sums of the first rows of the ledger. */
  ghost predicate Grouped(l: seq<Entry>, all: Sums, attemptSums: map<Id, Sums>, operationSums: map<Id, Sums>, initials: map<Id, Sums>) {
    && all == SumsOf(l, All)
    && (forall a: Id :: Group(attemptSums, a) == SumsOf(l, OfAttempt(a)))
    && (forall o: Id :: Group(operationSums, o) == SumsOf(l, OfOperation(o)))
    && (forall a: Id :: Group(initials, a) == SumsOf(l, Initial(a)))
  }

  lemma GroupedSnoc(l: seq<Entry>, e: Entry, all: Sums, attemptSums: map<Id, Sums>, operationSums: map<Id, Sums>, initials: map<Id, Sums>)
    requires Grouped(l, all, attemptSums, operationSums, initials)
    ensures Grouped(l + [e], Add(all, e), Bump(attemptSums, e.attempt, e),
                    if e.operation.Some? then Bump(operationSums, e.operation.value, e) else operationSums,
                    if e.operation.None? && e.kind.Reserve? then Bump(initials, e.attempt, e) else initials)
  {
    hide SumsOf, Add;
    SumsSnoc(l, e, All);
    forall a: Id
      ensures SumsOf(l + [e], OfAttempt(a)) == if e.attempt == a then Add(SumsOf(l, OfAttempt(a)), e) else SumsOf(l, OfAttempt(a))
      ensures SumsOf(l + [e], OfOperation(a)) == if e.operation == Some(a) then Add(SumsOf(l, OfOperation(a)), e) else SumsOf(l, OfOperation(a))
      ensures SumsOf(l + [e], Initial(a)) == if e.attempt == a && e.operation.None? && e.kind.Reserve? then Add(SumsOf(l, Initial(a)), e) else SumsOf(l, Initial(a))
    {
      SumsSnoc(l, e, OfAttempt(a));
      SumsSnoc(l, e, OfOperation(a));
      SumsSnoc(l, e, Initial(a));
    }
  }

  method Index<T>(rows: seq<Row<T>>) returns (m: map<Id, T>)
    ensures forall id: Id :: At(m, id) == Lookup(rows, id)
  {
    m := map[];
    for k := 0 to |rows|
      invariant forall id: Id :: At(m, id) == Lookup(rows[..k], id)
    {
      m := m[rows[k].id := rows[k].value];
      assert rows[..k + 1][..k] == rows[..k];
    }
    assert rows[..|rows|] == rows;
  }

  method IndexRegistrations(ops: seq<Row<Operation>>) returns (m: map<Id, Operation>)
    ensures forall a: Id :: At(m, a) == RegistrationOf(ops, a)
  {
    m := map[];
    for k := 0 to |ops|
      invariant forall a: Id :: At(m, a) == RegistrationOf(ops[..k], a)
    {
      if ops[k].value.kind.Registration? {
        m := m[ops[k].value.attempt := ops[k].value];
      }
      assert ops[..k + 1][..k] == ops[..k];
    }
    assert ops[..|ops|] == ops;
  }

  method IndexSettlements(ops: seq<Row<Operation>>) returns (m: map<Id, Latest>)
    ensures forall a: Id :: At(m, a) == LatestSettlement(ops, a)
  {
    m := map[];
    for k := 0 to |ops|
      invariant forall a: Id :: At(m, a) == LatestSettlement(ops[..k], a)
    {
      var op := ops[k].value;
      var evidence := FinalizedEvidence(op);
      if Settled(op) && evidence.Some? {
        if op.attempt !in m || m[op.attempt].slot <= evidence.value.slot {
          m := m[op.attempt := Latest(evidence.value.slot, evidence.value.residual)];
        }
      }
      assert ops[..k + 1][..k] == ops[..k];
    }
    assert ops[..|ops|] == ops;
  }

  function At<T>(m: map<Id, T>, id: Id): Option<T> {
    if id in m then Some(m[id]) else None
  }

  /** The first loop: group the ledger and check each row against the maps. */
  method CheckEntries(s: Sheet, attemptMap: map<Id, Attempt>, operationMap: map<Id, Operation>)
    returns (findings: seq<Finding>, all: Sums, attemptSums: map<Id, Sums>, operationSums: map<Id, Sums>, initials: map<Id, Sums>)
    requires forall a: Id :: At(attemptMap, a) == Lookup(s.attempts, a)
    requires forall o: Id :: At(operationMap, o) == Lookup(s.operations, o)
    ensures findings == AllEntryFindings(s, |s.entries|) && Grouped(s.entries, all, attemptSums, operationSums, initials)
  {
    hide EntryFindings, Lookup, At, Bump, Add;
    findings, all, attemptSums, operationSums, initials := [], ZERO, map[], map[], map[];
    for k := 0 to |s.entries|
      invariant findings == AllEntryFindings(s, k) && Grouped(s.entries[..k], all, attemptSums, operationSums, initials)
    {
      var e := s.entries[k];
      GroupedSnoc(s.entries[..k], e, all, attemptSums, operationSums, initials);
      assert s.entries[..k + 1] == s.entries[..k] + [e];
      all := Add(all, e);
      attemptSums := Bump(attemptSums, e.attempt, e);
      if e.operation.Some? {
        operationSums := Bump(operationSums, e.operation.value, e);
      } else if e.kind.Reserve? {
        initials := Bump(initials, e.attempt, e);
      }
      var op := if e.operation.Some? then At(operationMap, e.operation.value) else None;
      findings := findings + EntryFindings(k, e, At(attemptMap, e.attempt), op);
    }
    assert s.entries[..|s.entries|] == s.entries;
  }

  method CheckOperations(s: Sheet, attemptMap: map<Id, Attempt>, operationSums: map<Id, Sums>) returns (findings: seq<Finding>)
    requires forall a: Id :: At(attemptMap, a) == Lookup(s.attempts, a)
    requires forall o: Id :: Group(operationSums, o) == SumsOf(s.entries, OfOperation(o))
    ensures findings == AllOperationFindings(s, |s.operations|)
  {
    hide OperationFindings, SumsOf, Lookup, Group, At;
    findings := [];
    for k := 0 to |s.operations|
      invariant findings == AllOperationFindings(s, k)
    {
      var row := s.operations[k];
      findings := findings + OperationFindings(row.id, row.value, At(attemptMap, row.value.attempt), Group(operationSums, row.id));
    }
  }

  method CheckAttempts(
    s: Sheet, attemptSums: map<Id, Sums>, initials: map<Id, Sums>, registrationMap: map<Id, Operation>,
    inviteMap: map<Id, Invite>, latest: map<Id, Latest>) returns (findings: seq<Finding>, counted: Counted)
    requires forall a: Id :: Group(attemptSums, a) == SumsOf(s.entries, OfAttempt(a))
    requires forall a: Id :: Group(initials, a) == SumsOf(s.entries, Initial(a))
    requires forall a: Id :: At(registrationMap, a) == RegistrationOf(s.operations, a)
    requires forall i: Id :: At(inviteMap, i) == Lookup(s.invites, i)
    requires forall a: Id :: At(latest, a) == LatestSettlement(s.operations, a)
    ensures findings == AllAttemptFindings(s, |s.attempts|) && counted == CountUp(s, |s.attempts|)
  {
    hide AttemptFindings, SumsOf, RegistrationOf, Lookup, LatestSettlement, Group, At, CountOne, RegisteredAs;
    findings, counted := [], Counted(0, 0, 0, 0, 0);
    for k := 0 to |s.attempts|
      invariant findings == AllAttemptFindings(s, k) && counted == CountUp(s, k)
    {
      var id, a := s.attempts[k].id, s.attempts[k].value;
      var registration := At(registrationMap, id);
      var x := Context(Group(attemptSums, id), Group(initials, id), registration, At(inviteMap, a.invite), At(latest, id));
      counted := CountOne(counted, a, RegisteredAs(registration, Complete));
      findings := findings + AttemptFindings(id, a, x);
    }
  }

  method CheckInvites(s: Sheet, attemptMap: map<Id, Attempt>) returns (findings: seq<Finding>, consumed: int)
    requires forall a: Id :: At(attemptMap, a) == Lookup(s.attempts, a)
    ensures findings == AllInviteFindings(s, |s.invites|) && consumed == ConsumedRows(s.invites)
  {
    hide InviteFindings, Lookup, At;
    findings, consumed := [], 0;
    for k := 0 to |s.invites|
      invariant findings == AllInviteFindings(s, k) && consumed == ConsumedRows(s.invites[..k])
    {
      var row := s.invites[k];
      var a := if row.value.active.Some? then At(attemptMap, row.value.active.value) else None;
      findings := findings + InviteFindings(row.id, row.value, a);
      consumed := consumed + if row.value.status.Consumed? then 1 else 0;
      assert s.invites[..k + 1][..k] == s.invites[..k];
    }
    assert s.invites[..|s.invites|] == s.invites;
  }

  /** The report over one snapshot; None exactly when a column it reaches is not a natural number. */
  method MakeReport(s: Sheet) returns (r: Option<Report>)
    ensures r.Some? <==> Readable(s)
    ensures r.Some? ==> r.value.findings == Findings(s) && r.value.ledger == SumsOf(s.entries, All)
    ensures r.Some? ==> var n := CountUp(s, |s.attempts|);
              r.value == Report(Findings(s), SumsOf(s.entries, All), n.held, n.spent, n.residual, n.reservedUsers, n.consumedUsers)
  {
    if !Readable(s) {
      return None;
    }
    var attemptMap := Index(s.attempts);
    var operationMap := Index(s.operations);
    var inviteMap := Index(s.invites);
    var registrationMap := IndexRegistrations(s.operations);
    var latest := IndexSettlements(s.operations);
    var found, all, attemptSums, operationSums, initials := CheckEntries(s, attemptMap, operationMap);
    var operations := CheckOperations(s, attemptMap, operationSums);
    var attempts, n := CheckAttempts(s, attemptSums, initials, registrationMap, inviteMap, latest);
    var invites, consumed := CheckInvites(s, attemptMap);
    var findings := found + operations + attempts + CampaignFindings(s.campaign, s.id, all, n, consumed)
      + invites + LimitFindings(s.campaign, s.id, all, n);
    r := Some(Report(findings, all, n.held, n.spent, n.residual, n.reservedUsers, n.consumedUsers));
  }
}
