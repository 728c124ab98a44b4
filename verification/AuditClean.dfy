/**
 * The reconciler against the machine it judges: in every reachable state its report on a
 * campaign is empty exactly when settled recoveries booked no more than their fee and
 * every attempt shows its latest settlement.
 */
module AuditClean {
  import opened Basics
  import opened Database
  import opened Ledger
  import opened Invariant
  import opened Accounting

  // ------------------------------------------------------------------ projections

  function Select<T>(rows: seq<T>, keep: T -> bool): (r: seq<Row<T>>)
    ensures forall k :: 0 <= k < |r| ==> r[k].id < |rows| && r[k].value == rows[r[k].id] && keep(r[k].value)
  {
    if rows == [] then []
    else
      var n := |rows| - 1;
      Select(rows[..n], keep) + if keep(rows[n]) then [Row(n, rows[n])] else []
  }

  function EntriesOf(l: seq<Entry>, c: Id): seq<Entry> {
    if l == [] then []
    else
      var n := |l| - 1;
      EntriesOf(l[..n], c) + if l[n].campaign == c then [l[n]] else []
  }

  function InAttempts(c: Id): Attempt -> bool {
    (a: Attempt) => a.campaign == c
  }

  function InOperations(c: Id): Operation -> bool {
    (op: Operation) => op.campaign == c
  }

  function InInvites(c: Id): Invite -> bool {
    (i: Invite) => i.campaign == c
  }

  /** The snapshot inspectCampaign reads: the campaign's rows, in insertion order. */
  function SheetOf(db: Db, c: Id): Sheet
    requires c < |db.campaigns|
  {
    Sheet(c, db.campaigns[c], Select(db.attempts, InAttempts(c)), Select(db.operations, InOperations(c)),
          Select(db.invites, InInvites(c)), EntriesOf(db.ledger, c))
  }

  lemma SelectLast<T>(rows: seq<T>, keep: T -> bool)
    requires rows != []
    ensures var n := |rows| - 1; var t := Select(rows[..n], keep); var r := Select(rows, keep);
            if keep(rows[n]) then |r| == |t| + 1 && r[..|t|] == t && r[|t|] == Row(n, rows[n]) else r == t
  {
    var n := |rows| - 1;
    var t := Select(rows[..n], keep);
    if keep(rows[n]) {
      assert Select(rows, keep) == t + [Row(n, rows[n])];
    } else {
      assert Select(rows, keep) == t + [];
    }
  }

  lemma EntriesLast(l: seq<Entry>, c: Id)
    requires l != []
    ensures var n := |l| - 1; var t := EntriesOf(l[..n], c);
            EntriesOf(l, c) == if l[n].campaign == c then t + [l[n]] else t
  {
    assert EntriesOf(l[..|l| - 1], c) + [] == EntriesOf(l[..|l| - 1], c);
  }

  lemma {:induction false} LookupSelect<T>(rows: seq<T>, keep: T -> bool, id: Id)
    ensures Lookup(Select(rows, keep), id) == if id < |rows| && keep(rows[id]) then Some(rows[id]) else None
  {
    hide Select;
    if rows == [] {
      NothingSelected(keep);
    } else {
      var n := |rows| - 1;
      LookupSelect(rows[..n], keep, id);
      SelectLast(rows, keep);
      LookupLast(Select(rows[..n], keep), Select(rows, keep), n, rows[n], id);
    }
  }

  lemma NothingSelected<T>(keep: T -> bool)
    ensures Select([], keep) == []
  {
  }

  lemma LookupLast<T>(t: seq<Row<T>>, r: seq<Row<T>>, n: Id, x: T, id: Id)
    ensures |r| == |t| + 1 && r[..|t|] == t && r[|t|] == Row(n, x) ==> Lookup(r, id) == if id == n then Some(x) else Lookup(t, id)
  {
  }

  lemma {:induction false} CampaignSums(l: seq<Entry>, c: Id)
    ensures SumsOf(EntriesOf(l, c), All) == SumsOf(l, InCampaign(c))
  {
    if l != [] {
      var n := |l| - 1;
      CampaignSums(l[..n], c);
      EntriesLast(l, c);
      SumsSnoc(EntriesOf(l[..n], c), l[n], All);
    }
  }

  lemma {:induction false} ScopedSums(l: seq<Entry>, c: Id, g: Scope)
    requires forall k :: 0 <= k < |l| && Selects(g, l[k]) ==> l[k].campaign == c
    ensures SumsOf(EntriesOf(l, c), g) == SumsOf(l, g)
  {
    if l != [] {
      var n := |l| - 1;
      ScopedSums(l[..n], c, g);
      EntriesLast(l, c);
      SumsSnoc(EntriesOf(l[..n], c), l[n], g);
    }
  }

  lemma {:induction false} RegistrationSelect(ops: seq<Operation>, c: Id, a: Id)
    requires forall o :: 0 <= o < |ops| && ops[o].attempt == a ==> ops[o].campaign == c
    ensures var r := FindRegistration(ops, a);
            RegistrationOf(Select(ops, InOperations(c)), a) == if r.Some? then Some(ops[r.value]) else None
  {
    if ops != [] {
      var n := |ops| - 1;
      RegistrationSelect(ops[..n], c, a);
      SelectLast(ops, InOperations(c));
    }
  }

  function LatestIn(ops: seq<Operation>, a: Id): Option<Latest> {
    if ops == [] then None
    else
      var rest, last := LatestIn(ops[..|ops| - 1], a), ops[|ops| - 1];
      if last.attempt == a then Newer(rest, last) else rest
  }

  lemma {:induction false} LatestSelect(ops: seq<Operation>, c: Id, a: Id)
    requires forall o :: 0 <= o < |ops| && ops[o].attempt == a ==> ops[o].campaign == c
    ensures LatestSettlement(Select(ops, InOperations(c)), a) == LatestIn(ops, a)
  {
    if ops != [] {
      var n := |ops| - 1;
      LatestSelect(ops[..n], c, a);
      SelectLast(ops, InOperations(c));
    }
  }

  lemma {:induction false} ConsumedSelect(invites: seq<Invite>, c: Id)
    ensures ConsumedRows(Select(invites, InInvites(c))) == ConsumedInvites(invites, c)
  {
    if invites != [] {
      var n := |invites| - 1;
      ConsumedSelect(invites[..n], c);
      SelectLast(invites, InInvites(c));
    }
  }

  // -------------------------------------------------------- concatenated findings

  lemma NoEntryFindings(s: Sheet, upto: nat)
    requires upto <= |s.entries|
    ensures AllEntryFindings(s, upto) == [] <==>
            forall k :: 0 <= k < upto ==>
              EntryFindings(k, s.entries[k], Lookup(s.attempts, s.entries[k].attempt), OperationAt(s, s.entries[k].operation)) == []
  {
    hide EntryFindings, Lookup, OperationAt;
  }

  lemma NoOperationFindings(s: Sheet, upto: nat)
    requires upto <= |s.operations|
    ensures AllOperationFindings(s, upto) == [] <==>
            forall k :: 0 <= k < upto ==>
              OperationFindings(s.operations[k].id, s.operations[k].value, Lookup(s.attempts, s.operations[k].value.attempt),
                                SumsOf(s.entries, OfOperation(s.operations[k].id))) == []
  {
    hide OperationFindings, Lookup, SumsOf;
  }

  lemma NoAttemptFindings(s: Sheet, upto: nat)
    requires upto <= |s.attempts|
    ensures AllAttemptFindings(s, upto) == [] <==>
            forall k :: 0 <= k < upto ==>
              AttemptFindings(s.attempts[k].id, s.attempts[k].value, ContextOf(s, s.attempts[k].id, s.attempts[k].value)) == []
  {
    hide AttemptFindings, ContextOf;
  }

  lemma NoInviteFindings(s: Sheet, upto: nat)
    requires upto <= |s.invites|
    ensures AllInviteFindings(s, upto) == [] <==>
            forall k :: 0 <= k < upto ==>
              InviteFindings(s.invites[k].id, s.invites[k].value, AttemptAt(s, s.invites[k].value.active)) == []
  {
    hide InviteFindings, AttemptAt;
  }

  // ----------------------------------------------------------------- clean rows

  lemma EntryClean(k: Id, e: Entry, a: Attempt, op: Option<Operation>)
    requires EntryOk(e, a, op) && e.operation.Some? == op.Some?
    ensures EntryFindings(k, e, Some(a), op) == []
  {
  }

  /** A settled recovery debits its fee and nothing else. */
  predicate DebitsItsFee(op: Operation) {
    op.kind.Recovery? && Settled(op) ==> op.debit == op.fee
  }

  lemma OperationClean(id: Id, op: Operation, a: Attempt, sums: Sums)
    requires OperationOk(op) && OperationBooked(op, sums)
    ensures OperationFindings(id, op, Some(a), sums) == [] <==> DebitsItsFee(op)
  {
    if Settled(op) {
      SettledClean(id, op, sums);
    }
  }

  lemma SettledClean(id: Id, op: Operation, sums: Sums)
    requires OperationOk(op) && Settled(op) && OperationBooked(op, sums)
    ensures AmountFindings(op, id, sums, op.fee.value, op.debit.value, op.recovered.value) == [] <==> DebitsItsFee(op)
    ensures IssueIf(op.signature.None? || FinalizedEvidence(op).None? || FinalizedEvidence(op).value.success != op.status.Complete?,
                    OperationFinalizedEvidenceMissing, id) == []
  {
    var fee, debit, recovered := op.fee.value, op.debit.value, op.recovered.value;
    assert AmountsInvalid(op, fee, debit, recovered) <==> !DebitsItsFee(op);
    if DebitsItsFee(op) {
      assert !CostExceedsPolicy(op, fee, debit);
    }
  }

  /** The attempt shows the slot and residual of its latest settlement. */
  predicate ShowsLatest(a: Attempt, latest: Option<Latest>) {
    latest.Some? ==> a.slot == Some(latest.value.slot) && a.residual == Some(latest.value.residual)
  }

  lemma EvidenceClean(a: Attempt, id: Id, latest: Option<Latest>)
    ensures EvidenceFindings(a, id, latest) == [] <==> ShowsLatest(a, latest)
  {
  }

  lemma MoneyClean(a: Attempt, id: Id, sums: Sums, first: Sums)
    requires AttemptOk(a) && HeldIn(sums) == a.remaining && SpentIn(sums) == a.cost && first.count == 1 && first.reserve == a.reservation
    ensures MoneyFindings(a, id, sums, first) == []
  {
  }

  lemma StandingClean(a: Attempt, id: Id, r: Option<Operation>, i: Invite)
    requires AttemptOk(a) && (r.Some? ==> OperationOk(r.value) && r.value.kind.Registration? && Fits(r.value, a))
    requires !Unsigned(a.status) ==> r.Some?
    requires (Terminal(a.status) ==> i.active != Some(id)) && (!Terminal(a.status) ==> i.active == Some(id))
    requires Succeeded(a) ==> i.status.Consumed?
    ensures StandingFindings(a, id, r, Some(i)) == []
    ensures RegisteredAs(r, Complete) <==> Succeeded(a)
  {
  }

  // -------------------------------------------------------------- clean snapshots

  lemma {:induction false} EntriesMembers(l: seq<Entry>, c: Id)
    ensures forall k :: 0 <= k < |EntriesOf(l, c)| ==> EntriesOf(l, c)[k] in l && EntriesOf(l, c)[k].campaign == c
  {
    if l != [] {
      EntriesMembers(l[..|l| - 1], c);
      EntriesLast(l, c);
    }
  }

  lemma EntryRowClean(db: Db, c: Id, k: Id)
    requires Inv(db) && c < |db.campaigns| && k < |EntriesOf(db.ledger, c)|
    ensures var s := SheetOf(db, c); var e := s.entries[k];
            EntryFindings(k, e, Lookup(s.attempts, e.attempt), OperationAt(s, e.operation)) == []
  {
    hide Lifecycle, Pointers, Counters, Budgets, AttemptBooks, CampaignBooks, OperationBooks, EntryFindings, Select, Lookup, EntryOk;
    EntriesMembers(db.ledger, c);
    var e := EntriesOf(db.ledger, c)[k];
    var n :| 0 <= n < |db.ledger| && db.ledger[n] == e;
    assert EntryFits(db.ledger[n], db.attempts, db.operations);
    LookupSelect(db.attempts, InAttempts(c), e.attempt);
    if e.operation.Some? {
      LookupSelect(db.operations, InOperations(c), e.operation.value);
      LinkedAttempt(e, db.attempts[e.attempt], db.operations[e.operation.value]);
    }
    EntryClean(k, e, db.attempts[e.attempt], EntryOperation(db.operations, e));
  }

  lemma LinkedAttempt(e: Entry, a: Attempt, op: Operation)
    requires EntryOk(e, a, Some(op))
    ensures op.attempt == e.attempt
  {
  }

  /** All ledger rows of one operation, or of one attempt, lie in its own campaign. */
  lemma OperationScope(db: Db, o: Id)
    requires ForeignKeys(db) && EntriesOk(db.ledger, db.attempts, db.operations) && o < |db.operations|
    ensures forall k :: 0 <= k < |db.ledger| && Selects(OfOperation(o), db.ledger[k]) ==> db.ledger[k].campaign == db.operations[o].campaign
  {
    forall k | 0 <= k < |db.ledger| && Selects(OfOperation(o), db.ledger[k]) ensures db.ledger[k].campaign == db.operations[o].campaign {
      assert EntryFits(db.ledger[k], db.attempts, db.operations);
    }
  }

  lemma AttemptScope(db: Db, a: Id)
    requires ForeignKeys(db) && a < |db.attempts|
    ensures forall k :: 0 <= k < |db.ledger| && Selects(OfAttempt(a), db.ledger[k]) ==> db.ledger[k].campaign == db.attempts[a].campaign
    ensures forall k :: 0 <= k < |db.ledger| && Selects(Initial(a), db.ledger[k]) ==> db.ledger[k].campaign == db.attempts[a].campaign
    ensures forall o :: 0 <= o < |db.operations| && db.operations[o].attempt == a ==> db.operations[o].campaign == db.attempts[a].campaign
  {
  }

  lemma OperationRowClean(db: Db, c: Id, o: Id)
    requires Inv(db) && c < |db.campaigns| && o < |db.operations| && db.operations[o].campaign == c
    ensures var s, op := SheetOf(db, c), db.operations[o];
            OperationFindings(o, op, Lookup(s.attempts, op.attempt), SumsOf(s.entries, OfOperation(o))) == [] <==> DebitsItsFee(op)
  {
    hide Pointers, Counters, Budgets, AttemptBooks, CampaignBooks, OperationFindings, Select, Lookup, SumsOf, OperationBooked, DebitsItsFee;
    var op := db.operations[o];
    assert OperationOk(op) && OperationBooked(op, SumsOf(db.ledger, OfOperation(o)));
    OperationScope(db, o);
    ScopedSums(db.ledger, c, OfOperation(o));
    LookupSelect(db.attempts, InAttempts(c), op.attempt);
    OperationClean(o, op, db.attempts[op.attempt], SumsOf(db.ledger, OfOperation(o)));
  }

  /** What the maps hold about an attempt, read from the tables. */
  function TableContext(db: Db, a: Id): Context
    requires ForeignKeys(db) && a < |db.attempts|
  {
    var r := FindRegistration(db.operations, a);
    Context(SumsOf(db.ledger, OfAttempt(a)), SumsOf(db.ledger, Initial(a)), if r.Some? then Some(db.operations[r.value]) else None,
            Some(db.invites[db.attempts[a].invite]), LatestIn(db.operations, a))
  }

  lemma ContextAgrees(db: Db, c: Id, a: Id)
    requires ForeignKeys(db) && c < |db.campaigns| && a < |db.attempts| && db.attempts[a].campaign == c
    ensures ContextOf(SheetOf(db, c), a, db.attempts[a]) == TableContext(db, a)
  {
    hide Select, Lookup, SumsOf, RegistrationOf, LatestSettlement, LatestIn, FindRegistration, EntriesOf;
    AttemptScope(db, a);
    ScopedSums(db.ledger, c, OfAttempt(a));
    ScopedSums(db.ledger, c, Initial(a));
    RegistrationSelect(db.operations, c, a);
    LatestSelect(db.operations, c, a);
    LookupSelect(db.invites, InInvites(c), db.attempts[a].invite);
  }

  /** The facts the attempt checks rely on, from the invariant. */
  lemma AttemptFacts(db: Db, a: Id)
    requires Inv(db) && a < |db.attempts|
    ensures var row, i, r := db.attempts[a], db.invites[db.attempts[a].invite], TableContext(db, a).registration;
            && AttemptOk(row) && (r.Some? ==> OperationOk(r.value) && r.value.kind.Registration? && Fits(r.value, row))
            && (!Unsigned(row.status) ==> r.Some?)
            && (Terminal(row.status) ==> i.active != Some(a)) && (!Terminal(row.status) ==> i.active == Some(a))
            && (Succeeded(row) ==> i.status.Consumed?)
    ensures var x, row := TableContext(db, a), db.attempts[a];
            HeldIn(x.sums) == row.remaining && SpentIn(x.sums) == row.cost && x.first.count == 1 && x.first.reserve == row.reservation
  {
    hide Counters, Budgets, CampaignBooks, OperationBooks, EntriesOk, SumsOf, LatestIn, FindRegistration, AttemptOk, OperationOk, Fits;
    hide OneRegistration, OneOpenRecovery;
    var r := FindRegistration(db.operations, a);
    assert AttemptOk(db.attempts[a]) && AttemptBooked(db, a);
    if r.Some? {
      assert OperationOk(db.operations[r.value]) && Fits(db.operations[r.value], db.attempts[db.operations[r.value].attempt]);
    }
  }

  lemma AttemptRowClean(db: Db, c: Id, a: Id)
    requires Inv(db) && c < |db.campaigns| && a < |db.attempts| && db.attempts[a].campaign == c
    ensures AttemptFindings(a, db.attempts[a], ContextOf(SheetOf(db, c), a, db.attempts[a])) == []
            <==> ShowsLatest(db.attempts[a], LatestIn(db.operations, a))
    ensures RegisteredAs(RegistrationOf(SheetOf(db, c).operations, a), Complete) <==> Succeeded(db.attempts[a])
  {
    hide Inv, ForeignKeys, Select, SumsOf, RegistrationOf, LatestSettlement, LatestIn, FindRegistration, EntriesOf, ShowsLatest;
    hide MoneyFindings, StandingFindings, EvidenceFindings, Lookup, AttemptOk, OperationOk, Fits, Succeeded, RegisteredAs, Terminal;
    InvKeys(db);
    AttemptFacts(db, a);
    ContextAgrees(db, c, a);
    var x, row := TableContext(db, a), db.attempts[a];
    MoneyClean(row, a, x.sums, x.first);
    StandingClean(row, a, x.registration, x.invite.value);
    EvidenceClean(row, a, x.latest);
  }

  lemma InvKeys(db: Db)
    requires Inv(db)
    ensures ForeignKeys(db)
    ensures forall a :: 0 <= a < |db.attempts| ==> db.attempts[a].invite < |db.invites|
  {
  }

  lemma InviteRowClean(db: Db, c: Id, i: Id)
    requires Inv(db) && c < |db.campaigns| && i < |db.invites| && db.invites[i].campaign == c
    ensures InviteFindings(i, db.invites[i], AttemptAt(SheetOf(db, c), db.invites[i].active)) == []
  {
    hide Lifecycle, Counters, Budgets, Books, Select, Lookup;
    if db.invites[i].active.Some? {
      LookupSelect(db.attempts, InAttempts(c), db.invites[i].active.value);
    }
  }

  // -------------------------------------------------------------- campaign totals

  lemma {:induction false} SelectPrefix<T>(rows: seq<T>, keep: T -> bool, m: nat)
    requires m <= |rows|
    ensures var p, r := Select(rows[..m], keep), Select(rows, keep); |p| <= |r| && r[..|p|] == p
    decreases |rows|
  {
    if m == |rows| {
      assert rows[..m] == rows;
    } else {
      var n := |rows| - 1;
      SelectPrefix(rows[..n], keep, m);
      assert rows[..n][..m] == rows[..m];
      SelectLast(rows, keep);
    }
  }

  predicate CountsMatch(n: Counted, attempts: seq<Attempt>, c: Id) {
    && n.held == Total(attempts, c, Remaining) && n.spent == Total(attempts, c, CostSoFar)
    && n.reservedUsers == Total(attempts, c, Seats) && n.consumedUsers == Total(attempts, c, Passes)
  }

  /** One more attempt row, counted by the report and summed by the table columns. */
  lemma CountsGrow(n: Counted, t: seq<Attempt>, c: Id, succeeded: bool)
    requires t != [] && CountsMatch(n, t[..|t| - 1], c) && (succeeded <==> Succeeded(t[|t| - 1]))
    ensures CountsMatch(if t[|t| - 1].campaign == c then CountOne(n, t[|t| - 1], succeeded) else n, t, c)
  {
  }

  /** The sheet's first rows are those selected from the table's first rows. */
  lemma SheetPrefix(db: Db, c: Id, m: nat)
    requires c < |db.campaigns| && 0 < m <= |db.attempts|
    ensures var s, keep := SheetOf(db, c), InAttempts(c);
            var k, k' := |Select(db.attempts[..m - 1], keep)|, |Select(db.attempts[..m], keep)|;
            && k' <= |s.attempts|
            && if db.attempts[m - 1].campaign == c then k' == k + 1 && s.attempts[k] == Row(m - 1, db.attempts[m - 1]) else k' == k
  {
    hide Select, EntriesOf;
    var t, keep := db.attempts[..m], InAttempts(c);
    assert t[..m - 1] == db.attempts[..m - 1];
    SelectLast(t, keep);
    SelectPrefix(db.attempts, keep, m);
    var p, r := Select(t, keep), Select(db.attempts, keep);
    if db.attempts[m - 1].campaign == c {
      assert r[|p| - 1] == r[..|p|][|p| - 1];
    }
  }

  lemma {:induction false} CountPrefix(db: Db, c: Id, m: nat)
    requires Inv(db) && c < |db.campaigns| && m <= |db.attempts|
    ensures var k := |Select(db.attempts[..m], InAttempts(c))|; var s := SheetOf(db, c);
            k <= |s.attempts| && CountsMatch(CountUp(s, k), db.attempts[..m], c)
  {
    hide Inv, ForeignKeys, Select, RegistrationOf, RegisteredAs, SheetOf, CountOne, Succeeded, ShowsLatest, AttemptFindings, ContextOf;
    if m == 0 {
      NothingSelected(InAttempts(c));
      assert db.attempts[..m] == [];
    } else {
      hide CountsMatch;
      CountPrefix(db, c, m - 1);
      SheetPrefix(db, c, m);
      var s, t, row := SheetOf(db, c), db.attempts[..m], db.attempts[m - 1];
      assert t[..m - 1] == db.attempts[..m - 1];
      var succeeded := if row.campaign == c then RegisteredAs(RegistrationOf(s.operations, m - 1), Complete) else Succeeded(row);
      if row.campaign == c { AttemptRowClean(db, c, m - 1); }
      CountsGrow(CountUp(s, |Select(t[..m - 1], InAttempts(c))|), t, c, succeeded);
    }
  }

  /** The campaign's counters, its ledger and its attempts all tell the same totals. */
  lemma CampaignClean(db: Db, c: Id)
    requires Inv(db) && c < |db.campaigns|
    ensures var s := SheetOf(db, c); var all, n := SumsOf(s.entries, All), CountUp(s, |s.attempts|);
            CampaignFindings(s.campaign, s.id, all, n, ConsumedRows(s.invites)) == [] && LimitFindings(s.campaign, s.id, all, n) == []
  {
    hide Inv, ForeignKeys, Select, CountUp, SumsOf, EntriesOf, ConsumedRows, Total, ConsumedInvites;
    CountPrefix(db, c, |db.attempts|);
    assert db.attempts[..|db.attempts|] == db.attempts;
    CampaignSums(db.ledger, c);
    ConsumedSelect(db.invites, c);
    CampaignFacts(db, c);
  }

  lemma CampaignFacts(db: Db, c: Id)
    requires Inv(db) && c < |db.campaigns|
    ensures CountersOk(db, c) && CampaignBooked(db, c) && WithinLimits(db.campaigns[c])
    ensures db.campaigns[c].reserved >= 0 && db.campaigns[c].spent >= 0
    ensures db.campaigns[c].reservedUsers >= 0 && db.campaigns[c].consumedUsers >= 0
  {
    hide SumsOf, Pointers, OperationBooks, EntriesOk;
    CellsNonNegative(db.attempts);
    TotalNonNegative(db.attempts, c, Remaining);
    TotalNonNegative(db.attempts, c, CostSoFar);
    TotalNonNegative(db.attempts, c, Seats);
    TotalNonNegative(db.attempts, c, Passes);
  }

  lemma CellsNonNegative(attempts: seq<Attempt>)
    requires AttemptsOk(attempts)
    ensures forall k, col :: 0 <= k < |attempts| ==> Cell(attempts[k], col) >= 0
  {
    forall k, col | 0 <= k < |attempts| ensures Cell(attempts[k], col) >= 0 {
      assert AttemptOk(attempts[k]);
    }
  }

  // ------------------------------------------------------------------ the theorem

  ghost predicate CampaignDebits(db: Db, c: Id) {
    forall o :: 0 <= o < |db.operations| && db.operations[o].campaign == c ==> DebitsItsFee(db.operations[o])
  }

  ghost predicate CampaignShows(db: Db, c: Id) {
    forall a :: 0 <= a < |db.attempts| && db.attempts[a].campaign == c ==> ShowsLatest(db.attempts[a], LatestIn(db.operations, a))
  }

  lemma {:induction false} SelectCovers<T>(rows: seq<T>, keep: T -> bool, i: Id)
    requires i < |rows| && keep(rows[i])
    ensures exists k :: 0 <= k < |Select(rows, keep)| && Select(rows, keep)[k].id == i && Select(rows, keep)[k].value == rows[i]
  {
    var n := |rows| - 1;
    SelectLast(rows, keep);
    if i < n {
      SelectCovers(rows[..n], keep, i);
      var t := Select(rows[..n], keep);
      var k :| 0 <= k < |t| && t[k].id == i && t[k].value == rows[i];
      assert Select(rows, keep)[k] == t[k];
    }
  }

  lemma OperationsClean(db: Db, c: Id)
    requires Inv(db) && c < |db.campaigns|
    ensures var s := SheetOf(db, c); AllOperationFindings(s, |s.operations|) == [] <==> CampaignDebits(db, c)
  {
    hide Inv, ForeignKeys, Select, SumsOf, EntriesOf, OperationFindings, Lookup, DebitsItsFee, AllOperationFindings;
    var s := SheetOf(db, c);
    NoOperationFindings(s, |s.operations|);
    forall k | 0 <= k < |s.operations|
      ensures OperationFindings(s.operations[k].id, s.operations[k].value, Lookup(s.attempts, s.operations[k].value.attempt),
                                SumsOf(s.entries, OfOperation(s.operations[k].id))) == []
              <==> DebitsItsFee(db.operations[s.operations[k].id])
    {
      OperationRowClean(db, c, s.operations[k].id);
    }
    forall o | 0 <= o < |db.operations| && db.operations[o].campaign == c
      ensures exists k :: 0 <= k < |s.operations| && s.operations[k].id == o
    {
      SelectCovers(db.operations, InOperations(c), o);
    }
  }

  lemma AttemptsClean(db: Db, c: Id)
    requires Inv(db) && c < |db.campaigns|
    ensures var s := SheetOf(db, c); AllAttemptFindings(s, |s.attempts|) == [] <==> CampaignShows(db, c)
  {
    hide Inv, ForeignKeys, Select, SumsOf, EntriesOf, AttemptFindings, ContextOf, Lookup, ShowsLatest, LatestIn, AllAttemptFindings;
    var s := SheetOf(db, c);
    NoAttemptFindings(s, |s.attempts|);
    forall k | 0 <= k < |s.attempts|
      ensures AttemptFindings(s.attempts[k].id, s.attempts[k].value, ContextOf(s, s.attempts[k].id, s.attempts[k].value)) == []
              <==> ShowsLatest(db.attempts[s.attempts[k].id], LatestIn(db.operations, s.attempts[k].id))
    {
      AttemptRowClean(db, c, s.attempts[k].id);
    }
    forall a | 0 <= a < |db.attempts| && db.attempts[a].campaign == c
      ensures exists k :: 0 <= k < |s.attempts| && s.attempts[k].id == a
    {
      SelectCovers(db.attempts, InAttempts(c), a);
    }
  }

  lemma EntriesClean(db: Db, c: Id)
    requires Inv(db) && c < |db.campaigns|
    ensures var s := SheetOf(db, c); AllEntryFindings(s, |s.entries|) == []
  {
    hide Inv, ForeignKeys, Select, EntriesOf, EntryFindings, Lookup, AllEntryFindings;
    var s := SheetOf(db, c);
    NoEntryFindings(s, |s.entries|);
    forall k | 0 <= k < |s.entries|
      ensures EntryFindings(k, s.entries[k], Lookup(s.attempts, s.entries[k].attempt), OperationAt(s, s.entries[k].operation)) == []
    {
      EntryRowClean(db, c, k);
    }
  }

  lemma InvitesClean(db: Db, c: Id)
    requires Inv(db) && c < |db.campaigns|
    ensures var s := SheetOf(db, c); AllInviteFindings(s, |s.invites|) == []
  {
    hide Inv, ForeignKeys, Select, EntriesOf, InviteFindings, Lookup, AttemptAt, AllInviteFindings;
    var s := SheetOf(db, c);
    NoInviteFindings(s, |s.invites|);
    forall k | 0 <= k < |s.invites|
      ensures InviteFindings(s.invites[k].id, s.invites[k].value, AttemptAt(s, s.invites[k].value.active)) == []
    {
      InviteRowClean(db, c, s.invites[k].id);
    }
  }

  /**
   * In every state that satisfies the invariant, whatever amounts settle was given, the
   * report on a campaign is empty exactly when its settled recoveries debited only their
   * fee and its attempts show their latest settlement.
   */
  lemma CleanExactly(db: Db, c: Id)
    requires Inv(db) && c < |db.campaigns|
    ensures Findings(SheetOf(db, c)) == [] <==> CampaignDebits(db, c) && CampaignShows(db, c)
  {
    hide Inv, ForeignKeys, SheetOf, AllEntryFindings, AllOperationFindings, AllAttemptFindings, AllInviteFindings;
    hide CampaignFindings, LimitFindings, CountUp, SumsOf, ConsumedRows, CampaignDebits, CampaignShows;
    EntriesClean(db, c);
    OperationsClean(db, c);
    AttemptsClean(db, c);
    InvitesClean(db, c);
    CampaignClean(db, c);
  }

  /** Such a state is always readable: every amount the report parses is a natural number. */
  lemma AlwaysReadable(db: Db, c: Id)
    requires Inv(db) && c < |db.campaigns|
    ensures Readable(SheetOf(db, c))
  {
    hide Inv, ForeignKeys, Select, EntriesOf, ReadableAttempt, ReadableOperation, LatestSettlement;
    var s := SheetOf(db, c);
    EntriesMembers(db.ledger, c);
    CampaignFacts(db, c);
    RowsReadable(db);
    forall k | 0 <= k < |s.entries| ensures s.entries[k].amount >= 0 {
      var n :| 0 <= n < |db.ledger| && db.ledger[n] == s.entries[k];
    }
  }

  lemma RowsReadable(db: Db)
    requires Inv(db)
    ensures forall a, latest :: 0 <= a < |db.attempts| ==> ReadableAttempt(db.attempts[a], latest)
    ensures forall o :: 0 <= o < |db.operations| ==> ReadableOperation(db.operations[o])
    ensures forall e :: 0 <= e < |db.ledger| ==> db.ledger[e].amount >= 0
  {
    hide Pointers, Counters, Budgets, AttemptBooks, CampaignBooks, OperationBooks, Fits;
    forall a, latest | 0 <= a < |db.attempts| ensures ReadableAttempt(db.attempts[a], latest) {
      assert AttemptOk(db.attempts[a]);
    }
    forall o | 0 <= o < |db.operations| ensures ReadableOperation(db.operations[o]) {
      assert OperationOk(db.operations[o]);
    }
    forall e | 0 <= e < |db.ledger| ensures db.ledger[e].amount >= 0 {
      assert EntryFits(db.ledger[e], db.attempts, db.operations);
    }
  }
}
