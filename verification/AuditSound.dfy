/** What the reconciler's silence means for any snapshot whatever, and why no altered amount and no removed row escapes it. */
module AuditSound {
  import opened Database
  import opened Ledger
  import opened Accounting
  import opened AuditClean

  /** Row identifiers are primary keys. */
  ghost predicate DistinctIds<T(!new)>(rows: seq<Row<T>>) {
    forall j, k :: 0 <= j < k < |rows| ==> rows[j].id != rows[k].id
  }

  // -------------------------------------------------------------------- partition

  /** The attempts' own ledgers, added up. */
  function PartSums(l: seq<Entry>, rows: seq<Row<Attempt>>): Sums {
    if rows == [] then ZERO
    else Plus(PartSums(l, rows[..|rows| - 1]), SumsOf(l, OfAttempt(rows[|rows| - 1].id)))
  }

  lemma {:induction false} PartUnchanged(l: seq<Entry>, e: Entry, rows: seq<Row<Attempt>>)
    requires forall k :: 0 <= k < |rows| ==> rows[k].id != e.attempt
    ensures PartSums(l + [e], rows) == PartSums(l, rows)
  {
    hide SumsOf, Plus;
    if rows == [] {
    } else {
      PartUnchanged(l, e, rows[..|rows| - 1]);
      SumsSnoc(l, e, OfAttempt(rows[|rows| - 1].id));
    }
  }

  lemma PlusAdd(s: Sums, t: Sums, e: Entry)
    ensures Plus(Add(s, e), t) == Add(Plus(s, t), e)
  {
  }

  lemma {:induction false} PartGrows(l: seq<Entry>, e: Entry, rows: seq<Row<Attempt>>, at: nat)
    requires DistinctIds(rows) && at < |rows| && rows[at].id == e.attempt
    ensures PartSums(l + [e], rows) == Add(PartSums(l, rows), e)
  {
    hide SumsOf, Plus, Add;
    var n := |rows| - 1;
    SumsSnoc(l, e, OfAttempt(rows[n].id));
    if at == n {
      PartUnchanged(l, e, rows[..n]);
      AddPlus(PartSums(l, rows[..n]), SumsOf(l, OfAttempt(rows[n].id)), e);
    } else {
      PartGrows(l, e, rows[..n], at);
      PlusAdd(PartSums(l, rows[..n]), SumsOf(l, OfAttempt(rows[n].id)), e);
    }
  }

  lemma {:induction false} PartEmpty(rows: seq<Row<Attempt>>)
    ensures PartSums([], rows) == ZERO
  {
    if rows != [] { PartEmpty(rows[..|rows| - 1]); }
  }

  lemma {:induction false} Partition(l: seq<Entry>, rows: seq<Row<Attempt>>)
    requires DistinctIds(rows) && forall k :: 0 <= k < |l| ==> Lookup(rows, l[k].attempt).Some?
    ensures SumsOf(l, All) == PartSums(l, rows)
  {
    hide PartSums, Lookup;
    if l == [] {
      PartEmpty(rows);
    } else {
      var t, e := l[..|l| - 1], l[|l| - 1];
      assert l == t + [e];
      Partition(t, rows);
      var at :| 0 <= at < |rows| && rows[at] == Row(e.attempt, Lookup(rows, e.attempt).value);
      PartGrows(t, e, rows, at);
      SumsSnoc(t, e, All);
    }
  }

  // --------------------------------------------------------------------- soundness

  /** One attempt's columns are its ledger sums, neither of them negative. */
  predicate AttemptBalanced(l: seq<Entry>, row: Row<Attempt>) {
    var x := SumsOf(l, OfAttempt(row.id));
    HeldIn(x) == row.value.remaining >= 0 && SpentIn(x) == row.value.cost >= 0
    && SumsOf(l, Initial(row.id)).count == 1 && SumsOf(l, Initial(row.id)).reserve == row.value.reservation
  }

  ghost predicate Balanced(s: Sheet) {
    var all, n := SumsOf(s.entries, All), CountUp(s, |s.attempts|);
    && all == PartSums(s.entries, s.attempts)
    && (forall k :: 0 <= k < |s.attempts| ==> AttemptBalanced(s.entries, s.attempts[k]))
    && HeldIn(all) == n.held == s.campaign.reserved >= 0 && SpentIn(all) == n.spent == s.campaign.spent >= 0
    && s.campaign.reserved + s.campaign.spent <= s.campaign.cap
    && s.campaign.reservedUsers + s.campaign.consumedUsers <= s.campaign.maxUsers
    && s.campaign.consumedUsers == ConsumedRows(s.invites)
  }

  lemma AttemptSilent(l: seq<Entry>, id: Id, a: Attempt, x: Context)
    requires AttemptFindings(id, a, x) == [] && x.sums == SumsOf(l, OfAttempt(id)) && x.first == SumsOf(l, Initial(id))
    ensures AttemptBalanced(l, Row(id, a))
  {
  }

  lemma CampaignSilent(c: Campaign, id: Id, all: Sums, n: Counted, consumed: int)
    requires CampaignFindings(c, id, all, n, consumed) == [] && LimitFindings(c, id, all, n) == []
    ensures HeldIn(all) == n.held == c.reserved >= 0 && SpentIn(all) == n.spent == c.spent >= 0
    ensures c.reserved + c.spent <= c.cap && c.reservedUsers + c.consumedUsers <= c.maxUsers && c.consumedUsers == consumed
  {
  }

  lemma SilentParts(s: Sheet)
    requires Findings(s) == []
    ensures AllEntryFindings(s, |s.entries|) == [] && AllAttemptFindings(s, |s.attempts|) == []
    ensures var all, n := SumsOf(s.entries, All), CountUp(s, |s.attempts|);
            CampaignFindings(s.campaign, s.id, all, n, ConsumedRows(s.invites)) == [] && LimitFindings(s.campaign, s.id, all, n) == []
  {
    hide AllEntryFindings, AllOperationFindings, AllAttemptFindings, AllInviteFindings, CampaignFindings, LimitFindings;
    hide SumsOf, CountUp, ConsumedRows;
  }

  lemma SilentRows(s: Sheet)
    requires Findings(s) == []
    ensures AllEntryFindings(s, |s.entries|) == [] && AllAttemptFindings(s, |s.attempts|) == []
  {
    hide Findings, AllEntryFindings, AllAttemptFindings, CampaignFindings, LimitFindings, SumsOf, CountUp, ConsumedRows;
    SilentParts(s);
  }

  lemma SilentAttempt(s: Sheet, k: nat)
    requires AllAttemptFindings(s, |s.attempts|) == [] && k < |s.attempts|
    ensures AttemptBalanced(s.entries, s.attempts[k])
  {
    hide AllAttemptFindings, SumsOf, RegistrationOf, Lookup, LatestSettlement, AttemptFindings, AttemptBalanced;
    NoAttemptFindings(s, |s.attempts|);
    AttemptSilent(s.entries, s.attempts[k].id, s.attempts[k].value, ContextOf(s, s.attempts[k].id, s.attempts[k].value));
  }

  lemma SilentEntry(s: Sheet, k: nat)
    requires AllEntryFindings(s, |s.entries|) == [] && k < |s.entries|
    ensures Lookup(s.attempts, s.entries[k].attempt).Some?
  {
    hide AllEntryFindings, Lookup, LinkedEntryFindings;
    NoEntryFindings(s, |s.entries|);
    assert EntryFindings(k, s.entries[k], Lookup(s.attempts, s.entries[k].attempt), OperationAt(s, s.entries[k].operation)) == [];
  }

  /** No findings: conservation, partition, cap and capacity all hold of the snapshot. */
  lemma SilenceIsBalance(s: Sheet)
    requires DistinctIds(s.attempts) && Findings(s) == []
    ensures Balanced(s)
  {
    hide Findings, AllEntryFindings, AllAttemptFindings, CampaignFindings, LimitFindings, SumsOf, CountUp, ConsumedRows, PartSums;
    hide Lookup, AttemptBalanced;
    SilentParts(s);
    forall k | 0 <= k < |s.entries| ensures Lookup(s.attempts, s.entries[k].attempt).Some? {
      SilentEntry(s, k);
    }
    Partition(s.entries, s.attempts);
    forall k | 0 <= k < |s.attempts| ensures AttemptBalanced(s.entries, s.attempts[k]) {
      SilentAttempt(s, k);
    }
    CampaignSilent(s.campaign, s.id, SumsOf(s.entries, All), CountUp(s, |s.attempts|), ConsumedRows(s.invites));
  }

  // --------------------------------------------------------------------- tampering

  /** What an amount in such a row adds to the hold, and to what was spent. */
  function HeldPart(k: EntryType, n: int): int {
    match k
    case Reserve => n
    case Recover => 0
    case _ => -n
  }

  function SpentPart(k: EntryType, n: int): int {
    match k
    case Debit => n
    case Fee => n
    case Recover => -n
    case _ => 0
  }

  lemma AddedAmounts(s: Sums, t: Sums, e: Entry, f: Entry)
    requires f == e.(amount := f.amount)
    ensures HeldIn(Add(t, f)) - HeldIn(Add(s, e)) == HeldIn(t) - HeldIn(s) + HeldPart(e.kind, f.amount - e.amount)
    ensures SpentIn(Add(t, f)) - SpentIn(Add(s, e)) == SpentIn(t) - SpentIn(s) + SpentPart(e.kind, f.amount - e.amount)
  {
  }

  lemma {:induction false} AmountChange(l: seq<Entry>, k: nat, x: int, a: Id)
    requires k < |l| && l[k].attempt == a
    ensures var s, t := SumsOf(l, OfAttempt(a)), SumsOf(l[k := l[k].(amount := x)], OfAttempt(a));
            && HeldIn(t) - HeldIn(s) == HeldPart(l[k].kind, x - l[k].amount)
            && SpentIn(t) - SpentIn(s) == SpentPart(l[k].kind, x - l[k].amount)
  {
    hide SumsOf, Add, HeldIn, SpentIn, HeldPart, SpentPart;
    var n := |l| - 1;
    var u := l[k := l[k].(amount := x)];
    assert l == l[..n] + [l[n]] && u == u[..n] + [u[n]];
    SumsSnoc(l[..n], l[n], OfAttempt(a));
    SumsSnoc(u[..n], u[n], OfAttempt(a));
    AddedAmounts(SumsOf(l[..n], OfAttempt(a)), SumsOf(u[..n], OfAttempt(a)), l[n], u[n]);
    if k == n {
      assert u[..n] == l[..n];
    } else {
      assert u[..n] == l[..n][k := l[k].(amount := x)];
      AmountChange(l[..n], k, x, a);
      NoPart(l[n].kind);
    }
  }

  lemma NoPart(k: EntryType)
    ensures HeldPart(k, 0) == 0 && SpentPart(k, 0) == 0
  {
  }

  function Without(l: seq<Entry>, k: nat): seq<Entry>
    requires k < |l|
  {
    l[..k] + l[k + 1..]
  }

  lemma {:induction false} RowRemoved(l: seq<Entry>, k: nat, a: Id)
    requires k < |l| && l[k].attempt == a
    ensures var s, t := SumsOf(l, OfAttempt(a)), SumsOf(Without(l, k), OfAttempt(a));
            && HeldIn(t) - HeldIn(s) == HeldPart(l[k].kind, -l[k].amount)
            && SpentIn(t) - SpentIn(s) == SpentPart(l[k].kind, -l[k].amount)
  {
    hide SumsOf;
    var n := |l| - 1;
    assert l == l[..n] + [l[n]];
    SumsSnoc(l[..n], l[n], OfAttempt(a));
    if k == n {
      assert Without(l, k) == l[..n];
    } else {
      assert Without(l, k) == Without(l[..n], k) + [l[n]];
      SumsSnoc(Without(l[..n], k), l[n], OfAttempt(a));
      RowRemoved(l[..n], k, a);
    }
  }

  lemma Moves(kind: EntryType, d: int)
    requires d != 0
    ensures HeldPart(kind, d) != 0 || SpentPart(kind, d) != 0
  {
  }

  /** A clean snapshot with one attempt's ledger total moved is no longer clean. */
  lemma MovedIsNoticed(s: Sheet, l: seq<Entry>, a: Id)
    requires Findings(s) == [] && Lookup(s.attempts, a).Some?
    requires var x, y := SumsOf(s.entries, OfAttempt(a)), SumsOf(l, OfAttempt(a)); HeldIn(x) != HeldIn(y) || SpentIn(x) != SpentIn(y)
    ensures Findings(s.(entries := l)) != []
  {
    hide Findings, SumsOf, AllEntryFindings, AllAttemptFindings, Lookup, HeldIn, SpentIn;
    if Findings(s.(entries := l)) == [] {
      SilentRows(s);
      SilentRows(s.(entries := l));
      var k :| 0 <= k < |s.attempts| && s.attempts[k] == Row(a, Lookup(s.attempts, a).value);
      SilentAttempt(s, k);
      SilentAttempt(s.(entries := l), k);
    }
  }

  /** Altering the amount of any one ledger row of a clean snapshot is always reported. */
  lemma AlteredAmountIsNoticed(s: Sheet, k: nat, x: int)
    requires Findings(s) == [] && k < |s.entries| && x != s.entries[k].amount
    ensures Findings(s.(entries := s.entries[k := s.entries[k].(amount := x)])) != []
  {
    hide Findings, SumsOf, AllEntryFindings, Lookup, HeldIn, SpentIn, HeldPart, SpentPart;
    var a := s.entries[k].attempt;
    SilentRows(s);
    SilentEntry(s, k);
    AmountChange(s.entries, k, x, a);
    Moves(s.entries[k].kind, x - s.entries[k].amount);
    MovedIsNoticed(s, s.entries[k := s.entries[k].(amount := x)], a);
  }

  /** Removing any ledger row that carries an amount (src/db/schema.ts:249 admits no other) is always reported. */
  lemma RemovedRowIsNoticed(s: Sheet, k: nat)
    requires Findings(s) == [] && k < |s.entries| && s.entries[k].amount != 0
    ensures Findings(s.(entries := Without(s.entries, k))) != []
  {
    hide Findings, SumsOf, AllEntryFindings, Lookup, HeldIn, SpentIn, HeldPart, SpentPart;
    var a := s.entries[k].attempt;
    SilentRows(s);
    SilentEntry(s, k);
    RowRemoved(s.entries, k, a);
    Moves(s.entries[k].kind, -s.entries[k].amount);
    MovedIsNoticed(s, Without(s.entries, k), a);
  }
}
