/**
 * Grouped sums of the append-only ledger and column totals of the attempts table: the
 * two independent ways the same money is counted.
 */
module Ledger {
  import opened Basics
  import opened Database

  datatype Sums = Sums(reserve: int, release: int, debit: int, fee: int, recovery: int, count: int)

  const ZERO := Sums(0, 0, 0, 0, 0, 0)

  function Add(s: Sums, e: Entry): Sums {
    match e.kind
    case Reserve => s.(reserve := s.reserve + e.amount, count := s.count + 1)
    case Release => s.(release := s.release + e.amount, count := s.count + 1)
    case Debit => s.(debit := s.debit + e.amount, count := s.count + 1)
    case Fee => s.(fee := s.fee + e.amount, count := s.count + 1)
    case Recover => s.(recovery := s.recovery + e.amount, count := s.count + 1)
  }

  function Plus(s: Sums, t: Sums): Sums {
    Sums(s.reserve + t.reserve, s.release + t.release, s.debit + t.debit, s.fee + t.fee, s.recovery + t.recovery, s.count + t.count)
  }

  /** The hold these rows amount to; recovery rows count in SpentIn alone. */
  function HeldIn(s: Sums): int {
    s.reserve - s.release - s.debit - s.fee
  }

  function SpentIn(s: Sums): int {
    s.debit + s.fee - s.recovery
  }

  /** A grouping of ledger rows; `Initial` is an attempt's own reservation row. */
  datatype Scope = All | InCampaign(id: Id) | OfAttempt(id: Id) | OfOperation(id: Id) | Initial(id: Id)

  predicate Selects(g: Scope, e: Entry) {
    match g
    case All => true
    case InCampaign(c) => e.campaign == c
    case OfAttempt(a) => e.attempt == a
    case OfOperation(o) => e.operation == Some(o)
    case Initial(a) => e.attempt == a && e.operation.None? && e.kind.Reserve?
  }

  function SumsOf(l: seq<Entry>, g: Scope): Sums {
    if l == [] then ZERO
    else
      var rest := SumsOf(l[..|l| - 1], g);
      if Selects(g, l[|l| - 1]) then Add(rest, l[|l| - 1]) else rest
  }

  lemma SumsSnoc(l: seq<Entry>, e: Entry, g: Scope)
    ensures SumsOf(l + [e], g) == if Selects(g, e) then Add(SumsOf(l, g), e) else SumsOf(l, g)
  {
    assert (l + [e])[..|l|] == l;
  }

  lemma NoSums(g: Scope)
    ensures SumsOf([], g) == ZERO
  {
  }

  lemma {:induction false} SumsAppend(l: seq<Entry>, m: seq<Entry>, g: Scope)
    ensures SumsOf(l + m, g) == Plus(SumsOf(l, g), SumsOf(m, g))
  {
    hide SumsOf, Add;
    if m == [] {
      NoSums(g);
      assert l + m == l;
    } else {
      var n, e := m[..|m| - 1], m[|m| - 1];
      SumsAppend(l, n, g);
      SumsSnoc(l + n, e, g);
      SumsSnoc(n, e, g);
      AddPlus(SumsOf(l, g), SumsOf(n, g), e);
      assert l + m == (l + n) + [e] && m == n + [e];
    }
  }

  lemma AddPlus(s: Sums, t: Sums, e: Entry)
    ensures Plus(s, Add(t, e)) == Add(Plus(s, t), e)
  {
  }

  lemma SumsOne(e: Entry, g: Scope)
    ensures SumsOf([e], g) == if Selects(g, e) then Add(ZERO, e) else ZERO
  {
    assert [e][..0] == [];
    assert SumsOf([], g) == ZERO;
  }

  // ------------------------------------------------------------- column totals

  /** The registration of this attempt finalized successfully. */
  predicate Succeeded(a: Attempt) {
    a.residual.Some? && !a.status.Failed?
  }

  predicate HoldsSeat(a: Attempt) {
    !Terminal(a.status) && !Succeeded(a)
  }

  datatype Column = Remaining | CostSoFar | Seats | Passes

  function Cell(a: Attempt, col: Column): int {
    match col
    case Remaining => a.remaining
    case CostSoFar => a.cost
    case Seats => if HoldsSeat(a) then 1 else 0
    case Passes => if Succeeded(a) then 1 else 0
  }

  function Total(attempts: seq<Attempt>, campaign: Id, col: Column): int {
    if attempts == [] then 0
    else
      var last := attempts[|attempts| - 1];
      Total(attempts[..|attempts| - 1], campaign, col) + (if last.campaign == campaign then Cell(last, col) else 0)
  }

  lemma TotalSnoc(attempts: seq<Attempt>, a: Attempt, campaign: Id, col: Column)
    ensures Total(attempts + [a], campaign, col) == Total(attempts, campaign, col) + (if a.campaign == campaign then Cell(a, col) else 0)
  {
    assert (attempts + [a])[..|attempts|] == attempts;
  }

  lemma {:induction false} TotalUpdate(attempts: seq<Attempt>, i: nat, a: Attempt, campaign: Id, col: Column)
    requires i < |attempts| && a.campaign == attempts[i].campaign
    ensures Total(attempts[i := a], campaign, col)
         == Total(attempts, campaign, col) + (if a.campaign == campaign then Cell(a, col) - Cell(attempts[i], col) else 0)
  {
    var n := |attempts| - 1;
    var u := attempts[i := a];
    if i == n {
      assert u[..n] == attempts[..n];
    } else {
      assert u[..n] == attempts[..n][i := a];
      TotalUpdate(attempts[..n], i, a, campaign, col);
    }
  }

  lemma {:induction false} TotalAtLeast(attempts: seq<Attempt>, i: nat, campaign: Id, col: Column)
    requires i < |attempts| && attempts[i].campaign == campaign
    requires forall k :: 0 <= k < |attempts| ==> Cell(attempts[k], col) >= 0
    ensures Cell(attempts[i], col) <= Total(attempts, campaign, col)
  {
    var n := |attempts| - 1;
    if i == n {
      TotalNonNegative(attempts[..n], campaign, col);
    } else {
      TotalAtLeast(attempts[..n], i, campaign, col);
    }
  }

  lemma {:induction false} TotalNonNegative(attempts: seq<Attempt>, campaign: Id, col: Column)
    requires forall k :: 0 <= k < |attempts| ==> Cell(attempts[k], col) >= 0
    ensures Total(attempts, campaign, col) >= 0
  {
    if attempts != [] {
      TotalNonNegative(attempts[..|attempts| - 1], campaign, col);
    }
  }

  function ConsumedInvites(invites: seq<Invite>, campaign: Id): int {
    if invites == [] then 0
    else
      var last := invites[|invites| - 1];
      ConsumedInvites(invites[..|invites| - 1], campaign) + (if last.campaign == campaign && last.status.Consumed? then 1 else 0)
  }

  lemma {:induction false} ConsumedUpdate(invites: seq<Invite>, k: nat, i: Invite, campaign: Id)
    requires k < |invites| && i.campaign == invites[k].campaign
    ensures ConsumedInvites(invites[k := i], campaign) == ConsumedInvites(invites, campaign)
      + (if i.campaign == campaign then (if i.status.Consumed? then 1 else 0) - (if invites[k].status.Consumed? then 1 else 0) else 0)
  {
    var n := |invites| - 1;
    var u := invites[k := i];
    if k == n {
      assert u[..n] == invites[..n];
    } else {
      assert u[..n] == invites[..n][k := i];
      ConsumedUpdate(invites[..n], k, i, campaign);
    }
  }
}
