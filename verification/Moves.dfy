/**
 * How the invariant moves when a step rewrites one attempt together with its campaign
 * and invite, appending the ledger rows that explain the change.
 */
module Moves {
  import opened Basics
  import opened Database
  import opened Ledger
  import opened Invariant

  function Indicator(b: bool): int {
    if b then 1 else 0
  }

  /** Exactly one attempt row, its campaign row and its invite row may differ. */
  ghost predicate Touches(db: Db, db': Db, id: Id) {
    && id < |db.attempts| && |db'.attempts| == |db.attempts|
    && db'.attempts == db.attempts[id := db'.attempts[id]]
    && var a, a' := db.attempts[id], db'.attempts[id];
       && a'.campaign == a.campaign && a'.invite == a.invite
       && a.campaign < |db.campaigns| && |db'.campaigns| == |db.campaigns|
       && db'.campaigns == db.campaigns[a.campaign := db'.campaigns[a.campaign]]
       && a.invite < |db.invites| && |db'.invites| == |db.invites|
       && db'.invites == db.invites[a.invite := db'.invites[a.invite]]
       && db'.invites[a.invite].campaign == db.invites[a.invite].campaign == a.campaign
  }

  /** The invite follows the attempt: it points at it while open and is consumed by success. */
  predicate InviteFollows(id: Id, a: Attempt, a': Attempt, i: Invite, i': Invite) {
    && !Terminal(a.status)
    && i'.active == (if Terminal(a'.status) then None else Some(id))
    && (Succeeded(a') ==> i'.status.Consumed?)
    && (i'.status.Consumed? && !Terminal(a'.status) ==> Succeeded(a'))
    && (i.status.Consumed? ==> i'.status.Consumed?)
  }

  lemma PointersMove(attempts: seq<Attempt>, invites: seq<Invite>, id: Id, a': Attempt, i': Invite)
    requires PointersExact(attempts, invites) && ConsumptionExact(attempts, invites)
    requires id < |attempts| && a'.invite == attempts[id].invite && attempts[id].invite < |invites|
    requires InviteFollows(id, attempts[id], a', invites[attempts[id].invite], i')
    ensures PointersExact(attempts[id := a'], invites[a'.invite := i'])
    ensures ConsumptionExact(attempts[id := a'], invites[a'.invite := i'])
  {
    var as', rows' := attempts[id := a'], invites[a'.invite := i'];
    forall b | 0 <= b < |as'|
      ensures Terminal(as'[b].status) || rows'[as'[b].invite].active == Some(b)
      ensures Succeeded(as'[b]) ==> rows'[as'[b].invite].status.Consumed?
      ensures rows'[as'[b].invite].status.Consumed? && !Terminal(as'[b].status) ==> Succeeded(as'[b])
    {
      assert Terminal(attempts[b].status) || invites[attempts[b].invite].active == Some(b);
    }
  }

  /** The campaign's counters change by exactly what the attempt's cells change by. */
  predicate CountersFollow(a: Attempt, a': Attempt, c: Campaign, c': Campaign, i: Invite, i': Invite) {
    && c'.reserved - c.reserved == Cell(a', Remaining) - Cell(a, Remaining)
    && c'.spent - c.spent == Cell(a', CostSoFar) - Cell(a, CostSoFar)
    && c'.reservedUsers - c.reservedUsers == Cell(a', Seats) - Cell(a, Seats)
    && c'.consumedUsers - c.consumedUsers == Cell(a', Passes) - Cell(a, Passes)
    && Indicator(i'.status.Consumed?) - Indicator(i.status.Consumed?) == Cell(a', Passes) - Cell(a, Passes)
  }

  lemma CountersMove(db: Db, db': Db, id: Id)
    requires Touches(db, db', id) && Counters(db)
    requires var a := db.attempts[id];
             CountersFollow(a, db'.attempts[id], db.campaigns[a.campaign], db'.campaigns[a.campaign],
                            db.invites[a.invite], db'.invites[a.invite])
    ensures Counters(db')
  {
    var a := db.attempts[id];
    forall c: Id | c < |db'.campaigns| ensures CountersOk(db', c) {
      assert CountersOk(db, c);
      TotalUpdate(db.attempts, id, db'.attempts[id], c, Remaining);
      TotalUpdate(db.attempts, id, db'.attempts[id], c, CostSoFar);
      TotalUpdate(db.attempts, id, db'.attempts[id], c, Seats);
      TotalUpdate(db.attempts, id, db'.attempts[id], c, Passes);
      ConsumedUpdate(db.invites, a.invite, db'.invites[a.invite], c);
    }
  }

  /** Every appended row speaks of this attempt and none of them is an initial reservation. */
  ghost predicate RowsFor(rows: seq<Entry>, campaign: Id, attempt: Id, operation: Option<Id>) {
    forall k :: 0 <= k < |rows| ==>
      && rows[k].campaign == campaign && rows[k].attempt == attempt && rows[k].operation == operation
      && (operation.None? ==> !rows[k].kind.Reserve?)
  }

  /** A scope covers such rows either all together or not at all. */
  predicate Covers(g: Scope, campaign: Id, attempt: Id, operation: Option<Id>) {
    match g
    case All => true
    case InCampaign(c) => campaign == c
    case OfAttempt(a) => attempt == a
    case OfOperation(o) => operation == Some(o)
    case Initial(a) => false
  }

  lemma {:induction false} RowsSums(rows: seq<Entry>, campaign: Id, attempt: Id, operation: Option<Id>, g: Scope)
    requires RowsFor(rows, campaign, attempt, operation)
    ensures SumsOf(rows, g) == if Covers(g, campaign, attempt, operation) then SumsOf(rows, All) else ZERO
  {
    if rows != [] {
      RowsSums(rows[..|rows| - 1], campaign, attempt, operation, g);
    }
  }

  lemma AppendedSums(ledger: seq<Entry>, rows: seq<Entry>, campaign: Id, attempt: Id, operation: Option<Id>, g: Scope)
    requires RowsFor(rows, campaign, attempt, operation)
    ensures var s, t, all := SumsOf(ledger, g), SumsOf(ledger + rows, g), SumsOf(rows, All);
            && (Covers(g, campaign, attempt, operation) ==>
                  t == Plus(s, all) && HeldIn(t) == HeldIn(s) + HeldIn(all) && SpentIn(t) == SpentIn(s) + SpentIn(all))
            && (!Covers(g, campaign, attempt, operation) ==> t == s)
  {
    SumsAppend(ledger, rows, g);
    RowsSums(rows, campaign, attempt, operation, g);
  }

  lemma BooksMove(db: Db, db': Db, id: Id, operation: Option<Id>, rows: seq<Entry>)
    requires Touches(db, db', id) && AttemptBooks(db) && CampaignBooks(db)
    requires db'.ledger == db.ledger + rows && RowsFor(rows, db.attempts[id].campaign, id, operation)
    requires var a, a' := db.attempts[id], db'.attempts[id];
             var c, c' := db.campaigns[a.campaign], db'.campaigns[a.campaign]; var s := SumsOf(rows, All);
             && a'.reservation == a.reservation
             && HeldIn(s) == a'.remaining - a.remaining == c'.reserved - c.reserved
             && SpentIn(s) == a'.cost - a.cost == c'.spent - c.spent
    ensures AttemptBooks(db') && CampaignBooks(db')
  {
    hide SumsOf, RowsFor, HeldIn, SpentIn;
    var campaign := db.attempts[id].campaign;
    forall k: Id | k < |db'.attempts| ensures AttemptBooked(db', k) {
      assert AttemptBooked(db, k);
      AppendedSums(db.ledger, rows, campaign, id, operation, OfAttempt(k));
      AppendedSums(db.ledger, rows, campaign, id, operation, Initial(k));
    }
    forall k: Id | k < |db'.campaigns| ensures CampaignBooked(db', k) {
      assert CampaignBooked(db, k);
      AppendedSums(db.ledger, rows, campaign, id, operation, InCampaign(k));
    }
  }

  /** A new attempt row: its first ledger row is its reservation, and nothing else names it. */
  lemma {:induction false} NothingYet(ledger: seq<Entry>, id: Id, g: Scope)
    requires forall k :: 0 <= k < |ledger| ==> ledger[k].attempt < id
    requires g == OfAttempt(id) || g == Initial(id)
    ensures SumsOf(ledger, g) == ZERO
  {
    if ledger != [] {
      NothingYet(ledger[..|ledger| - 1], id, g);
    }
  }

  lemma {:induction false} NoRowsYet(ledger: seq<Entry>, o: Id)
    requires forall k :: 0 <= k < |ledger| ==> (ledger[k].operation.Some? ==> ledger[k].operation.value < o)
    ensures SumsOf(ledger, OfOperation(o)) == ZERO
  {
    if ledger != [] {
      NoRowsYet(ledger[..|ledger| - 1], o);
    }
  }
}
