/** Every other transaction keeps the invariant; together with settlement this covers each step. */
module StepPreserves {
  import opened Basics
  import opened Database
  import opened Ledger
  import opened Invariant
  import opened CampaignTx
  import opened ExecutionTx
  import opened Moves
  import opened SettlePreserves
  import opened Steps

  // ------------------------------------------------------- steps that move no money

  /** Invite rows may change token, expiry and revocation; new rows are unused. */
  ghost predicate InvitesCompatible(rows: seq<Invite>, rows': seq<Invite>) {
    && |rows| <= |rows'|
    && (forall i :: 0 <= i < |rows| ==> 
          && rows'[i].campaign == rows[i].campaign && rows'[i].active == rows[i].active
          && rows'[i].status.Consumed? == rows[i].status.Consumed?)
    && (forall i :: |rows| <= i < |rows'| ==> rows'[i].active.None? && !rows'[i].status.Consumed?)
  }

  /** Campaign rows may change status; new rows start empty and within their limits. */
  ghost predicate CampaignsCompatible(cs: seq<Campaign>, cs': seq<Campaign>) {
    && |cs| <= |cs'|
    && (forall c :: 0 <= c < |cs| ==> cs'[c] == cs[c].(status := cs'[c].status))
    && (forall c :: |cs| <= c < |cs'| ==> EmptyCampaign(cs'[c]))
  }

  predicate EmptyCampaign(c: Campaign) {
    WithinLimits(c) && c.reserved == 0 && c.spent == 0 && c.reservedUsers == 0 && c.consumedUsers == 0
  }

  lemma {:induction false} ConsumedSame(rows: seq<Invite>, rows': seq<Invite>, c: Id)
    requires InvitesCompatible(rows, rows')
    ensures ConsumedInvites(rows', c) == ConsumedInvites(rows, c)
    decreases |rows'|
  {
    if |rows'| > 0 {
      var n := |rows'| - 1;
      if |rows'| > |rows| {
        ConsumedSame(rows, rows'[..n], c);
      } else {
        ConsumedSame(rows[..n], rows'[..n], c);
      }
    }
  }

  lemma {:induction false} FreshTotal(attempts: seq<Attempt>, c: Id, col: Column)
    requires forall a :: 0 <= a < |attempts| ==> attempts[a].campaign < c
    ensures Total(attempts, c, col) == 0
  {
    if attempts != [] { FreshTotal(attempts[..|attempts| - 1], c, col); }
  }

  lemma {:induction false} FreshConsumed(invites: seq<Invite>, c: Id)
    requires forall i :: 0 <= i < |invites| ==> invites[i].campaign < c
    ensures ConsumedInvites(invites, c) == 0
  {
    if invites != [] { FreshConsumed(invites[..|invites| - 1], c); }
  }

  lemma {:induction false} FreshSums(ledger: seq<Entry>, c: Id)
    requires forall e :: 0 <= e < |ledger| ==> ledger[e].campaign < c
    ensures SumsOf(ledger, InCampaign(c)) == ZERO
  {
    if ledger != [] { FreshSums(ledger[..|ledger| - 1], c); }
  }

  /** Foreign keys bound the campaign of every row. */
  lemma CampaignsBounded(db: Db)
    requires ForeignKeys(db)
    ensures forall i :: 0 <= i < |db.invites| ==> db.invites[i].campaign < |db.campaigns|
    ensures forall a :: 0 <= a < |db.attempts| ==> db.attempts[a].campaign < |db.campaigns|
    ensures forall e :: 0 <= e < |db.ledger| ==> db.ledger[e].campaign < |db.campaigns|
  {
    forall a | 0 <= a < |db.attempts| ensures db.attempts[a].campaign < |db.campaigns| {
      assert db.attempts[a].campaign == db.invites[db.attempts[a].invite].campaign;
    }
    forall e | 0 <= e < |db.ledger| ensures db.ledger[e].campaign < |db.campaigns| {
      assert db.ledger[e].campaign == db.attempts[db.ledger[e].attempt].campaign;
    }
  }

  ghost predicate Quiet(db: Db, db': Db) {
    && db'.attempts == db.attempts && db'.operations == db.operations && db'.ledger == db.ledger
    && InvitesCompatible(db.invites, db'.invites) && CampaignsCompatible(db.campaigns, db'.campaigns)
  }

  lemma QuietCounters(db: Db, db': Db)
    requires ForeignKeys(db) && Counters(db) && Quiet(db, db')
    ensures Counters(db')
  {
    CampaignsBounded(db);
    forall c: Id | c < |db'.campaigns| ensures CountersOk(db', c) {
      ConsumedSame(db.invites, db'.invites, c);
      if c < |db.campaigns| {
        assert CountersOk(db, c);
      } else {
        FreshTotal(db.attempts, c, Remaining);
        FreshTotal(db.attempts, c, CostSoFar);
        FreshTotal(db.attempts, c, Seats);
        FreshTotal(db.attempts, c, Passes);
        FreshConsumed(db.invites, c);
      }
    }
  }

  lemma NothingBooked(db: Db, c: Id)
    requires forall e :: 0 <= e < |db.ledger| ==> db.ledger[e].campaign < c
    requires c < |db.campaigns| && db.campaigns[c].reserved == 0 && db.campaigns[c].spent == 0
    ensures CampaignBooked(db, c)
  {
    hide SumsOf, ForeignKeys;
    assert SumsOf(db.ledger, InCampaign(c)) == ZERO by { FreshSums(db.ledger, c); }
  }

  lemma QuietCampaignBooks(db: Db, db': Db)
    requires CampaignBooks(db) && db'.ledger == db.ledger && CampaignsCompatible(db.campaigns, db'.campaigns)
    requires forall e :: 0 <= e < |db.ledger| ==> db.ledger[e].campaign < |db.campaigns|
    ensures CampaignBooks(db')
  {
    forall c: Id | c < |db'.campaigns| ensures CampaignBooked(db', c) {
      if c < |db.campaigns| {
        assert CampaignBooked(db, c);
      } else {
        assert EmptyCampaign(db'.campaigns[c]);
        NothingBooked(db', c);
      }
    }
  }

  lemma QuietAttemptBooks(db: Db, db': Db)
    requires AttemptBooks(db) && db'.ledger == db.ledger && db'.attempts == db.attempts
    ensures AttemptBooks(db')
  {
    forall a: Id | a < |db'.attempts| ensures AttemptBooked(db', a) {
      assert AttemptBooked(db, a);
    }
  }

  lemma QuietPointers(attempts: seq<Attempt>, rows: seq<Invite>, rows': seq<Invite>)
    requires PointersExact(attempts, rows) && ConsumptionExact(attempts, rows) && InvitesCompatible(rows, rows')
    ensures PointersExact(attempts, rows') && ConsumptionExact(attempts, rows')
  {
    forall a | 0 <= a < |attempts|
      ensures Terminal(attempts[a].status) || rows'[attempts[a].invite].active == Some(a)
      ensures Succeeded(attempts[a]) ==> rows'[attempts[a].invite].status.Consumed?
      ensures rows'[attempts[a].invite].status.Consumed? && !Terminal(attempts[a].status) ==> Succeeded(attempts[a])
    {
      assert Terminal(attempts[a].status) || rows[attempts[a].invite].active == Some(a);
    }
  }

  lemma QuietBudgets(cs: seq<Campaign>, cs': seq<Campaign>)
    requires (forall c :: 0 <= c < |cs| ==> WithinLimits(cs[c])) && CampaignsCompatible(cs, cs')
    ensures forall c :: 0 <= c < |cs'| ==> WithinLimits(cs'[c])
  {
    forall c | 0 <= c < |cs'| ensures WithinLimits(cs'[c]) {
      if c < |cs| { assert WithinLimits(cs[c]); }
    }
  }

  lemma QuietPreserves(db: Db, db': Db)
    requires Inv(db) && Quiet(db, db') && ForeignKeys(db') && JobsOk(db')
    ensures Inv(db')
  {
    QuietCounters(db, db');
    CampaignsBounded(db);
    QuietCampaignBooks(db, db');
    QuietAttemptBooks(db, db');
    QuietPointers(db.attempts, db.invites, db'.invites);
    QuietBudgets(db.campaigns, db'.campaigns);
  }

  // ------------------------------------------------------------- new reservation

  lemma {:induction false} OldAttemptSums(ledger: seq<Entry>, e: Entry, k: Id)
    requires e.attempt != k
    ensures SumsOf(ledger + [e], OfAttempt(k)) == SumsOf(ledger, OfAttempt(k))
    ensures SumsOf(ledger + [e], Initial(k)) == SumsOf(ledger, Initial(k))
  {
    SumsSnoc(ledger, e, OfAttempt(k));
    SumsSnoc(ledger, e, Initial(k));
  }

  predicate FreshAttempt(a: Attempt) {
    AttemptOk(a) && a.status.Prepared?
  }

  lemma FirstRow(ledger: seq<Entry>, e: Entry, k: Id)
    requires forall i :: 0 <= i < |ledger| ==> ledger[i].attempt < k
    requires e.attempt == k && e.operation.None? && e.kind.Reserve?
    ensures SumsOf(ledger + [e], OfAttempt(k)) == SumsOf(ledger + [e], Initial(k)) == Sums(e.amount, 0, 0, 0, 0, 1)
  {
    NothingYet(ledger, k, OfAttempt(k));
    NothingYet(ledger, k, Initial(k));
    SumsSnoc(ledger, e, OfAttempt(k));
    SumsSnoc(ledger, e, Initial(k));
  }

  lemma ReserveAttemptBooks(db: Db, db': Db, a: Attempt, e: Entry)
    requires AttemptBooks(db) && FreshAttempt(a)
    requires forall k :: 0 <= k < |db.ledger| ==> db.ledger[k].attempt < |db.attempts|
    requires db'.attempts == db.attempts + [a] && db'.ledger == db.ledger + [e]
    requires e.attempt == |db.attempts| && e.operation.None? && e.kind.Reserve? && e.amount == a.reservation
    ensures AttemptBooks(db')
  {
    forall k: Id | k < |db'.attempts| ensures AttemptBooked(db', k) {
      if k < |db.attempts| {
        assert AttemptBooked(db, k);
        OldAttemptSums(db.ledger, e, k);
      } else {
        FirstRow(db.ledger, e, k);
      }
    }
  }

  lemma ReserveCampaignBooks(db: Db, db': Db, e: Entry)
    requires CampaignBooks(db) && db'.ledger == db.ledger + [e] && e.kind.Reserve?
    requires |db'.campaigns| == |db.campaigns|
    requires forall c :: 0 <= c < |db.campaigns| ==>
               db'.campaigns[c].reserved == db.campaigns[c].reserved + (if c == e.campaign then e.amount else 0)
               && db'.campaigns[c].spent == db.campaigns[c].spent
    ensures CampaignBooks(db')
  {
    forall c: Id | c < |db'.campaigns| ensures CampaignBooked(db', c) {
      assert CampaignBooked(db, c);
      SumsSnoc(db.ledger, e, InCampaign(c));
    }
  }

  lemma ReserveCounters(db: Db, db': Db, a: Attempt)
    requires Counters(db) && FreshAttempt(a) && db'.attempts == db.attempts + [a] && |db'.campaigns| == |db.campaigns|
    requires InvitesSameUse(db.invites, db'.invites)
    requires forall c :: 0 <= c < |db.campaigns| ==>
               db'.campaigns[c] == if c == a.campaign then
                   db.campaigns[c].(reserved := db.campaigns[c].reserved + a.remaining, reservedUsers := db.campaigns[c].reservedUsers + 1)
                 else db.campaigns[c]
    ensures Counters(db')
  {
    forall c: Id | c < |db'.campaigns| ensures CountersOk(db', c) {
      assert CountersOk(db, c);
      TotalSnoc(db.attempts, a, c, Remaining);
      TotalSnoc(db.attempts, a, c, CostSoFar);
      TotalSnoc(db.attempts, a, c, Seats);
      TotalSnoc(db.attempts, a, c, Passes);
      SameConsumed(db.invites, db'.invites, c);
    }
  }

  ghost predicate InvitesSameUse(rows: seq<Invite>, rows': seq<Invite>) {
    |rows'| == |rows| && forall i :: 0 <= i < |rows| ==>
      rows'[i].campaign == rows[i].campaign && rows'[i].status.Consumed? == rows[i].status.Consumed?
  }

  lemma {:induction false} SameConsumed(rows: seq<Invite>, rows': seq<Invite>, c: Id)
    requires InvitesSameUse(rows, rows')
    ensures ConsumedInvites(rows', c) == ConsumedInvites(rows, c)
  {
    if rows != [] { SameConsumed(rows[..|rows| - 1], rows'[..|rows| - 1], c); }
  }

  lemma ReservePointers(attempts: seq<Attempt>, invites: seq<Invite>, a: Attempt, i': Invite)
    requires PointersExact(attempts, invites) && ConsumptionExact(attempts, invites) && FreshAttempt(a)
    requires a.invite < |invites| && invites[a.invite].active.None? && invites[a.invite].status.Open?
    requires i' == invites[a.invite].(active := Some(|attempts|))
    ensures PointersExact(attempts + [a], invites[a.invite := i']) && ConsumptionExact(attempts + [a], invites[a.invite := i'])
  {
    var as', rows' := attempts + [a], invites[a.invite := i'];
    forall b | 0 <= b < |as'|
      ensures Terminal(as'[b].status) || rows'[as'[b].invite].active == Some(b)
      ensures Succeeded(as'[b]) ==> rows'[as'[b].invite].status.Consumed?
      ensures rows'[as'[b].invite].status.Consumed? && !Terminal(as'[b].status) ==> Succeeded(as'[b])
    {
      if b < |attempts| {
        assert Terminal(attempts[b].status) || invites[attempts[b].invite].active == Some(b);
      }
    }
  }

  lemma ReserveLifecycle(db: Db, a: Attempt)
    requires Lifecycle(db) && FreshAttempt(a)
    ensures Lifecycle(db.(attempts := db.attempts + [a]))
  {
    var as' := db.attempts + [a];
    forall o | 0 <= o < |db.operations| ensures db.operations[o].attempt < |as'| && Fits(db.operations[o], as'[db.operations[o].attempt]) {
      assert Fits(db.operations[o], db.attempts[db.operations[o].attempt]);
    }
  }

  /** The guards of reserveAttempt that the accounting relies on. */
  ghost predicate MayReserve(db: Db, quote: Id, reservation: int)
    requires ForeignKeys(db)
  {
    && quote < |db.quotes| && db.quotes[quote].payerKey.Some? && reservation > 0
    && var q := db.quotes[quote]; var c, i := db.campaigns[q.campaign], db.invites[q.invite];
       && i.active.None? && i.status.Open?
       && c.reserved + c.spent + reservation <= c.cap && c.reservedUsers + c.consumedUsers < c.maxUsers
  }

  lemma ReserveEntries(db: Db, a: Attempt, e: Entry)
    requires Lifecycle(db) && EntriesOk(db.ledger, db.attempts, db.operations)
    requires e.amount > 0 && e.attempt == |db.attempts| && e.operation.None? && e.kind.Reserve?
    ensures EntriesOk(db.ledger + [e], db.attempts + [a], db.operations)
  {
    EntriesMove(db.ledger, db.attempts, db.attempts + [a], db.operations, db.operations);
    assert EntryFits(e, db.attempts + [a], db.operations);
  }

  lemma ReserveMoney(db: Db, quote: Id, reservation: int, key: string)
    requires Inv(db) && MayReserve(db, quote, reservation)
    ensures var db' := ReserveEffect(db, quote, reservation, key);
            Counters(db') && Budgets(db') && AttemptBooks(db') && CampaignBooks(db')
  {
    var db' := ReserveEffect(db, quote, reservation, key);
    var q := db.quotes[quote];
    var a := NewAttempt(quote, q, reservation, key);
    ReserveCounters(db, db', a);
    ReserveAttemptBooks(db, db', a, Entry(q.campaign, |db.attempts|, None, Reserve, reservation, None));
    ReserveCampaignBooks(db, db', Entry(q.campaign, |db.attempts|, None, Reserve, reservation, None));
    assert WithinLimits(db.campaigns[q.campaign]);
  }

  lemma ReservePreserves(db: Db, quote: Id, reservation: int, key: string)
    requires Inv(db) && MayReserve(db, quote, reservation)
    ensures Inv(ReserveEffect(db, quote, reservation, key))
  {
    ReservedKeys(db, quote, reservation, key);
    ReserveMoney(db, quote, reservation, key);
    var q := db.quotes[quote];
    var a := NewAttempt(quote, q, reservation, key);
    ReserveLifecycle(db, a);
    ReservePointers(db.attempts, db.invites, a, db.invites[q.invite].(active := Some(|db.attempts|)));
    var e := Entry(q.campaign, |db.attempts|, None, Reserve, reservation, None);
    ReserveEntries(db, a, e);
    AppendedOperationBooks(db.operations, db.ledger, e);
  }

  lemma AppendedOperationBooks(ops: seq<Operation>, ledger: seq<Entry>, e: Entry)
    requires OperationBooks(ops, ledger) && e.operation.None?
    ensures OperationBooks(ops, ledger + [e])
  {
    forall o: Id | o < |ops| ensures OperationBooked(ops[o], SumsOf(ledger + [e], OfOperation(o))) {
      SumsSnoc(ledger, e, OfOperation(o));
      assert OperationBooked(ops[o], SumsOf(ledger, OfOperation(o)));
    }
  }

  // -------------------------------------------------------------- unsigned expiry

  predicate MayRelease(db: Db, id: Id)
    requires ForeignKeys(db)
  {
    id < |db.attempts| && db.attempts[id].status.Prepared? && db.invites[db.attempts[id].invite].active == Some(id)
  }

  lemma ReleasedRow(id: Id, a: Attempt, c: Campaign, i: Invite)
    requires AttemptOk(a) && a.status.Prepared? && i.active == Some(id)
    requires i.status.Consumed? ==> Succeeded(a)
    ensures var a' := a.(status := Expired, remaining := 0, payerKey := None);
            var c' := c.(reserved := c.reserved - a.reservation, reservedUsers := c.reservedUsers - 1);
            var i' := i.(active := None);
            AttemptOk(a') && InviteFollows(id, a, a', i, i') && CountersFollow(a, a', c, c', i, i') && (WithinLimits(c) ==> WithinLimits(c'))
  {
  }

  lemma ReleaseTouches(db: Db, id: Id)
    requires ForeignKeys(db) && id < |db.attempts|
    ensures Touches(db, ReleaseEffect(db, id), id)
  {
  }

  /** A prepared attempt has no operation yet. */
  lemma NoOperations(db: Db, id: Id)
    requires Lifecycle(db) && id < |db.attempts| && Unsigned(db.attempts[id].status)
    ensures forall o :: 0 <= o < |db.operations| ==> db.operations[o].attempt != id
  {
    forall o | 0 <= o < |db.operations| ensures db.operations[o].attempt != id {
      assert Fits(db.operations[o], db.attempts[db.operations[o].attempt]) && OperationOk(db.operations[o]);
      assert AttemptOk(db.attempts[id]);
    }
  }

  lemma ReleaseLifecycle(db: Db, id: Id, a': Attempt)
    requires Lifecycle(db) && id < |db.attempts| && db.attempts[id].status.Prepared? && AttemptOk(a') && a'.status.Expired?
    ensures Lifecycle(db.(attempts := db.attempts[id := a']))
  {
    NoOperations(db, id);
    var rows := db.attempts[id := a'];
    forall o | 0 <= o < |db.operations| ensures db.operations[o].attempt < |rows| && Fits(db.operations[o], rows[db.operations[o].attempt]) {
      assert Fits(db.operations[o], db.attempts[db.operations[o].attempt]);
    }
  }

  lemma ReleaseMoney(db: Db, id: Id)
    requires Inv(db) && MayRelease(db, id)
    ensures var db' := ReleaseEffect(db, id); Counters(db') && Budgets(db') && AttemptBooks(db') && CampaignBooks(db') && Pointers(db')
  {
    var db' := ReleaseEffect(db, id);
    var a := db.attempts[id];
    var c, i := db.campaigns[a.campaign], db.invites[a.invite];
    assert AttemptOk(a) && WithinLimits(c);
    ReleasedRow(id, a, c, i);
    ReleaseTouches(db, id);
    PointersMove(db.attempts, db.invites, id, db'.attempts[id], db'.invites[a.invite]);
    CountersMove(db, db', id);
    var e := Entry(a.campaign, id, None, Release, a.reservation, None);
    SumsOne(e, All);
    BooksMove(db, db', id, None, [e]);
  }

  lemma ReleaseEntries(db: Db, id: Id)
    requires ForeignKeys(db) && Lifecycle(db) && EntriesOk(db.ledger, db.attempts, db.operations) && MayRelease(db, id)
    ensures var db' := ReleaseEffect(db, id); EntriesOk(db'.ledger, db'.attempts, db'.operations)
  {
    var db' := ReleaseEffect(db, id);
    var a := db.attempts[id];
    assert AttemptOk(a);
    EntriesMove(db.ledger, db.attempts, db'.attempts, db.operations, db.operations);
    var e := Entry(a.campaign, id, None, Release, a.reservation, None);
    assert EntryFits(e, db'.attempts, db'.operations);
    EntriesAppend(db.ledger, [e], db'.attempts, db'.operations);
  }

  lemma ReleasePreserves(db: Db, id: Id)
    requires Inv(db) && MayRelease(db, id)
    ensures Inv(ReleaseEffect(db, id))
  {
    ReleasedKeys(db, id);
    ReleaseMoney(db, id);
    var a := db.attempts[id];
    assert AttemptOk(a);
    ReleaseLifecycle(db, id, a.(status := Expired, remaining := 0, payerKey := None));
    ReleaseEntries(db, id);
    AppendedOperationBooks(db.operations, db.ledger, Entry(a.campaign, id, None, Release, a.reservation, None));
  }

  // ----------------------------------------------------------- quiet status moves

  /** Status and signature may change; money, residual, key and openness may not. */
  predicate SameStanding(a: Attempt, a': Attempt) {
    && a' == a.(status := a'.status, signature := a'.signature)
    && Terminal(a'.status) == Terminal(a.status) && a'.status.Failed? == a.status.Failed?
    && a'.status.Expired? == a.status.Expired?
  }

  lemma {:induction false} SameTotals(attempts: seq<Attempt>, id: Id, a': Attempt, c: Id, col: Column)
    requires id < |attempts| && SameStanding(attempts[id], a')
    ensures Total(attempts[id := a'], c, col) == Total(attempts, c, col)
  {
    TotalUpdate(attempts, id, a', c, col);
  }

  lemma StandingPointers(attempts: seq<Attempt>, invites: seq<Invite>, id: Id, a': Attempt)
    requires PointersExact(attempts, invites) && ConsumptionExact(attempts, invites)
    requires id < |attempts| && SameStanding(attempts[id], a')
    ensures PointersExact(attempts[id := a'], invites) && ConsumptionExact(attempts[id := a'], invites)
  {
    var rows := attempts[id := a'];
    forall b | 0 <= b < |rows|
      ensures Terminal(rows[b].status) || invites[rows[b].invite].active == Some(b)
    {
      assert Terminal(attempts[b].status) || invites[attempts[b].invite].active == Some(b);
    }
  }

  lemma StandingMoney(db: Db, db': Db, id: Id, a': Attempt)
    requires Counters(db) && AttemptBooks(db) && CampaignBooks(db)
    requires id < |db.attempts| && SameStanding(db.attempts[id], a') && db'.attempts == db.attempts[id := a']
    requires db'.campaigns == db.campaigns && db'.invites == db.invites && db'.ledger == db.ledger
    ensures Counters(db') && AttemptBooks(db') && CampaignBooks(db')
  {
    forall c: Id | c < |db'.campaigns| ensures CountersOk(db', c) && CampaignBooked(db', c) {
      assert CountersOk(db, c) && CampaignBooked(db, c);
      SameTotals(db.attempts, id, a', c, Remaining);
      SameTotals(db.attempts, id, a', c, CostSoFar);
      SameTotals(db.attempts, id, a', c, Seats);
      SameTotals(db.attempts, id, a', c, Passes);
    }
    forall k: Id | k < |db'.attempts| ensures AttemptBooked(db', k) {
      assert AttemptBooked(db, k);
    }
  }

  lemma OpenBooks(ops: seq<Operation>, ledger: seq<Entry>, o: Id, op': Operation)
    requires OperationBooks(ops, ledger) && o < |ops| && OperationOk(ops[o]) && !Settled(ops[o]) && !Settled(op')
    ensures OperationBooks(ops[o := op'], ledger)
  {
    var rows := ops[o := op'];
    forall k: Id | k < |rows| ensures OperationBooked(rows[k], SumsOf(ledger, OfOperation(k))) {
      assert OperationBooked(ops[k], SumsOf(ledger, OfOperation(k)));
    }
  }

  /** A worker's status change on an open operation, and what it shows on the attempt. */
  ghost predicate StatusMove(db: Db, db': Db, o: Id) {
    && o < |db.operations| && db.operations[o].attempt < |db.attempts|
    && var op, a := db.operations[o], db.attempts[db.operations[o].attempt];
       && |db'.operations| == |db.operations| && |db'.attempts| == |db.attempts|
       && db'.operations == db.operations[o := db'.operations[o]]
       && db'.attempts == db.attempts[op.attempt := db'.attempts[op.attempt]]
       && db'.campaigns == db.campaigns && db'.invites == db.invites && db'.ledger == db.ledger
       && !Settled(op) && !Settled(db'.operations[o])
       && db'.operations[o].kind == op.kind && db'.operations[o].attempt == op.attempt
       && SameStanding(a, db'.attempts[op.attempt])
       && OperationOk(db'.operations[o]) && AttemptOk(db'.attempts[op.attempt]) && Fits(db'.operations[o], db'.attempts[op.attempt])
       && !Unsigned(a.status)
       && (op.kind.Recovery? ==> db'.attempts[op.attempt].signature == a.signature)
  }

  lemma StatusSiblings(db: Db, db': Db, o: Id, q: Id)
    requires Lifecycle(db) && StatusMove(db, db', o)
    requires q < |db.operations| && q != o && db.operations[q].attempt == db.operations[o].attempt
    ensures Fits(db.operations[q], db'.attempts[db.operations[o].attempt])
  {
    var op, other, a := db.operations[o], db.operations[q], db.attempts[db.operations[o].attempt];
    assert OperationOk(op) && OperationOk(other) && Fits(op, a) && Fits(other, a) && AttemptOk(a);
  }

  lemma StatusLifecycle(db: Db, db': Db, o: Id)
    requires Lifecycle(db) && StatusMove(db, db', o)
    ensures Lifecycle(db')
  {
    var id := db.operations[o].attempt;
    forall q | 0 <= q < |db.operations| && q != o && db.operations[q].attempt == id
      ensures Fits(db.operations[q], db'.attempts[id])
    {
      StatusSiblings(db, db', o, q);
    }
    LifecycleMove(db, db', o);
  }

  lemma StatusBooks(db: Db, db': Db, o: Id)
    requires OperationsOk(db.operations) && Books(db) && Counters(db) && StatusMove(db, db', o)
    ensures Books(db') && Counters(db')
  {
    var id := db.operations[o].attempt;
    StandingMoney(db, db', id, db'.attempts[id]);
    assert OperationOk(db.operations[o]);
    OpenBooks(db.operations, db.ledger, o, db'.operations[o]);
    EntriesMove(db.ledger, db.attempts, db'.attempts, db.operations, db'.operations);
  }

  lemma StatusPreserves(db: Db, db': Db, o: Id)
    requires Inv(db) && StatusMove(db, db', o) && ForeignKeys(db') && JobsOk(db')
    ensures Inv(db')
  {
    StatusLifecycle(db, db', o);
    StandingPointers(db.attempts, db.invites, db.operations[o].attempt, db'.attempts[db.operations[o].attempt]);
    StatusBooks(db, db', o);
  }

  // -------------------------------------------------------------- new operations

  /** A fresh operation, not yet signed and with nothing settled. */
  predicate FreshOperation(op: Operation) {
    OperationOk(op) && op.status.Signing?
  }

  lemma FoundInAppended(ops: seq<Operation>, op: Operation, a: Id)
    ensures FindRegistration(ops + [op], a).Some? <==> FindRegistration(ops, a).Some? || IsRegistration(op, a)
  {
    assert (ops + [op])[..|ops|] == ops;
  }

  lemma AppendedUnique(ops: seq<Operation>, op: Operation)
    requires OneRegistration(ops) && OneOpenRecovery(ops)
    requires forall o :: 0 <= o < |ops| && ops[o].attempt == op.attempt && ops[o].kind == op.kind ==>
               op.kind.Recovery? && Settled(ops[o])
    ensures OneRegistration(ops + [op]) && OneOpenRecovery(ops + [op])
  {
  }

  lemma AppendedFit(ops: seq<Operation>, attempts: seq<Attempt>, op: Operation, a': Attempt)
    requires AllFit(ops, attempts) && op.attempt < |attempts| && Fits(op, a')
    requires forall o :: 0 <= o < |ops| && ops[o].attempt == op.attempt ==> Fits(ops[o], a')
    ensures AllFit(ops + [op], attempts[op.attempt := a'])
  {
    var ops', rows := ops + [op], attempts[op.attempt := a'];
    forall o | 0 <= o < |ops'| ensures ops'[o].attempt < |rows| && Fits(ops'[o], rows[ops'[o].attempt]) {
      if o < |ops| {
        assert Fits(ops[o], attempts[ops[o].attempt]);
      }
    }
  }

  lemma AppendedRegistered(ops: seq<Operation>, attempts: seq<Attempt>, op: Operation, a': Attempt)
    requires Registered(attempts, ops) && op.attempt < |attempts|
    requires Unsigned(attempts[op.attempt].status) && !Unsigned(a'.status) ==> op.kind.Registration?
    ensures Registered(attempts[op.attempt := a'], ops + [op])
  {
    var rows := attempts[op.attempt := a'];
    forall a | 0 <= a < |rows| && !Unsigned(rows[a].status) ensures FindRegistration(ops + [op], a).Some? {
      FoundInAppended(ops, op, a);
    }
  }

  /** Appending an operation and rewriting its attempt's row keeps the lifecycle. */
  lemma LifecycleAppend(db: Db, op: Operation, a': Attempt)
    requires Lifecycle(db) && FreshOperation(op) && op.attempt < |db.attempts|
    requires AttemptOk(a') && Fits(op, a') && (Unsigned(db.attempts[op.attempt].status) && !Unsigned(a'.status) ==> op.kind.Registration?)
    requires forall o :: 0 <= o < |db.operations| && db.operations[o].attempt == op.attempt ==>
               && Fits(db.operations[o], a')
               && (db.operations[o].kind == op.kind ==> op.kind.Recovery? && Settled(db.operations[o]))
    ensures Lifecycle(db.(operations := db.operations + [op], attempts := db.attempts[op.attempt := a']))
  {
    AppendedUnique(db.operations, op);
    AppendedFit(db.operations, db.attempts, op, a');
    AppendedRegistered(db.operations, db.attempts, op, a');
  }

  /** The rows of an operation nobody mentioned before are all its ledger says. */
  lemma FirstRowsOf(ledger: seq<Entry>, campaign: Id, attempt: Id, o: Id, rows: seq<Entry>)
    requires SumsOf(ledger, OfOperation(o)) == ZERO && RowsFor(rows, campaign, attempt, Some(o))
    ensures SumsOf(ledger + rows, OfOperation(o)) == SumsOf(rows, All)
  {
    hide SumsOf, RowsFor;
    SumsAppend(ledger, rows, OfOperation(o));
    RowsSums(rows, campaign, attempt, Some(o), OfOperation(o));
  }

  lemma NewOperationBooked(ledger: seq<Entry>, op: Operation, o: Id, rows: seq<Entry>)
    requires !Settled(op) && SumsOf(ledger + rows, OfOperation(o)) == SumsOf(rows, All)
    requires SumsOf(rows, All).fee == SumsOf(rows, All).debit == SumsOf(rows, All).recovery == 0
    ensures OperationBooked(op, SumsOf(ledger + rows, OfOperation(o)))
  {
  }

  lemma OldOperationBooked(ledger: seq<Entry>, prior: Operation, k: Id, op: Operation, o: Id, rows: seq<Entry>)
    requires k != o && OperationBooked(prior, SumsOf(ledger, OfOperation(k))) && RowsFor(rows, op.campaign, op.attempt, Some(o))
    ensures OperationBooked(prior, SumsOf(ledger + rows, OfOperation(k)))
  {
    hide SumsOf, RowsFor, OperationBooked;
    SumsAppend(ledger, rows, OfOperation(k));
    RowsSums(rows, op.campaign, op.attempt, Some(o), OfOperation(k));
    assert SumsOf(ledger + rows, OfOperation(k)) == SumsOf(ledger, OfOperation(k));
  }

  lemma AppendedBooks(ops: seq<Operation>, ledger: seq<Entry>, op: Operation, rows: seq<Entry>)
    requires OperationBooks(ops, ledger) && !Settled(op) && SumsOf(ledger, OfOperation(|ops|)) == ZERO
    requires RowsFor(rows, op.campaign, op.attempt, Some(|ops|))
    requires SumsOf(rows, All).fee == SumsOf(rows, All).debit == SumsOf(rows, All).recovery == 0
    ensures OperationBooks(ops + [op], ledger + rows)
  {
    var ops' := ops + [op];
    forall k: Id | k < |ops'| ensures OperationBooked(ops'[k], SumsOf(ledger + rows, OfOperation(k))) {
      if k < |ops| {
        OldOperationBooked(ledger, ops[k], k, op, |ops|, rows);
      } else {
        FirstRowsOf(ledger, op.campaign, op.attempt, k, rows);
        NewOperationBooked(ledger, op, k, rows);
      }
    }
  }

  lemma NextOperationUnbooked(db: Db)
    requires EntryKeys(db)
    ensures SumsOf(db.ledger, OfOperation(|db.operations|)) == ZERO
  {
    NoRowsYet(db.ledger, |db.operations|);
  }

  lemma AuthorizeLifecycle(db: Db, id: Id, op: Operation, a': Attempt)
    requires Lifecycle(db) && id < |db.attempts| && db.attempts[id].status.Prepared? && FreshOperation(op)
    requires op.attempt == id && op.kind.Registration? && a' == db.attempts[id].(status := Signing)
    ensures Lifecycle(db.(operations := db.operations + [op], attempts := db.attempts[id := a']))
  {
    assert AttemptOk(db.attempts[id]);
    NoOperations(db, id);
    LifecycleAppend(db, op, a');
  }

  lemma AuthorizeBooks(db: Db, id: Id, payload: seq<Byte>, now: int)
    requires ForeignKeys(db) && Books(db) && Counters(db) && id < |db.attempts| && db.attempts[id].status.Prepared?
    ensures var db' := AuthorizeEffect(db, id, payload, now); Books(db') && Counters(db')
  {
    var db' := AuthorizeEffect(db, id, payload, now);
    var a := db.attempts[id];
    var op := NewRegistration(id, |db.operations|, a, db.quotes[a.quote].payload, payload);
    StandingMoney(db, db', id, db'.attempts[id]);
    assert db.ledger + [] == db.ledger;
    NextOperationUnbooked(db);
    AppendedBooks(db.operations, db.ledger, op, []);
    EntriesMove(db.ledger, db.attempts, db'.attempts, db.operations, db'.operations);
  }

  lemma AuthorizePreserves(db: Db, id: Id, payload: seq<Byte>, now: int)
    requires Inv(db) && id < |db.attempts| && db.attempts[id].status.Prepared?
    requires var q := db.quotes[db.attempts[id].quote].payload; q.cost.transactionFee > 0 && q.cost.maxSponsorDebit >= 0
    ensures Inv(AuthorizeEffect(db, id, payload, now))
  {
    AuthorizedKeys(db, id, payload, now);
    var db' := AuthorizeEffect(db, id, payload, now);
    var a := db.attempts[id];
    AuthorizeLifecycle(db, id, NewRegistration(id, |db.operations|, a, db.quotes[a.quote].payload, payload), db'.attempts[id]);
    StandingPointers(db.attempts, db.invites, id, db'.attempts[id]);
    AuthorizeBooks(db, id, payload, now);
  }

  // -------------------------------------------------------------------- recovery

  predicate MayReserveRecovery(db: Db, id: Id, input: RecoveryInput, extra: int, now: int)
    requires ForeignKeys(db)
  {
    && id < |db.attempts| && MayRecover(db, id, input, now) && FindActiveRecovery(db.operations, id).None?
    && extra == Max(input.fee - db.attempts[id].remaining, 0)
    && var c := db.campaigns[db.attempts[id].campaign]; c.reserved + c.spent + extra <= c.cap
  }

  lemma RecoveredRow(id: Id, a: Attempt, c: Campaign, i: Invite, extra: int)
    requires AttemptOk(a) && !Terminal(a.status) && Succeeded(a) && extra >= 0 && i.active == Some(id) && i.status.Consumed?
    ensures var a', c' := a.(remaining := a.remaining + extra), c.(reserved := c.reserved + extra);
            AttemptOk(a') && InviteFollows(id, a, a', i, i) && CountersFollow(a, a', c, c', i, i)
  {
  }

  lemma RecoveryTouches(db: Db, id: Id, input: RecoveryInput, extra: int, now: int)
    requires ForeignKeys(db) && id < |db.attempts|
    ensures Touches(db, RecoveryEffect(db, id, input, extra, now), id)
  {
  }

  lemma RecoveryRows(op: Operation, o: Id, extra: int)
    requires extra >= 0
    ensures var rows := Event(op, o, Reserve, extra); var s := SumsOf(rows, All);
            && RowsFor(rows, op.campaign, op.attempt, Some(o)) && (forall k :: 0 <= k < |rows| ==> rows[k].kind.Reserve? && rows[k].amount > 0)
            && HeldIn(s) == extra && SpentIn(s) == 0 && s.fee == s.debit == s.recovery == 0
  {
    EventSums(op, o, Reserve, extra);
  }

  lemma RecoveryCounters(db: Db, id: Id, input: RecoveryInput, extra: int, now: int)
    requires ForeignKeys(db) && AttemptsOk(db.attempts) && Pointers(db) && Counters(db) && MayReserveRecovery(db, id, input, extra, now)
    ensures var db' := RecoveryEffect(db, id, input, extra, now); Counters(db') && Pointers(db')
  {
    var db' := RecoveryEffect(db, id, input, extra, now);
    var a := db.attempts[id];
    var c, i := db.campaigns[a.campaign], db.invites[a.invite];
    assert AttemptOk(a);
    RecoveredRow(id, a, c, i, extra);
    RecoveryTouches(db, id, input, extra, now);
    PointersMove(db.attempts, db.invites, id, db'.attempts[id], i);
    assert db.invites[a.invite := i] == db.invites;
    CountersMove(db, db', id);
  }

  lemma RecoveryBooks(db: Db, id: Id, input: RecoveryInput, extra: int, now: int)
    requires ForeignKeys(db) && AttemptBooks(db) && CampaignBooks(db) && id < |db.attempts| && extra >= 0
    ensures var db' := RecoveryEffect(db, id, input, extra, now); AttemptBooks(db') && CampaignBooks(db')
  {
    var op := NewRecovery(id, db.attempts[id], input);
    RecoveryTouches(db, id, input, extra, now);
    RecoveryRows(op, |db.operations|, extra);
    BooksMove(db, RecoveryEffect(db, id, input, extra, now), id, Some(|db.operations|), Event(op, |db.operations|, Reserve, extra));
  }

  lemma RecoverySiblings(ops: seq<Operation>, id: Id, a: Attempt, extra: int)
    requires OperationsOk(ops) && FindActiveRecovery(ops, id).None? && extra >= 0
    requires forall o :: 0 <= o < |ops| && ops[o].attempt == id ==> Fits(ops[o], a)
    ensures forall o :: 0 <= o < |ops| && ops[o].attempt == id ==>
              && Fits(ops[o], a.(remaining := a.remaining + extra))
              && (ops[o].kind.Recovery? ==> Settled(ops[o]))
  {
    forall o | 0 <= o < |ops| && ops[o].attempt == id
      ensures Fits(ops[o], a.(remaining := a.remaining + extra)) && (ops[o].kind.Recovery? ==> Settled(ops[o]))
    {
      assert Fits(ops[o], a) && OperationOk(ops[o]) && !IsActiveRecovery(ops[o], id);
    }
  }

  /** The new recovery and the attempt's raised hold agree. */
  lemma RecoveryFits(id: Id, a: Attempt, input: RecoveryInput, extra: int)
    requires AttemptOk(a) && (a.status.Finalized? || a.status.ManualReview?) && a.residual == Some(input.amount)
    requires input.amount > 0 && input.fee > 0 && extra == Max(input.fee - a.remaining, 0)
    ensures var op, a' := NewRecovery(id, a, input), a.(remaining := a.remaining + extra);
            FreshOperation(op) && AttemptOk(a') && Fits(op, a')
  {
  }

  lemma RecoveryLifecycle(db: Db, id: Id, input: RecoveryInput, extra: int, now: int)
    requires ForeignKeys(db) && Lifecycle(db) && MayReserveRecovery(db, id, input, extra, now)
    ensures Lifecycle(RecoveryEffect(db, id, input, extra, now))
  {
    var a := db.attempts[id];
    assert AttemptOk(a);
    RecoveryFits(id, a, input, extra);
    RecoverySiblings(db.operations, id, a, extra);
    LifecycleAppend(db, NewRecovery(id, a, input), a.(remaining := a.remaining + extra));
  }

  lemma RecoveryEntries(db: Db, id: Id, input: RecoveryInput, extra: int, now: int)
    requires ForeignKeys(db) && EntriesOk(db.ledger, db.attempts, db.operations) && id < |db.attempts| && extra >= 0
    ensures var db' := RecoveryEffect(db, id, input, extra, now); EntriesOk(db'.ledger, db'.attempts, db'.operations)
  {
    var db' := RecoveryEffect(db, id, input, extra, now);
    var op := NewRecovery(id, db.attempts[id], input);
    var rows := Event(op, |db.operations|, Reserve, extra);
    EntriesMove(db.ledger, db.attempts, db'.attempts, db.operations, db'.operations);
    RecoveryRows(op, |db.operations|, extra);
    forall e | 0 <= e < |rows| ensures EntryFits(rows[e], db'.attempts, db'.operations) {
      assert db'.operations[|db.operations|] == op;
    }
    EntriesAppend(db.ledger, rows, db'.attempts, db'.operations);
  }

  lemma RecoveryOperationBooks(db: Db, id: Id, input: RecoveryInput, extra: int, now: int)
    requires ForeignKeys(db) && OperationBooks(db.operations, db.ledger) && id < |db.attempts| && extra >= 0
    ensures var db' := RecoveryEffect(db, id, input, extra, now); OperationBooks(db'.operations, db'.ledger)
  {
    var op := NewRecovery(id, db.attempts[id], input);
    RecoveryRows(op, |db.operations|, extra);
    NextOperationUnbooked(db);
    AppendedBooks(db.operations, db.ledger, op, Event(op, |db.operations|, Reserve, extra));
  }

  lemma RecoveryBudgets(db: Db, id: Id, input: RecoveryInput, extra: int, now: int)
    requires ForeignKeys(db) && MayReserveRecovery(db, id, input, extra, now) && Budgets(db) && JobsOk(db)
    ensures Budgets(RecoveryEffect(db, id, input, extra, now)) && JobsOk(RecoveryEffect(db, id, input, extra, now))
  {
    assert WithinLimits(db.campaigns[db.attempts[id].campaign]);
  }

  lemma RecoveryPreserves(db: Db, id: Id, input: RecoveryInput, extra: int, now: int)
    requires Inv(db) && MayReserveRecovery(db, id, input, extra, now)
    ensures Inv(RecoveryEffect(db, id, input, extra, now))
  {
    RecoveryReservedKeys(db, id, input, extra, now);
    RecoveryCounters(db, id, input, extra, now);
    RecoveryBooks(db, id, input, extra, now);
    RecoveryLifecycle(db, id, input, extra, now);
    RecoveryEntries(db, id, input, extra, now);
    RecoveryOperationBooks(db, id, input, extra, now);
    RecoveryBudgets(db, id, input, extra, now);
  }
}