/**
 * The two stores as they run: one object holding the tables, each method one SQL
 * transaction that locks, checks and then rewrites rows one statement after the other.
 * Every method commits exactly what its transaction function says, or changes nothing, and
 * so leads from a good state to a good state.
 */
module Stores {
  import opened Basics
  import opened Registry
  import opened Quotes
  import opened Database
  import opened CampaignTx
  import opened ExecutionTx
  import opened Reachable
  import opened Sessions
  import Steps

  /** What the caller gets: the transaction's value, or its error code. */
  datatype Reply<+T> = Done(value: T) | Fault(code: Code)

  function Outcome<T>(t: Tx<T>): Reply<T> {
    if t.Commit? then Done(t.value) else Fault(t.code)
  }

  ghost predicate Kept(p: Policy, db: Db, db': Db) {
    Good(p, db) ==> Advances(p, db, db')
  }

  /** The transaction reads no policy. */
  ghost predicate KeptForAll(db: Db, db': Db) {
    forall p: Policy :: Good(p, db) ==> Advances(p, db, db')
  }

  lemma Bounds(db: Db, o: Id)
    requires ForeignKeys(db) && o < |db.operations|
    ensures var a := db.operations[o].attempt;
            a < |db.attempts| && db.attempts[a].campaign < |db.campaigns| && db.attempts[a].invite < |db.invites|
  {
  }

  lemma InviteBound(db: Db, id: Id)
    requires ForeignKeys(db)
    ensures id < |db.invites| ==> db.invites[id].campaign < |db.campaigns|
  {
  }

  lemma RetryNone(db: Db, id: Id, now: int)
    requires ForeignKeys(db)
    ensures RetryJobs(db, id, 0, now) == (db.jobs, db.nextJob)
  {
  }

  lemma RetryOne(db: Db, id: Id, o: Id, now: int)
    requires ForeignKeys(db) && o < |db.operations|
    ensures var (jobs, next) := RetryJobs(db, id, o, now); var op := db.operations[o];
            RetryJobs(db, id, o + 1, now)
            == if op.attempt != id || Closed(op.status) then (jobs, next)
               else if o in jobs then (jobs[o := jobs[o].(nextRunAt := now)], next)
               else (jobs[o := Job(next, now, None, 0)], next + 1)
  {
  }

  /** The registration branch of a settlement, row by row. */
  lemma RegistrationParts(op: Operation, o: Id, a: Attempt, c: Campaign, i: Invite, v: Settlement)
    requires op.kind.Registration?
    ensures var remaining := HeldAfter(op, a, c, v);
            var status: Status := if v.success then (if remaining > 0 then Finalized else Complete) else Failed;
            && SettlementEntries(op, o, a, c, v)
               == Event(op, o, Debit, v.debit - v.fee) + Event(op, o, Fee, v.fee) + Event(op, o, Release, a.remaining - v.debit - remaining)
            && SettledAttempt(op, a, c, v) == ClosedAttempt(a, v, status, remaining, v.debit)
            && SettledCampaign(op, a, c, v) == c.(
                 reserved := c.reserved - a.remaining + remaining, spent := c.spent + v.debit,
                 reservedUsers := c.reservedUsers - 1, consumedUsers := c.consumedUsers + if v.success then 1 else 0)
            && SettledInvite(op, i, a, c, v)
               == i.(status := if v.success then Consumed else i.status, active := if remaining > 0 then i.active else None)
  {
  }

  /** The recovery branch of a settlement, row by row. */
  lemma RecoveryParts(op: Operation, o: Id, a: Attempt, c: Campaign, i: Invite, v: Settlement)
    requires op.kind.Recovery?
    ensures var remaining := if v.success then 0 else a.remaining - v.fee;
            var status: Status := if v.success then Complete else Status.ManualReview;
            && SettlementEntries(op, o, a, c, v)
               == Event(op, o, Fee, v.fee) + Event(op, o, Recover, v.recovered) + Event(op, o, Release, a.remaining - remaining - v.fee)
            && SettledAttempt(op, a, c, v) == ClosedAttempt(a, v, status, remaining, v.fee - v.recovered)
            && SettledCampaign(op, a, c, v) == c.(reserved := c.reserved - a.remaining + remaining, spent := c.spent + (v.fee - v.recovered))
            && SettledInvite(op, i, a, c, v) == if v.success then i.(active := None) else i
  {
  }

  lemma ThreeAppends(l: seq<Entry>, x: seq<Entry>, y: seq<Entry>, z: seq<Entry>)
    ensures l + x + y + z == l + (x + y + z)
  {
  }

  /** What both branches write into the attempt's row. */
  function ClosedAttempt(a: Attempt, v: Settlement, status: Status, remaining: int, spentChange: int): Attempt {
    a.(status := status, remaining := remaining, cost := a.cost + spentChange, residual := Some(v.residual), slot := Some(v.slot),
       payerKey := if status.Complete? || status.Failed? then None else a.payerKey)
  }

  class Store {
    var campaigns: seq<Campaign>
    var invites: seq<Invite>
    var sessions: seq<Session>
    var quotes: seq<QuoteRow>
    var attempts: seq<Attempt>
    var operations: seq<Operation>
    var jobs: map<Id, Job>
    var nextJob: nat
    var ledger: seq<Entry>

    constructor ()
      ensures Snapshot() == EMPTY
    {
      campaigns, invites, sessions, quotes, attempts, operations, jobs, nextJob, ledger := [], [], [], [], [], [], map[], 0, [];
    }

    ghost function Snapshot(): Db
      reads this
    {
      Db(campaigns, invites, sessions, quotes, attempts, operations, jobs, nextJob, ledger)
    }

    // ------------------------------------------------------------ campaign store

    method CreateCampaign(p: Policy, n: NewCampaign) returns (r: Reply<Id>)
      modifies this
      ensures var t := CampaignTx.CreateCampaign(p, old(Snapshot()), n);
              Snapshot() == After(old(Snapshot()), t) && r == Outcome(t)
      ensures Kept(p, old(Snapshot()), Snapshot())
    {
      hide Good, Advances;
      ghost var db := Snapshot();
      if Good(p, db) { CreateAdvances(p, db, n); }
      if !ValidCampaign(p, n) {
        return Fault(InvalidInput);
      }
      if SlugTaken(campaigns, n.slug) {
        return Fault(Conflict);
      }
      r := Done(|campaigns|);
      campaigns := campaigns
        + [Campaign(Draft, n.startsAt, n.endsAt, p.id, n.sponsor, n.limits, n.cap, 0, 0, n.maxUsers, 0, 0, n.slug, n.name)];
    }

    method SetCampaignStatus(id: Id, status: CampaignStatus) returns (r: Reply<()>)
      modifies this
      ensures var t := CampaignTx.SetCampaignStatus(old(Snapshot()), id, status);
              Snapshot() == After(old(Snapshot()), t) && r == Outcome(t)
      ensures id < |old(campaigns)| && old(campaigns)[id].status.Ended? ==> r.Fault? && Snapshot() == old(Snapshot())
      ensures KeptForAll(old(Snapshot()), Snapshot())
    {
      hide Good, Advances;
      ghost var db := Snapshot();
      forall p: Policy | Good(p, db) ensures Advances(p, db, After(db, CampaignTx.SetCampaignStatus(db, id, status))) {
        StatusAdvances(p, db, id, status);
      }
      if status.Draft? {
        return Fault(InvalidInput);
      }
      if id >= |campaigns| || campaigns[id].status.Ended? {
        return Fault(CampaignUnavailable);
      }
      campaigns := campaigns[id := campaigns[id].(status := status)];
      r := Done(());
    }

    method IssueInvite(p: Policy, campaign: Id, wallet: Key, expiresAt: int, token: nat, now: int) returns (r: Reply<Id>)
      modifies this
      ensures var t := CampaignTx.IssueInvite(p, old(Snapshot()), campaign, wallet, expiresAt, token, now);
              Snapshot() == After(old(Snapshot()), t) && r == Outcome(t)
      ensures Kept(p, old(Snapshot()), Snapshot())
    {
      hide Good, Advances;
      ghost var db := Snapshot();
      if Good(p, db) { IssueAdvances(p, db, campaign, wallet, expiresAt, token, now); }
      if !p.onCurve(wallet) {
        return Fault(InvalidInput);
      }
      if campaign >= |campaigns| {
        return Fault(InviteUnavailable);
      }
      var c := campaigns[campaign];
      if c.status.Ended? || expiresAt <= now || expiresAt > c.endsAt || wallet == c.sponsor {
        return Fault(InviteUnavailable);
      }
      if InviteTaken(invites, token, campaign, wallet) {
        return Fault(Conflict);
      }
      r := Done(|invites|);
      invites := invites + [Invite(campaign, token, wallet, Open, expiresAt, None)];
    }

    method RevokeInvite(id: Id) returns (r: Reply<()>)
      modifies this
      ensures var t := CampaignTx.RevokeInvite(old(Snapshot()), id);
              Snapshot() == After(old(Snapshot()), t) && r == Outcome(t)
      ensures r.Done? ==>
                && invites == old(invites)[id := old(invites)[id].(status := Revoked)] && attempts == old(attempts) && campaigns == old(campaigns)
                && forall s :: 0 <= s < |sessions| && sessions[s].invite == id ==> sessions[s].revoked
      ensures KeptForAll(old(Snapshot()), Snapshot())
    {
      hide Good, Advances;
      ghost var db := Snapshot();
      forall p: Policy | Good(p, db) ensures Advances(p, db, After(db, CampaignTx.RevokeInvite(db, id))) {
        RevokeAdvances(p, db, id);
      }
      if id >= |invites| {
        return Fault(Unauthorized);
      }
      if invites[id].status.Consumed? {
        return Fault(InviteUnavailable);
      }
      invites := invites[id := invites[id].(status := Revoked)];
      sessions := RevokeSessions(sessions, id);
      r := Done(());
    }

    method RotateInvite(id: Id, expiresAt: int, token: nat, now: int) returns (r: Reply<()>)
      requires ForeignKeys(Snapshot())
      modifies this
      ensures var t := CampaignTx.RotateInvite(old(Snapshot()), id, expiresAt, token, now);
              Snapshot() == After(old(Snapshot()), t) && r == Outcome(t)
      ensures r.Done? ==>
                && invites == old(invites)[id := old(invites)[id].(token := token, status := Open, expiresAt := expiresAt)]
                && (forall s :: 0 <= s < |sessions| && sessions[s].invite == id ==> sessions[s].revoked)
                && (forall q :: 0 <= q < |quotes| && quotes[q].invite == id ==> !quotes[q].status.Quoted?)
      ensures KeptForAll(old(Snapshot()), Snapshot())
    {
      hide Good, Advances, TokenTaken, ForeignKeys, LapseQuotes, RevokeSessions;
      InviteBound(Snapshot(), id);
      ghost var db := Snapshot();
      forall p: Policy | Good(p, db) ensures Advances(p, db, After(db, CampaignTx.RotateInvite(db, id, expiresAt, token, now))) {
        RotateAdvances(p, db, id, expiresAt, token, now);
      }
      if id >= |invites| {
        return Fault(Unauthorized);
      }
      var i := invites[id];
      var c := campaigns[i.campaign];
      if c.status.Ended? || i.status.Consumed? || i.active.Some? || expiresAt <= now || expiresAt > c.endsAt {
        return Fault(InviteUnavailable);
      }
      if TokenTaken(invites, id, token) {
        return Fault(Conflict);
      }
      invites := invites[id := i.(token := token, status := Open, expiresAt := expiresAt)];
      sessions := RevokeSessions(sessions, id);
      quotes := LapseQuotes(quotes, QuotedOn(id));
      r := Done(());
    }

    method ExchangeInvite(p: Policy, token: nat, sessionToken: nat, now: int) returns (r: Reply<Id>)
      requires ForeignKeys(Snapshot())
      modifies this
      ensures var t := CampaignTx.ExchangeInvite(p, old(Snapshot()), token, sessionToken, now);
              Snapshot() == After(old(Snapshot()), t) && r == Outcome(t)
      ensures r.Done? ==>
                && r.value == |sessions| - 1 && sessions[r.value].token == sessionToken && !sessions[r.value].revoked
                && LiveSessions(sessions, sessions[r.value].invite) <= 5
      ensures Kept(p, old(Snapshot()), Snapshot())
    {
      hide Good, Advances;
      ghost var db := Snapshot();
      if Good(p, db) { ExchangeAdvances(p, db, token, sessionToken, now); }
      var found := FindInvite(invites, token);
      if found.None? {
        return Fault(Unauthorized);
      }
      var i := invites[found.value];
      var c := campaigns[i.campaign];
      if !UsableCampaign(p, c, now) {
        return Fault(CampaignUnavailable);
      }
      if !UsableInvite(i, now) {
        return Fault(InviteUnavailable);
      }
      if FindSession(sessions, sessionToken).Some? {
        return Fault(Conflict);
      }
      // Leaves this invite with five unrevoked sessions at most (Sessions.FiveSessionsAtMost).
      r := Done(|sessions|);
      KeptFew(sessions, found.value, 4, found.value);
      sessions := KeepNewest(sessions, found.value, 4);
      LiveSnoc(sessions, Session(found.value, sessionToken, SessionExpiry(now, i, c), false), found.value);
      sessions := sessions + [Session(found.value, sessionToken, SessionExpiry(now, i, c), false)];
    }

    /** The invite this session may act for, or why not. */
    method LockInvite(p: Policy, token: nat, now: int) returns (r: Locked)
      requires ForeignKeys(Snapshot())
      ensures r == LockSession(p, Snapshot(), token, now)
    {
      var found := FindSession(sessions, token);
      if found.None? {
        return Refused(Unauthorized);
      }
      var s := sessions[found.value];
      var i := invites[s.invite];
      if s.revoked || s.expiresAt <= now {
        return Refused(Unauthorized);
      }
      if !UsableCampaign(p, campaigns[i.campaign], now) {
        return Refused(CampaignUnavailable);
      }
      if !UsableInvite(i, now) {
        return Refused(InviteUnavailable);
      }
      r := Invited(s.invite);
    }

    method SaveQuote(p: Policy, token: nat, quote: SponsoredQuote, payerKey: string, now: int) returns (r: Reply<Id>)
      requires ForeignKeys(Snapshot())
      modifies this
      ensures var t := CampaignTx.SaveQuote(p, old(Snapshot()), token, quote, payerKey, now);
              Snapshot() == After(old(Snapshot()), t) && r == Outcome(t)
      ensures attempts == old(attempts) && campaigns == old(campaigns) && ledger == old(ledger)
      ensures Kept(p, old(Snapshot()), Snapshot())
    {
      hide ValidateStoredQuote, UsableCampaign, UsableInvite, Good, Advances;
      ghost var db := Snapshot();
      if Good(p, db) { SaveQuoteAdvances(p, db, token, quote, payerKey, now); }
      var locked := LockInvite(p, token, now);
      if locked.Refused? {
        return Fault(locked.code);
      }
      var i := invites[locked.invite];
      var checked := CheckStoredQuote(p, quote, TermsOf(campaigns[i.campaign]), i.wallet, now);
      if checked.None? {
        return Fault(QuoteUnavailable);
      }
      if i.active.Some? {
        return Fault(Conflict);
      }
      // QuotedOn skips held quotes, so no attempt's quote or key changes here.
      quotes := LapseQuotes(quotes, QuotedOn(locked.invite));
      r := Done(|quotes|);
      quotes := quotes + [QuoteRow(i.campaign, locked.invite, i.wallet, quote.name, quote, Some(payerKey), Quoted, quote.expiresAtMs)];
    }

    method ReserveAttempt(p: Policy, token: nat, quote: Id, idempotencyKey: string, now: int) returns (r: Reply<Id>)
      requires ForeignKeys(Snapshot())
      modifies this
      ensures var t := CampaignTx.ReserveAttempt(p, old(Snapshot()), token, quote, idempotencyKey, now);
              Snapshot() == After(old(Snapshot()), t) && r == Outcome(t)
      ensures Kept(p, old(Snapshot()), Snapshot())
    {
      hide ValidateStoredQuote, UsableCampaign, UsableInvite, ActiveIndexClash, QuoteLive, Good, Advances;
      ghost var db := Snapshot();
      if Good(p, db) { ReserveAdvances(p, db, token, quote, idempotencyKey, now); }
      var locked := LockInvite(p, token, now);
      if locked.Refused? {
        return Fault(locked.code);
      }
      var i := invites[locked.invite];
      var c := campaigns[i.campaign];
      var prior := FindAttempt(attempts, locked.invite, idempotencyKey);
      if prior.Some? {
        return if attempts[prior.value].quote != quote then Fault(Conflict) else Done(prior.value);
      }
      if i.active.Some? {
        return Fault(Conflict);
      }
      if quote >= |quotes| || !QuoteLive(quotes[quote], locked.invite, i, now) {
        return Fault(QuoteUnavailable);
      }
      var q := quotes[quote];
      var reservation := CheckStoredQuote(p, q.payload, TermsOf(c), i.wallet, now);
      if reservation.None? {
        return Fault(QuoteUnavailable);
      }
      if c.reserved + c.spent + reservation.value > c.cap {
        return Fault(BudgetExhausted);
      }
      if c.reservedUsers + c.consumedUsers >= c.maxUsers {
        return Fault(CapacityExhausted);
      }
      if ActiveIndexClash(attempts, q.campaign, q.wallet, q.name, q.payload.attemptPayer) {
        return Fault(Conflict);
      }
      Reserve(quote, q, reservation.value, idempotencyKey);
      r := Done(|attempts| - 1);
    }

    /** The five writes of a reservation. */
    method Reserve(quote: Id, q: QuoteRow, reservation: int, idempotencyKey: string)
      requires ForeignKeys(Snapshot()) && quote < |quotes| && q == quotes[quote]
      modifies this
      ensures Snapshot() == ReserveEffect(old(Snapshot()), quote, reservation, idempotencyKey)
    {
      var id := |attempts|;
      var c := campaigns[q.campaign];
      attempts := attempts + [NewAttempt(quote, q, reservation, idempotencyKey)];
      campaigns := campaigns[q.campaign := c.(reserved := c.reserved + reservation, reservedUsers := c.reservedUsers + 1)];
      invites := invites[q.invite := invites[q.invite].(active := Some(id))];
      quotes := quotes[quote := q.(status := Held, payerKey := None)];
      ledger := ledger + [Entry(q.campaign, id, None, EntryType.Reserve, reservation, None)];
    }

    method ExpireUnsigned(id: Id, now: int) returns (r: Reply<bool>)
      requires ForeignKeys(Snapshot())
      modifies this
      ensures var t := CampaignTx.ExpireUnsigned(old(Snapshot()), id, now);
              Snapshot() == After(old(Snapshot()), t) && r == Outcome(t)
      ensures r == Done(true) ==> old(attempts)[id].status.Prepared? && old(attempts)[id].expiresAt <= now && attempts[id].status.Expired?
      ensures KeptForAll(old(Snapshot()), Snapshot())
    {
      hide Good, Advances;
      ghost var db := Snapshot();
      forall p: Policy | Good(p, db) ensures Advances(p, db, After(db, CampaignTx.ExpireUnsigned(db, id, now))) {
        ExpireAdvances(p, db, id, now);
      }
      if id >= |attempts| {
        return Done(false);
      }
      var a := attempts[id];
      var i, c := invites[a.invite], campaigns[a.campaign];
      // Authorized attempts have left status Prepared, so Guarantees.HoldCustody does not meet this branch.
      if !a.status.Prepared? || a.expiresAt > now {
        return Done(false);
      }
      if i.active != Some(id) || c.reserved < a.reservation || c.reservedUsers < 1 {
        return Fault(Conflict);
      }
      attempts := attempts[id := a.(status := Expired, remaining := 0, payerKey := None)];
      campaigns := campaigns[a.campaign := c.(reserved := c.reserved - a.reservation, reservedUsers := c.reservedUsers - 1)];
      invites := invites[a.invite := i.(active := None)];
      quotes := quotes[a.quote := quotes[a.quote].(status := Lapsed, payerKey := None)];
      ledger := ledger + [Entry(a.campaign, id, None, Release, a.reservation, None)];
      r := Done(true);
    }

    method SweepQuotes(ids: set<Id>, now: int)
      modifies this
      ensures Snapshot() == After(old(Snapshot()), CampaignTx.SweepQuotes(old(Snapshot()), ids, now))
      ensures KeptForAll(old(Snapshot()), Snapshot())
    {
      hide Good, Advances;
      ghost var db := Snapshot();
      forall p: Policy | Good(p, db) ensures Advances(p, db, After(db, CampaignTx.SweepQuotes(db, ids, now))) {
        SweepAdvances(p, db, ids, now);
      }
      quotes := LapseQuotes(quotes, LapsedBy(ids, now));
    }

    // ------------------------------------------------------------ execution store

    method Authorize(p: Policy, token: nat, id: Id, input: Authorization, now: int) returns (r: Reply<Id>)
      requires ForeignKeys(Snapshot())
      modifies this
      ensures var t := ExecutionTx.Authorize(p, old(Snapshot()), token, id, input, now);
              Snapshot() == After(old(Snapshot()), t) && r == Outcome(t)
      ensures Kept(p, old(Snapshot()), Snapshot())
    {
      hide FreshFor, SamePolicy, ValidPreflight, Good, Advances;
      ghost var db := Snapshot();
      if Good(p, db) { AuthorizeAdvances(p, db, token, id, input, now); }
      if !ValidPreflight(input.preflight) {
        return Fault(InvalidInput);
      }
      if id >= |attempts| {
        return Fault(Unauthorized);
      }
      var a := attempts[id];
      var q := quotes[a.quote].payload;
      var found := FindSession(sessions, token);
      if found.None? || sessions[found.value].invite != a.invite || sessions[found.value].revoked || now >= sessions[found.value].expiresAt {
        return Fault(Unauthorized);
      }
      var prior := FindRegistration(operations, id);
      if prior.Some? {
        return Done(prior.value);
      }
      var c, i := campaigns[a.campaign], invites[a.invite];
      if !a.status.Prepared? || a.payerKey.None? || i.active != Some(id) || i.wallet != a.wallet
         || !c.status.Active? || c.startsAt > now || c.endsAt <= now || !i.status.Open? || i.expiresAt <= now
         || c.policyVersion != p.id || c.policyVersion != q.policyId || c.sponsor != q.sponsor {
        return Fault(Unavailable);
      }
      if !FreshFor(a, q, input.preflight, now) {
        return Fault(Code.QuoteExpired);
      }
      if !SamePolicy(a, q, input) {
        return Fault(PolicyChanged);
      }
      var o := |operations|;
      operations := operations + [NewRegistration(id, o, a, q, input.userPayload)];
      attempts := attempts[id := a.(status := Signing)];
      jobs := jobs[o := Job(nextJob, now, None, 0)];
      nextJob := nextJob + 1;
      r := Done(o);
    }

    method ClaimJob(owner: nat, operation: Id, sponsor: Option<Key>, now: int) returns (r: Reply<Option<Lease>>)
      requires ForeignKeys(Snapshot())
      modifies this
      ensures var t := ExecutionTx.ClaimJob(old(Snapshot()), owner, operation, sponsor, now);
              Snapshot() == After(old(Snapshot()), t) && r == Outcome(t)
      ensures r.Done? && r.value.Some? ==> operation in jobs && jobs[operation].hold == Some(Hold(owner, now + 45_000))
      ensures KeptForAll(old(Snapshot()), Snapshot())
    {
      hide Good, Advances;
      ghost var db := Snapshot();
      forall p: Policy | Good(p, db) ensures Advances(p, db, After(db, ExecutionTx.ClaimJob(db, owner, operation, sponsor, now))) {
        ClaimAdvances(p, db, owner, operation, sponsor, now);
      }
      if operation !in jobs {
        return Done(None);
      }
      var j := jobs[operation];
      if j.nextRunAt > now || (j.hold.Some? && now < j.hold.value.expiresAt) {
        return Done(None);
      }
      if sponsor.Some? && campaigns[operations[operation].campaign].sponsor != sponsor.value {
        return Done(None);
      }
      jobs := jobs[operation := j.(hold := Some(Hold(owner, now + 45_000)), retries := j.retries + 1)];
      r := Done(Some(Lease(j.id, operation, owner, j.retries + 1)));
    }

    /** The fence every worker mutation runs first. */
    method HoldsLease(l: Lease, now: int) returns (held: bool)
      ensures held == Holds(Snapshot(), l, now)
    {
      if l.operation !in jobs {
        return false;
      }
      var j := jobs[l.operation];
      held := j.id == l.job && j.hold.Some? && j.hold.value.owner == l.owner && now < j.hold.value.expiresAt;
    }

    method BroadcastPayload(l: Lease, now: int) returns (r: Reply<Operation>)
      requires ForeignKeys(Snapshot())
      ensures r == Outcome(ExecutionTx.BroadcastPayload(Snapshot(), l, now))
    {
      if l.operation >= |operations| {
        return Fault(Unavailable);
      }
      var held := HoldsLease(l, now);
      if !held {
        return Fault(Conflict);
      }
      var op := operations[l.operation];
      if op.signedPayload.None? || op.signature.None? || !(op.status.Signed? || op.status.Submitted? || op.status.BroadcastUnknown?) {
        return Fault(Conflict);
      }
      r := Done(op);
    }

    method PersistSigned(l: Lease, input: SignedInput, now: int) returns (r: Reply<Operation>)
      requires ForeignKeys(Snapshot())
      modifies this
      ensures var t := ExecutionTx.PersistSigned(old(Snapshot()), l, input, now);
              Snapshot() == After(old(Snapshot()), t) && r == Outcome(t)
      ensures KeptForAll(old(Snapshot()), Snapshot())
    {
      hide Holds, SignatureTaken, Good, Advances;
      ghost var db := Snapshot();
      forall p: Policy | Good(p, db) ensures Advances(p, db, After(db, ExecutionTx.PersistSigned(db, l, input, now))) {
        PersistAdvances(p, db, l, input, now);
      }
      if l.operation >= |operations| {
        return Fault(Unavailable);
      }
      var held := HoldsLease(l, now);
      if !held {
        return Fault(Conflict);
      }
      var op := operations[l.operation];
      if !op.status.Signing? || op.messageHash != input.messageHash {
        return Fault(Conflict);
      }
      if SignatureTaken(operations, l.operation, input.signature) {
        return Fault(StorageUnavailable);
      }
      op := op.(status := Signed, signedPayload := Some(Sealed(l.operation, SignedPurpose, input.bytes)),
                signature := Some(input.signature), userPayload := None);
      operations := operations[l.operation := op];
      if op.kind.Registration? {
        attempts := attempts[op.attempt := attempts[op.attempt].(status := Signed, signature := Some(input.signature))];
      }
      r := Done(op);
    }

    method Note(l: Lease, state: Status, now: int) returns (r: Reply<()>)
      requires ForeignKeys(Snapshot()) && Steps.NoteState(state)
      modifies this
      ensures var t := ExecutionTx.Note(old(Snapshot()), l, state, now);
              Snapshot() == After(old(Snapshot()), t) && r == Outcome(t)
      ensures r.Done? && old(operations)[l.operation].status.Confirmed? ==> operations[l.operation].status.Confirmed?
      ensures KeptForAll(old(Snapshot()), Snapshot())
    {
      hide Holds, Good, Advances;
      ghost var db := Snapshot();
      forall p: Policy | Good(p, db) ensures Advances(p, db, After(db, ExecutionTx.Note(db, l, state, now))) {
        NoteAdvances(p, db, l, state, now);
      }
      if l.operation >= |operations| {
        return Fault(Unavailable);
      }
      var held := HoldsLease(l, now);
      if !held {
        return Fault(Conflict);
      }
      var op := operations[l.operation];
      if op.signature.None? || op.signedPayload.None?
         || !(op.status.Signed? || op.status.Submitted? || op.status.BroadcastUnknown? || op.status.Confirmed?) {
        return Fault(Conflict);
      }
      if op.status.Confirmed? && !state.Confirmed? {
        return Done(());
      }
      operations := operations[l.operation := op.(status := state)];
      if op.kind.Registration? {
        attempts := attempts[op.attempt := attempts[op.attempt].(status := state)];
      }
      r := Done(());
    }

    method Reschedule(l: Lease, delayMs: int, now: int) returns (r: Reply<()>)
      modifies this
      ensures var t := ExecutionTx.Reschedule(old(Snapshot()), l, delayMs, now);
              Snapshot() == After(old(Snapshot()), t) && r == Outcome(t)
      ensures r.Done? ==> l.operation in jobs && jobs[l.operation].hold.None? && now <= jobs[l.operation].nextRunAt <= now + 60_000
      ensures KeptForAll(old(Snapshot()), Snapshot())
    {
      hide Good, Advances;
      ghost var db := Snapshot();
      forall p: Policy | Good(p, db) ensures Advances(p, db, After(db, ExecutionTx.Reschedule(db, l, delayMs, now))) {
        RescheduleAdvances(p, db, l, delayMs, now);
      }
      if delayMs < 0 || delayMs > 60_000 {
        return Fault(InvalidInput);
      }
      var held := HoldsLease(l, now);
      if !held {
        return Fault(Conflict);
      }
      jobs := jobs[l.operation := jobs[l.operation].(hold := None, nextRunAt := now + delayMs)];
      r := Done(());
    }

    method ManualReview(l: Lease, now: int) returns (r: Reply<()>)
      requires ForeignKeys(Snapshot())
      modifies this
      ensures var t := ManualReviewTx(old(Snapshot()), l, now);
              Snapshot() == After(old(Snapshot()), t) && r == Outcome(t)
      ensures r.Done? ==>
                l.operation !in jobs && operations[l.operation].status.ManualReview? && attempts[operations[l.operation].attempt].status.ManualReview?
      ensures KeptForAll(old(Snapshot()), Snapshot())
    {
      hide Holds, Good, Advances;
      ghost var db := Snapshot();
      forall p: Policy | Good(p, db) ensures Advances(p, db, After(db, ManualReviewTx(db, l, now))) {
        ReviewAdvances(p, db, l, now);
      }
      if l.operation >= |operations| {
        return Fault(Unavailable);
      }
      var held := HoldsLease(l, now);
      if !held {
        return Fault(Conflict);
      }
      var op := operations[l.operation];
      operations := operations[l.operation := op.(status := Status.ManualReview)];
      attempts := attempts[op.attempt := attempts[op.attempt].(status := Status.ManualReview)];
      jobs := jobs - {l.operation};
      r := Done(());
    }

    method RequestRetry(id: Id, token: Option<nat>, now: int) returns (r: Reply<()>)
      requires ForeignKeys(Snapshot())
      modifies this
      ensures var t := ExecutionTx.RequestRetry(old(Snapshot()), id, token, now);
              Snapshot() == After(old(Snapshot()), t) && r == Outcome(t)
      ensures Snapshot() == old(Snapshot()).(jobs := jobs, nextJob := nextJob)
      ensures KeptForAll(old(Snapshot()), Snapshot())
    {
      hide Good, Advances;
      ghost var db := Snapshot();
      forall p: Policy | Good(p, db) ensures Advances(p, db, After(db, ExecutionTx.RequestRetry(db, id, token, now))) {
        RetryAdvances(p, db, id, token, now);
      }
      if id >= |attempts| {
        return Fault(Unauthorized);
      }
      var i := attempts[id].invite;
      if token.Some? {
        var found := FindSession(sessions, token.value);
        if found.None? || sessions[found.value].invite != i || sessions[found.value].revoked || now >= sessions[found.value].expiresAt
           || invites[i].status.Revoked? {
          return Fault(Unauthorized);
        }
      }
      RescheduleAll(id, now);
      r := Done(());
    }

    /** The loop of requestRetry, against RetryJobs; only the two job fields are in its frame. */
    method RescheduleAll(id: Id, now: int)
      requires ForeignKeys(Snapshot())
      modifies this`jobs, this`nextJob
      ensures (jobs, nextJob) == RetryJobs(old(Snapshot()), id, |operations|, now)
    {
      hide RetryJobs, ForeignKeys;
      ghost var before := Snapshot();
      RetryNone(before, id, now);
      for o := 0 to |operations|
        invariant (jobs, nextJob) == RetryJobs(before, id, o, now)
      {
        RetryOne(before, id, o, now);
        var op := operations[o];
        if op.attempt == id && !Closed(op.status) {
          if o in jobs {
            jobs := jobs[o := jobs[o].(nextRunAt := now)];
          } else {
            jobs := jobs[o := Job(nextJob, now, None, 0)];
            nextJob := nextJob + 1;
          }
        }
      }
    }

    /** A ledger row for a positive amount; zero amounts leave no row. */
    method AppendEvent(op: Operation, o: Id, kind: EntryType, amount: int)
      modifies this`ledger
      ensures ledger == old(ledger) + Event(op, o, kind, amount)
    {
      if amount != 0 {
        ledger := ledger + [Entry(op.campaign, op.attempt, Some(o), kind, amount, op.signature)];
      }
    }

    method Settle(l: Lease, v: Settlement, now: int) returns (r: Reply<()>)
      requires ForeignKeys(Snapshot())
      modifies this
      ensures var t := ExecutionTx.Settle(old(Snapshot()), l, v, now);
              Snapshot() == After(old(Snapshot()), t) && r == Outcome(t)
      ensures r.Done? ==> l.operation !in jobs && operations[l.operation].status == (if v.success then Complete else Failed)
      ensures KeptForAll(old(Snapshot()), Snapshot())
    {
      hide Holds, Good, Advances;
      ghost var db := Snapshot();
      forall p: Policy | Good(p, db) ensures Advances(p, db, After(db, ExecutionTx.Settle(db, l, v, now))) {
        SettleAdvances(p, db, l, v, now);
      }
      if v.fee < 0 || v.debit < 0 || v.recovered < 0 || v.residual < 0 || !SafeCounter(v.slot) {
        return Fault(EvidenceInvalid);
      }
      if l.operation >= |operations| {
        return Fault(Unavailable);
      }
      var held := HoldsLease(l, now);
      if !held {
        return Fault(Conflict);
      }
      var op := operations[l.operation];
      if op.signature.None? || op.signedPayload.None? || Closed(op.status) {
        return Fault(Conflict);
      }
      if v.fee > op.feeCap || invites[attempts[op.attempt].invite].active != Some(op.attempt) {
        return Fault(EvidenceInvalid);
      }
      if op.kind.Registration? {
        r := SettleRegistration(l.operation, op, v);
      } else {
        r := SettleRecovery(l.operation, op, v);
      }
    }

    /** The writes both branches share. */
    method Close(o: Id, op: Operation, v: Settlement, status: Status, remaining: int, spentChange: int)
      requires o < |operations| && op.attempt < |attempts|
      modifies this`operations, this`attempts, this`jobs
      ensures operations == old(operations)[o := SettledOperation(op, v)]
      ensures attempts == old(attempts)[op.attempt := ClosedAttempt(old(attempts)[op.attempt], v, status, remaining, spentChange)]
      ensures jobs == old(jobs) - {o}
    {
      operations := operations[o := op.(
        status := if v.success then Complete else Failed, fee := Some(v.fee), debit := Some(v.debit), recovered := Some(v.recovered),
        evidence := Some(Evidence(v.slot, v.success, v.residual)), signedPayload := None, userPayload := None)];
      var a := attempts[op.attempt];
      attempts := attempts[op.attempt := a.(
        status := status, remaining := remaining, cost := a.cost + spentChange, residual := Some(v.residual), slot := Some(v.slot),
        payerKey := if status.Complete? || status.Failed? then None else a.payerKey)];
      jobs := jobs - {o};
    }

    method SettleRegistration(o: Id, op: Operation, v: Settlement) returns (r: Reply<()>)
      requires ForeignKeys(Snapshot()) && o < |operations| && op == operations[o] && op.kind.Registration? && v.fee <= op.feeCap
      modifies this
      ensures var db := old(Snapshot()); var fits := EvidenceFits(op, db.attempts[op.attempt], db.campaigns[db.attempts[op.attempt].campaign], v);
              && Snapshot() == (if fits then SettleEffect(db, o, v) else db)
              && r == (if fits then Done(()) else Fault(EvidenceInvalid))
    {
      var a := attempts[op.attempt];
      var c, i := campaigns[a.campaign], invites[a.invite];
      var held := a.remaining;
      if v.recovered != 0 || v.debit > op.amount || v.debit < v.fee || (!v.success && (v.debit != v.fee || v.residual != 0)) {
        return Fault(EvidenceInvalid);
      }
      var remaining := if v.success && v.residual > 0 then c.limits.recoveryAllowance else 0;
      if held < v.debit + remaining {
        return Fault(EvidenceInvalid);
      }
      BookRegistration(o, op, v, remaining);
      r := Done(());
    }

    ghost predicate InBounds(o: Id)
      reads this
    {
      && o < |operations| && operations[o].attempt < |attempts|
      && attempts[operations[o].attempt].campaign < |campaigns| && attempts[operations[o].attempt].invite < |invites|
    }

    method BookRegistration(o: Id, op: Operation, v: Settlement, remaining: int)
      requires ForeignKeys(Snapshot()) && o < |operations| && op == operations[o] && op.kind.Registration?
      requires remaining == HeldAfter(op, attempts[op.attempt], campaigns[attempts[op.attempt].campaign], v)
      modifies this
      ensures Snapshot() == SettleEffect(old(Snapshot()), o, v)
    {
      hide ForeignKeys, Event, HeldAfter, ClosedAttempt, SettlementEntries, SettledOperation, SettledAttempt, SettledCampaign, SettledInvite;
      assert InBounds(o) by { Bounds(Snapshot(), o); }
      var a := attempts[op.attempt];
      var c, i := campaigns[a.campaign], invites[a.invite];
      var held, spentChange := a.remaining, v.debit;
      var status: Status := if v.success then (if remaining > 0 then Finalized else Complete) else Failed;
      RegistrationParts(op, o, a, c, i, v);
      ThreeAppends(ledger, Event(op, o, Debit, v.debit - v.fee), Event(op, o, Fee, v.fee), Event(op, o, Release, held - spentChange - remaining));
      AppendEvent(op, o, Debit, v.debit - v.fee);
      AppendEvent(op, o, Fee, v.fee);
      AppendEvent(op, o, Release, held - spentChange - remaining);
      campaigns := campaigns[a.campaign := c.(
        reserved := c.reserved - held + remaining, spent := c.spent + spentChange,
        reservedUsers := c.reservedUsers - 1, consumedUsers := c.consumedUsers + if v.success then 1 else 0)];
      invites := invites[a.invite := i.(
        status := if v.success then Consumed else i.status, active := if remaining > 0 then i.active else None)];
      Close(o, op, v, status, remaining, spentChange);
    }

    method SettleRecovery(o: Id, op: Operation, v: Settlement) returns (r: Reply<()>)
      requires ForeignKeys(Snapshot()) && o < |operations| && op == operations[o] && op.kind.Recovery? && v.fee <= op.feeCap
      modifies this
      ensures var db := old(Snapshot()); var fits := EvidenceFits(op, db.attempts[op.attempt], db.campaigns[db.attempts[op.attempt].campaign], v);
              && Snapshot() == (if fits then SettleEffect(db, o, v) else db)
              && r == (if fits then Done(()) else Fault(EvidenceInvalid))
    {
      var a := attempts[op.attempt];
      var c, i := campaigns[a.campaign], invites[a.invite];
      var held := a.remaining;
      if v.success && (v.recovered != op.amount || v.residual != 0) {
        return Fault(EvidenceInvalid);
      }
      if !v.success && (v.recovered != 0 || v.residual != op.amount) {
        return Fault(EvidenceInvalid);
      }
      if held < v.fee {
        return Fault(EvidenceInvalid);
      }
      if a.cost + (v.fee - v.recovered) < 0 {
        return Fault(EvidenceInvalid);
      }
      BookRecovery(o, op, v);
      r := Done(());
    }

    method BookRecovery(o: Id, op: Operation, v: Settlement)
      requires ForeignKeys(Snapshot()) && o < |operations| && op == operations[o] && op.kind.Recovery?
      modifies this
      ensures Snapshot() == SettleEffect(old(Snapshot()), o, v)
    {
      hide ForeignKeys, Event, ClosedAttempt, SettlementEntries, SettledOperation, SettledAttempt, SettledCampaign, SettledInvite;
      assert InBounds(o) by { Bounds(Snapshot(), o); }
      var a := attempts[op.attempt];
      var c, i := campaigns[a.campaign], invites[a.invite];
      var held := a.remaining;
      var remaining := if v.success then 0 else held - v.fee;
      var spentChange := v.fee - v.recovered;
      var status: Status := if v.success then Complete else Status.ManualReview;
      RecoveryParts(op, o, a, c, i, v);
      ThreeAppends(ledger, Event(op, o, Fee, v.fee), Event(op, o, Recover, v.recovered), Event(op, o, Release, held - remaining - v.fee));
      AppendEvent(op, o, Fee, v.fee);
      AppendEvent(op, o, Recover, v.recovered);
      AppendEvent(op, o, Release, held - remaining - v.fee);
      campaigns := campaigns[a.campaign := c.(reserved := c.reserved - held + remaining, spent := c.spent + spentChange)];
      if v.success {
        invites := invites[a.invite := i.(active := None)];
      }
      Close(o, op, v, status, remaining, spentChange);
    }

    method ReserveRecovery(id: Id, input: RecoveryInput, now: int) returns (r: Reply<Id>)
      requires ForeignKeys(Snapshot())
      modifies this
      ensures var t := ExecutionTx.ReserveRecovery(old(Snapshot()), id, input, now);
              Snapshot() == After(old(Snapshot()), t) && r == Outcome(t)
      ensures KeptForAll(old(Snapshot()), Snapshot())
    {
      hide Good, Advances;
      ghost var db := Snapshot();
      forall p: Policy | Good(p, db) ensures Advances(p, db, After(db, ExecutionTx.ReserveRecovery(db, id, input, now))) {
        RecoverAdvances(p, db, id, input, now);
      }
      if id >= |attempts| {
        return Fault(Unauthorized);
      }
      var prior := FindActiveRecovery(operations, id);
      if prior.Some? {
        return Done(prior.value);
      }
      var a := attempts[id];
      var c, i := campaigns[a.campaign], invites[a.invite];
      if !(a.status.Finalized? || a.status.ManualReview?) || !i.status.Consumed? || i.active != Some(id) || a.payerKey.None?
         || a.residual != Some(input.amount) || input.amount <= 0 || input.fee <= 0 || input.fee > c.limits.recoveryAllowance
         || input.checkedAtMs > now + 1_000 || now - input.checkedAtMs > 5_000 {
        return Fault(Unavailable);
      }
      var held := a.remaining;
      var extra := if input.fee > held then input.fee - held else 0;
      if c.reserved + c.spent + extra > c.cap {
        return Fault(BudgetExhausted);
      }
      r := Done(|operations|);
      OpenRecovery(id, input, extra, now);
    }

    method OpenRecovery(id: Id, input: RecoveryInput, extra: int, now: int)
      requires ForeignKeys(Snapshot()) && id < |attempts| && extra >= 0
      modifies this
      ensures Snapshot() == RecoveryEffect(old(Snapshot()), id, input, extra, now)
    {
      var a := attempts[id];
      var c := campaigns[a.campaign];
      var o, op := |operations|, NewRecovery(id, a, input);
      operations := operations + [op];
      if extra > 0 {
        campaigns := campaigns[a.campaign := c.(reserved := c.reserved + extra)];
        attempts := attempts[id := a.(remaining := a.remaining + extra)];
        AppendEvent(op, o, EntryType.Reserve, extra);
      }
      jobs := jobs[o := Job(nextJob, now, None, 0)];
      nextJob := nextJob + 1;
    }
  }
}
