/**
 * What follows for every run: fencing, statuses that absorb, custody of holds and of
 * payer keys, and what an authorization rests on.
 */
module Guarantees {
  import opened Basics
  import opened Registry
  import opened Quotes
  import opened Database
  import opened Invariant
  import opened CampaignTx
  import opened ExecutionTx
  import opened Steps
  import opened Evolution
  import opened Pins
  import opened Reachable
  import opened Custody
  import opened SponsoredMessage

  // --------------------------------------------------------------------- fencing

  /** A worker mutation without the current, unexpired lease changes nothing. */
  lemma FenceHolds(p: Policy, db: Db, s: Step, now: int)
    requires ForeignKeys(db) && LeasedStep(s) && !Holds(db, s.lease, now)
    ensures Apply(p, db, s, now) == db
  {
    hide ForeignKeys, CreateCampaign, SetCampaignStatus, IssueInvite, RevokeInvite, RotateInvite, ExchangeInvite, SaveQuote;
    hide ReserveAttempt, ExpireUnsigned, SweepQuotes, Authorize, ClaimJob, RequestRetry, ReserveRecovery, EvidenceFits, SettleEffect, Holds;
  }

  /** The holder's own ways of giving its job up before the lease runs out. */
  predicate GivesUp(s: Step, l: Lease) {
    (s.DoReschedule? || s.DoManualReview? || s.DoSettle?)
    && s.lease.operation == l.operation && s.lease.job == l.job && s.lease.owner == l.owner
  }

  /** The job is this one, held by this owner until then. */
  predicate HeldUntil(db: Db, l: Lease, until: int) {
    l.operation in db.jobs && db.jobs[l.operation].id == l.job && db.jobs[l.operation].hold == Some(Hold(l.owner, until))
  }

  lemma CampaignStepKeepsJobs(p: Policy, db: Db, s: Step, now: int)
    requires ForeignKeys(db) && CampaignStep(s)
    ensures Apply(p, db, s, now).jobs == db.jobs
  {
    hide ForeignKeys, LapseQuotes, KeepNewest, RevokeSessions, FindAttempt, FindSession, FindInvite, ValidateStoredQuote, LockSession;
  }

  lemma HolderKeepsLease(p: Policy, db: Db, s: Step, now: int, l: Lease, until: int)
    requires ForeignKeys(db) && HeldUntil(db, l, until) && LeasedStep(s) && Holds(db, s.lease, now) && !GivesUp(s, l)
    ensures HeldUntil(Apply(p, db, s, now), l, until)
  {
    hide EvidenceFits, SettledOperation, SettledAttempt, SettledCampaign, SettledInvite, SettlementEntries, SignatureTaken, ForeignKeys;
  }

  lemma OthersKeepLease(p: Policy, db: Db, s: Step, now: int, l: Lease, until: int)
    requires ForeignKeys(db) && HeldUntil(db, l, until) && now < until && !CampaignStep(s) && !LeasedStep(s)
    ensures HeldUntil(Apply(p, db, s, now), l, until)
  {
    hide RetryJobs, FindRegistration, FindActiveRecovery, FindSession;
  }

  lemma StepKeepsLease(p: Policy, db: Db, s: Step, now: int, l: Lease, until: int)
    requires ForeignKeys(db) && HeldUntil(db, l, until) && now < until && !GivesUp(s, l)
    ensures HeldUntil(Apply(p, db, s, now), l, until)
  {
    hide ForeignKeys, Apply, GivesUp, Holds;
    if CampaignStep(s) {
      CampaignStepKeepsJobs(p, db, s, now);
    } else if !LeasedStep(s) {
      OthersKeepLease(p, db, s, now, l, until);
    } else if Holds(db, s.lease, now) {
      HolderKeepsLease(p, db, s, now, l, until);
    } else {
      FenceHolds(p, db, s, now);
    }
  }

  lemma {:induction false} RunKeepsLease(p: Policy, db: Db, steps: seq<Timed>, l: Lease, until: int)
    requires ForeignKeys(db) && HeldUntil(db, l, until)
    requires forall k :: 0 <= k < |steps| ==> steps[k].now < until && !GivesUp(steps[k].step, l)
    ensures HeldUntil(Run(p, db, steps), l, until)
  {
    hide ForeignKeys, Apply, GivesUp, HeldUntil;
    if steps != [] {
      var init, last := steps[..|steps| - 1], steps[|steps| - 1];
      RunKeepsLease(p, db, init, l, until);
      StepKeepsLease(p, Run(p, db, init), last.step, last.now, l, until);
    }
  }

  lemma ClaimHolds(db: Db, owner: nat, id: Id, sponsor: Option<Key>, now: int)
    requires ForeignKeys(db) && ClaimJob(db, owner, id, sponsor, now).Commit? && ClaimJob(db, owner, id, sponsor, now).value.Some?
    ensures var c := ClaimJob(db, owner, id, sponsor, now);
            && c.value.value.owner == owner && c.value.value.operation == id
            && ForeignKeys(c.db) && HeldUntil(c.db, c.value.value, now + 45_000)
  {
    ClaimKeys(db, owner, id, sponsor, now);
  }

  /**
   * From a claim until its expiry, whatever anybody runs in between and in whatever order,
   * no other owner's step on that operation and no other claim of it changes any table,
   * unless the holder itself gave the job up.
   */
  lemma ClaimExcludesOthers(
    p: Policy, db: Db, owner: nat, id: Id, sponsor: Option<Key>, now: int, steps: seq<Timed>, s: Step, at: int)
    requires ForeignKeys(db) && ClaimJob(db, owner, id, sponsor, now).Commit? && ClaimJob(db, owner, id, sponsor, now).value.Some?
    requires var l := ClaimJob(db, owner, id, sponsor, now).value.value;
             forall k :: 0 <= k < |steps| ==> steps[k].now < now + 45_000 && !GivesUp(steps[k].step, l)
    requires at < now + 45_000
    ensures var c := ClaimJob(db, owner, id, sponsor, now);
            && ForeignKeys(c.db) && Holds(Run(p, c.db, steps), c.value.value, at)
            && (LeasedStep(s) && s.lease.operation == id && (s.lease.owner != owner || s.lease.job != c.value.value.job) ==>
                  Apply(p, Run(p, c.db, steps), s, at) == Run(p, c.db, steps))
            && (s.DoClaimJob? && s.id == id ==> Apply(p, Run(p, c.db, steps), s, at) == Run(p, c.db, steps))
  {
    hide ForeignKeys, Run, ClaimJob, GivesUp, Apply;
    ClaimHolds(db, owner, id, sponsor, now);
    var c := ClaimJob(db, owner, id, sponsor, now);
    RunKeepsLease(p, c.db, steps, c.value.value, now + 45_000);
    var db' := Run(p, c.db, steps);
    if LeasedStep(s) && !Holds(db', s.lease, at) { FenceHolds(p, db', s, at); }
    if s.DoClaimJob? && s.id == id { ClaimRefused(p, db', s, at, c.value.value); }
  }

  lemma ClaimRefused(p: Policy, db: Db, s: Step, now: int, l: Lease)
    requires ForeignKeys(db) && Holds(db, l, now) && s.DoClaimJob? && s.id == l.operation
    ensures Apply(p, db, s, now) == db
  {
  }

  /** Settled operations and terminal attempts are frozen, and jobs exist only for open operations. */
  lemma StatusesAbsorb(p: Policy, db: Db, steps: seq<Timed>)
    requires Good(p, db)
    ensures var db' := Run(p, db, steps);
            && |db.operations| <= |db'.operations| && |db.attempts| <= |db'.attempts|
            && (forall o :: 0 <= o < |db.operations| && Settled(db.operations[o]) ==> db'.operations[o] == db.operations[o] && o !in db'.jobs)
            && (forall a :: 0 <= a < |db.attempts| && Terminal(db.attempts[a].status) ==> db'.attempts[a] == db.attempts[a])
            && db.ledger <= db'.ledger
  {
    hide Run, Pinned, Lifecycle, Pointers, Counters, Budgets, Books;
    RunAdvances(p, db, steps);
    var db' := Run(p, db, steps);
    forall o | 0 <= o < |db.operations| && Settled(db.operations[o]) ensures db'.operations[o] == db.operations[o] {
      assert SameOperation(db.operations[o], db'.operations[o]);
    }
    forall a | 0 <= a < |db.attempts| && Terminal(db.attempts[a].status) ensures db'.attempts[a] == db.attempts[a] {
      assert SameAttempt(db.attempts[a], db'.attempts[a]);
    }
  }

  /** Once confirmed, under review or settled, an operation's payload is never released again. */
  lemma NeverReleasedAgain(p: Policy, db: Db, steps: seq<Timed>, l: Lease, now: int)
    requires Good(p, db) && l.operation < |db.operations| && Withheld(db.operations[l.operation])
    ensures BroadcastPayload(Run(p, db, steps), l, now).Abort?
  {
    hide Run, Inv, Pinned, Holds;
    KeysOf(db);
    RunAdvances(p, db, steps);
    assert SameOperation(db.operations[l.operation], Run(p, db, steps).operations[l.operation]);
  }

  /** A persisted signature is final: no later state shows another one, nor other bytes. */
  lemma OneSignedPayload(p: Policy, db: Db, steps: seq<Timed>, o: Id)
    requires Good(p, db) && o < |db.operations| && db.operations[o].signature.Some?
    ensures var db' := Run(p, db, steps);
            && o < |db'.operations| && db'.operations[o].signature == db.operations[o].signature
            && (db'.operations[o].signedPayload.Some? ==> db'.operations[o].signedPayload == db.operations[o].signedPayload)
  {
    hide Run, Inv, Pinned;
    KeysOf(db);
    RunAdvances(p, db, steps);
    assert SameOperation(db.operations[o], Run(p, db, steps).operations[o]);
  }

  // --------------------------------------------------------------------- custody

  ghost predicate NoSettlement(steps: seq<Timed>) {
    forall k :: 0 <= k < |steps| ==> !steps[k].step.DoSettle?
  }

  /** No expiry, sweep, pause, revocation, rotation or anything else lowers an authorized hold. */
  lemma {:induction false} HoldCustody(p: Policy, db: Db, steps: seq<Timed>, a: Id)
    requires Good(p, db) && NoSettlement(steps) && a < |db.attempts| && !Unsigned(db.attempts[a].status)
    ensures var db' := Run(p, db, steps);
            && a < |db'.attempts| && db.attempts[a].remaining <= db'.attempts[a].remaining
            && db'.attempts[a].cost == db.attempts[a].cost && !Unsigned(db'.attempts[a].status)
  {
    hide Inv, Pinned, Apply, SameAttempt, ForeignKeys;
    KeysOf(db);
    if steps != [] {
      var last := steps[|steps| - 1];
      var init := steps[..|steps| - 1];
      HoldCustody(p, db, init, a);
      RunAdvances(p, db, init);
      RunAdvances(p, db, steps);
      assert SameAttempt(db.attempts[a], Run(p, db, steps).attempts[a]);
      StillAuthorized(db.attempts[a], Run(p, db, steps).attempts[a]);
      OnlySettleSettles(p, Run(p, db, init), last.step, last.now);
      assert Untaken(Run(p, db, init).attempts[a], Run(p, db, steps).attempts[a]);
    }
  }

  lemma StillAuthorized(a: Attempt, a': Attempt)
    requires SameAttempt(a, a') && !Unsigned(a.status)
    ensures !Unsigned(a'.status)
  {
  }

  /** Rows of the attempts table that hold this quote's payer key. */
  function KeyCopies(attempts: seq<Attempt>, q: Id): nat {
    if attempts == [] then 0
    else
      var last := attempts[|attempts| - 1];
      KeyCopies(attempts[..|attempts| - 1], q) + if last.quote == q && last.payerKey.Some? then 1 else 0
  }

  function KeyRows(db: Db, q: Id): nat
    requires q < |db.quotes|
  {
    KeyCopies(db.attempts, q) + if db.quotes[q].payerKey.Some? then 1 else 0
  }

  ghost predicate AttemptOpen(db: Db, q: Id) {
    exists a :: 0 <= a < |db.attempts| && db.attempts[a].quote == q && !Terminal(db.attempts[a].status)
  }

  /** The quote is live, or an attempt made from it is still open. */
  ghost predicate KeyNeeded(db: Db, q: Id)
    requires q < |db.quotes|
  {
    db.quotes[q].status.Quoted? || AttemptOpen(db, q)
  }

  lemma {:induction false} NoCopies(attempts: seq<Attempt>, q: Id)
    requires forall a :: 0 <= a < |attempts| && attempts[a].quote == q ==> attempts[a].payerKey.None?
    ensures KeyCopies(attempts, q) == 0
  {
    if attempts != [] { NoCopies(attempts[..|attempts| - 1], q); }
  }

  lemma {:induction false} OneCopy(attempts: seq<Attempt>, q: Id, a: Id)
    requires a < |attempts| && attempts[a].quote == q && attempts[a].payerKey.Some?
    requires forall b :: 0 <= b < |attempts| && b != a ==> attempts[b].quote != q
    ensures KeyCopies(attempts, q) == 1
  {
    var n := |attempts| - 1;
    if a == n {
      NoCopies(attempts[..n], q);
    } else {
      OneCopy(attempts[..n], q, a);
    }
  }

  predicate OwesResidual(a: Attempt) {
    a.residual.Some? && a.residual.value > 0
  }

  lemma KeyWithAttempt(a: Attempt)
    requires AttemptOk(a)
    ensures a.payerKey.Some? <==> !Terminal(a.status)
    ensures OwesResidual(a) ==> a.payerKey.Some?
  {
  }

  lemma CustodyFacts(p: Policy, db: Db, q: Id)
    requires Good(p, db) && q < |db.quotes|
    ensures db.quotes[q].status.Quoted? <==> db.quotes[q].payerKey.Some?
    ensures forall a :: 0 <= a < |db.attempts| ==> AttemptOk(db.attempts[a])
    ensures forall a :: 0 <= a < |db.attempts| && db.attempts[a].quote == q ==> !db.quotes[q].status.Quoted?
    ensures forall a, b :: 0 <= a < |db.attempts| && 0 <= b < |db.attempts| && a != b ==> db.attempts[a].quote != db.attempts[b].quote
  {
    hide Sound, Pointers, Counters, Budgets, Books, AttemptsPinned, OperationsPinned, ForeignKeys, AttemptOk;
  }

  /**
   * The encrypted payer key of a quote is in exactly one row while the quote is live or its
   * attempt open (in particular while a residual is positive), and in none otherwise.
   */
  lemma KeyCustody(p: Policy, db: Db, q: Id)
    requires Good(p, db) && q < |db.quotes|
    ensures KeyRows(db, q) == if KeyNeeded(db, q) then 1 else 0
    ensures forall a :: 0 <= a < |db.attempts| && db.attempts[a].quote == q && OwesResidual(db.attempts[a]) ==>
              KeyRows(db, q) == 1 && db.attempts[a].payerKey.Some?
  {
    hide Good, AttemptOk, KeyCopies;
    CustodyFacts(p, db, q);
    forall a | 0 <= a < |db.attempts|
      ensures db.attempts[a].payerKey.Some? <==> !Terminal(db.attempts[a].status)
      ensures OwesResidual(db.attempts[a]) ==> db.attempts[a].payerKey.Some?
    {
      KeyWithAttempt(db.attempts[a]);
    }
    if AttemptOpen(db, q) {
      var a :| 0 <= a < |db.attempts| && db.attempts[a].quote == q && !Terminal(db.attempts[a].status);
      OneCopy(db.attempts, q, a);
    } else {
      NoCopies(db.attempts, q);
    }
  }

  /** And wherever it is held, it is the key first saved with the quote. */
  lemma KeyUnchanged(p: Policy, db: Db, steps: seq<Timed>, q: Id)
    requires Good(p, db) && q < |db.quotes|
    ensures var db' := Run(p, db, steps);
            && q < |db'.quotes| && (db'.quotes[q].payerKey.None? || db'.quotes[q].payerKey == db.quotes[q].payerKey)
            && (forall a :: 0 <= a < |db'.attempts| && db'.attempts[a].quote == q && db'.attempts[a].payerKey.Some? ==>
                  db'.attempts[a].payerKey == if a < |db.attempts| then db.attempts[a].payerKey else db.quotes[q].payerKey)
  {
    hide Run, Inv, Pinned;
    KeysOf(db);
    RunAdvances(p, db, steps);
    var db' := Run(p, db, steps);
    assert SameQuote(db.quotes[q], db'.quotes[q]);
    forall a | 0 <= a < |db'.attempts| && db'.attempts[a].quote == q && db'.attempts[a].payerKey.Some?
      ensures db'.attempts[a].payerKey == if a < |db.attempts| then db.attempts[a].payerKey else db.quotes[q].payerKey
    {
      if a < |db.attempts| {
        assert SameAttempt(db.attempts[a], db'.attempts[a]);
      } else {
        assert KeyHandedOver(db.quotes, db'.attempts[a]);
      }
    }
  }

  // --------------------------------------------------------------- authorization

  lemma SoundQuote(p: Policy, q: SponsoredQuote, t: Terms, wallet: Key, now: int)
    requires Sound(p, q, t, wallet)
    ensures Accepts(p, q.message, MessageInput(q, q.feeReceiver)) && q.messageSha256 == Sha256(q.message)
    ensures CostWithin(q.cost, t.limits)
    ensures ValidateStoredQuote(p, q, t, wallet, now).Some? <==> q.preparedAtMs - 1_000 <= now < q.expiresAtMs
  {
    hide Accepts;
    WindowIsExact(p, q, t, wallet, q.preparedAtMs, now);
  }

  lemma QuoteIsSound(p: Policy, db: Db, a: Id)
    requires Good(p, db) && ForeignKeys(db) && a < |db.attempts|
    ensures var q := db.quotes[db.attempts[a].quote]; var c := db.campaigns[db.attempts[a].campaign];
            && Sound(p, q.payload, TermsOf(c), db.invites[db.attempts[a].invite].wallet)
            && db.attempts[a].reservation == q.payload.cost.maximumReservation
  {
    hide Sound, Lifecycle, Pointers, Counters, Budgets, Books, OperationsPinned, AttemptCustody, OpenLast;
    assert AttemptPinned(db.attempts[a], db.quotes[db.attempts[a].quote].payload);
  }

  /**
   * Authorize compares pinned values only, yet in a reachable state what it signs for is
   * the validated message, its hold covers the largest debit plus the sweep allowance, and
   * the stored quote would pass the full recheck at that very instant unless the clock
   * stands before the quote was prepared.
   */
  lemma AuthorizationIsBacked(p: Policy, db: Db, token: nat, id: Id, input: Authorization, now: int)
    requires Good(p, db) && ForeignKeys(db)
    requires Authorize(p, db, token, id, input, now).Commit? && Authorize(p, db, token, id, input, now).db != db
    ensures id < |db.attempts|
    ensures var a := db.attempts[id]; var c, q := db.campaigns[a.campaign], db.quotes[a.quote].payload;
            var op := NewRegistration(id, |db.operations|, a, q, input.userPayload);
            && Authorize(p, db, token, id, input, now).db.operations == db.operations + [op]
            && a.remaining == op.amount + c.limits.recoveryAllowance <= input.preflight.sponsorBalance
            && 0 < input.preflight.fee <= op.feeCap <= c.limits.maxTransactionFee
            && op.amount == q.cost.registrationPrice + q.cost.domainRent + q.cost.primaryRent + op.feeCap
            && Accepts(p, op.message, MessageInput(q, q.feeReceiver)) && op.messageHash == Sha256(op.message)
            && (ValidateStoredQuote(p, q, TermsOf(c), db.invites[a.invite].wallet, now).Some? <==> q.preparedAtMs - 1_000 <= now)
  {
    hide Good, Sound, Accepts, ValidateStoredQuote, FindRegistration, Authenticated;
    QuoteIsSound(p, db, id);
    var a := db.attempts[id];
    SoundQuote(p, db.quotes[a.quote].payload, TermsOf(db.campaigns[a.campaign]), db.invites[a.invite].wallet, now);
  }
}
