/** What the guards of the code imply of the checks and unique indexes in src/db/schema.ts, and the one check they do not. */
module Checks {
  import opened Basics
  import opened Registry
  import opened Quotes
  import opened Database
  import opened Invariant
  import opened CampaignTx
  import opened ExecutionTx
  import opened Steps
  import opened Evolution
  import opened Pins
  import opened Reachable
  import opened Custody
  import AuditClean

  // --------------------------------------------------------------------- the checks

  /** campaigns_schedule, campaigns_limits, campaigns_slug, and the constant halves of campaigns_budget and campaigns_capacity. */
  predicate TermsCheck(c: Campaign) {
    && c.startsAt < c.endsAt && c.cap > 0 && c.maxUsers > 0
    && c.limits.maxRegistrationPrice > 0 && c.limits.maxTransactionFee > 0 && c.limits.recoveryAllowance > 0
    && 0 < c.limits.maxReservation <= c.cap && SlugCheck(c.slug)
  }

  /** campaigns_slug. */
  predicate SlugCheck(slug: string) {
    1 <= |slug| <= 80 && slug[0] != '-' && forall i :: 0 <= i < |slug| ==> LabelChar(slug[i])
  }

  /** campaigns_budget and campaigns_capacity. */
  predicate CampaignCheck(c: Campaign) {
    && c.reserved >= 0 && c.spent >= 0 && c.reserved + c.spent <= c.cap
    && c.reservedUsers >= 0 && c.consumedUsers >= 0 && c.reservedUsers + c.consumedUsers <= c.maxUsers
  }

  predicate AttemptCheck(a: Attempt) {
    && a.reservation > 0 && a.remaining >= 0 && a.cost >= 0 && a.lastValidBlockHeight >= 0
    && (a.residual.Some? ==> a.residual.value >= 0) && (a.slot.Some? ==> SafeCounter(a.slot.value))
  }

  /** The amount checks of execution_operations; its block height is BlockHeightsExactly's subject. */
  predicate OperationCheck(op: Operation) {
    && op.feeCap > 0 && op.amount >= 0 && (op.fee.Some? ==> op.fee.value >= 0) && (op.debit.Some? ==> op.debit.value >= 0)
    && (op.recovered.Some? ==> op.recovered.value >= 0)
  }

  /**
   * The partial unique indexes over attempts and operations, the quote index and the
   * idempotency index. The indexes on active names, on wallets and on payers are not
   * here: they are the guard ActiveIndexClash, as the one on signatures is SignatureTaken.
   */
  ghost predicate UniqueIndexes(db: Db) {
    && (forall a, b :: 0 <= a < b < |db.attempts| && !Terminal(db.attempts[a].status) && !Terminal(db.attempts[b].status) ==>
          db.attempts[a].invite != db.attempts[b].invite)
    && (forall o, q :: 0 <= o < q < |db.operations| && db.operations[o].kind.Registration? && db.operations[q].kind.Registration? ==>
          db.operations[o].attempt != db.operations[q].attempt)
    && (forall o, q :: 0 <= o < q < |db.operations| && db.operations[o].attempt == db.operations[q].attempt ==>
          !IsActiveRecovery(db.operations[o], db.operations[o].attempt) || !IsActiveRecovery(db.operations[q], db.operations[q].attempt))
    && (forall a, b :: 0 <= a < b < |db.attempts| ==> db.attempts[a].quote != db.attempts[b].quote)
  }

  /** attempts_invite_idempotency_unique. */
  ghost predicate KeysUnique(attempts: seq<Attempt>) {
    forall a, b :: 0 <= a < b < |attempts| && attempts[a].invite == attempts[b].invite ==>
      attempts[a].idempotencyKey != attempts[b].idempotencyKey
  }

  /** An open recovery can always pay its fee from the attempt's hold. */
  ghost predicate RecoveriesFunded(db: Db) {
    forall o :: 0 <= o < |db.operations| && db.operations[o].attempt < |db.attempts| && IsActiveRecovery(db.operations[o], db.operations[o].attempt) ==>
      db.operations[o].feeCap <= db.attempts[db.operations[o].attempt].remaining
  }

  ghost predicate DatabaseChecks(db: Db) {
    && (forall c :: 0 <= c < |db.campaigns| ==> CampaignCheck(db.campaigns[c]) && TermsCheck(db.campaigns[c]))
    && (forall a :: 0 <= a < |db.attempts| ==> AttemptCheck(db.attempts[a]))
    && (forall o :: 0 <= o < |db.operations| ==> OperationCheck(db.operations[o]))
    && (forall e :: 0 <= e < |db.ledger| ==> db.ledger[e].amount > 0)
    && UniqueIndexes(db) && KeysUnique(db.attempts) && RecoveriesFunded(db)
  }

  // ------------------------------------------------------- checks the invariant gives

  lemma CampaignChecks(db: Db, c: Id)
    requires Inv(db) && c < |db.campaigns|
    ensures CampaignCheck(db.campaigns[c])
  {
    hide Inv, CountersOk, CampaignBooked;
    AuditClean.CampaignFacts(db, c);
  }

  /** Block heights of attempts and registrations come from their validated quote. */
  lemma QuotedHeights(p: Policy, db: Db)
    requires Good(p, db)
    ensures forall a :: 0 <= a < |db.attempts| ==> db.attempts[a].lastValidBlockHeight >= 0
    ensures forall o :: 0 <= o < |db.operations| && db.operations[o].kind.Registration? ==> db.operations[o].lastValidBlockHeight >= 0
  {
    hide Lifecycle, Pointers, Counters, Budgets, Books, JobsOk, Sound, OpenLast, AttemptCustody;
    forall q | 0 <= q < |db.quotes| ensures db.quotes[q].payload.lastValidBlockHeight >= 0 {
      SoundHeight(p, db.quotes[q].payload, TermsOf(db.campaigns[db.quotes[q].campaign]), db.invites[db.quotes[q].invite].wallet);
    }
    forall a | 0 <= a < |db.attempts| ensures db.attempts[a].lastValidBlockHeight >= 0 {
      assert AttemptPinned(db.attempts[a], db.quotes[db.attempts[a].quote].payload);
    }
    forall o | 0 <= o < |db.operations| && db.operations[o].kind.Registration? ensures db.operations[o].lastValidBlockHeight >= 0 {
      assert OperationPinned(db.operations[o], db.quotes[db.attempts[db.operations[o].attempt].quote].payload);
    }
  }

  lemma SoundHeight(p: Policy, q: SponsoredQuote, t: Terms, wallet: Key)
    requires Sound(p, q, t, wallet)
    ensures q.lastValidBlockHeight >= 0
  {
  }

  lemma RowChecks(p: Policy, db: Db)
    requires Good(p, db)
    ensures forall a :: 0 <= a < |db.attempts| ==> AttemptCheck(db.attempts[a])
    ensures forall o :: 0 <= o < |db.operations| ==> OperationCheck(db.operations[o])
    ensures forall e :: 0 <= e < |db.ledger| ==> db.ledger[e].amount > 0
  {
    hide Pointers, Counters, Budgets, AttemptBooks, CampaignBooks, OperationBooks, AllFit, Pinned;
    QuotedHeights(p, db);
    forall a | 0 <= a < |db.attempts| ensures AttemptCheck(db.attempts[a]) {
      assert AttemptOk(db.attempts[a]);
    }
    forall o | 0 <= o < |db.operations| ensures OperationCheck(db.operations[o]) {
      assert OperationOk(db.operations[o]);
    }
    forall e | 0 <= e < |db.ledger| ensures db.ledger[e].amount > 0 {
      assert EntryFits(db.ledger[e], db.attempts, db.operations);
    }
  }

  lemma IndexChecks(db: Db)
    requires OneRegistration(db.operations) && OpenLast(db.operations) && PointersExact(db.attempts, db.invites)
    requires AttemptCustody(db.attempts, db.quotes)
    ensures UniqueIndexes(db)
  {
    forall a, b | 0 <= a < b < |db.attempts| && !Terminal(db.attempts[a].status) && !Terminal(db.attempts[b].status)
      ensures db.attempts[a].invite != db.attempts[b].invite
    {
      assert db.invites[db.attempts[a].invite].active == Some(a) && db.invites[db.attempts[b].invite].active == Some(b);
    }
  }

  lemma FundingChecks(db: Db)
    requires OperationsOk(db.operations) && AllFit(db.operations, db.attempts)
    ensures RecoveriesFunded(db)
  {
    forall o | 0 <= o < |db.operations| && IsActiveRecovery(db.operations[o], db.operations[o].attempt)
      ensures db.operations[o].feeCap <= db.attempts[db.operations[o].attempt].remaining
    {
      assert OperationOk(db.operations[o]) && Fits(db.operations[o], db.attempts[db.operations[o].attempt]);
    }
  }

  lemma GoodIndexes(p: Policy, db: Db)
    requires Good(p, db)
    ensures UniqueIndexes(db) && RecoveriesFunded(db)
  {
    hide Sound, Counters, Budgets, Books, UniqueIndexes, RecoveriesFunded, ForeignKeys, AttemptsPinned, OperationsPinned;
    IndexChecks(db);
    FundingChecks(db);
  }

  // ------------------------------------------------------ checks that need the run

  ghost predicate TermsChecked(cs: seq<Campaign>) {
    forall c :: 0 <= c < |cs| ==> TermsCheck(cs[c])
  }

  predicate RegistrationsFrom(ops: seq<Operation>, n: nat) {
    forall o :: n <= o < |ops| ==> ops[o].kind.Registration?
  }

  predicate GrowsOnly(db: Db, db': Db, campaigns: bool, attempts: bool, recoveries: bool) {
    && (!campaigns ==> |db'.campaigns| == |db.campaigns|) && (!attempts ==> |db'.attempts| == |db.attempts|)
    && (!recoveries ==> RegistrationsFrom(db'.operations, |db.operations|))
  }

  lemma CampaignStepGrows(p: Policy, db: Db, s: Step, now: int)
    requires ForeignKeys(db) && CampaignStep(s)
    ensures GrowsOnly(db, Apply(p, db, s, now), s.DoCreateCampaign?, s.DoReserveAttempt?, false)
  {
    hide LapseQuotes, KeepNewest, RevokeSessions, FindAttempt, FindSession, FindInvite, ValidateStoredQuote, ActiveIndexClash, NewAttempt;
  }

  lemma LeasedStepGrows(p: Policy, db: Db, s: Step, now: int)
    requires ForeignKeys(db) && LeasedStep(s)
    ensures GrowsOnly(db, Apply(p, db, s, now), false, false, false)
  {
    hide EvidenceFits, SettledOperation, SettledAttempt, SettledCampaign, SettledInvite, SettlementEntries, SignatureTaken;
  }

  lemma OtherStepGrows(p: Policy, db: Db, s: Step, now: int)
    requires ForeignKeys(db) && !CampaignStep(s) && !LeasedStep(s)
    ensures GrowsOnly(db, Apply(p, db, s, now), false, false, s.DoReserveRecovery?)
  {
    hide RetryJobs, FindRegistration, FindActiveRecovery, FindSession;
  }

  /** Each table grows by one kind of request only. */
  lemma Grows(p: Policy, db: Db, s: Step, now: int)
    requires ForeignKeys(db)
    ensures GrowsOnly(db, Apply(p, db, s, now), s.DoCreateCampaign?, s.DoReserveAttempt?, s.DoReserveRecovery?)
  {
    hide ForeignKeys, Apply;
    if CampaignStep(s) {
      CampaignStepGrows(p, db, s, now);
    } else if LeasedStep(s) {
      LeasedStepGrows(p, db, s, now);
    } else {
      OtherStepGrows(p, db, s, now);
    }
  }

  lemma CampaignAppended(p: Policy, db: Db, n: NewCampaign)
    requires TermsChecked(db.campaigns)
    ensures TermsChecked(After(db, CreateCampaign(p, db, n)).campaigns)
  {
  }

  /** A reservation under a key its invite already used is answered with the attempt made then. */
  lemma AttemptAppended(p: Policy, db: Db, token: nat, quote: Id, key: string, now: int)
    requires ForeignKeys(db) && KeysUnique(db.attempts)
    ensures KeysUnique(After(db, ReserveAttempt(p, db, token, quote, key, now)).attempts)
  {
    hide ForeignKeys, FindAttempt, ValidateStoredQuote, ActiveIndexClash;
  }

  lemma TermsKept(cs: seq<Campaign>, cs': seq<Campaign>)
    requires TermsChecked(cs) && CampaignsEvolve(cs, cs') && |cs'| == |cs|
    ensures TermsChecked(cs')
  {
    forall c | 0 <= c < |cs'| ensures TermsCheck(cs'[c]) {
      assert SameCampaign(cs[c], cs'[c]) && TermsCheck(cs[c]);
    }
  }

  lemma KeysKeptUnique(rows: seq<Attempt>, rows': seq<Attempt>)
    requires KeysUnique(rows) && AttemptsEvolve(rows, rows') && |rows'| == |rows|
    ensures KeysUnique(rows')
  {
    forall a, b | 0 <= a < b < |rows'| && rows'[a].invite == rows'[b].invite ensures rows'[a].idempotencyKey != rows'[b].idempotencyKey {
      assert SameAttempt(rows[a], rows'[a]) && SameAttempt(rows[b], rows'[b]);
    }
  }

  lemma StepChecks(p: Policy, db: Db, s: Step, now: int)
    requires Good(p, db) && ForeignKeys(db) && TermsChecked(db.campaigns) && KeysUnique(db.attempts)
    ensures TermsChecked(Apply(p, db, s, now).campaigns) && KeysUnique(Apply(p, db, s, now).attempts)
  {
    hide Good, ForeignKeys, TermsChecked, KeysUnique, Apply, CampaignsEvolve, AttemptsEvolve, InvitesEvolve, SessionsEvolve, QuotesEvolve,
         OperationsEvolve, KeysMove;
    StepAdvances(p, db, s, now);
    Grows(p, db, s, now);
    var db' := Apply(p, db, s, now);
    if s.DoCreateCampaign? {
      assert db' == After(db, CreateCampaign(p, db, s.campaign)) by { Creates(p, db, s, now); }
      CampaignAppended(p, db, s.campaign);
    } else {
      TermsKept(db.campaigns, db'.campaigns);
    }
    if s.DoReserveAttempt? {
      assert db' == After(db, ReserveAttempt(p, db, s.token, s.id, s.idempotencyKey, now)) by { Reserves(p, db, s, now); }
      AttemptAppended(p, db, s.token, s.id, s.idempotencyKey, now);
    } else {
      KeysKeptUnique(db.attempts, db'.attempts);
    }
  }

  lemma Creates(p: Policy, db: Db, s: Step, now: int)
    requires ForeignKeys(db) && s.DoCreateCampaign?
    ensures Apply(p, db, s, now) == After(db, CreateCampaign(p, db, s.campaign))
  {
  }

  lemma Reserves(p: Policy, db: Db, s: Step, now: int)
    requires ForeignKeys(db) && s.DoReserveAttempt?
    ensures Apply(p, db, s, now) == After(db, ReserveAttempt(p, db, s.token, s.id, s.idempotencyKey, now))
  {
  }

  lemma {:induction false} RunChecks(p: Policy, steps: seq<Timed>)
    ensures var db := Run(p, EMPTY, steps); Good(p, db) && TermsChecked(db.campaigns) && KeysUnique(db.attempts)
  {
    hide Inv, Pinned, ForeignKeys, Apply, Evolves;
    GoodStarts(p);
    KeysOf(EMPTY);
    RunAdvances(p, EMPTY, steps);
    if steps != [] {
      hide TermsChecked, KeysUnique;
      var init, last := steps[..|steps| - 1], steps[|steps| - 1];
      RunChecks(p, init);
      StepChecks(p, Run(p, EMPTY, init), last.step, last.now);
    }
  }

  /**
   * No check assumed, every reachable state meets each of them: the guards of the code
   * already imply what the schema repeats.
   */
  lemma GuardsImplyChecks(p: Policy, steps: seq<Timed>)
    ensures DatabaseChecks(Run(p, EMPTY, steps))
  {
    hide Inv, Pinned, Run, UniqueIndexes, KeysUnique, RecoveriesFunded, CampaignCheck, TermsCheck, AttemptCheck, OperationCheck;
    RunChecks(p, steps);
    var db := Run(p, EMPTY, steps);
    forall c | 0 <= c < |db.campaigns| ensures CampaignCheck(db.campaigns[c]) && TermsCheck(db.campaigns[c]) {
      CampaignChecks(db, c);
    }
    RowChecks(p, db);
    GoodIndexes(p, db);
  }

  // ----------------------------------------------------- the check no guard implies

  /** execution_operations_block_height, for every row. */
  ghost predicate HeightsChecked(ops: seq<Operation>) {
    forall o :: 0 <= o < |ops| ==> ops[o].lastValidBlockHeight >= 0
  }

  /** The step opens a new recovery. */
  predicate OpensRecovery(db: Db, s: Step, now: int)
    requires ForeignKeys(db)
  {
    s.DoReserveRecovery? && |After(db, ReserveRecovery(db, s.id, s.recovery, now)).operations| > |db.operations|
  }

  /** Whatever height the caller names, the recovery is opened all the same. */
  lemma HeightUnread(db: Db, id: Id, input: RecoveryInput, now: int, height: int)
    requires ForeignKeys(db) && OpensRecovery(db, DoReserveRecovery(id, input), now)
    ensures var db' := After(db, ReserveRecovery(db, id, input.(lastValidBlockHeight := height), now));
            |db'.operations| == |db.operations| + 1 && db'.operations[|db.operations|].lastValidBlockHeight == height
  {
    hide ForeignKeys, FindActiveRecovery;
  }

  lemma RecoveryAppended(db: Db, id: Id, input: RecoveryInput, now: int)
    requires ForeignKeys(db)
    ensures var ops' := After(db, ReserveRecovery(db, id, input, now)).operations;
            if |ops'| > |db.operations| then ops' == db.operations + [ops'[|db.operations|]]
              && ops'[|db.operations|].lastValidBlockHeight == input.lastValidBlockHeight
            else ops' == db.operations
  {
    hide ForeignKeys, FindActiveRecovery;
  }

  lemma StepHeights(p: Policy, db: Db, s: Step, now: int)
    requires Good(p, db) && ForeignKeys(db)
    ensures HeightsChecked(Apply(p, db, s, now).operations)
            <==> HeightsChecked(db.operations) && (OpensRecovery(db, s, now) ==> s.recovery.lastValidBlockHeight >= 0)
  {
    hide Good, ForeignKeys, Apply, ReserveRecovery, CampaignsEvolve, AttemptsEvolve, InvitesEvolve, SessionsEvolve, QuotesEvolve, KeysMove;
    StepAdvances(p, db, s, now);
    var db' := Apply(p, db, s, now);
    if s.DoReserveRecovery? {
      assert db' == After(db, ReserveRecovery(db, s.id, s.recovery, now)) by { Recovers(p, db, s, now); }
      RecoveryAppended(db, s.id, s.recovery, now);
    } else {
      Grows(p, db, s, now);
      QuotedHeights(p, db');
      HeightsKept(db.operations, db'.operations);
    }
  }

  lemma HeightsKept(ops: seq<Operation>, ops': seq<Operation>)
    requires OperationsEvolve(ops, ops') && forall o :: |ops| <= o < |ops'| ==> ops'[o].lastValidBlockHeight >= 0
    ensures HeightsChecked(ops') <==> HeightsChecked(ops)
  {
    assert forall o :: 0 <= o < |ops| ==> SameOperation(ops[o], ops'[o]);
  }

  lemma Recovers(p: Policy, db: Db, s: Step, now: int)
    requires ForeignKeys(db) && s.DoReserveRecovery?
    ensures Apply(p, db, s, now) == After(db, ReserveRecovery(db, s.id, s.recovery, now))
  {
  }

  /** Every recovery the run opens was given a block height the check admits. */
  ghost predicate OpensWell(p: Policy, steps: seq<Timed>) {
    forall k :: 0 <= k < |steps| && OpensRecovery(Run(p, EMPTY, steps[..k]), steps[k].step, steps[k].now) ==>
      steps[k].step.recovery.lastValidBlockHeight >= 0
  }

  lemma OpensWellSnoc(p: Policy, steps: seq<Timed>)
    requires steps != []
    ensures var n := |steps| - 1;
            OpensWell(p, steps)
            <==> OpensWell(p, steps[..n])
                 && (OpensRecovery(Run(p, EMPTY, steps[..n]), steps[n].step, steps[n].now) ==> steps[n].step.recovery.lastValidBlockHeight >= 0)
  {
    hide ForeignKeys, Run, OpensRecovery;
    var n := |steps| - 1;
    assert forall k :: 0 <= k < n ==> steps[..n][..k] == steps[..k] && steps[..n][k] == steps[k];
  }

  /** A run keeps execution_operations_block_height exactly when each recovery it opens brings a non-negative height. */
  lemma {:induction false} BlockHeightsExactly(p: Policy, steps: seq<Timed>)
    ensures HeightsChecked(Run(p, EMPTY, steps).operations) <==> OpensWell(p, steps)
  {
    hide Inv, Pinned, ForeignKeys, Apply, Evolves, OpensWell, OpensRecovery;
    GoodStarts(p);
    KeysOf(EMPTY);
    if steps == [] {
      assert OpensWell(p, steps) by { NothingOpened(p); }
    } else {
      hide HeightsChecked;
      var init, last := steps[..|steps| - 1], steps[|steps| - 1];
      BlockHeightsExactly(p, init);
      RunAdvances(p, EMPTY, init);
      StepHeights(p, Run(p, EMPTY, init), last.step, last.now);
      OpensWellSnoc(p, steps);
    }
  }

  lemma NothingOpened(p: Policy)
    ensures OpensWell(p, [])
  {
  }
}
