/** When an execution request is granted, told by the rows it finds: exact conditions, what is written, and what a pause stops. */
module ExecutionRules {
  import opened Basics
  import opened Registry
  import opened Quotes
  import opened Database
  import opened CampaignTx
  import opened ExecutionTx
  import opened Steps
  import opened Invariant
  import opened Evolution
  import opened Pins
  import opened Reachable
  import opened CampaignRules
  import Checks

  // ------------------------------------------------------------------ authorization

  /** An unrevoked, unexpired session of exactly this invite. */
  ghost predicate SignedIn(db: Db, token: nat, invite: Id, now: int) {
    exists s :: SessionOf(db.sessions, s, token)
                && db.sessions[s].invite == invite && !db.sessions[s].revoked && now < db.sessions[s].expiresAt
  }

  lemma SignedInExactly(db: Db, token: nat, invite: Id, now: int)
    ensures Authenticated(db, token, invite, now) <==> SignedIn(db, token, invite, now)
  {
    SessionFound(db.sessions, token);
    var f := FindSession(db.sessions, token);
    if f.Some? { assert SessionOf(db.sessions, f.value, token); }
  }

  /** Rows that let an attempt be signed for: all of them current, open and of one policy, wallet and sponsor. */
  predicate Signable(p: Policy, db: Db, id: Id, now: int)
    requires ForeignKeys(db) && id < |db.attempts|
  {
    var a := db.attempts[id];
    var c, i, q := db.campaigns[a.campaign], db.invites[a.invite], db.quotes[a.quote].payload;
    && a.status == Prepared && a.payerKey != None && now < a.expiresAt
    && i.active == Some(id) && i.wallet == a.wallet && i.status == Open && now < i.expiresAt
    && c.status == Active && c.startsAt <= now && now < c.endsAt
    && c.policyVersion == p.id && q.policyId == p.id && c.sponsor == q.sponsor && now < q.expiresAtMs
  }

  /** The consent is for this very message, and its preflight is fresh, cheap enough and solvent. */
  predicate Consents(db: Db, id: Id, input: Authorization, now: int)
    requires ForeignKeys(db) && id < |db.attempts|
  {
    var a, v := db.attempts[id], input.preflight;
    var q := db.quotes[a.quote].payload;
    && SafeCounter(v.checkedAtMs) && SafeCounter(v.slot) && SafeCounter(v.blockHeight)
    && v.checkedAtMs <= now + 1_000 && now <= v.checkedAtMs + 5_000 && v.blockHeight <= q.lastValidBlockHeight
    && input.messageHash == a.messageHash == q.messageSha256 && a.unsigned == q.unsignedTransaction
    && 0 < v.fee <= q.cost.transactionFee && a.remaining == q.cost.maximumReservation <= v.sponsorBalance && v.sponsorBalance >= 0
  }

  /** One operation is added exactly under these conditions, and it is this one. */
  lemma AuthorizeExactly(p: Policy, db: Db, token: nat, id: Id, input: Authorization, now: int)
    requires ForeignKeys(db)
    ensures var r := Authorize(p, db, token, id, input, now);
            r.Commit? && r.db != db
            <==> && id < |db.attempts| && SignedIn(db, token, db.attempts[id].invite, now)
                 && (forall o :: 0 <= o < |db.operations| && db.operations[o].attempt == id ==> db.operations[o].kind != Registration)
                 && Signable(p, db, id, now) && Consents(db, id, input, now)
    ensures var r := Authorize(p, db, token, id, input, now);
            r.Commit? && r.db != db ==> AuthorizedFrom(db, r.db, id, input, now)
  {
    hide ForeignKeys, Authenticated, FindRegistration, AuthorizeEffect, AuthorizedFrom, SignedIn;
    if id < |db.attempts| {
      SignedInExactly(db, token, db.attempts[id].invite, now);
      AuthorizedRow(db, id, input, now);
      assert (forall o :: 0 <= o < |db.operations| && db.operations[o].attempt == id ==> db.operations[o].kind != Registration)
             <==> forall o :: 0 <= o < |db.operations| ==> !IsRegistration(db.operations[o], id);
    }
  }

  predicate AuthorizedFrom(db: Db, db': Db, id: Id, input: Authorization, now: int) {
    var n := |db.operations|;
    id < |db.attempts| && db.attempts[id].quote < |db.quotes|
    && var a, q := db.attempts[id], db.quotes[db.attempts[id].quote].payload;
       && db' == db.(operations := db'.operations, attempts := db.attempts[id := a.(status := Signing)],
                     jobs := db.jobs[n := Job(db.nextJob, now, None, 0)], nextJob := db.nextJob + 1)
       && |db'.operations| == n + 1 && db'.operations[..n] == db.operations
       && var op := db'.operations[n];
          && op.attempt == id && op.campaign == a.campaign && op.kind == Registration && op.status == Signing
          && op.messageHash == q.messageSha256 && op.message == q.message && op.blockhash == q.blockhash
          && op.lastValidBlockHeight == q.lastValidBlockHeight && op.feeCap == q.cost.transactionFee && op.amount == q.cost.maxSponsorDebit
          && op.userPayload == Some(Sealed(n, UserPurpose, input.userPayload)) && op.signedPayload == None && op.signature == None
          && op.fee == None && op.debit == None && op.recovered == None && op.evidence == None
  }

  lemma AuthorizedRow(db: Db, id: Id, input: Authorization, now: int)
    requires ForeignKeys(db) && id < |db.attempts|
    ensures AuthorizedFrom(db, AuthorizeEffect(db, id, input.userPayload, now), id, input, now)
    ensures AuthorizeEffect(db, id, input.userPayload, now) != db
  {
    assert |AuthorizeEffect(db, id, input.userPayload, now).operations| == |db.operations| + 1;
  }

  /** What each refusal of an authorization means. */
  lemma AuthorizeRefusals(p: Policy, db: Db, token: nat, id: Id, input: Authorization, now: int)
    requires ForeignKeys(db) && Authorize(p, db, token, id, input, now).Abort?
    ensures var code, v := Authorize(p, db, token, id, input, now).code, input.preflight;
            match code
            case InvalidInput => !(SafeCounter(v.checkedAtMs) && SafeCounter(v.slot) && SafeCounter(v.blockHeight) && v.fee > 0 && v.sponsorBalance >= 0)
            case Unauthorized => id >= |db.attempts| || !SignedIn(db, token, db.attempts[id].invite, now)
            case Unavailable => id < |db.attempts| && !Signable(p, db, id, now)
            case QuoteExpired =>
              id < |db.attempts| && var q := db.quotes[db.attempts[id].quote].payload;
                now >= db.attempts[id].expiresAt || now >= q.expiresAtMs || v.checkedAtMs > now + 1_000 || now - v.checkedAtMs > 5_000
                || v.blockHeight > q.lastValidBlockHeight
            case PolicyChanged => id < |db.attempts| && !Consents(db, id, input, now)
            case _ => false
  {
    hide ForeignKeys, Authenticated, FindRegistration, SignedIn;
    if id < |db.attempts| { SignedInExactly(db, token, db.attempts[id].invite, now); }
  }

  // ---------------------------------------------------------------------- the fence

  /** The job is this one, its lease is this owner's and not over. */
  predicate Current(db: Db, l: Lease, now: int) {
    l.operation in db.jobs
    && var j := db.jobs[l.operation];
       j.id == l.job && j.hold != None && j.hold.value.owner == l.owner && now < j.hold.value.expiresAt
  }

  /** A worker's request that changes anything was made under a current lease. */
  lemma FenceExactly(p: Policy, db: Db, s: Step, now: int)
    requires ForeignKeys(db) && LeasedStep(s) && Apply(p, db, s, now) != db
    ensures s.lease.operation < |db.operations| && Current(db, s.lease, now)
  {
    hide EvidenceFits, SettleEffect, WithStatus, SignatureTaken;
  }

  /** A claim yields a lease exactly on a due job nobody holds, of a campaign of this sponsor. */
  lemma ClaimExactly(db: Db, owner: nat, id: Id, sponsor: Option<Key>, now: int)
    requires ForeignKeys(db)
    ensures var r := ClaimJob(db, owner, id, sponsor, now);
            && r.Commit?
            && (r.value != None <==>
                  && id in db.jobs && db.jobs[id].nextRunAt <= now && (db.jobs[id].hold != None ==> db.jobs[id].hold.value.expiresAt <= now)
                  && (sponsor != None ==> db.campaigns[db.operations[id].campaign].sponsor == sponsor.value))
            && (r.value == None ==> r.db == db)
            && (r.value != None ==>
                  && r.value.value == Lease(db.jobs[id].id, id, owner, db.jobs[id].retries + 1)
                  && r.db == db.(jobs := db.jobs[id := Job(db.jobs[id].id, db.jobs[id].nextRunAt, Some(Hold(owner, now + 45_000)), db.jobs[id].retries + 1)]))
  {
  }

  // ------------------------------------------------------------------ worker requests

  /** The registration's attempt follows its operation; a recovery's attempt does not. */
  predicate RowsBecome(db: Db, db': Db, o: Id, op: Operation, a: Attempt)
    requires ForeignKeys(db) && o < |db.operations|
  {
    var id := db.operations[o].attempt;
    db' == db.(operations := db.operations[o := op],
               attempts := if db.operations[o].kind == Registration then db.attempts[id := a] else db.attempts)
  }

  /** The signed payload is stored exactly once, for the authorized message, under an unused signature. */
  lemma PersistExactly(db: Db, l: Lease, input: SignedInput, now: int)
    requires ForeignKeys(db)
    ensures var r := PersistSigned(db, l, input, now);
            r.Commit? <==>
              && l.operation < |db.operations| && Current(db, l, now)
              && db.operations[l.operation].status == Signing && db.operations[l.operation].messageHash == input.messageHash
              && forall o :: 0 <= o < |db.operations| && o != l.operation ==> db.operations[o].signature != Some(input.signature)
    ensures var r := PersistSigned(db, l, input, now);
            r.Commit? ==>
              var op := db.operations[l.operation];
              RowsBecome(db, r.db, l.operation,
                op.(status := Signed, signedPayload := Some(Sealed(l.operation, SignedPurpose, input.bytes)),
                    signature := Some(input.signature), userPayload := None),
                db.attempts[op.attempt].(status := Signed, signature := Some(input.signature)))
  {
  }

  /** Progress is noted exactly on a signed row that is neither settled nor under review, and confirmed is never lowered. */
  lemma NoteExactly(db: Db, l: Lease, state: Status, now: int)
    requires ForeignKeys(db) && NoteState(state)
    ensures var r := Note(db, l, state, now);
            r.Commit? <==>
              && l.operation < |db.operations| && Current(db, l, now)
              && var op := db.operations[l.operation];
                 op.signature != None && op.signedPayload != None && op.status in {Signed, Submitted, BroadcastUnknown, Confirmed}
    ensures var r := Note(db, l, state, now);
            r.Commit? ==>
              var op := db.operations[l.operation];
              if op.status == Confirmed && state != Confirmed then r.db == db
              else RowsBecome(db, r.db, l.operation, op.(status := state), db.attempts[op.attempt].(status := state))
  {
  }

  /** A payload is released exactly to the holder, from a signed row on its way to confirmation, and it is that row. */
  lemma ReleaseExactly(db: Db, l: Lease, now: int)
    requires ForeignKeys(db)
    ensures var r := BroadcastPayload(db, l, now);
            r.Commit? <==>
              && l.operation < |db.operations| && Current(db, l, now)
              && var op := db.operations[l.operation];
                 op.signature != None && op.signedPayload != None && op.status in {Signed, Submitted, BroadcastUnknown}
    ensures var r := BroadcastPayload(db, l, now); r.Commit? ==> r.db == db && r.value == db.operations[l.operation]
  {
  }

  lemma RescheduleExactly(db: Db, l: Lease, delayMs: int, now: int)
    ensures var r := Reschedule(db, l, delayMs, now);
            r.Commit? <==> 0 <= delayMs <= 60_000 && Current(db, l, now)
    ensures var r := Reschedule(db, l, delayMs, now);
            r.Commit? ==>
              var j := db.jobs[l.operation]; r.db == db.(jobs := db.jobs[l.operation := Job(j.id, now + delayMs, None, j.retries)])
  {
  }

  lemma ReviewExactly(db: Db, l: Lease, now: int)
    requires ForeignKeys(db)
    ensures var r := ManualReviewTx(db, l, now); r.Commit? <==> l.operation < |db.operations| && Current(db, l, now)
    ensures var r := ManualReviewTx(db, l, now);
            r.Commit? ==>
              var op := db.operations[l.operation];
              && r.db.operations == db.operations[l.operation := op.(status := ManualReview)]
              && r.db.attempts == db.attempts[op.attempt := db.attempts[op.attempt].(status := ManualReview)]
              && (forall o: Id :: o in r.db.jobs <==> o in db.jobs && o != l.operation)
  {
  }

  // -------------------------------------------------------------------------- retry

  /** An operation of this attempt a retry reaches. */
  predicate Retried(db: Db, id: Id, o: Id, upto: nat)
    requires upto <= |db.operations|
  {
    o < upto && db.operations[o].attempt == id && db.operations[o].status !in {Complete, Failed, Expired, Finalized}
  }

  /** One job after a retry: due now, and otherwise as it was or new; or untouched. */
  predicate RetriedTo(db: Db, jobs: map<Id, Job>, id: Id, o: Id, upto: nat, now: int)
    requires upto <= |db.operations|
  {
    if Retried(db, id, o, upto) then
      && o in jobs && jobs[o].nextRunAt == now
      && (if o in db.jobs then jobs[o] == db.jobs[o].(nextRunAt := now) else jobs[o].hold == None && jobs[o].retries == 0)
    else (o in jobs <==> o in db.jobs) && (o in db.jobs ==> jobs[o] == db.jobs[o])
  }

  /** After a retry every open operation of the attempt is due now; no other job moved. */
  ghost predicate DueAgain(db: Db, db': Db, id: Id, upto: nat, now: int)
    requires upto <= |db.operations|
  {
    forall o: Id :: RetriedTo(db, db'.jobs, id, o, upto, now)
  }

  lemma RetryStep(db: Db, id: Id, upto: nat, now: int)
    requires ForeignKeys(db) && 0 < upto <= |db.operations|
    ensures var jobs, jobs' := RetryJobs(db, id, upto - 1, now).0, RetryJobs(db, id, upto, now).0; var o := upto - 1;
            && (!Retried(db, id, o, upto) ==> jobs' == jobs)
            && (Retried(db, id, o, upto) && o in jobs ==> jobs' == jobs[o := jobs[o].(nextRunAt := now)])
            && (Retried(db, id, o, upto) && o !in jobs ==> exists n :: jobs' == jobs[o := Job(n, now, None, 0)])
  {
  }

  lemma {:induction false} RetryAt(db: Db, id: Id, upto: nat, now: int, o: Id)
    requires ForeignKeys(db) && upto <= |db.operations|
    ensures RetriedTo(db, RetryJobs(db, id, upto, now).0, id, o, upto, now)
  {
    hide ForeignKeys, RetryJobs;
    if upto > 0 {
      RetryAt(db, id, upto - 1, now, o);
      RetryStep(db, id, upto, now);
    } else {
      RetryNothing(db, id, now);
    }
  }

  lemma RetryNothing(db: Db, id: Id, now: int)
    requires ForeignKeys(db)
    ensures RetryJobs(db, id, 0, now).0 == db.jobs
  {
  }

  lemma RetryDue(db: Db, id: Id, upto: nat, now: int)
    requires ForeignKeys(db) && upto <= |db.operations|
    ensures DueAgain(db, db.(jobs := RetryJobs(db, id, upto, now).0), id, upto, now)
  {
    hide ForeignKeys, RetryJobs, RetriedTo;
    forall o: Id ensures RetriedTo(db, RetryJobs(db, id, upto, now).0, id, o, upto, now) {
      RetryAt(db, id, upto, now, o);
    }
  }

  ghost predicate MayAskAgain(db: Db, token: nat, invite: Id, now: int)
    requires invite < |db.invites|
  {
    SignedIn(db, token, invite, now) && db.invites[invite].status != InviteStatus.Revoked
  }

  lemma RetryExactly(db: Db, id: Id, token: Option<nat>, now: int)
    requires ForeignKeys(db)
    ensures var r := RequestRetry(db, id, token, now);
            r.Commit? <==> id < |db.attempts| && (token == None || MayAskAgain(db, token.value, db.attempts[id].invite, now))
    ensures var r := RequestRetry(db, id, token, now);
            r.Commit? ==> r.db == db.(jobs := r.db.jobs, nextJob := r.db.nextJob) && DueAgain(db, r.db, id, |db.operations|, now)
  {
    hide RetryJobs, Authenticated, SignedIn, DueAgain;
    if id < |db.attempts| && token.Some? { SignedInExactly(db, token.value, db.attempts[id].invite, now); }
    RetryDue(db, id, |db.operations|, now);
    DueCarried(db, id, now);
  }

  lemma DueCarried(db: Db, id: Id, now: int)
    requires ForeignKeys(db) && DueAgain(db, db.(jobs := RetryJobs(db, id, |db.operations|, now).0), id, |db.operations|, now)
    ensures var (jobs, next) := RetryJobs(db, id, |db.operations|, now);
            DueAgain(db, db.(jobs := jobs, nextJob := next), id, |db.operations|, now)
  {
    hide RetryJobs, ForeignKeys;
  }

  // ----------------------------------------------------------------------- recovery

  /** Everything a new recovery needs. */
  predicate Recoverable(db: Db, id: Id, input: RecoveryInput, now: int)
    requires ForeignKeys(db) && id < |db.attempts|
  {
    var a := db.attempts[id];
    var c, i := db.campaigns[a.campaign], db.invites[a.invite];
    && a.status in {Finalized, Status.ManualReview} && a.payerKey != None && a.residual == Some(input.amount) && input.amount > 0
    && i.status == Consumed && i.active == Some(id)
    && 1 <= input.fee <= c.limits.recoveryAllowance && input.checkedAtMs <= now + 1_000 && now <= input.checkedAtMs + 5_000
    && (forall o :: 0 <= o < |db.operations| && db.operations[o].attempt == id && db.operations[o].kind == Recovery ==>
          db.operations[o].status in {Complete, Failed, Expired})
    && (input.fee > a.remaining ==> c.reserved + c.spent + (input.fee - a.remaining) <= c.cap)
    && (input.fee <= a.remaining ==> c.reserved + c.spent <= c.cap)
  }

  lemma RecoverExactly(db: Db, id: Id, input: RecoveryInput, now: int)
    requires ForeignKeys(db)
    ensures var r := ReserveRecovery(db, id, input, now);
            r.Commit? && r.db != db <==> id < |db.attempts| && Recoverable(db, id, input, now)
    ensures var r := ReserveRecovery(db, id, input, now); r.Commit? && r.db != db ==> RecoveryFrom(db, r.db, id, input, now)
    ensures var r := ReserveRecovery(db, id, input, now);
            r.Commit? && r.db == db ==>
              r.value < |db.operations| && var op := db.operations[r.value];
                op.attempt == id && op.kind == Recovery && op.status !in {Complete, Failed, Expired}
  {
    hide ForeignKeys, FindActiveRecovery, RecoveryEffect, RecoveryFrom;
    if id < |db.attempts| {
      RecoveryRow(db, id, input, now);
      assert (forall o :: 0 <= o < |db.operations| && db.operations[o].attempt == id && db.operations[o].kind == Recovery ==>
                db.operations[o].status in {Complete, Failed, Expired})
             <==> forall o :: 0 <= o < |db.operations| ==> !IsActiveRecovery(db.operations[o], id);
    }
  }

  predicate RecoveryFrom(db: Db, db': Db, id: Id, input: RecoveryInput, now: int) {
    var n := |db.operations|;
    id < |db.attempts| && db.attempts[id].campaign < |db.campaigns|
    && var a := db.attempts[id];
       var c, extra := db.campaigns[a.campaign], if input.fee > a.remaining then input.fee - a.remaining else 0;
       && db'.attempts == db.attempts[id := a.(remaining := a.remaining + extra)]
       && db'.campaigns == db.campaigns[a.campaign := c.(reserved := c.reserved + extra)]
       && db'.jobs == db.jobs[n := Job(db.nextJob, now, None, 0)]
       && db'.ledger == db.ledger + (if extra == 0 then [] else [Entry(a.campaign, id, Some(n), Reserve, extra, None)])
       && |db'.operations| == n + 1 && db'.operations[..n] == db.operations
       && var op := db'.operations[n];
          && op.attempt == id && op.campaign == a.campaign && op.kind == Recovery && op.status == Signing
          && op.messageHash == input.messageHash && op.message == input.message && op.blockhash == input.blockhash
          && op.lastValidBlockHeight == input.lastValidBlockHeight && op.feeCap == input.fee && op.amount == input.amount
          && op.userPayload == None && op.signedPayload == None && op.signature == None
  }

  lemma RecoveryRow(db: Db, id: Id, input: RecoveryInput, now: int)
    requires ForeignKeys(db) && id < |db.attempts|
    ensures var db' := RecoveryEffect(db, id, input, Max(input.fee - db.attempts[id].remaining, 0), now);
            db' != db && RecoveryFrom(db, db', id, input, now)
  {
    var db' := RecoveryEffect(db, id, input, Max(input.fee - db.attempts[id].remaining, 0), now);
    assert |db'.operations| == |db.operations| + 1;
  }

  // --------------------------------------------------------------------- settlement

  /** What the campaign keeps holding for the attempt after this settlement. */
  function Kept(op: Operation, a: Attempt, c: Campaign, v: Settlement): int {
    if op.kind == Registration then (if v.success && v.residual > 0 then c.limits.recoveryAllowance else 0)
    else if v.success then 0 else a.remaining - v.fee
  }

  /** The amounts of an outcome that the operation, its hold and its costs allow. */
  predicate Allowed(op: Operation, a: Attempt, c: Campaign, v: Settlement) {
    && 0 <= v.fee <= op.feeCap && v.debit >= 0 && v.recovered >= 0 && v.residual >= 0 && 0 <= v.slot <= 9_007_199_254_740_991
    && (op.kind == Registration ==>
          && v.recovered == 0 && v.fee <= v.debit <= op.amount && (!v.success ==> v.debit == v.fee && v.residual == 0)
          && v.debit + Kept(op, a, c, v) <= a.remaining)
    && (op.kind == Recovery ==>
          && v.recovered == (if v.success then op.amount else 0) && v.residual == (if v.success then 0 else op.amount)
          && v.fee <= a.remaining && a.cost + v.fee - v.recovered >= 0)
  }

  lemma SettleExactly(db: Db, l: Lease, v: Settlement, now: int)
    requires ForeignKeys(db)
    ensures var r := Settle(db, l, v, now);
            r.Commit? <==>
              && l.operation < |db.operations| && Current(db, l, now)
              && var op := db.operations[l.operation]; var a := db.attempts[op.attempt];
                 && op.signature != None && op.signedPayload != None && op.status !in {Complete, Failed, Expired, Finalized}
                 && db.invites[a.invite].active == Some(op.attempt) && Allowed(op, a, db.campaigns[a.campaign], v)
    ensures var r := Settle(db, l, v, now); r.Commit? ==> SettledRows(db, r.db, l.operation, v)
  {
    hide SettleEffect, SettledRows;
    if l.operation < |db.operations| { SettledSo(db, l.operation, v); }
  }

  function Booked(op: Operation, o: Id, kind: EntryType, amount: int): seq<Entry> {
    if amount == 0 then [] else [Entry(op.campaign, op.attempt, Some(o), kind, amount, op.signature)]
  }

  /** A registration that leaves money behind is finalized only; a failed sweep goes to review. */
  function StatusThen(op: Operation, a: Attempt, c: Campaign, v: Settlement): Status {
    if op.kind == Registration then (if !v.success then Failed else if Kept(op, a, c, v) > 0 then Finalized else Complete)
    else if v.success then Complete else Status.ManualReview
  }

  function SpentBy(op: Operation, v: Settlement): int {
    if op.kind == Registration then v.debit else v.fee - v.recovered
  }

  /** Every row a settlement writes, by kind and outcome. */
  ghost predicate SettledRows(db: Db, db': Db, o: Id, v: Settlement)
    requires ForeignKeys(db) && o < |db.operations|
  {
    var op := db.operations[o];
    var a := db.attempts[op.attempt];
    var c, i := db.campaigns[a.campaign], db.invites[a.invite];
    var kept, first, status, spent := Kept(op, a, c, v), op.kind == Registration, StatusThen(op, a, c, v), SpentBy(op, v);
    var over := status == Complete || status == Failed;
    && db'.operations == db.operations[o := op.(
         status := if v.success then Complete else Failed, fee := Some(v.fee), debit := Some(v.debit), recovered := Some(v.recovered),
         evidence := Some(Evidence(v.slot, v.success, v.residual)), signedPayload := None, userPayload := None)]
    && db'.attempts == db.attempts[op.attempt := a.(
         status := status, remaining := kept, cost := a.cost + spent, residual := Some(v.residual), slot := Some(v.slot),
         payerKey := if over then None else a.payerKey)]
    && db'.campaigns == db.campaigns[a.campaign := c.(
         reserved := c.reserved - a.remaining + kept, spent := c.spent + spent,
         reservedUsers := c.reservedUsers - (if first then 1 else 0), consumedUsers := c.consumedUsers + (if first && v.success then 1 else 0))]
    && db'.invites == db.invites[a.invite := i.(
         status := if first && v.success then Consumed else i.status, active := if over then None else i.active)]
    && db'.ledger == db.ledger
         + (if first then Booked(op, o, Debit, v.debit - v.fee) + Booked(op, o, Fee, v.fee) + Booked(op, o, Release, a.remaining - v.debit - kept)
            else Booked(op, o, Fee, v.fee) + Booked(op, o, Recover, v.recovered) + Booked(op, o, Release, a.remaining - v.fee - kept))
    && db'.jobs == db.jobs - {o} && db'.quotes == db.quotes && db'.sessions == db.sessions
  }

  lemma SettledSo(db: Db, o: Id, v: Settlement)
    requires ForeignKeys(db) && o < |db.operations|
    ensures SettledRows(db, SettleEffect(db, o, v), o, v)
  {
    hide Kept, StatusThen, SpentBy, SettledOperation, SettledAttempt, SettledCampaign, SettledInvite, SettlementEntries, Booked;
    var op := db.operations[o];
    var a := db.attempts[op.attempt];
    var c, i := db.campaigns[a.campaign], db.invites[a.invite];
    AttemptSo(op, a, c, v);
    CampaignSo(op, a, c, v);
    InviteSo(op, i, a, c, v);
    EntriesSo(op, o, a, c, v);
    OperationSo(op, v);
  }

  lemma OperationSo(op: Operation, v: Settlement)
    ensures SettledOperation(op, v) == op.(
              status := if v.success then Complete else Failed, fee := Some(v.fee), debit := Some(v.debit), recovered := Some(v.recovered),
              evidence := Some(Evidence(v.slot, v.success, v.residual)), signedPayload := None, userPayload := None)
  {
  }

  lemma AttemptSo(op: Operation, a: Attempt, c: Campaign, v: Settlement)
    ensures var status := StatusThen(op, a, c, v);
            SettledAttempt(op, a, c, v) == a.(
              status := status, remaining := Kept(op, a, c, v), cost := a.cost + SpentBy(op, v), residual := Some(v.residual), slot := Some(v.slot),
              payerKey := if status == Complete || status == Failed then None else a.payerKey)
  {
  }

  lemma CampaignSo(op: Operation, a: Attempt, c: Campaign, v: Settlement)
    ensures var first := op.kind == Registration;
            SettledCampaign(op, a, c, v) == c.(
              reserved := c.reserved - a.remaining + Kept(op, a, c, v), spent := c.spent + SpentBy(op, v),
              reservedUsers := c.reservedUsers - (if first then 1 else 0), consumedUsers := c.consumedUsers + (if first && v.success then 1 else 0))
  {
  }

  lemma InviteSo(op: Operation, i: Invite, a: Attempt, c: Campaign, v: Settlement)
    ensures var status := StatusThen(op, a, c, v);
            SettledInvite(op, i, a, c, v) == i.(
              status := if op.kind == Registration && v.success then Consumed else i.status,
              active := if status == Complete || status == Failed then None else i.active)
  {
  }

  lemma EntriesSo(op: Operation, o: Id, a: Attempt, c: Campaign, v: Settlement)
    ensures var kept := Kept(op, a, c, v);
            SettlementEntries(op, o, a, c, v)
            == if op.kind == Registration
               then Booked(op, o, Debit, v.debit - v.fee) + Booked(op, o, Fee, v.fee) + Booked(op, o, Release, a.remaining - v.debit - kept)
               else Booked(op, o, Fee, v.fee) + Booked(op, o, Recover, v.recovered) + Booked(op, o, Release, a.remaining - v.fee - kept)
  {
  }

  // ------------------------------------------------------------------------- pauses

  /** Nothing was reserved in this campaign, and nobody signed for it. */
  ghost predicate NothingNew(db: Db, db': Db, c: Id) {
    && |db.attempts| <= |db'.attempts| && |db.operations| <= |db'.operations|
    && (forall a :: |db.attempts| <= a < |db'.attempts| ==> db'.attempts[a].campaign != c)
    && (forall o :: |db.operations| <= o < |db'.operations| ==> db'.operations[o].campaign != c || db'.operations[o].kind == Recovery)
  }

  ghost predicate NotActive(db: Db, c: Id) {
    c < |db.campaigns| && db.campaigns[c].status != Active
  }

  lemma ReservationActive(p: Policy, db: Db, token: nat, quote: Id, key: string, now: int)
    requires ForeignKeys(db)
    requires ReserveAttempt(p, db, token, quote, key, now).Commit? && ReserveAttempt(p, db, token, quote, key, now).db != db
    ensures quote < |db.quotes| && db.quotes[quote].campaign < |db.campaigns| && db.campaigns[db.quotes[quote].campaign].status == Active
  {
    hide ForeignKeys, Speaks, ReserveAttempt, Reservable;
    ReserveExactly(p, db, token, quote, key, now);
    var i: Id, n: int :| i < |db.invites| && Speaks(p, db, token, i, now) && Reservable(p, db, i, quote, key, n, now);
    SpokenActive(p, db, token, i, now);
    ReservableHome(p, db, i, quote, key, n, now);
  }

  lemma ReservableHome(p: Policy, db: Db, i: Id, quote: Id, key: string, n: int, now: int)
    requires ForeignKeys(db) && i < |db.invites| && Reservable(p, db, i, quote, key, n, now)
    ensures quote < |db.quotes| && db.quotes[quote].campaign == db.invites[i].campaign
  {
    hide ForeignKeys, ValidateStoredQuote;
    QuoteHome(db, quote);
  }

  lemma ReservedElsewhere(p: Policy, db: Db, token: nat, quote: Id, key: string, now: int, c: Id)
    requires ForeignKeys(db) && NotActive(db, c)
    ensures NothingNew(db, After(db, ReserveAttempt(p, db, token, quote, key, now)), c)
  {
    hide ForeignKeys, ReserveAttempt;
    var r := ReserveAttempt(p, db, token, quote, key, now);
    OperationsSame(p, db, token, quote, key, now);
    if r.Commit? && r.db != db {
      ReservationActive(p, db, token, quote, key, now);
      ReservedRow(p, db, token, quote, key, now);
    }
  }

  lemma SpokenActive(p: Policy, db: Db, token: nat, i: Id, now: int)
    requires ForeignKeys(db) && i < |db.invites| && Speaks(p, db, token, i, now)
    ensures db.invites[i].campaign < |db.campaigns| && db.campaigns[db.invites[i].campaign].status == Active
  {
  }

  lemma QuoteHome(db: Db, q: Id)
    requires ForeignKeys(db) && q < |db.quotes|
    ensures db.quotes[q].invite < |db.invites| && db.quotes[q].campaign == db.invites[db.quotes[q].invite].campaign
  {
  }

  lemma OperationsSame(p: Policy, db: Db, token: nat, quote: Id, key: string, now: int)
    requires ForeignKeys(db)
    ensures After(db, ReserveAttempt(p, db, token, quote, key, now)).operations == db.operations
  {
    hide ForeignKeys, LockSession, FindAttempt, ActiveIndexClash, ValidateStoredQuote;
  }

  lemma AuthorizedElsewhere(p: Policy, db: Db, token: nat, id: Id, input: Authorization, now: int, c: Id)
    requires ForeignKeys(db) && NotActive(db, c)
    ensures NothingNew(db, After(db, Authorize(p, db, token, id, input, now)), c)
  {
    hide ForeignKeys, Authorize, SignedIn, Consents;
    AuthorizeExactly(p, db, token, id, input, now);
  }

  lemma OthersAddNothing(p: Policy, db: Db, s: Step, now: int, c: Id)
    requires Good(p, db) && ForeignKeys(db) && !s.DoReserveAttempt? && !s.DoAuthorize?
    ensures NothingNew(db, Apply(p, db, s, now), c)
  {
    hide Inv, Pinned, ForeignKeys, Apply;
    StepAdvances(p, db, s, now);
    NewOperations(p, db, s, now);
    Checks.Grows(p, db, s, now);
  }

  /** Apart from authorizations, only recoveries are ever added. */
  lemma NewOperations(p: Policy, db: Db, s: Step, now: int)
    requires ForeignKeys(db) && !s.DoAuthorize?
    ensures var ops' := Apply(p, db, s, now).operations;
            forall o :: |db.operations| <= o < |ops'| ==> ops'[o].kind == Recovery
  {
    hide ForeignKeys, Apply;
    if CampaignStep(s) {
      CampaignStepOperations(p, db, s, now);
    } else if LeasedStep(s) {
      LeasedStepOperations(p, db, s, now);
    } else {
      OtherStepOperations(p, db, s, now);
    }
  }

  lemma CampaignStepOperations(p: Policy, db: Db, s: Step, now: int)
    requires ForeignKeys(db) && CampaignStep(s)
    ensures Apply(p, db, s, now).operations == db.operations
  {
    hide ForeignKeys, LapseQuotes, KeepNewest, RevokeSessions, FindAttempt, FindSession, FindInvite, ValidateStoredQuote, LockSession;
  }

  lemma LeasedStepOperations(p: Policy, db: Db, s: Step, now: int)
    requires ForeignKeys(db) && LeasedStep(s)
    ensures |Apply(p, db, s, now).operations| == |db.operations|
  {
    hide EvidenceFits, SettledOperation, SettledAttempt, SettledCampaign, SettledInvite, SettlementEntries, SignatureTaken;
  }

  lemma OtherStepOperations(p: Policy, db: Db, s: Step, now: int)
    requires ForeignKeys(db) && !CampaignStep(s) && !LeasedStep(s) && !s.DoAuthorize?
    ensures var ops' := Apply(p, db, s, now).operations;
            forall o :: |db.operations| <= o < |ops'| ==> ops'[o].kind == Recovery
  {
    hide RetryJobs, FindActiveRecovery, FindSession;
  }

  lemma StepAddsNothing(p: Policy, db: Db, s: Step, now: int, c: Id)
    requires Good(p, db) && ForeignKeys(db) && NotActive(db, c)
    ensures NothingNew(db, Apply(p, db, s, now), c)
  {
    hide Good, ForeignKeys, NothingNew, NotActive, ReserveAttempt, Authorize;
    match s {
      case DoReserveAttempt(token, quote, key) =>
        ReservedElsewhere(p, db, token, quote, key, now, c);
        Checks.Reserves(p, db, s, now);
      case DoAuthorize(token, id, input) =>
        AuthorizedElsewhere(p, db, token, id, input, now, c);
        Authorizes(p, db, s, now);
      case _ => OthersAddNothing(p, db, s, now, c);
    }
  }

  lemma Authorizes(p: Policy, db: Db, s: Step, now: int)
    requires ForeignKeys(db) && s.DoAuthorize?
    ensures Apply(p, db, s, now) == After(db, Authorize(p, db, s.token, s.id, s.authorization, now))
  {
  }

  lemma NothingNewOn(db: Db, db': Db, db'': Db, c: Id)
    requires NothingNew(db, db', c) && NothingNew(db', db'', c) && Evolves(db', db'')
    ensures NothingNew(db, db'', c)
  {
    forall a | |db.attempts| <= a < |db''.attempts| ensures db''.attempts[a].campaign != c {
      if a < |db'.attempts| { assert SameAttempt(db'.attempts[a], db''.attempts[a]); }
    }
    forall o | |db.operations| <= o < |db''.operations| ensures db''.operations[o].campaign != c || db''.operations[o].kind == Recovery {
      if o < |db'.operations| { assert SameOperation(db'.operations[o], db''.operations[o]); }
    }
  }

  /**
   * A pause holds: along any run during which a campaign is not active, no attempt is
   * reserved in it and no registration is authorized for it, whoever asks and whenever.
   */
  lemma {:induction false} PauseHolds(p: Policy, db: Db, steps: seq<Timed>, c: Id)
    requires Good(p, db) && ForeignKeys(db)
    requires forall k :: 0 <= k < |steps| ==> NotActive(Run(p, db, steps[..k]), c)
    ensures NothingNew(db, Run(p, db, steps), c)
  {
    hide Inv, Pinned, ForeignKeys, Apply, NothingNew, NotActive, Evolves;
    if steps == [] {
      NothingYet(db, c);
    } else {
      var n := |steps| - 1;
      var init, last := steps[..n], steps[n];
      assert forall k :: 0 <= k < n ==> init[..k] == steps[..k];
      PauseHolds(p, db, init, c);
      RunAdvances(p, db, init);
      var before := Run(p, db, init);
      StepAddsNothing(p, before, last.step, last.now, c);
      StepAdvances(p, before, last.step, last.now);
      NothingNewOn(db, before, Run(p, db, steps), c);
    }
  }

  lemma NothingYet(db: Db, c: Id)
    ensures NothingNew(db, db, c)
  {
  }
}
