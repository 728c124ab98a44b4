/**
 * The committed transactions of the execution store
 * (src/lib/execution/store.ts:100-292), on the same tables.
 */
module ExecutionTx {
  import opened Basics
  import opened Registry
  import opened Quotes
  import opened Database

  datatype Preflight = Preflight(checkedAtMs: int, slot: int, blockHeight: int, fee: int, sponsorBalance: int)

  datatype Authorization = Authorization(messageHash: Digest, userPayload: seq<Byte>, preflight: Preflight)

  /** What a claim hands the worker; every later mutation must present it. */
  datatype Lease = Lease(job: nat, operation: Id, owner: nat, retries: nat)

  datatype SignedInput = SignedInput(bytes: seq<Byte>, signature: string, messageHash: Digest)

  datatype Settlement = Settlement(success: bool, fee: int, debit: int, recovered: int, residual: int, slot: int)

  datatype RecoveryInput = RecoveryInput(
    amount: int, fee: int, blockhash: Key, lastValidBlockHeight: int, messageHash: Digest, message: seq<Byte>, checkedAtMs: int)

  /** An unrevoked, unexpired session of this invite. */
  predicate Authenticated(db: Db, token: nat, invite: Id, now: int) {
    var found := FindSession(db.sessions, token);
    found.Some? && db.sessions[found.value].invite == invite && !db.sessions[found.value].revoked
    && now < db.sessions[found.value].expiresAt
  }

  // --------------------------------------------------------------- authorization

  predicate ValidPreflight(v: Preflight) {
    SafeCounter(v.checkedAtMs) && SafeCounter(v.slot) && SafeCounter(v.blockHeight) && v.fee > 0 && v.sponsorBalance >= 0
  }

  predicate MayAuthorize(p: Policy, db: Db, id: Id, now: int)
    requires ForeignKeys(db) && id < |db.attempts|
  {
    var a := db.attempts[id];
    var c, i, q := db.campaigns[a.campaign], db.invites[a.invite], db.quotes[a.quote].payload;
    && a.status.Prepared? && a.payerKey.Some? && i.active == Some(id) && i.wallet == a.wallet
    && c.status.Active? && c.startsAt <= now < c.endsAt && i.status.Open? && now < i.expiresAt
    && c.policyVersion == p.id && c.policyVersion == q.policyId && c.sponsor == q.sponsor
  }

  predicate FreshFor(a: Attempt, q: SponsoredQuote, v: Preflight, now: int) {
    && now < a.expiresAt && now < q.expiresAtMs && v.checkedAtMs <= now + 1_000 && now - v.checkedAtMs <= 5_000
    && v.blockHeight <= q.lastValidBlockHeight
  }

  predicate SamePolicy(a: Attempt, q: SponsoredQuote, input: Authorization) {
    && a.messageHash == input.messageHash && q.messageSha256 == input.messageHash && a.unsigned == q.unsignedTransaction
    && a.remaining == q.cost.maximumReservation && 0 < input.preflight.fee <= q.cost.transactionFee
    && a.remaining <= input.preflight.sponsorBalance
  }

  function NewRegistration(id: Id, operation: Id, a: Attempt, q: SponsoredQuote, userPayload: seq<Byte>): Operation {
    Operation(id, a.campaign, Registration, Signing, q.messageSha256, q.message,
              Some(Sealed(operation, UserPurpose, userPayload)), None, None, q.blockhash, q.lastValidBlockHeight,
              q.cost.transactionFee, q.cost.maxSponsorDebit, None, None, None, None)
  }

  function Authorize(p: Policy, db: Db, token: nat, id: Id, input: Authorization, now: int): Tx<Id>
    requires ForeignKeys(db)
  {
    if !ValidPreflight(input.preflight) then Abort(InvalidInput)
    else if id >= |db.attempts| then Abort(Unauthorized)
    else
      var a := db.attempts[id];
      var q := db.quotes[a.quote].payload;
      var prior := FindRegistration(db.operations, id);
      if !Authenticated(db, token, a.invite, now) then Abort(Unauthorized)
      else if prior.Some? then Commit(db, prior.value)
      else if !MayAuthorize(p, db, id, now) then Abort(Unavailable)
      else if !FreshFor(a, q, input.preflight, now) then Abort(Code.QuoteExpired)
      else if !SamePolicy(a, q, input) then Abort(PolicyChanged)
      else Commit(AuthorizeEffect(db, id, input.userPayload, now), |db.operations|)
  }

  /** Operation, attempt status and job, committed together. */
  function AuthorizeEffect(db: Db, id: Id, userPayload: seq<Byte>, now: int): Db
    requires ForeignKeys(db) && id < |db.attempts|
  {
    var a := db.attempts[id];
    var o := |db.operations|;
    db.(operations := db.operations + [NewRegistration(id, o, a, db.quotes[a.quote].payload, userPayload)],
        attempts := db.attempts[id := a.(status := Signing)],
        jobs := db.jobs[o := Job(db.nextJob, now, None, 0)], nextJob := db.nextJob + 1)
  }

  // --------------------------------------------------------------------- leasing

  /** Claim a due, unleased job; which one is the scheduler's choice. */
  function ClaimJob(db: Db, owner: nat, operation: Id, sponsor: Option<Key>, now: int): Tx<Option<Lease>>
    requires ForeignKeys(db)
  {
    if operation !in db.jobs then Commit(db, None)
    else
      var j := db.jobs[operation];
      if j.nextRunAt > now || (j.hold.Some? && now < j.hold.value.expiresAt) then Commit(db, None)
      else if sponsor.Some? && db.campaigns[CampaignOf(db, operation)].sponsor != sponsor.value then Commit(db, None)
      else
        var job := j.(hold := Some(Hold(owner, now + 45_000)), retries := j.retries + 1);
        Commit(db.(jobs := db.jobs[operation := job]), Some(Lease(j.id, operation, owner, j.retries + 1)))
  }

  function CampaignOf(db: Db, operation: Id): (r: Id)
    requires ForeignKeys(db) && operation < |db.operations|
    ensures r < |db.campaigns|
  {
    db.operations[operation].campaign
  }

  /** The fence: this very job, held by this owner, and not yet expired. */
  predicate Holds(db: Db, l: Lease, now: int) {
    && l.operation in db.jobs && db.jobs[l.operation].id == l.job
    && db.jobs[l.operation].hold.Some? && db.jobs[l.operation].hold.value.owner == l.owner
    && now < db.jobs[l.operation].hold.value.expiresAt
  }

  function Reschedule(db: Db, l: Lease, delayMs: int, now: int): Tx<()> {
    if delayMs < 0 || delayMs > 60_000 then Abort(InvalidInput)
    else if !Holds(db, l, now) then Abort(Conflict)
    else Commit(db.(jobs := db.jobs[l.operation := db.jobs[l.operation].(hold := None, nextRunAt := now + delayMs)]), ())
  }

  /** The shared prologue of every worker mutation. */
  function Fenced(db: Db, l: Lease, now: int): Option<Code> {
    if l.operation >= |db.operations| then Some(Unavailable)
    else if !Holds(db, l, now) then Some(Conflict)
    else None
  }

  // ------------------------------------------------------------ worker mutations

  function BroadcastPayload(db: Db, l: Lease, now: int): Tx<Operation>
    requires ForeignKeys(db)
  {
    var fence := Fenced(db, l, now);
    if fence.Some? then Abort(fence.value)
    else
      var op := db.operations[l.operation];
      if op.signedPayload.None? || op.signature.None? || !(op.status.Signed? || op.status.Submitted? || op.status.BroadcastUnknown?) then
        Abort(Conflict)
      else Commit(db, op)
  }

  /** An operation row changed together with, for registrations only, its attempt's visible status. */
  function WithStatus(db: Db, o: Id, op: Operation, attempt: Attempt): Db
    requires ForeignKeys(db) && o < |db.operations|
  {
    var id := db.operations[o].attempt;
    db.(operations := db.operations[o := op],
        attempts := if op.kind.Registration? then db.attempts[id := attempt] else db.attempts)
  }

  /** Signatures are unique across operations (src/db/schema.ts:178). */
  predicate SignatureTaken(ops: seq<Operation>, o: Id, signature: string) {
    exists q :: 0 <= q < |ops| && q != o && ops[q].signature == Some(signature)
  }

  function PersistSigned(db: Db, l: Lease, input: SignedInput, now: int): Tx<Operation>
    requires ForeignKeys(db)
  {
    var fence := Fenced(db, l, now);
    if fence.Some? then Abort(fence.value)
    else
      var op := db.operations[l.operation];
      if !op.status.Signing? || op.messageHash != input.messageHash then Abort(Conflict)
      else if SignatureTaken(db.operations, l.operation, input.signature) then Abort(StorageUnavailable)
      else
        var signed := op.(status := Signed, signedPayload := Some(Sealed(l.operation, SignedPurpose, input.bytes)),
                          signature := Some(input.signature), userPayload := None);
        Commit(WithStatus(db, l.operation, signed, db.attempts[op.attempt].(status := Signed, signature := Some(input.signature))), signed)
  }

  function Note(db: Db, l: Lease, state: Status, now: int): Tx<()>
    requires ForeignKeys(db)
    requires state.Submitted? || state.BroadcastUnknown? || state.Confirmed?
  {
    var fence := Fenced(db, l, now);
    if fence.Some? then Abort(fence.value)
    else
      var op := db.operations[l.operation];
      if op.signature.None? || op.signedPayload.None?
         || !(op.status.Signed? || op.status.Submitted? || op.status.BroadcastUnknown? || op.status.Confirmed?) then Abort(Conflict)
      else if op.status.Confirmed? && !state.Confirmed? then Commit(db, ())
      else Commit(WithStatus(db, l.operation, op.(status := state), db.attempts[op.attempt].(status := state)), ())
  }

  function ManualReviewTx(db: Db, l: Lease, now: int): Tx<()>
    requires ForeignKeys(db)
  {
    var fence := Fenced(db, l, now);
    if fence.Some? then Abort(fence.value)
    else
      var op := db.operations[l.operation];
      Commit(db.(operations := db.operations[l.operation := op.(status := ManualReview)],
                 attempts := db.attempts[op.attempt := db.attempts[op.attempt].(status := ManualReview)],
                 jobs := db.jobs - {l.operation}), ())
  }

  /** Reschedule every open operation of the attempt, creating the job where it is gone. */
  function RetryJobs(db: Db, attempt: Id, upto: nat, now: int): (r: (map<Id, Job>, nat))
    requires ForeignKeys(db) && upto <= |db.operations|
    ensures r.1 >= db.nextJob
    ensures forall o: Id :: o in r.0 <==> o in db.jobs || (o < upto && db.operations[o].attempt == attempt && !Closed(db.operations[o].status))
    ensures forall o: Id :: o in r.0 ==> r.0[o].id < r.1
    ensures forall o: Id :: o in db.jobs ==> r.0[o] == db.jobs[o] || r.0[o] == db.jobs[o].(nextRunAt := now)
    ensures forall o: Id :: o in r.0 && o !in db.jobs ==> r.0[o].hold.None? && db.nextJob <= r.0[o].id
  {
    if upto == 0 then (db.jobs, db.nextJob)
    else
      var (jobs, next) := RetryJobs(db, attempt, upto - 1, now);
      var o := upto - 1;
      var op := db.operations[o];
      if op.attempt != attempt || Closed(op.status) then (jobs, next)
      else if o in jobs then (jobs[o := jobs[o].(nextRunAt := now)], next)
      else (jobs[o := Job(next, now, None, 0)], next + 1)
  }

  function RequestRetry(db: Db, id: Id, token: Option<nat>, now: int): Tx<()>
    requires ForeignKeys(db)
  {
    if id >= |db.attempts| then Abort(Unauthorized)
    else
      var i := db.attempts[id].invite;
      if token.Some? && (!Authenticated(db, token.value, i, now) || db.invites[i].status.Revoked?) then Abort(Unauthorized)
      else
        var (jobs, next) := RetryJobs(db, id, |db.operations|, now);
        Commit(db.(jobs := jobs, nextJob := next), ())
  }

  // ------------------------------------------------------------------ settlement

  /** A ledger row for a positive amount; zero amounts leave no row. */
  function Event(op: Operation, o: Id, kind: EntryType, amount: int): seq<Entry> {
    if amount == 0 then [] else [Entry(op.campaign, op.attempt, Some(o), kind, amount, op.signature)]
  }

  function HeldAfter(op: Operation, a: Attempt, c: Campaign, v: Settlement): int {
    if op.kind.Registration? then (if v.success && v.residual > 0 then c.limits.recoveryAllowance else 0)
    else if v.success then 0 else a.remaining - v.fee
  }

  function SpentChange(op: Operation, v: Settlement): int {
    if op.kind.Registration? then v.debit else v.fee - v.recovered
  }

  function StatusAfter(op: Operation, a: Attempt, c: Campaign, v: Settlement): Status {
    if op.kind.Registration? then
      (if !v.success then Failed else if HeldAfter(op, a, c, v) > 0 then Finalized else Complete)
    else if v.success then Complete else ManualReview
  }

  predicate WellFormedSettlement(v: Settlement) {
    v.fee >= 0 && v.debit >= 0 && v.recovered >= 0 && v.residual >= 0 && SafeCounter(v.slot)
  }

  /** Every evidence guard of settle, in the order the branches apply. */
  predicate EvidenceFits(op: Operation, a: Attempt, c: Campaign, v: Settlement) {
    && v.fee <= op.feeCap
    && (if op.kind.Registration? then
          && v.recovered == 0 && v.debit <= op.amount && v.fee <= v.debit
          && (!v.success ==> v.debit == v.fee && v.residual == 0)
          && SpentChange(op, v) + HeldAfter(op, a, c, v) <= a.remaining
        else
          && (v.success ==> v.recovered == op.amount && v.residual == 0)
          && (!v.success ==> v.recovered == 0 && v.residual == op.amount)
          && v.fee <= a.remaining && a.cost + SpentChange(op, v) >= 0)
  }

  function SettlementEntries(op: Operation, o: Id, a: Attempt, c: Campaign, v: Settlement): seq<Entry> {
    if op.kind.Registration? then
      Event(op, o, Debit, v.debit - v.fee) + Event(op, o, Fee, v.fee)
      + Event(op, o, Release, a.remaining - SpentChange(op, v) - HeldAfter(op, a, c, v))
    else
      Event(op, o, Fee, v.fee) + Event(op, o, Recover, v.recovered)
      + Event(op, o, Release, a.remaining - HeldAfter(op, a, c, v) - v.fee)
  }

  function SettledOperation(op: Operation, v: Settlement): Operation {
    op.(status := if v.success then Complete else Failed, fee := Some(v.fee), debit := Some(v.debit), recovered := Some(v.recovered),
        evidence := Some(Evidence(v.slot, v.success, v.residual)), signedPayload := None, userPayload := None)
  }

  function SettledAttempt(op: Operation, a: Attempt, c: Campaign, v: Settlement): Attempt {
    var status := StatusAfter(op, a, c, v);
    a.(status := status, remaining := HeldAfter(op, a, c, v), cost := a.cost + SpentChange(op, v),
       residual := Some(v.residual), slot := Some(v.slot),
       payerKey := if status.Complete? || status.Failed? then None else a.payerKey)
  }

  function SettledCampaign(op: Operation, a: Attempt, c: Campaign, v: Settlement): Campaign {
    var moved := c.(reserved := c.reserved - a.remaining + HeldAfter(op, a, c, v), spent := c.spent + SpentChange(op, v));
    if op.kind.Registration? then
      moved.(reservedUsers := c.reservedUsers - 1, consumedUsers := c.consumedUsers + (if v.success then 1 else 0))
    else moved
  }

  function SettledInvite(op: Operation, i: Invite, a: Attempt, c: Campaign, v: Settlement): Invite {
    if op.kind.Registration? then
      i.(status := if v.success then Consumed else i.status, active := if HeldAfter(op, a, c, v) > 0 then i.active else None)
    else if v.success then i.(active := None) else i
  }

  function SettleEffect(db: Db, o: Id, v: Settlement): Db
    requires ForeignKeys(db) && o < |db.operations|
  {
    var op := db.operations[o];
    var a := db.attempts[op.attempt];
    var c, i := db.campaigns[a.campaign], db.invites[a.invite];
    db.(operations := db.operations[o := SettledOperation(op, v)],
        attempts := db.attempts[op.attempt := SettledAttempt(op, a, c, v)],
        campaigns := db.campaigns[a.campaign := SettledCampaign(op, a, c, v)],
        invites := db.invites[a.invite := SettledInvite(op, i, a, c, v)],
        ledger := db.ledger + SettlementEntries(op, o, a, c, v),
        jobs := db.jobs - {o})
  }

  function Settle(db: Db, l: Lease, v: Settlement, now: int): Tx<()>
    requires ForeignKeys(db)
  {
    if !WellFormedSettlement(v) then Abort(EvidenceInvalid)
    else
      var fence := Fenced(db, l, now);
      if fence.Some? then Abort(fence.value)
      else
        var op := db.operations[l.operation];
        var a := db.attempts[op.attempt];
        if op.signature.None? || op.signedPayload.None? || Closed(op.status) then Abort(Conflict)
        else if db.invites[a.invite].active != Some(op.attempt) || !EvidenceFits(op, a, db.campaigns[a.campaign], v) then Abort(EvidenceInvalid)
        else Commit(SettleEffect(db, l.operation, v), ())
  }

  // -------------------------------------------------------------------- recovery

  predicate MayRecover(db: Db, id: Id, input: RecoveryInput, now: int)
    requires ForeignKeys(db) && id < |db.attempts|
  {
    var a := db.attempts[id];
    var c, i := db.campaigns[a.campaign], db.invites[a.invite];
    && (a.status.Finalized? || a.status.ManualReview?) && i.status.Consumed? && i.active == Some(id) && a.payerKey.Some?
    && a.residual == Some(input.amount) && input.amount > 0 && 0 < input.fee <= c.limits.recoveryAllowance
    && input.checkedAtMs <= now + 1_000 && now - input.checkedAtMs <= 5_000
  }

  function NewRecovery(id: Id, a: Attempt, input: RecoveryInput): Operation {
    Operation(id, a.campaign, Recovery, Signing, input.messageHash, input.message, None, None, None,
              input.blockhash, input.lastValidBlockHeight, input.fee, input.amount, None, None, None, None)
  }

  function ReserveRecovery(db: Db, id: Id, input: RecoveryInput, now: int): Tx<Id>
    requires ForeignKeys(db)
  {
    if id >= |db.attempts| then Abort(Unauthorized)
    else
      var prior := FindActiveRecovery(db.operations, id);
      if prior.Some? then Commit(db, prior.value)
      else if !MayRecover(db, id, input, now) then Abort(Unavailable)
      else
        var a := db.attempts[id];
        var c := db.campaigns[a.campaign];
        var extra := Max(input.fee - a.remaining, 0);
        if c.reserved + c.spent + extra > c.cap then Abort(BudgetExhausted)
        else Commit(RecoveryEffect(db, id, input, extra, now), |db.operations|)
  }

  function RecoveryEffect(db: Db, id: Id, input: RecoveryInput, extra: int, now: int): Db
    requires ForeignKeys(db) && id < |db.attempts|
  {
    var a := db.attempts[id];
    var c := db.campaigns[a.campaign];
    var o := |db.operations|;
    var op := NewRecovery(id, a, input);
    db.(operations := db.operations + [op],
        campaigns := db.campaigns[a.campaign := c.(reserved := c.reserved + extra)],
        attempts := db.attempts[id := a.(remaining := a.remaining + extra)],
        ledger := db.ledger + Event(op, o, Reserve, extra),
        jobs := db.jobs[o := Job(db.nextJob, now, None, 0)], nextJob := db.nextJob + 1)
  }
}
