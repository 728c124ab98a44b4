/**
 * The worker protocol (src/lib/execution/service.ts:57-150): any number of workers, each a
 * local program over separately committed transactions, with crashes, lost
 * acknowledgements, expired leases and sends outside any transaction.
 */
module Workers {
  import opened Basics
  import opened Registry
  import opened Quotes
  import opened SponsoredMessage
  import opened Database
  import opened ExecutionTx
  import opened Steps
  import opened Receipts
  import opened VerifiedRuns
  import opened RecoveryMessages

  /** What the outside world sees: payloads that were committed, and bytes handed to the chain. */
  datatype Event = Persisted(operation: Id, bytes: seq<Byte>) | Sent(operation: Id, bytes: seq<Byte>)

  /** Where a worker is in processOne, with the rows it has read. */
  datatype Worker =
    | Gone
    | Fresh(owner: nat)
    | Claimed(lease: Lease)
    | Reading(lease: Lease, op: Operation)
    | Ready(lease: Lease, op: Operation, facts: Case)
    | Persisting(lease: Lease, op: Operation, facts: Case, input: SignedInput)
    | Opening(lease: Lease, op: Operation, facts: Case)
    | Observing(lease: Lease, op: Operation, facts: Case, bytes: seq<Byte>)
    | Deciding(lease: Lease, op: Operation, facts: Case, bytes: seq<Byte>, observation: ChainObservation)
    | Releasing(lease: Lease, bytes: seq<Byte>)
    | Sending(lease: Lease, bytes: seq<Byte>, released: Operation)
    | Noting(lease: Lease, state: Status)
    | Reviewing(lease: Lease)
    | Resting(lease: Lease)
    | Failing(lease: Lease, review: bool)

  /** Everything a worker does not decide: scheduling, clocks, the chain, and whether an acknowledgement is lost. */
  datatype Oracle = Oracle(
    operation: Id, sponsor: Option<Key>, lost: bool, review: bool, signed: Option<SignedInput>,
    observation: Option<ChainObservation>, sendResult: Option<string>)

  datatype Move = Environment(step: Step) | Begin(owner: nat) | Work(worker: nat, oracle: Oracle) | Crash(worker: nat)

  datatype TimedMove = TimedMove(move: Move, now: int)

  datatype System = System(history: History, workers: seq<Worker>, log: seq<Event>)

  /** The result of one worker step: tables, filed receipts, next local state and events. */
  datatype Did = Did(history: History, worker: Worker, events: seq<Event>)

  function Still(h: History, w: Worker): Did {
    Did(h, w, [])
  }

  // --------------------------------------------------------------- local checks

  /** The checks on the opened payload before anything is observed or sent. */
  ghost predicate PayloadChecks(p: Policy, op: Operation, facts: Case, bytes: seq<Byte>) {
    var tx := p.decode(bytes);
    && tx.Some? && tx.value.verified && tx.value.keys != [] && tx.value.keys[0] == facts.sponsor
    && tx.value.message == op.message && Sha256(tx.value.message) == op.messageHash
    && (if op.kind.Registration? then
          && facts.quote.message == op.message && facts.quote.messageSha256 == op.messageHash
          && Accepts(p, tx.value.message, MessageInput(facts.quote, facts.quote.feeReceiver))
        else RecoveryMessage(p, facts.sponsor, facts.payer, op.amount, op.blockhash) == Some(op.message))
  }

  /** Errors after which the job goes to review instead of being retried. */
  predicate ReviewCode(c: Code) {
    c == Code.QuoteExpired || c == PolicyChanged || c == EvidenceInvalid
  }

  function Power(n: nat): nat {
    if n == 0 then 1 else 2 * Power(n - 1)
  }

  function RestDelay(l: Lease): int {
    Min(30_000, 1_000 * Power(if l.retries < 5 then l.retries else 5))
  }

  function FailDelay(l: Lease): int {
    Min(60_000, 3_000 * l.retries)
  }

  // ---------------------------------------------------------------- worker steps

  function Claim(h: History, owner: nat, x: Oracle, now: int): Did
    requires ForeignKeys(h.db)
  {
    var t := ClaimJob(h.db, owner, x.operation, x.sponsor, now);
    // A claim that throws, even after committing, ends the call before its catch block.
    Did(h.(db := After(h.db, t)), if t.Commit? && t.value.Some? && !x.lost then Claimed(t.value.value) else Gone, [])
  }

  function Persist(h: History, w: Worker, x: Oracle, now: int): Did
    requires ForeignKeys(h.db) && w.Persisting?
  {
    var t := PersistSigned(h.db, w.lease, w.input, now);
    Did(h.(db := After(h.db, t)),
        if t.Commit? && !x.lost then Opening(w.lease, t.value, w.facts) else Failing(w.lease, t.Abort? && ReviewCode(t.code)),
        if t.Commit? then [Persisted(w.lease.operation, w.input.bytes)] else [])
  }

  ghost function OpenPayload(p: Policy, w: Worker): Worker
    requires w.Opening?
  {
    if w.op.signature.None? || w.op.signedPayload.None? then Reviewing(w.lease)
    else
      var bytes := Unseal(w.op.signedPayload.value, w.lease.operation, SignedPurpose);
      if bytes.None? || !PayloadChecks(p, w.op, w.facts, bytes.value) then Failing(w.lease, true)
      else Observing(w.lease, w.op, w.facts, bytes.value)
  }

  function Decide(p: Policy, h: History, w: Worker, x: Oracle, now: int): Did
    requires ForeignKeys(h.db) && w.Deciding?
  {
    var o := w.observation;
    if o.status == Final && o.receipt.Some? then
      var v := VerifySettlement(p, w.facts, o, w.bytes);
      if v.None? then Still(h, Failing(w.lease, true))
      else
        var t := Settle(h.db, w.lease, v.value, now);
        if t.Abort? then Still(h, Failing(w.lease, ReviewCode(t.code)))
        else
          Did(History(t.db, h.filed + [Filed(h.db.operations[w.lease.operation].attempt, w.facts, o.receipt.value)]),
              if x.lost then Failing(w.lease, false) else Gone, [])
    else if o.status == Final || o.finalizedHeight > w.op.lastValidBlockHeight then Still(h, Reviewing(w.lease))
    else if o.status == Confirming then Still(h, Noting(w.lease, Confirmed))
    else if !w.op.status.ManualReview? && !w.op.status.Confirmed? then Still(h, Releasing(w.lease, w.bytes))
    else Still(h, Resting(w.lease))
  }

  function HandOut(h: History, w: Worker, x: Oracle, now: int): Did
    requires ForeignKeys(h.db) && w.Releasing?
  {
    var t := BroadcastPayload(h.db, w.lease, now);
    Still(h, if t.Commit? && !x.lost then Sending(w.lease, w.bytes, t.value) else Failing(w.lease, false))
  }

  /** Outside any transaction and outside the lease: however late, the released bytes go out. */
  function Send(h: History, w: Worker, x: Oracle): Did
    requires w.Sending?
  {
    var bytes := if w.released.signedPayload.Some? then Unseal(w.released.signedPayload.value, w.lease.operation, SignedPurpose) else None;
    if bytes.None? then Still(h, Failing(w.lease, true))
    else
      Did(h, Noting(w.lease, if x.sendResult.Some? && x.sendResult == w.released.signature then Submitted else BroadcastUnknown),
          [Sent(w.lease.operation, bytes.value)])
  }

  function TakeNote(h: History, w: Worker, x: Oracle, now: int): Did
    requires ForeignKeys(h.db) && w.Noting? && NoteState(w.state)
  {
    var t := Note(h.db, w.lease, w.state, now);
    Did(h.(db := After(h.db, t)),
        if t.Commit? && !x.lost then Resting(w.lease)
        else if w.state.Submitted? then Noting(w.lease, BroadcastUnknown) else Failing(w.lease, false), [])
  }

  function Conclude(h: History, w: Worker, x: Oracle, now: int): Did
    requires ForeignKeys(h.db) && (w.Reviewing? || w.Resting? || w.Failing?)
  {
    var reviews := w.Reviewing? || (w.Failing? && w.review);
    var t := if reviews then ManualReviewTx(h.db, w.lease, now)
             else ExecutionTx.Reschedule(h.db, w.lease, if w.Resting? then RestDelay(w.lease) else FailDelay(w.lease), now);
    Did(h.(db := After(h.db, t)), if w.Failing? || (t.Commit? && !x.lost) then Gone else Failing(w.lease, false), [])
  }

  ghost function Does(p: Policy, h: History, w: Worker, x: Oracle, now: int): Did
    requires ForeignKeys(h.db)
  {
    match w
    case Gone => Still(h, Gone)
    case Fresh(owner) => Claim(h, owner, x, now)
    case Claimed(l) =>
      Still(h, if x.lost || l.operation >= |h.db.operations| then Failing(l, false) else Reading(l, h.db.operations[l.operation]))
    case Reading(l, op) =>
      Still(h, if x.lost || l.operation >= |h.db.operations| then Failing(l, false) else Ready(l, op, CaseOf(h.db, l.operation)))
    case Ready(l, op, facts) =>
      Still(h, if !op.status.Signing? then Opening(l, op, facts)
               // sign: rechecks, preflight and co-signing either fail or yield a payload for this very message.
               else if x.signed.None? then Failing(l, x.review)
               else if x.signed.value.messageHash != op.messageHash then Failing(l, true)
               else Persisting(l, op, facts, x.signed.value))
    case Persisting(_, _, _, _) => Persist(h, w, x, now)
    case Opening(_, _, _) => Still(h, OpenPayload(p, w))
    case Observing(l, op, facts, bytes) =>
      Still(h, if x.observation.None? then Failing(l, x.review) else Deciding(l, op, facts, bytes, x.observation.value))
    case Deciding(_, _, _, _, _) => Decide(p, h, w, x, now)
    case Releasing(_, _) => HandOut(h, w, x, now)
    case Sending(_, _, _) => Send(h, w, x)
    case Noting(l, state) => if NoteState(state) then TakeNote(h, w, x, now) else Still(h, Gone)
    case _ => Conclude(h, w, x, now)
  }

  /** Anyone else may run any transaction that needs no lease. */
  predicate Unleased(s: Step) {
    !LeasedStep(s)
  }

  ghost function Evolve(p: Policy, s: System, m: Move, now: int): System
    requires ForeignKeys(s.history.db)
  {
    match m
    case Environment(step) => if Unleased(step) then s.(history := Perform(p, s.history, Other(step), now)) else s
    case Begin(owner) => s.(workers := s.workers + [Fresh(owner)])
    case Crash(k) => if k < |s.workers| then s.(workers := s.workers[k := Gone]) else s
    case Work(k, x) =>
      if k >= |s.workers| then s
      else
        var did := Does(p, s.history, s.workers[k], x, now);
        System(did.history, s.workers[k := did.worker], s.log + did.events)
  }
}
