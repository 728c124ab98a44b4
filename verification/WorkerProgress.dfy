/** What a pass of processOne does and why: signing, sending, noting, review and settlement, each exactly when the chain says so. */
module WorkerProgress {
  import opened Basics
  import opened Registry
  import opened Quotes
  import opened SponsoredMessage
  import opened Database
  import opened ExecutionTx
  import opened Steps
  import opened Evolution
  import opened Reachable
  import opened Receipts
  import opened VerifiedRuns
  import opened Workers
  import opened WorkerSafety
  import opened RecoveryMessages
  import opened ExecutionRules

  // ------------------------------------------------------------- a pass, undisturbed

  datatype Turn = Turn(oracle: Oracle, now: int)

  /** A worker's own steps, one after the other, with nobody in between. */
  ghost function Alone(p: Policy, h: History, w: Worker, turns: seq<Turn>): (d: Did)
    requires ForeignKeys(h.db)
    ensures ForeignKeys(d.history.db)
    decreases |turns|
  {
    if turns == [] then Still(h, w)
    else
      var first := Does(p, h, w, turns[0].oracle, turns[0].now);
      DoesKeys(p, h, w, turns[0].oracle, turns[0].now);
      var rest := Alone(p, first.history, first.worker, turns[1..]);
      Did(rest.history, rest.worker, first.events + rest.events)
  }

  lemma AloneFirst(p: Policy, h: History, w: Worker, turns: seq<Turn>)
    requires ForeignKeys(h.db) && turns != []
    ensures var first := Does(p, h, w, turns[0].oracle, turns[0].now);
            && ForeignKeys(first.history.db)
            && var rest := Alone(p, first.history, first.worker, turns[1..]);
               Alone(p, h, w, turns) == Did(rest.history, rest.worker, first.events + rest.events)
  {
    hide ForeignKeys, Does;
    DoesKeys(p, h, w, turns[0].oracle, turns[0].now);
  }

  lemma AloneNone(p: Policy, h: History, w: Worker)
    requires ForeignKeys(h.db)
    ensures Alone(p, h, w, []) == Did(h, w, [])
  {
  }

  lemma AloneTwo(p: Policy, h: History, w: Worker, a: Turn, b: Turn)
    requires ForeignKeys(h.db)
    ensures var d := Does(p, h, w, a.oracle, a.now);
            && ForeignKeys(d.history.db)
            && var e := Does(p, d.history, d.worker, b.oracle, b.now); Alone(p, h, w, [a, b]) == Did(e.history, e.worker, d.events + e.events)
  {
    hide ForeignKeys, Does, Alone;
    var turns := [a, b];
    assert turns[1..] == [b] && [b][1..] == [];
    AloneFirst(p, h, w, turns);
    var d := Does(p, h, w, a.oracle, a.now);
    AloneFirst(p, d.history, d.worker, [b]);
    var e := Does(p, d.history, d.worker, b.oracle, b.now);
    AloneNone(p, e.history, e.worker);
    assert e.events + [] == e.events;
  }

  lemma AloneFour(p: Policy, h: History, w: Worker, a: Turn, b: Turn, c: Turn, d: Turn)
    requires ForeignKeys(h.db)
    ensures var first := Alone(p, h, w, [a, b]); var second := Alone(p, first.history, first.worker, [c, d]);
            Alone(p, h, w, [a, b, c, d]) == Did(second.history, second.worker, first.events + second.events)
  {
    hide ForeignKeys, Does, Alone;
    var turns := [a, b, c, d];
    assert turns[1..] == [b, c, d] && [b, c, d][1..] == [c, d];
    AloneTwo(p, h, w, a, b);
    AloneFirst(p, h, w, turns);
    var x := Does(p, h, w, a.oracle, a.now);
    AloneFirst(p, x.history, x.worker, [b, c, d]);
    var y := Does(p, x.history, x.worker, b.oracle, b.now);
    var z := Alone(p, y.history, y.worker, [c, d]);
    assert x.events + (y.events + z.events) == x.events + y.events + z.events;
  }

  // ------------------------------------------------------------------------ decisions

  /** The chain has neither settled nor confirmed the transaction and can still take it. */
  predicate Unseen(op: Operation, o: ChainObservation) {
    o.status !in {Final, Confirming} && o.finalizedHeight <= op.lastValidBlockHeight
  }

  /** The row's payload may go out: signed, and neither confirmed, settled nor under review. */
  predicate Sendable(op: Operation) {
    op.signature != None && op.signedPayload != None && op.status in {Signed, Submitted, BroadcastUnknown}
  }

  lemma DecidesToSend(p: Policy, h: History, w: Worker, t: Turn)
    requires ForeignKeys(h.db) && w.Deciding? && Unseen(w.op, w.observation) && w.op.status !in {Status.ManualReview, Confirmed}
    ensures Does(p, h, w, t.oracle, t.now) == Did(h, Releasing(w.lease, w.bytes), [])
  {
    hide ForeignKeys, VerifySettlement, Settle;
  }

  lemma Releases(p: Policy, h: History, w: Worker, t: Turn)
    requires ForeignKeys(h.db) && w.Releasing? && !t.oracle.lost
    requires w.lease.operation < |h.db.operations| && Current(h.db, w.lease, t.now) && Sendable(h.db.operations[w.lease.operation])
    ensures Does(p, h, w, t.oracle, t.now) == Did(h, Sending(w.lease, w.bytes, h.db.operations[w.lease.operation]), [])
  {
    hide ForeignKeys, BroadcastPayload;
    ReleaseExactly(h.db, w.lease, t.now);
  }

  /** What the send is noted as. */
  function Noted(x: Oracle, op: Operation): Status {
    if x.sendResult != None && x.sendResult == op.signature then Submitted else BroadcastUnknown
  }

  lemma Sends(p: Policy, h: History, w: Worker, t: Turn)
    requires ForeignKeys(h.db) && w.Sending? && w.released.signedPayload == Some(Sealed(w.lease.operation, SignedPurpose, w.bytes))
    ensures Does(p, h, w, t.oracle, t.now)
         == Did(h, Noting(w.lease, Noted(t.oracle, w.released)), [Sent(w.lease.operation, w.bytes)])
  {
    hide ForeignKeys;
  }

  lemma Notes(p: Policy, h: History, w: Worker, t: Turn)
    requires ForeignKeys(h.db) && w.Noting? && NoteState(w.state) && !t.oracle.lost
    requires w.lease.operation < |h.db.operations| && Current(h.db, w.lease, t.now)
    requires Sendable(h.db.operations[w.lease.operation])
    ensures var d := Does(p, h, w, t.oracle, t.now); var op := h.db.operations[w.lease.operation];
            && d.worker == Resting(w.lease) && d.events == [] && d.history.filed == h.filed
            && RowsBecome(h.db, d.history.db, w.lease.operation, op.(status := w.state), h.db.attempts[op.attempt].(status := w.state))
  {
    hide ForeignKeys, Note;
    NoteExactly(h.db, w.lease, w.state, t.now);
  }

  /** The stored payload is the worker's own bytes. */
  lemma PayloadIs(p: Policy, s: System, w: Worker)
    requires SystemOk(p, s) && w.Deciding? && WorkerOk(p, s.history.db, s.log, w)
    ensures w.lease.operation < |s.history.db.operations|
    ensures var op := s.history.db.operations[w.lease.operation];
            op.signedPayload.Some? ==> op.signedPayload == Some(Sealed(w.lease.operation, SignedPurpose, w.bytes))
  {
    hide Good, ForeignKeys, WorkersOk, LogKnown, SentAfterCommit, SentVetted, SameOperation, PersistedOnce, Vetted, CaseOf;
    var o := w.lease.operation;
    var op := s.history.db.operations[o];
    assert Logged(op, o, s.log);
    if op.signedPayload.Some? {
      SameBytes(s.log, o, w.bytes, op.signedPayload.value.bytes);
    }
  }

  /**
   * A worker that finds its transaction neither final nor confirmed, on a row that is
   * neither confirmed nor under review, sends the committed bytes before it notes
   * anything, and leaves the row submitted or of unknown fate.
   */
  lemma UnseenIsSent(p: Policy, s: System, w: Worker, a: Turn, b: Turn, c: Turn, d: Turn)
    requires SystemOk(p, s) && w.Deciding? && WorkerOk(p, s.history.db, s.log, w)
    requires Unseen(w.op, w.observation) && w.op.status !in {Status.ManualReview, Confirmed}
    requires w.lease.operation < |s.history.db.operations| && Sendable(s.history.db.operations[w.lease.operation])
    requires Current(s.history.db, w.lease, b.now) && Current(s.history.db, w.lease, d.now) && !b.oracle.lost && !d.oracle.lost
    ensures var o, op := w.lease.operation, s.history.db.operations[w.lease.operation]; var r := Alone(p, s.history, w, [a, b, c, d]);
            && r.events == [Sent(o, w.bytes)] && r.worker == Resting(w.lease)
            && |r.history.db.operations| == |s.history.db.operations| && r.history.db.operations[o] == op.(status := Noted(c.oracle, op))
  {
    hide SystemOk, ForeignKeys, WorkerOk, Does, Alone, Current, Sendable, Unseen;
    SystemKeys(p, s);
    PayloadIs(p, s, w);
    var h, op := s.history, s.history.db.operations[w.lease.operation];
    SendableSigned(op);
    DecidesToSend(p, h, w, a);
    Releases(p, h, Releasing(w.lease, w.bytes), b);
    var sending := Sending(w.lease, w.bytes, op);
    Sends(p, h, sending, c);
    Notes(p, h, Noting(w.lease, Noted(c.oracle, op)), d);
    AloneTwo(p, h, w, a, b);
    AloneTwo(p, h, sending, c, d);
    AloneFour(p, h, w, a, b, c, d);
  }

  lemma SystemKeys(p: Policy, s: System)
    requires SystemOk(p, s)
    ensures ForeignKeys(s.history.db)
  {
  }

  lemma SendableSigned(op: Operation)
    requires Sendable(op)
    ensures op.signedPayload.Some?
  {
  }

  /** Confirmed on the chain and not yet settled: noted as confirmed, nothing sent. */
  lemma ConfirmedIsNoted(p: Policy, h: History, w: Worker, a: Turn, b: Turn)
    requires ForeignKeys(h.db) && w.Deciding? && w.observation.status == Confirming && w.observation.finalizedHeight <= w.op.lastValidBlockHeight
    requires w.lease.operation < |h.db.operations| && Sendable(h.db.operations[w.lease.operation])
    requires Current(h.db, w.lease, b.now) && !b.oracle.lost
    ensures var o := w.lease.operation; var r := Alone(p, h, w, [a, b]);
            && r.events == [] && r.worker == Resting(w.lease)
            && |r.history.db.operations| == |h.db.operations| && r.history.db.operations[o] == h.db.operations[o].(status := Confirmed)
  {
    hide ForeignKeys, Does, Alone, Current, Sendable;
    DecidesToNote(p, h, w, a);
    Notes(p, h, Noting(w.lease, Confirmed), b);
    AloneTwo(p, h, w, a, b);
  }

  lemma DecidesToNote(p: Policy, h: History, w: Worker, t: Turn)
    requires ForeignKeys(h.db) && w.Deciding? && w.observation.status == Confirming && w.observation.finalizedHeight <= w.op.lastValidBlockHeight
    ensures Does(p, h, w, t.oracle, t.now) == Did(h, Noting(w.lease, Confirmed), [])
  {
    hide ForeignKeys, VerifySettlement, Settle;
  }

  /** Final without a receipt, or not final although its last valid height has passed. */
  predicate Hopeless(op: Operation, o: ChainObservation) {
    if o.status == Final then o.receipt == None else o.finalizedHeight > op.lastValidBlockHeight
  }

  /** Such an operation is parked for review with its attempt and job, and nothing is sent. */
  lemma HopelessIsReviewed(p: Policy, h: History, w: Worker, a: Turn, b: Turn)
    requires ForeignKeys(h.db) && w.Deciding? && Hopeless(w.op, w.observation)
    requires w.lease.operation < |h.db.operations| && Current(h.db, w.lease, b.now) && !b.oracle.lost
    ensures Parked(h.db, Alone(p, h, w, [a, b]), w.lease.operation)
  {
    hide ForeignKeys, Does, Alone, Current;
    DecidesToReview(p, h, w, a);
    Reviews(p, h, Reviewing(w.lease), b);
    AloneTwo(p, h, w, a, b);
  }

  ghost predicate Parked(db: Db, d: Did, o: Id)
    requires o < |db.operations|
  {
    var op := db.operations[o];
    && d.events == [] && d.worker == Gone && o !in d.history.db.jobs
    && d.history.db.operations == db.operations[o := op.(status := Status.ManualReview)]
    && op.attempt < |db.attempts|
    && d.history.db.attempts == db.attempts[op.attempt := db.attempts[op.attempt].(status := Status.ManualReview)]
  }

  lemma DecidesToReview(p: Policy, h: History, w: Worker, t: Turn)
    requires ForeignKeys(h.db) && w.Deciding? && Hopeless(w.op, w.observation)
    ensures Does(p, h, w, t.oracle, t.now) == Did(h, Reviewing(w.lease), [])
  {
    hide ForeignKeys, VerifySettlement, Settle;
  }

  lemma Reviews(p: Policy, h: History, w: Worker, t: Turn)
    requires ForeignKeys(h.db) && (w.Reviewing? || (w.Failing? && w.review)) && !t.oracle.lost
    requires w.lease.operation < |h.db.operations| && Current(h.db, w.lease, t.now)
    ensures Parked(h.db, Does(p, h, w, t.oracle, t.now), w.lease.operation)
  {
    hide ManualReviewTx;
    ReviewExactly(h.db, w.lease, t.now);
  }

  /** A row already confirmed or under review whose transaction is not seen is left alone: nothing is sent or noted. */
  lemma WithheldRests(p: Policy, h: History, w: Worker, t: Turn)
    requires ForeignKeys(h.db) && w.Deciding? && Unseen(w.op, w.observation) && w.op.status in {Status.ManualReview, Confirmed}
    ensures Does(p, h, w, t.oracle, t.now) == Did(h, Resting(w.lease), [])
  {
    hide ForeignKeys, VerifySettlement, Settle;
  }

  /** Final with a receipt: accepted evidence settles at once, refused evidence goes to review; nothing is sent either way. */
  lemma FinalIsJudged(p: Policy, h: History, w: Worker, t: Turn)
    requires ForeignKeys(h.db) && w.Deciding? && w.observation.status == Final && w.observation.receipt != None
    ensures var v := VerifySettlement(p, w.facts, w.observation, w.bytes); var d := Does(p, h, w, t.oracle, t.now);
            && d.events == []
            && (v == None ==> d == Did(h, Failing(w.lease, true), []))
            && (v != None && Settle(h.db, w.lease, v.value, t.now).Commit? && !t.oracle.lost ==>
                  d.worker == Gone && d.history.db == Settle(h.db, w.lease, v.value, t.now).db)
            && (v != None && Settle(h.db, w.lease, v.value, t.now).Abort? ==>
                  d == Did(h, Failing(w.lease, Settle(h.db, w.lease, v.value, t.now).code in {Code.QuoteExpired, PolicyChanged, EvidenceInvalid}), []))
  {
    hide ForeignKeys, VerifySettlement, Settle;
  }

  // -------------------------------------------------------------------------- signing

  /** A row in status signing is co-signed once for its own message; what is stored is what will be sent. */
  lemma SigningPersists(p: Policy, h: History, w: Worker, input: SignedInput, a: Turn, b: Turn)
    requires ForeignKeys(h.db) && w.Ready? && w.op.status == Signing && a.oracle.signed == Some(input) && !b.oracle.lost
    requires input.messageHash == w.op.messageHash && w.lease.operation < |h.db.operations| && Current(h.db, w.lease, b.now)
    requires var op := h.db.operations[w.lease.operation]; op.status == Signing && op.messageHash == input.messageHash
    requires forall o :: 0 <= o < |h.db.operations| && o != w.lease.operation ==> h.db.operations[o].signature != Some(input.signature)
    ensures var o := w.lease.operation; var r := Alone(p, h, w, [a, b]);
            && r.events == [Persisted(o, input.bytes)]
            && |r.history.db.operations| == |h.db.operations|
            && var op := r.history.db.operations[o];
               && op.status == Signed && op.signature == Some(input.signature) && op.signedPayload == Some(Sealed(o, SignedPurpose, input.bytes))
               && r.worker == Opening(w.lease, op, w.facts)
  {
    hide ForeignKeys, Does, Alone, Current;
    SignsNow(p, h, w, input, a);
    Persists(p, h, Persisting(w.lease, w.op, w.facts, input), b);
    AloneTwo(p, h, w, a, b);
  }

  lemma SignsNow(p: Policy, h: History, w: Worker, input: SignedInput, t: Turn)
    requires ForeignKeys(h.db) && w.Ready? && w.op.status == Signing && t.oracle.signed == Some(input)
    ensures Does(p, h, w, t.oracle, t.now)
         == Did(h, if input.messageHash == w.op.messageHash then Persisting(w.lease, w.op, w.facts, input) else Failing(w.lease, true), [])
  {
    hide ForeignKeys;
  }

  lemma Persists(p: Policy, h: History, w: Worker, t: Turn)
    requires ForeignKeys(h.db) && w.Persisting? && !t.oracle.lost && w.lease.operation < |h.db.operations| && Current(h.db, w.lease, t.now)
    requires var op := h.db.operations[w.lease.operation]; op.status == Signing && op.messageHash == w.input.messageHash
    requires forall o :: 0 <= o < |h.db.operations| && o != w.lease.operation ==> h.db.operations[o].signature != Some(w.input.signature)
    ensures var o := w.lease.operation; var r := Does(p, h, w, t.oracle, t.now);
            && r.events == [Persisted(o, w.input.bytes)]
            && |r.history.db.operations| == |h.db.operations|
            && var op := r.history.db.operations[o];
               && op.status == Signed && op.signature == Some(w.input.signature) && op.signedPayload == Some(Sealed(o, SignedPurpose, w.input.bytes))
               && r.worker == Opening(w.lease, op, w.facts)
  {
    hide SignatureTaken;
    PersistExactly(h.db, w.lease, w.input, t.now);
  }

  /** A row signed earlier is not signed again: its payload is opened, and observed only if it passes every check. */
  lemma SignedIsOpened(p: Policy, h: History, w: Worker, a: Turn, b: Turn)
    requires ForeignKeys(h.db) && w.Ready? && w.op.status != Signing && w.op.signature != None && w.op.signedPayload != None
    ensures var sealed := w.op.signedPayload.value; var r := Alone(p, h, w, [a, b]);
            && r.history == h && r.events == []
            && r.worker == if sealed.operation == w.lease.operation && sealed.purpose == SignedPurpose && PayloadChecks(p, w.op, w.facts, sealed.bytes)
                           then Observing(w.lease, w.op, w.facts, sealed.bytes) else Failing(w.lease, true)
  {
    hide ForeignKeys, Alone, PayloadChecks;
    AloneTwo(p, h, w, a, b);
  }

  // ----------------------------------------------------- from the claim to the verdict

  /** What the opened payload must be, in terms of the stored rows. */
  lemma PayloadExactly(p: Policy, db: Db, o: Id, bytes: seq<Byte>)
    requires ForeignKeys(db) && o < |db.operations|
    ensures var op := db.operations[o]; var a := db.attempts[op.attempt];
            var q, sponsor := db.quotes[a.quote].payload, db.campaigns[a.campaign].sponsor;
            PayloadChecks(p, op, CaseOf(db, o), bytes)
            <==> && p.decode(bytes) != None && OpensTo(p.decode(bytes).value, op, sponsor) && op.messageHash == Sha256(op.message)
                 && match op.kind
                    case Registration => q.message == op.message && q.messageSha256 == op.messageHash && Accepts(p, op.message, RegistrationOf(q))
                    case Recovery => RecoveryMessage(p, sponsor, a.payer, op.amount, op.blockhash) == Some(op.message)
  {
    hide Accepts, RecoveryMessage;
  }

  /** Fully signed, paid for by the sponsor, over the stored message. */
  predicate OpensTo(tx: SignedTransaction, op: Operation, sponsor: Key) {
    tx.verified && tx.keys != [] && tx.keys[0] == sponsor && tx.message == op.message
  }

  function RegistrationOf(q: SponsoredQuote): Input {
    Input(q.name, q.sponsor, q.attemptPayer, q.user, q.feeReceiver, q.cost.registrationPrice, q.cost.domainRent, q.cost.primaryRent, q.blockhash)
  }

  /** A granted claim leads to the job's own rows. */
  lemma ClaimsRead(p: Policy, h: History, owner: nat, a: Turn, b: Turn, c: Turn, l: Lease)
    requires ForeignKeys(h.db) && !a.oracle.lost && !b.oracle.lost && !c.oracle.lost
    requires var t := ClaimJob(h.db, owner, a.oracle.operation, a.oracle.sponsor, a.now); t.Commit? && t.value == Some(l)
    ensures var db := ClaimJob(h.db, owner, a.oracle.operation, a.oracle.sponsor, a.now).db;
            ForeignKeys(db) && l.operation < |db.operations|
            && Alone(p, h, Fresh(owner), [a, b, c]) == Did(h.(db := db), Ready(l, db.operations[l.operation], CaseOf(db, l.operation)), [])
  {
    hide Alone, CaseOf;
    var turns := [a, b, c];
    assert turns[1..] == [b, c];
    AloneFirst(p, h, Fresh(owner), turns);
    var d := Does(p, h, Fresh(owner), a.oracle, a.now);
    AloneTwo(p, d.history, d.worker, b, c);
  }

  /** A payload that passed is judged by what the chain says next; without an answer the pass fails. */
  lemma Observes(p: Policy, h: History, w: Worker, t: Turn)
    requires ForeignKeys(h.db) && w.Observing?
    ensures Does(p, h, w, t.oracle, t.now)
         == Did(h, if t.oracle.observation == None then Failing(w.lease, t.oracle.review)
                   else Deciding(w.lease, w.op, w.facts, w.bytes, t.oracle.observation.value), [])
  {
    hide ForeignKeys;
  }

  /** A submission that cannot be noted is noted as of unknown fate instead; any other failed note ends the pass. */
  lemma UnnotedIsUnknown(p: Policy, h: History, w: Worker, t: Turn)
    requires ForeignKeys(h.db) && w.Noting? && NoteState(w.state) && (t.oracle.lost || Note(h.db, w.lease, w.state, t.now).Abort?)
    ensures var d := Does(p, h, w, t.oracle, t.now);
            d.events == [] && d.worker == if w.state == Submitted then Noting(w.lease, BroadcastUnknown) else Failing(w.lease, false)
  {
    hide ForeignKeys, Note;
  }

  // --------------------------------------------------------------------------- delays

  /** The pause after an undecided pass doubles with each retry, from two seconds to thirty. */
  lemma RestDelays(l: Lease)
    ensures RestDelay(l) == if l.retries == 0 then 1_000 else if l.retries == 1 then 2_000 else if l.retries == 2 then 4_000
                            else if l.retries == 3 then 8_000 else if l.retries == 4 then 16_000 else 30_000
  {
    assert Power(1) == 2 && Power(2) == 4 && Power(3) == 8 && Power(4) == 16 && Power(5) == 32;
  }

  /** A worker that rests or fails gives its lease back, to be taken up again after that pause. */
  lemma Rests(p: Policy, h: History, w: Worker, t: Turn)
    requires ForeignKeys(h.db) && (w.Resting? || (w.Failing? && !w.review)) && w.lease.retries >= 0
    requires Current(h.db, w.lease, t.now)
    ensures var d := Does(p, h, w, t.oracle, t.now); var j := h.db.jobs[w.lease.operation];
            var delay := if w.Resting? then RestDelay(w.lease) else if 3_000 * w.lease.retries < 60_000 then 3_000 * w.lease.retries else 60_000;
            && d.events == [] && d.history.filed == h.filed
            && d.history.db == h.db.(jobs := h.db.jobs[w.lease.operation := Job(j.id, t.now + delay, None, j.retries)])
  {
    RestDelays(w.lease);
    RescheduleExactly(h.db, w.lease, if w.Resting? then RestDelay(w.lease) else FailDelay(w.lease), t.now);
  }

  // ------------------------------------------------------ why a row is confirmed, over runs

  /** At this move the worker was judging an observation that said confirmed. */
  ghost predicate SawConfirmed(p: Policy, moves: seq<TimedMove>, j: int, l: Lease) {
    0 <= j < |moves| && moves[j].move.Work?
    && var s, k := Operate(p, moves[..j]), moves[j].move.worker;
       k < |s.workers| && s.workers[k].Deciding? && s.workers[k].lease == l && s.workers[k].observation.status == Confirming
  }

  lemma NotesFrom(p: Policy, h: History, w: Worker, x: Oracle, now: int, l: Lease)
    requires ForeignKeys(h.db) && Does(p, h, w, x, now).worker == Noting(l, Confirmed)
    ensures w.Deciding? && w.lease == l && w.observation.status == Confirming
  {
    hide ForeignKeys, ClaimJob, PersistSigned, Settle, Note, ManualReviewTx, ExecutionTx.Reschedule, PayloadChecks, VerifySettlement,
         BroadcastPayload;
  }

  lemma SawEarlier(p: Policy, moves: seq<TimedMove>, j: int, l: Lease)
    requires moves != [] && SawConfirmed(p, moves[..|moves| - 1], j, l)
    ensures SawConfirmed(p, moves, j, l)
  {
    hide Operate;
    var init := moves[..|moves| - 1];
    assert init[..j] == moves[..j] && init[j] == moves[j];
  }

  /** Whoever is about to note a confirmation has seen one. */
  lemma {:induction false} NotingWasSeen(p: Policy, moves: seq<TimedMove>, k: nat, l: Lease)
    requires k < |Operate(p, moves).workers| && Operate(p, moves).workers[k] == Noting(l, Confirmed)
    ensures exists j :: SawConfirmed(p, moves, j, l)
  {
    hide ForeignKeys, Does, Perform, SawConfirmed;
    if moves != [] {
      var n := |moves| - 1;
      var init, last := moves[..n], moves[n];
      var before := Operate(p, init);
      if k < |before.workers| && before.workers[k] == Noting(l, Confirmed) {
        NotingWasSeen(p, init, k, l);
        var j :| SawConfirmed(p, init, j, l);
        SawEarlier(p, moves, j, l);
      } else {
        assert last.move.Work? && last.move.worker == k;
        NotesFrom(p, before.history, before.workers[k], last.move.oracle, last.now, l);
        SawNow(p, moves, l);
      }
    }
  }

  lemma SawNow(p: Policy, moves: seq<TimedMove>, l: Lease)
    requires moves != [] && moves[|moves| - 1].move.Work?
    requires var s, k := Operate(p, moves[..|moves| - 1]), moves[|moves| - 1].move.worker;
             k < |s.workers| && s.workers[k].Deciding? && s.workers[k].lease == l && s.workers[k].observation.status == Confirming
    ensures SawConfirmed(p, moves, |moves| - 1, l)
  {
    hide Operate;
  }

  /** Only noting makes a row confirmed. */
  lemma ConfirmsOnly(p: Policy, db: Db, s: Step, now: int, o: Id)
    requires ForeignKeys(db) && o < |Apply(p, db, s, now).operations| && Apply(p, db, s, now).operations[o].status == Confirmed
    ensures o < |db.operations|
    ensures db.operations[o].status == Confirmed || (s.DoNote? && s.noted == Confirmed && s.lease.operation == o)
  {
    hide ForeignKeys, Apply;
    if CampaignStep(s) {
      CampaignStepOperations(p, db, s, now);
    } else if LeasedStep(s) {
      LeasedConfirms(p, db, s, now, o);
    } else {
      OtherConfirms(p, db, s, now, o);
    }
  }

  lemma LeasedConfirms(p: Policy, db: Db, s: Step, now: int, o: Id)
    requires ForeignKeys(db) && LeasedStep(s) && o < |Apply(p, db, s, now).operations| && Apply(p, db, s, now).operations[o].status == Confirmed
    ensures o < |db.operations|
    ensures db.operations[o].status == Confirmed || (s.DoNote? && s.noted == Confirmed && s.lease.operation == o)
  {
    hide ForeignKeys, PersistSigned, Note, ExecutionTx.Reschedule, ManualReviewTx, Settle;
    if s.DoPersistSigned? || s.DoReschedule? || s.DoManualReview? {
      RowStepConfirms(p, db, s, now, o);
    } else if s.DoNote? {
      NoteConfirms(p, db, s, now, o);
    } else {
      SettleConfirms(p, db, s, now, o);
    }
  }

  lemma RowStepConfirms(p: Policy, db: Db, s: Step, now: int, o: Id)
    requires ForeignKeys(db) && (s.DoPersistSigned? || s.DoReschedule? || s.DoManualReview?)
    requires o < |Apply(p, db, s, now).operations| && Apply(p, db, s, now).operations[o].status == Confirmed
    ensures o < |db.operations| && db.operations[o].status == Confirmed
  {
    hide SignatureTaken;
  }

  lemma NoteConfirms(p: Policy, db: Db, s: Step, now: int, o: Id)
    requires ForeignKeys(db) && s.DoNote? && o < |Apply(p, db, s, now).operations| && Apply(p, db, s, now).operations[o].status == Confirmed
    ensures o < |db.operations|
    ensures db.operations[o].status == Confirmed || (s.noted == Confirmed && s.lease.operation == o)
  {
  }

  lemma SettleConfirms(p: Policy, db: Db, s: Step, now: int, o: Id)
    requires ForeignKeys(db) && s.DoSettle? && o < |Apply(p, db, s, now).operations| && Apply(p, db, s, now).operations[o].status == Confirmed
    ensures o < |db.operations| && db.operations[o].status == Confirmed
  {
    hide EvidenceFits, SettledAttempt, SettledCampaign, SettledInvite, SettlementEntries;
  }

  lemma OtherConfirms(p: Policy, db: Db, s: Step, now: int, o: Id)
    requires ForeignKeys(db) && !CampaignStep(s) && !LeasedStep(s)
    requires o < |Apply(p, db, s, now).operations| && Apply(p, db, s, now).operations[o].status == Confirmed
    ensures o < |db.operations| && db.operations[o].status == Confirmed
  {
    hide RetryJobs, FindRegistration, FindActiveRecovery, FindSession;
  }

  /** The act behind a move, and what it can confirm. */
  lemma MoveConfirms(p: Policy, s: System, m: Move, now: int, o: Id)
    requires SystemOk(p, s) && ForeignKeys(s.history.db)
    requires o < |Evolve(p, s, m, now).history.db.operations| && Evolve(p, s, m, now).history.db.operations[o].status == Confirmed
    ensures o < |s.history.db.operations|
    ensures s.history.db.operations[o].status == Confirmed
            || (m.Work? && m.worker < |s.workers| && exists l: Lease :: l.operation == o && s.workers[m.worker] == Noting(l, Confirmed))
  {
    hide SystemOk, ForeignKeys, Evolve, Apply, Commits, Presented, Settle;
    MoveRefines(p, s, m, now);
    var act := MoveAct(s, m);
    if act.Some? {
      match act.value {
        case Other(step) =>
          if !step.DoSettle? {
            ConfirmsOnly(p, s.history.db, step, now, o);
            if step.DoNote? && s.history.db.operations[o].status != Confirmed {
              NoteOfNoting(s, m, step);
            }
          }
        case Present(l, obs, signed) =>
          if Commits(p, s.history.db, act.value, now) { PresentConfirms(p, s.history.db, act.value, now, o); }
      }
    }
  }

  lemma NoteOfNoting(s: System, m: Move, step: Step)
    requires MoveAct(s, m) == Some(Other(step)) && step.DoNote?
    ensures m.Work? && m.worker < |s.workers| && s.workers[m.worker] == Noting(step.lease, step.noted)
  {
  }

  lemma PresentConfirms(p: Policy, db: Db, act: Act, now: int, o: Id)
    requires ForeignKeys(db) && act.Present? && Commits(p, db, act, now)
    requires var t := Settle(db, act.lease, Presented(p, db, act).value, now);
             t.Commit? ==> o < |t.db.operations| && t.db.operations[o].status == Confirmed
    ensures o < |db.operations| && db.operations[o].status == Confirmed
  {
    hide EvidenceFits, SettledAttempt, SettledCampaign, SettledInvite, SettlementEntries, VerifySettlement, Holds;
  }

  /**
   * Along every run of any number of workers: a row is confirmed only after some worker,
   * holding a lease on that operation, judged an observation that said confirmed.
   */
  lemma {:induction false} ConfirmedWasSeen(p: Policy, moves: seq<TimedMove>, o: Id)
    requires o < |Operate(p, moves).history.db.operations| && Operate(p, moves).history.db.operations[o].status == Confirmed
    ensures exists j, l: Lease :: l.operation == o && SawConfirmed(p, moves, j, l)
  {
    hide SystemOk, ForeignKeys, Evolve, SawConfirmed;
    if moves != [] {
      var n := |moves| - 1;
      var init, last := moves[..n], moves[n];
      var before := Operate(p, init);
      OperateOk(p, init);
      MoveConfirms(p, before, last.move, last.now, o);
      if before.history.db.operations[o].status == Confirmed {
        ConfirmedWasSeen(p, init, o);
        var j, l: Lease :| l.operation == o && SawConfirmed(p, init, j, l);
        SawEarlier(p, moves, j, l);
      } else {
        var l: Lease :| l.operation == o && before.workers[last.move.worker] == Noting(l, Confirmed);
        NotingWasSeen(p, init, last.move.worker, l);
        var j :| SawConfirmed(p, init, j, l);
        SawEarlier(p, moves, j, l);
      }
    }
  }
}
