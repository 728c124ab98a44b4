/**
 * Safety of the worker protocol over every run: at most one signed payload per operation,
 * every send after its commit and with exactly its bytes, and every table change one of
 * the verified acts.
 */
module WorkerSafety {
  import opened Basics
  import opened Registry
  import opened SponsoredMessage
  import opened Database
  import opened Invariant
  import opened ExecutionTx
  import opened Steps
  import opened Evolution
  import opened Pins
  import opened Reachable
  import opened Custody
  import opened Receipts
  import opened VerifiedRuns
  import opened CostLaw
  import opened Signing
  import opened Workers

  // -------------------------------------------------------------------- invariant

  /** A payload in a row is sealed for that row and its commit is in the log. */
  predicate Logged(op: Operation, o: Id, log: seq<Event>) {
    op.signedPayload.Some? ==>
      var s := op.signedPayload.value;
      s.operation == o && s.purpose == SignedPurpose && Persisted(o, s.bytes) in log
  }

  ghost predicate AllLogged(ops: seq<Operation>, log: seq<Event>) {
    forall o :: 0 <= o < |ops| ==> Logged(ops[o], o, log)
  }

  /** Whoever is in the log as persisted carries a signature now. */
  ghost predicate LogKnown(ops: seq<Operation>, log: seq<Event>) {
    forall k :: 0 <= k < |log| ==> log[k].operation < |ops| && (log[k].Persisted? ==> ops[log[k].operation].signature.Some?)
  }

  ghost predicate PersistedOnce(log: seq<Event>) {
    forall j, k :: 0 <= j < k < |log| && log[j].Persisted? && log[k].Persisted? ==> log[j].operation != log[k].operation
  }

  ghost predicate SentAfterCommit(log: seq<Event>) {
    forall k :: 0 <= k < |log| && log[k].Sent? ==> Persisted(log[k].operation, log[k].bytes) in log[..k]
  }

  /** The bytes are a fully signed transaction over exactly this message. */
  predicate Vetted(p: Policy, message: seq<Byte>, bytes: seq<Byte>) {
    var tx := p.decode(bytes);
    tx.Some? && tx.value.verified && tx.value.message == message
  }

  ghost predicate SentVetted(p: Policy, ops: seq<Operation>, log: seq<Event>) {
    forall k :: 0 <= k < |log| && log[k].Sent? ==>
      log[k].operation < |ops| && Vetted(p, ops[log[k].operation].message, log[k].bytes)
  }

  /** A row as read some time ago: it can only have moved on since. */
  predicate ReadOk(ops: seq<Operation>, log: seq<Event>, l: Lease, op: Operation) {
    l.operation < |ops| && SameOperation(op, ops[l.operation]) && Logged(op, l.operation, log)
  }

  predicate FactsOk(db: Db, log: seq<Event>, l: Lease, op: Operation, facts: Case)
    requires ForeignKeys(db)
  {
    ReadOk(db.operations, log, l, op) && facts == CaseOf(db, l.operation)
  }

  predicate BytesOk(p: Policy, ops: seq<Operation>, log: seq<Event>, l: Lease, bytes: seq<Byte>) {
    l.operation < |ops| && Persisted(l.operation, bytes) in log && Vetted(p, ops[l.operation].message, bytes)
  }

  predicate WorkerOk(p: Policy, db: Db, log: seq<Event>, w: Worker)
    requires ForeignKeys(db)
  {
    match w
    case Reading(l, op) => ReadOk(db.operations, log, l, op)
    case Ready(l, op, facts) => FactsOk(db, log, l, op, facts)
    case Persisting(l, op, facts, input) => FactsOk(db, log, l, op, facts)
    case Opening(l, op, facts) => FactsOk(db, log, l, op, facts)
    case Observing(l, op, facts, bytes) => FactsOk(db, log, l, op, facts) && BytesOk(p, db.operations, log, l, bytes)
    case Deciding(l, op, facts, bytes, _) => FactsOk(db, log, l, op, facts) && BytesOk(p, db.operations, log, l, bytes)
    case Releasing(l, bytes) => BytesOk(p, db.operations, log, l, bytes)
    case Sending(l, bytes, released) =>
      BytesOk(p, db.operations, log, l, bytes) && ReadOk(db.operations, log, l, released) && released.signedPayload.Some?
    case _ => true
  }

  ghost predicate WorkersOk(p: Policy, db: Db, log: seq<Event>, workers: seq<Worker>)
    requires ForeignKeys(db)
  {
    forall k :: 0 <= k < |workers| ==> WorkerOk(p, db, log, workers[k])
  }

  ghost predicate LogOk(p: Policy, ops: seq<Operation>, log: seq<Event>) {
    AllLogged(ops, log) && LogKnown(ops, log) && PersistedOnce(log) && SentAfterCommit(log) && SentVetted(p, ops, log)
  }

  ghost predicate SystemOk(p: Policy, s: System) {
    && Good(p, s.history.db) && ForeignKeys(s.history.db) && LogOk(p, s.history.db.operations, s.log)
    && WorkersOk(p, s.history.db, s.log, s.workers)
  }

  // ----------------------------------------------------------------------- frames

  /** An operation's facts never change, however stale the copy. */
  lemma CaseStays(db: Db, db': Db, o: Id)
    requires ForeignKeys(db) && ForeignKeys(db') && Evolves(db, db') && o < |db.operations|
    ensures CaseOf(db', o) == CaseOf(db, o)
  {
    var a := db.operations[o].attempt;
    assert SameOperation(db.operations[o], db'.operations[o]) && SameAttempt(db.attempts[a], db'.attempts[a]);
    assert SameQuote(db.quotes[db.attempts[a].quote], db'.quotes[db.attempts[a].quote]);
    assert SameCampaign(db.campaigns[db.attempts[a].campaign], db'.campaigns[db.attempts[a].campaign]);
  }

  lemma SameOperationTransitive(a: Operation, b: Operation, c: Operation)
    requires SameOperation(a, b) && SameOperation(b, c)
    ensures SameOperation(a, c)
  {
  }

  lemma ReadStays(ops: seq<Operation>, ops': seq<Operation>, log: seq<Event>, log': seq<Event>, l: Lease, op: Operation)
    requires ReadOk(ops, log, l, op) && OperationsEvolve(ops, ops') && log <= log'
    ensures ReadOk(ops', log', l, op)
  {
    hide SameOperation;
    SameOperationTransitive(op, ops[l.operation], ops'[l.operation]);
    StillIn(log, log');
  }

  lemma StillIn(log: seq<Event>, log': seq<Event>)
    requires log <= log'
    ensures forall e: Event :: e in log ==> e in log'
  {
    forall e: Event | e in log ensures e in log' {
      var k :| 0 <= k < |log| && log[k] == e;
      assert log'[k] == e;
    }
  }

  lemma BytesStay(p: Policy, ops: seq<Operation>, ops': seq<Operation>, log: seq<Event>, log': seq<Event>, l: Lease, bytes: seq<Byte>)
    requires BytesOk(p, ops, log, l, bytes) && OperationsEvolve(ops, ops') && log <= log'
    ensures BytesOk(p, ops', log', l, bytes)
  {
    assert SameOperation(ops[l.operation], ops'[l.operation]);
    StillIn(log, log');
  }

  lemma WorkerStays(p: Policy, db: Db, db': Db, log: seq<Event>, log': seq<Event>, w: Worker)
    requires ForeignKeys(db) && ForeignKeys(db') && Evolves(db, db') && log <= log' && WorkerOk(p, db, log, w)
    ensures WorkerOk(p, db', log', w)
  {
    hide ForeignKeys, ReadOk, BytesOk, CaseOf, CampaignsEvolve, InvitesEvolve, SessionsEvolve, QuotesEvolve, AttemptsEvolve, KeysMove;
    if w.Reading? || w.Ready? || w.Persisting? || w.Opening? || w.Observing? || w.Deciding? {
      ReadStays(db.operations, db'.operations, log, log', w.lease, w.op);
      ReadBound(db.operations, log, w.lease, w.op);
      CaseStays(db, db', w.lease.operation);
    }
    if w.Observing? || w.Deciding? || w.Releasing? || w.Sending? {
      BytesStay(p, db.operations, db'.operations, log, log', w.lease, w.bytes);
    }
    if w.Sending? {
      ReadStays(db.operations, db'.operations, log, log', w.lease, w.released);
    }
  }

  lemma ReadBound(ops: seq<Operation>, log: seq<Event>, l: Lease, op: Operation)
    requires ReadOk(ops, log, l, op)
    ensures l.operation < |ops|
  {
  }

  lemma OthersStay(p: Policy, db: Db, db': Db, log: seq<Event>, log': seq<Event>, workers: seq<Worker>, k: nat, w': Worker)
    requires ForeignKeys(db) && ForeignKeys(db') && Evolves(db, db') && log <= log' && WorkersOk(p, db, log, workers)
    requires k < |workers| && WorkerOk(p, db', log', w')
    ensures WorkersOk(p, db', log', workers[k := w'])
  {
    hide ForeignKeys, Evolves, WorkerOk;
    var ws := workers[k := w'];
    forall j | 0 <= j < |ws| ensures WorkerOk(p, db', log', ws[j]) {
      if j != k { WorkerStays(p, db, db', log, log', workers[j]); }
    }
  }

  /** Tables move on without signing anything; the log does not change. */
  lemma LogFrame(p: Policy, ops: seq<Operation>, ops': seq<Operation>, log: seq<Event>)
    requires LogOk(p, ops, log) && OperationsEvolve(ops, ops') && NoneSigns(ops, ops')
    ensures LogOk(p, ops', log)
  {
    hide SameOperation;
    forall o | 0 <= o < |ops'| ensures Logged(ops'[o], o, log) {
      if o < |ops| { assert Logged(ops[o], o, log); }
    }
    forall k | 0 <= k < |log|
      ensures log[k].operation < |ops'| && (log[k].Persisted? ==> ops'[log[k].operation].signature.Some?)
      ensures log[k].Sent? ==> Vetted(p, ops'[log[k].operation].message, log[k].bytes)
    {
      StillSigned(ops[log[k].operation], ops'[log[k].operation]);
    }
  }

  lemma StillSigned(op: Operation, op': Operation)
    requires SameOperation(op, op')
    ensures (op.signature.Some? ==> op'.signature.Some?) && op'.message == op.message
  {
  }

  // ------------------------------------------------------------------ persisting

  /** The commit of a payload: the row was unsigned, so this is its first and only one. */
  lemma PersistLog(p: Policy, ops: seq<Operation>, o: Id, op': Operation, log: seq<Event>, bytes: seq<Byte>, signature: string)
    requires LogOk(p, ops, log) && o < |ops| && ops[o].signature.None?
    requires op' == ops[o].(status := Signed, signedPayload := Some(Sealed(o, SignedPurpose, bytes)), signature := Some(signature), userPayload := None)
    ensures LogOk(p, ops[o := op'], log + [Persisted(o, bytes)])
  {
    var ops', log' := ops[o := op'], log + [Persisted(o, bytes)];
    StillIn(log, log');
    forall q | 0 <= q < |ops'| ensures Logged(ops'[q], q, log') {
      if q == o {
        assert log'[|log|] == Persisted(o, bytes);
      } else {
        assert Logged(ops[q], q, log);
      }
    }
    forall k | 0 <= k < |log'| && log'[k].Sent? ensures Persisted(log'[k].operation, log'[k].bytes) in log'[..k] {
      assert log'[..k] == log[..k];
    }
  }

  lemma PersistShape(db: Db, l: Lease, input: SignedInput, now: int)
    requires ForeignKeys(db) && Lifecycle(db) && PersistSigned(db, l, input, now).Commit?
    ensures var t := PersistSigned(db, l, input, now);
            && l.operation < |db.operations| && db.operations[l.operation].signature.None?
            && t.value == db.operations[l.operation].(status := Signed, signedPayload := Some(Sealed(l.operation, SignedPurpose, input.bytes)),
                            signature := Some(input.signature), userPayload := None)
            && t.db.operations == db.operations[l.operation := t.value]
  {
    hide Holds, SignatureTaken, AttemptsOk, AllFit, OneRegistration, OneOpenRecovery, Invariant.Registered;
    assert OperationOk(db.operations[l.operation]);
  }

  // ------------------------------------------------------------------ worker steps

  /** What a worker step owes: good, evolved tables, a sound longer log, and a sound next state. */
  ghost predicate StepOk(p: Policy, s: System, did: Did) {
    var db, db' := s.history.db, did.history.db;
    && Good(p, db') && ForeignKeys(db') && Evolves(db, db')
    && LogOk(p, db'.operations, s.log + did.events) && WorkerOk(p, db', s.log + did.events, did.worker)
  }

  lemma StillOk(p: Policy, s: System, w: Worker)
    requires SystemOk(p, s) && WorkerOk(p, s.history.db, s.log, w)
    ensures StepOk(p, s, Still(s.history, w))
  {
    hide Good, ForeignKeys, WorkerOk, LogOk;
    EvolvesReflexive(s.history.db);
    assert s.log + [] == s.log;
  }

  /** A transaction that signs nothing, followed by a state that remembers no row. */
  lemma QuietOk(p: Policy, s: System, db': Db, filed: seq<Filed>, w: Worker)
    requires SystemOk(p, s) && Advances(p, s.history.db, db') && NoneSigns(s.history.db.operations, db'.operations)
    requires ForeignKeys(db') ==> WorkerOk(p, db', s.log, w)
    ensures StepOk(p, s, Did(History(db', filed), w, []))
  {
    hide Inv, Pinned, ForeignKeys, WorkerOk, LogOk, NoneSigns;
    KeysOf(db');
    LogFrame(p, s.history.db.operations, db'.operations, s.log);
    assert s.log + [] == s.log;
  }

  /** States that carry no row they have read. */
  predicate Blank(w: Worker) {
    w.Gone? || w.Fresh? || w.Claimed? || w.Noting? || w.Reviewing? || w.Resting? || w.Failing?
  }

  lemma BlankOk(p: Policy, db: Db, log: seq<Event>, w: Worker)
    requires ForeignKeys(db) && Blank(w)
    ensures WorkerOk(p, db, log, w)
  {
  }

  lemma QuietBlank(p: Policy, s: System, step: Step, now: int, db': Db, filed: seq<Filed>, w: Worker)
    requires SystemOk(p, s) && !step.DoPersistSigned? && db' == Apply(p, s.history.db, step, now) && Blank(w)
    ensures StepOk(p, s, Did(History(db', filed), w, []))
  {
    hide Good, ForeignKeys, Apply, LogOk, WorkersOk, Evolves, NoneSigns;
    StepAdvances(p, s.history.db, step, now);
    OnlyPersistSigns(p, s.history.db, step, now);
    if ForeignKeys(db') { BlankOk(p, db', s.log, w); }
    QuietOk(p, s, db', filed, w);
  }

  lemma ClaimOk(p: Policy, s: System, owner: nat, x: Oracle, now: int)
    requires SystemOk(p, s)
    ensures StepOk(p, s, Claim(s.history, owner, x, now))
  {
    hide Good, ForeignKeys, LogOk, WorkersOk, ClaimJob, StepOk;
    var did := Claim(s.history, owner, x, now);
    QuietBlank(p, s, DoClaimJob(owner, x.operation, x.sponsor), now, did.history.db, did.history.filed, did.worker);
  }

  lemma NoteOk(p: Policy, s: System, w: Worker, x: Oracle, now: int)
    requires SystemOk(p, s) && w.Noting? && NoteState(w.state)
    ensures StepOk(p, s, TakeNote(s.history, w, x, now))
  {
    hide Good, ForeignKeys, LogOk, WorkersOk, Note, StepOk;
    var did := TakeNote(s.history, w, x, now);
    QuietBlank(p, s, DoNote(w.lease, w.state), now, did.history.db, did.history.filed, did.worker);
  }

  lemma ConcludeOk(p: Policy, s: System, w: Worker, x: Oracle, now: int)
    requires SystemOk(p, s) && (w.Reviewing? || w.Resting? || w.Failing?)
    ensures StepOk(p, s, Conclude(s.history, w, x, now))
  {
    hide Good, ForeignKeys, LogOk, WorkersOk, ManualReviewTx, Reschedule, StepOk;
    var did := Conclude(s.history, w, x, now);
    if w.Reviewing? || (w.Failing? && w.review) {
      QuietBlank(p, s, DoManualReview(w.lease), now, did.history.db, did.history.filed, did.worker);
    } else {
      QuietBlank(p, s, DoReschedule(w.lease, if w.Resting? then RestDelay(w.lease) else FailDelay(w.lease)), now,
        did.history.db, did.history.filed, did.worker);
    }
  }

  lemma PersistOk(p: Policy, s: System, w: Worker, x: Oracle, now: int)
    requires SystemOk(p, s) && w.Persisting? && WorkerOk(p, s.history.db, s.log, w)
    ensures StepOk(p, s, Persist(s.history, w, x, now))
  {
    hide Good, ForeignKeys, LogOk, WorkersOk, PersistSigned, WorkerOk, Evolves, StepOk;
    var db := s.history.db;
    var t := PersistSigned(db, w.lease, w.input, now);
    if t.Abort? {
      BlankOk(p, db, s.log, Failing(w.lease, ReviewCode(t.code)));
      StillOk(p, s, Failing(w.lease, ReviewCode(t.code)));
    } else {
      PersistCommitted(p, s, w, x, now);
    }
  }

  lemma PersistCommitted(p: Policy, s: System, w: Worker, x: Oracle, now: int)
    requires SystemOk(p, s) && w.Persisting? && WorkerOk(p, s.history.db, s.log, w)
    requires PersistSigned(s.history.db, w.lease, w.input, now).Commit?
    ensures StepOk(p, s, Persist(s.history, w, x, now))
  {
    hide Inv, Pinned, ForeignKeys, LogOk, WorkersOk, PersistSigned, Evolves, SameOperation;
    var db := s.history.db;
    var t := PersistSigned(db, w.lease, w.input, now);
    var log' := s.log + [Persisted(w.lease.operation, w.input.bytes)];
    PersistAdvances(p, db, w.lease, w.input, now);
    KeysOf(t.db);
    LifecycleOf(db);
    PersistShape(db, w.lease, w.input, now);
    PersistLog(p, db.operations, w.lease.operation, t.value, s.log, w.input.bytes, w.input.signature);
    CaseStays(db, t.db, w.lease.operation);
    SameOperationReflexive(t.value);
    assert log'[|s.log|] == Persisted(w.lease.operation, w.input.bytes);
  }

  lemma LifecycleOf(db: Db)
    requires Inv(db)
    ensures Lifecycle(db)
  {
  }

  lemma SameOperationReflexive(op: Operation)
    ensures SameOperation(op, op)
  {
  }

  lemma ReadCurrent(db: Db, log: seq<Event>, l: Lease)
    requires ForeignKeys(db) && AllLogged(db.operations, log) && l.operation < |db.operations|
    ensures ReadOk(db.operations, log, l, db.operations[l.operation])
  {
    assert Logged(db.operations[l.operation], l.operation, log);
  }

  lemma OpenOk(p: Policy, s: System, w: Worker)
    requires SystemOk(p, s) && w.Opening? && WorkerOk(p, s.history.db, s.log, w)
    ensures StepOk(p, s, Still(s.history, OpenPayload(p, w)))
  {
    hide Good, ForeignKeys, LogOk, WorkersOk, StepOk, Accepts, CaseOf;
    StillOk(p, s, OpenPayload(p, w));
  }

  lemma DecideOk(p: Policy, s: System, w: Worker, x: Oracle, now: int)
    requires SystemOk(p, s) && w.Deciding? && WorkerOk(p, s.history.db, s.log, w)
    ensures StepOk(p, s, Decide(p, s.history, w, x, now))
  {
    hide Good, ForeignKeys, LogOk, WorkersOk, StepOk, VerifySettlement, Settle, CaseOf, ReadOk, BytesOk;
    var did := Decide(p, s.history, w, x, now);
    var o := w.observation;
    if o.status == Final && o.receipt.Some? {
      var v := VerifySettlement(p, w.facts, o, w.bytes);
      if v.Some? && Settle(s.history.db, w.lease, v.value, now).Commit? {
        QuietBlank(p, s, DoSettle(w.lease, v.value), now, did.history.db, did.history.filed, did.worker);
      } else {
        StillOk(p, s, did.worker);
      }
    } else {
      StillOk(p, s, did.worker);
    }
  }

  lemma ReleaseOk(p: Policy, s: System, w: Worker, x: Oracle, now: int)
    requires SystemOk(p, s) && w.Releasing? && WorkerOk(p, s.history.db, s.log, w)
    ensures StepOk(p, s, HandOut(s.history, w, x, now))
  {
    hide Good, WorkersOk, StepOk, BytesOk, Holds, ForeignKeys, ReadOk, SameOperation;
    if BroadcastPayload(s.history.db, w.lease, now).Commit? {
      ReadCurrent(s.history.db, s.log, w.lease);
    }
    StillOk(p, s, HandOut(s.history, w, x, now).worker);
  }

  /** The bytes released are the bytes checked: there is only one payload to release. */
  lemma SameBytes(log: seq<Event>, o: Id, a: seq<Byte>, b: seq<Byte>)
    requires PersistedOnce(log) && Persisted(o, a) in log && Persisted(o, b) in log
    ensures a == b
  {
    var j :| 0 <= j < |log| && log[j] == Persisted(o, a);
    var k :| 0 <= k < |log| && log[k] == Persisted(o, b);
    assert !(j < k) && !(k < j);
  }

  lemma SendLog(p: Policy, ops: seq<Operation>, log: seq<Event>, o: Id, bytes: seq<Byte>)
    requires LogOk(p, ops, log) && o < |ops| && Persisted(o, bytes) in log && Vetted(p, ops[o].message, bytes)
    ensures LogOk(p, ops, log + [Sent(o, bytes)])
  {
    hide Vetted;
    var log' := log + [Sent(o, bytes)];
    StillIn(log, log');
    forall k | 0 <= k < |log'| && log'[k].Sent? ensures Persisted(log'[k].operation, log'[k].bytes) in log'[..k] {
      assert log'[..k] == log[..k];
      if k == |log| { assert log[..k] == log; }
    }
    forall q | 0 <= q < |ops| ensures Logged(ops[q], q, log') {
      assert Logged(ops[q], q, log);
    }
  }

  lemma SendOk(p: Policy, s: System, w: Worker, x: Oracle)
    requires SystemOk(p, s) && w.Sending? && WorkerOk(p, s.history.db, s.log, w)
    ensures StepOk(p, s, Send(s.history, w, x))
  {
    hide Good, ForeignKeys, WorkersOk, AllLogged, LogKnown, SentAfterCommit, SentVetted, SameOperation, Evolves, PersistedOnce, Vetted;
    EvolvesReflexive(s.history.db);
    var sealed := w.released.signedPayload.value;
    SameBytes(s.log, w.lease.operation, w.bytes, sealed.bytes);
    SendLog(p, s.history.db.operations, s.log, w.lease.operation, sealed.bytes);
  }

  lemma LocalOk(p: Policy, s: System, w: Worker, x: Oracle, now: int)
    requires SystemOk(p, s) && WorkerOk(p, s.history.db, s.log, w)
    requires w.Gone? || w.Claimed? || w.Reading? || w.Ready? || w.Observing? || (w.Noting? && !NoteState(w.state))
    ensures StepOk(p, s, Does(p, s.history, w, x, now))
  {
    hide Good, ForeignKeys, WorkersOk, LogKnown, PersistedOnce, SentAfterCommit, SentVetted, CaseOf, ReadOk, BytesOk, StepOk, AllLogged;
    if w.Claimed? && w.lease.operation < |s.history.db.operations| {
      ReadCurrent(s.history.db, s.log, w.lease);
    }
    StillOk(p, s, Does(p, s.history, w, x, now).worker);
  }

  lemma WorkOk(p: Policy, s: System, w: Worker, x: Oracle, now: int)
    requires SystemOk(p, s) && WorkerOk(p, s.history.db, s.log, w)
    ensures StepOk(p, s, Does(p, s.history, w, x, now))
  {
    hide SystemOk, Good, ForeignKeys, WorkerOk, StepOk, Claim, Persist, OpenPayload, Decide, HandOut, Send, TakeNote, Conclude;
    match w {
      case Fresh(owner) => ClaimOk(p, s, owner, x, now);
      case Persisting(_, _, _, _) => PersistOk(p, s, w, x, now);
      case Opening(_, _, _) => OpenOk(p, s, w);
      case Deciding(_, _, _, _, _) => DecideOk(p, s, w, x, now);
      case Releasing(_, _) => ReleaseOk(p, s, w, x, now);
      case Sending(_, _, _) => SendOk(p, s, w, x);
      case Noting(_, state) =>
        if NoteState(state) { NoteOk(p, s, w, x, now); } else { LocalOk(p, s, w, x, now); }
      case Reviewing(_) => ConcludeOk(p, s, w, x, now);
      case Resting(_) => ConcludeOk(p, s, w, x, now);
      case Failing(_, _) => ConcludeOk(p, s, w, x, now);
      case _ => LocalOk(p, s, w, x, now);
    }
  }

  // ------------------------------------------------------------------------- runs

  lemma EnvironmentOk(p: Policy, s: System, step: Step, now: int)
    requires SystemOk(p, s) && Unleased(step)
    ensures SystemOk(p, s.(history := s.history.(db := Apply(p, s.history.db, step, now))))
  {
    hide Inv, Pinned, ForeignKeys, LogOk, WorkerOk, Apply, Evolves, NoneSigns;
    var db, db' := s.history.db, Apply(p, s.history.db, step, now);
    StepAdvances(p, db, step, now);
    KeysOf(db');
    OnlyPersistSigns(p, db, step, now);
    EvolvedOperations(db, db');
    LogFrame(p, db.operations, db'.operations, s.log);
    forall k | 0 <= k < |s.workers| ensures WorkerOk(p, db', s.log, s.workers[k]) {
      WorkerStays(p, db, db', s.log, s.log, s.workers[k]);
    }
  }

  lemma EvolvedOperations(db: Db, db': Db)
    requires Evolves(db, db')
    ensures OperationsEvolve(db.operations, db'.operations)
  {
  }

  lemma WorkedOk(p: Policy, s: System, k: nat, x: Oracle, now: int)
    requires SystemOk(p, s) && k < |s.workers|
    ensures SystemOk(p, Evolve(p, s, Work(k, x), now))
  {
    hide Good, ForeignKeys, LogOk, WorkerOk, Does, Evolves;
    var did := Does(p, s.history, s.workers[k], x, now);
    WorkOk(p, s, s.workers[k], x, now);
    OthersStay(p, s.history.db, did.history.db, s.log, s.log + did.events, s.workers, k, did.worker);
  }

  lemma EvolveOk(p: Policy, s: System, m: Move, now: int)
    requires SystemOk(p, s)
    ensures SystemOk(p, Evolve(p, s, m, now))
  {
    hide Good, ForeignKeys, LogOk, Does, Apply;
    match m {
      case Environment(step) =>
        if Unleased(step) { EnvironmentOk(p, s, step, now); }
      case Begin(owner) =>
      case Crash(k) =>
      case Work(k, x) =>
        if k < |s.workers| { WorkedOk(p, s, k, x, now); }
    }
  }

  const START := System(History(EMPTY, []), [], [])

  lemma DoesKeys(p: Policy, h: History, w: Worker, x: Oracle, now: int)
    requires ForeignKeys(h.db)
    ensures ForeignKeys(Does(p, h, w, x, now).history.db)
  {
    hide ForeignKeys, ClaimJob, PersistSigned, Settle, Note, ManualReviewTx, Reschedule, OpenPayload, VerifySettlement;
    match w {
      case Fresh(owner) => ClaimKeys(h.db, owner, x.operation, x.sponsor, now);
      case Persisting(l, _, _, input) => PersistKeys(h.db, l, input, now);
      case Deciding(l, _, facts, bytes, o) =>
        var v := VerifySettlement(p, facts, o, bytes);
        if v.Some? { SettleKeys(h.db, l, v.value, now); }
      case Noting(l, state) =>
        if NoteState(state) { NoteKeys(h.db, l, state, now); }
      case Reviewing(l) => ReviewKeys(h.db, l, now);
      case Resting(l) => RescheduleKeys(h.db, l, RestDelay(l), now);
      case Failing(l, _) =>
        ReviewKeys(h.db, l, now);
        RescheduleKeys(h.db, l, FailDelay(l), now);
      case _ =>
    }
  }

  lemma EvolveKeys(p: Policy, s: System, m: Move, now: int)
    requires ForeignKeys(s.history.db)
    ensures ForeignKeys(Evolve(p, s, m, now).history.db)
  {
    hide ForeignKeys, Does, Perform;
    match m {
      case Environment(step) => PerformKeys(p, s.history, Other(step), now);
      case Work(k, x) =>
        if k < |s.workers| { DoesKeys(p, s.history, s.workers[k], x, now); }
      case _ =>
    }
  }

  /** Any interleaving of workers and other callers, from empty tables and an empty log. */
  ghost function Operate(p: Policy, moves: seq<TimedMove>): (s: System)
    ensures ForeignKeys(s.history.db)
  {
    if moves == [] then START
    else
      var before, last := Operate(p, moves[..|moves| - 1]), moves[|moves| - 1];
      EvolveKeys(p, before, last.move, last.now);
      Evolve(p, before, last.move, last.now)
  }

  lemma {:induction false} OperateOk(p: Policy, moves: seq<TimedMove>)
    ensures SystemOk(p, Operate(p, moves))
  {
    hide Inv, Pinned, Evolve, WorkerOk, Logged, Vetted;
    if moves == [] {
      GoodStarts(p);
      KeysOf(EMPTY);
    } else {
      var init, last := moves[..|moves| - 1], moves[|moves| - 1];
      OperateOk(p, init);
      EvolveOk(p, Operate(p, init), last.move, last.now);
    }
  }

  predicate SentFor(e: Event, operation: Id) {
    e.Sent? && e.operation == operation
  }

  /**
   * Across any number of workers, crashes, lost acknowledgements and expired leases: an
   * operation's payload is committed at most once, whatever is sent for it was committed
   * before and is byte for byte that payload, and it is a fully signed transaction over the
   * operation's own message.
   */
  lemma OnePayloadPerOperation(p: Policy, moves: seq<TimedMove>)
    ensures var s := Operate(p, moves);
            && (forall j, k :: 0 <= j < k < |s.log| && s.log[j].Persisted? && s.log[k].Persisted? ==> s.log[j].operation != s.log[k].operation)
            && (forall k :: 0 <= k < |s.log| && s.log[k].Sent? ==>
                  Persisted(s.log[k].operation, s.log[k].bytes) in s.log[..k]
                  && s.log[k].operation < |s.history.db.operations|
                  && Vetted(p, s.history.db.operations[s.log[k].operation].message, s.log[k].bytes))
            && (forall j, k :: 0 <= j < |s.log| && 0 <= k < |s.log| && SentFor(s.log[j], s.log[k].operation) && s.log[k].Sent? ==>
                  s.log[j].bytes == s.log[k].bytes)
  {
    hide Good, ForeignKeys, WorkerOk, Vetted, Operate;
    var s := Operate(p, moves);
    OperateOk(p, moves);
    forall j, k | 0 <= j < |s.log| && 0 <= k < |s.log| && SentFor(s.log[j], s.log[k].operation) && s.log[k].Sent?
      ensures s.log[j].bytes == s.log[k].bytes
    {
      StillIn(s.log[..j], s.log);
      StillIn(s.log[..k], s.log);
      SameBytes(s.log, s.log[j].operation, s.log[j].bytes, s.log[k].bytes);
    }
  }

  // ------------------------------------------------------------------- refinement

  /** The one transaction a worker step runs, told as an act of the sequential machine. */
  function ActOf(w: Worker, x: Oracle): Option<Act> {
    match w
    case Fresh(owner) => Some(Other(DoClaimJob(owner, x.operation, x.sponsor)))
    case Persisting(l, _, _, input) => Some(Other(DoPersistSigned(l, input)))
    case Deciding(l, _, _, bytes, o) => if o.status == Final && o.receipt.Some? then Some(Present(l, o, bytes)) else None
    case Noting(l, state) => Some(Other(DoNote(l, state)))
    case Reviewing(l) => Some(Other(DoManualReview(l)))
    case Resting(l) => Some(Other(DoReschedule(l, RestDelay(l))))
    case Failing(l, review) => Some(Other(if review then DoManualReview(l) else DoReschedule(l, FailDelay(l))))
    case _ => None
  }

  ghost function PerformOne(p: Policy, h: History, act: Option<Act>, now: int): History
    requires ForeignKeys(h.db)
  {
    if act.None? then h else Perform(p, h, act.value, now)
  }

  lemma DecideRefines(p: Policy, s: System, w: Worker, x: Oracle, now: int)
    requires SystemOk(p, s) && w.Deciding? && WorkerOk(p, s.history.db, s.log, w)
    ensures Decide(p, s.history, w, x, now).history == PerformOne(p, s.history, ActOf(w, x), now)
  {
    hide Good, ForeignKeys, LogOk, WorkersOk, VerifySettlement, Settle, CaseOf, SameOperation, Logged, BytesOk;
  }

  /** Judged by rows read arbitrarily long ago, a worker does what the machine would do now. */
  lemma WorkRefines(p: Policy, s: System, w: Worker, x: Oracle, now: int)
    requires SystemOk(p, s) && WorkerOk(p, s.history.db, s.log, w)
    ensures Does(p, s.history, w, x, now).history == PerformOne(p, s.history, ActOf(w, x), now)
  {
    hide Good, ForeignKeys, LogOk, WorkersOk, OpenPayload, Decide, CaseOf, PersistSigned, ClaimJob, Note, ManualReviewTx, Reschedule;
    hide BroadcastPayload, Settle, VerifySettlement, ReadOk, BytesOk;
    if w.Deciding? {
      DecideRefines(p, s, w, x, now);
    }
  }

  ghost function MoveAct(s: System, m: Move): Option<Act> {
    match m
    case Environment(step) => if Unleased(step) then Some(Other(step)) else None
    case Work(k, x) => if k < |s.workers| then ActOf(s.workers[k], x) else None
    case _ => None
  }

  /** The acts of a run, in the order their transactions committed. */
  ghost function Trace(p: Policy, moves: seq<TimedMove>): seq<TimedAct> {
    if moves == [] then []
    else
      var init, last := moves[..|moves| - 1], moves[|moves| - 1];
      var act := MoveAct(Operate(p, init), last.move);
      Trace(p, init) + if act.Some? then [TimedAct(act.value, last.now)] else []
  }

  lemma LiveSnoc(p: Policy, acts: seq<TimedAct>, act: TimedAct)
    ensures ForeignKeys(LiveFromEmpty(p, acts).db)
    ensures LiveFromEmpty(p, acts + [act]) == Perform(p, LiveFromEmpty(p, acts), act.act, act.now)
  {
    hide ForeignKeys, Perform;
    assert (acts + [act])[..|acts|] == acts;
  }

  lemma MoveRefines(p: Policy, s: System, m: Move, now: int)
    requires SystemOk(p, s)
    ensures Evolve(p, s, m, now).history == PerformOne(p, s.history, MoveAct(s, m), now)
  {
    hide Good, ForeignKeys, LogOk, Does, Perform, ActOf;
    match m {
      case Work(k, x) =>
        if k < |s.workers| { WorkRefines(p, s, s.workers[k], x, now); }
      case _ =>
    }
  }

  /** Concurrent workers refine one sequential machine: the tables and receipts of any run are those of its acts. */
  lemma {:induction false} WorkersRefine(p: Policy, moves: seq<TimedMove>)
    ensures Operate(p, moves).history == LiveFromEmpty(p, Trace(p, moves))
  {
    hide SystemOk, ForeignKeys, Evolve, MoveAct, Perform;
    if moves == [] {
      EmptyTrace(p);
    } else {
      var init, last := moves[..|moves| - 1], moves[|moves| - 1];
      WorkersRefine(p, init);
      OperateOk(p, init);
      MoveRefines(p, Operate(p, init), last.move, last.now);
      var act := MoveAct(Operate(p, init), last.move);
      if act.Some? {
        LiveSnoc(p, Trace(p, init), TimedAct(act.value, last.now));
      } else {
        assert Trace(p, init) + [] == Trace(p, init);
      }
    }
  }

  lemma EmptyTrace(p: Policy)
    ensures Operate(p, []).history == LiveFromEmpty(p, Trace(p, []))
  {
    hide SystemOk, ForeignKeys, Evolve, Perform;
  }
}
