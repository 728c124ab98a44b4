/**
 * The one-shot registration runner (src/lib/smoke/runner.ts): one append-only journal of
 * whole snapshots, commands that may crash between any two effects, and writes that may
 * fail with or without having committed.
 */
module SmokeRun {
  import opened Basics
  import opened Registry
  import opened Quotes
  import opened Receipts
  import opened ExecutionTx

  datatype Stage = Initialized | Prepared | UserSigned | WalletsSigned | Authorized | Signed | Broadcasting | Submitted
    | BroadcastUnknown | Confirmed | Complete | Failed | ManualReview

  datatype Role = User | Sponsor
  datatype Reason = Expired | Invalid | RecoveryNeeded

  datatype Config = Config(name: string, sponsor: Key, user: Key, limits: Limits)

  datatype Candidate = Candidate(id: nat, quote: SponsoredQuote, slot: int, height: int)

  datatype Seen = Seen(status: Observed, height: int, slot: int)

  datatype Snapshot = Snapshot(
    stage: Stage, config: Config, payer: Key, secret: bool, candidate: Option<Candidate>,
    userSigned: Option<seq<Byte>>, sponsorSigned: Option<seq<Byte>>, authorizedAt: Option<int>,
    signed: Option<seq<Byte>>, signature: Option<string>, settlement: Option<Settlement>, seen: Option<Seen>, reason: Option<Reason>)

  /** Signing kept opaque: single-signer packets, the co-signed packet, and the base58 text of its first signature. */
  datatype Suite = Suite(
    single: (SponsoredQuote, seq<Byte>, Key) -> bool,
    join: (seq<Byte>, seq<Byte>, Key) -> Option<seq<Byte>>,
    signatureOf: seq<Byte> -> string)

  /** The open runner: its copy of the journal's head, and whether a write has failed under it. */
  datatype Memory = Memory(state: Option<Snapshot>, poisoned: bool)

  datatype World = World(journal: seq<Snapshot>, runner: Option<Memory>, sent: seq<seq<Byte>>)

  /** What becomes of one journal write. */
  datatype Fate = Stored | NotStored | StoredUnacknowledged | Crashed(stored: bool)

  predicate Refreshable(s: Stage) {
    s.Initialized? || s.Prepared? || s.UserSigned? || s.WalletsSigned?
  }

  predicate ObservedStage(s: Stage) {
    s.Broadcasting? || s.Submitted? || s.BroadcastUnknown? || s.Confirmed? || s.ManualReview?
  }

  predicate Settledness(s: Stage) {
    s.Complete? || s.Failed?
  }

  function RoleKey(q: SponsoredQuote, role: Role): Key {
    if role.User? then q.user else q.sponsor
  }

  // ------------------------------------------------------------------- validation

  function SmokeTerms(p: Policy, c: Config): Terms {
    Terms(c.sponsor, p.id, c.limits)
  }

  ghost predicate QuoteValid(p: Policy, s: Snapshot, at: int) {
    && s.candidate.Some? && s.candidate.value.quote.attemptPayer == s.payer && s.candidate.value.quote.name == s.config.name
    && ValidateStoredQuote(p, s.candidate.value.quote, SmokeTerms(p, s.config), s.config.user, at).Some?
  }

  method CheckQuote(p: Policy, s: Snapshot, at: int) returns (ok: bool)
    ensures ok == QuoteValid(p, s, at)
  {
    if s.candidate.None? || s.candidate.value.quote.attemptPayer != s.payer || s.candidate.value.quote.name != s.config.name {
      return false;
    }
    var r := CheckStoredQuote(p, s.candidate.value.quote, SmokeTerms(p, s.config), s.config.user, at);
    ok := r.Some?;
  }

  /** The co-signed packet is fully verified, over the quote's message, with the recorded signature. */
  predicate SignedValid(p: Policy, k: Suite, s: Snapshot, q: SponsoredQuote) {
    if s.signed.Some? then
      var tx := p.decode(s.signed.value);
      tx.Some? && tx.value.verified && tx.value.message == q.message
      && s.signature == Some(k.signatureOf(s.signed.value)) && s.authorizedAt.Some?
    else s.signature.None?
  }

  predicate CandidateValid(p: Policy, k: Suite, s: Snapshot, c: Candidate) {
    && SafeCounter(c.quote.preparedAtMs) && SafeCounter(c.quote.observedSlot)
    && SafeCounter(c.quote.blockhashContextSlot) && c.quote.observedSlot <= c.quote.blockhashContextSlot
    && SafeCounter(c.slot) && c.quote.blockhashContextSlot <= c.slot && SafeCounter(c.height) && c.height <= c.quote.lastValidBlockHeight
    && (s.userSigned.Some? ==> k.single(c.quote, s.userSigned.value, c.quote.user))
    && (s.sponsorSigned.Some? ==> k.single(c.quote, s.sponsorSigned.value, c.quote.sponsor))
    && SignedValid(p, k, s, c.quote)
  }

  /** Which fields each stage may and must carry. */
  predicate StageValid(s: Snapshot) {
    && (s.candidate.None? ==> s.stage.Initialized?)
    && (s.stage.Initialized? ==> s.candidate.None? && s.userSigned.None? && s.sponsorSigned.None?)
    && (s.stage.Prepared? ==> s.userSigned.None? && s.sponsorSigned.None?)
    && (s.stage.UserSigned? ==> s.userSigned.Some? && s.sponsorSigned.None?)
    && (!(s.stage.Initialized? || s.stage.Prepared? || s.stage.UserSigned?) ==> s.userSigned.Some? && s.sponsorSigned.Some?)
    && (Refreshable(s.stage) ==> s.authorizedAt.None? && s.signed.None?)
    && (s.authorizedAt.Some? ==> SafeCounter(s.authorizedAt.value))
    && (!Refreshable(s.stage) ==> s.authorizedAt.Some?)
    && (!Refreshable(s.stage) && !s.stage.Authorized? && !s.stage.ManualReview? ==> s.signed.Some?)
  }

  predicate OutcomeValid(s: Snapshot) {
    && (s.seen.Some? ==> SafeCounter(s.seen.value.height) && SafeCounter(s.seen.value.slot))
    && (s.settlement.Some? ==>
          && s.candidate.Some? && s.seen.Some? && s.seen.value.status == Final
          && NativeAmount(s.settlement.value.fee) && NativeAmount(s.settlement.value.debit) && NativeAmount(s.settlement.value.residual)
          && s.settlement.value.fee <= s.candidate.value.quote.cost.transactionFee
          && s.settlement.value.debit <= s.candidate.value.quote.cost.maxSponsorDebit
          && SafeCounter(s.settlement.value.slot) && s.settlement.value.slot <= s.seen.value.slot)
    && (Settledness(s.stage) ==>
          s.settlement.Some? && s.settlement.value.residual == 0 && s.settlement.value.success == s.stage.Complete? && !s.secret)
    && (!s.secret ==> Settledness(s.stage) && s.settlement.Some? && s.settlement.value.residual == 0)
  }

  predicate ActorsValid(p: Policy, s: Snapshot) {
    && ValidLabel(s.config.name) && s.config.sponsor != s.config.user && s.payer != s.config.sponsor && s.payer != s.config.user
    && p.onCurve(s.payer)
  }

  ghost predicate SnapshotValid(p: Policy, k: Suite, s: Snapshot) {
    && ActorsValid(p, s) && StageValid(s) && OutcomeValid(s)
    && (if s.candidate.Some? then QuoteValid(p, s, s.candidate.value.quote.preparedAtMs) && CandidateValid(p, k, s, s.candidate.value)
        else true)
  }

  method CheckSnapshot(p: Policy, k: Suite, s: Snapshot) returns (ok: bool)
    ensures ok == SnapshotValid(p, k, s)
  {
    if !ActorsValid(p, s) || !StageValid(s) || !OutcomeValid(s) {
      return false;
    }
    if s.candidate.Some? {
      ok := CheckQuote(p, s, s.candidate.value.quote.preparedAtMs);
      ok := ok && CandidateValid(p, k, s, s.candidate.value);
    } else {
      ok := true;
    }
  }

  // ------------------------------------------------------------------------ writes

  predicate Usable(w: World) {
    w.runner.Some? && !w.runner.value.poisoned
  }

  function Head(journal: seq<Snapshot>): Option<Snapshot> {
    if journal == [] then None else Some(journal[|journal| - 1])
  }

  /** One write: validated first, then appended, refused, left uncertain, or lost with the process. */
  ghost function Write(p: Policy, k: Suite, w: World, v: Snapshot, fate: Fate): (r: (World, bool))
    requires Usable(w)
    ensures r.1 ==> r.0 == World(w.journal + [v], Some(Memory(Some(v), false)), w.sent) && SnapshotValid(p, k, v)
    ensures r.0.sent == w.sent
  {
    if !SnapshotValid(p, k, v) then (w, false)
    else
      match fate
      case Stored => (World(w.journal + [v], Some(Memory(Some(v), false)), w.sent), true)
      case NotStored => (w.(runner := Some(w.runner.value.(poisoned := true))), false)
      case StoredUnacknowledged => (World(w.journal + [v], Some(w.runner.value.(poisoned := true)), w.sent), false)
      case Crashed(stored) => (World(if stored then w.journal + [v] else w.journal, None, w.sent), false)
  }

  // ---------------------------------------------------------------------- commands

  /** Everything one command reads from outside: clocks, the chain, the wallets, and what becomes of its effects. */
  datatype Reads = Reads(
    now: int, recheck: bool, expired: bool, quote: Option<SponsoredQuote>, candidateId: nat, slot: int, height: int,
    allowLive: bool, messageSha256: Digest, maxTotalSpend: int, confirmSpend: bool, sendResult: Option<string>,
    observation: Option<ChainObservation>, unavailable: bool, first: Fate, second: Fate, third: Fate, last: Fate,
    crashBeforeSend: bool, crashAfterSend: bool)

  datatype Command = Initialize(config: Config, payer: Key) | Prepare | AcceptSignature(role: Role, id: nat, packet: seq<Byte>)
    | Submit | Reconcile | Reopen | Kill

  ghost function DoInitialize(p: Policy, k: Suite, w: World, config: Config, payer: Key, x: Reads): World {
    if !Usable(w) || w.runner.value.state.Some? then w
    else Write(p, k, w, Snapshot(Initialized, config, payer, true, None, None, None, None, None, None, None, None, None), x.first).0
  }

  ghost function DoPrepare(p: Policy, k: Suite, w: World, x: Reads): World {
    if !Usable(w) || w.runner.value.state.None? || !Refreshable(w.runner.value.state.value.stage) then w
    else
      // Journaled whatever becomes of x.quote: the cleared snapshot is the first of two writes.
      var s := w.runner.value.state.value.(stage := Initialized, candidate := None, userSigned := None, sponsorSigned := None);
      var cleared := Write(p, k, w, s, x.first);
      if !cleared.1 || x.quote.None? then cleared.0
      else
        Write(p, k, cleared.0, s.(stage := Prepared, candidate := Some(Candidate(x.candidateId, x.quote.value, x.slot, x.height))), x.second).0
  }

  predicate SigningStage(role: Role, s: Stage) {
    (role.User? && s.Prepared?) || (role.Sponsor? && s.UserSigned?)
  }

  /** The chain rechecks are one verdict; the stored quote is revalidated here. */
  ghost predicate Rechecked(p: Policy, s: Snapshot, x: Reads) {
    QuoteValid(p, s, x.now) && x.recheck
  }

  ghost function DoAccept(p: Policy, k: Suite, w: World, role: Role, id: nat, packet: seq<Byte>, x: Reads): World {
    if !Usable(w) || w.runner.value.state.None? then w
    else
      var s := w.runner.value.state.value;
      if !SigningStage(role, s.stage) || s.candidate.None? || s.candidate.value.id != id then w
      else if !k.single(s.candidate.value.quote, packet, RoleKey(s.candidate.value.quote, role)) || !Rechecked(p, s, x) then w
      else if role.User? then Write(p, k, w, s.(stage := UserSigned, userSigned := Some(packet)), x.first).0
      else Write(p, k, w, s.(stage := WalletsSigned, sponsorSigned := Some(packet)), x.first).0
  }

  predicate Acknowledged(s: Snapshot, x: Reads) {
    && s.candidate.Some? && x.confirmSpend && x.messageSha256 == s.candidate.value.quote.messageSha256
    && x.maxTotalSpend == s.config.limits.maxReservation
  }

  predicate Sendable(s: Stage) {
    s.WalletsSigned? || s.Authorized? || s.Signed?
  }

  /** Both wallet packets still check out against the candidate. */
  predicate PacketsValid(k: Suite, s: Snapshot) {
    && s.candidate.Some? && s.userSigned.Some? && s.sponsorSigned.Some?
    && k.single(s.candidate.value.quote, s.userSigned.value, s.candidate.value.quote.user)
    && k.single(s.candidate.value.quote, s.sponsorSigned.value, s.candidate.value.quote.sponsor)
  }

  ghost function DoSubmit(p: Policy, k: Suite, w: World, x: Reads): World {
    if !Usable(w) || w.runner.value.state.None? then w
    else
      var s := w.runner.value.state.value;
      // A Broadcasting snapshot or later is not Sendable: SubmitAfterSend rests on this guard.
      if !x.allowLive || !Acknowledged(s, x) || !Sendable(s.stage) then w
      else if !Rechecked(p, s, x) || !PacketsValid(k, s) then
        (if !s.stage.WalletsSigned? && x.expired then Write(p, k, w, s.(stage := ManualReview, reason := Some(Expired)), x.first).0 else w)
      else Authorize(p, k, w, s, x)
  }

  ghost function Authorize(p: Policy, k: Suite, w: World, s: Snapshot, x: Reads): World
    requires Usable(w)
  {
    if !s.stage.WalletsSigned? then CoSign(p, k, w, s, x)
    else
      var a := s.(stage := Authorized, authorizedAt := Some(x.now));
      var r := Write(p, k, w, a, x.first);
      if r.1 then CoSign(p, k, r.0, a, x) else r.0
  }

  ghost function CoSign(p: Policy, k: Suite, w: World, s: Snapshot, x: Reads): World
    requires Usable(w)
  {
    if !s.stage.Authorized? then Broadcast(p, k, w, s, x)
    else if s.userSigned.None? || s.sponsorSigned.None? then w
    else
      var joined := k.join(s.userSigned.value, s.sponsorSigned.value, s.payer);
      if joined.None? then w
      else
        var c := s.(stage := Signed, signed := joined, signature := Some(k.signatureOf(joined.value)));
        var r := Write(p, k, w, c, x.second);
        if r.1 then Broadcast(p, k, r.0, c, x) else r.0
  }

  ghost function Broadcast(p: Policy, k: Suite, w: World, s: Snapshot, x: Reads): World
    requires Usable(w)
  {
    var b := s.(stage := Broadcasting);
    var r := Write(p, k, w, b, x.third);
    if !r.1 || s.signed.None? then r.0
    // Here the journal says Broadcasting although w.sent has not grown.
    else if x.crashBeforeSend then r.0.(runner := None)
    else
      var out := r.0.(sent := r.0.sent + [s.signed.value]);
      if x.crashAfterSend then out.(runner := None)
      else
        Write(p, k, out, b.(stage := if x.sendResult.Some? && x.sendResult == s.signature then Submitted else BroadcastUnknown), x.last).0
  }

  function SmokeCase(s: Snapshot, c: Candidate): Case {
    Case(Database.Registration, c.quote.cost.transactionFee, c.quote.cost.maxSponsorDebit, c.quote.messageSha256, s.config.sponsor, s.payer, c.quote)
  }

  /** The user account of a settled receipt started empty. */
  predicate UserStartedEmpty(s: Snapshot, r: Receipt) {
    var i := SponsoredMessage.IndexOf(r.keys, s.config.user);
    0 <= i < |r.pre| && r.pre[i] == 0
  }

  function Review(s: Snapshot, reason: Reason): Snapshot {
    s.(stage := ManualReview, reason := Some(reason))
  }

  /** Heights and slots never go back, and no receipt comes without finality. */
  predicate ObservationOk(s: Snapshot, c: Candidate, o: ChainObservation) {
    && SafeCounter(o.finalizedHeight) && (if s.seen.Some? then s.seen.value.height else c.height) <= o.finalizedHeight
    && SafeCounter(o.accountSlot) && (if s.seen.Some? then s.seen.value.slot else c.slot) <= o.accountSlot
    && (o.status != Final ==> o.receipt.None?)
  }

  function Reconciled(p: Policy, s: Snapshot, c: Candidate, bytes: seq<Byte>, o: ChainObservation): Snapshot {
    if !ObservationOk(s, c, o) then Review(s, Invalid)
    else
      var seen := s.(seen := Some(Seen(o.status, o.finalizedHeight, o.accountSlot)));
      if o.status != Final then
        (if o.finalizedHeight > c.quote.lastValidBlockHeight then Review(seen, Expired)
         else if o.status == Confirming then seen.(stage := Confirmed) else seen)
      else
        var v := VerifySettlement(p, SmokeCase(s, c), o, bytes);
        if v.None? || v.value.debit > c.quote.cost.maxSponsorDebit || !UserStartedEmpty(s, o.receipt.value) then Review(s, Invalid)
        else if v.value.residual > 0 then
          seen.(settlement := v, stage := ManualReview, reason := Some(RecoveryNeeded))
        else seen.(settlement := v, stage := if v.value.success then Complete else Failed, reason := None, secret := false)
  }

  ghost function DoReconcile(p: Policy, k: Suite, w: World, x: Reads): World {
    if !Usable(w) || w.runner.value.state.None? then w
    else
      var s := w.runner.value.state.value;
      if Settledness(s.stage) || !ObservedStage(s.stage) || s.signed.None? || s.signature.None? || s.candidate.None? then w
      else if x.observation.None? then (if x.unavailable then w else Write(p, k, w, Review(s, Invalid), x.last).0)
      else
        var next := Reconciled(p, s, s.candidate.value, s.signed.value, x.observation.value);
        // A snapshot that does not validate is replaced by a review of the old one.
        if SnapshotValid(p, k, next) then Write(p, k, w, next, x.first).0 else Write(p, k, w, Review(s, Invalid), x.last).0
  }

  /** A new process on the same journal: it trusts only what was committed. */
  ghost function DoReopen(p: Policy, k: Suite, w: World): World {
    var head := Head(w.journal);
    if head.Some? && !SnapshotValid(p, k, head.value) then w.(runner := None) else w.(runner := Some(Memory(head, false)))
  }

  ghost function Do(p: Policy, k: Suite, w: World, c: Command, x: Reads): World {
    match c
    case Initialize(config, payer) => DoInitialize(p, k, w, config, payer, x)
    case Prepare => DoPrepare(p, k, w, x)
    case AcceptSignature(role, id, packet) => DoAccept(p, k, w, role, id, packet, x)
    case Submit => DoSubmit(p, k, w, x)
    case Reconcile => DoReconcile(p, k, w, x)
    case Reopen => DoReopen(p, k, w)
    case Kill => w.(runner := None)
  }

  // --------------------------------------------------------------------- invariant

  /** How far a snapshot has committed itself to sending. */
  function Rank(s: Stage): nat {
    if Refreshable(s) then 0 else if s.Authorized? then 1 else if s.Signed? then 2 else 3
  }

  /** Later snapshots keep the run's identity; from authorization on also its candidate and packets; never an older rank. */
  predicate Follows(a: Snapshot, b: Snapshot) {
    && b.config == a.config && b.payer == a.payer
    && (Rank(a.stage) > 0 ==>
          && Rank(a.stage) <= Rank(b.stage) && b.candidate == a.candidate && b.userSigned == a.userSigned
          && b.sponsorSigned == a.sponsorSigned && b.authorizedAt == a.authorizedAt)
    && (a.signed.Some? ==> b.signed == a.signed && b.signature == a.signature)
    && (Settledness(a.stage) ==> b == a)
  }

  ghost predicate Chained(journal: seq<Snapshot>) {
    forall i, j :: 0 <= i < j < |journal| ==> Follows(journal[i], journal[j])
  }

  ghost predicate AllValid(p: Policy, k: Suite, journal: seq<Snapshot>) {
    forall i :: 0 <= i < |journal| ==> SnapshotValid(p, k, journal[i])
  }

  /** At most one send, of the bytes the journal's head carries, and only after the broadcasting snapshot. */
  ghost predicate SendOk(journal: seq<Snapshot>, sent: seq<seq<Byte>>) {
    && |sent| <= 1
    && (sent != [] ==> journal != [] && Rank(journal[|journal| - 1].stage) == 3 && journal[|journal| - 1].signed == Some(sent[0]))
  }

  /** A merely authorized snapshot carries no signed bytes yet. */
  predicate AuthorizedUnsigned(s: Snapshot) {
    s.stage.Authorized? ==> s.signed.None?
  }

  ghost predicate AllUnsigned(journal: seq<Snapshot>) {
    forall i :: 0 <= i < |journal| ==> AuthorizedUnsigned(journal[i])
  }

  ghost predicate WorldOk(p: Policy, k: Suite, w: World) {
    && Chained(w.journal) && AllValid(p, k, w.journal) && AllUnsigned(w.journal) && SendOk(w.journal, w.sent)
    && (Usable(w) ==> w.runner.value.state == Head(w.journal))
  }

  lemma FollowsTransitive(a: Snapshot, b: Snapshot, c: Snapshot)
    requires Follows(a, b) && Follows(b, c)
    ensures Follows(a, c)
  {
  }

  lemma ChainedSnoc(journal: seq<Snapshot>, v: Snapshot)
    requires Chained(journal) && (journal != [] ==> Follows(journal[|journal| - 1], v))
    ensures Chained(journal + [v])
  {
    hide Follows;
    var j' := journal + [v];
    forall i, j | 0 <= i < j < |j'| ensures Follows(j'[i], j'[j]) {
      if j == |journal| && i < |journal| - 1 {
        FollowsTransitive(journal[i], journal[|journal| - 1], v);
      }
    }
  }

  /** A write that follows the head keeps the world sound, whatever its fate. */
  lemma WriteOk(p: Policy, k: Suite, w: World, v: Snapshot, fate: Fate)
    requires WorldOk(p, k, w) && Usable(w) && (w.journal != [] ==> Follows(w.journal[|w.journal| - 1], v)) && AuthorizedUnsigned(v)
    ensures WorldOk(p, k, Write(p, k, w, v, fate).0)
  {
    hide Follows, SnapshotValid, Chained, AuthorizedUnsigned;
    ChainedSnoc(w.journal, v);
    SendStays(w.journal, w.sent, v);
  }

  lemma SendStays(journal: seq<Snapshot>, sent: seq<seq<Byte>>, v: Snapshot)
    requires SendOk(journal, sent) && (journal != [] ==> Follows(journal[|journal| - 1], v))
    ensures SendOk(journal + [v], sent)
  {
  }

  lemma InitializeOk(p: Policy, k: Suite, w: World, config: Config, payer: Key, x: Reads)
    requires WorldOk(p, k, w)
    ensures WorldOk(p, k, DoInitialize(p, k, w, config, payer, x))
  {
    hide SnapshotValid, Chained, AllValid, AllUnsigned, SendOk;
    if Usable(w) && w.runner.value.state.None? {
      WriteOk(p, k, w, Snapshot(Initialized, config, payer, true, None, None, None, None, None, None, None, None, None), x.first);
    }
  }

  /** What a valid snapshot's stage says about its fields. */
  lemma StageFacts(p: Policy, k: Suite, s: Snapshot)
    requires SnapshotValid(p, k, s)
    ensures StageValid(s)
  {
    hide StageValid;
  }

  lemma HeadValid(p: Policy, k: Suite, w: World)
    requires WorldOk(p, k, w) && Usable(w) && w.runner.value.state.Some?
    ensures w.journal != [] && w.journal[|w.journal| - 1] == w.runner.value.state.value && StageValid(w.runner.value.state.value)
    ensures AuthorizedUnsigned(w.runner.value.state.value)
  {
    hide SnapshotValid, Chained, SendOk, StageValid;
    StageFacts(p, k, w.journal[|w.journal| - 1]);
  }

  lemma PrepareOk(p: Policy, k: Suite, w: World, x: Reads)
    requires WorldOk(p, k, w)
    ensures WorldOk(p, k, DoPrepare(p, k, w, x))
  {
    hide SnapshotValid, Chained, AllValid, AllUnsigned, SendOk;
    if Usable(w) && w.runner.value.state.Some? && Refreshable(w.runner.value.state.value.stage) {
      HeadValid(p, k, w);
      var s := w.runner.value.state.value.(stage := Initialized, candidate := None, userSigned := None, sponsorSigned := None);
      WriteOk(p, k, w, s, x.first);
      var cleared := Write(p, k, w, s, x.first);
      if cleared.1 && x.quote.Some? {
        WriteOk(p, k, cleared.0, s.(stage := Prepared, candidate := Some(Candidate(x.candidateId, x.quote.value, x.slot, x.height))), x.second);
      }
    }
  }

  lemma AcceptOk(p: Policy, k: Suite, w: World, role: Role, id: nat, packet: seq<Byte>, x: Reads)
    requires WorldOk(p, k, w)
    ensures WorldOk(p, k, DoAccept(p, k, w, role, id, packet, x))
  {
    hide SnapshotValid, Chained, AllValid, AllUnsigned, SendOk, Rechecked;
    if Usable(w) && w.runner.value.state.Some? && SigningStage(role, w.runner.value.state.value.stage) {
      HeadValid(p, k, w);
      var s := w.runner.value.state.value;
      if role.User? {
        WriteOk(p, k, w, s.(stage := UserSigned, userSigned := Some(packet)), x.first);
      } else {
        WriteOk(p, k, w, s.(stage := WalletsSigned, sponsorSigned := Some(packet)), x.first);
      }
    }
  }

  /** Sending right after a stored broadcasting snapshot, when nothing was sent before. */
  lemma SentOk(p: Policy, k: Suite, w: World, bytes: seq<Byte>)
    requires WorldOk(p, k, w) && w.sent == [] && w.journal != []
    requires Rank(w.journal[|w.journal| - 1].stage) == 3 && w.journal[|w.journal| - 1].signed == Some(bytes)
    ensures WorldOk(p, k, w.(sent := [bytes]))
  {
    hide Chained, AllValid, AllUnsigned;
  }

  /** Nothing was sent while the head can still be sent. */
  lemma Unsent(p: Policy, k: Suite, w: World)
    requires WorldOk(p, k, w) && w.journal != [] && Rank(w.journal[|w.journal| - 1].stage) < 3
    ensures w.sent == []
  {
    hide Chained, AllValid, AllUnsigned;
  }

  lemma BroadcastOk(p: Policy, k: Suite, w: World, s: Snapshot, x: Reads)
    requires WorldOk(p, k, w) && Usable(w) && w.journal != [] && w.journal[|w.journal| - 1] == s && s.stage.Signed?
    ensures WorldOk(p, k, Broadcast(p, k, w, s, x))
  {
    hide SnapshotValid, Chained, AllValid, AllUnsigned, SendOk;
    Unsent(p, k, w);
    var b := s.(stage := Broadcasting);
    WriteOk(p, k, w, b, x.third);
    var r := Write(p, k, w, b, x.third);
    if r.1 && s.signed.Some? {
      GoneOk(p, k, r.0);
      SentOk(p, k, r.0, s.signed.value);
      var out := r.0.(sent := r.0.sent + [s.signed.value]);
      assert out.sent == [s.signed.value];
      GoneOk(p, k, out);
      WriteOk(p, k, out, b.(stage := if x.sendResult.Some? && x.sendResult == s.signature then Submitted else BroadcastUnknown), x.last);
    }
  }

  lemma GoneOk(p: Policy, k: Suite, w: World)
    requires WorldOk(p, k, w)
    ensures WorldOk(p, k, w.(runner := None))
  {
    hide Chained, AllValid, AllUnsigned, SendOk;
  }

  lemma CoSignOk(p: Policy, k: Suite, w: World, s: Snapshot, x: Reads)
    requires WorldOk(p, k, w) && Usable(w) && w.journal != [] && w.journal[|w.journal| - 1] == s && (s.stage.Authorized? || s.stage.Signed?)
    requires s.stage.Authorized? ==> s.signed.None?
    ensures WorldOk(p, k, CoSign(p, k, w, s, x))
  {
    hide SnapshotValid, Chained, AllValid, AllUnsigned, SendOk, Broadcast;
    if s.stage.Signed? {
      BroadcastOk(p, k, w, s, x);
    } else if s.userSigned.Some? && s.sponsorSigned.Some? {
      var joined := k.join(s.userSigned.value, s.sponsorSigned.value, s.payer);
      if joined.Some? {
        var c := s.(stage := Signed, signed := joined, signature := Some(k.signatureOf(joined.value)));
        WriteOk(p, k, w, c, x.second);
        if Write(p, k, w, c, x.second).1 { BroadcastOk(p, k, Write(p, k, w, c, x.second).0, c, x); }
      }
    }
  }

  lemma SubmitOk(p: Policy, k: Suite, w: World, x: Reads)
    requires WorldOk(p, k, w)
    ensures WorldOk(p, k, DoSubmit(p, k, w, x))
  {
    hide SnapshotValid, Chained, AllValid, AllUnsigned, SendOk, CoSign, Rechecked;
    if Usable(w) && w.runner.value.state.Some? && Sendable(w.runner.value.state.value.stage) {
      HeadValid(p, k, w);
      var s := w.runner.value.state.value;
      WriteOk(p, k, w, s.(stage := ManualReview, reason := Some(Expired)), x.first);
      if s.stage.WalletsSigned? {
        var a := s.(stage := Authorized, authorizedAt := Some(x.now));
        WriteOk(p, k, w, a, x.first);
        if Write(p, k, w, a, x.first).1 { CoSignOk(p, k, Write(p, k, w, a, x.first).0, a, x); }
      } else {
        CoSignOk(p, k, w, s, x);
      }
    }
  }

  lemma ReconciledFollows(p: Policy, s: Snapshot, c: Candidate, bytes: seq<Byte>, o: ChainObservation)
    requires ObservedStage(s.stage)
    ensures Follows(s, Reconciled(p, s, c, bytes, o)) && AuthorizedUnsigned(Reconciled(p, s, c, bytes, o))
    ensures Follows(s, Review(s, Invalid)) && AuthorizedUnsigned(Review(s, Invalid))
  {
    hide VerifySettlement, ObservationOk, UserStartedEmpty, SmokeCase, Follows, AuthorizedUnsigned, Review;
    ReviewFollows(s);
    SeenFollows(s, Seen(o.status, o.finalizedHeight, o.accountSlot));
    SettledFollows(s, Seen(o.status, o.finalizedHeight, o.accountSlot), VerifySettlement(p, SmokeCase(s, c), o, bytes));
  }

  lemma ReviewFollows(s: Snapshot)
    requires ObservedStage(s.stage)
    ensures Follows(s, Review(s, Invalid)) && AuthorizedUnsigned(Review(s, Invalid))
  {
  }

  lemma SeenFollows(s: Snapshot, seen: Seen)
    requires ObservedStage(s.stage)
    ensures var t := s.(seen := Some(seen));
            && Follows(s, t) && AuthorizedUnsigned(t) && Follows(s, Review(t, Expired)) && AuthorizedUnsigned(Review(t, Expired))
            && Follows(s, t.(stage := Confirmed)) && AuthorizedUnsigned(t.(stage := Confirmed))
  {
  }

  lemma SettledFollows(s: Snapshot, seen: Seen, v: Option<Settlement>)
    requires ObservedStage(s.stage)
    ensures var t := s.(seen := Some(seen)).(settlement := v, stage := ManualReview, reason := Some(RecoveryNeeded));
            Follows(s, t) && AuthorizedUnsigned(t)
    ensures var t := s.(seen := Some(seen)).(
                       settlement := v, stage := if v.Some? && v.value.success then Complete else Failed, reason := None, secret := false);
            Follows(s, t) && AuthorizedUnsigned(t)
  {
  }

  lemma ReconcileOk(p: Policy, k: Suite, w: World, x: Reads)
    requires WorldOk(p, k, w)
    ensures WorldOk(p, k, DoReconcile(p, k, w, x))
  {
    hide SnapshotValid, Chained, AllValid, AllUnsigned, SendOk, Follows, Reconciled, Review, AuthorizedUnsigned;
    if Usable(w) && w.runner.value.state.Some? {
      HeadValid(p, k, w);
      var s := w.runner.value.state.value;
      if ObservedStage(s.stage) && s.signed.Some? && s.candidate.Some? {
        var o := if x.observation.Some? then x.observation.value else ChainObservation(Missing, None, 0, 0, None, None, None, 0);
        ReconciledFollows(p, s, s.candidate.value, s.signed.value, o);
        WriteOk(p, k, w, Reconciled(p, s, s.candidate.value, s.signed.value, o), x.first);
        WriteOk(p, k, w, Review(s, Invalid), x.last);
      }
    }
  }

  lemma CommandOk(p: Policy, k: Suite, w: World, c: Command, x: Reads)
    requires WorldOk(p, k, w)
    ensures WorldOk(p, k, Do(p, k, w, c, x))
  {
    hide WorldOk, SnapshotValid, DoInitialize, DoPrepare, DoAccept, DoSubmit, DoReconcile;
    match c {
      case Initialize(config, payer) => InitializeOk(p, k, w, config, payer, x);
      case Prepare => PrepareOk(p, k, w, x);
      case AcceptSignature(role, id, packet) => AcceptOk(p, k, w, role, id, packet, x);
      case Submit => SubmitOk(p, k, w, x);
      case Reconcile => ReconcileOk(p, k, w, x);
      case Reopen => ReopenOk(p, k, w);
      case Kill => GoneOk(p, k, w);
    }
  }

  lemma ReopenOk(p: Policy, k: Suite, w: World)
    requires WorldOk(p, k, w)
    ensures WorldOk(p, k, DoReopen(p, k, w))
  {
    hide Chained, AllValid, AllUnsigned, SendOk, SnapshotValid;
  }

  // -------------------------------------------------------------------------- runs

  datatype Call = Call(command: Command, seen: Reads)

  const UNOPENED := World([], None, [])

  /** Any sequence of commands, crashes, failed and uncertain writes and reopenings on one journal. */
  ghost function Play(p: Policy, k: Suite, calls: seq<Call>): World {
    if calls == [] then UNOPENED
    else
      var before, last := Play(p, k, calls[..|calls| - 1]), calls[|calls| - 1];
      Do(p, k, before, last.command, last.seen)
  }

  lemma {:induction false} PlayOk(p: Policy, k: Suite, calls: seq<Call>)
    ensures WorldOk(p, k, Play(p, k, calls))
  {
    hide SnapshotValid, Do;
    if calls != [] {
      hide WorldOk;
      var init, last := calls[..|calls| - 1], calls[|calls| - 1];
      PlayOk(p, k, init);
      CommandOk(p, k, Play(p, k, init), last.command, last.seen);
    }
  }

  /** The bytes are the fully signed packet of the one candidate that was authorized. */
  ghost predicate SentTheCandidate(p: Policy, w: World, bytes: seq<Byte>) {
    && w.journal != []
    && var head := w.journal[|w.journal| - 1];
       && head.candidate.Some? && head.authorizedAt.Some? && head.signed == Some(bytes)
       && p.decode(bytes).Some? && p.decode(bytes).value.verified
       && p.decode(bytes).value.message == head.candidate.value.quote.message
       && (forall i :: 0 <= i < |w.journal| && Rank(w.journal[i].stage) > 0 ==> w.journal[i].candidate == head.candidate)
       && (forall i :: 0 <= i < |w.journal| && w.journal[i].signed.Some? ==> w.journal[i].signed == Some(bytes))
  }

  lemma SignedFacts(p: Policy, k: Suite, s: Snapshot)
    requires SnapshotValid(p, k, s) && s.signed.Some? && Rank(s.stage) == 3
    ensures s.candidate.Some? && s.authorizedAt.Some?
    ensures p.decode(s.signed.value).Some? && p.decode(s.signed.value).value.verified
    ensures p.decode(s.signed.value).value.message == s.candidate.value.quote.message
  {
    hide QuoteValid, OutcomeValid, ActorsValid;
  }

  /**
   * One journal, at most one send, ever: and what was sent is the persisted, fully signed
   * packet of the single authorized candidate.
   */
  lemma SendsAtMostOnce(p: Policy, k: Suite, calls: seq<Call>)
    ensures var w := Play(p, k, calls); |w.sent| <= 1 && (w.sent != [] ==> SentTheCandidate(p, w, w.sent[0]))
  {
    hide SnapshotValid, Play;
    var w := Play(p, k, calls);
    PlayOk(p, k, calls);
    if w.sent != [] {
      var n := |w.journal| - 1;
      SignedFacts(p, k, w.journal[n]);
      forall i | 0 <= i < |w.journal|
        ensures Rank(w.journal[i].stage) > 0 ==> w.journal[i].candidate == w.journal[n].candidate
        ensures w.journal[i].signed.Some? ==> w.journal[i].signed == w.journal[n].signed
      {
        if i < n { assert Follows(w.journal[i], w.journal[n]); }
      }
    }
  }

  /** Once sent, every later submit is a report: nothing is written or sent again. */
  lemma SubmitAfterSend(p: Policy, k: Suite, w: World, x: Reads)
    requires WorldOk(p, k, w) && w.sent != []
    ensures DoSubmit(p, k, w, x) == w
  {
    hide Chained, AllValid, AllUnsigned, Rechecked, PacketsValid, SnapshotValid, CoSign;
  }
}
