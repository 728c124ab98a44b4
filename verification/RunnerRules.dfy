/** What each command of the one-shot runner needs and leaves behind, and what a journaled snapshot may look like at each stage. */
module RunnerRules {
  import opened Basics
  import opened Registry
  import opened Quotes
  import opened Receipts
  import opened ExecutionTx
  import opened SmokeRun

  // ------------------------------------------------------------------------ writes

  /** The journal takes the snapshot and says so. */
  ghost predicate Lands(p: Policy, k: Suite, v: Snapshot, fate: Fate) {
    fate == Stored && SnapshotValid(p, k, v)
  }

  /** A write succeeds exactly when the snapshot is valid and stored; nothing invalid is ever journaled. */
  lemma WriteExactly(p: Policy, k: Suite, w: World, v: Snapshot, fate: Fate)
    requires Usable(w)
    ensures Write(p, k, w, v, fate).1 <==> Lands(p, k, v, fate)
    ensures Write(p, k, w, v, fate).0.journal
         == if SnapshotValid(p, k, v) && fate in {Stored, StoredUnacknowledged, Crashed(true)} then w.journal + [v] else w.journal
    ensures !SnapshotValid(p, k, v) ==> Write(p, k, w, v, fate) == (w, false)
    ensures SnapshotValid(p, k, v) && fate in {NotStored, StoredUnacknowledged} ==>
              Write(p, k, w, v, fate).0.runner.Some? && Write(p, k, w, v, fate).0.runner.value.poisoned
    ensures SnapshotValid(p, k, v) && fate.Crashed? ==> Write(p, k, w, v, fate).0.runner == None
  {
    hide SnapshotValid;
  }

  // ------------------------------------------------------------------------ sending

  /** Live sending is allowed, and the operator acknowledged this very message and the whole limit. */
  predicate Consented(s: Snapshot, x: Reads) {
    && x.allowLive && x.confirmSpend && s.candidate != None
    && x.messageSha256 == s.candidate.value.quote.messageSha256 && x.maxTotalSpend == s.config.limits.maxReservation
  }

  /** The quote still validates now, the chain rechecks hold and both wallet packets check out. */
  ghost predicate StillGood(p: Policy, k: Suite, s: Snapshot, x: Reads) {
    s.candidate != None && s.userSigned != None && s.sponsorSigned != None
    && var q := s.candidate.value.quote;
       && q.attemptPayer == s.payer && q.name == s.config.name
       && ValidateStoredQuote(p, q, Terms(s.config.sponsor, p.id, s.config.limits), s.config.user, x.now) != None && x.recheck
       && k.single(q, s.userSigned.value, q.user) && k.single(q, s.sponsorSigned.value, q.sponsor)
  }

  function AuthorizedNow(s: Snapshot, x: Reads): Snapshot {
    if s.stage == WalletsSigned then s.(stage := Authorized, authorizedAt := Some(x.now)) else s
  }

  /** The co-signed snapshot, when there is one. */
  function SignedNow(k: Suite, s: Snapshot): Option<Snapshot> {
    if s.stage != Authorized then Some(s)
    else if s.userSigned == None || s.sponsorSigned == None then None
    else
      var joined := k.join(s.userSigned.value, s.sponsorSigned.value, s.payer);
      if joined == None then None
      else Some(s.(stage := Signed, signed := joined, signature := Some(k.signatureOf(joined.value))))
  }

  /** Every snapshot a submission must store before it may send. */
  ghost predicate Committed(p: Policy, k: Suite, s: Snapshot, x: Reads) {
    var a := AuthorizedNow(s, x);
    var c := SignedNow(k, a);
    && (s.stage == WalletsSigned ==> Lands(p, k, a, x.first))
    && c != None && (a.stage == Authorized ==> Lands(p, k, c.value, x.second))
    && Lands(p, k, c.value.(stage := Broadcasting), x.third)
  }

  /** The state of a usable runner. */
  predicate StandsAt(w: World, s: Snapshot) {
    w.runner.Some? && !w.runner.value.poisoned && w.runner.value.state == Some(s)
  }

  /**
   * Bytes go out exactly when all of this holds: consent for this message and limit, a
   * stage before any send, everything rechecked, and authorization, co-signed packet and
   * the intention to broadcast all stored; and then they are the co-signed packet.
   */
  lemma SendsExactly(p: Policy, k: Suite, w: World, x: Reads, s: Snapshot)
    requires StandsAt(w, s)
    ensures DoSubmit(p, k, w, x).sent != w.sent
            <==> && Consented(s, x) && s.stage in {WalletsSigned, Authorized, Signed} && StillGood(p, k, s, x)
                 && Committed(p, k, s, x) && SignedNow(k, AuthorizedNow(s, x)).value.signed != None && !x.crashBeforeSend
    ensures DoSubmit(p, k, w, x).sent != w.sent ==>
              var c := SignedNow(k, AuthorizedNow(s, x)); c != None && c.value.signed != None && DoSubmit(p, k, w, x).sent == w.sent + [c.value.signed.value]
  {
    hide SnapshotValid, ValidateStoredQuote, Write, SmokeRun.Authorize, CoSign, Broadcast, SignedNow, AuthorizedNow, Lands;
    if Consented(s, x) && s.stage in {WalletsSigned, Authorized, Signed} && StillGood(p, k, s, x) {
      AuthorizeSends(p, k, w, s, x);
    } else {
      RefusalKeeps(p, k, w, s, x);
    }
  }

  lemma RefusalKeeps(p: Policy, k: Suite, w: World, s: Snapshot, x: Reads)
    requires StandsAt(w, s) && !(Consented(s, x) && s.stage in {WalletsSigned, Authorized, Signed} && StillGood(p, k, s, x))
    ensures DoSubmit(p, k, w, x).sent == w.sent
  {
    hide SnapshotValid, ValidateStoredQuote, Write, SmokeRun.Authorize;
  }

  lemma BroadcastSends(p: Policy, k: Suite, w: World, s: Snapshot, x: Reads)
    requires Usable(w)
    ensures Broadcast(p, k, w, s, x).sent
         == if Lands(p, k, s.(stage := Broadcasting), x.third) && s.signed != None && !x.crashBeforeSend then w.sent + [s.signed.value] else w.sent
  {
    hide SnapshotValid;
    WriteExactly(p, k, w, s.(stage := Broadcasting), x.third);
  }

  lemma CoSignSends(p: Policy, k: Suite, w: World, s: Snapshot, x: Reads)
    requires Usable(w)
    ensures var c := SignedNow(k, s);
            CoSign(p, k, w, s, x).sent
            == if c != None && (s.stage == Authorized ==> Lands(p, k, c.value, x.second)) && Lands(p, k, c.value.(stage := Broadcasting), x.third)
                  && c.value.signed != None && !x.crashBeforeSend then w.sent + [c.value.signed.value] else w.sent
  {
    hide SnapshotValid, Broadcast, Write;
    var c := SignedNow(k, s);
    if c.Some? {
      if s.stage == Authorized {
        WriteExactly(p, k, w, c.value, x.second);
        WriteStays(p, k, w, c.value, x.second);
        var r := Write(p, k, w, c.value, x.second);
        if r.1 { BroadcastSends(p, k, r.0, c.value, x); }
      } else {
        BroadcastSends(p, k, w, s, x);
      }
    }
  }

  lemma WriteStays(p: Policy, k: Suite, w: World, v: Snapshot, fate: Fate)
    requires Usable(w)
    ensures Write(p, k, w, v, fate).0.sent == w.sent && (Write(p, k, w, v, fate).1 ==> Usable(Write(p, k, w, v, fate).0))
  {
    hide SnapshotValid;
  }

  lemma AuthorizeSends(p: Policy, k: Suite, w: World, s: Snapshot, x: Reads)
    requires StandsAt(w, s) && Consented(s, x) && s.stage in {WalletsSigned, Authorized, Signed} && StillGood(p, k, s, x)
    ensures var c := SignedNow(k, AuthorizedNow(s, x));
            DoSubmit(p, k, w, x).sent
            == if Committed(p, k, s, x) && c.value.signed != None && !x.crashBeforeSend then w.sent + [c.value.signed.value] else w.sent
  {
    hide SnapshotValid, ValidateStoredQuote, Write, CoSign, Lands, SignedNow;
    assert DoSubmit(p, k, w, x) == SmokeRun.Authorize(p, k, w, s, x);
    var a := AuthorizedNow(s, x);
    if s.stage == WalletsSigned {
      WriteExactly(p, k, w, a, x.first);
      WriteStays(p, k, w, a, x.first);
      var r := Write(p, k, w, a, x.first);
      if r.1 { CoSignSends(p, k, r.0, a, x); }
    } else {
      CoSignSends(p, k, w, s, x);
    }
  }

  /** After a send the run is noted as submitted exactly when the chain answered with the packet's own signature. */
  lemma SendIsNoted(p: Policy, k: Suite, w: World, s: Snapshot, x: Reads)
    requires Usable(w) && Lands(p, k, s.(stage := Broadcasting), x.third) && s.signed != None && !x.crashBeforeSend && !x.crashAfterSend
    ensures var noted := s.(stage := if x.sendResult != None && x.sendResult == s.signature then Submitted else BroadcastUnknown);
            Lands(p, k, noted, x.last) ==>
              Broadcast(p, k, w, s, x) == World(w.journal + [s.(stage := Broadcasting)] + [noted], Some(Memory(Some(noted), false)), w.sent + [s.signed.value])
  {
    hide SnapshotValid;
  }

  /** Where a refused submission leaves the journal: untouched, but for an authorized run whose quote has expired, which goes to review. */
  lemma RefusedSubmit(p: Policy, k: Suite, w: World, x: Reads, s: Snapshot)
    requires StandsAt(w, s) && !(Consented(s, x) && s.stage in {WalletsSigned, Authorized, Signed} && StillGood(p, k, s, x))
    ensures var expires := Consented(s, x) && s.stage in {Authorized, Signed} && x.expired;
            DoSubmit(p, k, w, x)
            == if expires then Write(p, k, w, s.(stage := ManualReview, reason := Some(Expired)), x.first).0 else w
  {
    hide SnapshotValid, ValidateStoredQuote, Write, SmokeRun.Authorize;
  }

  // ---------------------------------------------------------------- other commands

  /** A journal is initialized once, with an empty run for this configuration and payer. */
  lemma InitializeExactly(p: Policy, k: Suite, w: World, config: Config, payer: Key, x: Reads)
    ensures var v := Snapshot(Initialized, config, payer, true, None, None, None, None, None, None, None, None, None);
            DoInitialize(p, k, w, config, payer, x)
            == if w.runner.Some? && !w.runner.value.poisoned && w.runner.value.state == None then Write(p, k, w, v, x.first).0 else w
  {
  }

  /** A new process resumes from the journal's last snapshot, if that is valid. */
  lemma ReopenExactly(p: Policy, k: Suite, w: World)
    ensures w.journal == [] ==> DoReopen(p, k, w) == World([], Some(Memory(None, false)), w.sent)
    ensures w.journal != [] ==>
              var s := w.journal[|w.journal| - 1];
              DoReopen(p, k, w) == World(w.journal, if SnapshotValid(p, k, s) then Some(Memory(Some(s), false)) else None, w.sent)
  {
    hide SnapshotValid;
  }

  /** The run without any approval. */
  function Cleared(s: Snapshot): Snapshot {
    s.(stage := Initialized, candidate := None, userSigned := None, sponsorSigned := None)
  }

  /** Preparation clears every approval first and then stores the new candidate; at any later stage it does nothing. */
  lemma PrepareExactly(p: Policy, k: Suite, w: World, x: Reads, s: Snapshot)
    requires StandsAt(w, s)
    ensures s.stage !in {Initialized, Prepared, UserSigned, WalletsSigned} ==> DoPrepare(p, k, w, x) == w
    ensures s.stage in {Initialized, Prepared, UserSigned, WalletsSigned} && !(Lands(p, k, Cleared(s), x.first) && x.quote != None) ==>
              DoPrepare(p, k, w, x) == Write(p, k, w, Cleared(s), x.first).0
    ensures s.stage in {Initialized, Prepared, UserSigned, WalletsSigned} && Lands(p, k, Cleared(s), x.first) && x.quote != None ==>
              var c := Cleared(s).(stage := Prepared, candidate := Some(Candidate(x.candidateId, x.quote.value, x.slot, x.height)));
              DoPrepare(p, k, w, x) == Write(p, k, World(w.journal + [Cleared(s)], Some(Memory(Some(Cleared(s)), false)), w.sent), c, x.second).0
  {
    hide SnapshotValid;
  }

  /** A wallet's packet is taken at its turn, for the current candidate, signed by that wallet alone, and after a recheck. */
  lemma AcceptExactly(p: Policy, k: Suite, w: World, role: Role, id: nat, packet: seq<Byte>, x: Reads, s: Snapshot)
    requires StandsAt(w, s)
    ensures var turn := if role == User then s.stage == Prepared else s.stage == UserSigned;
            var taken := if role == User then s.(stage := UserSigned, userSigned := Some(packet))
                         else s.(stage := WalletsSigned, sponsorSigned := Some(packet));
            DoAccept(p, k, w, role, id, packet, x)
            == if turn && s.candidate != None && s.candidate.value.id == id && x.recheck
                  && k.single(s.candidate.value.quote, packet, if role == User then s.candidate.value.quote.user else s.candidate.value.quote.sponsor)
                  && s.candidate.value.quote.attemptPayer == s.payer && s.candidate.value.quote.name == s.config.name
                  && ValidateStoredQuote(p, s.candidate.value.quote, Terms(s.config.sponsor, p.id, s.config.limits), s.config.user, x.now) != None
               then Write(p, k, w, taken, x.first).0 else w
  {
    hide SnapshotValid, ValidateStoredQuote, Write;
  }

  // ---------------------------------------------------------------- reconciliation

  /** Neither height nor slot goes back, and only a final observation carries a receipt. */
  predicate MovesOn(s: Snapshot, c: Candidate, o: ChainObservation) {
    var height, slot := if s.seen == None then c.height else s.seen.value.height, if s.seen == None then c.slot else s.seen.value.slot;
    && height <= o.finalizedHeight && 0 <= o.finalizedHeight <= 9_007_199_254_740_991
    && slot <= o.accountSlot && 0 <= o.accountSlot <= 9_007_199_254_740_991
    && (o.receipt != None ==> o.status == Final)
  }

  /** The outcome of a final observation's evidence, if the runner takes it. */
  predicate Takes(p: Policy, s: Snapshot, c: Candidate, bytes: seq<Byte>, o: ChainObservation, v: Settlement) {
    && o.receipt != None && v.debit <= c.quote.cost.maxSponsorDebit
    && VerifySettlement(p, Case(Database.Registration, c.quote.cost.transactionFee, c.quote.cost.maxSponsorDebit, c.quote.messageSha256,
                                s.config.sponsor, s.payer, c.quote), o, bytes) == Some(v)
    && var keys, pre := o.receipt.value.keys, o.receipt.value.pre; var i := SponsoredMessage.IndexOf(keys, s.config.user); 0 <= i < |pre| && pre[i] == 0
  }

  /** What reconciling one observation makes of the run. */
  lemma ReconciledExactly(p: Policy, s: Snapshot, c: Candidate, bytes: seq<Byte>, o: ChainObservation)
    ensures var r, seen := Reconciled(p, s, c, bytes, o), s.(seen := Some(Seen(o.status, o.finalizedHeight, o.accountSlot)));
            var invalid := s.(stage := ManualReview, reason := Some(Invalid));
            && (!MovesOn(s, c, o) ==> r == invalid)
            && (MovesOn(s, c, o) && o.status != Final && o.finalizedHeight > c.quote.lastValidBlockHeight ==>
                  r == seen.(stage := ManualReview, reason := Some(Expired)))
            && (MovesOn(s, c, o) && o.status != Final && o.finalizedHeight <= c.quote.lastValidBlockHeight ==>
                  r == if o.status == Confirming then seen.(stage := Confirmed) else seen)
            && (MovesOn(s, c, o) && o.status == Final && (forall v :: !Takes(p, s, c, bytes, o, v)) ==> r == invalid)
            && (forall v :: MovesOn(s, c, o) && o.status == Final && Takes(p, s, c, bytes, o, v) ==>
                  r == if v.residual > 0 then seen.(settlement := Some(v), stage := ManualReview, reason := Some(RecoveryNeeded))
                       else seen.(settlement := Some(v), stage := if v.success then Complete else Failed, reason := None, secret := false))
  {
    hide VerifySettlement;
    var v := VerifySettlement(p, SmokeCase(s, c), o, bytes);
    if v.Some? && o.receipt.Some? { assert Takes(p, s, c, bytes, o, v.value) || !Takes(p, s, c, bytes, o, v.value); }
    if MovesOn(s, c, o) && o.status == Final { FinalReceipt(p, s, c, bytes, o); }
  }

  lemma FinalReceipt(p: Policy, s: Snapshot, c: Candidate, bytes: seq<Byte>, o: ChainObservation)
    ensures VerifySettlement(p, SmokeCase(s, c), o, bytes).Some? ==> o.receipt.Some?
  {
  }

  /** Only a run that may have been sent is reconciled, and never once it is settled. */
  lemma ReconcileExactly(p: Policy, k: Suite, w: World, x: Reads, s: Snapshot)
    requires StandsAt(w, s)
    ensures var invalid := s.(stage := ManualReview, reason := Some(Invalid));
            var open := s.stage in {Broadcasting, Submitted, BroadcastUnknown, Confirmed, ManualReview}
                        && s.signed != None && s.signature != None && s.candidate != None;
            && (!open || (x.observation == None && x.unavailable) ==> DoReconcile(p, k, w, x) == w)
            && (open && x.observation == None && !x.unavailable ==> DoReconcile(p, k, w, x) == Write(p, k, w, invalid, x.last).0)
            && (open && x.observation != None ==>
                  var next := Reconciled(p, s, s.candidate.value, s.signed.value, x.observation.value);
                  DoReconcile(p, k, w, x) == if SnapshotValid(p, k, next) then Write(p, k, w, next, x.first).0 else Write(p, k, w, invalid, x.last).0)
  {
    hide SnapshotValid, Reconciled, Write;
  }

  // ------------------------------------------------------------- snapshots by stage

  predicate Counter(n: int) {
    0 <= n <= 9_007_199_254_740_991
  }

  /** Which packets, authorization and signature a run carries at each stage. */
  predicate CarriesFor(s: Snapshot) {
    match s.stage
    case Initialized => s.candidate == None && s.userSigned == None && s.sponsorSigned == None && s.authorizedAt == None && s.signed == None
    case Prepared => s.candidate != None && s.userSigned == None && s.sponsorSigned == None && s.authorizedAt == None && s.signed == None
    case UserSigned => s.candidate != None && s.userSigned != None && s.sponsorSigned == None && s.authorizedAt == None && s.signed == None
    case WalletsSigned => s.candidate != None && s.userSigned != None && s.sponsorSigned != None && s.authorizedAt == None && s.signed == None
    case Authorized => s.candidate != None && s.userSigned != None && s.sponsorSigned != None && s.authorizedAt != None
    case ManualReview => s.candidate != None && s.userSigned != None && s.sponsorSigned != None && s.authorizedAt != None
    case _ => s.candidate != None && s.userSigned != None && s.sponsorSigned != None && s.authorizedAt != None && s.signed != None
  }

  /** Everything the candidate of a snapshot must satisfy. */
  ghost predicate CandidateGood(p: Policy, k: Suite, s: Snapshot, c: Candidate) {
    var q := c.quote;
    && q.attemptPayer == s.payer && q.name == s.config.name
    && ValidateStoredQuote(p, q, Terms(s.config.sponsor, p.id, s.config.limits), s.config.user, q.preparedAtMs) != None
    && Counter(q.preparedAtMs) && 0 <= q.observedSlot <= q.blockhashContextSlot <= c.slot <= 9_007_199_254_740_991
    && Counter(c.height) && c.height <= q.lastValidBlockHeight
    && (s.userSigned != None ==> k.single(q, s.userSigned.value, q.user))
    && (s.sponsorSigned != None ==> k.single(q, s.sponsorSigned.value, q.sponsor))
    && (if s.signed == None then s.signature == None
        else
          s.authorizedAt != None && s.signature == Some(k.signatureOf(s.signed.value)) && p.decode(s.signed.value) != None
          && p.decode(s.signed.value).value.verified && p.decode(s.signed.value).value.message == q.message)
  }

  /** A settlement stays within the quote and behind a final observation. */
  predicate SettlementGood(s: Snapshot) {
    s.settlement != None ==>
      && s.candidate != None && s.seen != None && s.seen.value.status == Final
      && var v, cost := s.settlement.value, s.candidate.value.quote.cost;
         && 0 <= v.fee <= cost.transactionFee && v.fee <= U64_MAX && 0 <= v.debit <= cost.maxSponsorDebit && v.debit <= U64_MAX
         && 0 <= v.residual <= U64_MAX && 0 <= v.slot <= s.seen.value.slot
  }

  /** The payer's secret is dropped exactly when the run is over without a residual. */
  predicate SecretKept(s: Snapshot) {
    var over := s.stage in {Complete, Failed};
    && s.secret == !over
    && (over ==> s.settlement != None && s.settlement.value.residual == 0 && s.settlement.value.success == (s.stage == Complete))
  }

  /** A snapshot may be journaled exactly when it is one of these. */
  lemma SnapshotExactly(p: Policy, k: Suite, s: Snapshot)
    ensures SnapshotValid(p, k, s)
            <==> && ValidLabel(s.config.name) && s.config.sponsor != s.config.user && s.payer !in [s.config.sponsor, s.config.user] && p.onCurve(s.payer)
                 && CarriesFor(s) && (s.candidate != None ==> CandidateGood(p, k, s, s.candidate.value))
                 && (s.authorizedAt != None ==> Counter(s.authorizedAt.value))
                 && (s.seen != None ==> Counter(s.seen.value.height) && Counter(s.seen.value.slot))
                 && SettlementGood(s) && SecretKept(s)
  {
    hide ValidateStoredQuote, ValidLabel, CandidateGood, CandidateValid, QuoteValid, SettlementGood;
    if s.candidate.Some? { CandidateExactly(p, k, s, s.candidate.value); }
    SettlementExactly(s);
  }

  lemma CandidateExactly(p: Policy, k: Suite, s: Snapshot, c: Candidate)
    requires s.candidate == Some(c)
    ensures QuoteValid(p, s, c.quote.preparedAtMs) && CandidateValid(p, k, s, c) <==> CandidateGood(p, k, s, c)
  {
    hide ValidateStoredQuote;
  }

  lemma SettlementExactly(s: Snapshot)
    ensures OutcomeValid(s)
            <==> (s.seen != None ==> Counter(s.seen.value.height) && Counter(s.seen.value.slot)) && SettlementGood(s) && SecretKept(s)
  {
  }
}
