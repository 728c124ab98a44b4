/** Exactly which messages can be accepted, which quotes are stored and which are prepared. */
module QuoteRules {
  import opened Basics
  import opened Registry
  import opened SponsoredMessage
  import opened Quotes
  import Builder

  // --------------------------------------------------------------------- messages

  /** Neither a program nor an account the registration touches on its own. */
  predicate Outside(p: Policy, e: Input, k: Key) {
    && k != p.program && k != p.system && k != p.compute && k != p.config
    && k != p.domainPda(e.name) && k != p.primaryPda(e.user) && k != p.primaryPda(e.attemptPayer)
  }

  /** Three wallets that can sign and a fee receiver, all different and all apart from the program's accounts. */
  predicate PartiesApart(p: Policy, e: Input) {
    && e.sponsor != e.attemptPayer && e.sponsor != e.user && e.attemptPayer != e.user
    && e.feeReceiver !in [e.sponsor, e.attemptPayer, e.user]
    && p.onCurve(e.sponsor) && p.onCurve(e.attemptPayer) && p.onCurve(e.user)
    && Outside(p, e, e.sponsor) && Outside(p, e, e.attemptPayer) && Outside(p, e, e.user) && Outside(p, e, e.feeReceiver)
  }

  lemma PartiesExactly(p: Policy, e: Input)
    ensures && Distinct(Actors(e)) && (forall k <- Actors(e) :: p.onCurve(k))
            && (forall k <- Actors(e) + [e.feeReceiver] :: k !in Protected(p, e)) && e.feeReceiver !in Actors(e)
            <==> PartiesApart(p, e)
  {
    var parties := Actors(e) + [e.feeReceiver];
    assert parties[0] == e.sponsor && parties[1] == e.attemptPayer && parties[2] == e.user && parties[3] == e.feeReceiver;
    assert Actors(e)[0] == e.sponsor && Actors(e)[1] == e.attemptPayer && Actors(e)[2] == e.user;
    forall k ensures k !in Protected(p, e) <==> Outside(p, e, k) {
      OutsideExactly(p, e, k);
    }
  }

  lemma OutsideExactly(p: Policy, e: Input, k: Key)
    ensures k !in Protected(p, e) <==> Outside(p, e, k)
  {
    var s := Protected(p, e);
    assert s[0] == p.program && s[1] == p.system && s[2] == p.compute && s[3] == p.config && s[4] == p.domainPda(e.name)
           && s[5] == p.primaryPda(e.user) && s[6] == p.primaryPda(e.attemptPayer);
  }

  /** A price and a rent that fit one transfer together, and a primary rent. */
  predicate AmountsFit(e: Input) {
    && 0 < e.registrationPrice && 0 < e.domainRent && e.registrationPrice + e.domainRent <= 0xFFFF_FFFF_FFFF_FFFF
    && 0 <= e.primaryRent <= 0xFFFF_FFFF_FFFF_FFFF
  }

  /** There is an acceptable message exactly for these terms, and then only one. */
  lemma AcceptableExactly(p: Policy, e: Input)
    ensures (exists m :: Accepts(p, m, e)) <==> ValidLabel(e.name) && PartiesApart(p, e) && AmountsFit(e)
    ensures forall m, n :: Accepts(p, m, e) && Accepts(p, n, e) ==> m == n
  {
    hide CanonicalMessage, PartiesApart, Actors, Protected, ValidLabel, Distinct;
    PartiesExactly(p, e);
    if Admissible(p, e) {
      CanonicalFits(p, e);
      assert Accepts(p, CanonicalMessage(p, e), e);
    }
  }

  // ---------------------------------------------------------------- stored quotes

  /** The quote was made for this wallet under this campaign and the pinned policy. */
  predicate MadeFor(p: Policy, q: SponsoredQuote, t: Terms, wallet: Key) {
    && q.version == 1 && q.user == wallet && q.sponsor == t.sponsor && q.policyId == t.policyVersion && t.policyVersion == p.id
    && q.genesisHash == p.genesisHash && q.programSha256 == p.programSha256 && q.configSha256 == p.configSha256 && q.feeReceiver == p.feeReceiver
    && q.expected == Expected(p.domainPda(q.name), wallet, p.primaryPda(wallet), q.name)
  }

  /** A window of one second to one minute that holds now, with a second's grace before it. */
  predicate InWindow(q: SponsoredQuote, now: int) {
    && q.preparedAtMs - 1_000 <= now < q.expiresAtMs && 1_000 <= q.expiresAtMs - q.preparedAtMs <= 60_000
    && -9_007_199_254_740_991 <= q.preparedAtMs && q.expiresAtMs <= 9_007_199_254_740_991
    && 0 <= q.lastValidBlockHeight <= 9_007_199_254_740_991
  }

  /** Positive price, fee and recovery allowance within the limits, the pinned rents, and sums that add up. */
  predicate CostsAddUp(c: Cost, l: Limits) {
    && 0 < c.registrationPrice <= l.maxRegistrationPrice && 0 < c.transactionFee <= l.maxTransactionFee
    && 0 < c.recoveryAllowance == l.recoveryAllowance
    && c.domainRent == 1_927_920 && c.primaryRent in {0, 1_426_800}
    && c.maxSponsorDebit == c.registrationPrice + c.domainRent + c.primaryRent + c.transactionFee
    && c.maximumReservation == c.registrationPrice + c.domainRent + c.primaryRent + c.transactionFee + c.recoveryAllowance
    && c.maximumReservation <= l.maxReservation && c.maximumReservation <= 0xFFFF_FFFF_FFFF_FFFF
  }

  /** The stored packet is the message behind three empty signatures, and the digest is the message's. */
  predicate PacketWraps(q: SponsoredQuote) {
    && q.messageSha256 == Sha256(q.message)
    && |q.unsignedTransaction| == 193 + |q.message| && q.unsignedTransaction[0] == 3 && q.unsignedTransaction[193..] == q.message
    && forall i :: 1 <= i < 193 ==> q.unsignedTransaction[i] == 0
  }

  /**
   * A stored quote yields its reservation exactly when all of this holds; the size of its
   * base64 texts never decides, for an accepted message is short enough.
   */
  lemma StoredExactly(p: Policy, q: SponsoredQuote, t: Terms, wallet: Key, now: int)
    ensures var message := Input(q.name, q.sponsor, q.attemptPayer, q.user, q.feeReceiver,
                                 q.cost.registrationPrice, q.cost.domainRent, q.cost.primaryRent, q.blockhash);
            ValidateStoredQuote(p, q, t, wallet, now)
            == if MadeFor(p, q, t, wallet) && InWindow(q, now) && CostsAddUp(q.cost, t.limits) && PacketWraps(q) && Accepts(p, q.message, message)
               then Some(q.cost.maximumReservation) else None
  {
    hide CanonicalMessage, Admissible, ValidLabel, CostWithin, UnsignedPacket, CostsAddUp, PacketWraps, Base64Length;
    CostsExactly(q.cost, t.limits);
    WrapsExactly(q);
    var e := MessageInput(q, q.feeReceiver);
    if Accepts(p, q.message, e) {
      SizesFit(p, q.message, e);
      AdmissibleLabel(p, e);
    }
  }

  lemma AdmissibleLabel(p: Policy, e: Input)
    requires Admissible(p, e)
    ensures ValidLabel(e.name)
  {
  }

  lemma SizesFit(p: Policy, message: seq<Byte>, e: Input)
    requires Accepts(p, message, e)
    ensures Base64Length(|message|) <= 1_648 && Base64Length(|UnsignedPacket(message)|) <= 1_648
  {
    hide Admissible, CanonicalMessage;
    PreparedSize(p, message, e);
  }

  lemma CostsExactly(c: Cost, l: Limits)
    ensures CostWithin(c, l) <==> CostsAddUp(c, l)
  {
  }

  lemma WrapsExactly(q: SponsoredQuote)
    ensures q.messageSha256 == Sha256(q.message) && q.unsignedTransaction == UnsignedPacket(q.message) <==> PacketWraps(q)
  {
    if PacketWraps(q) {
      var u := q.unsignedTransaction;
      assert u[..193] == [3] + seq(192, _ => 0);
      assert u == u[..193] + u[193..];
    }
  }

  // -------------------------------------------------------------------- preparing

  /** Limits a quote can be prepared under, and a start it can be prepared at. */
  predicate Preparable(l: Limits, ttlMs: int, startedAt: int) {
    && 0 < l.maxRegistrationPrice <= 0xFFFF_FFFF_FFFF_FFFF && 0 < l.maxTransactionFee <= 0xFFFF_FFFF_FFFF_FFFF
    && 0 < l.recoveryAllowance <= 0xFFFF_FFFF_FFFF_FFFF && 0 < l.maxReservation <= 0xFFFF_FFFF_FFFF_FFFF
    && 1_000 <= ttlMs <= 60_000 && 0 <= startedAt && startedAt + ttlMs <= 9_007_199_254_740_991
  }

  /** The observation answers this very request, freshly and in the numbers' ranges. */
  predicate Answers(o: Observation, name: string, raw: Request, startedAt: int, seenBy: int) {
    && o.name == name && o.sponsor == raw.sponsor && o.user == raw.user && o.attemptPayer == raw.attemptPayer
    && 0 <= o.observedSlot <= o.blockhashContextSlot <= 9_007_199_254_740_991 && 0 <= o.lastValidBlockHeight <= 9_007_199_254_740_991
    && 0 <= o.observedAtMs <= 9_007_199_254_740_991 && startedAt <= o.observedAtMs <= seenBy
    && 0 < o.registrationPrice <= 0xFFFF_FFFF_FFFF_FFFF && 0 < o.domainRent <= 0xFFFF_FFFF_FFFF_FFFF
    && 0 <= o.primaryRent <= 0xFFFF_FFFF_FFFF_FFFF && 0 <= o.sponsorBalance <= 0xFFFF_FFFF_FFFF_FFFF
  }

  function Asked(name: string, raw: Request, o: Observation): Input {
    Input(name, raw.sponsor, raw.attemptPayer, raw.user, o.feeReceiver, o.registrationPrice, o.domainRent, o.primaryRent, o.blockhash)
  }

  function Total(o: Observation, l: Limits, fee: int): int {
    o.registrationPrice + o.domainRent + o.primaryRent + fee + l.recoveryAllowance
  }

  /** The request, the observation and its price are in order; what remains are the fee, the sums and the clock. */
  predicate Underway(p: Policy, name: string, raw: Request, l: Limits, ttlMs: int, startedAt: int, o: Observation, seenBy: int) {
    && Preparable(l, ttlMs, startedAt) && Answers(o, name, raw, startedAt, seenBy) && o.registrationPrice <= l.maxRegistrationPrice
    && PartiesApart(p, Asked(name, raw, o)) && o.registrationPrice + o.domainRent <= 0xFFFF_FFFF_FFFF_FFFF
  }

  /** A quote, field by field. */
  ghost predicate QuoteReads(p: Policy, q: SponsoredQuote, name: string, raw: Request, l: Limits, ttlMs: int, startedAt: int, o: Observation, fee: int) {
    && MadeOut(q, name, raw, o) && Accepts(p, q.message, Asked(name, raw, o)) && PacketWraps(q)
    && q.expected == Expected(p.domainPda(name), raw.user, p.primaryPda(raw.user), name)
    && q.preparedAtMs == startedAt && q.expiresAtMs == startedAt + ttlMs
    && q.cost == Cost(o.registrationPrice, o.domainRent, o.primaryRent, fee, l.recoveryAllowance,
                      o.registrationPrice + o.domainRent + o.primaryRent + fee, Total(o, l, fee))
  }

  /** What the quote takes over from the request and the observation. */
  predicate MadeOut(q: SponsoredQuote, name: string, raw: Request, o: Observation) {
    && q.version == 1 && q.name == name && q.sponsor == raw.sponsor && q.attemptPayer == raw.attemptPayer && q.user == raw.user
    && q.feeReceiver == o.feeReceiver && q.policyId == o.policyId && q.genesisHash == o.genesisHash
    && q.programSha256 == o.programSha256 && q.configSha256 == o.configSha256
    && q.observedSlot == o.observedSlot && q.blockhashContextSlot == o.blockhashContextSlot
    && q.blockhash == o.blockhash && q.lastValidBlockHeight == o.lastValidBlockHeight
  }

  /**
   * Preparation succeeds exactly when the whole amount fits the limits and the sponsor's
   * balance and the clock is still inside the window, and each of its last refusals has
   * exactly one cause.
   */
  lemma PreparesExactly(
    p: Policy, raw: Request, name: string, l: Limits, ttlMs: int, startedAt: int, o: Observation, seenBy: int, fee: int, done: int)
    requires NormalizeName(raw.name) == Some(name) && Builder.SeparateAddresses(p, Asked(name, raw, o))
    ensures var r := PrepareSponsoredQuote(p, raw, l, ttlMs, startedAt, Ok(o), seenBy, Some(fee), done);
            var paid := Underway(p, name, raw, l, ttlMs, startedAt, o, seenBy) && 0 < fee <= l.maxTransactionFee && fee <= 0xFFFF_FFFF_FFFF_FFFF;
            var total := Total(o, l, fee);
            var inTime := startedAt <= done < startedAt + ttlMs;
            && (r.Ok? <==> paid && total <= l.maxReservation && total <= o.sponsorBalance && inTime)
            && (paid && total > l.maxReservation ==> r == Err(CostLimit))
            && (r == Err(InsufficientSponsorBalance) <==> paid && o.sponsorBalance < total <= l.maxReservation)
            && (r == Err(QuoteExpired) <==> paid && total <= l.maxReservation && total <= o.sponsorBalance && !inTime)
            && (r.Ok? ==> QuoteReads(p, r.value, name, raw.(name := name), l, ttlMs, startedAt, o, fee))
  {
    hide Accepts, Builder.SeparateAddresses, Admissible, Underway, ValidLimits, ValidObservation, PrepareNormalized, NormalizeName, QuoteReads;
    assert ValidLabel(name) by { NormalizeStable(raw.name); NormalizedExactly(name); }
    NormalizedExactlyPrepared(p, raw.(name := name), l, ttlMs, startedAt, o, seenBy, fee, done);
    UnderwayExactly(p, name, raw, l, ttlMs, startedAt, o, seenBy);
    var r := PrepareSponsoredQuote(p, raw, l, ttlMs, startedAt, Ok(o), seenBy, Some(fee), done);
    if r.Ok? { ReadsMade(p, raw.(name := name), l, ttlMs, startedAt, o, seenBy, fee, done); }
  }

  /** Every check before the fee, as the code makes them. */
  predicate Begun(p: Policy, r: Request, l: Limits, ttlMs: int, startedAt: int, o: Observation, seenBy: int) {
    && ValidLimits(l, ttlMs) && SafeCounter(startedAt) && SafeCounter(startedAt + ttlMs) && ValidObservation(o, r, startedAt, seenBy)
    && o.registrationPrice <= l.maxRegistrationPrice && Admissible(p, BuildInput(r, o))
  }

  lemma UnderwayExactly(p: Policy, name: string, raw: Request, l: Limits, ttlMs: int, startedAt: int, o: Observation, seenBy: int)
    requires ValidLabel(name)
    ensures Underway(p, name, raw, l, ttlMs, startedAt, o, seenBy) <==> Begun(p, raw.(name := name), l, ttlMs, startedAt, o, seenBy)
  {
    hide Admissible, PartiesApart, ValidLabel;
    assert BuildInput(raw.(name := name), o) == Asked(name, raw, o);
    AdmissibleExactly(p, Asked(name, raw, o));
  }

  lemma NormalizedExactlyPrepared(p: Policy, r: Request, l: Limits, ttlMs: int, startedAt: int, o: Observation, seenBy: int, fee: int, done: int)
    requires Builder.SeparateAddresses(p, BuildInput(r, o))
    ensures var q := PrepareNormalized(p, r, l, ttlMs, startedAt, Ok(o), seenBy, Some(fee), done);
            var paid := Begun(p, r, l, ttlMs, startedAt, o, seenBy) && Positive(fee) && fee <= l.maxTransactionFee;
            var total := Total(o, l, fee); var inTime := startedAt <= done < startedAt + ttlMs;
            && (q.Ok? <==> paid && total <= l.maxReservation && total <= o.sponsorBalance && inTime)
            && (paid && total > l.maxReservation ==> q == Err(CostLimit))
            && (q == Err(InsufficientSponsorBalance) <==> paid && o.sponsorBalance < total <= l.maxReservation)
            && (q == Err(QuoteExpired) <==> paid && total <= l.maxReservation && total <= o.sponsorBalance && !inTime)
  {
    hide Accepts, Builder.SeparateAddresses, Admissible, BuiltMessage, UnsignedPacket, ValidLimits, ValidObservation, BuildInput;
    BuiltMessageAccepted(p, BuildInput(r, o));
  }

  lemma ReadsMade(p: Policy, r: Request, l: Limits, ttlMs: int, startedAt: int, o: Observation, seenBy: int, fee: int, done: int)
    requires PrepareNormalized(p, r, l, ttlMs, startedAt, Ok(o), seenBy, Some(fee), done).Ok?
    ensures QuoteReads(p, PrepareNormalized(p, r, l, ttlMs, startedAt, Ok(o), seenBy, Some(fee), done).value, r.name, r, l, ttlMs, startedAt, o, fee)
  {
    hide Accepts, BuiltMessage, UnsignedPacket, ValidLimits, ValidObservation, Positive, SafeCounter, PacketWraps;
    WrapsExactly(PrepareNormalized(p, r, l, ttlMs, startedAt, Ok(o), seenBy, Some(fee), done).value);
  }

  lemma AdmissibleExactly(p: Policy, e: Input)
    ensures Admissible(p, e) <==> ValidLabel(e.name) && PartiesApart(p, e) && AmountsFit(e)
  {
    hide PartiesApart, Actors, Protected, ValidLabel, Distinct;
    PartiesExactly(p, e);
  }

  /** What stops a preparation before its fee is asked for. */
  lemma PreparationRefused(
    p: Policy, raw: Request, l: Limits, ttlMs: int, startedAt: int, observed: Result<Observation>, seenBy: int, fee: Option<int>, done: int)
    ensures var r := PrepareSponsoredQuote(p, raw, l, ttlMs, startedAt, observed, seenBy, fee, done); var named := NormalizeName(raw.name);
            && (r == Err(InvalidName) <==> named == None || (Preparable(l, ttlMs, startedAt) && observed == Err(InvalidName)))
            && (named != None && !Preparable(l, ttlMs, startedAt) ==> r == Err(InvalidLimits))
            && (named != None && Preparable(l, ttlMs, startedAt) && observed.Err? ==> r == Err(observed.error))
            && (named != None && Preparable(l, ttlMs, startedAt) && observed.Ok? && !Answers(observed.value, named.value, raw, startedAt, seenBy) ==>
                  r == Err(InvalidObservation))
            && (named != None && Preparable(l, ttlMs, startedAt) && observed.Ok? && Answers(observed.value, named.value, raw, startedAt, seenBy) ==>
                  observed.value.registrationPrice > l.maxRegistrationPrice ==> r == Err(CostLimit))
            && (r.Ok? ==> observed.Ok? && fee.Some?)
  {
    hide Accepts, BuiltMessage, UnsignedPacket, NormalizeName;
  }
}
