/**
 * Quote preparation (src/lib/transactions/quote.ts:103-189) and the recheck of a stored
 * quote at reservation time (src/lib/campaigns/validation.ts:29-58).
 */
module Quotes {
  import opened Basics
  import opened Registry
  import opened Wire
  import opened SponsoredMessage
  import Builder

  datatype Cost = Cost(
    registrationPrice: int, domainRent: int, primaryRent: int, transactionFee: int,
    recoveryAllowance: int, maxSponsorDebit: int, maximumReservation: int)

  datatype Limits = Limits(maxRegistrationPrice: int, maxTransactionFee: int, recoveryAllowance: int, maxReservation: int)

  datatype Expected = Expected(domain: Key, owner: Key, primary: Key, primaryName: string)

  datatype SponsoredQuote = SponsoredQuote(
    version: int, name: string, sponsor: Key, attemptPayer: Key, user: Key, feeReceiver: Key,
    policyId: string, genesisHash: Key, programSha256: string, configSha256: string,
    observedSlot: int, blockhashContextSlot: int, preparedAtMs: int, expiresAtMs: int,
    blockhash: Key, lastValidBlockHeight: int,
    messageSha256: Digest, message: Bytes, unsignedTransaction: Bytes,
    expected: Expected, cost: Cost)

  /** The campaign columns a quote is checked against. */
  datatype Terms = Terms(sponsor: Key, policyVersion: string, limits: Limits)

  /** Five amounts, summed the way maximumReservation folds them. */
  function MaximumReservation(price: int, domainRent: int, primaryRent: int, fee: int, recovery: int): int {
    price + domainRent + primaryRent + fee + recovery
  }

  function MessageInput(q: SponsoredQuote, feeReceiver: Key): Input {
    Input(q.name, q.sponsor, q.attemptPayer, q.user, feeReceiver,
          q.cost.registrationPrice, q.cost.domainRent, q.cost.primaryRent, q.blockhash)
  }

  /** One zeroed slot for each of the three signatures, then the message. */
  function UnsignedPacket(message: Bytes): Bytes {
    [3] + seq(192, _ => 0) + message
  }

  predicate AmountsNative(c: Cost) {
    && NativeAmount(c.registrationPrice) && NativeAmount(c.domainRent) && NativeAmount(c.primaryRent)
    && NativeAmount(c.transactionFee) && NativeAmount(c.recoveryAllowance) && NativeAmount(c.maxSponsorDebit)
    && NativeAmount(c.maximumReservation)
  }

  /** The arithmetic a stored quote must satisfy under the campaign's limits. */
  predicate CostWithin(c: Cost, l: Limits) {
    && AmountsNative(c)
    && c.registrationPrice != 0 && c.transactionFee != 0 && c.recoveryAllowance != 0 && c.maximumReservation != 0
    && c.registrationPrice <= l.maxRegistrationPrice && c.transactionFee <= l.maxTransactionFee
    && c.recoveryAllowance == l.recoveryAllowance
    && c.domainRent == DOMAIN_RENT && (c.primaryRent == 0 || c.primaryRent == PRIMARY_RENT)
    && c.maxSponsorDebit == c.registrationPrice + c.domainRent + c.primaryRent + c.transactionFee
    && c.maximumReservation == c.maxSponsorDebit + c.recoveryAllowance
    && c.maximumReservation <= l.maxReservation
  }

  /** Base64 text of n bytes. */
  function Base64Length(n: nat): nat {
    (n + 2) / 3 * 4
  }

  predicate PinnedToPolicy(p: Policy, q: SponsoredQuote) {
    && q.policyId == p.id && q.genesisHash == p.genesisHash && q.programSha256 == p.programSha256
    && q.configSha256 == p.configSha256 && q.feeReceiver == p.feeReceiver
  }

  predicate WindowOpen(q: SponsoredQuote, now: int) {
    && SafeCounter(q.lastValidBlockHeight)
    && -MAX_SAFE_INTEGER <= q.preparedAtMs <= MAX_SAFE_INTEGER && -MAX_SAFE_INTEGER <= q.expiresAtMs <= MAX_SAFE_INTEGER
    && q.preparedAtMs - 1_000 <= now < q.expiresAtMs
    && 1_000 <= q.expiresAtMs - q.preparedAtMs <= 60_000
  }

  /** The label test stands for `name === normalizeName(name)` (Registry.NormalizedExactly). */
  predicate Headers(p: Policy, q: SponsoredQuote, t: Terms, wallet: Key, now: int) {
    && q.version == 1 && ValidLabel(q.name) && q.user == wallet && q.sponsor == t.sponsor
    && q.policyId == t.policyVersion && PinnedToPolicy(p, q) && WindowOpen(q, now)
    && CostWithin(q.cost, t.limits)
    && Base64Length(|q.message|) <= 1_648 && Base64Length(|q.unsignedTransaction|) <= 1_648
    && q.messageSha256 == Sha256(q.message)
    && q.unsignedTransaction == UnsignedPacket(q.message)
  }

  predicate ExpectedAccounts(p: Policy, q: SponsoredQuote, wallet: Key) {
    && q.expected.domain == p.domainPda(q.name) && q.expected.owner == wallet
    && q.expected.primary == p.primaryPda(wallet) && q.expected.primaryName == q.name
  }

  ghost predicate Storable(p: Policy, q: SponsoredQuote, t: Terms, wallet: Key, now: int) {
    && Headers(p, q, t, wallet, now)
    && Accepts(p, q.message, MessageInput(q, q.feeReceiver))
    && ExpectedAccounts(p, q, wallet)
  }

  /** The reservation a stored quote yields, or None when it is refused. */
  ghost function ValidateStoredQuote(p: Policy, q: SponsoredQuote, t: Terms, wallet: Key, now: int): Option<int> {
    if Storable(p, q, t, wallet, now) then Some(q.cost.maximumReservation) else None
  }

  method CheckStoredQuote(p: Policy, q: SponsoredQuote, t: Terms, wallet: Key, now: int) returns (r: Option<int>)
    ensures r == ValidateStoredQuote(p, q, t, wallet, now)
  {
    if !Headers(p, q, t, wallet, now) {
      return None;
    }
    var ok := ValidateSponsoredMessage(p, q.message, MessageInput(q, q.feeReceiver));
    if !ok || !ExpectedAccounts(p, q, wallet) {
      return None;
    }
    r := Some(q.cost.maximumReservation);
  }

  // -------------------------------------------------------------- preparation

  datatype QuoteError = InvalidName | InvalidLimits | InvalidObservation | CostLimit | InsufficientSponsorBalance
    | QuoteExpired | ChainUnavailable | InvalidMessage | NameUnavailable | WalletIneligible

  datatype Result<+T> = Ok(value: T) | Err(error: QuoteError)

  datatype Request = Request(name: string, sponsor: Key, user: Key, attemptPayer: Key)

  datatype Observation = Observation(
    name: string, sponsor: Key, attemptPayer: Key, user: Key, feeReceiver: Key,
    registrationPrice: int, domainRent: int, primaryRent: int, sponsorBalance: int,
    blockhash: Key, lastValidBlockHeight: int, observedSlot: int, blockhashContextSlot: int, observedAtMs: int,
    genesisHash: Key, configSha256: string, programSha256: string, policyId: string)

  predicate Positive(n: int) {
    NativeAmount(n) && n > 0
  }

  predicate ValidLimits(l: Limits, ttlMs: int) {
    && Positive(l.maxRegistrationPrice) && Positive(l.maxTransactionFee) && Positive(l.recoveryAllowance) && Positive(l.maxReservation)
    && 1_000 <= ttlMs <= 60_000
  }

  predicate ValidObservation(o: Observation, r: Request, startedAt: int, now: int) {
    && o.name == r.name && o.sponsor == r.sponsor && o.user == r.user && o.attemptPayer == r.attemptPayer
    && SafeCounter(o.observedSlot) && SafeCounter(o.lastValidBlockHeight) && SafeCounter(o.blockhashContextSlot)
    && o.observedSlot <= o.blockhashContextSlot
    && SafeCounter(o.observedAtMs) && startedAt <= o.observedAtMs <= now
    && Positive(o.registrationPrice) && Positive(o.domainRent) && NativeAmount(o.primaryRent) && NativeAmount(o.sponsorBalance)
  }

  function BuildInput(r: Request, o: Observation): Input {
    Input(r.name, r.sponsor, r.attemptPayer, r.user, o.feeReceiver, o.registrationPrice, o.domainRent, o.primaryRent, o.blockhash)
  }

  /** The compiled and serialized transaction message, when construction succeeds. */
  ghost function BuiltMessage(p: Policy, e: Input): Option<Bytes> {
    if !Admissible(p, e) then None
    else
      var c := Builder.Compile(p.rank, e.sponsor, Builder.Build(p, e));
      if c.Some? && AllIndexed(c.value.keys, c.value.instructions) && |c.value.instructions| < 256 then
        Some(EncodeMessage(c.value.header, c.value.keys, e.blockhash, c.value.instructions))
      else None
  }

  /** The chain reads are parameters: the registry observation, the message fee and the clock at each use. */
  ghost function PrepareNormalized(
    p: Policy, r: Request, l: Limits, ttlMs: int, startedAt: int, observed: Result<Observation>, observedBy: int,
    fee: Option<int>, completedAt: int): Result<SponsoredQuote>
  {
    if !ValidLimits(l, ttlMs) || !SafeCounter(startedAt) || !SafeCounter(startedAt + ttlMs) then Err(InvalidLimits)
    else if observed.Err? then Err(observed.error)
    else
      var o := observed.value;
      var e := BuildInput(r, o);
      var message := BuiltMessage(p, e);
      if !ValidObservation(o, r, startedAt, observedBy) then Err(InvalidObservation)
      else if o.registrationPrice > l.maxRegistrationPrice then Err(CostLimit)
      else if message.None? || !Accepts(p, message.value, e) then Err(InvalidMessage)
      else if fee.None? then Err(ChainUnavailable)
      else if !Positive(fee.value) then Err(InvalidObservation)
      else if fee.value > l.maxTransactionFee then Err(CostLimit)
      else
        var debit := o.registrationPrice + o.domainRent + o.primaryRent + fee.value;
        var reservation := debit + l.recoveryAllowance;
        if reservation > l.maxReservation then Err(CostLimit)
        else if o.sponsorBalance < reservation then Err(InsufficientSponsorBalance)
        else if !SafeCounter(completedAt) || completedAt < startedAt || completedAt >= startedAt + ttlMs then Err(QuoteExpired)
        else
          Ok(SponsoredQuote(1, r.name, r.sponsor, r.attemptPayer, r.user, o.feeReceiver, o.policyId, o.genesisHash,
            o.programSha256, o.configSha256, o.observedSlot, o.blockhashContextSlot, startedAt, startedAt + ttlMs,
            o.blockhash, o.lastValidBlockHeight, Sha256(message.value), message.value, UnsignedPacket(message.value),
            Expected(p.domainPda(r.name), r.user, p.primaryPda(r.user), r.name),
            Cost(o.registrationPrice, o.domainRent, o.primaryRent, fee.value, l.recoveryAllowance, debit, reservation)))
  }

  /** What a user asked for, prepared under the bare label it stands for. */
  ghost function PrepareSponsoredQuote(
    p: Policy, raw: Request, l: Limits, ttlMs: int, startedAt: int, observed: Result<Observation>, observedBy: int,
    fee: Option<int>, completedAt: int): Result<SponsoredQuote>
  {
    var bare := NormalizeName(raw.name);
    if bare.None? then Err(InvalidName)
    else PrepareNormalized(p, raw.(name := bare.value), l, ttlMs, startedAt, observed, observedBy, fee, completedAt)
  }

  /** The observation carries the pinned policy identity and rents. */
  predicate Conformant(p: Policy, o: Observation) {
    && o.policyId == p.id && o.genesisHash == p.genesisHash && o.programSha256 == p.programSha256
    && o.configSha256 == p.configSha256 && o.feeReceiver == p.feeReceiver
    && o.domainRent == DOMAIN_RENT && (o.primaryRent == 0 || o.primaryRent == PRIMARY_RENT)
  }

  /**
   * Whatever name was typed, every quote prepared from a policy-conformant observation
   * under the campaign's own limits carries that name's bare label and is accepted for
   * storage at every instant of its window, for exactly its maximum reservation, which is
   * a u64 within the campaign's per-pass limit.
   */
  lemma PreparedQuotesAreStorable(
    p: Policy, raw: Request, t: Terms, ttlMs: int, startedAt: int, o: Observation, observedBy: int,
    fee: Option<int>, completedAt: int, now: int)
    requires PrepareSponsoredQuote(p, raw, t.limits, ttlMs, startedAt, Ok(o), observedBy, fee, completedAt).Ok?
    requires Conformant(p, o) && raw.sponsor == t.sponsor && t.policyVersion == p.id
    requires startedAt - 1_000 <= now < startedAt + ttlMs
    ensures var q := PrepareSponsoredQuote(p, raw, t.limits, ttlMs, startedAt, Ok(o), observedBy, fee, completedAt).value;
            var sum := MaximumReservation(o.registrationPrice, o.domainRent, o.primaryRent, fee.value, t.limits.recoveryAllowance);
            && Some(q.name) == NormalizeName(raw.name)
            && ValidateStoredQuote(p, q, t, raw.user, now) == Some(sum)
            && NativeAmount(sum) && sum <= t.limits.maxReservation && sum <= o.sponsorBalance
  {
    hide PrepareNormalized, ValidateStoredQuote, ValidLabel;
    NormalizeStable(raw.name);
    NormalizedExactly(NormalizeName(raw.name).value);
    NormalizedStorable(p, raw.(name := NormalizeName(raw.name).value), t, ttlMs, startedAt, o, observedBy, fee, completedAt, now);
  }

  lemma NormalizedStorable(
    p: Policy, r: Request, t: Terms, ttlMs: int, startedAt: int, o: Observation, observedBy: int,
    fee: Option<int>, completedAt: int, now: int)
    requires PrepareNormalized(p, r, t.limits, ttlMs, startedAt, Ok(o), observedBy, fee, completedAt).Ok? && ValidLabel(r.name)
    requires Conformant(p, o) && r.sponsor == t.sponsor && t.policyVersion == p.id
    requires startedAt - 1_000 <= now < startedAt + ttlMs
    ensures var q := PrepareNormalized(p, r, t.limits, ttlMs, startedAt, Ok(o), observedBy, fee, completedAt).value;
            var sum := MaximumReservation(o.registrationPrice, o.domainRent, o.primaryRent, fee.value, t.limits.recoveryAllowance);
            && q.name == r.name && ValidateStoredQuote(p, q, t, r.user, now) == Some(sum)
            && NativeAmount(sum) && sum <= t.limits.maxReservation && sum <= o.sponsorBalance
  {
    hide Accepts, Headers, ExpectedAccounts, ValidateStoredQuote, BuiltMessage, UnsignedPacket, ValidLabel, Conformant, ValidObservation;
    var q := PrepareNormalized(p, r, t.limits, ttlMs, startedAt, Ok(o), observedBy, fee, completedAt).value;
    PreparedAccepted(p, r, t.limits, ttlMs, startedAt, o, observedBy, fee, completedAt);
    PreparedHeaders(p, r, t, ttlMs, startedAt, o, observedBy, fee, completedAt, now);
    PreparedTerms(p, r, t.limits, ttlMs, startedAt, o, observedBy, fee, completedAt);
    StorableFrom(p, q, t, r.user, now);
  }

  lemma StorableFrom(p: Policy, q: SponsoredQuote, t: Terms, wallet: Key, now: int)
    requires Headers(p, q, t, wallet, now) && Accepts(p, q.message, MessageInput(q, q.feeReceiver))
    requires ExpectedAccounts(p, q, wallet)
    ensures ValidateStoredQuote(p, q, t, wallet, now) == Some(q.cost.maximumReservation)
  {
  }

  lemma PreparedTerms(
    p: Policy, r: Request, l: Limits, ttlMs: int, startedAt: int, o: Observation, observedBy: int, fee: Option<int>, completedAt: int)
    requires PrepareNormalized(p, r, l, ttlMs, startedAt, Ok(o), observedBy, fee, completedAt).Ok?
    ensures var q := PrepareNormalized(p, r, l, ttlMs, startedAt, Ok(o), observedBy, fee, completedAt).value;
            && ExpectedAccounts(p, q, r.user) && fee.Some?
            && q.cost.maximumReservation
               == MaximumReservation(o.registrationPrice, o.domainRent, o.primaryRent, fee.value, l.recoveryAllowance)
            && 0 <= q.cost.maximumReservation <= l.maxReservation <= U64_MAX && q.cost.maximumReservation <= o.sponsorBalance
  {
    hide Accepts, BuiltMessage, UnsignedPacket, ValidLabel, SafeCounter, Base64Length, BuildInput;
  }

  lemma PreparedAccepted(
    p: Policy, r: Request, l: Limits, ttlMs: int, startedAt: int, o: Observation, observedBy: int, fee: Option<int>, completedAt: int)
    requires PrepareNormalized(p, r, l, ttlMs, startedAt, Ok(o), observedBy, fee, completedAt).Ok?
    ensures var q := PrepareNormalized(p, r, l, ttlMs, startedAt, Ok(o), observedBy, fee, completedAt).value;
            Accepts(p, q.message, MessageInput(q, q.feeReceiver))
  {
    hide Accepts, BuiltMessage, UnsignedPacket, ValidLabel, SafeCounter, Base64Length;
    var q := PrepareNormalized(p, r, l, ttlMs, startedAt, Ok(o), observedBy, fee, completedAt).value;
    assert MessageInput(q, q.feeReceiver) == BuildInput(r, o);
  }

  lemma PreparedHeaders(
    p: Policy, r: Request, t: Terms, ttlMs: int, startedAt: int, o: Observation, observedBy: int,
    fee: Option<int>, completedAt: int, now: int)
    requires PrepareNormalized(p, r, t.limits, ttlMs, startedAt, Ok(o), observedBy, fee, completedAt).Ok? && ValidLabel(r.name)
    requires Conformant(p, o) && r.sponsor == t.sponsor && t.policyVersion == p.id
    requires startedAt - 1_000 <= now < startedAt + ttlMs
    ensures Headers(p, PrepareNormalized(p, r, t.limits, ttlMs, startedAt, Ok(o), observedBy, fee, completedAt).value, t, r.user, now)
  {
    hide Accepts, BuiltMessage, UnsignedPacket, ValidLabel, Base64Length, CostWithin;
    var q := PrepareNormalized(p, r, t.limits, ttlMs, startedAt, Ok(o), observedBy, fee, completedAt).value;
    PreparedCosts(o, t.limits, fee.value, q.cost);
    PreparedSize(p, q.message, BuildInput(r, o));
  }

  lemma PreparedSize(p: Policy, message: Bytes, e: Input)
    requires Accepts(p, message, e)
    ensures Base64Length(|message|) <= 1_648 && Base64Length(|UnsignedPacket(message)|) <= 1_648
  {
    assert |UnsignedPacket(message)| == 193 + |message|;
  }

  lemma PreparedCosts(o: Observation, l: Limits, fee: int, c: Cost)
    requires ValidLimits(l, 1_000) && Positive(o.registrationPrice) && Positive(fee) && fee <= l.maxTransactionFee
    requires o.registrationPrice <= l.maxRegistrationPrice
    requires o.domainRent == DOMAIN_RENT && (o.primaryRent == 0 || o.primaryRent == PRIMARY_RENT)
    requires c.maxSponsorDebit == o.registrationPrice + o.domainRent + o.primaryRent + fee
    requires c == Cost(o.registrationPrice, o.domainRent, o.primaryRent, fee, l.recoveryAllowance,
                       c.maxSponsorDebit, c.maxSponsorDebit + l.recoveryAllowance)
    requires c.maximumReservation <= l.maxReservation
    ensures CostWithin(c, l)
  {
  }

  /** Outside its window, or under any other wallet or sponsor, the same quote is refused. */
  lemma WindowIsExact(p: Policy, q: SponsoredQuote, t: Terms, wallet: Key, before: int, now: int)
    requires ValidateStoredQuote(p, q, t, wallet, before).Some?
    ensures ValidateStoredQuote(p, q, t, wallet, now).Some? <==> q.preparedAtMs - 1_000 <= now < q.expiresAtMs
    ensures forall w: Key :: w != wallet ==> ValidateStoredQuote(p, q, t, w, now).None?
  {
  }

  // ------------------------------------------------------------- message size

  lemma InstructionLength(keys: seq<Key>, ix: Instruction)
    requires |keys| <= 256 && Indexed(keys, ix) && |ix.accounts| < 0x80 && |ix.data| < 0x80
    ensures |EncodeInstruction(keys, ix)| == 3 + |ix.accounts| + |ix.data|
  {
  }

  lemma {:induction false} InstructionsLength(keys: seq<Key>, ixs: seq<Instruction>)
    requires AllIndexed(keys, ixs)
    requires forall ix <- ixs :: |ix.accounts| <= 5 && |ix.data| <= 44
    ensures |EncodeInstructions(keys, ixs)| <= 52 * |ixs|
  {
    if ixs != [] {
      InstructionLength(keys, ixs[0]);
      InstructionsLength(keys, ixs[1..]);
    }
  }

  /** No admissible registration outgrows a packet: the size check of the builder never fires. */
  lemma CanonicalFits(p: Policy, e: Input)
    requires Admissible(p, e)
    ensures |CanonicalMessage(p, e)| + SIGNATURE_BYTES <= MAX_TRANSACTION_BYTES
  {
    hide AllIndexed, EncodeKeys, EncodeInstructions, AccountKeys, Instructions;
    InstructionsIndexed(p, e);
    InstructionsShort(p, e);
    InstructionsLength(AccountKeys(p, e), Instructions(p, e));
  }

  lemma InstructionsShort(p: Policy, e: Input)
    requires ValidLabel(e.name)
    ensures forall ix <- Instructions(p, e) :: |ix.accounts| <= 5 && |ix.data| <= 44
  {
    hide TransferData, LittleEndian, Ascii;
    assert |RegisterIx(p, e).data| == 12 + |e.name|;
    assert |TransferDomainIx(p, e).data| == 40;
  }

  /** Construction and validation agree on every admissible input: building never ends in invalid_message. */
  lemma BuiltMessageAccepted(p: Policy, e: Input)
    requires Builder.SeparateAddresses(p, e)
    ensures Admissible(p, e) <==> BuiltMessage(p, e).Some?
    ensures Admissible(p, e) ==> BuiltMessage(p, e) == Some(CanonicalMessage(p, e)) && Accepts(p, BuiltMessage(p, e).value, e)
  {
    if Admissible(p, e) {
      Builder.BuilderMeetsValidator(p, e);
      InstructionsIndexed(p, e);
      CanonicalFits(p, e);
    }
  }
}
