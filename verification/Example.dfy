/**
 * One concrete history from the empty tables: a registration settled on accepted evidence
 * and a recovery opened, leased and signed. The theorems about reachable states and
 * settlements apply to it, and each promise the code leaves to its callers gives way in it.
 *
 * Parties, texts and rows are functions, each step of the history is a lemma about one
 * transaction on them, and StepReaches and PresentReaches join the steps.
 */
module Example {
  import opened Basics
  import opened Registry
  import opened Wire
  import opened SponsoredMessage
  import opened Quotes
  import opened Database
  import opened Invariant
  import opened CampaignTx
  import opened ExecutionTx
  import opened Steps
  import opened Reachable
  import opened Receipts
  import opened VerifiedRuns
  import opened Accounting
  import opened AuditClean
  import opened AuditRuns
  import opened MessageTerms
  import Builder
  import Checks

  // -------------------------------------------------------------------- the parties

  function K(i: Byte): Key {
    seq(32, _ => i)
  }

  function SponsorKey(): Key {
    K(11)
  }

  function PayerKey(): Key {
    K(12)
  }

  function UserKey(): Key {
    K(13)
  }

  function ReceiverKey(): Key {
    K(2)
  }

  /** An address book in which everything differs; this one decodes nothing. */
  ghost function Undecoded(): Policy {
    Policy(
    "p", K(1), "sha", "config", ReceiverKey(), K(3), K(4), K(5), K(6),
    (name: string) => K(7), (k: Key) => if k == UserKey() then K(8) else K(9), (k: Key) => true, (k: Key) => k[0] as int,
    (b: seq<Byte>) => None)
  }

  function RegistrationInput(): Input {
    Input("cafe", SponsorKey(), PayerKey(), UserKey(), ReceiverKey(), 100, DOMAIN_RENT, 0, K(14))
  }

  ghost function RegistrationMessage(): seq<Byte> {
    NameIsBare();
    CanonicalMessage(Undecoded(), RegistrationInput())
  }

  /** The accounts of the registration and of the sweep, as the chain lists them. */
  function RegisteredKeys(): seq<Key> {
    [SponsorKey(), PayerKey(), UserKey(), ReceiverKey(), K(7), K(8)]
  }

  function SweptKeys(): seq<Key> {
    [SponsorKey(), PayerKey(), K(4), K(5)]
  }

  /** The same book with a decoder: [1] is the signed registration, [0] the signed sweep. */
  ghost function Book(): Policy {
    Undecoded().(decode := (b: seq<Byte>) =>
    if b == [1] then Some(SignedTransaction(RegistrationMessage(), RegisteredKeys(), true))
    else if b == [0] then Some(SignedTransaction([], SweptKeys(), true)) else None)
  }

  /** Keys of different bytes differ. */
  lemma FirstBytes()
    ensures forall i: Byte :: K(i)[0] == i
  {
  }

  lemma InputAdmissible()
    ensures Admissible(Book(), RegistrationInput())
  {
    hide CanonicalMessage, K;
    FirstBytes();
    assert Book().primaryPda(UserKey()) == K(8) && Book().primaryPda(PayerKey()) == K(9) && Book().domainPda("cafe") == K(7);
  }

  lemma BookSeparates()
    ensures Builder.SeparateAddresses(Book(), RegistrationInput())
  {
    hide CanonicalMessage, K;
    FirstBytes();
    assert Book().primaryPda(UserKey()) == K(8) && Book().domainPda("cafe") == K(7);
  }

  /** The decoder plays no part in the message. */
  lemma MessageIgnoresDecoder(p: Policy, e: Input, decode: seq<Byte> -> Option<SignedTransaction>)
    requires ValidLabel(e.name)
    ensures CanonicalMessage(p.(decode := decode), e) == CanonicalMessage(p, e)
  {
    hide EncodeInstructions, EncodeKeys, EncodeLength, TransferData, SortByRank;
    var q := p.(decode := decode);
    InstructionsIndexed(p, e);
    InstructionsIndexed(q, e);
    assert AccountKeys(q, e) == AccountKeys(p, e);
    assert Instructions(q, e) == Instructions(p, e);
  }

  // ---------------------------------------------------------------------- the quote

  function CampaignLimits(): Limits {
    Limits(1_000, 10, 20, 2_000_000)
  }
  const RESERVATION := 1_928_045
  function CampaignTerms(): Terms {
    Terms(SponsorKey(), "p", CampaignLimits())
  }

  function QuoteRequest(): Request {
    Request("cafe", SponsorKey(), UserKey(), PayerKey())
  }

  function QuoteObservation(): Observation {
    Observation(
    "cafe", SponsorKey(), PayerKey(), UserKey(), ReceiverKey(), 100, DOMAIN_RENT, 0, 10_000_000,
    K(14), 1_000, 10, 10, 5_000, K(1), "config", "sha", "p")
  }

  ghost function StoredQuote(): SponsoredQuote {
    SponsoredQuote(
    1, "cafe", SponsorKey(), PayerKey(), UserKey(), ReceiverKey(), "p", K(1), "sha", "config", 10, 10, 5_000, 65_000, K(14), 1_000,
    Sha256(RegistrationMessage()), RegistrationMessage(), UnsignedPacket(RegistrationMessage()), Expected(K(7), UserKey(), K(8), "cafe"),
    Cost(100, DOMAIN_RENT, 0, 5, 20, 1_928_025, RESERVATION))
  }

  lemma NameIsBare()
    ensures ValidLabel("cafe") && NormalizeName("cafe") == Some("cafe")
  {
    hide NormalizeName, Trim, LowerCase;
    NormalizedExactly("cafe");
  }

  lemma QuotePrepared()
    ensures PrepareSponsoredQuote(Book(), QuoteRequest(), CampaignLimits(), 60_000, 5_000, Ok(QuoteObservation()), 5_001, Some(5), 5_002)
         == Ok(StoredQuote())
  {
    hide CanonicalMessage, BuiltMessage, Admissible, Builder.SeparateAddresses, K, UnsignedPacket, NormalizeName, ValidLabel;
    NameIsBare();
    InputAdmissible();
    BookSeparates();
    BuiltMessageAccepted(Book(), RegistrationInput());
    MessageIgnoresDecoder(Undecoded(), RegistrationInput(), Book().decode);
    assert Book() == Undecoded().(decode := Book().decode);
    assert BuildInput(QuoteRequest(), QuoteObservation()) == RegistrationInput();
  }

  /** Its window, to the millisecond. */
  lemma QuoteStorable(now: int)
    ensures ValidateStoredQuote(Book(), StoredQuote(), CampaignTerms(), UserKey(), now)
         == if 4_000 <= now < 65_000 then Some(RESERVATION) else None
  {
    hide CanonicalMessage, ValidateStoredQuote, K, UnsignedPacket, PrepareSponsoredQuote;
    QuotePrepared();
    PreparedQuotesAreStorable(Book(), QuoteRequest(), CampaignTerms(), 60_000, 5_000, QuoteObservation(), 5_001, Some(5), 5_002, 5_000);
    PreparedWindow(now);
  }

  lemma PreparedWindow(now: int)
    requires ValidateStoredQuote(Book(), StoredQuote(), CampaignTerms(), UserKey(), 5_000) == Some(RESERVATION)
    ensures ValidateStoredQuote(Book(), StoredQuote(), CampaignTerms(), UserKey(), now)
         == if 4_000 <= now < 65_000 then Some(RESERVATION) else None
  {
    hide CanonicalMessage, Accepts, K, UnsignedPacket, Base64Length, CostWithin, ExpectedAccounts;
  }

  // ----------------------------------------------------------------------- the rows

  ghost function OpenCampaign(): Campaign {
    Campaign(Active, 0, 1_000_000, "p", SponsorKey(), CampaignLimits(), 4_000_000, 0, 0, 1, 0, 0, "pilot", "Pilot")
  }

  ghost function OpenInvite(): Invite {
    Invite(0, 1, UserKey(), Open, 900_000, None)
  }

  ghost function OpenSession(): Session {
    Session(0, 2, 900_000, false)
  }

  ghost function LiveRow(): QuoteRow {
    QuoteRow(0, 0, UserKey(), "cafe", StoredQuote(), Some("key"), Quoted, 65_000)
  }

  ghost function FreshAttempt(): Attempt {
    NewAttempt(0, LiveRow(), RESERVATION, "once")
  }

  ghost function ReserveEntry(): Entry {
    Entry(0, 0, None, Reserve, RESERVATION, None)
  }

  ghost function FreshRegistration(): Operation {
    NewRegistration(0, 0, FreshAttempt(), StoredQuote(), [9])
  }

  ghost function SignedRegistration(): Operation {
    FreshRegistration().(
    status := Signed, signedPayload := Some(Sealed(0, SignedPurpose, [1])), signature := Some("first"), userPayload := None)
  }

  ghost function SignedAttempt(): Attempt {
    FreshAttempt().(status := Signed, signature := Some("first"))
  }

  /** Forty of the hundred units quoted were not needed. */
  ghost function RegistrationOutcome(): Settlement {
    Settlement(true, 5, 1_928_025, 0, 40, 50)
  }

  ghost function CampaignAfter(): Campaign {
    OpenCampaign().(reserved := 20, spent := 1_928_025, consumedUsers := 1)
  }

  ghost function InviteAfter(): Invite {
    OpenInvite().(status := Consumed, active := Some(0))
  }

  ghost function AttemptAfter(): Attempt {
    SignedAttempt().(status := Finalized, remaining := 20, cost := 1_928_025, residual := Some(40), slot := Some(50))
  }

  ghost function RegistrationAfter(): Operation {
    SettledOperation(SignedRegistration(), RegistrationOutcome())
  }

  ghost function EntriesAfter(): seq<Entry> {
    [
    ReserveEntry(), Entry(0, 0, Some(0), Debit, 1_928_020, Some("first")), Entry(0, 0, Some(0), Fee, 5, Some("first"))]
  }

  function SweepInput(): RecoveryInput {
    RecoveryInput(40, 10, K(14), 2_000, Sha256([]), [], 11_000)
  }

  ghost function FreshRecovery(): Operation {
    NewRecovery(0, AttemptAfter(), SweepInput())
  }

  ghost function SignedRecovery(): Operation {
    FreshRecovery().(
    status := Signed, signedPayload := Some(Sealed(1, SignedPurpose, [0])), signature := Some("second"), userPayload := None)
  }

  function FirstLease(): Lease {
    Lease(0, 0, 7, 1)
  }

  function SecondLease(): Lease {
    Lease(1, 1, 7, 1)
  }

  ghost function DbDrafted(): Db {
    Db([OpenCampaign().(status := Draft)], [], [], [], [], [], map[], 0, [])
  }

  ghost function DbActive(): Db {
    Db([OpenCampaign()], [], [], [], [], [], map[], 0, [])
  }

  ghost function DbInvited(): Db {
    Db([OpenCampaign()], [OpenInvite()], [], [], [], [], map[], 0, [])
  }

  ghost function DbEntered(): Db {
    Db([OpenCampaign()], [OpenInvite()], [OpenSession()], [], [], [], map[], 0, [])
  }

  ghost function DbQuoted(): Db {
    Db([OpenCampaign()], [OpenInvite()], [OpenSession()], [LiveRow()], [], [], map[], 0, [])
  }

  ghost function DbReserved(): Db {
    Db(
    [OpenCampaign().(reserved := RESERVATION, reservedUsers := 1)], [OpenInvite().(active := Some(0))], [OpenSession()],
    [LiveRow().(status := Held, payerKey := None)], [FreshAttempt()], [], map[], 0, [ReserveEntry()])
  }

  /** One operation authorized, under this job. */
  ghost function Authorized(op: Operation, a: Attempt, j: Job): Db {
    DbReserved().(attempts := [a], operations := [op], jobs := map[0 := j], nextJob := 1)
  }

  ghost function DbAuthorized(): Db {
    Authorized(FreshRegistration(), FreshAttempt().(status := Signing), Job(0, 7_000, None, 0))
  }

  ghost function DbClaimed(): Db {
    Authorized(FreshRegistration(), FreshAttempt().(status := Signing), Job(0, 7_000, Some(Hold(7, 53_000)), 1))
  }

  ghost function DbPersisted(): Db {
    Authorized(SignedRegistration(), SignedAttempt(), Job(0, 7_000, Some(Hold(7, 53_000)), 1))
  }

  ghost function DbRegistered(): Db {
    Db(
    [CampaignAfter()], [InviteAfter()], [OpenSession()], [LiveRow().(status := Held, payerKey := None)], [AttemptAfter()],
    [RegistrationAfter()], map[], 1, EntriesAfter())
  }

  /** The sweep of the residual, under its job. */
  ghost function Sweeping(op: Operation, j: Job): Db {
    DbRegistered().(operations := [RegistrationAfter(), op], jobs := map[1 := j], nextJob := 2)
  }

  ghost function DbOpened(): Db {
    Sweeping(FreshRecovery(), Job(1, 11_000, None, 0))
  }

  ghost function DbLeased(): Db {
    Sweeping(FreshRecovery(), Job(1, 11_000, Some(Hold(7, 57_000)), 1))
  }

  ghost function DbSigned(): Db {
    Sweeping(SignedRecovery(), Job(1, 11_000, Some(Hold(7, 57_000)), 1))
  }

  // ---------------------------------------------------------------------- the steps

  lemma PolicyFacts()
    ensures Book().id == "p" && forall k: Key :: Book().onCurve(k)
    ensures SponsorKey() != UserKey()
  {
    hide CanonicalMessage, K;
    FirstBytes();
  }

  lemma QuoteFacts()
    ensures StoredQuote().name == "cafe" && StoredQuote().sponsor == SponsorKey() && StoredQuote().attemptPayer == PayerKey()
    ensures StoredQuote().policyId == "p" && StoredQuote().user == UserKey()
    ensures StoredQuote().expiresAtMs == 65_000 && StoredQuote().lastValidBlockHeight == 1_000
    ensures StoredQuote().cost == Cost(100, DOMAIN_RENT, 0, 5, 20, 1_928_025, RESERVATION)
  {
    hide RegistrationMessage;
  }

  function PilotCampaign(): NewCampaign {
    NewCampaign("pilot", "Pilot", SponsorKey(), CampaignLimits(), 0, 1_000_000, 1, 4_000_000)
  }

  lemma CampaignTexts()
    ensures ValidSlug("pilot") && ValidDisplayName("Pilot")
  {
    assert Trim("Pilot") == "Pilot";
    assert Units("Pilot"[1..][1..]) == 3;
  }

  lemma CampaignStarts()
    ensures ForeignKeys(EMPTY)
    ensures Apply(Book(), EMPTY, DoCreateCampaign(PilotCampaign()), 0)
         == DbDrafted()
  {
    hide CanonicalMessage, K, Book, ValidSlug, ValidDisplayName;
    CampaignTexts();
    PolicyFacts();
  }

  lemma CampaignOpens()
    requires ForeignKeys(DbDrafted())
    ensures Apply(Book(), DbDrafted(), DoSetStatus(0, Active), 1) == DbActive()
  {
    hide K, Book, ForeignKeys;
  }

  lemma InviteIssued()
    requires ForeignKeys(DbActive())
    ensures Apply(Book(), DbActive(), DoIssueInvite(0, UserKey(), 900_000, 1), 10) == DbInvited()
  {
    hide K, Book, ForeignKeys, UserKey, SponsorKey;
    PolicyFacts();
  }

  lemma SessionOpened()
    requires ForeignKeys(DbInvited())
    ensures Apply(Book(), DbInvited(), DoExchangeInvite(1, 2), 20) == DbEntered()
  {
    hide K, Book, ForeignKeys, UserKey, SponsorKey;
    PolicyFacts();
  }

  lemma QuoteSaved()
    requires ForeignKeys(DbEntered())
    ensures Apply(Book(), DbEntered(), DoSaveQuote(2, StoredQuote(), "key"), 5_100)
         == DbQuoted()
  {
    hide K, Book, ForeignKeys, UserKey, SponsorKey, StoredQuote, RegistrationMessage, ValidateStoredQuote;
    PolicyFacts();
    QuoteFacts();
    QuoteStorable(5_100);
    assert TermsOf(OpenCampaign()) == CampaignTerms();
  }

  lemma AttemptReserved()
    requires ForeignKeys(DbQuoted())
    ensures Apply(Book(), DbQuoted(), DoReserveAttempt(2, 0, "once"), 5_200) == DbReserved()
  {
    hide K, Book, ForeignKeys, UserKey, SponsorKey, StoredQuote, RegistrationMessage, ValidateStoredQuote, NewAttempt;
    PolicyFacts();
    QuoteFacts();
    QuoteStorable(5_200);
    assert TermsOf(OpenCampaign()) == CampaignTerms();
  }

  function FreshPreflight(): Preflight {
    Preflight(6_900, 12, 900, 5, 9_000_000)
  }

  ghost function UserConsent(v: Preflight): Authorization {
    Authorization(StoredQuote().messageSha256, [9], v)
  }

  lemma AttemptAuthorized()
    requires ForeignKeys(DbReserved())
    ensures Apply(Book(), DbReserved(), DoAuthorize(2, 0, UserConsent(FreshPreflight())), 7_000) == DbAuthorized()
  {
    hide K, Book, ForeignKeys, UserKey, SponsorKey, StoredQuote, RegistrationMessage, NewRegistration;
    PolicyFacts();
    QuoteFacts();
  }

  lemma RegistrationClaimed()
    requires ForeignKeys(DbAuthorized())
    ensures Apply(Book(), DbAuthorized(), DoClaimJob(7, 0, None), 8_000) == DbClaimed()
  {
    hide K, Book, ForeignKeys, UserKey, SponsorKey, StoredQuote, RegistrationMessage, OpenCampaign, OpenInvite, OpenSession, LiveRow,
         FreshAttempt, ReserveEntry, FreshRegistration, SignedRegistration, SignedAttempt, DbReserved;
  }

  ghost function FirstInput(): SignedInput {
    SignedInput([1], "first", StoredQuote().messageSha256)
  }

  lemma RegistrationSigned()
    requires ForeignKeys(DbClaimed())
    ensures Apply(Book(), DbClaimed(), DoPersistSigned(FirstLease(), FirstInput()), 9_000) == DbPersisted()
  {
    hide K, Book, ForeignKeys, UserKey, SponsorKey, StoredQuote, RegistrationMessage, OpenCampaign, OpenInvite, OpenSession, LiveRow,
         FreshAttempt, ReserveEntry;
    QuoteFacts();
  }

  /** The chain's account of the registration: sixty of the hundred units reached the registry. */
  function RegistrationReceipt(): Receipt {
    Receipt([1], 50, false, 5, RegisteredKeys(),
    [10_000_000, 0, 50, 1, 0, 0], [10_000_000 - 1_928_025, 40, 50, 61, DOMAIN_RENT, 0])
  }

  function RegistrationSeen(): ChainObservation {
    ChainObservation(Final, Some(RegistrationReceipt()), 51, 40, Some(UserKey()), Some(UserKey()), Some("cafe"), 1_500)
  }

  ghost function RegistrationTerms(): Case {
    Case(Registration, 5, 1_928_025, Sha256(RegistrationMessage()), SponsorKey(), PayerKey(), StoredQuote())
  }

  lemma RegistrationCase()
    requires ForeignKeys(DbPersisted())
    ensures CaseOf(DbPersisted(), 0) == RegistrationTerms()
  {
    hide K, Book, ForeignKeys, UserKey, SponsorKey, RegistrationMessage;
  }

  lemma RegistrationEvidence()
    ensures VerifySettlement(Book(), RegistrationTerms(), RegistrationSeen(), [1]) == Some(RegistrationOutcome())
  {
    hide RegistrationMessage, K, StoredQuote, Book, IndexOf, RegistrationSettlement, SponsorKey, PayerKey, UserKey;
    RegisteredPositions();
    RegistrationAmounts();
    Decoded();
  }

  lemma Decoded()
    ensures Book().decode([1]) == Some(SignedTransaction(RegistrationMessage(), RegisteredKeys(), true))
    ensures Book().decode([0]) == Some(SignedTransaction([], SweptKeys(), true))
  {
    hide RegistrationMessage, RegisteredKeys, SweptKeys;
    var one: seq<Byte>, zero: seq<Byte> := [1], [0];
    assert one[0] != zero[0];
  }

  lemma RegistrationAmounts()
    ensures RegistrationSettlement(RegistrationTerms(), RegistrationReceipt(), RegistrationSeen(), 0, 1) == Some(RegistrationOutcome())
  {
    hide RegistrationMessage, K, IndexOf, UnsignedPacket, Book;
    RegisteredPositions();
  }

  lemma RegisteredPositions()
    ensures IndexOf(RegisteredKeys(), SponsorKey()) == 0 && IndexOf(RegisteredKeys(), PayerKey()) == 1
    ensures IndexOf(RegisteredKeys(), UserKey()) == 2
    ensures IndexOf(RegisteredKeys(), ReceiverKey()) == 3 && IndexOf(RegisteredKeys(), K(7)) == 4 && IndexOf(RegisteredKeys(), K(8)) == 5
  {
    hide K;
    FirstBytes();
  }

  lemma RegistrationSettled()
    requires ForeignKeys(DbPersisted())
    ensures Settle(DbPersisted(), FirstLease(), RegistrationOutcome(), 10_000) == Commit(DbRegistered(), ())
  {
    hide K, Book, ForeignKeys, UserKey, SponsorKey, StoredQuote, RegistrationMessage, OpenSession, SettledOperation;
    QuoteFacts();
    var rows := SettlementEntries(SignedRegistration(), 0, SignedAttempt(), DbPersisted().campaigns[0], RegistrationOutcome());
    assert rows == [Entry(0, 0, Some(0), Debit, 1_928_020, Some("first")), Entry(0, 0, Some(0), Fee, 5, Some("first"))];
    assert [ReserveEntry()] + rows == EntriesAfter();
  }

  lemma RegistrationFacts()
    ensures RegistrationAfter().signature == Some("first") && RegistrationAfter().kind.Registration? && Settled(RegistrationAfter())
    ensures RegistrationAfter().attempt == 0 && RegistrationAfter().campaign == 0
  {
    hide StoredQuote;
  }

  lemma SweepOpened()
    requires ForeignKeys(DbRegistered())
    ensures Apply(Book(), DbRegistered(), DoReserveRecovery(0, SweepInput()), 11_000) == DbOpened()
  {
    hide K, Book, ForeignKeys, UserKey, SponsorKey, StoredQuote, RegistrationMessage, OpenSession, EntriesAfter;
    QuoteFacts();
    assert [RegistrationAfter()] + [FreshRecovery()] == [RegistrationAfter(), FreshRecovery()];
  }

  lemma SweepClaimed()
    requires ForeignKeys(DbOpened())
    ensures Apply(Book(), DbOpened(), DoClaimJob(7, 1, None), 12_000) == DbLeased()
  {
    hide K, Book, ForeignKeys, UserKey, SponsorKey, StoredQuote, RegistrationMessage, OpenCampaign, OpenInvite, OpenSession, LiveRow,
         FreshAttempt, ReserveEntry, FreshRegistration, SignedRegistration, SignedAttempt, DbReserved, CampaignAfter, InviteAfter,
         AttemptAfter, RegistrationAfter, EntriesAfter, DbRegistered, FreshRecovery;
  }

  function SecondInput(): SignedInput {
    SignedInput([0], "second", Sha256([]))
  }

  lemma SweepSigned()
    requires ForeignKeys(DbLeased())
    ensures Apply(Book(), DbLeased(), DoPersistSigned(SecondLease(), SecondInput()), 13_000) == DbSigned()
  {
    hide K, Book, ForeignKeys, UserKey, SponsorKey, StoredQuote, RegistrationMessage, OpenCampaign, OpenInvite, OpenSession, LiveRow,
         FreshAttempt, ReserveEntry, FreshRegistration, SignedRegistration, SignedAttempt, DbReserved, CampaignAfter, InviteAfter,
         EntriesAfter, RegistrationAfter, AttemptAfter;
    RegistrationFacts();
    assert [RegistrationAfter(), FreshRecovery()][1 := SignedRecovery()] == [RegistrationAfter(), SignedRecovery()];
  }

  // ---------------------------------------------------------------------- the history

  ghost function ReceiptsFiled(): seq<Filed> {
    [Filed(0, RegistrationTerms(), RegistrationReceipt())]
  }

  lemma HeldReached()
    ensures ForeignKeys(DbReserved()) && Reached(Book(), History(DbReserved(), []))
  {
    hide Book, Reached, Apply, ForeignKeys, K, StoredQuote, OpenCampaign, OpenInvite, OpenSession, LiveRow, DbReserved;
    hide DbDrafted, DbActive, DbInvited, DbEntered, DbQuoted;
    ReachedStart(Book());
    CampaignStarts();
    StepReaches(Book(), EMPTY, [], DoCreateCampaign(PilotCampaign()), 0,
      DbDrafted());
    CampaignOpens();
    StepReaches(Book(), DbDrafted(), [], DoSetStatus(0, Active), 1, DbActive());
    InviteIssued();
    StepReaches(Book(), DbActive(), [], DoIssueInvite(0, UserKey(), 900_000, 1), 10, DbInvited());
    SessionOpened();
    StepReaches(Book(), DbInvited(), [], DoExchangeInvite(1, 2), 20, DbEntered());
    QuoteSaved();
    StepReaches(Book(), DbEntered(), [], DoSaveQuote(2, StoredQuote(), "key"), 5_100,
      DbQuoted());
    AttemptReserved();
    StepReaches(Book(), DbQuoted(), [], DoReserveAttempt(2, 0, "once"), 5_200, DbReserved());
  }

  lemma SignedReached()
    ensures ForeignKeys(DbPersisted()) && Reached(Book(), History(DbPersisted(), []))
  {
    hide Book, Reached, Apply, ForeignKeys, K, StoredQuote, DbReserved, DbAuthorized, DbClaimed, DbPersisted;
    HeldReached();
    AttemptAuthorized();
    StepReaches(Book(), DbReserved(), [], DoAuthorize(2, 0, UserConsent(FreshPreflight())), 7_000, DbAuthorized());
    RegistrationClaimed();
    StepReaches(Book(), DbAuthorized(), [], DoClaimJob(7, 0, None), 8_000, DbClaimed());
    RegistrationSigned();
    StepReaches(Book(), DbClaimed(), [], DoPersistSigned(FirstLease(), FirstInput()), 9_000, DbPersisted());
  }

  lemma PersistedRow()
    ensures |DbPersisted().operations| == 1 && DbPersisted().operations[0].attempt == 0
    ensures |DbPersisted().attempts| == 1 && DbPersisted().attempts[0].slot.None?
  {
    hide StoredQuote;
  }

  lemma RegistrationReached()
    ensures ForeignKeys(DbRegistered()) && Reached(Book(), History(DbRegistered(), ReceiptsFiled()))
  {
    hide Book, Reached, ForeignKeys, K, DbPersisted, DbRegistered, RegistrationTerms, RegistrationSeen, RegistrationOutcome,
         RegistrationReceipt, Settle, VerifySettlement, CaseOf;
    SignedReached();
    PersistedRow();
    RegistrationCase();
    RegistrationEvidence();
    RegistrationSettled();
    SeenReceipt();
    PresentReaches(Book(), DbPersisted(), [], FirstLease(), RegistrationSeen(), [1], 10_000, RegistrationTerms(),
      RegistrationOutcome(), DbRegistered());
    assert ReceiptsFiled() == [] + [Filed(0, RegistrationTerms(), RegistrationReceipt())];
  }

  lemma SeenReceipt()
    ensures RegistrationSeen().receipt == Some(RegistrationReceipt())
  {
  }

  /** A reachable state with a settled registration and an open, leased and signed recovery. */
  lemma RecoveryReached()
    ensures ForeignKeys(DbSigned()) && Reached(Book(), History(DbSigned(), ReceiptsFiled()))
    ensures Good(Book(), DbSigned()) && Reconciled(DbSigned())
  {
    hide Book, Reached, Apply, ForeignKeys, K, DbRegistered, DbOpened, DbLeased, DbSigned, ReceiptsFiled, Good, Reconciled;
    RegistrationReached();
    SweepOpened();
    StepReaches(Book(), DbRegistered(), ReceiptsFiled(), DoReserveRecovery(0, SweepInput()), 11_000, DbOpened());
    SweepClaimed();
    StepReaches(Book(), DbOpened(), ReceiptsFiled(), DoClaimJob(7, 1, None), 12_000, DbLeased());
    SweepSigned();
    StepReaches(Book(), DbLeased(), ReceiptsFiled(), DoPersistSigned(SecondLease(), SecondInput()), 13_000, DbSigned());
    ReachedGood(Book(), History(DbSigned(), ReceiptsFiled()));
  }

  // ------------------------------------------------------- where the promises give way

  function SweepOutcome(): Settlement {
    Settlement(true, 8, 8, 40, 0, 60)
  }

  lemma SweepTables()
    ensures DbSigned().operations == [RegistrationAfter(), SignedRecovery()] && DbSigned().attempts == [AttemptAfter()]
    ensures DbSigned().campaigns == [CampaignAfter()] && DbSigned().invites == [InviteAfter()]
    ensures DbSigned().jobs == map[1 := Job(1, 11_000, Some(Hold(7, 57_000)), 1)]
  {
    hide RegistrationAfter, SignedRecovery, FreshRecovery, AttemptAfter, CampaignAfter, InviteAfter, OpenSession, LiveRow, EntriesAfter;
  }

  lemma SweepRows()
    ensures var op := SignedRecovery();
            && op.kind.Recovery? && op.attempt == 0 && op.campaign == 0 && op.status.Signed? && op.feeCap == 10 && op.amount == 40
            && op.signature.Some? && op.signedPayload.Some?
    ensures var a := AttemptAfter(); a.slot == Some(50) && a.invite == 0 && a.campaign == 0 && a.remaining == 20 && a.cost == 1_928_025
    ensures InviteAfter().active == Some(0)
  {
    hide StoredQuote;
  }

  lemma SweepFits()
    ensures EvidenceFits(SignedRecovery(), AttemptAfter(), CampaignAfter(), SweepOutcome())
    ensures !EvidenceFits(SignedRecovery(), AttemptAfter(), CampaignAfter(), Settlement(false, 8, 8, 0, 39, 60))
  {
    hide SignedRecovery, AttemptAfter, CampaignAfter;
    SweepRows();
  }

  /** The lease is current and the rows are these, so only the evidence decides. */
  lemma SweepDecided(v: Settlement)
    requires ForeignKeys(DbSigned()) && WellFormedSettlement(v)
    ensures Fenced(DbSigned(), SecondLease(), 14_000).None?
    ensures if EvidenceFits(SignedRecovery(), AttemptAfter(), CampaignAfter(), v) then Settle(DbSigned(), SecondLease(), v, 14_000).Commit?
            else Settle(DbSigned(), SecondLease(), v, 14_000) == Abort(EvidenceInvalid)
  {
    hide ForeignKeys, DbSigned, Settle, SignedRecovery, AttemptAfter, RegistrationAfter, CampaignAfter, InviteAfter, EvidenceFits;
    SweepTables();
    SweepRows();
    OpenDecided(DbSigned(), SecondLease(), v, 14_000);
  }

  lemma SweepRow()
    ensures |DbSigned().operations| == 2 && DbSigned().operations[1] == SignedRecovery()
    ensures |DbSigned().attempts| == 1 && DbSigned().attempts[0] == AttemptAfter()
  {
    hide DbSigned, SignedRecovery, AttemptAfter, RegistrationAfter, CampaignAfter, InviteAfter;
    SweepTables();
  }

  /** A reachable recovery, settled with a debit one above its fee: committed, and reported. */
  lemma DebitSlips()
    ensures ForeignKeys(DbSigned())
    ensures var t := Settle(DbSigned(), SecondLease(), SweepOutcome().(debit := 9), 14_000);
            t.Commit? && |t.db.campaigns| > 0 && Findings(SheetOf(t.db, 0)) != []
  {
    hide Book, Reached, ForeignKeys, DbSigned, Good, Reconciled, Settle, Findings, SheetOf, SignedRecovery, AttemptAfter, CampaignAfter;
    hide EvidenceFits, NotBefore;
    RecoveryReached();
    SweepRow();
    SweepRows();
    SweepFits();
    SweepDecided(SweepOutcome());
    DebitUnread(Book(), DbSigned(), SecondLease(), SweepOutcome(), 9, 14_000);
  }

  /** The same recovery, settled at a slot before the registration's: committed, and reported. */
  lemma SlotSlips()
    ensures ForeignKeys(DbSigned())
    ensures var t := Settle(DbSigned(), SecondLease(), SweepOutcome().(slot := 49), 14_000);
            t.Commit? && |t.db.campaigns| > 0 && Findings(SheetOf(t.db, 0)) != []
  {
    hide Book, Reached, ForeignKeys, DbSigned, Good, Reconciled, Settle, Findings, SheetOf, SignedRecovery, AttemptAfter, CampaignAfter;
    hide EvidenceFits;
    RecoveryReached();
    SweepRow();
    SweepRows();
    SweepFits();
    SweepDecided(SweepOutcome());
    SlotUnread(Book(), DbSigned(), SecondLease(), SweepOutcome(), 49, 14_000);
  }

  ghost function SweepTerms(): Case {
    Case(Recovery, 10, 40, Sha256([]), SponsorKey(), PayerKey(), StoredQuote())
  }

  lemma SweepCase()
    requires ForeignKeys(DbSigned())
    ensures CaseOf(DbSigned(), 1) == SweepTerms()
  {
    hide K, Book, ForeignKeys, UserKey, SponsorKey, StoredQuote, RegistrationMessage, EntriesAfter, RegistrationAfter;
    QuoteFacts();
  }

  /** The sweep failed while the payer held 39, not the 40 it was opened for. */
  function FailureReceipt(): Receipt {
    Receipt([0], 60, true, 8, SweptKeys(), [9_000_000, 39, 1, 1], [8_999_992, 39, 1, 1])
  }

  function FailureSeen(): ChainObservation {
    ChainObservation(Final, Some(FailureReceipt()), 60, 39, None, None, None, 1_500)
  }

  lemma FailureAccepted()
    ensures VerifySettlement(Book(), SweepTerms(), FailureSeen(), [0]) == Some(Settlement(false, 8, 8, 0, 39, 60))
  {
    hide RegistrationMessage, K, StoredQuote, Book, IndexOf, SponsorKey, PayerKey, UserKey;
    Decoded();
    SweptPositions();
  }

  lemma SweptPositions()
    ensures IndexOf(SweptKeys(), SponsorKey()) == 0 && IndexOf(SweptKeys(), PayerKey()) == 1
  {
    hide K;
    FirstBytes();
  }

  /** Accepted evidence, a current lease, a signed recovery, and the store still refuses. */
  lemma EvidenceRefused()
    ensures ForeignKeys(DbSigned()) && Fenced(DbSigned(), SecondLease(), 14_000).None?
    ensures var v := VerifySettlement(Book(), CaseOf(DbSigned(), 1), FailureSeen(), [0]);
            v.Some? && Settle(DbSigned(), SecondLease(), v.value, 14_000) == Abort(EvidenceInvalid)
  {
    hide Book, Reached, ForeignKeys, Good, Reconciled, CaseOf, VerifySettlement, DbSigned, SignedRecovery, AttemptAfter, CampaignAfter,
         Settle, SweepTerms, FailureSeen, EvidenceFits;
    RecoveryReached();
    SweepCase();
    FailureAccepted();
    SweepFits();
    SweepDecided(Settlement(false, 8, 8, 0, 39, 60));
  }

  function EarlyPreflight(): Preflight {
    Preflight(3_000, 12, 900, 5, 9_000_000)
  }

  /** A reachable reservation authorized at a clock two seconds before its quote was prepared. */
  lemma ClockStandsEarly()
    ensures ForeignKeys(DbReserved())
    ensures var t := Authorize(Book(), DbReserved(), 2, 0, UserConsent(EarlyPreflight()), 3_000);
            t.Commit? && t.db != DbReserved() && ValidateStoredQuote(Book(), StoredQuote(), CampaignTerms(), UserKey(), 3_000).None?
  {
    hide K, Book, ForeignKeys, UserKey, SponsorKey, StoredQuote, RegistrationMessage, NewRegistration, ValidateStoredQuote;
    HeldReached();
    PolicyFacts();
    QuoteFacts();
    QuoteStorable(3_000);
  }

  /** The settled registration's sweep, opened under a block height no row may carry. */
  lemma HeightSlips()
    ensures ForeignKeys(DbRegistered())
    ensures var db' := After(DbRegistered(), ReserveRecovery(DbRegistered(), 0, SweepInput().(lastValidBlockHeight := -1), 11_000));
            |db'.operations| == 2 && db'.operations[1].lastValidBlockHeight == -1
  {
    hide Book, Reached, ForeignKeys, K, DbRegistered, DbOpened, ReserveRecovery, ReceiptsFiled, SweepInput;
    RegistrationReached();
    SweepOpened();
    SweepAdds();
    Checks.Recovers(Book(), DbRegistered(), DoReserveRecovery(0, SweepInput()), 11_000);
    Checks.HeightUnread(DbRegistered(), 0, SweepInput(), 11_000, -1);
  }

  lemma SweepAdds()
    ensures |DbRegistered().operations| == 1 && |DbOpened().operations| == 2
  {
    hide RegistrationAfter, FreshRecovery, CampaignAfter, InviteAfter, OpenSession, LiveRow, AttemptAfter, EntriesAfter;
  }

  /** One message, two inputs. */
  lemma SplitSlips()
    ensures Accepts(Book(), RegistrationMessage(), RegistrationInput())
    ensures Accepts(Book(), RegistrationMessage(), RegistrationInput().(registrationPrice := 101, domainRent := DOMAIN_RENT - 1))
  {
    hide CanonicalMessage, BuiltMessage, Admissible, Builder.SeparateAddresses, K;
    InputAdmissible();
    BookSeparates();
    BuiltMessageAccepted(Book(), RegistrationInput());
    MessageIgnoresDecoder(Undecoded(), RegistrationInput(), Book().decode);
    assert Book() == Undecoded().(decode := Book().decode);
    SplitIsOpen(Book(), RegistrationMessage(), RegistrationInput());
  }
}
