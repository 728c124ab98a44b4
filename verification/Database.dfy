/**
 * The tables both stores commit to (src/db/schema.ts) and the small lookups their
 * queries use. A row's identifier is its insertion position: a random UUID is only
 * ever a name that was not used before.
 */
module Database {
  import opened Basics
  import opened Quotes

  type Id = nat

  datatype CampaignStatus = Draft | Active | Paused | Ended
  datatype InviteStatus = Open | Revoked | Consumed
  datatype QuoteStatus = Quoted | Held | Lapsed

  /** Attempt and operation statuses; an operation is never `Prepared`. */
  datatype Status = Prepared | Signing | Signed | Submitted | BroadcastUnknown | Confirmed
    | Finalized | ManualReview | Complete | Failed | Expired

  datatype Kind = Registration | Recovery
  datatype EntryType = Reserve | Release | Debit | Fee | Recover

  datatype Campaign = Campaign(
    status: CampaignStatus, startsAt: int, endsAt: int, policyVersion: string, sponsor: Key, limits: Limits,
    cap: int, reserved: int, spent: int, maxUsers: int, reservedUsers: int, consumedUsers: int, slug: string, name: string)

  datatype Invite = Invite(campaign: Id, token: nat, wallet: Key, status: InviteStatus, expiresAt: int, active: Option<Id>)

  datatype Session = Session(invite: Id, token: nat, expiresAt: int, revoked: bool)

  datatype QuoteRow = QuoteRow(
    campaign: Id, invite: Id, wallet: Key, name: string, payload: SponsoredQuote, payerKey: Option<string>,
    status: QuoteStatus, expiresAt: int)

  datatype Attempt = Attempt(
    quote: Id, campaign: Id, invite: Id, wallet: Key, name: string, payer: Key, status: Status,
    reservation: int, remaining: int, cost: int, residual: Option<int>, slot: Option<int>,
    signature: Option<string>, payerKey: Option<string>, messageHash: Digest, unsigned: seq<Byte>,
    blockhash: Key, lastValidBlockHeight: int, expiresAt: int, idempotencyKey: string)

  /** Encrypted packet bytes, bound to one operation and purpose; only the right context opens them. */
  datatype Purpose = UserPurpose | SignedPurpose
  datatype Sealed = Sealed(operation: Id, purpose: Purpose, bytes: seq<Byte>)

  function Unseal(s: Sealed, operation: Id, purpose: Purpose): Option<seq<Byte>> {
    if s.operation == operation && s.purpose == purpose then Some(s.bytes) else None
  }

  datatype Evidence = Evidence(slot: int, success: bool, residual: int)

  datatype Operation = Operation(
    attempt: Id, campaign: Id, kind: Kind, status: Status, messageHash: Digest, message: seq<Byte>,
    userPayload: Option<Sealed>, signedPayload: Option<Sealed>, signature: Option<string>,
    blockhash: Key, lastValidBlockHeight: int, feeCap: int, amount: int,
    fee: Option<int>, debit: Option<int>, recovered: Option<int>, evidence: Option<Evidence>)

  datatype Hold = Hold(owner: nat, expiresAt: int)

  /** At most one job per operation: the table is keyed by the operation. */
  datatype Job = Job(id: nat, nextRunAt: int, hold: Option<Hold>, retries: nat)

  datatype Entry = Entry(campaign: Id, attempt: Id, operation: Option<Id>, kind: EntryType, amount: int, signature: Option<string>)

  datatype Db = Db(
    campaigns: seq<Campaign>, invites: seq<Invite>, sessions: seq<Session>, quotes: seq<QuoteRow>,
    attempts: seq<Attempt>, operations: seq<Operation>, jobs: map<Id, Job>, nextJob: nat, ledger: seq<Entry>)

  const EMPTY := Db([], [], [], [], [], [], map[], 0, [])

  // -------------------------------------------------------------- foreign keys

  ghost predicate InviteKeys(db: Db) {
    forall i :: 0 <= i < |db.invites| ==>
      db.invites[i].campaign < |db.campaigns| && (db.invites[i].active.Some? ==> db.invites[i].active.value < |db.attempts|)
  }

  ghost predicate SessionKeys(db: Db) {
    forall s :: 0 <= s < |db.sessions| ==> db.sessions[s].invite < |db.invites|
  }

  ghost predicate QuoteKeys(db: Db) {
    forall q :: 0 <= q < |db.quotes| ==>
      && db.quotes[q].invite < |db.invites|
      && db.quotes[q].campaign == db.invites[db.quotes[q].invite].campaign
  }

  ghost predicate AttemptKeys(db: Db) {
    forall a :: 0 <= a < |db.attempts| ==>
      && db.attempts[a].invite < |db.invites|
      && db.attempts[a].quote < |db.quotes|
      && db.quotes[db.attempts[a].quote].invite == db.attempts[a].invite
      && db.attempts[a].campaign == db.invites[db.attempts[a].invite].campaign
  }

  ghost predicate OperationKeys(db: Db) {
    forall o :: 0 <= o < |db.operations| ==>
      && db.operations[o].attempt < |db.attempts|
      && db.operations[o].campaign == db.attempts[db.operations[o].attempt].campaign
  }

  ghost predicate EntryKeys(db: Db) {
    forall e :: 0 <= e < |db.ledger| ==>
      && db.ledger[e].attempt < |db.attempts|
      && db.ledger[e].campaign == db.attempts[db.ledger[e].attempt].campaign
      && (db.ledger[e].operation.Some? ==> db.ledger[e].operation.value < |db.operations|)
  }

  ghost predicate JobKeys(db: Db) {
    forall o :: o in db.jobs ==> o < |db.operations| && db.jobs[o].id < db.nextJob
  }

  /** The declared references between tables (src/db/schema.ts:65-251). */
  ghost predicate ForeignKeys(db: Db) {
    InviteKeys(db) && SessionKeys(db) && QuoteKeys(db) && AttemptKeys(db) && OperationKeys(db) && EntryKeys(db) && JobKeys(db)
  }

  // ------------------------------------------------------------------- results

  datatype Code = Unauthorized | CampaignUnavailable | InviteUnavailable | QuoteUnavailable | InvalidInput | Conflict
    | BudgetExhausted | CapacityExhausted | Unavailable | QuoteExpired | PolicyChanged | EvidenceInvalid | StorageUnavailable

  /** A committed transaction with its new tables, or an abort that leaves them untouched. */
  datatype Tx<+T> = Commit(db: Db, value: T) | Abort(code: Code)

  function After<T>(db: Db, t: Tx<T>): Db {
    if t.Commit? then t.db else db
  }

  // ------------------------------------------------------------------- lookups

  predicate Terminal(s: Status) {
    s.Complete? || s.Failed? || s.Expired?
  }

  /** The statuses settlement and retry treat as closed. */
  predicate Closed(s: Status) {
    Terminal(s) || s.Finalized?
  }

  function TermsOf(c: Campaign): Quotes.Terms {
    Quotes.Terms(c.sponsor, c.policyVersion, c.limits)
  }

  /** The session row with this token, if any (token hashes are unique). */
  function FindSession(sessions: seq<Session>, token: nat): (r: Option<Id>)
    ensures r.Some? ==> r.value < |sessions| && sessions[r.value].token == token
    ensures r.None? ==> forall s :: 0 <= s < |sessions| ==> sessions[s].token != token
  {
    if sessions == [] then None
    else if sessions[|sessions| - 1].token == token then Some(|sessions| - 1)
    else FindSession(sessions[..|sessions| - 1], token)
  }

  function FindInvite(invites: seq<Invite>, token: nat): (r: Option<Id>)
    ensures r.Some? ==> r.value < |invites| && invites[r.value].token == token
    ensures r.None? ==> forall i :: 0 <= i < |invites| ==> invites[i].token != token
  {
    if invites == [] then None
    else if invites[|invites| - 1].token == token then Some(|invites| - 1)
    else FindInvite(invites[..|invites| - 1], token)
  }

  /** The attempt already made on this invite under this idempotency key. */
  function FindAttempt(attempts: seq<Attempt>, invite: Id, key: string): (r: Option<Id>)
    ensures r.Some? ==> r.value < |attempts| && attempts[r.value].invite == invite && attempts[r.value].idempotencyKey == key
    ensures r.None? ==> forall a :: 0 <= a < |attempts| ==> attempts[a].invite != invite || attempts[a].idempotencyKey != key
  {
    if attempts == [] then None
    else
      var last := attempts[|attempts| - 1];
      if last.invite == invite && last.idempotencyKey == key then Some(|attempts| - 1)
      else FindAttempt(attempts[..|attempts| - 1], invite, key)
  }

  predicate IsRegistration(op: Operation, attempt: Id) {
    op.attempt == attempt && op.kind.Registration?
  }

  function FindRegistration(ops: seq<Operation>, attempt: Id): (r: Option<Id>)
    ensures r.Some? ==> r.value < |ops| && IsRegistration(ops[r.value], attempt)
    ensures r.None? ==> forall o :: 0 <= o < |ops| ==> !IsRegistration(ops[o], attempt)
  {
    if ops == [] then None
    else if IsRegistration(ops[|ops| - 1], attempt) then Some(|ops| - 1)
    else FindRegistration(ops[..|ops| - 1], attempt)
  }

  predicate IsActiveRecovery(op: Operation, attempt: Id) {
    op.attempt == attempt && op.kind.Recovery? && !Terminal(op.status)
  }

  function FindActiveRecovery(ops: seq<Operation>, attempt: Id): (r: Option<Id>)
    ensures r.Some? ==> r.value < |ops| && IsActiveRecovery(ops[r.value], attempt)
    ensures r.None? ==> forall o :: 0 <= o < |ops| ==> !IsActiveRecovery(ops[o], attempt)
  {
    if ops == [] then None
    else if IsActiveRecovery(ops[|ops| - 1], attempt) then Some(|ops| - 1)
    else FindActiveRecovery(ops[..|ops| - 1], attempt)
  }

  /** Another non-terminal attempt holds this name, or this wallet in the campaign, or the payer was used before. */
  predicate ActiveIndexClash(attempts: seq<Attempt>, campaign: Id, wallet: Key, name: string, payer: Key) {
    exists a :: 0 <= a < |attempts| &&
      (|| attempts[a].payer == payer
       || (!Terminal(attempts[a].status) && (attempts[a].name == name || (attempts[a].campaign == campaign && attempts[a].wallet == wallet))))
  }

  function RevokeSessions(sessions: seq<Session>, invite: Id): (r: seq<Session>)
    ensures |r| == |sessions|
    ensures forall s :: 0 <= s < |r| ==> r[s] == if sessions[s].invite == invite then sessions[s].(revoked := true) else sessions[s]
  {
    if sessions == [] then []
    else
      var last := sessions[|sessions| - 1];
      RevokeSessions(sessions[..|sessions| - 1], invite) + [if last.invite == invite then last.(revoked := true) else last]
  }

  function LiveSessions(sessions: seq<Session>, invite: Id): nat {
    if sessions == [] then 0
    else
      var last := sessions[|sessions| - 1];
      (if last.invite == invite && !last.revoked then 1 else 0) + LiveSessions(sessions[..|sessions| - 1], invite)
  }

  /** Revoke all but the newest `keep` unrevoked sessions of the invite. */
  function KeepNewest(sessions: seq<Session>, invite: Id, keep: nat): (r: seq<Session>)
    ensures |r| == |sessions|
    ensures forall s :: 0 <= s < |r| ==> r[s] == sessions[s] || r[s] == sessions[s].(revoked := true)
    ensures forall s :: 0 <= s < |r| && sessions[s].invite != invite ==> r[s] == sessions[s]
  {
    if sessions == [] then []
    else
      var last, rest := sessions[|sessions| - 1], sessions[..|sessions| - 1];
      if last.invite != invite || last.revoked then KeepNewest(rest, invite, keep) + [last]
      else if keep > 0 then KeepNewest(rest, invite, keep - 1) + [last]
      else KeepNewest(rest, invite, 0) + [last.(revoked := true)]
  }

  /** Quote rows chosen by `hit` are expired and lose their payer key. */
  function LapseQuotes(quotes: seq<QuoteRow>, hit: (Id, QuoteRow) -> bool): (r: seq<QuoteRow>)
    ensures |r| == |quotes|
    ensures forall q :: 0 <= q < |r| ==>
      r[q] == if hit(q, quotes[q]) then quotes[q].(status := Lapsed, payerKey := None) else quotes[q]
  {
    if quotes == [] then []
    else
      var n := |quotes| - 1;
      LapseQuotes(quotes[..n], hit) + [if hit(n, quotes[n]) then quotes[n].(status := Lapsed, payerKey := None) else quotes[n]]
  }
}
