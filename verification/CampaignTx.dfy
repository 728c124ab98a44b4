/**
 * The committed transactions of the campaign store, each a function from the tables it
 * locked to the tables it commits, or an abort (src/lib/campaigns/store.ts).
 */
module CampaignTx {
  import opened Basics
  import opened Registry
  import opened Quotes
  import opened Database

  datatype NewCampaign = NewCampaign(
    slug: string, name: string, sponsor: Key, limits: Limits, startsAt: int, endsAt: int, maxUsers: int, cap: int)

  /** Words of letters and digits, joined by single hyphens. */
  predicate ValidSlug(slug: string) {
    && 1 <= |slug| <= 64 && (forall i :: 0 <= i < |slug| ==> LabelChar(slug[i]))
    && slug[0] != '-' && slug[|slug| - 1] != '-'
    && (forall i :: 0 < i < |slug| ==> slug[i - 1] != '-' || slug[i] != '-')
  }

  /** The length of a text in 16-bit units. */
  function Units(s: string): nat {
    if s == "" then 0 else Units(s[1..]) + (if s[0] as int >= 0x1_0000 then 2 else 1)
  }

  predicate ValidDisplayName(name: string) {
    Trim(name) != "" && Units(name) <= 100
  }

  /** The unique index on campaign slugs. */
  predicate SlugTaken(campaigns: seq<Campaign>, slug: string) {
    exists c :: 0 <= c < |campaigns| && campaigns[c].slug == slug
  }

  predicate ValidCampaign(p: Policy, n: NewCampaign) {
    && ValidSlug(n.slug) && ValidDisplayName(n.name) && 1 <= n.maxUsers <= 100_000 && n.startsAt < n.endsAt && p.onCurve(n.sponsor)
    && Positive(n.cap) && Positive(n.limits.maxRegistrationPrice) && Positive(n.limits.maxTransactionFee)
    && Positive(n.limits.recoveryAllowance) && Positive(n.limits.maxReservation)
    && n.limits.maxReservation <= n.cap
  }

  function CreateCampaign(p: Policy, db: Db, n: NewCampaign): Tx<Id> {
    if !ValidCampaign(p, n) then Abort(InvalidInput)
    else if SlugTaken(db.campaigns, n.slug) then Abort(Conflict)
    else
      var c := Campaign(Draft, n.startsAt, n.endsAt, p.id, n.sponsor, n.limits, n.cap, 0, 0, n.maxUsers, 0, 0, n.slug, n.name);
      Commit(db.(campaigns := db.campaigns + [c]), |db.campaigns|)
  }

  function SetCampaignStatus(db: Db, id: Id, status: CampaignStatus): Tx<()> {
    if status.Draft? then Abort(InvalidInput)
    else if id >= |db.campaigns| || db.campaigns[id].status.Ended? then Abort(CampaignUnavailable)
    else Commit(db.(campaigns := db.campaigns[id := db.campaigns[id].(status := status)]), ())
  }

  predicate UsableCampaign(p: Policy, c: Campaign, now: int) {
    c.status.Active? && c.startsAt <= now < c.endsAt && c.policyVersion == p.id
  }

  predicate UsableInvite(i: Invite, now: int) {
    i.status.Open? && now < i.expiresAt
  }

  /** The unique keys of the invites table: token, and wallet within a campaign. */
  predicate InviteTaken(invites: seq<Invite>, token: nat, campaign: Id, wallet: Key) {
    exists i :: 0 <= i < |invites| && (invites[i].token == token || (invites[i].campaign == campaign && invites[i].wallet == wallet))
  }

  predicate TokenTaken(invites: seq<Invite>, id: Id, token: nat) {
    exists k :: 0 <= k < |invites| && k != id && invites[k].token == token
  }

  function IssueInvite(p: Policy, db: Db, campaign: Id, wallet: Key, expiresAt: int, token: nat, now: int): Tx<Id> {
    if !p.onCurve(wallet) then Abort(InvalidInput)
    else if campaign >= |db.campaigns| then Abort(InviteUnavailable)
    else
      var c := db.campaigns[campaign];
      if c.status.Ended? || expiresAt <= now || expiresAt > c.endsAt || wallet == c.sponsor then Abort(InviteUnavailable)
      else if InviteTaken(db.invites, token, campaign, wallet) then Abort(Conflict)
      else Commit(db.(invites := db.invites + [Invite(campaign, token, wallet, Open, expiresAt, None)]), |db.invites|)
  }

  function RevokeInvite(db: Db, id: Id): Tx<()> {
    if id >= |db.invites| then Abort(Unauthorized)
    else if db.invites[id].status.Consumed? then Abort(InviteUnavailable)
    else Commit(db.(invites := db.invites[id := db.invites[id].(status := Revoked)], sessions := RevokeSessions(db.sessions, id)), ())
  }

  function QuotedOn(invite: Id): (Id, QuoteRow) -> bool {
    (q: Id, row: QuoteRow) => row.invite == invite && row.status.Quoted?
  }

  function RotateInvite(db: Db, id: Id, expiresAt: int, token: nat, now: int): Tx<()>
    requires ForeignKeys(db)
  {
    if id >= |db.invites| then Abort(Unauthorized)
    else
      var i := db.invites[id];
      var c := db.campaigns[i.campaign];
      if c.status.Ended? || i.status.Consumed? || i.active.Some? || expiresAt <= now || expiresAt > c.endsAt then Abort(InviteUnavailable)
      else if TokenTaken(db.invites, id, token) then Abort(Conflict)
      else Commit(db.(invites := db.invites[id := i.(token := token, status := Open, expiresAt := expiresAt)],
                      sessions := RevokeSessions(db.sessions, id),
                      quotes := LapseQuotes(db.quotes, QuotedOn(id))), ())
  }

  /** Session lifetime: fifteen minutes, but never beyond the invite or the campaign. */
  function SessionExpiry(now: int, i: Invite, c: Campaign): int {
    Min(now + 900_000, Min(i.expiresAt, c.endsAt))
  }

  function ExchangeInvite(p: Policy, db: Db, token: nat, sessionToken: nat, now: int): Tx<Id>
    requires ForeignKeys(db)
  {
    var found := FindInvite(db.invites, token);
    if found.None? then Abort(Unauthorized)
    else
      var i := db.invites[found.value];
      var c := db.campaigns[i.campaign];
      if !UsableCampaign(p, c, now) then Abort(CampaignUnavailable)
      else if !UsableInvite(i, now) then Abort(InviteUnavailable)
      else if FindSession(db.sessions, sessionToken).Some? then Abort(Conflict)
      else
        var s := Session(found.value, sessionToken, SessionExpiry(now, i, c), false);
        Commit(db.(sessions := KeepNewest(db.sessions, found.value, 4) + [s]), |db.sessions|)
  }

  datatype Locked = Invited(invite: Id) | Refused(code: Code)

  /** The invite a session token speaks for; every money-moving request also needs it usable. */
  function LockSession(p: Policy, db: Db, token: nat, now: int): (r: Locked)
    requires ForeignKeys(db)
    ensures r.Invited? ==> r.invite < |db.invites| && UsableInvite(db.invites[r.invite], now)
                           && UsableCampaign(p, db.campaigns[db.invites[r.invite].campaign], now)
  {
    var found := FindSession(db.sessions, token);
    if found.None? then Refused(Unauthorized)
    else
      var s := db.sessions[found.value];
      var i := db.invites[s.invite];
      if s.revoked || s.expiresAt <= now then Refused(Unauthorized)
      else if !UsableCampaign(p, db.campaigns[i.campaign], now) then Refused(CampaignUnavailable)
      else if !UsableInvite(i, now) then Refused(InviteUnavailable)
      else Invited(s.invite)
  }

  ghost function SaveQuote(p: Policy, db: Db, token: nat, quote: SponsoredQuote, payerKey: string, now: int): Tx<Id>
    requires ForeignKeys(db)
  {
    var locked := LockSession(p, db, token, now);
    if locked.Refused? then Abort(locked.code)
    else
      var i := db.invites[locked.invite];
      var c := db.campaigns[i.campaign];
      if ValidateStoredQuote(p, quote, TermsOf(c), i.wallet, now).None? then Abort(QuoteUnavailable)
      else if i.active.Some? then Abort(Conflict)
      else
        var row := QuoteRow(i.campaign, locked.invite, i.wallet, quote.name, quote, Some(payerKey), Quoted, quote.expiresAtMs);
        Commit(db.(quotes := LapseQuotes(db.quotes, QuotedOn(locked.invite)) + [row]), |db.quotes|)
  }

  predicate QuoteLive(q: QuoteRow, invite: Id, i: Invite, now: int) {
    && q.invite == invite && q.status.Quoted? && q.payerKey.Some? && now < q.expiresAt && q.wallet == i.wallet
    && q.name == q.payload.name && q.expiresAt == q.payload.expiresAtMs
  }

  /** The row reserveAttempt inserts. */
  function NewAttempt(quote: Id, q: QuoteRow, reservation: int, idempotencyKey: string): Attempt {
    Attempt(quote, q.campaign, q.invite, q.wallet, q.name, q.payload.attemptPayer, Prepared,
            reservation, reservation, 0, None, None, None, q.payerKey, q.payload.messageSha256,
            q.payload.unsignedTransaction, q.payload.blockhash, q.payload.lastValidBlockHeight, q.expiresAt, idempotencyKey)
  }

  ghost function ReserveAttempt(p: Policy, db: Db, token: nat, quote: Id, idempotencyKey: string, now: int): Tx<Id>
    requires ForeignKeys(db)
  {
    var locked := LockSession(p, db, token, now);
    if locked.Refused? then Abort(locked.code)
    else
      var i := db.invites[locked.invite];
      var c := db.campaigns[i.campaign];
      var prior := FindAttempt(db.attempts, locked.invite, idempotencyKey);
      if prior.Some? then
        (if db.attempts[prior.value].quote != quote then Abort(Conflict) else Commit(db, prior.value))
      else if i.active.Some? then Abort(Conflict)
      else if quote >= |db.quotes| || !QuoteLive(db.quotes[quote], locked.invite, i, now) then Abort(QuoteUnavailable)
      else
        var q := db.quotes[quote];
        var reservation := ValidateStoredQuote(p, q.payload, TermsOf(c), i.wallet, now);
        if reservation.None? then Abort(QuoteUnavailable)
        else if c.reserved + c.spent + reservation.value > c.cap then Abort(BudgetExhausted)
        else if c.reservedUsers + c.consumedUsers >= c.maxUsers then Abort(CapacityExhausted)
        else if ActiveIndexClash(db.attempts, q.campaign, q.wallet, q.name, q.payload.attemptPayer) then Abort(Conflict)
        else Commit(ReserveEffect(db, quote, reservation.value, idempotencyKey), |db.attempts|)
  }

  /** Attempt, campaign counters, invite pointer, quote and ledger, written together. */
  function ReserveEffect(db: Db, quote: Id, reservation: int, idempotencyKey: string): Db
    requires ForeignKeys(db) && quote < |db.quotes|
  {
    var q := db.quotes[quote];
    var a := |db.attempts|;
    var c := db.campaigns[q.campaign];
    db.(attempts := db.attempts + [NewAttempt(quote, q, reservation, idempotencyKey)],
        campaigns := db.campaigns[q.campaign := c.(reserved := c.reserved + reservation, reservedUsers := c.reservedUsers + 1)],
        invites := db.invites[q.invite := db.invites[q.invite].(active := Some(a))],
        quotes := db.quotes[quote := q.(status := Held, payerKey := None)],
        ledger := db.ledger + [Entry(q.campaign, a, None, Reserve, reservation, None)])
  }

  /** True when the unsigned hold was released, false when there was nothing to release. */
  function ExpireUnsigned(db: Db, id: Id, now: int): Tx<bool>
    requires ForeignKeys(db)
  {
    if id >= |db.attempts| then Commit(db, false)
    else
      var a := db.attempts[id];
      var i := db.invites[a.invite];
      var c := db.campaigns[a.campaign];
      if !a.status.Prepared? || a.expiresAt > now then Commit(db, false)
      else if i.active != Some(id) || c.reserved < a.reservation || c.reservedUsers < 1 then Abort(Conflict)
      else Commit(ReleaseEffect(db, id), true)
  }

  function ReleaseEffect(db: Db, id: Id): Db
    requires ForeignKeys(db) && id < |db.attempts|
  {
    var a := db.attempts[id];
    var c := db.campaigns[a.campaign];
    db.(attempts := db.attempts[id := a.(status := Expired, remaining := 0, payerKey := None)],
        campaigns := db.campaigns[a.campaign := c.(reserved := c.reserved - a.reservation, reservedUsers := c.reservedUsers - 1)],
        invites := db.invites[a.invite := db.invites[a.invite].(active := None)],
        quotes := db.quotes[a.quote := db.quotes[a.quote].(status := Lapsed, payerKey := None)],
        ledger := db.ledger + [Entry(a.campaign, id, None, Release, a.reservation, None)])
  }

  function LapsedBy(ids: set<Id>, now: int): (Id, QuoteRow) -> bool {
    (q: Id, row: QuoteRow) => q in ids && row.status.Quoted? && row.expiresAt <= now
  }

  /** The quote half of the sweep: SKIP LOCKED and the limit leave the choice of rows open. */
  function SweepQuotes(db: Db, ids: set<Id>, now: int): Tx<()> {
    Commit(db.(quotes := LapseQuotes(db.quotes, LapsedBy(ids, now))), ())
  }
}
