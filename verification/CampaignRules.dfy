/** When a campaign request is granted, told by the rows it finds: exact conditions, what is written, and what each refusal means. */
module CampaignRules {
  import opened Basics
  import opened Registry
  import opened Quotes
  import opened Database
  import opened CampaignTx

  // --------------------------------------------------------------------- sessions

  /** The session a token names: the newest row that carries it. */
  ghost predicate SessionOf(sessions: seq<Session>, s: int, token: nat) {
    0 <= s < |sessions| && sessions[s].token == token && forall t :: s < t < |sessions| ==> sessions[t].token != token
  }

  lemma {:induction false} SessionFound(sessions: seq<Session>, token: nat)
    ensures var f := FindSession(sessions, token);
            && (f.Some? ==> SessionOf(sessions, f.value, token))
            && (forall s :: SessionOf(sessions, s, token) ==> f.Some? && f.value == s)
  {
    if sessions != [] && sessions[|sessions| - 1].token != token {
      var t := sessions[..|sessions| - 1];
      SessionFound(t, token);
      forall s | SessionOf(sessions, s, token) ensures SessionOf(t, s, token) {
        assert forall k :: 0 <= k < |t| ==> t[k] == sessions[k];
      }
    }
  }

  /** The campaign pays out now. */
  predicate Running(p: Policy, c: Campaign, now: int) {
    c.status == Active && c.startsAt <= now && now < c.endsAt && c.policyVersion == p.id
  }

  /** An unrevoked, unexpired session of a usable invite of a running campaign. */
  ghost predicate Speaks(p: Policy, db: Db, token: nat, invite: Id, now: int)
    requires ForeignKeys(db)
  {
    exists s :: SessionOf(db.sessions, s, token) && SpeaksAs(p, db, s, invite, now)
  }

  ghost predicate SpeaksAs(p: Policy, db: Db, s: int, invite: Id, now: int)
    requires ForeignKeys(db) && 0 <= s < |db.sessions|
  {
    var x := db.sessions[s];
    && x.invite == invite && !x.revoked && now < x.expiresAt
    && Usable(db.invites[invite], now) && Running(p, db.campaigns[db.invites[invite].campaign], now)
  }

  /** The reason behind each refusal code. */
  ghost predicate RefusedFor(p: Policy, db: Db, token: nat, code: Code, now: int)
    requires ForeignKeys(db)
  {
    match code
    case Unauthorized => forall s :: SessionOf(db.sessions, s, token) ==> db.sessions[s].revoked || db.sessions[s].expiresAt <= now
    case CampaignUnavailable =>
      exists s :: SessionOf(db.sessions, s, token) && !Running(p, db.campaigns[db.invites[db.sessions[s].invite].campaign], now)
    case InviteUnavailable => exists s :: SessionOf(db.sessions, s, token) && !Usable(db.invites[db.sessions[s].invite], now)
    case _ => false
  }

  predicate Usable(i: Invite, now: int) {
    i.status == Open && now < i.expiresAt
  }

  /** The lock of every session request: granted exactly for such a session, and each refusal says what failed. */
  lemma LockExactly(p: Policy, db: Db, token: nat, now: int)
    requires ForeignKeys(db)
    ensures forall i: Id :: LockSession(p, db, token, now) == Invited(i) <==> Speaks(p, db, token, i, now)
    ensures LockSession(p, db, token, now).Refused? ==> RefusedFor(p, db, token, LockSession(p, db, token, now).code, now)
  {
    SessionFound(db.sessions, token);
    var f := FindSession(db.sessions, token);
    if f.Some? {
      assert SessionOf(db.sessions, f.value, token);
    }
  }

  // -------------------------------------------------------------------- sponsorship

  /** The live quote row this reservation would consume. */
  predicate QuoteReady(db: Db, quote: Id, invite: Id, now: int)
    requires invite < |db.invites|
  {
    quote < |db.quotes|
    && var q := db.quotes[quote];
       && q.invite == invite && q.status == Quoted && q.payerKey != None && now < q.expiresAt
       && q.wallet == db.invites[invite].wallet && q.name == q.payload.name && q.expiresAt == q.payload.expiresAtMs
  }

  /** Everything a new reservation needs. */
  ghost predicate Reservable(p: Policy, db: Db, invite: Id, quote: Id, key: string, reservation: int, now: int)
    requires ForeignKeys(db) && invite < |db.invites|
  {
    var i := db.invites[invite];
    var c := db.campaigns[i.campaign];
    && (forall a :: 0 <= a < |db.attempts| && db.attempts[a].invite == invite ==> db.attempts[a].idempotencyKey != key)
    && i.active == None && QuoteReady(db, quote, invite, now)
    && var q := db.quotes[quote];
       && ValidateStoredQuote(p, q.payload, Terms(c.sponsor, c.policyVersion, c.limits), i.wallet, now) == Some(reservation)
       && c.reserved + c.spent + reservation <= c.cap && c.reservedUsers + c.consumedUsers < c.maxUsers
       && forall a :: 0 <= a < |db.attempts| ==>
            && db.attempts[a].payer != q.payload.attemptPayer
            && (db.attempts[a].status !in {Complete, Failed, Expired} ==>
                  db.attempts[a].name != q.name && (db.attempts[a].campaign != q.campaign || db.attempts[a].wallet != q.wallet))
  }

  lemma ReserveExactly(p: Policy, db: Db, token: nat, quote: Id, key: string, now: int)
    requires ForeignKeys(db)
    ensures var r := ReserveAttempt(p, db, token, quote, key, now);
            r.Commit? && r.db != db
            <==> exists i: Id, n: int :: i < |db.invites| && Speaks(p, db, token, i, now) && Reservable(p, db, i, quote, key, n, now)
  {
    hide ForeignKeys, ValidateStoredQuote, LockSession, FindAttempt, Speaks, ReserveEffect;
    LockExactly(p, db, token, now);
    var l, r := LockSession(p, db, token, now), ReserveAttempt(p, db, token, quote, key, now);
    if r.Commit? && r.db != db {
      InviteBound(db, l.invite);
      var n := ValidateStoredQuote(p, db.quotes[quote].payload, TermsOf(db.campaigns[db.invites[l.invite].campaign]), db.invites[l.invite].wallet, now);
      assert Speaks(p, db, token, l.invite, now);
      NoClash(db, quote);
      assert Reservable(p, db, l.invite, quote, key, n.value, now);
    }
    if i: Id, n: int :| i < |db.invites| && Speaks(p, db, token, i, now) && Reservable(p, db, i, quote, key, n, now) {
      NoClash(db, quote);
      Grown(db, quote, n, key);
    }
  }

  lemma NoClash(db: Db, quote: Id)
    requires quote < |db.quotes|
    ensures var q := db.quotes[quote];
            !ActiveIndexClash(db.attempts, q.campaign, q.wallet, q.name, q.payload.attemptPayer)
            <==> forall a :: 0 <= a < |db.attempts| ==>
                   && db.attempts[a].payer != q.payload.attemptPayer
                   && (db.attempts[a].status !in {Complete, Failed, Expired} ==>
                         db.attempts[a].name != q.name && (db.attempts[a].campaign != q.campaign || db.attempts[a].wallet != q.wallet))
  {
  }

  lemma Grown(db: Db, quote: Id, n: int, key: string)
    requires ForeignKeys(db) && quote < |db.quotes|
    ensures ReserveEffect(db, quote, n, key) != db
  {
    hide ForeignKeys, NewAttempt;
    assert |ReserveEffect(db, quote, n, key).attempts| == |db.attempts| + 1;
  }

  lemma InviteBound(db: Db, i: Id)
    requires ForeignKeys(db) && i < |db.invites|
    ensures db.invites[i].campaign < |db.campaigns|
  {
  }

  /** The new row is its quote's: nothing in it comes from the request but the key. */
  predicate ReservedFrom(db: Db, db': Db, quote: Id, key: string) {
    var n := |db.attempts|;
    quote < |db.quotes| == |db'.quotes| && |db'.attempts| == n + 1 && db'.attempts[..n] == db.attempts
    && var a, q := db'.attempts[n], db.quotes[quote];
       && a.quote == quote && a.campaign == q.campaign && a.invite == q.invite && a.wallet == q.wallet && a.name == q.name
       && a.payer == q.payload.attemptPayer && a.payerKey == q.payerKey && a.expiresAt == q.expiresAt && a.idempotencyKey == key
       && a.status == Prepared && a.reservation == a.remaining == q.payload.cost.maximumReservation
       && a.cost == 0 && a.residual == None && a.slot == None && a.signature == None
       && a.messageHash == q.payload.messageSha256 && a.unsigned == q.payload.unsignedTransaction
       && db'.quotes == db.quotes[quote := q.(status := Held, payerKey := None)]
       && ReservedBooks(db, db', q, a.reservation)
  }

  /** Budget, seat, pointer and ledger move with the new row, and nothing else does. */
  predicate ReservedBooks(db: Db, db': Db, q: QuoteRow, amount: int) {
    q.campaign < |db.campaigns| && q.invite < |db.invites|
    && var c, n := db.campaigns[q.campaign], |db.attempts|;
       && db'.campaigns == db.campaigns[q.campaign := c.(reserved := c.reserved + amount, reservedUsers := c.reservedUsers + 1)]
       && db'.invites == db.invites[q.invite := db.invites[q.invite].(active := Some(n))]
       && db'.ledger == db.ledger + [Entry(q.campaign, n, None, Reserve, amount, None)]
       && db'.operations == db.operations && db'.sessions == db.sessions && db'.jobs == db.jobs
  }

  lemma ReservedRow(p: Policy, db: Db, token: nat, quote: Id, key: string, now: int)
    requires ForeignKeys(db)
    requires ReserveAttempt(p, db, token, quote, key, now).Commit? && ReserveAttempt(p, db, token, quote, key, now).db != db
    ensures ReservedFrom(db, ReserveAttempt(p, db, token, quote, key, now).db, quote, key)
  {
    hide ForeignKeys, LockSession, FindAttempt, ActiveIndexClash, ReserveEffect, Storable, ReservedFrom;
    EffectRow(db, quote, db.quotes[quote].payload.cost.maximumReservation, key);
  }

  lemma EffectRow(db: Db, quote: Id, n: int, key: string)
    requires ForeignKeys(db) && quote < |db.quotes| && n == db.quotes[quote].payload.cost.maximumReservation
    ensures ReservedFrom(db, ReserveEffect(db, quote, n, key), quote, key)
  {
  }

  /** What each refusal of a reservation means. */
  lemma ReserveRefusals(p: Policy, db: Db, token: nat, quote: Id, key: string, now: int, i: Id)
    requires ForeignKeys(db) && i < |db.invites| && Speaks(p, db, token, i, now) && ReserveAttempt(p, db, token, quote, key, now).Abort?
    ensures var code := ReserveAttempt(p, db, token, quote, key, now).code; var c := db.campaigns[db.invites[i].campaign];
            && code in {Conflict, QuoteUnavailable, BudgetExhausted, CapacityExhausted}
            && (code == QuoteUnavailable ==>
                  !QuoteReady(db, quote, i, now) || ValidateStoredQuote(p, db.quotes[quote].payload, TermsOf(c), db.invites[i].wallet, now) == None)
            && (code == BudgetExhausted ==>
                  quote < |db.quotes| && c.reserved + c.spent + db.quotes[quote].payload.cost.maximumReservation > c.cap)
            && (code == CapacityExhausted ==> c.reservedUsers + c.consumedUsers >= c.maxUsers)
            && (code == Conflict ==>
                  || (exists a :: 0 <= a < |db.attempts| && db.attempts[a].invite == i && db.attempts[a].idempotencyKey == key && db.attempts[a].quote != quote)
                  || db.invites[i].active != None
                  || (quote < |db.quotes| && exists a :: 0 <= a < |db.attempts| && SharesKey(db.attempts[a], db.quotes[quote])))
  {
    hide ForeignKeys, LockSession, FindAttempt, Speaks, Storable;
    LockExactly(p, db, token, now);
    if quote < |db.quotes| { ClashShares(db, quote); }
  }

  /** The attempt holds a name, wallet or payer the quote needs. */
  predicate SharesKey(a: Attempt, q: QuoteRow) {
    a.payer == q.payload.attemptPayer || a.name == q.name || (a.campaign == q.campaign && a.wallet == q.wallet)
  }

  lemma ClashShares(db: Db, quote: Id)
    requires quote < |db.quotes|
    ensures var q := db.quotes[quote];
            ActiveIndexClash(db.attempts, q.campaign, q.wallet, q.name, q.payload.attemptPayer) ==>
              exists a :: 0 <= a < |db.attempts| && SharesKey(db.attempts[a], q)
  {
  }

  /** A quote is stored exactly for such a session, when it validates for the invite's wallet and no attempt is active. */
  lemma SaveExactly(p: Policy, db: Db, token: nat, quote: SponsoredQuote, payerKey: string, now: int)
    requires ForeignKeys(db)
    ensures var r := SaveQuote(p, db, token, quote, payerKey, now);
            r.Commit? <==> exists i: Id :: i < |db.invites| && Speaks(p, db, token, i, now) && SavableOn(p, db, i, quote, now)
    ensures var r := SaveQuote(p, db, token, quote, payerKey, now);
            r.Commit? ==>
              && |r.db.quotes| == |db.quotes| + 1
              && var row := r.db.quotes[|db.quotes|];
                 && row.invite < |db.invites| && row.campaign == db.invites[row.invite].campaign && row.wallet == db.invites[row.invite].wallet
                 && row.name == quote.name && row.payload == quote && row.payerKey == Some(payerKey) && row.status == Quoted
                 && row.expiresAt == quote.expiresAtMs
                 && forall q :: 0 <= q < |db.quotes| ==>
                      r.db.quotes[q] == if db.quotes[q].invite == row.invite && db.quotes[q].status == Quoted
                                        then db.quotes[q].(status := Lapsed, payerKey := None) else db.quotes[q]
  {
    hide ForeignKeys, ValidateStoredQuote, LockSession, Speaks;
    LockExactly(p, db, token, now);
    var l := LockSession(p, db, token, now);
    if SaveQuote(p, db, token, quote, payerKey, now).Commit? {
      assert Speaks(p, db, token, l.invite, now) && SavableOn(p, db, l.invite, quote, now);
    }
  }

  ghost predicate SavableOn(p: Policy, db: Db, i: Id, quote: SponsoredQuote, now: int)
    requires ForeignKeys(db) && i < |db.invites|
  {
    var c := db.campaigns[db.invites[i].campaign];
    db.invites[i].active == None
    && ValidateStoredQuote(p, quote, Terms(c.sponsor, c.policyVersion, c.limits), db.invites[i].wallet, now) != None
  }

  // ------------------------------------------------------------------------ invites

  /** The invite a token names: the newest row that carries it. */
  ghost predicate InviteOf(invites: seq<Invite>, i: int, token: nat) {
    0 <= i < |invites| && invites[i].token == token && forall k :: i < k < |invites| ==> invites[k].token != token
  }

  lemma {:induction false} InviteFound(invites: seq<Invite>, token: nat)
    ensures var f := FindInvite(invites, token);
            && (f.Some? ==> InviteOf(invites, f.value, token))
            && (forall i :: InviteOf(invites, i, token) ==> f.Some? && f.value == i)
  {
    if invites != [] && invites[|invites| - 1].token != token {
      var t := invites[..|invites| - 1];
      InviteFound(t, token);
      forall i | InviteOf(invites, i, token) ensures InviteOf(t, i, token) {
        assert forall k :: 0 <= k < |t| ==> t[k] == invites[k];
      }
    }
  }

  /** The unrevoked sessions of an invite after position s. */
  ghost function NewerLive(sessions: seq<Session>, invite: Id, s: int): set<int> {
    set k | 0 <= k < |sessions| && s < k && sessions[k].invite == invite && !sessions[k].revoked
  }

  /** A session is revoked when as many newer ones of its invite are live as may be kept. */
  predicate KeptAt(before: Session, after: Session, invite: Id, newer: nat, keep: nat) {
    after == if before.invite == invite && newer >= keep then before.(revoked := true) else before
  }

  lemma NewerStep(t: seq<Session>, last: Session, invite: Id, s: int)
    requires s < |t|
    ensures |NewerLive(t + [last], invite, s)| == |NewerLive(t, invite, s)| + (if last.invite == invite && !last.revoked then 1 else 0)
  {
    var n := |t|;
    var live := last.invite == invite && !last.revoked;
    assert NewerLive(t + [last], invite, s) == if live then NewerLive(t, invite, s) + {n} else NewerLive(t, invite, s);
  }

  lemma NewerNone(sessions: seq<Session>, invite: Id)
    ensures NewerLive(sessions, invite, |sessions| - 1) == {}
  {
  }

  lemma {:induction false} KeepsNewest(sessions: seq<Session>, invite: Id, keep: nat, s: nat)
    requires s < |sessions|
    ensures KeptAt(sessions[s], KeepNewest(sessions, invite, keep)[s], invite, |NewerLive(sessions, invite, s)|, keep)
  {
    hide NewerLive;
    var n := |sessions| - 1;
    var last, rest := sessions[n], sessions[..n];
    assert sessions == rest + [last];
    if s == n {
      NewerNone(sessions, invite);
    } else {
      NewerStep(rest, last, invite, s);
      assert rest[s] == sessions[s];
      KeepsNewest(rest, invite, if last.invite != invite || last.revoked then keep else if keep > 0 then keep - 1 else 0, s);
    }
  }

  /** An exchange succeeds exactly for a usable invite of a running campaign, and its session dies with the first of three dates. */
  lemma ExchangeExactly(p: Policy, db: Db, token: nat, sessionToken: nat, now: int)
    requires ForeignKeys(db)
    ensures var r := ExchangeInvite(p, db, token, sessionToken, now);
            r.Commit? <==> && (forall s :: 0 <= s < |db.sessions| ==> db.sessions[s].token != sessionToken)
                           && exists i :: InviteOf(db.invites, i, token) && db.invites[i].status == Open && now < db.invites[i].expiresAt
                                          && Running(p, db.campaigns[db.invites[i].campaign], now)
    ensures var r := ExchangeInvite(p, db, token, sessionToken, now);
            r.Commit? ==>
              && |r.db.sessions| == |db.sessions| + 1
              && var s := r.db.sessions[|db.sessions|];
                 && s.token == sessionToken && !s.revoked && InviteOf(db.invites, s.invite, token)
                 && var i := db.invites[s.invite]; var ends := db.campaigns[i.campaign].endsAt;
                    && s.expiresAt <= now + 15 * 60_000 && s.expiresAt <= i.expiresAt && s.expiresAt <= ends
                    && s.expiresAt in {now + 15 * 60_000, i.expiresAt, ends}
                    && forall k: nat :: k < |db.sessions| ==>
                         KeptAt(db.sessions[k], r.db.sessions[k], s.invite, |NewerLive(db.sessions, s.invite, k)|, 4)
  {
    hide KeepNewest, KeptAt, NewerLive;
    InviteFound(db.invites, token);
    var f := FindInvite(db.invites, token);
    if f.Some? {
      assert InviteOf(db.invites, f.value, token);
      forall k: nat | k < |db.sessions|
        ensures KeptAt(db.sessions[k], KeepNewest(db.sessions, f.value, 4)[k], f.value, |NewerLive(db.sessions, f.value, k)|, 4)
      {
        KeepsNewest(db.sessions, f.value, 4, k);
      }
    }
  }

  lemma IssueExactly(p: Policy, db: Db, campaign: Id, wallet: Key, expiresAt: int, token: nat, now: int)
    ensures var r := IssueInvite(p, db, campaign, wallet, expiresAt, token, now);
            r.Commit? <==>
              && p.onCurve(wallet) && campaign < |db.campaigns|
              && var c := db.campaigns[campaign];
                 && c.status != Ended && now < expiresAt <= c.endsAt && wallet != c.sponsor
                 && forall i :: 0 <= i < |db.invites| ==>
                      db.invites[i].token != token && (db.invites[i].campaign != campaign || db.invites[i].wallet != wallet)
    ensures var r := IssueInvite(p, db, campaign, wallet, expiresAt, token, now);
            r.Commit? ==> r.db == db.(invites := db.invites + [Invite(campaign, token, wallet, Open, expiresAt, None)])
  {
  }

  /** A rotation never touches a consumed invite, one with an attempt, or one of an ended campaign. */
  lemma RotateExactly(db: Db, id: Id, expiresAt: int, token: nat, now: int)
    requires ForeignKeys(db)
    ensures var r := RotateInvite(db, id, expiresAt, token, now);
            r.Commit? <==>
              && id < |db.invites|
              && var i := db.invites[id]; var c := db.campaigns[i.campaign];
                 && c.status != Ended && i.status != Consumed && i.active == None && now < expiresAt <= c.endsAt
                 && forall k :: 0 <= k < |db.invites| && k != id ==> db.invites[k].token != token
    ensures var r := RotateInvite(db, id, expiresAt, token, now);
            r.Commit? ==>
              && r.db == db.(invites := r.db.invites, sessions := r.db.sessions, quotes := r.db.quotes)
              && r.db.invites == db.invites[id := db.invites[id].(token := token, status := Open, expiresAt := expiresAt)]
              && SessionsCut(db, r.db, id) && |r.db.quotes| == |db.quotes|
              && forall q :: 0 <= q < |db.quotes| ==>
                   r.db.quotes[q] == if db.quotes[q].invite == id && db.quotes[q].status == Quoted
                                     then db.quotes[q].(status := Lapsed, payerKey := None) else db.quotes[q]
  {
  }

  /** Every session of the invite is revoked, and no other. */
  predicate SessionsCut(db: Db, db': Db, invite: Id) {
    && |db'.sessions| == |db.sessions|
    && forall s :: 0 <= s < |db.sessions| ==>
         db'.sessions[s] == if db.sessions[s].invite == invite then db.sessions[s].(revoked := true) else db.sessions[s]
  }

  lemma RevokeExactly(db: Db, id: Id)
    ensures RevokeInvite(db, id).Commit? <==> id < |db.invites| && db.invites[id].status != Consumed
    ensures var r := RevokeInvite(db, id);
            r.Commit? ==>
              && r.db == db.(invites := db.invites[id := db.invites[id].(status := InviteStatus.Revoked)], sessions := r.db.sessions)
              && SessionsCut(db, r.db, id)
  {
  }

  lemma StatusExactly(db: Db, id: Id, status: CampaignStatus)
    ensures SetCampaignStatus(db, id, status).Commit?
            <==> status in {Active, Paused, Ended} && id < |db.campaigns| && db.campaigns[id].status != Ended
    ensures SetCampaignStatus(db, id, status).Commit? ==>
              SetCampaignStatus(db, id, status).db == db.(campaigns := db.campaigns[id := db.campaigns[id].(status := status)])
  {
  }

  // --------------------------------------------------------------------- expiration

  /** A hold is released exactly when its attempt was never authorized and its time is over; the books must then agree. */
  lemma ExpireExactly(db: Db, id: Id, now: int)
    requires ForeignKeys(db)
    ensures var r := ExpireUnsigned(db, id, now);
            var due := id < |db.attempts| && db.attempts[id].status == Prepared && db.attempts[id].expiresAt <= now;
            && (!due ==> r == Commit(db, false))
            && (due ==> var a := db.attempts[id]; var c := db.campaigns[a.campaign];
                  if db.invites[a.invite].active == Some(id) && a.reservation <= c.reserved && 1 <= c.reservedUsers
                  then r.Commit? && r.value && Released(db, r.db, id) else r == Abort(Conflict))
  {
    hide ReleaseEffect, Released;
    if id < |db.attempts| { EffectReleases(db, id); }
  }

  /** The whole reservation goes back, the payer's key is dropped and the invite is free again. */
  predicate Released(db: Db, db': Db, id: Id)
    requires ForeignKeys(db) && id < |db.attempts|
  {
    var a := db.attempts[id];
    var c, i, q := db.campaigns[a.campaign], db.invites[a.invite], db.quotes[a.quote];
    && db'.attempts == db.attempts[id := a.(status := Expired, remaining := 0, payerKey := None)]
    && db'.campaigns == db.campaigns[a.campaign := c.(reserved := c.reserved - a.reservation, reservedUsers := c.reservedUsers - 1)]
    && db'.invites == db.invites[a.invite := i.(active := None)]
    && db'.quotes == db.quotes[a.quote := q.(status := Lapsed, payerKey := None)]
    && db'.ledger == db.ledger + [Entry(a.campaign, id, None, Release, a.reservation, None)]
    && db'.operations == db.operations && db'.sessions == db.sessions && db'.jobs == db.jobs
  }

  lemma EffectReleases(db: Db, id: Id)
    requires ForeignKeys(db) && id < |db.attempts|
    ensures Released(db, ReleaseEffect(db, id), id)
  {
  }

  lemma SweepExactly(db: Db, ids: set<Id>, now: int)
    ensures var db' := After(db, SweepQuotes(db, ids, now));
            && |db'.quotes| == |db.quotes|
            && forall q: Id :: q < |db.quotes| ==>
                 db'.quotes[q] == if q in ids && db.quotes[q].status == Quoted && db.quotes[q].expiresAt <= now
                                  then db.quotes[q].(status := Lapsed, payerKey := None) else db.quotes[q]
  {
  }

  // ----------------------------------------------------------------------- creation

  /** A text's length counts a character beyond the first 65,536 code points twice. */
  lemma {:induction false} UnitsExactly(s: string)
    ensures Units(s) == |s| + |set i | 0 <= i < |s| && s[i] as int > 65_535|
  {
    var wide := set i | 0 <= i < |s| && s[i] as int > 65_535;
    if s == "" {
      assert wide == {};
    } else {
      var t := s[1..];
      UnitsExactly(t);
      var rest := set i | 0 <= i < |t| && t[i] as int > 65_535;
      var moved := set i | 1 <= i < |s| && s[i] as int > 65_535;
      Shifted(rest, moved, |t|);
      assert wide == if s[0] as int > 65_535 then moved + {0} else moved;
    }
  }

  /** Moving every position by one keeps their number. */
  lemma {:induction false} Shifted(a: set<int>, b: set<int>, n: nat)
    requires (forall i <- a :: 0 <= i < n) && (forall i <- b :: 1 <= i < n + 1) && forall i :: 0 <= i < n ==> (i in a <==> i + 1 in b)
    ensures |a| == |b|
  {
    if n == 0 {
      assert a == {} && b == {};
    } else {
      var m := n - 1;
      Shifted(a - {m}, b - {n}, m);
    }
  }

  predicate Payable(n: int) {
    1 <= n <= 0xFFFF_FFFF_FFFF_FFFF
  }

  /** A campaign is created exactly for a fresh slug of words, a visible name, and limits that fit its cap. */
  lemma CreateExactly(p: Policy, db: Db, n: NewCampaign)
    ensures CreateCampaign(p, db, n).Commit? <==>
              && (1 <= |n.slug| <= 64 && (forall i :: 0 <= i < |n.slug| ==> LabelChar(n.slug[i])) && n.slug[0] != '-' && n.slug[|n.slug| - 1] != '-')
              && (forall i :: 0 < i < |n.slug| ==> n.slug[i - 1] != '-' || n.slug[i] != '-')
              && (forall c :: 0 <= c < |db.campaigns| ==> db.campaigns[c].slug != n.slug)
              && Trim(n.name) != "" && Units(n.name) <= 100
              && 1 <= n.maxUsers <= 100_000 && n.startsAt < n.endsAt && p.onCurve(n.sponsor)
              && Payable(n.cap) && Payable(n.limits.maxRegistrationPrice) && Payable(n.limits.maxTransactionFee)
              && Payable(n.limits.recoveryAllowance) && Payable(n.limits.maxReservation) && n.limits.maxReservation <= n.cap
    ensures CreateCampaign(p, db, n).Commit? ==>
              var c := Campaign(Draft, n.startsAt, n.endsAt, p.id, n.sponsor, n.limits, n.cap, 0, 0, n.maxUsers, 0, 0, n.slug, n.name);
              CreateCampaign(p, db, n).db == db.(campaigns := db.campaigns + [c])
  {
  }
}
