/**
 * What no transaction may change: identities and terms are fixed, the ledger only grows,
 * signed bytes are never replaced, closed rows are frozen and keys are only ever moved.
 *
 * The relation is reflexive and transitive, so it holds between any two states of a run
 * once it holds across each transaction.
 */
module Evolution {
  import opened Basics
  import opened Database
  import opened Invariant
  import opened CampaignTx
  import opened ExecutionTx
  import opened SettlePreserves
  import opened StepPreserves

  predicate SameCampaign(c: Campaign, c': Campaign) {
    && TermsOf(c') == TermsOf(c) && c'.cap == c.cap && c'.maxUsers == c.maxUsers
    && c'.startsAt == c.startsAt && c'.endsAt == c.endsAt && c'.slug == c.slug && c'.name == c.name
    && (c.status.Ended? ==> c'.status.Ended?)
  }

  predicate SameInvite(i: Invite, i': Invite) {
    i'.campaign == i.campaign && i'.wallet == i.wallet && (i.status.Consumed? ==> i'.status.Consumed?)
  }

  /** A session stays with its invite and token; revocation is final. */
  predicate SameSession(s: Session, s': Session) {
    s'.invite == s.invite && s'.token == s.token && s'.expiresAt == s.expiresAt && (s.revoked ==> s'.revoked)
  }

  /** A quote never becomes live again, and its payer key can only leave the row. */
  predicate SameQuote(q: QuoteRow, q': QuoteRow) {
    && q' == q.(status := q'.status, payerKey := q'.payerKey)
    && (!q.status.Quoted? ==> !q'.status.Quoted?)
    && (q'.payerKey.None? || q'.payerKey == q.payerKey)
  }

  /** Terminal attempts are frozen; others keep their identity, reservation and payer key. */
  predicate SameAttempt(a: Attempt, a': Attempt) {
    && a' == a.(status := a'.status, remaining := a'.remaining, cost := a'.cost, residual := a'.residual, slot := a'.slot,
                signature := a'.signature, payerKey := a'.payerKey)
    && (Terminal(a.status) ==> a' == a)
    && (!Unsigned(a.status) ==> !Unsigned(a'.status))
    && (a'.payerKey.None? || a'.payerKey == a.payerKey)
  }

  /** Confirmed, under review or settled: no payload is handed out for sending any more. */
  predicate Withheld(op: Operation) {
    op.status.Confirmed? || op.status.ManualReview? || Settled(op)
  }

  /** Settled operations are frozen; a signature, once persisted, never changes, nor do its bytes. */
  predicate SameOperation(op: Operation, op': Operation) {
    && op' == op.(status := op'.status, userPayload := op'.userPayload, signedPayload := op'.signedPayload,
                  signature := op'.signature, fee := op'.fee, debit := op'.debit, recovered := op'.recovered, evidence := op'.evidence)
    && (Settled(op) ==> op' == op)
    && (op.signature.Some? ==> op'.signature == op.signature && (op'.signedPayload.None? || op'.signedPayload == op.signedPayload))
    && (!op.status.Signing? ==> !op'.status.Signing?)
    && (Withheld(op) ==> Withheld(op'))
  }

  ghost predicate CampaignsEvolve(cs: seq<Campaign>, cs': seq<Campaign>) {
    |cs| <= |cs'| && forall c :: 0 <= c < |cs| ==> SameCampaign(cs[c], cs'[c])
  }

  ghost predicate InvitesEvolve(rows: seq<Invite>, rows': seq<Invite>) {
    |rows| <= |rows'| && forall i :: 0 <= i < |rows| ==> SameInvite(rows[i], rows'[i])
  }

  /** New sessions carry new tokens. */
  ghost predicate SessionsEvolve(ss: seq<Session>, ss': seq<Session>) {
    && |ss| <= |ss'|
    && (forall s :: 0 <= s < |ss| ==> SameSession(ss[s], ss'[s]))
    && (forall n, s :: |ss| <= n < |ss'| && 0 <= s < |ss| ==> ss'[n].token != ss[s].token)
  }

  ghost predicate QuotesEvolve(qs: seq<QuoteRow>, qs': seq<QuoteRow>) {
    |qs| <= |qs'| && forall q :: 0 <= q < |qs| ==> SameQuote(qs[q], qs'[q])
  }

  ghost predicate AttemptsEvolve(rows: seq<Attempt>, rows': seq<Attempt>) {
    |rows| <= |rows'| && forall a :: 0 <= a < |rows| ==> SameAttempt(rows[a], rows'[a])
  }

  ghost predicate OperationsEvolve(ops: seq<Operation>, ops': seq<Operation>) {
    |ops| <= |ops'| && forall o :: 0 <= o < |ops| ==> SameOperation(ops[o], ops'[o])
  }

  /** A new attempt's payer key is the one its quote row held. */
  predicate KeyHandedOver(qs: seq<QuoteRow>, a: Attempt) {
    a.quote < |qs| ==> a.payerKey.None? || a.payerKey == qs[a.quote].payerKey
  }

  ghost predicate KeysMove(qs: seq<QuoteRow>, rows: seq<Attempt>, rows': seq<Attempt>) {
    forall a :: |rows| <= a < |rows'| ==> KeyHandedOver(qs, rows'[a])
  }

  ghost predicate Evolves(db: Db, db': Db) {
    && CampaignsEvolve(db.campaigns, db'.campaigns) && InvitesEvolve(db.invites, db'.invites)
    && SessionsEvolve(db.sessions, db'.sessions)
    && QuotesEvolve(db.quotes, db'.quotes) && AttemptsEvolve(db.attempts, db'.attempts)
    && OperationsEvolve(db.operations, db'.operations) && KeysMove(db.quotes, db.attempts, db'.attempts)
    && db.ledger <= db'.ledger
  }

  lemma EvolvesReflexive(db: Db)
    ensures Evolves(db, db)
  {
  }

  lemma KeysMoveTransitive(qs: seq<QuoteRow>, qs': seq<QuoteRow>, rows: seq<Attempt>, rows': seq<Attempt>, rows'': seq<Attempt>)
    requires QuotesEvolve(qs, qs') && AttemptsEvolve(rows, rows') && AttemptsEvolve(rows', rows'')
    requires KeysMove(qs, rows, rows') && KeysMove(qs', rows', rows'')
    ensures KeysMove(qs, rows, rows'')
  {
    forall a | |rows| <= a < |rows''| ensures KeyHandedOver(qs, rows''[a]) {
      if a < |rows'| {
        assert SameAttempt(rows'[a], rows''[a]) && KeyHandedOver(qs, rows'[a]);
      } else if rows''[a].quote < |qs| {
        assert SameQuote(qs[rows''[a].quote], qs'[rows''[a].quote]) && KeyHandedOver(qs', rows''[a]);
      }
    }
  }

  lemma SessionsTransitive(ss: seq<Session>, ss': seq<Session>, ss'': seq<Session>)
    requires SessionsEvolve(ss, ss') && SessionsEvolve(ss', ss'')
    ensures SessionsEvolve(ss, ss'')
  {
    forall s | 0 <= s < |ss| ensures SameSession(ss[s], ss''[s]) {
      assert SameSession(ss[s], ss'[s]) && SameSession(ss'[s], ss''[s]);
    }
    forall n, s | |ss| <= n < |ss''| && 0 <= s < |ss| ensures ss''[n].token != ss[s].token {
      assert SameSession(ss[s], ss'[s]);
      if n < |ss'| {
        assert SameSession(ss'[n], ss''[n]);
      }
    }
  }

  lemma EvolvesTransitive(db: Db, db': Db, db'': Db)
    requires Evolves(db, db') && Evolves(db', db'')
    ensures Evolves(db, db'')
  {
    hide SameSession;
    SessionsTransitive(db.sessions, db'.sessions, db''.sessions);
    KeysMoveTransitive(db.quotes, db'.quotes, db.attempts, db'.attempts, db''.attempts);
    forall a | 0 <= a < |db.attempts| ensures SameAttempt(db.attempts[a], db''.attempts[a]) {
      assert SameAttempt(db.attempts[a], db'.attempts[a]) && SameAttempt(db'.attempts[a], db''.attempts[a]);
    }
    forall o | 0 <= o < |db.operations| ensures SameOperation(db.operations[o], db''.operations[o]) {
      assert SameOperation(db.operations[o], db'.operations[o]) && SameOperation(db'.operations[o], db''.operations[o]);
    }
    forall q | 0 <= q < |db.quotes| ensures SameQuote(db.quotes[q], db''.quotes[q]) {
      assert SameQuote(db.quotes[q], db'.quotes[q]) && SameQuote(db'.quotes[q], db''.quotes[q]);
    }
    forall c | 0 <= c < |db.campaigns| ensures SameCampaign(db.campaigns[c], db''.campaigns[c]) {
      assert SameCampaign(db.campaigns[c], db'.campaigns[c]) && SameCampaign(db'.campaigns[c], db''.campaigns[c]);
    }
    forall i | 0 <= i < |db.invites| ensures SameInvite(db.invites[i], db''.invites[i]) {
      assert SameInvite(db.invites[i], db'.invites[i]) && SameInvite(db'.invites[i], db''.invites[i]);
    }
  }

  // ------------------------------------------------------------ one step at a time

  lemma ReserveEvolves(db: Db, quote: Id, reservation: int, key: string)
    requires ForeignKeys(db) && quote < |db.quotes|
    ensures Evolves(db, ReserveEffect(db, quote, reservation, key))
  {
  }

  lemma ReleaseEvolves(db: Db, id: Id)
    requires ForeignKeys(db) && MayRelease(db, id)
    ensures Evolves(db, ReleaseEffect(db, id))
  {
  }

  lemma AuthorizeEvolves(db: Db, id: Id, payload: seq<Byte>, now: int)
    requires ForeignKeys(db) && id < |db.attempts| && db.attempts[id].status.Prepared?
    ensures Evolves(db, AuthorizeEffect(db, id, payload, now))
  {
  }

  lemma RecoveryEvolves(db: Db, id: Id, input: RecoveryInput, extra: int, now: int)
    requires ForeignKeys(db) && id < |db.attempts| && !Terminal(db.attempts[id].status) && !db.attempts[id].status.Prepared?
    ensures Evolves(db, RecoveryEffect(db, id, input, extra, now))
  {
  }

  lemma SettledRowsEvolve(op: Operation, a: Attempt, c: Campaign, i: Invite, v: Settlement)
    requires OperationOk(op) && AttemptOk(a) && Fits(op, a) && MaySettle(op, a, c, v)
    ensures SameOperation(op, SettledOperation(op, v)) && SameAttempt(a, SettledAttempt(op, a, c, v))
    ensures SameCampaign(c, SettledCampaign(op, a, c, v)) && SameInvite(i, SettledInvite(op, i, a, c, v))
  {
  }

  lemma SettleEvolves(db: Db, o: Id, v: Settlement)
    requires ForeignKeys(db) && Lifecycle(db) && CanSettle(db, o, v)
    ensures Evolves(db, SettleEffect(db, o, v))
  {
    var op := db.operations[o];
    var a := db.attempts[op.attempt];
    assert OperationOk(op) && AttemptOk(a) && Fits(op, a);
    SettledRowsEvolve(op, a, db.campaigns[a.campaign], db.invites[a.invite], v);
  }
}
