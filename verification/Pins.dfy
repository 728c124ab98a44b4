/**
 * What stays pinned along a run: quotes were valid under their campaign's terms, attempts
 * and operations copy their quote, one row holds each payer key, and an attempt's
 * operations are opened one after the other.
 *
 * PinnedKept covers the transactions that add no row of their own; a reservation, an
 * authorization and a recovery each have their lemma.
 */
module Pins {
  import opened Basics
  import opened Registry
  import opened Quotes
  import opened Database
  import opened Ledger
  import opened Invariant
  import opened CampaignTx
  import opened ExecutionTx
  import opened StepPreserves
  import opened Steps
  import opened Evolution

  /** The stored quote passes every check of the store, at the start of its window. */
  ghost predicate Sound(p: Policy, q: SponsoredQuote, t: Terms, wallet: Key) {
    Storable(p, q, t, wallet, q.preparedAtMs)
  }

  ghost predicate QuotesSound(p: Policy, db: Db)
    requires InviteKeys(db) && QuoteKeys(db)
  {
    forall q :: 0 <= q < |db.quotes| ==>
      Sound(p, db.quotes[q].payload, TermsOf(db.campaigns[db.quotes[q].campaign]), db.invites[db.quotes[q].invite].wallet)
  }

  predicate AttemptPinned(a: Attempt, q: SponsoredQuote) {
    && a.reservation == q.cost.maximumReservation && a.payer == q.attemptPayer
    && a.messageHash == q.messageSha256 && a.unsigned == q.unsignedTransaction
    && a.blockhash == q.blockhash && a.lastValidBlockHeight == q.lastValidBlockHeight
  }

  ghost predicate AttemptsPinned(attempts: seq<Attempt>, quotes: seq<QuoteRow>) {
    forall a :: 0 <= a < |attempts| ==> attempts[a].quote < |quotes| && AttemptPinned(attempts[a], quotes[attempts[a].quote].payload)
  }

  predicate OperationPinned(op: Operation, q: SponsoredQuote) {
    op.kind.Registration? ==>
      && op.feeCap == q.cost.transactionFee && op.amount == q.cost.maxSponsorDebit
      && op.messageHash == q.messageSha256 && op.message == q.message
      && op.blockhash == q.blockhash && op.lastValidBlockHeight == q.lastValidBlockHeight
  }

  ghost predicate OperationsPinned(ops: seq<Operation>, attempts: seq<Attempt>, quotes: seq<QuoteRow>) {
    forall o :: 0 <= o < |ops| ==>
      && ops[o].attempt < |attempts| && attempts[ops[o].attempt].quote < |quotes|
      && OperationPinned(ops[o], quotes[attempts[ops[o].attempt].quote].payload)
  }

  /** A quote row holds its key exactly while it is live. */
  ghost predicate QuoteCustody(quotes: seq<QuoteRow>) {
    forall q :: 0 <= q < |quotes| ==> quotes[q].status.Quoted? == quotes[q].payerKey.Some?
  }

  /** A quote an attempt was made from is no longer live, and no other attempt came from it. */
  ghost predicate AttemptCustody(attempts: seq<Attempt>, quotes: seq<QuoteRow>) {
    && (forall a :: 0 <= a < |attempts| ==> attempts[a].quote < |quotes| && !quotes[attempts[a].quote].status.Quoted?)
    && (forall a, b :: 0 <= a < b < |attempts| ==> attempts[a].quote != attempts[b].quote)
  }

  /** An attempt's next operation is only opened after its previous ones settled. */
  ghost predicate OpenLast(ops: seq<Operation>) {
    forall o, q :: 0 <= o < q < |ops| && ops[o].attempt == ops[q].attempt ==> Settled(ops[o])
  }

  ghost predicate Pinned(p: Policy, db: Db)
    requires ForeignKeys(db)
  {
    && QuotesSound(p, db) && AttemptsPinned(db.attempts, db.quotes) && OperationsPinned(db.operations, db.attempts, db.quotes)
    && QuoteCustody(db.quotes) && AttemptCustody(db.attempts, db.quotes) && OpenLast(db.operations)
  }

  // ---------------------------------------------------------------- preservation

  ghost predicate NewQuotesSound(p: Policy, db: Db, db': Db)
    requires InviteKeys(db') && QuoteKeys(db')
  {
    forall q :: |db.quotes| <= q < |db'.quotes| ==>
      Sound(p, db'.quotes[q].payload, TermsOf(db'.campaigns[db'.quotes[q].campaign]), db'.invites[db'.quotes[q].invite].wallet)
  }

  ghost predicate NewAttemptsPinned(rows: seq<Attempt>, rows': seq<Attempt>, qs': seq<QuoteRow>) {
    forall a :: |rows| <= a < |rows'| ==> rows'[a].quote < |qs'| && AttemptPinned(rows'[a], qs'[rows'[a].quote].payload)
  }

  ghost predicate NewOperationsPinned(ops: seq<Operation>, ops': seq<Operation>, rows': seq<Attempt>, qs': seq<QuoteRow>) {
    forall o :: |ops| <= o < |ops'| ==>
      && ops'[o].attempt < |rows'| && rows'[ops'[o].attempt].quote < |qs'|
      && OperationPinned(ops'[o], qs'[rows'[ops'[o].attempt].quote].payload)
  }

  lemma SoundKept(p: Policy, db: Db, db': Db)
    requires InviteKeys(db) && QuoteKeys(db) && InviteKeys(db') && QuoteKeys(db')
    requires QuotesSound(p, db) && CampaignsEvolve(db.campaigns, db'.campaigns) && InvitesEvolve(db.invites, db'.invites)
    requires QuotesEvolve(db.quotes, db'.quotes) && NewQuotesSound(p, db, db')
    ensures QuotesSound(p, db')
  {
    forall q | 0 <= q < |db'.quotes|
      ensures Sound(p, db'.quotes[q].payload, TermsOf(db'.campaigns[db'.quotes[q].campaign]), db'.invites[db'.quotes[q].invite].wallet)
    {
      if q < |db.quotes| {
        assert SameQuote(db.quotes[q], db'.quotes[q]);
        assert SameCampaign(db.campaigns[db.quotes[q].campaign], db'.campaigns[db.quotes[q].campaign]);
        assert SameInvite(db.invites[db.quotes[q].invite], db'.invites[db.quotes[q].invite]);
      }
    }
  }

  lemma AttemptsPinnedKept(rows: seq<Attempt>, rows': seq<Attempt>, qs: seq<QuoteRow>, qs': seq<QuoteRow>)
    requires AttemptsPinned(rows, qs) && AttemptsEvolve(rows, rows') && QuotesEvolve(qs, qs')
    requires NewAttemptsPinned(rows, rows', qs')
    ensures AttemptsPinned(rows', qs')
  {
    forall a | 0 <= a < |rows'| ensures rows'[a].quote < |qs'| && AttemptPinned(rows'[a], qs'[rows'[a].quote].payload) {
      if a < |rows| {
        assert SameAttempt(rows[a], rows'[a]) && SameQuote(qs[rows[a].quote], qs'[rows[a].quote]);
      }
    }
  }

  lemma OperationsPinnedKept(
    ops: seq<Operation>, ops': seq<Operation>, rows: seq<Attempt>, rows': seq<Attempt>, qs: seq<QuoteRow>, qs': seq<QuoteRow>)
    requires OperationsPinned(ops, rows, qs) && OperationsEvolve(ops, ops') && AttemptsEvolve(rows, rows') && QuotesEvolve(qs, qs')
    requires NewOperationsPinned(ops, ops', rows', qs')
    ensures OperationsPinned(ops', rows', qs')
  {
    forall o | 0 <= o < |ops'|
      ensures ops'[o].attempt < |rows'| && rows'[ops'[o].attempt].quote < |qs'|
           && OperationPinned(ops'[o], qs'[rows'[ops'[o].attempt].quote].payload)
    {
      if o < |ops| {
        var a := ops[o].attempt;
        assert SameOperation(ops[o], ops'[o]) && SameAttempt(rows[a], rows'[a]) && SameQuote(qs[rows[a].quote], qs'[rows[a].quote]);
      }
    }
  }

  /** The pins survive any evolution whose new rows are pinned themselves. */
  lemma PinnedGrows(p: Policy, db: Db, db': Db)
    requires ForeignKeys(db) && ForeignKeys(db') && Pinned(p, db) && Evolves(db, db')
    requires NewQuotesSound(p, db, db') && NewAttemptsPinned(db.attempts, db'.attempts, db'.quotes)
    requires NewOperationsPinned(db.operations, db'.operations, db'.attempts, db'.quotes)
    requires QuoteCustody(db'.quotes) && AttemptCustody(db'.attempts, db'.quotes) && OpenLast(db'.operations)
    ensures Pinned(p, db')
  {
    SoundKept(p, db, db');
    AttemptsPinnedKept(db.attempts, db'.attempts, db.quotes, db'.quotes);
    OperationsPinnedKept(db.operations, db'.operations, db.attempts, db'.attempts, db.quotes, db'.quotes);
  }

  lemma OpenLastKept(ops: seq<Operation>, ops': seq<Operation>)
    requires OpenLast(ops) && OperationsEvolve(ops, ops') && |ops'| == |ops|
    ensures OpenLast(ops')
  {
    forall o, q | 0 <= o < q < |ops'| && ops'[o].attempt == ops'[q].attempt ensures Settled(ops'[o]) {
      assert SameOperation(ops[o], ops'[o]) && SameOperation(ops[q], ops'[q]);
    }
  }

  lemma CustodyKept(rows: seq<Attempt>, rows': seq<Attempt>, qs: seq<QuoteRow>, qs': seq<QuoteRow>)
    requires AttemptCustody(rows, qs) && AttemptsEvolve(rows, rows') && QuotesEvolve(qs, qs') && |rows'| == |rows|
    ensures AttemptCustody(rows', qs')
  {
    forall a | 0 <= a < |rows'| ensures rows'[a].quote == rows[a].quote && rows'[a].quote < |qs'| && !qs'[rows'[a].quote].status.Quoted? {
      assert SameAttempt(rows[a], rows'[a]) && SameQuote(qs[rows[a].quote], qs'[rows[a].quote]);
    }
  }

  /** Steps that add no quote, attempt or operation. */
  lemma PinnedKept(p: Policy, db: Db, db': Db)
    requires ForeignKeys(db) && ForeignKeys(db') && Pinned(p, db) && Evolves(db, db')
    requires |db'.quotes| == |db.quotes| && |db'.attempts| == |db.attempts| && |db'.operations| == |db.operations|
    requires QuoteCustody(db'.quotes)
    ensures Pinned(p, db')
  {
    OpenLastKept(db.operations, db'.operations);
    CustodyKept(db.attempts, db'.attempts, db.quotes, db'.quotes);
    PinnedGrows(p, db, db');
  }

  lemma SavedCustody(qs: seq<QuoteRow>, invite: Id, row: QuoteRow)
    requires QuoteCustody(qs) && row.status.Quoted? && row.payerKey.Some?
    ensures QuoteCustody(LapseQuotes(qs, QuotedOn(invite)) + [row]) && QuotesEvolve(qs, LapseQuotes(qs, QuotedOn(invite)) + [row])
  {
  }

  lemma SavedEvolves(db: Db, row: QuoteRow, invite: Id)
    ensures Evolves(db, db.(quotes := LapseQuotes(db.quotes, QuotedOn(invite)) + [row]))
  {
  }

  lemma SavedSound(p: Policy, db: Db, db': Db, row: QuoteRow)
    requires InviteKeys(db') && QuoteKeys(db') && |db'.quotes| == |db.quotes| + 1 && db'.quotes[|db.quotes|] == row
    requires Sound(p, row.payload, TermsOf(db'.campaigns[row.campaign]), db'.invites[row.invite].wallet)
    ensures NewQuotesSound(p, db, db')
  {
    hide Sound;
  }

  lemma SavedPinned(p: Policy, db: Db, db': Db, row: QuoteRow, invite: Id)
    requires ForeignKeys(db) && ForeignKeys(db') && Pinned(p, db)
    requires db' == db.(quotes := LapseQuotes(db.quotes, QuotedOn(invite)) + [row])
    requires row.status.Quoted? && row.payerKey.Some? && NewQuotesSound(p, db, db')
    ensures Pinned(p, db')
  {
    SavedCustody(db.quotes, invite, row);
    SavedEvolves(db, row, invite);
    CustodyKept(db.attempts, db'.attempts, db.quotes, db'.quotes);
    PinnedGrows(p, db, db');
  }

  lemma ReservedCustody(rows: seq<Attempt>, qs: seq<QuoteRow>, a: Attempt, quote: Id)
    requires AttemptCustody(rows, qs) && QuoteCustody(qs) && quote < |qs| && qs[quote].status.Quoted? && a.quote == quote
    ensures AttemptCustody(rows + [a], qs[quote := qs[quote].(status := Held, payerKey := None)])
    ensures QuoteCustody(qs[quote := qs[quote].(status := Held, payerKey := None)])
  {
  }

  lemma ReservedPinned(p: Policy, db: Db, quote: Id, key: string)
    requires ForeignKeys(db) && quote < |db.quotes| && Pinned(p, db) && db.quotes[quote].status.Quoted?
    ensures var r := db.quotes[quote].payload.cost.maximumReservation;
            ForeignKeys(ReserveEffect(db, quote, r, key)) && Pinned(p, ReserveEffect(db, quote, r, key))
  {
    var r := db.quotes[quote].payload.cost.maximumReservation;
    ReservedKeys(db, quote, r, key);
    ReserveEvolves(db, quote, r, key);
    ReservedCustody(db.attempts, db.quotes, NewAttempt(quote, db.quotes[quote], r, key), quote);
    PinnedGrows(p, db, ReserveEffect(db, quote, r, key));
  }

  lemma OpenLastAppend(ops: seq<Operation>, op: Operation)
    requires OpenLast(ops) && forall o :: 0 <= o < |ops| && ops[o].attempt == op.attempt ==> Settled(ops[o])
    ensures OpenLast(ops + [op])
  {
  }

  lemma AuthorizedPinned(p: Policy, db: Db, id: Id, payload: seq<Byte>, now: int)
    requires ForeignKeys(db) && Lifecycle(db) && id < |db.attempts| && Pinned(p, db) && db.attempts[id].status.Prepared?
    ensures var db' := AuthorizeEffect(db, id, payload, now); ForeignKeys(db') && Pinned(p, db')
  {
    var db' := AuthorizeEffect(db, id, payload, now);
    AuthorizedKeys(db, id, payload, now);
    AuthorizeEvolves(db, id, payload, now);
    NoOperations(db, id);
    OpenLastAppend(db.operations, db'.operations[|db.operations|]);
    CustodyKept(db.attempts, db'.attempts, db.quotes, db'.quotes);
    PinnedGrows(p, db, db');
  }

  /** Every operation of an attempt whose recovery may be reserved has settled. */
  lemma AllSettled(ops: seq<Operation>, id: Id, a: Attempt)
    requires OperationsOk(ops) && Succeeded(a) && FindActiveRecovery(ops, id).None?
    requires forall o :: 0 <= o < |ops| && ops[o].attempt == id ==> Fits(ops[o], a)
    ensures forall o :: 0 <= o < |ops| && ops[o].attempt == id ==> Settled(ops[o])
  {
    forall o | 0 <= o < |ops| && ops[o].attempt == id ensures Settled(ops[o]) {
      assert OperationOk(ops[o]) && Fits(ops[o], a) && !IsActiveRecovery(ops[o], id);
    }
  }

  lemma RecoveryPinned(p: Policy, db: Db, id: Id, input: RecoveryInput, extra: int, now: int)
    requires ForeignKeys(db) && id < |db.attempts| && Pinned(p, db)
    requires !Terminal(db.attempts[id].status) && !db.attempts[id].status.Prepared?
    requires forall o :: 0 <= o < |db.operations| && db.operations[o].attempt == id ==> Settled(db.operations[o])
    ensures var db' := RecoveryEffect(db, id, input, extra, now); ForeignKeys(db') && Pinned(p, db')
  {
    var db' := RecoveryEffect(db, id, input, extra, now);
    RecoveryReservedKeys(db, id, input, extra, now);
    RecoveryEvolves(db, id, input, extra, now);
    OpenLastAppend(db.operations, db'.operations[|db.operations|]);
    CustodyKept(db.attempts, db'.attempts, db.quotes, db'.quotes);
    PinnedGrows(p, db, db');
  }
}
