/** Which evidence is accepted, and as what: an exact condition for each of the three outcomes. */
module Evidence {
  import opened Basics
  import opened Registry
  import opened SponsoredMessage
  import opened ExecutionTx
  import opened Receipts

  /** Where the account list first names a key. */
  ghost predicate FirstAt(keys: seq<Key>, i: int, key: Key) {
    0 <= i < |keys| && keys[i] == key && forall j :: 0 <= j < i ==> keys[j] != key
  }

  ghost predicate Lists(r: Receipt, keys: seq<Key>) {
    && r.keys == keys && |r.pre| == |keys| && |r.post| == |keys|
    && forall i :: 0 <= i < |keys| ==> r.pre[i] >= 0 && r.post[i] >= 0
  }

  /**
   * What every accepted receipt has: it is final, belongs to these signed bytes and this
   * message, costs no more than the cap, lists the transaction's accounts with the sponsor
   * first, and a registration's payer started empty.
   */
  ghost predicate Header(p: Policy, k: Case, o: ChainObservation, signed: seq<Byte>) {
    && o.status.Final? && o.receipt.Some? && p.decode(signed).Some?
    && var r, tx := o.receipt.value, p.decode(signed).value;
       && r.signed == signed && 0 <= r.slot <= o.accountSlot && r.slot <= 9_007_199_254_740_991 && 0 <= r.fee <= k.feeCap
       && tx.verified && Sha256(tx.message) == k.messageHash && Lists(r, tx.keys)
       && FirstAt(r.keys, 0, k.sponsor) && k.payer in r.keys
       && (k.kind.Registration? ==> forall i :: FirstAt(r.keys, i, k.payer) ==> r.pre[i] == 0)
  }

  /** Only these positions changed. */
  ghost predicate OthersStill(r: Receipt, moved: set<int>)
    requires |r.pre| == |r.post|
  {
    forall i :: 0 <= i < |r.pre| && i !in moved ==> r.post[i] == r.pre[i]
  }

  lemma FirstIsIndex(keys: seq<Key>, i: int, key: Key)
    ensures FirstAt(keys, i, key) <==> i >= 0 && IndexOf(keys, key) == i
  {
    var n := IndexOf(keys, key);
    if FirstAt(keys, i, key) {
      assert keys[i] in keys;
    }
  }

  /** Nothing is accepted without the header. */
  lemma HeaderNeeded(p: Policy, k: Case, o: ChainObservation, signed: seq<Byte>)
    requires VerifySettlement(p, k, o, signed).Some?
    ensures Header(p, k, o, signed)
  {
    hide FailedSettlement, RecoverySettlement, RegistrationSettlement;
    var r := o.receipt.value;
    FirstIsIndex(r.keys, 0, k.sponsor);
    forall i | FirstAt(r.keys, i, k.payer) && k.kind.Registration? ensures r.pre[i] == 0 {
      FirstIsIndex(r.keys, i, k.payer);
    }
  }

  /** With the header, and the payer at this place, the outcome decides alone. */
  lemma HeaderLeaves(p: Policy, k: Case, o: ChainObservation, signed: seq<Byte>, payer: int)
    requires Header(p, k, o, signed) && FirstAt(o.receipt.value.keys, payer, k.payer)
    ensures var r := o.receipt.value;
            VerifySettlement(p, k, o, signed)
            == if r.failed then FailedSettlement(r, o, 0, payer)
               else if k.kind.Recovery? then RecoverySettlement(k, r, o, 0, payer)
               else RegistrationSettlement(k, r, o, 0, payer)
  {
    hide FailedSettlement, RecoverySettlement, RegistrationSettlement;
    FirstIsIndex(o.receipt.value.keys, 0, k.sponsor);
    FirstIsIndex(o.receipt.value.keys, payer, k.payer);
  }

  /**
   * A failed transaction, of either kind: accepted exactly when the sponsor lost the fee,
   * nobody else moved and the payer is observed with the balance the receipt leaves it.
   */
  lemma FailureExactly(p: Policy, k: Case, o: ChainObservation, signed: seq<Byte>, payer: int)
    requires Header(p, k, o, signed) && FirstAt(o.receipt.value.keys, payer, k.payer) && o.receipt.value.failed
    ensures var r := o.receipt.value;
            VerifySettlement(p, k, o, signed)
            == if r.post[0] == r.pre[0] - r.fee && OthersStill(r, {0}) && o.payerBalance == r.post[payer]
               then Some(Settlement(false, r.fee, r.fee, 0, r.post[payer], r.slot)) else None
  {
    hide RecoverySettlement, RegistrationSettlement, VerifySettlement, Header;
    HeaderSizes(p, k, o, signed);
    HeaderLeaves(p, k, o, signed, payer);
    var r := o.receipt.value;
    assert OnlyChanged(r, [0]) <==> OthersStill(r, {0}) by {
      assert forall i :: 0 <= i < |r.pre| ==> (Delta(r, i) == 0 <==> r.post[i] == r.pre[i]);
    }
  }

  lemma HeaderSizes(p: Policy, k: Case, o: ChainObservation, signed: seq<Byte>)
    requires Header(p, k, o, signed)
    ensures o.receipt.Some? && var r := o.receipt.value; |r.pre| == |r.post| == |r.keys| > 0
  {
  }

  /**
   * A sweep that succeeded: accepted exactly when the payer went from the operation's
   * amount to nothing, the sponsor gained it less the fee, nobody else moved and the payer
   * is observed empty.
   */
  lemma SweepExactly(p: Policy, k: Case, o: ChainObservation, signed: seq<Byte>, payer: int)
    requires Header(p, k, o, signed) && FirstAt(o.receipt.value.keys, payer, k.payer)
    requires !o.receipt.value.failed && k.kind.Recovery?
    ensures var r := o.receipt.value;
            VerifySettlement(p, k, o, signed)
            == if r.pre[payer] == k.amount && r.post[payer] == 0 && r.post[0] == r.pre[0] + k.amount - r.fee
                  && OthersStill(r, {0, payer}) && o.payerBalance == 0
               then Some(Settlement(true, r.fee, r.fee, k.amount, 0, r.slot)) else None
  {
    hide FailedSettlement, RegistrationSettlement, VerifySettlement, Header;
    HeaderSizes(p, k, o, signed);
    HeaderLeaves(p, k, o, signed, payer);
    var r := o.receipt.value;
    assert OnlyChanged(r, [payer, 0]) <==> OthersStill(r, {0, payer}) by {
      assert forall i :: 0 <= i < |r.pre| ==> (Delta(r, i) == 0 <==> r.post[i] == r.pre[i]);
    }
  }

  /** The six accounts a registration may move. */
  datatype Places = Places(payer: int, domain: int, primary: int, user: int, receiver: int)

  ghost predicate PlacesOf(k: Case, keys: seq<Key>, x: Places) {
    && FirstAt(keys, x.payer, k.payer) && FirstAt(keys, x.domain, k.quote.expected.domain)
    && FirstAt(keys, x.primary, k.quote.expected.primary) && FirstAt(keys, x.user, k.quote.user) && FirstAt(keys, x.receiver, k.quote.feeReceiver)
  }

  /**
   * The registry was paid at most the quoted price and the rest stayed with the payer, both
   * rents were paid, the user is untouched, the sponsor paid price, rents and fee, nobody
   * else moved, and domain and primary name now belong to the user.
   */
  ghost predicate Registered(k: Case, r: Receipt, o: ChainObservation, x: Places)
    requires |r.pre| == |r.post| == |r.keys| > 0 && PlacesOf(k, r.keys, x)
  {
    var q, c := k.quote, k.quote.cost;
    && r.pre[x.receiver] <= r.post[x.receiver] <= r.pre[x.receiver] + c.registrationPrice
    && r.post[x.payer] == c.registrationPrice - (r.post[x.receiver] - r.pre[x.receiver]) == o.payerBalance
    && r.post[x.domain] == r.pre[x.domain] + c.domainRent && r.post[x.primary] == r.pre[x.primary] + c.primaryRent
    && r.post[x.user] == r.pre[x.user]
    && r.post[0] == r.pre[0] - (c.registrationPrice + c.domainRent + c.primaryRent + r.fee)
    && o.domainOwner == Some(q.user) && o.primaryOwner == Some(q.user) && o.primaryName == Some(q.name)
    && OthersStill(r, {0, x.payer, x.domain, x.primary, x.user, x.receiver})
  }

  lemma RegistrationExactly(p: Policy, k: Case, o: ChainObservation, signed: seq<Byte>, x: Places)
    requires Header(p, k, o, signed) && PlacesOf(k, o.receipt.value.keys, x)
    requires !o.receipt.value.failed && k.kind.Registration?
    ensures var r, c := o.receipt.value, k.quote.cost;
            |r.pre| == |r.post| == |r.keys| > 0
            && VerifySettlement(p, k, o, signed)
               == if Registered(k, r, o, x)
                  then Some(Settlement(true, r.fee, c.registrationPrice + c.domainRent + c.primaryRent + r.fee, 0, r.post[x.payer], r.slot))
                  else None
  {
    hide FailedSettlement, RecoverySettlement, VerifySettlement, Header, FirstAt, IndexOf;
    HeaderSizes(p, k, o, signed);
    HeaderLeaves(p, k, o, signed, x.payer);
    RegistrationPlaces(k, o.receipt.value.keys, x);
    RegistrationAt(k, o.receipt.value, o, x);
  }

  lemma RegistrationPlaces(k: Case, keys: seq<Key>, x: Places)
    requires PlacesOf(k, keys, x)
    ensures IndexOf(keys, k.quote.expected.domain) == x.domain >= 0 && IndexOf(keys, k.quote.expected.primary) == x.primary >= 0
    ensures IndexOf(keys, k.quote.user) == x.user >= 0 && IndexOf(keys, k.quote.feeReceiver) == x.receiver >= 0 && 0 <= x.payer < |keys|
  {
    hide IndexOf;
    FirstIsIndex(keys, x.domain, k.quote.expected.domain);
    FirstIsIndex(keys, x.primary, k.quote.expected.primary);
    FirstIsIndex(keys, x.user, k.quote.user);
    FirstIsIndex(keys, x.receiver, k.quote.feeReceiver);
  }

  lemma RegistrationAt(k: Case, r: Receipt, o: ChainObservation, x: Places)
    requires |r.pre| == |r.post| == |r.keys| > 0 && PlacesOf(k, r.keys, x)
    ensures var c := k.quote.cost;
            0 <= x.payer < |r.keys|
            && RegistrationSettlement(k, r, o, 0, x.payer)
               == if Registered(k, r, o, x)
                  then Some(Settlement(true, r.fee, c.registrationPrice + c.domainRent + c.primaryRent + r.fee, 0, r.post[x.payer], r.slot))
                  else None
  {
    hide IndexOf, FirstAt;
    RegistrationPlaces(k, r.keys, x);
    assert OnlyChanged(r, [0, x.payer, x.domain, x.primary, x.user, x.receiver])
           <==> OthersStill(r, {0, x.payer, x.domain, x.primary, x.user, x.receiver}) by {
      assert forall i :: 0 <= i < |r.pre| ==> (Delta(r, i) == 0 <==> r.post[i] == r.pre[i]);
    }
  }

  /** A successful registration whose accounts are not all listed is refused. */
  lemma RegistrationListed(p: Policy, k: Case, o: ChainObservation, signed: seq<Byte>)
    requires VerifySettlement(p, k, o, signed).Some? && !o.receipt.value.failed && k.kind.Registration?
    ensures var keys, q := o.receipt.value.keys, k.quote;
            q.expected.domain in keys && q.expected.primary in keys && q.user in keys && q.feeReceiver in keys
  {
    hide IndexOf, FailedSettlement, RecoverySettlement;
  }
}
