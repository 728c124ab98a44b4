/**
 * Settlement evidence (src/lib/execution/settlement.ts:6-45): costs derived from a finalized
 * receipt over an account list of any length, and what every accepted receipt conserves.
 */
module Receipts {
  import opened Basics
  import opened Registry
  import opened SponsoredMessage
  import opened Quotes
  import opened Database
  import opened ExecutionTx

  datatype Receipt = Receipt(signed: seq<Byte>, slot: int, failed: bool, fee: int, keys: seq<Key>, pre: seq<int>, post: seq<int>)

  datatype Observed = Missing | Processed | Confirming | Final

  datatype ChainObservation = ChainObservation(
    status: Observed, receipt: Option<Receipt>, accountSlot: int, payerBalance: int,
    domainOwner: Option<Key>, primaryOwner: Option<Key>, primaryName: Option<string>, finalizedHeight: int)

  /** The immutable facts of an operation that its evidence is judged by. */
  datatype Case = Case(
    kind: Kind, feeCap: int, amount: int, messageHash: Digest, sponsor: Key, payer: Key, quote: SponsoredQuote)

  function CaseOf(db: Db, o: Id): Case
    requires ForeignKeys(db) && o < |db.operations|
  {
    var op := db.operations[o];
    var a := db.attempts[op.attempt];
    Case(op.kind, op.feeCap, op.amount, op.messageHash, db.campaigns[a.campaign].sponsor, a.payer, db.quotes[a.quote].payload)
  }

  function Delta(r: Receipt, i: int): int
    requires 0 <= i < |r.pre| && i < |r.post|
  {
    r.post[i] - r.pre[i]
  }

  /** The receipt's lists line up, hold no negative balance and name the transaction's accounts. */
  predicate WellFormedReceipt(r: Receipt, keys: seq<Key>) {
    && r.keys == keys && |r.pre| == |r.keys| && |r.post| == |r.keys|
    && (forall i :: 0 <= i < |r.pre| ==> r.pre[i] >= 0) && (forall i :: 0 <= i < |r.post| ==> r.post[i] >= 0)
  }

  /** Nobody outside `changed` gained or lost anything. */
  predicate OnlyChanged(r: Receipt, changed: seq<int>)
    requires |r.pre| == |r.post|
  {
    forall i :: 0 <= i < |r.pre| && i !in changed ==> Delta(r, i) == 0
  }

  function FailedSettlement(r: Receipt, o: ChainObservation, sponsor: int, payer: int): Option<Settlement>
    requires 0 <= sponsor < |r.keys| && 0 <= payer < |r.keys| && |r.pre| == |r.post| == |r.keys|
  {
    if Delta(r, sponsor) != -r.fee || !OnlyChanged(r, [sponsor]) || o.payerBalance != r.post[payer] then None
    else Some(Settlement(false, r.fee, r.fee, 0, r.post[payer], r.slot))
  }

  function RecoverySettlement(k: Case, r: Receipt, o: ChainObservation, sponsor: int, payer: int): Option<Settlement>
    requires 0 <= sponsor < |r.keys| && 0 <= payer < |r.keys| && |r.pre| == |r.post| == |r.keys|
  {
    if r.pre[payer] != k.amount || r.post[payer] != 0 || Delta(r, sponsor) != k.amount - r.fee || o.payerBalance != 0
       || !OnlyChanged(r, [payer, sponsor]) then None
    else Some(Settlement(true, r.fee, r.fee, k.amount, 0, r.slot))
  }

  function RegistrationSettlement(k: Case, r: Receipt, o: ChainObservation, sponsor: int, payer: int): Option<Settlement>
    requires 0 <= sponsor < |r.keys| && 0 <= payer < |r.keys| && |r.pre| == |r.post| == |r.keys|
  {
    var q := k.quote;
    var domain, primary := IndexOf(r.keys, q.expected.domain), IndexOf(r.keys, q.expected.primary);
    var user, receiver := IndexOf(r.keys, q.user), IndexOf(r.keys, q.feeReceiver);
    if domain < 0 || primary < 0 || user < 0 || receiver < 0 then None
    else
      var price, domainRent, primaryRent := q.cost.registrationPrice, q.cost.domainRent, q.cost.primaryRent;
      var paid, residual := Delta(r, receiver), r.post[payer];
      if paid < 0 || paid > price || residual != price - paid || Delta(r, domain) != domainRent || Delta(r, primary) != primaryRent
         || Delta(r, user) != 0 || Delta(r, sponsor) != -(price + domainRent + primaryRent + r.fee) || o.payerBalance != residual
         || o.domainOwner != Some(q.user) || o.primaryOwner != Some(q.user) || o.primaryName != Some(q.name)
         || !OnlyChanged(r, [sponsor, payer, domain, primary, user, receiver]) then None
      else Some(Settlement(true, r.fee, price + domainRent + primaryRent + r.fee, 0, residual, r.slot))
  }

  /** None stands for evidence_invalid. */
  function VerifySettlement(p: Policy, k: Case, o: ChainObservation, signed: seq<Byte>): Option<Settlement> {
    if o.status != Final || o.receipt.None? then None
    else
      var r := o.receipt.value;
      var tx := p.decode(signed);
      if r.signed != signed || o.accountSlot < r.slot || !SafeCounter(r.slot) || r.fee < 0 || r.fee > k.feeCap then None
      else if tx.None? || !tx.value.verified || Sha256(tx.value.message) != k.messageHash || !WellFormedReceipt(r, tx.value.keys) then None
      else
        var sponsor, payer := IndexOf(r.keys, k.sponsor), IndexOf(r.keys, k.payer);
        if sponsor != 0 || payer < 0 || (k.kind.Registration? && r.pre[payer] != 0) then None
        else if r.failed then FailedSettlement(r, o, sponsor, payer)
        else if k.kind.Recovery? then RecoverySettlement(k, r, o, sponsor, payer)
        else RegistrationSettlement(k, r, o, sponsor, payer)
  }

  // ----------------------------------------------------------------- conservation

  function Sum(s: seq<int>): int {
    if s == [] then 0 else Sum(s[..|s| - 1]) + s[|s| - 1]
  }

  lemma {:induction false} SumUpdate(s: seq<int>, i: nat, x: int)
    requires i < |s|
    ensures Sum(s[i := x]) == Sum(s) - s[i] + x
  {
    var n := |s| - 1;
    if i == n {
      assert s[i := x][..n] == s[..n];
    } else {
      assert s[i := x][..n] == s[..n][i := x];
      SumUpdate(s[..n], i, x);
    }
  }

  predicate Positions(at: seq<int>, n: nat) {
    forall j :: 0 <= j < |at| ==> 0 <= at[j] < n
  }

  /** The total change over a list of positions. */
  function Changes(pre: seq<int>, post: seq<int>, at: seq<int>): int
    requires |pre| == |post| && Positions(at, |pre|)
  {
    if at == [] then 0 else post[at[0]] - pre[at[0]] + Changes(pre, post, at[1..])
  }

  lemma {:induction false} ChangesElsewhere(pre: seq<int>, post: seq<int>, at: seq<int>, i: nat, x: int)
    requires |pre| == |post| && Positions(at, |pre|) && i < |pre| && i !in at
    ensures Changes(pre[i := x], post, at) == Changes(pre, post, at)
  {
    if at != [] {
      ChangesElsewhere(pre, post, at[1..], i, x);
    }
  }

  /** Balances that differ only at distinct positions differ in total by the changes there. */
  lemma {:induction false} SumOfChanges(pre: seq<int>, post: seq<int>, at: seq<int>)
    requires |pre| == |post| && Positions(at, |pre|) && Distinct(at)
    requires forall i :: 0 <= i < |pre| && i !in at ==> post[i] == pre[i]
    ensures Sum(post) == Sum(pre) + Changes(pre, post, at)
    decreases |at|
  {
    if at == [] {
      assert pre == post;
    } else {
      var i := at[0];
      assert forall j :: 0 <= j < |at| - 1 ==> at[1..][j] == at[j + 1];
      var moved := pre[i := post[i]];
      assert i !in at[1..];
      assert forall j :: 0 <= j < |pre| && j !in at[1..] && j != i ==> j !in at;
      SumOfChanges(moved, post, at[1..]);
      SumUpdate(pre, i, post[i]);
      ChangesElsewhere(pre, post, at[1..], i, post[i]);
    }
  }

  lemma ReceiptTotal(r: Receipt, at: seq<int>)
    requires |r.pre| == |r.post| && Positions(at, |r.pre|) && Distinct(at) && OnlyChanged(r, at)
    ensures Sum(r.post) == Sum(r.pre) + Changes(r.pre, r.post, at)
  {
    forall i | 0 <= i < |r.pre| && i !in at ensures r.post[i] == r.pre[i] {
      assert Delta(r, i) == 0;
    }
    SumOfChanges(r.pre, r.post, at);
  }

  /** The parties the receipt is read by are different accounts. */
  predicate PartiesApart(k: Case) {
    && k.sponsor != k.payer
    && (k.kind.Registration? ==>
          var q := k.quote;
          && Distinct([k.sponsor, k.payer, q.user, q.feeReceiver])
          && (forall x <- [k.sponsor, k.payer, q.user, q.feeReceiver] :: x != q.expected.domain && x != q.expected.primary)
          && q.cost.domainRent != q.cost.primaryRent)
  }

  /** Change of the first account carrying this key. */
  function ChangeOf(r: Receipt, key: Key): int {
    var i := IndexOf(r.keys, key);
    if 0 <= i < |r.pre| && i < |r.post| then Delta(r, i) else 0
  }

  lemma Three(r: Receipt, a: int, b: int)
    requires 0 <= a < |r.pre| && 0 <= b < |r.pre| && |r.pre| == |r.post| && a != b
    ensures Changes(r.pre, r.post, [a]) == Delta(r, a) && Changes(r.pre, r.post, [a, b]) == Delta(r, a) + Delta(r, b)
  {
    assert [a, b][1..] == [b] && [a][1..] == [] && [b][1..] == [];
  }

  lemma FailedConserves(k: Case, r: Receipt, o: ChainObservation, sponsor: int, payer: int)
    requires 0 <= sponsor < |r.keys| && 0 <= payer < |r.keys| && |r.pre| == |r.post| == |r.keys|
    requires FailedSettlement(r, o, sponsor, payer).Some? && sponsor != payer
    ensures Sum(r.post) == Sum(r.pre) - r.fee && r.post[payer] == r.pre[payer]
  {
    ReceiptTotal(r, [sponsor]);
    Three(r, sponsor, payer);
    assert payer !in [sponsor];
  }

  lemma RecoveryConserves(k: Case, r: Receipt, o: ChainObservation, sponsor: int, payer: int)
    requires 0 <= sponsor < |r.keys| && 0 <= payer < |r.keys| && |r.pre| == |r.post| == |r.keys|
    requires RecoverySettlement(k, r, o, sponsor, payer).Some? && sponsor != payer
    ensures Sum(r.post) == Sum(r.pre) - r.fee
  {
    ReceiptTotal(r, [payer, sponsor]);
    Three(r, payer, sponsor);
  }

  lemma Six(r: Receipt, a: int, b: int, c: int, d: int, e: int, f: int)
    requires |r.pre| == |r.post| && 0 <= a < |r.pre| && 0 <= b < |r.pre| && 0 <= c < |r.pre|
    requires 0 <= d < |r.pre| && 0 <= e < |r.pre| && 0 <= f < |r.pre|
    ensures Changes(r.pre, r.post, [a, b, c, d, e, f])
         == Delta(r, a) + Delta(r, b) + Delta(r, c) + Delta(r, d) + Delta(r, e) + Delta(r, f)
  {
    var s2, s3, s4 := [c, d, e, f], [d, e, f], [e, f];
    assert [a, b, c, d, e, f][1..] == [b] + s2 && ([b] + s2)[1..] == s2 && s2[1..] == s3 && s3[1..] == s4 && s4[1..] == [f];
    assert [f][1..] == [];
    assert Changes(r.pre, r.post, [f]) == Delta(r, f);
    assert Changes(r.pre, r.post, s4) == Delta(r, e) + Delta(r, f);
    assert Changes(r.pre, r.post, s3) == Delta(r, d) + Changes(r.pre, r.post, s4);
    assert Changes(r.pre, r.post, s2) == Delta(r, c) + Changes(r.pre, r.post, s3);
    assert Changes(r.pre, r.post, [b] + s2) == Delta(r, b) + Changes(r.pre, r.post, s2);
  }

  /** The six accounts a registration reads are pairwise different, the two records aside. */
  lemma PartiesDiffer(k: Case)
    requires PartiesApart(k) && k.kind.Registration?
    ensures var q := k.quote; var d, m := q.expected.domain, q.expected.primary;
            && k.sponsor != k.payer && k.sponsor != q.user && k.sponsor != q.feeReceiver
            && k.payer != q.user && k.payer != q.feeReceiver && q.user != q.feeReceiver
            && d != k.sponsor && d != k.payer && d != q.user && d != q.feeReceiver
            && m != k.sponsor && m != k.payer && m != q.user && m != q.feeReceiver
  {
    var q := k.quote;
    var parties := [k.sponsor, k.payer, q.user, q.feeReceiver];
    assert parties[0] != parties[1] && parties[0] != parties[2] && parties[0] != parties[3];
    assert parties[1] != parties[2] && parties[1] != parties[3] && parties[2] != parties[3];
    assert parties[0] in parties && parties[1] in parties && parties[2] in parties && parties[3] in parties;
  }

  lemma IndicesDiffer(k: Case, keys: seq<Key>)
    requires PartiesApart(k) && k.kind.Registration?
    requires k.sponsor in keys && k.payer in keys && k.quote.user in keys && k.quote.feeReceiver in keys
    requires k.quote.expected.domain in keys && k.quote.expected.primary in keys
    requires IndexOf(keys, k.quote.expected.domain) != IndexOf(keys, k.quote.expected.primary)
    ensures var q := k.quote;
            Distinct([IndexOf(keys, k.sponsor), IndexOf(keys, k.payer), IndexOf(keys, q.expected.domain), IndexOf(keys, q.expected.primary),
                      IndexOf(keys, q.user), IndexOf(keys, q.feeReceiver)])
  {
    PartiesDiffer(k);
    hide PartiesApart;
  }

  lemma RegistrationConserves(k: Case, r: Receipt, o: ChainObservation)
    requires |r.pre| == |r.post| == |r.keys| && k.sponsor in r.keys && k.payer in r.keys
    requires r.pre[IndexOf(r.keys, k.payer)] == 0 && PartiesApart(k) && k.kind.Registration?
    requires RegistrationSettlement(k, r, o, IndexOf(r.keys, k.sponsor), IndexOf(r.keys, k.payer)).Some?
    ensures Sum(r.post) == Sum(r.pre) - r.fee
  {
    hide OnlyChanged, IndexOf, Sum;
    var q := k.quote;
    var sponsor, payer := IndexOf(r.keys, k.sponsor), IndexOf(r.keys, k.payer);
    var domain, primary := IndexOf(r.keys, q.expected.domain), IndexOf(r.keys, q.expected.primary);
    var user, receiver := IndexOf(r.keys, q.user), IndexOf(r.keys, q.feeReceiver);
    IndicesDiffer(k, r.keys);
    ReceiptTotal(r, [sponsor, payer, domain, primary, user, receiver]);
    Six(r, sponsor, payer, domain, primary, user, receiver);
  }

  /** No account the key names outside the sponsor moved, in whatever position it is listed. */
  predicate Unmoved(r: Receipt, key: Key) {
    forall i :: 0 <= i < |r.keys| && i < |r.pre| && i < |r.post| && r.keys[i] == key ==> r.post[i] == r.pre[i]
  }

  lemma UserUnmoved(p: Policy, k: Case, o: ChainObservation, signed: seq<Byte>)
    requires VerifySettlement(p, k, o, signed).Some? && PartiesApart(k) && k.kind.Registration?
    ensures Unmoved(o.receipt.value, k.quote.user)
  {
    hide PartiesApart, RecoverySettlement, RegistrationSettlement, FailedSettlement, SafeCounter, Unmoved;
    var r := o.receipt.value;
    PartiesDiffer(k);
    if r.failed {
      UserUnmovedFailed(k, r, o);
    } else {
      UserUnmovedRegistered(k, r, o);
    }
  }

  /** The same observation of a payer that held and still holds this balance. */
  function WithBalance(o: ChainObservation, payer: nat, balance: int): ChainObservation
    requires o.receipt.Some? && payer < |o.receipt.value.pre| && payer < |o.receipt.value.post|
  {
    var r := o.receipt.value;
    o.(payerBalance := balance, receipt := Some(r.(pre := r.pre[payer := balance], post := r.post[payer := balance])))
  }

  /** For a failed recovery no balance of the payer is compared with anything: each is accepted and reported. */
  lemma BalanceUnread(p: Policy, k: Case, o: ChainObservation, signed: seq<Byte>, balance: int)
    requires VerifySettlement(p, k, o, signed).Some? && k.kind.Recovery? && o.receipt.value.failed
    requires k.sponsor != k.payer && balance >= 0
    ensures var r, v := o.receipt.value, VerifySettlement(p, k, o, signed).value; var payer := IndexOf(r.keys, k.payer);
            && 0 <= payer < |r.pre| && payer < |r.post|
            && VerifySettlement(p, k, WithBalance(o, payer, balance), signed) == Some(v.(residual := balance))
  {
    hide RecoverySettlement, RegistrationSettlement, SafeCounter;
    var payer := IndexOf(o.receipt.value.keys, k.payer);
    FailedBalance(o.receipt.value, o, payer, balance);
  }

  lemma FailedBalance(r: Receipt, o: ChainObservation, payer: nat, balance: int)
    requires 0 < payer < |r.keys| && |r.pre| == |r.post| == |r.keys| && o.receipt == Some(r) && FailedSettlement(r, o, 0, payer).Some?
    ensures var o' := WithBalance(o, payer, balance);
            FailedSettlement(o'.receipt.value, o', 0, payer) == Some(FailedSettlement(r, o, 0, payer).value.(residual := balance))
  {
    var r' := WithBalance(o, payer, balance).receipt.value;
    forall i | 0 <= i < |r.pre| && i !in [0] ensures Delta(r', i) == 0 {
      assert Delta(r, i) == 0;
    }
  }

  lemma UserUnmovedFailed(k: Case, r: Receipt, o: ChainObservation)
    requires k.sponsor != k.quote.user && |r.pre| == |r.post| == |r.keys| && IndexOf(r.keys, k.sponsor) == 0 && IndexOf(r.keys, k.payer) >= 0
    requires FailedSettlement(r, o, 0, IndexOf(r.keys, k.payer)).Some?
    ensures Unmoved(r, k.quote.user)
  {
    forall i | 0 <= i < |r.keys| && r.keys[i] == k.quote.user ensures r.post[i] == r.pre[i] {
      assert Delta(r, i) == 0;
    }
  }

  lemma UserUnmovedRegistered(k: Case, r: Receipt, o: ChainObservation)
    requires |r.pre| == |r.post| == |r.keys| && IndexOf(r.keys, k.sponsor) == 0 && IndexOf(r.keys, k.payer) >= 0
    requires var q := k.quote;
             && q.user != k.sponsor && q.user != k.payer && q.user != q.feeReceiver && q.user != q.expected.domain && q.user != q.expected.primary
    requires RegistrationSettlement(k, r, o, 0, IndexOf(r.keys, k.payer)).Some?
    ensures Unmoved(r, k.quote.user)
  {
    forall i | 0 <= i < |r.keys| && r.keys[i] == k.quote.user ensures r.post[i] == r.pre[i] {
      assert i == IndexOf(r.keys, k.quote.user) || i !in [0, IndexOf(r.keys, k.payer), IndexOf(r.keys, k.quote.expected.domain),
        IndexOf(r.keys, k.quote.expected.primary), IndexOf(r.keys, k.quote.user), IndexOf(r.keys, k.quote.feeReceiver)];
      assert Delta(r, i) == 0;
    }
  }

  /**
   * In all three outcomes the accepted receipt destroys exactly the fee, the user's
   * balance does not change on a registration, and debit minus recovery is what the
   * sponsor lost.
   */
  lemma ReceiptConservation(p: Policy, k: Case, o: ChainObservation, signed: seq<Byte>)
    requires VerifySettlement(p, k, o, signed).Some? && PartiesApart(k)
    ensures var v, r := VerifySettlement(p, k, o, signed).value, o.receipt.value;
            && Sum(r.post) == Sum(r.pre) - r.fee
            && (k.kind.Registration? ==> Unmoved(r, k.quote.user))
            && v.debit - v.recovered == -ChangeOf(r, k.sponsor)
            && v.success == !r.failed && v.fee == r.fee && v.slot == r.slot
  {
    var r := o.receipt.value;
    var sponsor, payer := IndexOf(r.keys, k.sponsor), IndexOf(r.keys, k.payer);
    if k.kind.Registration? {
      UserUnmoved(p, k, o, signed);
    }
    if r.failed {
      FailedConserves(k, r, o, sponsor, payer);
    } else if k.kind.Recovery? {
      RecoveryConserves(k, r, o, sponsor, payer);
    } else {
      RegistrationConserves(k, r, o);
    }
  }

  /** What the receiver took is the price less what the payer keeps; a failure pays nobody. */
  lemma RegistrationSplit(p: Policy, k: Case, o: ChainObservation, signed: seq<Byte>)
    requires VerifySettlement(p, k, o, signed).Some? && k.kind.Registration? && PartiesApart(k)
    ensures var v, r, c := VerifySettlement(p, k, o, signed).value, o.receipt.value, k.quote.cost;
            if r.failed then v.debit == v.fee && v.residual == 0 && v.recovered == 0
            else v.debit == c.registrationPrice + c.domainRent + c.primaryRent + v.fee && v.recovered == 0
                 && v.residual == c.registrationPrice - ChangeOf(r, k.quote.feeReceiver) && 0 <= ChangeOf(r, k.quote.feeReceiver) <= c.registrationPrice
  {
    var r := o.receipt.value;
    if r.failed {
      FailedConserves(k, r, o, 0, IndexOf(r.keys, k.payer));
    }
  }
}
