/**
 * Transaction construction (src/lib/cookie/transaction.ts:52-100): per-instruction flags,
 * the legacy compiler's merge-and-sort rule, and that they give the validator's message.
 */
module Builder {
  import opened Basics
  import opened Registry
  import opened Wire
  import opened SponsoredMessage

  datatype Meta = Meta(key: Key, signer: bool, writable: bool)

  datatype FlaggedInstruction = FlaggedInstruction(program: Key, metas: seq<Meta>, data: Bytes)

  datatype Compiled = Compiled(header: Bytes, keys: seq<Key>, instructions: seq<Instruction>)

  // ------------------------------------------------------- instruction builders

  function TransferFlagged(p: Policy, from: Key, to: Key, amount: int): FlaggedInstruction {
    FlaggedInstruction(p.system, [Meta(from, true, true), Meta(to, false, true)], TransferData(amount))
  }

  function RegisterFlagged(p: Policy, e: Input): FlaggedInstruction
    requires ValidLabel(e.name)
  {
    FlaggedInstruction(p.program,
      [Meta(p.config, false, false), Meta(p.domainPda(e.name), false, true), Meta(e.attemptPayer, true, true),
       Meta(e.feeReceiver, false, true), Meta(p.system, false, false)],
      REGISTER + LittleEndian(|e.name|, 4) + Ascii(e.name))
  }

  function TransferDomainFlagged(p: Policy, e: Input): FlaggedInstruction {
    FlaggedInstruction(p.program, [Meta(p.domainPda(e.name), false, true), Meta(e.attemptPayer, true, false)], TRANSFER + e.user)
  }

  function SetPrimaryFlagged(p: Policy, e: Input): FlaggedInstruction {
    FlaggedInstruction(p.program,
      [Meta(p.primaryPda(e.user), false, true), Meta(p.domainPda(e.name), false, false), Meta(e.user, true, true),
       Meta(p.system, false, false)], SET_PRIMARY)
  }

  /** The instructions buildSponsoredTransaction adds, in order. */
  function Build(p: Policy, e: Input): seq<FlaggedInstruction>
    requires ValidLabel(e.name)
  {
    var fund := TransferFlagged(p, e.sponsor, e.attemptPayer, e.registrationPrice + e.domainRent);
    if e.primaryRent > 0 then
      [FlaggedInstruction(p.compute, [], COMPUTE_LIMIT), fund, RegisterFlagged(p, e), TransferDomainFlagged(p, e),
       TransferFlagged(p, e.sponsor, e.user, e.primaryRent), SetPrimaryFlagged(p, e)]
    else
      [FlaggedInstruction(p.compute, [], COMPUTE_LIMIT), fund, RegisterFlagged(p, e), TransferDomainFlagged(p, e),
       SetPrimaryFlagged(p, e)]
  }

  // ------------------------------------------------------------- the compiler

  function AccountMetas(ixs: seq<FlaggedInstruction>): seq<Meta> {
    if ixs == [] then [] else ixs[0].metas + AccountMetas(ixs[1..])
  }

  function ProgramMetas(ixs: seq<FlaggedInstruction>): seq<Meta> {
    if ixs == [] then [] else [Meta(ixs[0].program, false, false)] + ProgramMetas(ixs[1..])
  }

  /** Fold one meta into the list of unique metas: flags of a repeated key are OR-ed. */
  function MergeOne(unique: seq<Meta>, m: Meta): seq<Meta> {
    if unique == [] then [m]
    else if unique[0].key == m.key then
      [Meta(m.key, unique[0].signer || m.signer, unique[0].writable || m.writable)] + unique[1..]
    else [unique[0]] + MergeOne(unique[1..], m)
  }

  function Merge(metas: seq<Meta>): seq<Meta> {
    if metas == [] then [] else MergeOne(Merge(metas[..|metas| - 1]), metas[|metas| - 1])
  }

  /** Writable signers, readonly signers, writable accounts, readonly accounts. */
  function Group(m: Meta): int {
    if m.signer then (if m.writable then 0 else 1) else if m.writable then 2 else 3
  }

  predicate Before(rank: Key -> int, a: Meta, b: Meta) {
    Group(a) < Group(b) || (Group(a) == Group(b) && rank(a.key) < rank(b.key))
  }

  function InsertMeta(rank: Key -> int, m: Meta, s: seq<Meta>): seq<Meta> {
    if s == [] || !Before(rank, s[0], m) then [m] + s else [s[0]] + InsertMeta(rank, m, s[1..])
  }

  function SortMetas(rank: Key -> int, s: seq<Meta>): seq<Meta> {
    if s == [] then [] else InsertMeta(rank, s[0], SortMetas(rank, s[1..]))
  }

  function Without(s: seq<Meta>, k: Key): seq<Meta> {
    if s == [] then [] else (if s[0].key == k then [] else [s[0]]) + Without(s[1..], k)
  }

  function Keys(s: seq<Meta>): (r: seq<Key>)
    ensures |r| == |s|
    ensures forall i :: 0 <= i < |s| ==> r[i] == s[i].key
  {
    if s == [] then [] else [s[0].key] + Keys(s[1..])
  }

  function Count(s: seq<Meta>, signer: bool, writable: bool): nat {
    if s == [] then 0
    else (if s[0].signer == signer && s[0].writable == writable then 1 else 0) + Count(s[1..], signer, writable)
  }

  function Strip(ixs: seq<FlaggedInstruction>): seq<Instruction> {
    if ixs == [] then [] else [Instruction(ixs[0].program, Keys(ixs[0].metas), ixs[0].data)] + Strip(ixs[1..])
  }

  /** The fee payer leads as a writable signer; everyone else follows in merged, sorted order. */
  function OrderedMetas(rank: Key -> int, feePayer: Key, ixs: seq<FlaggedInstruction>): seq<Meta> {
    var sorted := SortMetas(rank, Merge(AccountMetas(ixs) + ProgramMetas(ixs)));
    [Meta(feePayer, true, true)] + Without(sorted, feePayer)
  }

  function Compile(rank: Key -> int, feePayer: Key, ixs: seq<FlaggedInstruction>): Option<Compiled> {
    var metas := OrderedMetas(rank, feePayer, ixs);
    var signers, readonlySigned := Count(metas, true, true) + Count(metas, true, false), Count(metas, true, false);
    var readonlyUnsigned := Count(metas, false, false);
    if signers > 255 || readonlyUnsigned > 255 then None
    else
      var header: Bytes := [signers, readonlySigned, readonlyUnsigned];
      Some(Compiled(header, Keys(metas), Strip(ixs)))
  }

  // --------------------------------------------------- merge and sort, abstractly

  ghost predicate HasKey(s: seq<Meta>, k: Key) {
    exists i :: 0 <= i < |s| && s[i].key == k
  }

  ghost predicate SignerIn(s: seq<Meta>, k: Key) {
    exists i :: 0 <= i < |s| && s[i].key == k && s[i].signer
  }

  ghost predicate WritableIn(s: seq<Meta>, k: Key) {
    exists i :: 0 <= i < |s| && s[i].key == k && s[i].writable
  }

  /** `unique` holds each key of `metas` once, with the disjunction of its flags. */
  ghost predicate Merges(unique: seq<Meta>, metas: seq<Meta>) {
    && (forall i, j :: 0 <= i < j < |unique| ==> unique[i].key != unique[j].key)
    && (forall m :: m in unique <==> HasKey(metas, m.key) && m.signer == SignerIn(metas, m.key) && m.writable == WritableIn(metas, m.key))
  }

  ghost predicate UniqueKeys(s: seq<Meta>) {
    forall i, j :: 0 <= i < j < |s| ==> s[i].key != s[j].key
  }

  /** Merging one flagged key: it is added, or its flags join the ones already there. */
  ghost predicate MergedInto(s: seq<Meta>, m: Meta, r: seq<Meta>) {
    && UniqueKeys(r)
    && (forall x :: x in r <==>
          if x.key != m.key then x in s
          else if HasKey(s, m.key) then
            x.signer == (SignerIn(s, m.key) || m.signer) && x.writable == (WritableIn(s, m.key) || m.writable)
          else x == m)
    && (forall k :: HasKey(r, k) <==> HasKey(s, k) || k == m.key)
  }

  lemma {:induction false} MergeOneExact(s: seq<Meta>, m: Meta)
    requires UniqueKeys(s)
    ensures MergedInto(s, m, MergeOne(s, m))
  {
    if s == [] {
      assert forall x :: x in MergeOne(s, m) <==> x == m;
    } else if s[0].key == m.key {
      MergeHere(s, m);
    } else {
      MergeOneExact(s[1..], m);
      MergeLater(s, m);
    }
  }

  lemma MergeHere(s: seq<Meta>, m: Meta)
    requires UniqueKeys(s) && s != [] && s[0].key == m.key
    ensures MergedInto(s, m, MergeOne(s, m))
  {
    var r := MergeOne(s, m);
    assert s == [s[0]] + s[1..];
    assert HasKey(s, m.key);
    assert SignerIn(s, m.key) == s[0].signer;
    assert WritableIn(s, m.key) == s[0].writable;
    assert r[0].key == m.key;
    forall k ensures HasKey(r, k) <==> HasKey(s, k) {
      if i :| 0 <= i < |s| && s[i].key == k { assert r[i].key == k; }
      if i :| 0 <= i < |r| && r[i].key == k { assert s[i].key == k; }
    }
  }

  lemma MergeLater(s: seq<Meta>, m: Meta)
    requires UniqueKeys(s) && s != [] && s[0].key != m.key && MergedInto(s[1..], m, MergeOne(s[1..], m))
    ensures MergedInto(s, m, MergeOne(s, m))
  {
    var t := s[1..];
    var u, r := MergeOne(t, m), MergeOne(s, m);
    assert s == [s[0]] + t && r == [s[0]] + u;
    assert !HasKey(t, s[0].key);
    assert !HasKey(u, s[0].key);
    MergeLaterUnique(s[0], u);
    hide HasKey, SignerIn, WritableIn;
    forall k ensures HasKey(s, k) <==> k == s[0].key || HasKey(t, k)
             ensures SignerIn(s, k) <==> (k == s[0].key && s[0].signer) || SignerIn(t, k)
             ensures WritableIn(s, k) <==> (k == s[0].key && s[0].writable) || WritableIn(t, k)
             ensures HasKey(r, k) <==> k == s[0].key || HasKey(u, k) {
      ConsFlags(s[0], t, k);
      ConsFlags(s[0], u, k);
    }
  }

  lemma MergeLaterUnique(m: Meta, u: seq<Meta>)
    requires UniqueKeys(u) && !HasKey(u, m.key)
    ensures UniqueKeys([m] + u)
  {
  }

  lemma ConsFlags(m: Meta, t: seq<Meta>, k: Key)
    ensures HasKey([m] + t, k) <==> k == m.key || HasKey(t, k)
    ensures SignerIn([m] + t, k) <==> (k == m.key && m.signer) || SignerIn(t, k)
    ensures WritableIn([m] + t, k) <==> (k == m.key && m.writable) || WritableIn(t, k)
  {
    var s := [m] + t;
    assert s[0] == m;
    forall i | 0 <= i < |t| ensures s[i + 1] == t[i] {}
  }

  lemma SnocFlags(t: seq<Meta>, m: Meta, k: Key)
    ensures HasKey(t + [m], k) <==> k == m.key || HasKey(t, k)
    ensures SignerIn(t + [m], k) <==> (k == m.key && m.signer) || SignerIn(t, k)
    ensures WritableIn(t + [m], k) <==> (k == m.key && m.writable) || WritableIn(t, k)
  {
    var s := t + [m];
    assert s[|t|] == m;
    forall i | 0 <= i < |t| ensures s[i] == t[i] {}
  }

  lemma {:induction false} MergeExact(metas: seq<Meta>)
    ensures Merges(Merge(metas), metas)
    ensures forall k :: HasKey(Merge(metas), k) <==> HasKey(metas, k)
  {
    if metas != [] {
      var t, m := metas[..|metas| - 1], metas[|metas| - 1];
      MergeExact(t);
      MergeOneExact(Merge(t), m);
      assert metas == t + [m];
      MergeSnoc(t, m, Merge(t), Merge(metas));
    }
  }

  /** In a merged list the one entry of a key carries the flags of all its occurrences. */
  lemma MergedFlags(t: seq<Meta>, u: seq<Meta>, k: Key)
    requires Merges(u, t) && HasKey(u, k)
    ensures SignerIn(u, k) == SignerIn(t, k) && WritableIn(u, k) == WritableIn(t, k)
  {
    var i :| 0 <= i < |u| && u[i].key == k;
    assert u[i] in u;
  }

  lemma MergeSnoc(t: seq<Meta>, m: Meta, u: seq<Meta>, r: seq<Meta>)
    requires Merges(u, t) && (forall k :: HasKey(u, k) <==> HasKey(t, k)) && MergedInto(u, m, r)
    ensures Merges(r, t + [m]) && forall k :: HasKey(r, k) <==> HasKey(t + [m], k)
  {
    hide HasKey, SignerIn, WritableIn;
    forall k
      ensures HasKey(t + [m], k) <==> k == m.key || HasKey(t, k)
      ensures SignerIn(t + [m], k) <==> (k == m.key && m.signer) || SignerIn(t, k)
      ensures WritableIn(t + [m], k) <==> (k == m.key && m.writable) || WritableIn(t, k)
      ensures !HasKey(t, k) ==> !SignerIn(t, k) && !WritableIn(t, k)
    {
      SnocFlags(t, m, k);
      if !HasKey(t, k) { NoKeyNoFlags(t, k); }
    }
    if HasKey(u, m.key) {
      MergedFlags(t, u, m.key);
    }
  }

  lemma NoKeyNoFlags(t: seq<Meta>, k: Key)
    requires !HasKey(t, k)
    ensures !SignerIn(t, k) && !WritableIn(t, k)
  {
  }

  ghost predicate Ordered(rank: Key -> int, s: seq<Meta>) {
    forall i, j :: 0 <= i < j < |s| ==> Before(rank, s[i], s[j])
  }

  lemma {:induction false} InsertOrdered(rank: Key -> int, m: Meta, s: seq<Meta>)
    requires Ordered(rank, s)
    requires forall x <- s :: Before(rank, x, m) || Before(rank, m, x)
    ensures Ordered(rank, InsertMeta(rank, m, s))
    ensures forall x :: x in InsertMeta(rank, m, s) <==> x == m || x in s
  {
    if s == [] || !Before(rank, s[0], m) {
      assert forall i :: 0 <= i < |s| ==> s[i] in s && Before(rank, m, s[i]);
    } else {
      InsertOrdered(rank, m, s[1..]);
      var r := InsertMeta(rank, m, s[1..]);
      assert s == [s[0]] + s[1..];
      forall i | 0 <= i < |r| ensures Before(rank, s[0], r[i]) {
        assert r[i] in r;
        if r[i] != m {
          var j :| 0 <= j < |s[1..]| && s[1..][j] == r[i];
          assert s[j + 1] == r[i];
        }
      }
    }
  }

  lemma {:induction false} SortOrdered(rank: Key -> int, s: seq<Meta>)
    requires UniqueKeys(s)
    requires forall a, b :: a in s && b in s && rank(a.key) == rank(b.key) ==> a.key == b.key
    ensures Ordered(rank, SortMetas(rank, s))
    ensures forall x :: x in SortMetas(rank, s) <==> x in s
  {
    if s != [] {
      var t := s[1..];
      assert s == [s[0]] + t;
      SortOrdered(rank, t);
      forall x | x in SortMetas(rank, t) ensures Before(rank, x, s[0]) || Before(rank, s[0], x) {
        var i :| 0 <= i < |t| && t[i] == x;
        assert s[i + 1] == x && x.key != s[0].key;
      }
      InsertOrdered(rank, s[0], SortMetas(rank, t));
    }
  }

  lemma {:induction false} WithoutOrdered(rank: Key -> int, s: seq<Meta>, k: Key)
    requires Ordered(rank, s)
    ensures Ordered(rank, Without(s, k))
    ensures forall x :: x in Without(s, k) <==> x in s && x.key != k
  {
    if s != [] {
      var t := s[1..];
      assert s == [s[0]] + t;
      WithoutOrdered(rank, t, k);
      var r := Without(t, k);
      forall i | 0 <= i < |r| ensures Before(rank, s[0], r[i]) {
        assert r[i] in t;
        var j :| 0 <= j < |t| && t[j] == r[i];
        assert s[j + 1] == r[i];
      }
    }
  }

  lemma TailOrdered(rank: Key -> int, s: seq<Meta>)
    requires Ordered(rank, s) && s != []
    ensures Ordered(rank, s[1..]) && s[0] !in s[1..]
  {
    forall i, j | 0 <= i < j < |s[1..]| ensures Before(rank, s[1..][i], s[1..][j]) {
      assert Before(rank, s[i + 1], s[j + 1]);
    }
    forall i | 0 <= i < |s[1..]| ensures s[1..][i] != s[0] {
      assert Before(rank, s[0], s[i + 1]);
    }
  }

  lemma FirstIn(t: seq<Meta>)
    requires t != []
    ensures exists x :: x in t
  {
    assert t[0] in t;
  }

  /** A strictly ordered list is determined by its elements. */
  lemma {:induction false} OrderedUnique(rank: Key -> int, s: seq<Meta>, t: seq<Meta>)
    requires Ordered(rank, s) && Ordered(rank, t)
    requires forall x :: x in s <==> x in t
    ensures s == t
  {
    if s == [] {
      if t != [] { FirstIn(t); }
    } else {
      assert s[0] in t;
      assert t != [];
      assert t[0] in s;
      var i :| 0 <= i < |s| && s[i] == t[0];
      var j :| 0 <= j < |t| && t[j] == s[0];
      assert s[0] == t[0];
      var s', t' := s[1..], t[1..];
      assert s == [s[0]] + s' && t == [t[0]] + t';
      TailOrdered(rank, s);
      TailOrdered(rank, t);
      forall x ensures x in s' <==> x in t' {
        assert x in s <==> x == s[0] || x in s';
        assert x in t <==> x == t[0] || x in t';
      }
      OrderedUnique(rank, s', t');
    }
  }

  // ------------------------------------------------------- builder meets validator

  /** The opaque addresses are pairwise different, and the text order separates the ten keys. */
  ghost predicate SeparateAddresses(p: Policy, e: Input) {
    && Distinct([p.domainPda(e.name), p.primaryPda(e.user), p.config, p.system, p.compute, p.program])
    && (forall a, b :: a in TenKeys(p, e) && b in TenKeys(p, e) && p.rank(a) == p.rank(b) ==> a == b)
  }

  function Flagged(keys: seq<Key>, signer: bool, writable: bool): (r: seq<Meta>)
    ensures |r| == |keys|
    ensures forall i :: 0 <= i < |r| ==> r[i] == Meta(keys[i], signer, writable)
  {
    if keys == [] then [] else [Meta(keys[0], signer, writable)] + Flagged(keys[1..], signer, writable)
  }

  ghost predicate Increasing(rank: Key -> int, s: seq<Key>) {
    forall i, j :: 0 <= i < j < |s| ==> rank(s[i]) < rank(s[j])
  }

  lemma {:induction false} InsertIncreasing(rank: Key -> int, k: Key, s: seq<Key>)
    requires Increasing(rank, s) && forall x <- s :: rank(x) != rank(k)
    ensures Increasing(rank, InsertByRank(rank, k, s))
  {
    if s == [] || rank(k) <= rank(s[0]) {
      assert forall i :: 0 <= i < |s| ==> s[i] in s;
    } else {
      var t := s[1..];
      InsertIncreasing(rank, k, t);
      var r := InsertByRank(rank, k, t);
      forall i | 0 <= i < |r| ensures rank(s[0]) < rank(r[i]) {
        InsertKeepsElements(rank, k, t, r[i]);
        if r[i] != k {
          var j :| 0 <= j < |t| && t[j] == r[i];
          assert s[j + 1] == r[i];
        }
      }
    }
  }

  lemma {:induction false} SortIncreasing(rank: Key -> int, s: seq<Key>)
    requires forall i, j :: 0 <= i < j < |s| ==> rank(s[i]) != rank(s[j])
    ensures Increasing(rank, SortByRank(rank, s))
  {
    if s != [] {
      var t := s[1..];
      SortIncreasing(rank, t);
      forall x | x in SortByRank(rank, t) ensures rank(x) != rank(s[0]) {
        SortKeepsElements(rank, t, x);
        var i :| 0 <= i < |t| && t[i] == x;
        assert s[i + 1] == x;
      }
      InsertIncreasing(rank, s[0], SortByRank(rank, t));
    }
  }

  /** What the merged flags of each of the ten keys must come to. */
  ghost predicate ExpectedFlags(p: Policy, e: Input, metas: seq<Meta>) {
    && (forall k :: HasKey(metas, k) <==> k in TenKeys(p, e))
    && (forall k :: SignerIn(metas, k) <==> k in Actors(e))
    && (forall k :: WritableIn(metas, k) <==> k in Actors(e) + [p.domainPda(e.name), p.primaryPda(e.user), e.feeReceiver])
  }

  /** The flags of an instruction list, one instruction at a time. */
  lemma FlagsAppend(s: seq<Meta>, t: seq<Meta>, k: Key)
    ensures HasKey(s + t, k) <==> HasKey(s, k) || HasKey(t, k)
    ensures SignerIn(s + t, k) <==> SignerIn(s, k) || SignerIn(t, k)
    ensures WritableIn(s + t, k) <==> WritableIn(s, k) || WritableIn(t, k)
  {
    var u := s + t;
    forall i | 0 <= i < |s| ensures u[i] == s[i] {}
    forall i | 0 <= i < |t| ensures u[|s| + i] == t[i] {}
  }

  lemma TransferFlags(p: Policy, from: Key, to: Key, amount: int, k: Key)
    ensures var m := TransferFlagged(p, from, to, amount).metas;
            && (HasKey(m, k) <==> k == from || k == to)
            && (SignerIn(m, k) <==> k == from) && (WritableIn(m, k) <==> k == from || k == to)
  {
    var m := TransferFlagged(p, from, to, amount).metas;
    assert m[0].key == from && m[1].key == to;
  }

  lemma RegisterFlags(p: Policy, e: Input, k: Key)
    requires ValidLabel(e.name)
    ensures var m := RegisterFlagged(p, e).metas; var domain := p.domainPda(e.name);
            && (HasKey(m, k) <==> k == p.config || k == domain || k == e.attemptPayer || k == e.feeReceiver || k == p.system)
            && (SignerIn(m, k) <==> k == e.attemptPayer)
            && (WritableIn(m, k) <==> k == domain || k == e.attemptPayer || k == e.feeReceiver)
  {
    var m := RegisterFlagged(p, e).metas;
    assert m[0].key == p.config && m[1].key == p.domainPda(e.name) && m[2].key == e.attemptPayer;
    assert m[3].key == e.feeReceiver && m[4].key == p.system;
  }

  lemma TransferDomainFlags(p: Policy, e: Input, k: Key)
    ensures var m := TransferDomainFlagged(p, e).metas; var domain := p.domainPda(e.name);
            && (HasKey(m, k) <==> k == domain || k == e.attemptPayer)
            && (SignerIn(m, k) <==> k == e.attemptPayer) && (WritableIn(m, k) <==> k == domain)
  {
    var m := TransferDomainFlagged(p, e).metas;
    assert m[0].key == p.domainPda(e.name) && m[1].key == e.attemptPayer;
  }

  lemma SetPrimaryFlags(p: Policy, e: Input, k: Key)
    ensures var m := SetPrimaryFlagged(p, e).metas; var primary, domain := p.primaryPda(e.user), p.domainPda(e.name);
            && (HasKey(m, k) <==> k == primary || k == domain || k == e.user || k == p.system)
            && (SignerIn(m, k) <==> k == e.user) && (WritableIn(m, k) <==> k == primary || k == e.user)
  {
    var m := SetPrimaryFlagged(p, e).metas;
    assert m[0].key == p.primaryPda(e.user) && m[1].key == p.domainPda(e.name);
    assert m[2].key == e.user && m[3].key == p.system;
  }

  /** The built list, instruction by instruction. */
  lemma BuildParts(p: Policy, e: Input)
    requires ValidLabel(e.name)
    ensures var b := Build(p, e);
            && |b| == (if e.primaryRent > 0 then 6 else 5)
            && b[0].metas == [] && b[0].program == p.compute
            && b[1] == TransferFlagged(p, e.sponsor, e.attemptPayer, e.registrationPrice + e.domainRent)
            && b[2] == RegisterFlagged(p, e) && b[3] == TransferDomainFlagged(p, e)
            && (e.primaryRent > 0 ==> b[4] == TransferFlagged(p, e.sponsor, e.user, e.primaryRent) && b[5] == SetPrimaryFlagged(p, e))
            && (e.primaryRent <= 0 ==> b[4] == SetPrimaryFlagged(p, e))
  {
    hide TransferFlagged, RegisterFlagged, TransferDomainFlagged, SetPrimaryFlagged;
  }

  lemma ProgramFlags(p: Policy, e: Input, k: Key)
    requires ValidLabel(e.name)
    ensures var m := ProgramMetas(Build(p, e));
            && (HasKey(m, k) <==> k == p.compute || k == p.system || k == p.program)
            && !SignerIn(m, k) && !WritableIn(m, k)
  {
    hide Build, ProgramMetas;
    ProgramList(p, e);
    PlainFlags(p.compute, p.system, p.program, ProgramMetas(Build(p, e)), k);
  }

  lemma PlainFlags(a: Key, b: Key, c: Key, m: seq<Meta>, k: Key)
    requires var x, y, z := Meta(a, false, false), Meta(b, false, false), Meta(c, false, false);
             m == [x, y, z, z, y, z] || m == [x, y, z, z, z]
    ensures (HasKey(m, k) <==> k == a || k == b || k == c) && !SignerIn(m, k) && !WritableIn(m, k)
  {
    assert m[0].key == a && m[1].key == b && m[2].key == c;
  }

  lemma NoPrograms()
    ensures ProgramMetas([]) == []
  {
  }

  lemma ProgramsOfParts(p: Policy, e: Input)
    requires ValidLabel(e.name)
    ensures forall from: Key, to: Key, amount: int :: TransferFlagged(p, from, to, amount).program == p.system
    ensures RegisterFlagged(p, e).program == p.program && TransferDomainFlagged(p, e).program == p.program
    ensures SetPrimaryFlagged(p, e).program == p.program
  {
  }

  lemma ProgramList(p: Policy, e: Input)
    requires ValidLabel(e.name)
    ensures var c, s, g := Meta(p.compute, false, false), Meta(p.system, false, false), Meta(p.program, false, false);
            ProgramMetas(Build(p, e)) == if e.primaryRent > 0 then [c, s, g, g, s, g] else [c, s, g, g, g]
  {
    hide TransferFlagged, RegisterFlagged, TransferDomainFlagged, SetPrimaryFlagged, ProgramMetas, Build;
    var b := Build(p, e);
    BuildParts(p, e);
    ProgramsOfParts(p, e);
    assert b[|b|..] == [];
    NoPrograms();
    ProgramOfTail(b, 0);
    ProgramOfTail(b, 1);
    ProgramOfTail(b, 2);
    ProgramOfTail(b, 3);
    ProgramOfTail(b, 4);
    assert b[0..] == b;
    if e.primaryRent > 0 {
      ProgramOfTail(b, 5);
    }
  }

  lemma ProgramOfTail(ixs: seq<FlaggedInstruction>, i: nat)
    requires i < |ixs|
    ensures ProgramMetas(ixs[i..]) == [Meta(ixs[i].program, false, false)] + ProgramMetas(ixs[i + 1..])
  {
    assert ixs[i..][1..] == ixs[i + 1..];
  }

  lemma EndOfTail(ixs: seq<FlaggedInstruction>, k: Key)
    ensures var m := AccountMetas(ixs[|ixs|..]); !HasKey(m, k) && !SignerIn(m, k) && !WritableIn(m, k)
  {
    assert ixs[|ixs|..] == [];
  }

  lemma AccountsOfTail(ixs: seq<FlaggedInstruction>, i: nat, k: Key)
    requires i < |ixs|
    ensures var rest := AccountMetas(ixs[i + 1..]);
            && (HasKey(AccountMetas(ixs[i..]), k) <==> HasKey(ixs[i].metas, k) || HasKey(rest, k))
            && (SignerIn(AccountMetas(ixs[i..]), k) <==> SignerIn(ixs[i].metas, k) || SignerIn(rest, k))
            && (WritableIn(AccountMetas(ixs[i..]), k) <==> WritableIn(ixs[i].metas, k) || WritableIn(rest, k))
  {
    assert ixs[i..][1..] == ixs[i + 1..];
    FlagsAppend(ixs[i].metas, AccountMetas(ixs[i + 1..]), k);
  }

  /** Named accounts of the three registry instructions, as disjunctions. */
  ghost predicate Named(p: Policy, e: Input, k: Key) {
    k == e.attemptPayer || k == e.user || k == p.domainPda(e.name) || k == p.primaryPda(e.user) || k == e.feeReceiver
    || k == p.config || k == p.system
  }

  ghost predicate NamedWritable(p: Policy, e: Input, k: Key) {
    k == e.attemptPayer || k == e.user || k == p.domainPda(e.name) || k == p.primaryPda(e.user) || k == e.feeReceiver
  }

  /** The instructions from position 2 on: registry calls around an optional rent transfer. */
  lemma TailFlags(p: Policy, e: Input, k: Key)
    requires ValidLabel(e.name)
    ensures var m := AccountMetas(Build(p, e)[2..]);
            && (HasKey(m, k) || k == e.sponsor <==> Named(p, e, k) || k == e.sponsor)
            && (SignerIn(m, k) || k == e.sponsor <==> k == e.attemptPayer || k == e.user || k == e.sponsor)
            && (WritableIn(m, k) || k == e.sponsor <==> NamedWritable(p, e, k) || k == e.sponsor)
  {
    hide HasKey, SignerIn, WritableIn, AccountMetas, Build, TransferFlagged, RegisterFlagged, TransferDomainFlagged, SetPrimaryFlagged;
    var b := Build(p, e);
    BuildParts(p, e);
    EndOfTail(b, k);
    RegisterFlags(p, e, k);
    TransferDomainFlags(p, e, k);
    SetPrimaryFlags(p, e, k);
    AccountsOfTail(b, 2, k);
    AccountsOfTail(b, 3, k);
    AccountsOfTail(b, 4, k);
    if e.primaryRent > 0 {
      AccountsOfTail(b, 5, k);
      TransferFlags(p, e.sponsor, e.user, e.primaryRent, k);
    }
  }

  lemma NoMetas(k: Key)
    ensures !HasKey([], k) && !SignerIn([], k) && !WritableIn([], k)
  {
  }

  lemma AccountFlags(p: Policy, e: Input, k: Key)
    requires ValidLabel(e.name)
    ensures var m := AccountMetas(Build(p, e));
            && (HasKey(m, k) <==> Named(p, e, k) || k == e.sponsor)
            && (SignerIn(m, k) <==> k == e.attemptPayer || k == e.user || k == e.sponsor)
            && (WritableIn(m, k) <==> NamedWritable(p, e, k) || k == e.sponsor)
  {
    hide SignerIn, WritableIn, HasKey, AccountMetas, Build, TransferFlagged;
    var b := Build(p, e);
    BuildParts(p, e);
    NoMetas(k);
    assert b[0..] == b;
    AccountsOfTail(b, 0, k);
    AccountsOfTail(b, 1, k);
    TransferFlags(p, e.sponsor, e.attemptPayer, e.registrationPrice + e.domainRent, k);
    TailFlags(p, e, k);
  }

  /** Merged over all instructions, with or without the rent transfer, the flags come out as expected. */
  lemma BuildFlags(p: Policy, e: Input)
    requires ValidLabel(e.name)
    ensures ExpectedFlags(p, e, AccountMetas(Build(p, e)) + ProgramMetas(Build(p, e)))
  {
    hide Build, AccountMetas, ProgramMetas, HasKey, SignerIn, WritableIn;
    forall k
      ensures HasKey(AccountMetas(Build(p, e)) + ProgramMetas(Build(p, e)), k) <==> k in TenKeys(p, e)
      ensures SignerIn(AccountMetas(Build(p, e)) + ProgramMetas(Build(p, e)), k) <==> k in Actors(e)
      ensures WritableIn(AccountMetas(Build(p, e)) + ProgramMetas(Build(p, e)), k)
              <==> k in Actors(e) + [p.domainPda(e.name), p.primaryPda(e.user), e.feeReceiver]
    {
      FlagsAppend(AccountMetas(Build(p, e)), ProgramMetas(Build(p, e)), k);
      AccountFlags(p, e, k);
      ProgramFlags(p, e, k);
    }
  }

  /** The nine keys after the fee payer, grouped and ordered as the validator lists them. */
  ghost function ExpectedMetas(p: Policy, e: Input): seq<Meta> {
    Flagged(SortByRank(p.rank, [e.attemptPayer, e.user]), true, true)
    + Flagged(SortByRank(p.rank, [p.domainPda(e.name), p.primaryPda(e.user), e.feeReceiver]), false, true)
    + Flagged(SortByRank(p.rank, [p.config, p.system, p.compute, p.program]), false, false)
  }

  lemma FlaggedMembers(keys: seq<Key>, signer: bool, writable: bool, m: Meta)
    ensures m in Flagged(keys, signer, writable) <==> m.key in keys && m.signer == signer && m.writable == writable
  {
    if keys != [] {
      FlaggedMembers(keys[1..], signer, writable, m);
      assert keys == [keys[0]] + keys[1..];
    }
  }

  lemma ExpectedMembers(p: Policy, e: Input, m: Meta)
    ensures m in ExpectedMetas(p, e) <==>
            || (m.key in [e.attemptPayer, e.user] && m.signer && m.writable)
            || (m.key in [p.domainPda(e.name), p.primaryPda(e.user), e.feeReceiver] && !m.signer && m.writable)
            || (m.key in [p.config, p.system, p.compute, p.program] && !m.signer && !m.writable)
  {
    var s2, s3 := [e.attemptPayer, e.user], [p.domainPda(e.name), p.primaryPda(e.user), e.feeReceiver];
    var s4 := [p.config, p.system, p.compute, p.program];
    FlaggedMembers(SortByRank(p.rank, s2), true, true, m);
    FlaggedMembers(SortByRank(p.rank, s3), false, true, m);
    FlaggedMembers(SortByRank(p.rank, s4), false, false, m);
    SortKeepsElements(p.rank, s2, m.key);
    SortKeepsElements(p.rank, s3, m.key);
    SortKeepsElements(p.rank, s4, m.key);
  }

  lemma FlaggedOrdered(rank: Key -> int, keys: seq<Key>, signer: bool, writable: bool)
    requires Increasing(rank, keys)
    ensures Ordered(rank, Flagged(keys, signer, writable))
  {
  }

  lemma GroupsOrdered(rank: Key -> int, a: seq<Meta>, b: seq<Meta>, g: int)
    requires Ordered(rank, a) && Ordered(rank, b)
    requires (forall x <- a :: Group(x) <= g) && (forall x <- b :: Group(x) > g)
    ensures Ordered(rank, a + b)
  {
    var s := a + b;
    forall i, j | 0 <= i < j < |s| ensures Before(rank, s[i], s[j]) {
      if i < |a| <= j {
        assert s[i] in a && s[j] in b;
      }
    }
  }

  /** The three privilege groups name different accounts. */
  ghost predicate GroupsApart(p: Policy, e: Input) {
    && e.sponsor != e.attemptPayer && e.sponsor != e.user && e.attemptPayer != e.user
    && (forall k <- Actors(e) :: k !in WritableKeys(p, e) && k !in ReadonlyKeys(p, e))
    && (forall k <- WritableKeys(p, e) :: k !in ReadonlyKeys(p, e))
    && Distinct(WritableKeys(p, e)) && Distinct(ReadonlyKeys(p, e))
  }

  function WritableKeys(p: Policy, e: Input): seq<Key> {
    [p.domainPda(e.name), p.primaryPda(e.user), e.feeReceiver]
  }

  function ReadonlyKeys(p: Policy, e: Input): seq<Key> {
    [p.config, p.system, p.compute, p.program]
  }

  lemma SeparatePairs(p: Policy, e: Input)
    requires SeparateAddresses(p, e)
    ensures Distinct(ReadonlyKeys(p, e)) && p.domainPda(e.name) != p.primaryPda(e.user)
    ensures p.domainPda(e.name) !in ReadonlyKeys(p, e) && p.primaryPda(e.user) !in ReadonlyKeys(p, e)
  {
    var q := [p.domainPda(e.name), p.primaryPda(e.user), p.config, p.system, p.compute, p.program];
    assert q[0] != q[1] && q[0] != q[2] && q[0] != q[3] && q[0] != q[4] && q[0] != q[5];
    assert q[1] != q[2] && q[1] != q[3] && q[1] != q[4] && q[1] != q[5];
    assert q[2] != q[3] && q[2] != q[4] && q[2] != q[5] && q[3] != q[4] && q[3] != q[5] && q[4] != q[5];
  }

  lemma ProtectedApart(p: Policy, e: Input, k: Key)
    requires k !in Protected(p, e)
    ensures k != p.domainPda(e.name) && k != p.primaryPda(e.user) && k !in ReadonlyKeys(p, e)
  {
    var pr := Protected(p, e);
    assert pr[0] in pr && pr[1] in pr && pr[2] in pr && pr[3] in pr && pr[4] in pr && pr[5] in pr;
  }

  lemma AdmissibleApart(p: Policy, e: Input)
    requires Admissible(p, e) && SeparateAddresses(p, e)
    ensures GroupsApart(p, e)
  {
    SeparatePairs(p, e);
    hide SeparateAddresses, ValidLabel;
    var a := Actors(e);
    assert a[0] != a[1] && a[0] != a[2] && a[1] != a[2];
    var all := a + [e.feeReceiver];
    assert all[3] in all;
    ProtectedApart(p, e, e.feeReceiver);
    forall k <- a ensures k !in WritableKeys(p, e) && k !in ReadonlyKeys(p, e) {
      assert k in all;
      ProtectedApart(p, e, k);
    }
  }

  lemma RanksDiffer(p: Policy, e: Input, s: seq<Key>)
    requires SeparateAddresses(p, e) && Distinct(s) && forall k <- s :: k in TenKeys(p, e)
    ensures forall i, j :: 0 <= i < j < |s| ==> p.rank(s[i]) != p.rank(s[j])
  {
    forall i, j | 0 <= i < j < |s| ensures p.rank(s[i]) != p.rank(s[j]) {
      assert s[i] in s && s[j] in s;
    }
  }

  lemma ExpectedOrdered(p: Policy, e: Input)
    requires GroupsApart(p, e) && SeparateAddresses(p, e)
    ensures Ordered(p.rank, ExpectedMetas(p, e))
  {
    var s2, s3, s4 := [e.attemptPayer, e.user], WritableKeys(p, e), ReadonlyKeys(p, e);
    RanksDiffer(p, e, s2);
    RanksDiffer(p, e, s3);
    RanksDiffer(p, e, s4);
    SortIncreasing(p.rank, s2);
    SortIncreasing(p.rank, s3);
    SortIncreasing(p.rank, s4);
    var f2 := Flagged(SortByRank(p.rank, s2), true, true);
    var f3 := Flagged(SortByRank(p.rank, s3), false, true);
    var f4 := Flagged(SortByRank(p.rank, s4), false, false);
    FlaggedOrdered(p.rank, SortByRank(p.rank, s2), true, true);
    FlaggedOrdered(p.rank, SortByRank(p.rank, s3), false, true);
    FlaggedOrdered(p.rank, SortByRank(p.rank, s4), false, false);
    GroupsOrdered(p.rank, f2, f3, 1);
    GroupsOrdered(p.rank, f2 + f3, f4, 2);
  }

  lemma MergedMembers(p: Policy, e: Input, m: Meta)
    requires ValidLabel(e.name) && GroupsApart(p, e)
    ensures var merged := Merge(AccountMetas(Build(p, e)) + ProgramMetas(Build(p, e)));
            m in merged && m.key != e.sponsor <==> m in ExpectedMetas(p, e)
  {
    var metas := AccountMetas(Build(p, e)) + ProgramMetas(Build(p, e));
    BuildFlags(p, e);
    MergeExact(metas);
    ExpectedMembers(p, e, m);
    GroupCases(p, e, m, metas);
  }

  lemma GroupCases(p: Policy, e: Input, m: Meta, metas: seq<Meta>)
    requires GroupsApart(p, e) && ExpectedFlags(p, e, metas)
    ensures HasKey(metas, m.key) && m.signer == SignerIn(metas, m.key) && m.writable == WritableIn(metas, m.key) && m.key != e.sponsor
            <==> || (m.key in [e.attemptPayer, e.user] && m.signer && m.writable)
                 || (m.key in WritableKeys(p, e) && !m.signer && m.writable)
                 || (m.key in ReadonlyKeys(p, e) && !m.signer && !m.writable)
  {
    var k := m.key;
    assert k in TenKeys(p, e) <==> k in Actors(e) || k in WritableKeys(p, e) || k in ReadonlyKeys(p, e);
    assert k in Actors(e) + WritableKeys(p, e) <==> k in Actors(e) || k in WritableKeys(p, e);
    assert k in Actors(e) <==> k == e.sponsor || k in [e.attemptPayer, e.user];
    assert e.sponsor in Actors(e);
  }

  /** The compiled account list is the validator's, flag for flag. */
  lemma OrderedMetasExact(p: Policy, e: Input)
    requires Admissible(p, e) && SeparateAddresses(p, e)
    ensures OrderedMetas(p.rank, e.sponsor, Build(p, e)) == [Meta(e.sponsor, true, true)] + ExpectedMetas(p, e)
  {
    AdmissibleApart(p, e);
    var metas := AccountMetas(Build(p, e)) + ProgramMetas(Build(p, e));
    var merged := Merge(metas);
    BuildFlags(p, e);
    MergeExact(metas);
    forall a, b | a in merged && b in merged && p.rank(a.key) == p.rank(b.key) ensures a.key == b.key {
      assert HasKey(metas, a.key) && HasKey(metas, b.key);
    }
    SortOrdered(p.rank, merged);
    var sorted := SortMetas(p.rank, merged);
    WithoutOrdered(p.rank, sorted, e.sponsor);
    ExpectedOrdered(p, e);
    forall m ensures m in Without(sorted, e.sponsor) <==> m in ExpectedMetas(p, e) {
      MergedMembers(p, e, m);
    }
    OrderedUnique(p.rank, Without(sorted, e.sponsor), ExpectedMetas(p, e));
  }

  lemma KeysAppend(s: seq<Meta>, t: seq<Meta>)
    ensures Keys(s + t) == Keys(s) + Keys(t)
    ensures forall g, w :: Count(s + t, g, w) == Count(s, g, w) + Count(t, g, w)
  {
    if s == [] {
      assert s + t == t;
    } else {
      assert (s + t)[1..] == s[1..] + t;
      KeysAppend(s[1..], t);
    }
  }

  lemma FlaggedKeys(keys: seq<Key>, signer: bool, writable: bool)
    ensures Keys(Flagged(keys, signer, writable)) == keys
    ensures forall g, w :: Count(Flagged(keys, signer, writable), g, w) == if g == signer && w == writable then |keys| else 0
  {
    if keys != [] {
      FlaggedKeys(keys[1..], signer, writable);
    }
  }

  ghost predicate Stripped(b: FlaggedInstruction, r: Instruction) {
    r == Instruction(b.program, Keys(b.metas), b.data)
  }

  lemma TransferStripped(p: Policy, from: Key, to: Key, amount: int)
    ensures Stripped(TransferFlagged(p, from, to, amount), TransferIx(p, from, to, amount))
  {
    assert Keys(TransferFlagged(p, from, to, amount).metas) == [from, to];
  }

  lemma RegisterStripped(p: Policy, e: Input)
    requires ValidLabel(e.name)
    ensures Stripped(RegisterFlagged(p, e), RegisterIx(p, e))
  {
    assert Keys(RegisterFlagged(p, e).metas) == RegisterIx(p, e).accounts;
  }

  lemma TransferDomainStripped(p: Policy, e: Input)
    ensures Stripped(TransferDomainFlagged(p, e), TransferDomainIx(p, e))
  {
    assert Keys(TransferDomainFlagged(p, e).metas) == TransferDomainIx(p, e).accounts;
  }

  lemma SetPrimaryStripped(p: Policy, e: Input)
    ensures Stripped(SetPrimaryFlagged(p, e), SetPrimaryIx(p, e))
  {
    assert Keys(SetPrimaryFlagged(p, e).metas) == SetPrimaryIx(p, e).accounts;
  }

  lemma InstructionParts(p: Policy, e: Input)
    requires ValidLabel(e.name)
    ensures var r := Instructions(p, e);
            && |r| == (if e.primaryRent > 0 then 6 else 5)
            && r[0] == ComputeLimitIx(p)
            && r[1] == TransferIx(p, e.sponsor, e.attemptPayer, e.registrationPrice + e.domainRent)
            && r[2] == RegisterIx(p, e) && r[3] == TransferDomainIx(p, e)
            && (e.primaryRent > 0 ==> r[4] == TransferIx(p, e.sponsor, e.user, e.primaryRent) && r[5] == SetPrimaryIx(p, e))
            && (e.primaryRent <= 0 ==> r[4] == SetPrimaryIx(p, e))
  {
    hide TransferIx, RegisterIx, TransferDomainIx, SetPrimaryIx, ComputeLimitIx;
  }

  lemma ComputeStripped(p: Policy, e: Input)
    requires ValidLabel(e.name)
    ensures Stripped(Build(p, e)[0], ComputeLimitIx(p))
  {
    assert Keys([]) == [];
  }

  lemma PartStripped(p: Policy, e: Input, j: nat)
    requires ValidLabel(e.name) && j < |Build(p, e)| && |Build(p, e)| == |Instructions(p, e)|
    ensures Stripped(Build(p, e)[j], Instructions(p, e)[j])
  {
    ComputeStripped(p, e);
    RegisterStripped(p, e);
    TransferDomainStripped(p, e);
    SetPrimaryStripped(p, e);
    TransferStripped(p, e.sponsor, e.attemptPayer, e.registrationPrice + e.domainRent);
    TransferStripped(p, e.sponsor, e.user, e.primaryRent);
    BuildParts(p, e);
    InstructionParts(p, e);
    hide *;
  }

  lemma StripBuild(p: Policy, e: Input)
    requires ValidLabel(e.name)
    ensures Strip(Build(p, e)) == Instructions(p, e)
  {
    hide Build, Instructions, Strip, Stripped;
    var b, r := Build(p, e), Instructions(p, e);
    BuildParts(p, e);
    InstructionParts(p, e);
    forall j: nat | j < |b| ensures Stripped(b[j], r[j]) {
      PartStripped(p, e, j);
    }
    assert b[0..] == b && r[0..] == r;
    StripTail(b, r, 0);
  }

  lemma {:induction false} StripTail(b: seq<FlaggedInstruction>, r: seq<Instruction>, i: nat)
    requires |b| == |r| && i <= |b|
    requires forall j :: 0 <= j < |b| ==> Stripped(b[j], r[j])
    ensures Strip(b[i..]) == r[i..]
    decreases |b| - i
  {
    if i < |b| {
      StripTail(b, r, i + 1);
      assert Stripped(b[i], r[i]);
      assert b[i..][1..] == b[i + 1..];
    }
  }

  /**
   * For every admissible input, with or without the rent transfer, compiling the built
   * instructions gives the validator's header, its ten-key order and its instructions.
   */
  lemma BuilderMeetsValidator(p: Policy, e: Input)
    requires Admissible(p, e) && SeparateAddresses(p, e)
    ensures Compile(p.rank, e.sponsor, Build(p, e)) == Some(Compiled([3, 0, 4], AccountKeys(p, e), Instructions(p, e)))
  {
    hide Build, Instructions, SeparateAddresses, OrderedMetas, ExpectedMetas, AccountKeys, Strip, Keys, Count;
    OrderedMetasExact(p, e);
    StripBuild(p, e);
    ExpectedCounts(p, e);
  }

  /** Privilege counts and key order of the expected list. */
  lemma ExpectedCounts(p: Policy, e: Input)
    ensures var metas := [Meta(e.sponsor, true, true)] + ExpectedMetas(p, e);
            && Keys(metas) == AccountKeys(p, e)
            && Count(metas, true, true) == 3 && Count(metas, true, false) == 0 && Count(metas, false, false) == 4
  {
    hide SortByRank, Flagged, Keys, Count;
    var s2 := SortByRank(p.rank, [e.attemptPayer, e.user]);
    var s3 := SortByRank(p.rank, [p.domainPda(e.name), p.primaryPda(e.user), e.feeReceiver]);
    var s4 := SortByRank(p.rank, [p.config, p.system, p.compute, p.program]);
    var f2, f3, f4 := Flagged(s2, true, true), Flagged(s3, false, true), Flagged(s4, false, false);
    FlaggedKeys(s2, true, true);
    FlaggedKeys(s3, false, true);
    FlaggedKeys(s4, false, false);
    KeysAppend(f2, f3);
    KeysAppend(f2 + f3, f4);
    var head := [Meta(e.sponsor, true, true)];
    KeysAppend(head, f2 + f3 + f4);
    OneMeta(e.sponsor);
    assert [e.sponsor] + (s2 + s3 + s4) == AccountKeys(p, e);
  }

  lemma OneMeta(k: Key)
    ensures var head := [Meta(k, true, true)];
            Keys(head) == [k] && Count(head, true, true) == 1 && Count(head, true, false) == 0 && Count(head, false, false) == 0
  {
    var head := [Meta(k, true, true)];
    assert head[1..] == [];
  }
}
