/**
 * The one residual-recovery message (src/lib/execution/crypto.ts:202-243): a sweep of an
 * exact amount from the attempt payer back to the sponsor.
 */
module RecoveryMessages {
  import opened Basics
  import opened Registry
  import opened Wire
  import opened SponsoredMessage
  import opened Builder

  predicate ValidActors(p: Policy, sponsor: Key, payer: Key, amount: int) {
    && p.onCurve(sponsor) && p.onCurve(payer) && sponsor != payer
    && sponsor != p.system && sponsor != p.compute && payer != p.system && payer != p.compute
    && 0 < amount <= U64_MAX
  }

  /** Two writable signers, two readonly programs, a compute limit of 20,000 and one exact transfer. */
  function RecoveryTemplate(p: Policy, sponsor: Key, payer: Key, amount: int, blockhash: Key): Bytes {
    [2, 0, 2, 4] + sponsor + payer + p.system + p.compute + blockhash
    + [2, 3, 0, 5, 2, 0x20, 0x4e, 0, 0] + [2, 2, 1, 0, 12] + TransferData(amount)
  }

  /** None stands for recovery_invalid. */
  function RecoveryMessage(p: Policy, sponsor: Key, payer: Key, amount: int, blockhash: Key): Option<Bytes> {
    if ValidActors(p, sponsor, payer, amount) then Some(RecoveryTemplate(p, sponsor, payer, amount, blockhash)) else None
  }

  // ------------------------------------------------------- builder meets template

  const RECOVERY_LIMIT: Bytes := [2, 0x20, 0x4e, 0, 0]

  /** The two instructions buildRecoveryTransaction adds. */
  function BuildRecovery(p: Policy, sponsor: Key, payer: Key, amount: int): seq<FlaggedInstruction> {
    [FlaggedInstruction(p.compute, [], RECOVERY_LIMIT), TransferFlagged(p, payer, sponsor, amount)]
  }

  function RecoveryKeys(p: Policy, sponsor: Key, payer: Key): seq<Key> {
    [sponsor, payer, p.system, p.compute]
  }

  function RecoveryInstructions(p: Policy, sponsor: Key, payer: Key, amount: int): seq<Instruction> {
    [Instruction(p.compute, [], RECOVERY_LIMIT), Instruction(p.system, [payer, sponsor], TransferData(amount))]
  }

  lemma RecoveryMerged(p: Policy, sponsor: Key, payer: Key, amount: int)
    requires ValidActors(p, sponsor, payer, amount) && p.system != p.compute
    ensures var ixs := BuildRecovery(p, sponsor, payer, amount);
            Merge(AccountMetas(ixs) + ProgramMetas(ixs))
            == [Meta(payer, true, true), Meta(sponsor, false, true), Meta(p.compute, false, false), Meta(p.system, false, false)]
  {
    var ixs := BuildRecovery(p, sponsor, payer, amount);
    var a, b, c, d := Meta(payer, true, true), Meta(sponsor, false, true), Meta(p.compute, false, false), Meta(p.system, false, false);
    assert ixs[1..][1..] == [];
    assert AccountMetas(ixs[1..]) == [a, b];
    assert AccountMetas(ixs) == [a, b];
    assert ProgramMetas(ixs[1..]) == [d];
    assert ProgramMetas(ixs) == [c, d];
    assert [a, b] + [c, d] == [a, b, c, d];
    MergeDistinct([a, b, c, d]);
  }

  lemma {:induction false} MergeFresh(unique: seq<Meta>, m: Meta)
    requires forall i :: 0 <= i < |unique| ==> unique[i].key != m.key
    ensures MergeOne(unique, m) == unique + [m]
  {
    if unique != [] {
      MergeFresh(unique[1..], m);
      assert unique == [unique[0]] + unique[1..];
    }
  }

  /** Metas with different keys merge to themselves. */
  lemma {:induction false} MergeDistinct(metas: seq<Meta>)
    requires forall i, j :: 0 <= i < j < |metas| ==> metas[i].key != metas[j].key
    ensures Merge(metas) == metas
  {
    hide MergeOne;
    if metas != [] {
      var n := |metas| - 1;
      MergeDistinct(metas[..n]);
      MergeFresh(metas[..n], metas[n]);
    }
  }

  lemma RecoverySorted(rank: Key -> int, a: Meta, b: Meta, c: Meta, d: Meta)
    requires Group(a) == 0 && Group(b) == 2 && Group(c) == 3 && Group(d) == 3 && rank(d.key) < rank(c.key)
    ensures SortMetas(rank, [a, b, c, d]) == [a, b, d, c]
  {
    assert [a, b, c, d][1..] == [b, c, d] && [b, c, d][1..] == [c, d] && [c, d][1..] == [d] && [d][1..] == [];
    assert SortMetas(rank, [d]) == [d];
    assert InsertMeta(rank, c, []) == [c];
    assert SortMetas(rank, [c, d]) == [d, c];
    assert SortMetas(rank, [b, c, d]) == [b, d, c];
  }

  lemma WithoutSecond(a: Meta, b: Meta, c: Meta, d: Meta)
    requires a.key != b.key && c.key != b.key && d.key != b.key
    ensures Without([a, b, c, d], b.key) == [a, c, d]
  {
    assert [a, b, c, d][1..] == [b, c, d] && [b, c, d][1..] == [c, d] && [c, d][1..] == [d] && [d][1..] == [];
    assert Without([d], b.key) == [d];
    assert Without([c, d], b.key) == [c, d];
    assert Without([b, c, d], b.key) == [c, d];
  }

  lemma FourCounts(a: Key, b: Key, c: Key, d: Key)
    ensures var m := [Meta(a, true, true), Meta(b, true, true), Meta(c, false, false), Meta(d, false, false)];
            Keys(m) == [a, b, c, d] && Count(m, true, true) == 2 && Count(m, true, false) == 0 && Count(m, false, false) == 2
  {
    var m := [Meta(a, true, true), Meta(b, true, true), Meta(c, false, false), Meta(d, false, false)];
    var n, o := [Meta(b, true, true), Meta(c, false, false), Meta(d, false, false)], [Meta(c, false, false), Meta(d, false, false)];
    var q := [Meta(d, false, false)];
    assert m[1..] == n && n[1..] == o && o[1..] == q && q[1..] == [];
    assert Count(q, true, true) == 0 && Count(q, true, false) == 0 && Count(q, false, false) == 1;
    assert Count(o, true, true) == 0 && Count(o, true, false) == 0 && Count(o, false, false) == 2;
    assert Count(n, true, true) == 1 && Count(n, true, false) == 0 && Count(n, false, false) == 2;
  }

  lemma RecoveryStripped(p: Policy, sponsor: Key, payer: Key, amount: int)
    ensures Strip(BuildRecovery(p, sponsor, payer, amount)) == RecoveryInstructions(p, sponsor, payer, amount)
  {
    var ixs := BuildRecovery(p, sponsor, payer, amount);
    assert ixs[1..][1..] == [];
    assert Keys([]) == [];
    TransferStripped(p, payer, sponsor, amount);
    assert Strip(ixs[1..]) == [Instruction(p.system, [payer, sponsor], TransferData(amount))];
  }

  lemma RecoveryCompiles(p: Policy, sponsor: Key, payer: Key, amount: int)
    requires ValidActors(p, sponsor, payer, amount) && p.system != p.compute && p.rank(p.system) < p.rank(p.compute)
    ensures Compile(p.rank, sponsor, BuildRecovery(p, sponsor, payer, amount))
         == Some(Compiled([2, 0, 2], RecoveryKeys(p, sponsor, payer), RecoveryInstructions(p, sponsor, payer, amount)))
  {
    hide Merge, SortMetas, Without, Keys, Count, Strip, BuildRecovery, RecoveryInstructions;
    var a, b := Meta(payer, true, true), Meta(sponsor, false, true);
    var c, d := Meta(p.compute, false, false), Meta(p.system, false, false);
    RecoveryMerged(p, sponsor, payer, amount);
    RecoverySorted(p.rank, a, b, c, d);
    WithoutSecond(a, b, d, c);
    FourCounts(sponsor, payer, p.system, p.compute);
    RecoveryStripped(p, sponsor, payer, amount);
    assert [Meta(sponsor, true, true)] + [a, d, c] == [Meta(sponsor, true, true), a, d, c];
  }

  lemma RecoveryIndices(p: Policy, sponsor: Key, payer: Key)
    requires sponsor != payer && sponsor != p.system && sponsor != p.compute && payer != p.system && payer != p.compute && p.system != p.compute
    ensures var k := RecoveryKeys(p, sponsor, payer);
            IndexOf(k, sponsor) == 0 && IndexOf(k, payer) == 1 && IndexOf(k, p.system) == 2 && IndexOf(k, p.compute) == 3
  {
    var k := RecoveryKeys(p, sponsor, payer);
    assert k[0] == sponsor && k[1] == payer && k[2] == p.system && k[3] == p.compute;
  }

  lemma RecoveryIndexed(p: Policy, sponsor: Key, payer: Key, amount: int)
    ensures AllIndexed(RecoveryKeys(p, sponsor, payer), RecoveryInstructions(p, sponsor, payer, amount))
  {
    var k := RecoveryKeys(p, sponsor, payer);
    assert k[0] in k && k[1] in k && k[2] in k && k[3] in k;
  }

  /** What the SDK compiles and serializes is the raw template, byte for byte. */
  lemma RecoveryBuilderMeetsTemplate(p: Policy, sponsor: Key, payer: Key, amount: int, blockhash: Key)
    requires ValidActors(p, sponsor, payer, amount) && p.system != p.compute && p.rank(p.system) < p.rank(p.compute)
    ensures var c := Compile(p.rank, sponsor, BuildRecovery(p, sponsor, payer, amount));
            && c.Some? && AllIndexed(c.value.keys, c.value.instructions) && |c.value.instructions| < 256
            && RecoveryMessage(p, sponsor, payer, amount, blockhash)
               == Some(EncodeMessage(c.value.header, c.value.keys, blockhash, c.value.instructions))
  {
    hide Compile, TransferData;
    RecoveryCompiles(p, sponsor, payer, amount);
    RecoveryIndexed(p, sponsor, payer, amount);
    RecoveryEncoded(p, sponsor, payer, amount, blockhash);
  }

  lemma RecoveryEncoded(p: Policy, sponsor: Key, payer: Key, amount: int, blockhash: Key)
    requires ValidActors(p, sponsor, payer, amount) && p.system != p.compute
    requires AllIndexed(RecoveryKeys(p, sponsor, payer), RecoveryInstructions(p, sponsor, payer, amount))
    ensures EncodeMessage([2, 0, 2], RecoveryKeys(p, sponsor, payer), blockhash, RecoveryInstructions(p, sponsor, payer, amount))
         == RecoveryTemplate(p, sponsor, payer, amount, blockhash)
  {
    hide IndexOf, TransferData;
    var k, ixs := RecoveryKeys(p, sponsor, payer), RecoveryInstructions(p, sponsor, payer, amount);
    RecoveryIndices(p, sponsor, payer);
    FourEncoded(sponsor, payer, p.system, p.compute);
    assert ixs[1..] == [ixs[1]] && ixs[1..][1..] == [];
    assert EncodeAccounts(k, []) == [];
    assert [payer, sponsor][1..] == [sponsor] && [sponsor][1..] == [];
    assert EncodeAccounts(k, [sponsor]) == [0];
    assert EncodeAccounts(k, [payer, sponsor]) == [1, 0];
    assert EncodeInstruction(k, ixs[0]) == [3, 0, 5] + RECOVERY_LIMIT;
    assert EncodeInstruction(k, ixs[1]) == [2, 2, 1, 0, 12] + TransferData(amount);
    assert EncodeInstructions(k, ixs[1..]) == EncodeInstruction(k, ixs[1]);
    assert EncodeInstructions(k, ixs) == EncodeInstruction(k, ixs[0]) + EncodeInstruction(k, ixs[1]);
  }

  lemma FourEncoded(a: Key, b: Key, c: Key, d: Key)
    ensures EncodeKeys([a, b, c, d]) == a + b + c + d
  {
    assert [a, b, c, d][1..] == [b, c, d] && [b, c, d][1..] == [c, d] && [c, d][1..] == [d] && [d][1..] == [];
    assert EncodeKeys([d]) == d;
    assert EncodeKeys([c, d]) == c + d;
    assert EncodeKeys([b, c, d]) == b + (c + d);
  }
}
