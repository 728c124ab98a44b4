/** What the bytes of an accepted message say, read back by number, key and amount. */
module Meaning {
  import opened Basics
  import opened Registry
  import opened Wire
  import opened SponsoredMessage
  import opened Quotes
  import opened Packet
  import opened RecoveryMessages
  import opened MessageTerms
  import Builder

  // ---------------------------------------------------------------------- numbers

  /** The number these bytes spell, lowest byte first. */
  function Number(b: Bytes): nat {
    if b == [] then 0 else b[0] + 256 * Number(b[1..])
  }

  lemma {:induction false} NumberOf(n: int, width: nat)
    requires Below(n, width)
    ensures Number(LittleEndian(n, width)) == n
    decreases width
  {
    if width > 0 {
      NumberOf(n / 256, width - 1);
      assert LittleEndian(n, width)[1..] == LittleEndian(n / 256, width - 1);
    }
  }

  lemma SmallBelow(n: int)
    requires 0 <= n < 256
    ensures Below(n, 4)
  {
    assert n / 256 == 0 && Below(0, 0) && Below(0, 1) && Below(0, 2) && Below(0, 3);
  }

  /** A transfer's data: opcode two in four bytes, then the amount in eight. */
  lemma TransferSpelled(amount: int)
    requires NativeAmount(amount)
    ensures var d := TransferData(amount); |d| == 12 && d[..4] == [2, 0, 0, 0] && Number(d[4..]) == amount
  {
    hide Number, Below;
    NativeBelow(amount);
    NumberOf(amount, 8);
    assert TransferData(amount)[4..] == LittleEndian(amount, 8);
    LowOpcode();
  }

  lemma LowOpcode()
    ensures LittleEndian(2, 4) == [2, 0, 0, 0]
  {
    assert LittleEndian(0, 1) == [0] && LittleEndian(0, 2) == [0, 0] && LittleEndian(0, 3) == [0, 0, 0];
  }

  lemma ThreeBytesNumber(a: Byte, b: Byte, c: Byte)
    ensures Number([a, b, c, 0]) == a + 256 * b + 65536 * c
  {
    var four: Bytes, three: Bytes, two: Bytes, one: Bytes := [a, b, c, 0], [b, c, 0], [c, 0], [0];
    assert four[1..] == three && three[1..] == two && two[1..] == one && one[1..] == [];
    assert Number(one) == 0;
    assert Number(two) == c;
    assert Number(three) == b + 256 * c;
  }

  // ----------------------------------------------------------------- instructions

  /** The i-th account an instruction names. */
  predicate NamesAt(x: Parsed, ix: RawInstruction, i: nat, key: Key) {
    i < |ix.accounts| && ix.accounts[i] as int < |x.keys| && x.keys[ix.accounts[i]] == key
  }

  predicate Calls(x: Parsed, ix: RawInstruction, program: Key, accounts: nat) {
    ix.program as int < |x.keys| && x.keys[ix.program] == program && |ix.accounts| == accounts
  }

  /** The system program moves this amount between these two. */
  predicate Transfers(p: Policy, x: Parsed, ix: RawInstruction, from: Key, to: Key, amount: int) {
    && Calls(x, ix, p.system, 2) && NamesAt(x, ix, 0, from) && NamesAt(x, ix, 1, to)
    && |ix.data| == 12 && ix.data[..4] == [2, 0, 0, 0] && Number(ix.data[4..]) == amount
  }

  predicate LimitsCompute(p: Policy, x: Parsed, ix: RawInstruction, units: int) {
    Calls(x, ix, p.compute, 0) && |ix.data| == 5 && ix.data[0] == 2 && Number(ix.data[1..]) == units
  }

  predicate SpellsName(data: Bytes, name: string) {
    |data| == |name| && forall i :: 0 <= i < |name| ==> data[i] as int == name[i] as int
  }

  /** Registers this label: the payer pays the fee receiver for the domain account. */
  predicate Registers(p: Policy, x: Parsed, ix: RawInstruction, name: string, payer: Key, receiver: Key) {
    && Calls(x, ix, p.program, 5)
    && NamesAt(x, ix, 0, p.config) && NamesAt(x, ix, 1, p.domainPda(name)) && NamesAt(x, ix, 2, payer)
    && NamesAt(x, ix, 3, receiver) && NamesAt(x, ix, 4, p.system)
    && |ix.data| == 12 + |name| && ix.data[..8] == [236, 7, 208, 151, 173, 149, 73, 104]
    && Number(ix.data[8..12]) == |name| && SpellsName(ix.data[12..], name)
  }

  /** Hands the domain over from the payer to the user. */
  predicate HandsOver(p: Policy, x: Parsed, ix: RawInstruction, name: string, payer: Key, user: Key) {
    && Calls(x, ix, p.program, 2) && NamesAt(x, ix, 0, p.domainPda(name)) && NamesAt(x, ix, 1, payer)
    && |ix.data| == 40 && ix.data[..8] == [129, 115, 193, 43, 174, 5, 241, 52] && ix.data[8..] == user
  }

  predicate SetsPrimary(p: Policy, x: Parsed, ix: RawInstruction, name: string, user: Key) {
    && Calls(x, ix, p.program, 4)
    && NamesAt(x, ix, 0, p.primaryPda(user)) && NamesAt(x, ix, 1, p.domainPda(name)) && NamesAt(x, ix, 2, user) && NamesAt(x, ix, 3, p.system)
    && ix.data == [18, 2, 170, 172, 190, 140, 242, 27]
  }

  /** The whole message, read as what it makes the chain do. */
  predicate Says(p: Policy, x: Parsed, e: Input) {
    && |x.keys| == 10 && x.keys[0] == e.sponsor && x.readonlyUnsigned == 4 && x.blockhash == e.blockhash
    && |x.instructions| == (if e.primaryRent > 0 then 6 else 5)
    && LimitsCompute(p, x, x.instructions[0], 200_000)
    && Transfers(p, x, x.instructions[1], e.sponsor, e.attemptPayer, e.registrationPrice + e.domainRent)
    && Registers(p, x, x.instructions[2], e.name, e.attemptPayer, e.feeReceiver)
    && HandsOver(p, x, x.instructions[3], e.name, e.attemptPayer, e.user)
    && (e.primaryRent > 0 ==> Transfers(p, x, x.instructions[4], e.sponsor, e.user, e.primaryRent))
    && SetsPrimary(p, x, x.instructions[|x.instructions| - 1], e.name, e.user)
  }

  // -------------------------------------------------------------------- the proof

  lemma RawReads(x: Parsed, keys: seq<Key>, ix: Instruction)
    requires x.keys == keys && |keys| <= 256 && Indexed(keys, ix)
    ensures var r := RawOf(keys, ix);
            && Calls(x, r, ix.program, |ix.accounts|) && r.data == ix.data
            && forall i: nat :: i < |ix.accounts| ==> NamesAt(x, r, i, ix.accounts[i])
  {
    forall i: nat | i < |ix.accounts| ensures NamesAt(x, RawOf(keys, ix), i, ix.accounts[i]) {
      assert ix.accounts[i] in keys;
    }
  }

  lemma {:induction false} RawsAt(keys: seq<Key>, ixs: seq<Instruction>, i: nat)
    requires AllIndexed(keys, ixs) && i < |ixs|
    ensures ixs[i] in ixs && Indexed(keys, ixs[i]) && RawsOf(keys, ixs)[i] == RawOf(keys, ixs[i])
  {
    hide RawOf, Indexed;
    if i > 0 {
      RawsAt(keys, ixs[1..], i - 1);
    }
  }

  lemma TransferReads(p: Policy, x: Parsed, from: Key, to: Key, amount: int)
    requires |x.keys| <= 256 && Indexed(x.keys, TransferIx(p, from, to, amount)) && NativeAmount(amount)
    ensures Transfers(p, x, RawOf(x.keys, TransferIx(p, from, to, amount)), from, to, amount)
  {
    hide RawOf, Indexed, TransferData, Number, NamesAt;
    var ix := TransferIx(p, from, to, amount);
    RawReads(x, x.keys, ix);
    TransferSpelled(amount);
    assert ix.accounts[0] == from && ix.accounts[1] == to;
  }

  lemma {:induction false} AsciiSpells(name: string)
    requires forall i :: 0 <= i < |name| ==> LabelChar(name[i])
    ensures SpellsName(Ascii(name), name)
  {
    if name != "" {
      AsciiSpells(name[1..]);
      assert LabelChar(name[0]);
      assert Ascii(name)[1..] == Ascii(name[1..]);
      forall i | 0 <= i < |name| ensures Ascii(name)[i] as int == name[i] as int {
        if i > 0 { assert Ascii(name)[i] == Ascii(name[1..])[i - 1] && name[i] == name[1..][i - 1]; }
      }
    }
  }

  lemma RegisterData(p: Policy, e: Input)
    requires ValidLabel(e.name)
    ensures var d := RegisterIx(p, e).data;
            && |d| == 12 + |e.name| && d[..8] == [236, 7, 208, 151, 173, 149, 73, 104]
            && Number(d[8..12]) == |e.name| && SpellsName(d[12..], e.name)
  {
    hide Number, LittleEndian, Ascii, SpellsName, Below;
    var d := RegisterIx(p, e).data;
    assert d[8..12] == LittleEndian(|e.name|, 4) && d[12..] == Ascii(e.name);
    SmallBelow(|e.name|);
    NumberOf(|e.name|, 4);
    AsciiSpells(e.name);
  }

  lemma RegisterReads(p: Policy, x: Parsed, e: Input)
    requires ValidLabel(e.name) && |x.keys| <= 256 && Indexed(x.keys, RegisterIx(p, e))
    ensures Registers(p, x, RawOf(x.keys, RegisterIx(p, e)), e.name, e.attemptPayer, e.feeReceiver)
  {
    hide RawOf, Indexed, Number, NamesAt, SpellsName, LittleEndian, Ascii, ValidLabel;
    var ix := RegisterIx(p, e);
    RawReads(x, x.keys, ix);
    RegisterData(p, e);
    assert ix.accounts[0] == p.config && ix.accounts[1] == p.domainPda(e.name) && ix.accounts[2] == e.attemptPayer;
    assert ix.accounts[3] == e.feeReceiver && ix.accounts[4] == p.system;
  }

  lemma OthersRead(p: Policy, x: Parsed, e: Input)
    requires |x.keys| <= 256 && Indexed(x.keys, ComputeLimitIx(p)) && Indexed(x.keys, TransferDomainIx(p, e)) && Indexed(x.keys, SetPrimaryIx(p, e))
    ensures LimitsCompute(p, x, RawOf(x.keys, ComputeLimitIx(p)), 200_000)
    ensures HandsOver(p, x, RawOf(x.keys, TransferDomainIx(p, e)), e.name, e.attemptPayer, e.user)
    ensures SetsPrimary(p, x, RawOf(x.keys, SetPrimaryIx(p, e)), e.name, e.user)
  {
    hide RawOf, Indexed, Number, NamesAt;
    var c, t, s := ComputeLimitIx(p), TransferDomainIx(p, e), SetPrimaryIx(p, e);
    RawReads(x, x.keys, c);
    RawReads(x, x.keys, t);
    RawReads(x, x.keys, s);
    ThreeBytesNumber(64, 13, 3);
    assert c.data[1..] == [64, 13, 3, 0];
    assert t.accounts[0] == p.domainPda(e.name) && t.accounts[1] == e.attemptPayer && t.data[8..] == e.user;
    assert s.accounts[0] == p.primaryPda(e.user) && s.accounts[1] == p.domainPda(e.name) && s.accounts[2] == e.user && s.accounts[3] == p.system;
  }

  lemma ViewSays(p: Policy, e: Input)
    requires ValidLabel(e.name) && NativeAmount(e.registrationPrice + e.domainRent) && NativeAmount(e.primaryRent)
    ensures Says(p, BrowserView(p, e), e)
  {
    hide RawOf, Indexed, Transfers, Registers, HandsOver, SetsPrimary, LimitsCompute, ValidLabel, AccountKeys;
    hide TransferIx, RegisterIx, ComputeLimitIx, TransferDomainIx, SetPrimaryIx, RawsOf;
    var x, keys, ixs := BrowserView(p, e), AccountKeys(p, e), Instructions(p, e);
    InstructionsIndexed(p, e);
    UserPlace(p, e);
    forall i: nat | i < |ixs| ensures Indexed(keys, ixs[i]) && x.instructions[i] == RawOf(keys, ixs[i]) {
      RawsAt(keys, ixs, i);
    }
    var n := |ixs| - 1;
    assert Indexed(keys, ixs[0]) && Indexed(keys, ixs[1]) && Indexed(keys, ixs[2]) && Indexed(keys, ixs[3]) && Indexed(keys, ixs[n]);
    TransferReads(p, x, e.sponsor, e.attemptPayer, e.registrationPrice + e.domainRent);
    RegisterReads(p, x, e);
    OthersRead(p, x, e);
    if e.primaryRent > 0 {
      assert Indexed(keys, ixs[4]);
      TransferReads(p, x, e.sponsor, e.user, e.primaryRent);
    }
  }

  /**
   * Every message the validator accepts parses, and what it says, instruction by
   * instruction and number by number, is the expected registration.
   */
  lemma MessageMeans(p: Policy, message: Bytes, e: Input)
    requires Accepts(p, message, e) && Builder.SeparateAddresses(p, e)
    ensures var x := Parse(UnsignedPacket(message)); x.Some? && Says(p, x.value, e)
  {
    hide Admissible, Builder.SeparateAddresses, CanonicalMessage, Parse, Says, BrowserView;
    ViewParses(p, message, e);
    AdmissibleAmounts(p, e);
    ViewSays(p, e);
  }

  // ------------------------------------------------------------------------- keys

  predicate Ascending(rank: Key -> int, s: seq<Key>) {
    forall i, j :: 0 <= i < j < |s| ==> rank(s[i]) <= rank(s[j])
  }

  lemma {:induction false} InsertCounts(rank: Key -> int, k: Key, s: seq<Key>)
    ensures multiset(InsertByRank(rank, k, s)) == multiset(s) + multiset{k}
  {
    if s != [] && rank(k) > rank(s[0]) {
      InsertCounts(rank, k, s[1..]);
      assert s == [s[0]] + s[1..];
    }
  }

  lemma ConsAscends(rank: Key -> int, x: Key, r: seq<Key>)
    requires Ascending(rank, r) && (r != [] ==> rank(x) <= rank(r[0]))
    ensures Ascending(rank, [x] + r)
  {
  }

  lemma {:induction false} InsertAscends(rank: Key -> int, k: Key, s: seq<Key>)
    requires Ascending(rank, s)
    ensures Ascending(rank, InsertByRank(rank, k, s))
    ensures s != [] && rank(s[0]) < rank(k) ==> InsertByRank(rank, k, s)[0] == s[0]
  {
    if s != [] && rank(k) > rank(s[0]) {
      InsertAscends(rank, k, s[1..]);
      var r := InsertByRank(rank, k, s[1..]);
      assert r[0] == k || r[0] == s[1];
      ConsAscends(rank, s[0], r);
    } else {
      ConsAscends(rank, k, s);
    }
  }

  lemma {:induction false} SortAscends(rank: Key -> int, s: seq<Key>)
    ensures Ascending(rank, SortByRank(rank, s)) && multiset(SortByRank(rank, s)) == multiset(s)
  {
    hide Ascending;
    if s == [] {
      NoneAscend(rank);
    } else {
      SortAscends(rank, s[1..]);
      InsertAscends(rank, s[0], SortByRank(rank, s[1..]));
      InsertCounts(rank, s[0], SortByRank(rank, s[1..]));
      assert s == [s[0]] + s[1..];
    }
  }

  lemma NoneAscend(rank: Key -> int)
    ensures Ascending(rank, [])
  {
  }

  /** The ten keys of an accepted message: the sponsor, then wallets, writable accounts and programs, each group in text order. */
  lemma KeysInOrder(p: Policy, message: Bytes, e: Input)
    requires Accepts(p, message, e) && Builder.SeparateAddresses(p, e)
    ensures var x := Parse(UnsignedPacket(message)); x.Some? && InOrder(p, e, x.value.keys)
  {
    hide Admissible, Builder.SeparateAddresses, CanonicalMessage, Parse, InOrder, AccountKeys;
    ViewParses(p, message, e);
    AdmissibleAmounts(p, e);
    ExpectedInOrder(p, e);
  }

  predicate InOrder(p: Policy, e: Input, keys: seq<Key>) {
    && |keys| == 10 && keys[0] == e.sponsor && multiset(keys[1..3]) == multiset{e.attemptPayer, e.user}
    && multiset(keys[3..6]) == multiset{p.domainPda(e.name), p.primaryPda(e.user), e.feeReceiver}
    && multiset(keys[6..]) == multiset{p.config, p.system, p.compute, p.program}
    && Ascending(p.rank, keys[1..3]) && Ascending(p.rank, keys[3..6]) && Ascending(p.rank, keys[6..])
  }

  lemma ExpectedInOrder(p: Policy, e: Input)
    ensures InOrder(p, e, AccountKeys(p, e))
  {
    hide SortByRank, Ascending;
    var two, three, four := [e.attemptPayer, e.user], [p.domainPda(e.name), p.primaryPda(e.user), e.feeReceiver], [p.config, p.system, p.compute, p.program];
    SortAscends(p.rank, two);
    SortAscends(p.rank, three);
    SortAscends(p.rank, four);
    KeysSplit([e.sponsor], SortByRank(p.rank, two), SortByRank(p.rank, three), SortByRank(p.rank, four));
  }

  lemma KeysSplit(a: seq<Key>, b: seq<Key>, c: seq<Key>, d: seq<Key>)
    requires |a| == 1 && |b| == 2 && |c| == 3 && |d| == 4
    ensures var s := a + b + c + d; |s| == 10 && s[0] == a[0] && s[1..3] == b && s[3..6] == c && s[6..] == d
  {
  }

  // --------------------------------------------------------------------- recovery

  /** The sweep, byte range by byte range: keys, compute limit, and the exact amount from payer to sponsor. */
  predicate SaysSweep(p: Policy, m: Bytes, sponsor: Key, payer: Key, amount: int, blockhash: Key) {
    && |m| == 190 && m[..4] == [2, 0, 2, 4]
    && m[4..36] == sponsor && m[36..68] == payer && m[68..100] == p.system && m[100..132] == p.compute && m[132..164] == blockhash
    && m[164..169] == [2, 3, 0, 5, 2] && Number(m[169..173]) == 20_000
    && m[173..178] == [2, 2, 1, 0, 12] && m[178..182] == [2, 0, 0, 0] && Number(m[182..]) == amount
  }

  lemma TemplateSays(p: Policy, sponsor: Key, payer: Key, amount: int, blockhash: Key)
    requires NativeAmount(amount)
    ensures SaysSweep(p, RecoveryTemplate(p, sponsor, payer, amount, blockhash), sponsor, payer, amount, blockhash)
  {
    hide Number, TransferData;
    var m := RecoveryTemplate(p, sponsor, payer, amount, blockhash);
    TransferSpelled(amount);
    ThreeBytesNumber(0x20, 0x4e, 0);
    assert m[169..173] == [0x20, 0x4e, 0, 0];
    assert m[178..] == TransferData(amount);
    assert m[178..182] == TransferData(amount)[..4] && m[182..] == TransferData(amount)[4..];
  }

  /** A sweep message exists for two signing wallets that are neither each other nor a program, and a native amount. */
  lemma RecoveryMeans(p: Policy, sponsor: Key, payer: Key, amount: int, blockhash: Key)
    ensures RecoveryMessage(p, sponsor, payer, amount, blockhash).Some?
            <==> p.onCurve(sponsor) && p.onCurve(payer) && sponsor != payer && 0 < amount <= 0xFFFF_FFFF_FFFF_FFFF
                 && sponsor !in [p.system, p.compute] && payer !in [p.system, p.compute]
    ensures forall m :: RecoveryMessage(p, sponsor, payer, amount, blockhash) == Some(m) ==> SaysSweep(p, m, sponsor, payer, amount, blockhash)
  {
    hide RecoveryTemplate, SaysSweep;
    if ValidActors(p, sponsor, payer, amount) {
      TemplateSays(p, sponsor, payer, amount, blockhash);
    }
  }
}
