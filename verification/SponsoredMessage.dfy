/**
 * The one sponsored-registration message and its strict validator
 * (src/lib/transactions/policy.ts:49-156).
 */
module SponsoredMessage {
  import opened Basics
  import opened Registry
  import opened Wire

  datatype Input = Input(
    name: string, sponsor: Key, attemptPayer: Key, user: Key, feeReceiver: Key,
    registrationPrice: int, domainRent: int, primaryRent: int, blockhash: Key)

  datatype Instruction = Instruction(program: Key, accounts: seq<Key>, data: Bytes)

  const MAX_TRANSACTION_BYTES := 1232
  const SIGNATURE_BYTES := 193

  // ---------------------------------------------------------------- encodings

  function LittleEndian(n: int, width: nat): (r: Bytes)
    ensures |r| == width
    decreases width
  {
    if width == 0 then [] else [n % 256] + LittleEndian(n / 256, width - 1)
  }

  function TransferData(amount: int): (r: Bytes)
    ensures |r| == 12
  {
    LittleEndian(2, 4) + LittleEndian(amount, 8)
  }

  function Ascii(name: string): (r: Bytes)
    requires forall i :: 0 <= i < |name| ==> LabelChar(name[i])
    ensures |r| == |name|
  {
    if name == "" then []
    else
      assert LabelChar(name[0]);
      var first: Byte := name[0] as int;
      [first] + Ascii(name[1..])
  }

  const REGISTER: Bytes := [236, 7, 208, 151, 173, 149, 73, 104]
  const TRANSFER: Bytes := [129, 115, 193, 43, 174, 5, 241, 52]
  const SET_PRIMARY: Bytes := [18, 2, 170, 172, 190, 140, 242, 27]
  const COMPUTE_LIMIT: Bytes := [2, 64, 13, 3, 0]

  // ------------------------------------------------------------- preconditions

  function Actors(e: Input): seq<Key> {
    [e.sponsor, e.attemptPayer, e.user]
  }

  function Protected(p: Policy, e: Input): seq<Key> {
    [p.program, p.system, p.compute, p.config, p.domainPda(e.name), p.primaryPda(e.user), p.primaryPda(e.attemptPayer)]
  }

  /** Every check the validator makes before it reads the first byte. */
  predicate Admissible(p: Policy, e: Input) {
    && ValidLabel(e.name)
    && Distinct(Actors(e))
    && (forall k <- Actors(e) :: p.onCurve(k))
    && (forall k <- Actors(e) + [e.feeReceiver] :: k !in Protected(p, e))
    && e.feeReceiver !in Actors(e)
    && NativeAmount(e.registrationPrice) && NativeAmount(e.domainRent) && NativeAmount(e.primaryRent)
    && e.registrationPrice > 0 && e.domainRent > 0
    && e.registrationPrice + e.domainRent <= U64_MAX
  }

  // ------------------------------------------------------------ canonical form

  /** Stable insertion by base58 text rank, the comparison both sides sort with. */
  function InsertByRank(rank: Key -> int, k: Key, s: seq<Key>): (r: seq<Key>)
    ensures |r| == |s| + 1
  {
    if s == [] || rank(k) <= rank(s[0]) then [k] + s else [s[0]] + InsertByRank(rank, k, s[1..])
  }

  function SortByRank(rank: Key -> int, s: seq<Key>): (r: seq<Key>)
    ensures |r| == |s|
  {
    if s == [] then [] else InsertByRank(rank, s[0], SortByRank(rank, s[1..]))
  }

  function AccountKeys(p: Policy, e: Input): (r: seq<Key>)
    ensures |r| == 10
  {
    [e.sponsor]
    + SortByRank(p.rank, [e.attemptPayer, e.user])
    + SortByRank(p.rank, [p.domainPda(e.name), p.primaryPda(e.user), e.feeReceiver])
    + SortByRank(p.rank, [p.config, p.system, p.compute, p.program])
  }

  function ComputeLimitIx(p: Policy): Instruction {
    Instruction(p.compute, [], COMPUTE_LIMIT)
  }

  function TransferIx(p: Policy, from: Key, to: Key, amount: int): Instruction {
    Instruction(p.system, [from, to], TransferData(amount))
  }

  function RegisterIx(p: Policy, e: Input): Instruction
    requires ValidLabel(e.name)
  {
    Instruction(p.program, [p.config, p.domainPda(e.name), e.attemptPayer, e.feeReceiver, p.system],
                REGISTER + LittleEndian(|e.name|, 4) + Ascii(e.name))
  }

  function TransferDomainIx(p: Policy, e: Input): Instruction {
    Instruction(p.program, [p.domainPda(e.name), e.attemptPayer], TRANSFER + e.user)
  }

  function SetPrimaryIx(p: Policy, e: Input): Instruction {
    Instruction(p.program, [p.primaryPda(e.user), p.domainPda(e.name), e.user, p.system], SET_PRIMARY)
  }

  function Instructions(p: Policy, e: Input): (r: seq<Instruction>)
    requires ValidLabel(e.name)
    ensures |r| == if e.primaryRent > 0 then 6 else 5
  {
    var fund := TransferIx(p, e.sponsor, e.attemptPayer, e.registrationPrice + e.domainRent);
    if e.primaryRent > 0 then
      [ComputeLimitIx(p), fund, RegisterIx(p, e), TransferDomainIx(p, e),
       TransferIx(p, e.sponsor, e.user, e.primaryRent), SetPrimaryIx(p, e)]
    else
      [ComputeLimitIx(p), fund, RegisterIx(p, e), TransferDomainIx(p, e), SetPrimaryIx(p, e)]
  }

  /** findIndex over the account list; -1 (which no byte equals) when absent. */
  function IndexOf(keys: seq<Key>, k: Key): (r: int)
    ensures -1 <= r < |keys|
    ensures r >= 0 ==> keys[r] == k && k !in keys[..r]
    ensures r < 0 <==> k !in keys
  {
    if keys == [] then -1
    else if keys[0] == k then 0
    else
      var rest := IndexOf(keys[1..], k);
      if rest < 0 then -1 else rest + 1
  }

  /** Every instruction names listed accounts, so its indices are bytes. */
  ghost predicate Indexed(keys: seq<Key>, ix: Instruction) {
    && ix.program in keys
    && (forall k <- ix.accounts :: k in keys)
    && |ix.accounts| < 256 && |ix.data| < 256
  }

  ghost predicate AllIndexed(keys: seq<Key>, ixs: seq<Instruction>) {
    |keys| <= 256 && forall ix <- ixs :: Indexed(keys, ix)
  }

  ghost function EncodeKeys(keys: seq<Key>): (r: Bytes)
    ensures |r| == 32 * |keys|
  {
    if keys == [] then [] else keys[0] + EncodeKeys(keys[1..])
  }

  ghost function EncodeAccounts(keys: seq<Key>, accounts: seq<Key>): (r: Bytes)
    requires |keys| <= 256 && forall k <- accounts :: k in keys
    ensures |r| == |accounts|
    ensures forall i :: 0 <= i < |r| ==> r[i] == IndexOf(keys, accounts[i])
  {
    if accounts == [] then [] else [IndexOf(keys, accounts[0])] + EncodeAccounts(keys, accounts[1..])
  }

  ghost function EncodeInstruction(keys: seq<Key>, ix: Instruction): Bytes
    requires |keys| <= 256 && Indexed(keys, ix)
  {
    [IndexOf(keys, ix.program)]
    + EncodeLength(|ix.accounts|) + EncodeAccounts(keys, ix.accounts)
    + EncodeLength(|ix.data|) + ix.data
  }

  ghost function EncodeInstructions(keys: seq<Key>, ixs: seq<Instruction>): Bytes
    requires AllIndexed(keys, ixs)
  {
    if ixs == [] then [] else EncodeInstruction(keys, ixs[0]) + EncodeInstructions(keys, ixs[1..])
  }

  /** A legacy message with the given header tail, as the wire carries it. */
  ghost function EncodeMessage(header: Bytes, keys: seq<Key>, blockhash: Key, ixs: seq<Instruction>): Bytes
    requires AllIndexed(keys, ixs) && |ixs| < 256
  {
    header + (EncodeLength(|keys|) + (EncodeKeys(keys) + (blockhash + (EncodeLength(|ixs|) + EncodeInstructions(keys, ixs)))))
  }

  lemma SortKeepsElements(rank: Key -> int, s: seq<Key>, k: Key)
    ensures k in SortByRank(rank, s) <==> k in s
  {
    if s != [] {
      InsertKeepsElements(rank, s[0], SortByRank(rank, s[1..]), k);
      SortKeepsElements(rank, s[1..], k);
      assert s == [s[0]] + s[1..];
    }
  }

  lemma InsertKeepsElements(rank: Key -> int, x: Key, s: seq<Key>, k: Key)
    ensures k in InsertByRank(rank, x, s) <==> k == x || k in s
  {
    if s == [] || rank(x) <= rank(s[0]) {
    } else {
      InsertKeepsElements(rank, x, s[1..], k);
      assert s == [s[0]] + s[1..];
    }
  }

  function TenKeys(p: Policy, e: Input): seq<Key> {
    [e.sponsor, e.attemptPayer, e.user, p.domainPda(e.name), p.primaryPda(e.user), e.feeReceiver,
     p.config, p.system, p.compute, p.program]
  }

  lemma AccountKeysMembers(p: Policy, e: Input)
    ensures forall k :: k in AccountKeys(p, e) <==> k in TenKeys(p, e)
  {
    forall k ensures k in AccountKeys(p, e) <==> k in TenKeys(p, e) {
      SortKeepsElements(p.rank, [e.attemptPayer, e.user], k);
      SortKeepsElements(p.rank, [p.domainPda(e.name), p.primaryPda(e.user), e.feeReceiver], k);
      SortKeepsElements(p.rank, [p.config, p.system, p.compute, p.program], k);
    }
  }

  lemma TransferIndexed(p: Policy, keys: seq<Key>, from: Key, to: Key, amount: int)
    requires p.system in keys && from in keys && to in keys
    ensures Indexed(keys, TransferIx(p, from, to, amount))
  {
    assert |TransferIx(p, from, to, amount).data| == 12;
  }

  lemma RegisterIndexed(p: Policy, e: Input, keys: seq<Key>)
    requires ValidLabel(e.name)
    requires p.program in keys && p.config in keys && p.domainPda(e.name) in keys
    requires e.attemptPayer in keys && e.feeReceiver in keys && p.system in keys
    ensures Indexed(keys, RegisterIx(p, e))
  {
    assert |RegisterIx(p, e).data| == 12 + |e.name|;
  }

  /** The ten keys of the message are all listed. */
  ghost predicate ListsTenKeys(p: Policy, e: Input, keys: seq<Key>) {
    && e.sponsor in keys && e.attemptPayer in keys && e.user in keys
    && p.domainPda(e.name) in keys && p.primaryPda(e.user) in keys && e.feeReceiver in keys
    && p.config in keys && p.system in keys && p.compute in keys && p.program in keys
  }

  lemma OtherInstructionsIndexed(p: Policy, e: Input, keys: seq<Key>)
    requires ListsTenKeys(p, e, keys)
    ensures Indexed(keys, ComputeLimitIx(p))
    ensures Indexed(keys, TransferDomainIx(p, e))
    ensures Indexed(keys, SetPrimaryIx(p, e))
  {
    assert |TransferDomainIx(p, e).data| == 40;
  }

  lemma AllInstructionsIndexed(p: Policy, e: Input, keys: seq<Key>)
    requires ValidLabel(e.name) && |keys| <= 256
    requires ListsTenKeys(p, e, keys)
    ensures AllIndexed(keys, Instructions(p, e))
  {
    hide Indexed, TransferIx, RegisterIx, TransferDomainIx, SetPrimaryIx, ComputeLimitIx;
    TransferIndexed(p, keys, e.sponsor, e.attemptPayer, e.registrationPrice + e.domainRent);
    TransferIndexed(p, keys, e.sponsor, e.user, e.primaryRent);
    RegisterIndexed(p, e, keys);
    OtherInstructionsIndexed(p, e, keys);
  }

  lemma InstructionsIndexed(p: Policy, e: Input)
    requires ValidLabel(e.name)
    ensures AllIndexed(AccountKeys(p, e), Instructions(p, e))
  {
    var keys := AccountKeys(p, e);
    AccountKeysMembers(p, e);
    var all := TenKeys(p, e);
    assert all[0] in keys && all[1] in keys && all[2] in keys && all[3] in keys && all[4] in keys;
    assert all[5] in keys && all[6] in keys && all[7] in keys && all[8] in keys && all[9] in keys;
    AllInstructionsIndexed(p, e, keys);
  }

  /** The message the server expects for this input, byte for byte. */
  ghost function CanonicalMessage(p: Policy, e: Input): Bytes
    requires ValidLabel(e.name)
  {
    InstructionsIndexed(p, e);
    EncodeMessage([3, 0, 4], AccountKeys(p, e), e.blockhash, Instructions(p, e))
  }

  /** Exactly what validateSponsoredMessage accepts. */
  ghost predicate Accepts(p: Policy, message: Bytes, e: Input) {
    && Admissible(p, e)
    && |message| + SIGNATURE_BYTES <= MAX_TRANSACTION_BYTES
    && message == CanonicalMessage(p, e)
  }

  // ------------------------------------------------------------- the validator

  /** Consumes one byte and tells whether it was n. */
  method ExpectByte(reader: Reader, n: int) returns (ok: bool)
    requires reader.Valid()
    modifies reader
    ensures reader.Valid()
    ensures ok ==> reader.offset == old(reader.offset) + 1 && reader.bytes[old(reader.offset)] == n
    ensures !ok ==> old(reader.offset) == |reader.bytes| || reader.bytes[old(reader.offset)] != n
  {
    var b := reader.TakeByte();
    ok := b.Some? && b.value == n;
  }

  /** Consumes one length field and tells whether its value was n. */
  method ExpectLength(reader: Reader, n: int) returns (ok: bool)
    requires reader.Valid() && 0 <= n < 0x1_0000
    modifies reader
    ensures reader.Valid()
    ensures ok ==> reader.offset >= old(reader.offset) && reader.bytes[old(reader.offset)..reader.offset] == EncodeLength(n)
    ensures !ok ==> !(EncodeLength(n) <= reader.bytes[old(reader.offset)..])
  {
    LengthFieldExact(reader.bytes, reader.offset, n);
    var r := reader.Length();
    ok := r.Some? && r.value == n;
    if r.Some? {
      ReadIsCanonical(reader.bytes, old(reader.offset));
    }
  }

  /** Consumes as many bytes as the chunk has and tells whether they are the chunk. */
  method ExpectBytes(reader: Reader, chunk: Bytes) returns (ok: bool)
    requires reader.Valid()
    modifies reader
    ensures reader.Valid()
    ensures ok ==> reader.offset == old(reader.offset) + |chunk| && reader.bytes[old(reader.offset)..reader.offset] == chunk
    ensures !ok ==> !(chunk <= reader.bytes[old(reader.offset)..])
  {
    var r := reader.Take(|chunk|);
    ok := r.Some? && r.value == chunk;
    if r.Some? && r.value != chunk {
      assert reader.bytes[old(reader.offset)..][..|chunk|] == r.value;
    }
  }

  /** `goal` is what has been read so far followed by `rest`. */
  ghost predicate Remains(goal: Bytes, bytes: Bytes, offset: nat, rest: Bytes) {
    offset <= |bytes| && goal == bytes[..offset] + rest
  }

  lemma Advance(goal: Bytes, bytes: Bytes, offset: nat, next: nat, chunk: Bytes, rest: Bytes)
    requires Remains(goal, bytes, offset, chunk + rest)
    requires offset <= next <= |bytes| && bytes[offset..next] == chunk
    ensures Remains(goal, bytes, next, rest)
  {
    assert bytes[..next] == bytes[..offset] + chunk;
  }

  lemma Stuck(goal: Bytes, bytes: Bytes, offset: nat, chunk: Bytes, rest: Bytes)
    requires Remains(goal, bytes, offset, chunk + rest)
    requires !(chunk <= bytes[offset..])
    ensures bytes != goal
  {
    if bytes == goal {
      StartsWith(goal, offset, chunk, rest);
    }
  }

  lemma StartsWith(goal: Bytes, offset: nat, chunk: Bytes, rest: Bytes)
    requires Remains(goal, goal, offset, chunk + rest)
    ensures chunk <= goal[offset..]
  {
    assert goal[offset..] == chunk + rest;
  }

  lemma OneByte(bytes: Bytes, offset: nat, b: Byte)
    requires offset < |bytes| && bytes[offset] == b
    ensures bytes[offset..offset + 1] == [b]
  {
  }

  method ReadAccounts(reader: Reader, keys: seq<Key>, accounts: seq<Key>, ghost goal: Bytes, ghost rest: Bytes) returns (ok: bool)
    requires reader.Valid() && |keys| <= 256 && forall k <- accounts :: k in keys
    requires Remains(goal, reader.bytes, reader.offset, EncodeAccounts(keys, accounts) + rest)
    modifies reader
    ensures reader.Valid()
    ensures ok ==> Remains(goal, reader.bytes, reader.offset, rest)
    ensures !ok ==> reader.bytes != goal
  {
    var i := 0;
    assert accounts[0..] == accounts;
    while i < |accounts|
      invariant 0 <= i <= |accounts| && reader.Valid()
      invariant Remains(goal, reader.bytes, reader.offset, EncodeAccounts(keys, accounts[i..]) + rest)
    {
      ghost var o := reader.offset;
      var account := IndexOf(keys, accounts[i]);
      assert accounts[i..][1..] == accounts[i + 1..];
      ghost var tail := EncodeAccounts(keys, accounts[i + 1..]) + rest;
      assert EncodeAccounts(keys, accounts[i..]) + rest == [account] + tail;
      ok := ExpectByte(reader, account);
      if !ok { Stuck(goal, reader.bytes, o, [account], tail); return; }
      OneByte(reader.bytes, o, account);
      Advance(goal, reader.bytes, o, reader.offset, [account], tail);
      i := i + 1;
    }
    assert EncodeAccounts(keys, accounts[i..]) + rest == rest;
    ok := true;
  }

  method ReadData(reader: Reader, data: Bytes, ghost goal: Bytes, ghost rest: Bytes) returns (ok: bool)
    requires reader.Valid() && |data| < 256
    requires Remains(goal, reader.bytes, reader.offset, EncodeLength(|data|) + (data + rest))
    modifies reader
    ensures reader.Valid()
    ensures ok ==> Remains(goal, reader.bytes, reader.offset, rest)
    ensures !ok ==> reader.bytes != goal
  {
    ghost var o := reader.offset;
    ok := ExpectLength(reader, |data|);
    if !ok { Stuck(goal, reader.bytes, o, EncodeLength(|data|), data + rest); return; }
    Advance(goal, reader.bytes, o, reader.offset, EncodeLength(|data|), data + rest);
    o := reader.offset;
    ok := ExpectBytes(reader, data);
    if !ok { Stuck(goal, reader.bytes, o, data, rest); return; }
    Advance(goal, reader.bytes, o, reader.offset, data, rest);
  }

  lemma InstructionParts(keys: seq<Key>, ix: Instruction, rest: Bytes)
    requires |keys| <= 256 && Indexed(keys, ix)
    ensures EncodeInstruction(keys, ix) + rest
         == [IndexOf(keys, ix.program)]
            + (EncodeLength(|ix.accounts|) + (EncodeAccounts(keys, ix.accounts) + (EncodeLength(|ix.data|) + (ix.data + rest))))
  {
    hide EncodeLength, EncodeAccounts, IndexOf;
    Regroup([IndexOf(keys, ix.program)], EncodeLength(|ix.accounts|), EncodeAccounts(keys, ix.accounts), EncodeLength(|ix.data|), ix.data, rest);
  }

  lemma Regroup(a: Bytes, b: Bytes, c: Bytes, d: Bytes, e: Bytes, rest: Bytes)
    ensures a + b + c + d + e + rest == a + (b + (c + (d + (e + rest))))
  {
  }

  method ReadInstruction(reader: Reader, keys: seq<Key>, ix: Instruction, ghost goal: Bytes, ghost rest: Bytes) returns (ok: bool)
    requires reader.Valid() && |keys| <= 256 && Indexed(keys, ix)
    requires Remains(goal, reader.bytes, reader.offset, EncodeInstruction(keys, ix) + rest)
    modifies reader
    ensures reader.Valid()
    ensures ok ==> Remains(goal, reader.bytes, reader.offset, rest)
    ensures !ok ==> reader.bytes != goal
  {
    hide EncodeLength, EncodeAccounts, EncodeInstruction, Remains;
    ghost var bytes := reader.bytes;
    ghost var o := reader.offset;
    ghost var tail2 := EncodeLength(|ix.data|) + (ix.data + rest);
    ghost var tail1 := EncodeAccounts(keys, ix.accounts) + tail2;
    ghost var tail0 := EncodeLength(|ix.accounts|) + tail1;
    var program := IndexOf(keys, ix.program);
    InstructionParts(keys, ix, rest);
    ok := ExpectByte(reader, program);
    if !ok { Stuck(goal, bytes, o, [program], tail0); return; }
    OneByte(bytes, o, program);
    Advance(goal, bytes, o, reader.offset, [program], tail0);
    o := reader.offset;
    ok := ExpectLength(reader, |ix.accounts|);
    if !ok { Stuck(goal, bytes, o, EncodeLength(|ix.accounts|), tail1); return; }
    Advance(goal, bytes, o, reader.offset, EncodeLength(|ix.accounts|), tail1);
    ok := ReadAccounts(reader, keys, ix.accounts, goal, tail2);
    if !ok { return; }
    ok := ReadData(reader, ix.data, goal, rest);
  }

  method ReadKeys(reader: Reader, keys: seq<Key>, ghost goal: Bytes, ghost rest: Bytes) returns (ok: bool)
    requires reader.Valid()
    requires Remains(goal, reader.bytes, reader.offset, EncodeKeys(keys) + rest)
    modifies reader
    ensures reader.Valid()
    ensures ok ==> Remains(goal, reader.bytes, reader.offset, rest)
    ensures !ok ==> reader.bytes != goal
  {
    var i := 0;
    assert keys[0..] == keys;
    while i < |keys|
      invariant 0 <= i <= |keys| && reader.Valid()
      invariant Remains(goal, reader.bytes, reader.offset, EncodeKeys(keys[i..]) + rest)
    {
      ghost var o := reader.offset;
      assert keys[i..][1..] == keys[i + 1..];
      assert EncodeKeys(keys[i..]) + rest == keys[i] + (EncodeKeys(keys[i + 1..]) + rest);
      ok := ExpectBytes(reader, keys[i]);
      if !ok {
        Stuck(goal, reader.bytes, o, keys[i], EncodeKeys(keys[i + 1..]) + rest);
        return;
      }
      Advance(goal, reader.bytes, o, reader.offset, keys[i], EncodeKeys(keys[i + 1..]) + rest);
      i := i + 1;
    }
    assert EncodeKeys(keys[i..]) + rest == rest;
    ok := true;
  }

  /** The walk over the message proper, once the expected input has been admitted. */
  method ReadMessage(reader: Reader, header: Bytes, keys: seq<Key>, blockhash: Key, ixs: seq<Instruction>) returns (ok: bool)
    requires reader.offset == 0 && AllIndexed(keys, ixs) && |ixs| < 256
    modifies reader
    ensures ok <==> reader.bytes == EncodeMessage(header, keys, blockhash, ixs)
  {
    ghost var bytes := reader.bytes;
    ghost var goal := EncodeMessage(header, keys, blockhash, ixs);
    ghost var t5 := EncodeInstructions(keys, ixs);
    ghost var t4 := EncodeLength(|ixs|) + t5;
    ghost var t3 := blockhash + t4;
    ghost var t2 := EncodeKeys(keys) + t3;
    ghost var t1 := EncodeLength(|keys|) + t2;
    assert Remains(goal, bytes, 0, header + t1);
    ghost var o := reader.offset;
    ok := ExpectBytes(reader, header);
    if !ok { Stuck(goal, bytes, o, header, t1); return; }
    Advance(goal, bytes, o, reader.offset, header, t1);
    o := reader.offset;
    ok := ExpectLength(reader, |keys|);
    if !ok { Stuck(goal, bytes, o, EncodeLength(|keys|), t2); return; }
    Advance(goal, bytes, o, reader.offset, EncodeLength(|keys|), t2);
    ok := ReadKeys(reader, keys, goal, t3);
    if !ok { return; }
    o := reader.offset;
    ok := ExpectBytes(reader, blockhash);
    if !ok { Stuck(goal, bytes, o, blockhash, t4); return; }
    Advance(goal, bytes, o, reader.offset, blockhash, t4);
    o := reader.offset;
    ok := ExpectLength(reader, |ixs|);
    if !ok { Stuck(goal, bytes, o, EncodeLength(|ixs|), t5); return; }
    Advance(goal, bytes, o, reader.offset, EncodeLength(|ixs|), t5);
    var i := 0;
    assert ixs[0..] == ixs;
    while i < |ixs|
      invariant 0 <= i <= |ixs| && reader.Valid()
      invariant Remains(goal, bytes, reader.offset, EncodeInstructions(keys, ixs[i..]))
    {
      assert ixs[i..][1..] == ixs[i + 1..];
      ok := ReadInstruction(reader, keys, ixs[i], goal, EncodeInstructions(keys, ixs[i + 1..]));
      if !ok { return; }
      i := i + 1;
    }
    assert EncodeInstructions(keys, ixs[i..]) == [];
    assert goal == bytes[..reader.offset];
    ok := reader.Finish();
  }

  /** Accepts one byte string per expected input, and no prefix or extension of it. */
  method ValidateSponsoredMessage(p: Policy, message: Bytes, e: Input) returns (ok: bool)
    ensures ok <==> Accepts(p, message, e)
  {
    if !Admissible(p, e) || |message| + SIGNATURE_BYTES > MAX_TRANSACTION_BYTES {
      return false;
    }
    InstructionsIndexed(p, e);
    var reader := new Reader(message);
    ok := ReadMessage(reader, [3, 0, 4], AccountKeys(p, e), e.blockhash, Instructions(p, e));
  }
}
