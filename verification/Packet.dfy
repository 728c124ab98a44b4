/**
 * The browser's packet parser (src/lib/onboarding/wallet.ts:55-90) and its checks around
 * the wallet prompt (src/lib/onboarding/wallet.ts:238-270).
 */
module Packet {
  import opened Basics
  import opened Registry
  import opened Wire
  import opened SponsoredMessage
  import opened Quotes
  import Builder

  const MAX_PACKET_BYTES := 1_232

  datatype RawInstruction = RawInstruction(program: Byte, accounts: Bytes, data: Bytes)

  datatype Parsed = Parsed(signatures: Bytes, readonlyUnsigned: Byte, keys: seq<Key>, blockhash: Key, instructions: seq<RawInstruction>)

  // --------------------------------------------------------------------- printing

  predicate RawFits(ix: RawInstruction, count: nat) {
    ix.program < count && |ix.accounts| < 0x1_0000 && |ix.data| < 0x1_0000 && forall i :: 0 <= i < |ix.accounts| ==> ix.accounts[i] < count
  }

  predicate AllFit(ixs: seq<RawInstruction>, count: nat) {
    forall i :: 0 <= i < |ixs| ==> RawFits(ixs[i], count)
  }

  ghost function PrintInstruction(ix: RawInstruction): Bytes
    requires |ix.accounts| < 0x1_0000 && |ix.data| < 0x1_0000
  {
    [ix.program] + (EncodeLength(|ix.accounts|) + (ix.accounts + (EncodeLength(|ix.data|) + ix.data)))
  }

  ghost function PrintInstructions(ixs: seq<RawInstruction>, count: nat): Bytes
    requires AllFit(ixs, count)
  {
    if ixs == [] then [] else PrintInstruction(ixs[0]) + PrintInstructions(ixs[1..], count)
  }

  ghost function PrintMessage(x: Parsed): Bytes
    requires |x.keys| <= 256 && AllFit(x.instructions, |x.keys|) && |x.instructions| < 0x1_0000
  {
    [3, 0, x.readonlyUnsigned] + (EncodeLength(|x.keys|) + (EncodeKeys(x.keys)
      + (x.blockhash + (EncodeLength(|x.instructions|) + PrintInstructions(x.instructions, |x.keys|)))))
  }

  ghost function Print(x: Parsed): Bytes
    requires |x.keys| <= 256 && AllFit(x.instructions, |x.keys|) && |x.instructions| < 0x1_0000
  {
    [3] + x.signatures + PrintMessage(x)
  }

  /** What a packet must be to be accepted, apart from being spelled canonically. */
  ghost predicate Sensible(x: Parsed) {
    && |x.signatures| == 192 && 3 <= |x.keys| <= 256 && x.readonlyUnsigned <= |x.keys| - 3 && Distinct(x.keys)
    && 0 < |x.instructions| < 0x1_0000 && AllFit(x.instructions, |x.keys|)
    && |Print(x)| <= MAX_PACKET_BYTES
  }

  // ---------------------------------------------------------------------- parsing

  /** take(length) at an offset. */
  function TakeAt(m: Bytes, o: nat, n: nat): Option<Bytes>
    requires o <= |m|
  {
    if o + n > |m| then None else Some(m[o..o + n])
  }

  function ParseKeys(m: Bytes, o: nat, n: nat): (r: Option<(seq<Key>, nat)>)
    requires o <= |m|
    ensures r.Some? ==> r.value.1 == o + 32 * n <= |m| && |r.value.0| == n
    decreases n
  {
    if n == 0 then Some(([], o))
    else if o + 32 > |m| then None
    else
      var rest := ParseKeys(m, o + 32, n - 1);
      if rest.None? then None else Some(([m[o..o + 32]] + rest.value.0, rest.value.1))
  }

  /** A length-prefixed run of bytes. */
  function ParseBlock(m: Bytes, o: nat): (r: Option<(Bytes, nat)>)
    requires o <= |m|
    ensures r.Some? ==> o < r.value.1 <= |m| && |r.value.0| < 0x1_0000
  {
    var n := ReadLength(m, o);
    if n.None? then None
    else
      var body := TakeAt(m, o + n.value.1, n.value.0);
      if body.None? then None else Some((body.value, o + n.value.1 + n.value.0))
  }

  function ParseInstruction(m: Bytes, o: nat, count: nat): (r: Option<(RawInstruction, nat)>)
    requires o <= |m|
    ensures r.Some? ==> o < r.value.1 <= |m| && RawFits(r.value.0, count)
  {
    if o == |m| || m[o] as int >= count then None
    else
      var accounts := ParseBlock(m, o + 1);
      if accounts.None? || exists i :: 0 <= i < |accounts.value.0| && accounts.value.0[i] as int >= count then None
      else
        var data := ParseBlock(m, accounts.value.1);
        if data.None? then None else Some((RawInstruction(m[o], accounts.value.0, data.value.0), data.value.1))
  }

  function ParseInstructions(m: Bytes, o: nat, n: nat, count: nat): (r: Option<(seq<RawInstruction>, nat)>)
    requires o <= |m|
    ensures r.Some? ==> o <= r.value.1 <= |m| && |r.value.0| == n && AllFit(r.value.0, count)
    decreases n
  {
    if n == 0 then Some(([], o))
    else
      var first := ParseInstruction(m, o, count);
      if first.None? then None
      else
        var rest := ParseInstructions(m, first.value.1, n - 1, count);
        if rest.None? then None else Some(([first.value.0] + rest.value.0, rest.value.1))
  }

  /** The part of the message after the header and the keys. */
  function ParseTail(m: Bytes, o: nat, count: nat): Option<(Key, seq<RawInstruction>)>
    requires o <= |m|
  {
    if o + 32 > |m| then None
    else
      var n := ReadLength(m, o + 32);
      if n.None? || n.value.0 == 0 || n.value.0 > |m| then None
      else
        var ixs := ParseInstructions(m, o + 32 + n.value.1, n.value.0, count);
        if ixs.None? || ixs.value.1 != |m| then None else Some((m[o..o + 32], ixs.value.0))
  }

  function ParseMessage(signatures: Bytes, m: Bytes): Option<Parsed> {
    if |m| < 3 || m[0] != 3 || m[1] != 0 then None
    else
      var count := ReadLength(m, 3);
      if count.None? || count.value.0 < 3 || count.value.0 > 256 || m[2] as int > count.value.0 - 3 then None
      else
        var keys := ParseKeys(m, 3 + count.value.1, count.value.0);
        if keys.None? || !Distinct(keys.value.0) then None
        else
          var tail := ParseTail(m, keys.value.1, count.value.0);
          if tail.None? then None else Some(Parsed(signatures, m[2], keys.value.0, tail.value.0, tail.value.1))
  }

  /** What packet() returns; None stands for invalid_transaction. */
  function Parse(bytes: Bytes): Option<Parsed> {
    if |bytes| > MAX_PACKET_BYTES || |bytes| < 197 || bytes[0] != 3 then None else ParseMessage(bytes[1..193], bytes[193..])
  }

  // ------------------------------------------------------------- parse then print

  lemma LengthSpelled(m: Bytes, o: nat)
    requires o <= |m| && ReadLength(m, o).Some?
    ensures var (n, used) := ReadLength(m, o).value; used >= 1 && m[o..o + used] == EncodeLength(n)
  {
    ReadIsCanonical(m, o);
  }

  lemma {:induction false} KeysSpelled(m: Bytes, o: nat, n: nat)
    requires o <= |m| && ParseKeys(m, o, n).Some?
    ensures m[o..ParseKeys(m, o, n).value.1] == EncodeKeys(ParseKeys(m, o, n).value.0)
    decreases n
  {
    if n > 0 {
      KeysSpelled(m, o + 32, n - 1);
      var keys := ParseKeys(m, o, n).value.0;
      var end := ParseKeys(m, o, n).value.1;
      assert keys[1..] == ParseKeys(m, o + 32, n - 1).value.0;
      assert m[o..end] == m[o..o + 32] + m[o + 32..end];
    }
  }

  lemma BlockSpelled(m: Bytes, o: nat)
    requires o <= |m| && ParseBlock(m, o).Some?
    ensures var (body, end) := ParseBlock(m, o).value; m[o..end] == EncodeLength(|body|) + body
  {
    LengthSpelled(m, o);
    hide ReadLength, EncodeLength;
    var (n, used) := ReadLength(m, o).value;
    var end := ParseBlock(m, o).value.1;
    assert m[o..end] == m[o..o + used] + m[o + used..end];
  }

  lemma InstructionSpelled(m: Bytes, o: nat, count: nat)
    requires o <= |m| && ParseInstruction(m, o, count).Some?
    ensures var (ix, end) := ParseInstruction(m, o, count).value; m[o..end] == PrintInstruction(ix)
  {
    hide ParseBlock, EncodeLength;
    var (accounts, middle) := ParseBlock(m, o + 1).value;
    var (data, end) := ParseBlock(m, middle).value;
    BlockSpelled(m, o + 1);
    BlockSpelled(m, middle);
    assert m[o..end] == [m[o]] + (m[o + 1..middle] + m[middle..end]);
  }

  lemma {:induction false} InstructionsSpelled(m: Bytes, o: nat, n: nat, count: nat)
    requires o <= |m| && ParseInstructions(m, o, n, count).Some?
    ensures var (ixs, end) := ParseInstructions(m, o, n, count).value; m[o..end] == PrintInstructions(ixs, count)
    decreases n
  {
    hide ParseInstruction, PrintInstruction;
    if n > 0 {
      var (first, middle) := ParseInstruction(m, o, count).value;
      var (ixs, end) := ParseInstructions(m, o, n, count).value;
      InstructionSpelled(m, o, count);
      InstructionsSpelled(m, middle, n - 1, count);
      assert ixs[1..] == ParseInstructions(m, middle, n - 1, count).value.0;
      assert m[o..end] == m[o..middle] + m[middle..end];
    }
  }

  lemma TailSpelled(m: Bytes, o: nat, count: nat)
    requires o <= |m| && ParseTail(m, o, count).Some?
    ensures var (blockhash, ixs) := ParseTail(m, o, count).value;
            0 < |ixs| < 0x1_0000 && AllFit(ixs, count)
            && m[o..] == blockhash + (EncodeLength(|ixs|) + PrintInstructions(ixs, count))
  {
    hide ParseInstructions, PrintInstructions, EncodeLength, ReadLength;
    var (n, used) := ReadLength(m, o + 32).value;
    LengthSpelled(m, o + 32);
    InstructionsSpelled(m, o + 32 + used, n, count);
    assert m[o..] == m[o..o + 32] + (m[o + 32..o + 32 + used] + m[o + 32 + used..|m|]);
  }

  lemma MessageSpelled(signatures: Bytes, m: Bytes)
    requires ParseMessage(signatures, m).Some?
    ensures var x := ParseMessage(signatures, m).value;
            && 3 <= |x.keys| <= 256 && x.readonlyUnsigned <= |x.keys| - 3 && Distinct(x.keys) && x.signatures == signatures
            && 0 < |x.instructions| < 0x1_0000 && AllFit(x.instructions, |x.keys|) && m == PrintMessage(x)
  {
    hide ParseKeys, EncodeKeys, ParseTail, PrintInstructions, EncodeLength, ReadLength, AllFit, Distinct;
    var (count, used) := ReadLength(m, 3).value;
    var (keys, end) := ParseKeys(m, 3 + used, count).value;
    LengthSpelled(m, 3);
    KeysSpelled(m, 3 + used, count);
    TailSpelled(m, end, count);
    assert m == [3, 0, m[2]] + (m[3..3 + used] + (m[3 + used..end] + m[end..]));
  }

  /** Printing what the browser parsed gives back the packet, and the packet was sensible. */
  lemma ParsedPrintsBack(bytes: Bytes)
    requires Parse(bytes).Some?
    ensures Sensible(Parse(bytes).value) && Print(Parse(bytes).value) == bytes
  {
    hide ParseMessage, PrintMessage, AllFit, Distinct;
    MessageSpelled(bytes[1..193], bytes[193..]);
    assert bytes == [bytes[0]] + bytes[1..193] + bytes[193..];
  }

  // ------------------------------------------------------------- print then parse

  /** The message carries `chunk` at this offset. */
  predicate CarriesAt(m: Bytes, o: nat, chunk: Bytes) {
    o + |chunk| <= |m| && m[o..o + |chunk|] == chunk
  }

  lemma CarriesParts(m: Bytes, o: nat, a: Bytes, b: Bytes)
    requires CarriesAt(m, o, a + b)
    ensures CarriesAt(m, o, a) && CarriesAt(m, o + |a|, b)
  {
    assert m[o..o + |a|] == (a + b)[..|a|];
    assert m[o + |a|..o + |a| + |b|] == (a + b)[|a|..];
  }

  lemma LengthCarried(m: Bytes, o: nat, n: int)
    requires 0 <= n < 0x1_0000 && CarriesAt(m, o, EncodeLength(n))
    ensures ReadLength(m, o) == Some((n, |EncodeLength(n)|))
  {
    hide ReadLength;
    assert EncodeLength(n) <= m[o..];
    ReadEncoded(m, o, n);
  }

  lemma {:induction false} KeysCarried(m: Bytes, o: nat, keys: seq<Key>)
    requires CarriesAt(m, o, EncodeKeys(keys))
    ensures ParseKeys(m, o, |keys|) == Some((keys, o + 32 * |keys|))
    decreases |keys|
  {
    if keys != [] {
      CarriesParts(m, o, keys[0], EncodeKeys(keys[1..]));
      KeysCarried(m, o + 32, keys[1..]);
      assert keys == [keys[0]] + keys[1..];
    }
  }

  lemma BlockCarried(m: Bytes, o: nat, body: Bytes)
    requires |body| < 0x1_0000 && CarriesAt(m, o, EncodeLength(|body|) + body)
    ensures ParseBlock(m, o) == Some((body, o + |EncodeLength(|body|)| + |body|))
  {
    hide ReadLength, EncodeLength;
    CarriesParts(m, o, EncodeLength(|body|), body);
    LengthCarried(m, o, |body|);
  }

  lemma InstructionCarried(m: Bytes, o: nat, count: nat, ix: RawInstruction)
    requires RawFits(ix, count) && CarriesAt(m, o, PrintInstruction(ix))
    ensures ParseInstruction(m, o, count) == Some((ix, o + |PrintInstruction(ix)|))
  {
    hide ParseBlock, EncodeLength;
    var data := EncodeLength(|ix.data|) + ix.data;
    var accounts := EncodeLength(|ix.accounts|) + ix.accounts;
    assert PrintInstruction(ix) == [ix.program] + (accounts + data);
    CarriesParts(m, o, [ix.program], accounts + data);
    assert m[o..o + 1] == [ix.program];
    assert m[o] == ix.program;
    CarriesParts(m, o + 1, accounts, data);
    BlockCarried(m, o + 1, ix.accounts);
    BlockCarried(m, o + 1 + |accounts|, ix.data);
  }

  lemma {:induction false} InstructionsCarried(m: Bytes, o: nat, count: nat, ixs: seq<RawInstruction>)
    requires AllFit(ixs, count) && CarriesAt(m, o, PrintInstructions(ixs, count))
    ensures ParseInstructions(m, o, |ixs|, count) == Some((ixs, o + |PrintInstructions(ixs, count)|))
    decreases |ixs|
  {
    hide ParseInstruction, PrintInstruction;
    if ixs != [] {
      CarriesParts(m, o, PrintInstruction(ixs[0]), PrintInstructions(ixs[1..], count));
      InstructionCarried(m, o, count, ixs[0]);
      InstructionsCarried(m, o + |PrintInstruction(ixs[0])|, count, ixs[1..]);
      assert ixs == [ixs[0]] + ixs[1..];
    }
  }

  lemma {:induction false} InstructionsTakeRoom(ixs: seq<RawInstruction>, count: nat)
    requires AllFit(ixs, count)
    ensures |ixs| <= |PrintInstructions(ixs, count)|
  {
    if ixs != [] { InstructionsTakeRoom(ixs[1..], count); }
  }

  lemma TailCarried(m: Bytes, o: nat, x: Parsed)
    requires AllFit(x.instructions, |x.keys|) && 0 < |x.instructions| < 0x1_0000
    requires o <= |m| && m[o..] == x.blockhash + (EncodeLength(|x.instructions|) + PrintInstructions(x.instructions, |x.keys|))
    ensures ParseTail(m, o, |x.keys|) == Some((x.blockhash, x.instructions))
  {
    hide ParseInstructions, PrintInstructions, EncodeLength, ReadLength, AllFit;
    var length, ixs := EncodeLength(|x.instructions|), PrintInstructions(x.instructions, |x.keys|);
    InstructionsTakeRoom(x.instructions, |x.keys|);
    assert CarriesAt(m, o, x.blockhash + (length + ixs));
    CarriesParts(m, o, x.blockhash, length + ixs);
    CarriesParts(m, o + 32, length, ixs);
    LengthCarried(m, o + 32, |x.instructions|);
    InstructionsCarried(m, o + 32 + |length|, |x.keys|, x.instructions);
  }

  lemma MessageCarried(x: Parsed)
    requires 3 <= |x.keys| <= 256 && x.readonlyUnsigned <= |x.keys| - 3 && Distinct(x.keys)
    requires AllFit(x.instructions, |x.keys|) && 0 < |x.instructions| < 0x1_0000
    ensures ParseMessage(x.signatures, PrintMessage(x)) == Some(x)
  {
    hide ParseKeys, EncodeKeys, ParseTail, PrintInstructions, EncodeLength, ReadLength, AllFit, Distinct;
    var m := PrintMessage(x);
    var length := EncodeLength(|x.keys|);
    var tail := x.blockhash + (EncodeLength(|x.instructions|) + PrintInstructions(x.instructions, |x.keys|));
    assert m[0] == 3 && m[1] == 0 && m[2] == x.readonlyUnsigned;
    assert CarriesAt(m, 3, length + (EncodeKeys(x.keys) + tail));
    CarriesParts(m, 3, length, EncodeKeys(x.keys) + tail);
    CarriesParts(m, 3 + |length|, EncodeKeys(x.keys), tail);
    LengthCarried(m, 3, |x.keys|);
    KeysCarried(m, 3 + |length|, x.keys);
    var o := 3 + |length| + 32 * |x.keys|;
    assert m[o..] == tail;
    TailCarried(m, o, x);
  }

  lemma PacketTakesRoom(x: Parsed)
    requires Sensible(x)
    ensures |Print(x)| >= 197
  {
    hide AllFit, Distinct, PrintInstructions;
  }

  /** Every sensible packet parses to exactly what was printed. */
  lemma PrintedParsesBack(x: Parsed)
    requires Sensible(x)
    ensures Parse(Print(x)) == Some(x)
  {
    PacketTakesRoom(x);
    MessageCarried(x);
    hide ParseMessage, PrintMessage, AllFit, Distinct;
    var bytes := Print(x);
    assert bytes[1..193] == x.signatures && bytes[193..] == PrintMessage(x);
  }

  /** So packets the browser accepts and sensible parsed packets correspond one to one. */
  lemma AcceptsExactlyPrints(bytes: Bytes)
    ensures Parse(bytes).Some? <==> exists x: Parsed :: Sensible(x) && Print(x) == bytes
  {
    if Parse(bytes).Some? {
      ParsedPrintsBack(bytes);
    }
    if x: Parsed :| Sensible(x) && Print(x) == bytes {
      PrintedParsesBack(x);
    }
  }

  // --------------------------------------------------------------------- the loops

  /** What was read so far, in front of what the rest parses to. */
  function Prepend<T>(list: seq<T>, rest: Option<(seq<T>, nat)>): Option<(seq<T>, nat)> {
    if rest.None? then None else Some((list + rest.value.0, rest.value.1))
  }

  lemma PrependNothing<T>(rest: Option<(seq<T>, nat)>)
    ensures Prepend([], rest) == rest
  {
    if rest.Some? { assert [] + rest.value.0 == rest.value.0; }
  }

  lemma PrependOne<T>(list: seq<T>, x: T, rest: Option<(seq<T>, nat)>)
    ensures Prepend(list, Prepend([x], rest)) == Prepend(list + [x], rest)
  {
    if rest.Some? {
      assert list + ([x] + rest.value.0) == (list + [x]) + rest.value.0;
    }
  }

  method ReadKeyList(reader: Reader, n: nat) returns (keys: Option<seq<Key>>)
    requires reader.Valid()
    modifies reader
    ensures reader.Valid()
    ensures var r := ParseKeys(reader.bytes, old(reader.offset), n);
            keys.Some? == r.Some? && (r.Some? ==> r.value == (keys.value, reader.offset))
  {
    var list: seq<Key> := [];
    ghost var goal := ParseKeys(reader.bytes, reader.offset, n);
    PrependNothing(goal);
    for i := 0 to n
      invariant reader.Valid() && goal == Prepend(list, ParseKeys(reader.bytes, reader.offset, n - i))
    {
      ghost var o := reader.offset;
      var key := reader.Take(32);
      if key.None? {
        return None;
      }
      PrependOne(list, key.value, ParseKeys(reader.bytes, o + 32, n - i - 1));
      list := list + [key.value];
    }
    assert list + [] == list;
    keys := Some(list);
  }

  method ReadBlock(reader: Reader) returns (body: Option<Bytes>)
    requires reader.Valid()
    modifies reader
    ensures reader.Valid()
    ensures var r := ParseBlock(reader.bytes, old(reader.offset));
            body.Some? == r.Some? && (r.Some? ==> r.value == (body.value, reader.offset))
  {
    var n := reader.Length();
    if n.None? {
      return None;
    }
    body := reader.Take(n.value);
  }

  method ReadRaw(reader: Reader, count: nat) returns (ix: Option<RawInstruction>)
    requires reader.Valid()
    modifies reader
    ensures reader.Valid()
    ensures var r := ParseInstruction(reader.bytes, old(reader.offset), count);
            ix.Some? == r.Some? && (r.Some? ==> r.value == (ix.value, reader.offset))
  {
    hide ParseBlock;
    var program := reader.TakeByte();
    if program.None? || program.value as int >= count {
      return None;
    }
    var accounts := ReadBlock(reader);
    if accounts.None? {
      return None;
    }
    for i := 0 to |accounts.value|
      invariant forall j :: 0 <= j < i ==> accounts.value[j] < count
    {
      if accounts.value[i] as int >= count {
        return None;
      }
    }
    var data := ReadBlock(reader);
    ix := if data.None? then None else Some(RawInstruction(program.value, accounts.value, data.value));
  }

  method ReadRaws(reader: Reader, n: nat, count: nat) returns (ixs: Option<seq<RawInstruction>>)
    requires reader.Valid()
    modifies reader
    ensures reader.Valid()
    ensures var r := ParseInstructions(reader.bytes, old(reader.offset), n, count);
            ixs.Some? == r.Some? && (r.Some? ==> r.value == (ixs.value, reader.offset))
  {
    hide ParseInstruction;
    var list: seq<RawInstruction> := [];
    ghost var goal := ParseInstructions(reader.bytes, reader.offset, n, count);
    PrependNothing(goal);
    for i := 0 to n
      invariant reader.Valid() && goal == Prepend(list, ParseInstructions(reader.bytes, reader.offset, n - i, count))
    {
      var ix := ReadRaw(reader, count);
      if ix.None? {
        return None;
      }
      PrependOne(list, ix.value, ParseInstructions(reader.bytes, reader.offset, n - i - 1, count));
      list := list + [ix.value];
    }
    assert list + [] == list;
    ixs := Some(list);
  }

  method ReadTail(reader: Reader, count: nat) returns (tail: Option<(Key, seq<RawInstruction>)>)
    requires reader.Valid()
    modifies reader
    ensures tail == ParseTail(reader.bytes, old(reader.offset), count)
  {
    hide ParseInstructions;
    var blockhash := reader.Take(32);
    if blockhash.None? {
      return None;
    }
    var n := reader.Length();
    if n.None? || n.value == 0 || n.value > |reader.bytes| {
      return None;
    }
    var ixs := ReadRaws(reader, n.value, count);
    if ixs.None? {
      return None;
    }
    var done := reader.Finish();
    tail := if done then Some((blockhash.value, ixs.value)) else None;
  }

  /** packet(): one offset walking the message once. */
  method ParsePacket(bytes: Bytes) returns (r: Option<Parsed>)
    ensures r == Parse(bytes)
  {
    hide ParseKeys, ParseTail, Distinct;
    if |bytes| > MAX_PACKET_BYTES || |bytes| < 197 || bytes[0] != 3 {
      return None;
    }
    var reader := new Reader(bytes[193..]);
    var signers := reader.TakeByte();
    var readonlySigned := reader.TakeByte();
    if signers.None? || readonlySigned.None? || signers.value != 3 || readonlySigned.value != 0 {
      return None;
    }
    var readonlyUnsigned := reader.TakeByte();
    if readonlyUnsigned.None? {
      return None;
    }
    var count := reader.Length();
    if count.None? || count.value < 3 || count.value > 256 || readonlyUnsigned.value as int > count.value - 3 {
      return None;
    }
    var keys := ReadKeyList(reader, count.value);
    if keys.None? || !Distinct(keys.value) {
      return None;
    }
    var tail := ReadTail(reader, count.value);
    r := if tail.None? then None
         else Some(Parsed(bytes[1..193], readonlyUnsigned.value, keys.value, tail.value.0, tail.value.1));
  }

  // --------------------------------------------------------------------- agreement

  /** A server-side instruction as indices into the key list. */
  ghost function RawOf(keys: seq<Key>, ix: Instruction): RawInstruction
    requires |keys| <= 256 && Indexed(keys, ix)
  {
    RawInstruction(IndexOf(keys, ix.program), EncodeAccounts(keys, ix.accounts), ix.data)
  }

  ghost function RawsOf(keys: seq<Key>, ixs: seq<Instruction>): (r: seq<RawInstruction>)
    requires AllIndexed(keys, ixs)
    ensures |r| == |ixs| && AllFit(r, |keys|)
  {
    if ixs == [] then [] else [RawOf(keys, ixs[0])] + RawsOf(keys, ixs[1..])
  }

  lemma RawSpelled(keys: seq<Key>, ix: Instruction)
    requires |keys| <= 256 && Indexed(keys, ix)
    ensures PrintInstruction(RawOf(keys, ix)) == EncodeInstruction(keys, ix)
  {
  }

  lemma {:induction false} RawsSpelled(keys: seq<Key>, ixs: seq<Instruction>)
    requires AllIndexed(keys, ixs)
    ensures PrintInstructions(RawsOf(keys, ixs), |keys|) == EncodeInstructions(keys, ixs)
  {
    hide PrintInstruction, EncodeInstruction, RawOf;
    if ixs != [] {
      RawSpelled(keys, ixs[0]);
      RawsSpelled(keys, ixs[1..]);
      assert RawsOf(keys, ixs)[1..] == RawsOf(keys, ixs[1..]);
    }
  }

  /** The server's message, read as the browser reads it. */
  ghost function BrowserView(p: Policy, e: Input): Parsed
    requires ValidLabel(e.name)
  {
    InstructionsIndexed(p, e);
    Parsed(seq(192, _ => 0), 4, AccountKeys(p, e), e.blockhash, RawsOf(AccountKeys(p, e), Instructions(p, e)))
  }

  lemma ViewSpelled(p: Policy, e: Input)
    requires ValidLabel(e.name)
    ensures PrintMessage(BrowserView(p, e)) == CanonicalMessage(p, e)
  {
    hide AccountKeys, Instructions, EncodeInstructions, PrintInstructions, EncodeLength, RawsOf;
    InstructionsIndexed(p, e);
    RawsSpelled(AccountKeys(p, e), Instructions(p, e));
  }

  lemma DistinctCons(k: Key, t: seq<Key>)
    requires Distinct(t) && k !in t
    ensures Distinct([k] + t)
  {
    var s := [k] + t;
    forall i, j | 0 <= i < j < |s| ensures s[i] != s[j] {
      assert s[j] == t[j - 1];
      if i > 0 { assert s[i] == t[i - 1]; }
    }
  }

  lemma {:induction false} InsertDistinct(rank: Key -> int, k: Key, s: seq<Key>)
    requires Distinct(s) && k !in s
    ensures Distinct(InsertByRank(rank, k, s))
  {
    if s == [] || rank(k) <= rank(s[0]) {
      DistinctCons(k, s);
    } else {
      var t := s[1..];
      assert forall i, j :: 0 <= i < j < |t| ==> t[i] == s[i + 1] && t[j] == s[j + 1];
      assert s[0] !in t;
      InsertDistinct(rank, k, t);
      InsertKeepsElements(rank, k, t, s[0]);
      DistinctCons(s[0], InsertByRank(rank, k, t));
    }
  }

  lemma {:induction false} SortDistinct(rank: Key -> int, s: seq<Key>)
    requires Distinct(s)
    ensures Distinct(SortByRank(rank, s))
  {
    if s != [] {
      var t := s[1..];
      SortDistinct(rank, t);
      SortKeepsElements(rank, t, s[0]);
      InsertDistinct(rank, s[0], SortByRank(rank, t));
    }
  }

  lemma DistinctAppend(a: seq<Key>, b: seq<Key>)
    requires Distinct(a) && Distinct(b) && forall k <- a :: k !in b
    ensures Distinct(a + b)
  {
    var s := a + b;
    forall i, j | 0 <= i < j < |s| ensures s[i] != s[j] {
      if i < |a| <= j { assert s[i] in a && s[j] in b; }
    }
  }

  lemma SortedPart(rank: Key -> int, s: seq<Key>)
    ensures forall k :: k in SortByRank(rank, s) <==> k in s
  {
    forall k ensures k in SortByRank(rank, s) <==> k in s {
      SortKeepsElements(rank, s, k);
    }
  }

  /** The ten keys of an admissible message are pairwise different. */
  lemma TenDistinct(p: Policy, e: Input)
    requires Admissible(p, e) && Builder.SeparateAddresses(p, e)
    ensures Distinct(AccountKeys(p, e))
  {
    Builder.AdmissibleApart(p, e);
    hide Admissible, Builder.SeparateAddresses, SortByRank;
    var s2, s3, s4 := [e.attemptPayer, e.user], Builder.WritableKeys(p, e), Builder.ReadonlyKeys(p, e);
    var f2, f3, f4 := SortByRank(p.rank, s2), SortByRank(p.rank, s3), SortByRank(p.rank, s4);
    SortDistinct(p.rank, s2);
    SortDistinct(p.rank, s3);
    SortDistinct(p.rank, s4);
    SortedPart(p.rank, s2);
    SortedPart(p.rank, s3);
    SortedPart(p.rank, s4);
    ActorsApart(p, e);
    DistinctAppend([e.sponsor], f2);
    DistinctAppend([e.sponsor] + f2, f3);
    DistinctAppend([e.sponsor] + f2 + f3, f4);
  }

  lemma ActorsApart(p: Policy, e: Input)
    requires Builder.GroupsApart(p, e)
    ensures Distinct([e.attemptPayer, e.user]) && e.sponsor !in [e.attemptPayer, e.user]
    ensures forall k <- [e.sponsor, e.attemptPayer, e.user] :: k !in Builder.WritableKeys(p, e) && k !in Builder.ReadonlyKeys(p, e)
  {
    assert [e.sponsor, e.attemptPayer, e.user] == Actors(e);
  }

  lemma UserPlace(p: Policy, e: Input)
    ensures AccountKeys(p, e)[1] == e.user || AccountKeys(p, e)[2] == e.user
    ensures AccountKeys(p, e)[0] == e.sponsor
  {
    SortTwo(p.rank, e.attemptPayer, e.user);
  }

  lemma SortTwo(rank: Key -> int, a: Key, b: Key)
    ensures SortByRank(rank, [a, b]) == [a, b] || SortByRank(rank, [a, b]) == [b, a]
  {
    assert [a, b][1..] == [b] && [b][1..] == [];
    assert InsertByRank(rank, b, []) == [b];
    assert InsertByRank(rank, a, []) == [a];
    assert SortByRank(rank, [b]) == [b];
  }

  /**
   * Every message the server validator accepts, behind three zero signatures, is accepted
   * by the browser with the same ten keys, all signatures zero, and the user at index 1 or 2.
   */
  lemma BrowserAgrees(p: Policy, message: Bytes, e: Input)
    requires Accepts(p, message, e) && Builder.SeparateAddresses(p, e)
    ensures var r := Parse(UnsignedPacket(message));
            && r.Some? && r.value.keys == AccountKeys(p, e) && (r.value.keys[1] == e.user || r.value.keys[2] == e.user)
            && r.value.signatures == seq(192, _ => 0)
  {
    var x := BrowserView(p, e);
    ViewSpelled(p, e);
    TenDistinct(p, e);
    UserPlace(p, e);
    assert UnsignedPacket(message) == Print(x);
    PrintedParsesBack(x);
  }

  // ------------------------------------------------------------- around the prompt

  function Signature(x: Parsed, i: nat): Bytes
    requires |x.signatures| == 192 && i < 3
  {
    x.signatures[64 * i..64 * i + 64]
  }

  predicate Zero(b: Bytes) {
    forall i :: 0 <= i < |b| ==> b[i] == 0
  }

  /** What must hold before the wallet is asked: the user signs at index 1 or 2, and nobody has signed. */
  predicate MayPrompt(x: Parsed, user: Key, slot: nat) {
    && |x.signatures| == 192 && 1 <= slot <= 2 && slot < |x.keys| && x.keys[slot] == user
    && Zero(Signature(x, 0)) && Zero(Signature(x, 1)) && Zero(Signature(x, 2))
  }

  /** What is required of the packet that comes back, besides a valid signature. */
  ghost predicate MayReturn(prepared: Bytes, returned: Bytes, slot: nat)
    requires Parse(prepared).Some? && Parse(returned).Some? && slot < 3
  {
    var x, y := Parse(prepared).value, Parse(returned).value;
    && prepared[193..] == returned[193..] && |y.signatures| == 192
    && (forall i :: 0 <= i < 3 && i != slot ==> Zero(Signature(y, i)))
    && !Zero(Signature(y, slot))
  }

  lemma ZeroesAreOne(a: Bytes, b: Bytes)
    requires Zero(a) && Zero(b) && |a| == |b|
    ensures a == b
  {
  }

  lemma PacketParts(bytes: Bytes)
    requires Parse(bytes).Some?
    ensures |bytes| >= 193 && bytes[0] == 3 && Parse(bytes).value.signatures == bytes[1..193]
    ensures var s := Parse(bytes).value.signatures;
            s[0..64] == bytes[1..65] && s[64..128] == bytes[65..129] && s[128..192] == bytes[129..193]
    ensures bytes == [bytes[0]] + bytes[1..65] + bytes[65..129] + bytes[129..193] + bytes[193..]
  {
    hide Distinct, ParseKeys, ParseTail, ReadLength;
  }

  lemma SameMessageSameParts(prepared: Bytes, returned: Bytes)
    requires Parse(prepared).Some? && Parse(returned).Some? && prepared[193..] == returned[193..]
    ensures Parse(returned).value.keys == Parse(prepared).value.keys
    ensures Parse(returned).value.instructions == Parse(prepared).value.instructions
  {
    hide Distinct, ParseKeys, ParseTail, ReadLength;
  }

  /** A returned packet that passes differs from the prepared one in the user's signature and nothing else. */
  lemma OnlyTheSignatureChanged(prepared: Bytes, returned: Bytes, user: Key, slot: nat)
    requires Parse(prepared).Some? && Parse(returned).Some? && slot < 3
    requires MayPrompt(Parse(prepared).value, user, slot) && MayReturn(prepared, returned, slot)
    ensures 65 + 64 * slot <= |prepared| == |returned| && returned != prepared
    ensures returned == prepared[..1 + 64 * slot] + returned[1 + 64 * slot..65 + 64 * slot] + prepared[65 + 64 * slot..]
    ensures Parse(returned).value.keys == Parse(prepared).value.keys
    ensures Parse(returned).value.instructions == Parse(prepared).value.instructions
  {
    hide Parse, Zero;
    var x, y := Parse(prepared).value, Parse(returned).value;
    PacketParts(prepared);
    PacketParts(returned);
    SameMessageSameParts(prepared, returned);
    if slot == 1 {
      ZeroesAreOne(Signature(x, 0), Signature(y, 0));
      ZeroesAreOne(Signature(x, 2), Signature(y, 2));
    } else {
      ZeroesAreOne(Signature(x, 0), Signature(y, 0));
      ZeroesAreOne(Signature(x, 1), Signature(y, 1));
    }
  }

  /** The wallet is asked exactly for an unsigned packet whose second or third signer it is. */
  lemma PromptExactly(prepared: Bytes, user: Key, slot: nat)
    requires Parse(prepared).Some?
    ensures |prepared| >= 193
    ensures MayPrompt(Parse(prepared).value, user, slot)
            <==> && slot in {1, 2} && slot < |Parse(prepared).value.keys| && Parse(prepared).value.keys[slot] == user
                 && forall i :: 1 <= i < 193 ==> prepared[i] == 0
  {
    hide Parse;
    PacketParts(prepared);
    var s := Parse(prepared).value.signatures;
    assert |s| == 192;
    assert forall i :: 0 <= i < 192 ==> s[i] == prepared[i + 1];
    ZeroThirds(s);
    if forall i :: 1 <= i < 193 ==> prepared[i] == 0 {
      assert forall i :: 0 <= i < 192 ==> s[i] == 0;
    }
    if Zero(s) {
      forall i | 1 <= i < 193 ensures prepared[i] == 0 { assert s[i - 1] == prepared[i]; }
    }
  }

  lemma ZeroThirds(s: Bytes)
    requires |s| == 192
    ensures Zero(s) <==> Zero(s[0..64]) && Zero(s[64..128]) && Zero(s[128..192])
  {
    if Zero(s[0..64]) && Zero(s[64..128]) && Zero(s[128..192]) {
      forall i | 0 <= i < 192 ensures s[i] == 0 {
        if i < 64 { assert s[i] == s[0..64][i]; } else if i < 128 { assert s[i] == s[64..128][i - 64]; } else { assert s[i] == s[128..192][i - 128]; }
      }
    }
  }

  /** It is taken back exactly with some signature in that wallet's 64 bytes and every other byte as it was. */
  lemma ReturnExactly(prepared: Bytes, returned: Bytes, user: Key, slot: nat)
    requires Parse(prepared).Some? && Parse(returned).Some? && slot < 3 && MayPrompt(Parse(prepared).value, user, slot)
    ensures |prepared| >= 193 && |returned| >= 193
    ensures MayReturn(prepared, returned, slot)
            <==> && |returned| == |prepared| && returned[..1 + 64 * slot] == prepared[..1 + 64 * slot]
                 && returned[65 + 64 * slot..] == prepared[65 + 64 * slot..] && !Zero(returned[1 + 64 * slot..65 + 64 * slot])
  {
    hide Parse, Zero;
    PacketParts(prepared);
    PacketParts(returned);
    if MayReturn(prepared, returned, slot) {
      OnlyTheSignatureChanged(prepared, returned, user, slot);
      var k := 1 + 64 * slot;
      assert returned[..k] == prepared[..k] && returned[k + 64..] == prepared[k + 64..];
      SlotBytes(returned, slot);
    } else if |returned| == |prepared| && returned[..1 + 64 * slot] == prepared[..1 + 64 * slot]
              && returned[65 + 64 * slot..] == prepared[65 + 64 * slot..] && !Zero(returned[1 + 64 * slot..65 + 64 * slot]) {
      SameElsewhere(prepared, returned, slot);
      SlotBytes(returned, slot);
    }
  }

  lemma SlotBytes(bytes: Bytes, slot: nat)
    requires Parse(bytes).Some? && slot < 3
    ensures |bytes| >= 193 && |Parse(bytes).value.signatures| == 192
    ensures Signature(Parse(bytes).value, slot) == bytes[1 + 64 * slot..65 + 64 * slot]
  {
    hide Parse;
    PacketParts(bytes);
  }

  lemma SameElsewhere(prepared: Bytes, returned: Bytes, slot: nat)
    requires Parse(prepared).Some? && Parse(returned).Some? && slot < 3 && |returned| == |prepared| && |prepared| >= 193
    requires returned[..1 + 64 * slot] == prepared[..1 + 64 * slot] && returned[65 + 64 * slot..] == prepared[65 + 64 * slot..]
    ensures prepared[193..] == returned[193..] && |Parse(prepared).value.signatures| == |Parse(returned).value.signatures| == 192
    ensures forall i :: 0 <= i < 3 && i != slot ==> Signature(Parse(returned).value, i) == Signature(Parse(prepared).value, i)
  {
    hide Parse;
    var k := 1 + 64 * slot;
    forall j | 0 <= j < |prepared| && (j < k || k + 64 <= j) ensures returned[j] == prepared[j] {
      if j < k { assert returned[..k][j] == prepared[..k][j]; } else { assert returned[k + 64..][j - k - 64] == prepared[k + 64..][j - k - 64]; }
    }
    SlotBytes(prepared, 0);
    SlotBytes(returned, 0);
    forall i | 0 <= i < 3 && i != slot ensures Signature(Parse(returned).value, i) == Signature(Parse(prepared).value, i) {
      SlotBytes(prepared, i);
      SlotBytes(returned, i);
    }
  }
}
