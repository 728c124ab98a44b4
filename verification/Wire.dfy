/**
 * The compact-length ("short-u16") wire format of legacy Solana messages and the
 * bounded reader that walks a message (src/lib/transactions/policy.ts:18-47).
 */
module Wire {
  import opened Basics

  type Bytes = seq<Byte>

  /** The one canonical encoding of a vector length. */
  function EncodeLength(n: int): (r: Bytes)
    requires 0 <= n < 0x1_0000
    ensures 1 <= |r| <= 3
  {
    if n < 0x80 then [n]
    else if n < 0x4000 then [n % 0x80 + 0x80, n / 0x80]
    else [n % 0x80 + 0x80, n / 0x80 % 0x80 + 0x80, n / 0x4000]
  }

  /** What Reader.length returns at `offset`: the value and the bytes it consumed. */
  function ReadLength(bytes: Bytes, offset: nat): (r: Option<(int, nat)>)
    requires offset <= |bytes|
    ensures r.Some? ==> offset + r.value.1 <= |bytes| && 0 <= r.value.0 < 0x1_0000 && r.value.1 > 0
  {
    ReadLengthFrom(bytes, offset, 0, 0)
  }

  /** The loop of Reader.length entered at `byteIndex` with `value` accumulated. */
  function ReadLengthFrom(bytes: Bytes, offset: nat, byteIndex: nat, value: int): (r: Option<(int, nat)>)
    requires offset <= |bytes| && byteIndex <= 3
    requires 0 <= value < Shift(byteIndex)
    ensures r.Some? ==> offset + r.value.1 <= |bytes| + byteIndex && 0 <= r.value.0 < 0x1_0000 && r.value.1 > byteIndex
    decreases 3 - byteIndex
  {
    if byteIndex == 3 || offset == |bytes| then None
    else
      var b := bytes[offset];
      if byteIndex == 2 && b > 3 then None
      else
        var next := value + b % 0x80 * Shift(byteIndex);
        if b < 0x80 then
          if byteIndex > 0 && b == 0 then None else Some((next, byteIndex + 1))
        else ReadLengthFrom(bytes, offset + 1, byteIndex + 1, next)
  }

  /** 2^(7*i): the weight of byte i. The shifted groups never overlap, so `|=` is addition. */
  function Shift(i: nat): int
    requires i <= 3
  {
    if i == 0 then 1 else if i == 1 then 0x80 else if i == 2 then 0x4000 else 0x20_0000
  }

  /** Reading inverts canonical encoding, whatever surrounds it. */
  lemma ReadEncoded(bytes: Bytes, offset: nat, n: int)
    requires 0 <= n < 0x1_0000 && offset <= |bytes|
    requires EncodeLength(n) <= bytes[offset..]
    ensures ReadLength(bytes, offset) == Some((n, |EncodeLength(n)|))
  {
    var e := EncodeLength(n);
    forall i | 0 <= i < |e| ensures bytes[offset + i] == e[i] {
      assert bytes[offset..][i] == e[i];
    }
    if n >= 0x4000 {
      ReadThree(bytes, offset, n);
    } else if n >= 0x80 {
      ReadTwo(bytes, offset, n);
    }
  }

  lemma ReadTwo(bytes: Bytes, offset: nat, n: int)
    requires 0x80 <= n < 0x4000 && offset + 2 <= |bytes|
    requires bytes[offset] == n % 0x80 + 0x80 && bytes[offset + 1] == n / 0x80
    ensures ReadLength(bytes, offset) == Some((n, 2))
  {
    var low := n % 0x80;
    assert (low + 0x80) % 0x80 == low;
    assert ReadLengthFrom(bytes, offset, 0, 0) == ReadLengthFrom(bytes, offset + 1, 1, low);
  }

  lemma ReadThree(bytes: Bytes, offset: nat, n: int)
    requires 0x4000 <= n < 0x1_0000 && offset + 3 <= |bytes|
    requires bytes[offset] == n % 0x80 + 0x80 && bytes[offset + 1] == n / 0x80 % 0x80 + 0x80 && bytes[offset + 2] == n / 0x4000
    ensures ReadLength(bytes, offset) == Some((n, 3))
  {
    var b0: int, b1: int, b2: int := bytes[offset], bytes[offset + 1], bytes[offset + 2];
    Groups(n);
    assert Joined(b0, b1, b2) == n;
    Reading(bytes, offset);
  }

  /** A number below 2^16 from its three groups of seven bits. */
  lemma Groups(n: int)
    requires 0x4000 <= n < 0x1_0000
    ensures (n % 0x80 + 0x80) % 0x80 == n % 0x80 && (n / 0x80 % 0x80 + 0x80) % 0x80 == n / 0x80 % 0x80
    ensures n == n % 0x80 + n / 0x80 % 0x80 * 0x80 + n / 0x4000 * 0x4000 && 0 < n / 0x4000 <= 3
  {
  }

  /** Two groups of seven bits and the rest. */
  function Joined(b0: int, b1: int, b2: int): int {
    b0 % 0x80 + b1 % 0x80 * 0x80 + b2 * 0x4000
  }

  /** The reading spelled out by the number of continuation bits. */
  lemma Reading(bytes: Bytes, offset: nat)
    requires offset < |bytes|
    ensures bytes[offset] < 0x80 ==> ReadLength(bytes, offset) == Some((bytes[offset] as int, 1))
    ensures bytes[offset] >= 0x80 && offset + 1 == |bytes| ==> ReadLength(bytes, offset).None?
    ensures bytes[offset] >= 0x80 && offset + 1 < |bytes| && bytes[offset + 1] < 0x80 ==>
              ReadLength(bytes, offset)
              == if bytes[offset + 1] == 0 then None else Some((Joined(bytes[offset], bytes[offset + 1], 0), 2))
    ensures bytes[offset] >= 0x80 && offset + 1 < |bytes| && bytes[offset + 1] >= 0x80 ==>
              ReadLength(bytes, offset)
              == if offset + 2 == |bytes| || !(0 < bytes[offset + 2] <= 3) then None
                 else Some((Joined(bytes[offset], bytes[offset + 1], bytes[offset + 2]), 3))
  {
    var b0: int := bytes[offset];
    if b0 >= 0x80 {
      assert ReadLengthFrom(bytes, offset, 0, 0) == ReadLengthFrom(bytes, offset + 1, 1, b0 % 0x80);
      if offset + 1 < |bytes| && bytes[offset + 1] >= 0x80 {
        var b1: int := bytes[offset + 1];
        assert ReadLengthFrom(bytes, offset + 1, 1, b0 % 0x80) == ReadLengthFrom(bytes, offset + 2, 2, b0 % 0x80 + b1 % 0x80 * 0x80);
      }
    }
  }

  lemma TwoBytes(b0: Byte, b1: Byte)
    requires b0 >= 0x80 && 0 < b1 < 0x80
    ensures EncodeLength(Joined(b0, b1, 0)) == [b0, b1]
  {
    var n := Joined(b0, b1, 0);
    assert n / 0x80 == b1 && n % 0x80 == b0 % 0x80;
  }

  lemma ThreeBytes(b0: Byte, b1: Byte, b2: Byte)
    requires b0 >= 0x80 && b1 >= 0x80 && 0 < b2 <= 3
    ensures EncodeLength(Joined(b0, b1, b2)) == [b0, b1, b2]
  {
    var n := Joined(b0, b1, b2);
    assert n / 0x80 == b1 % 0x80 + b2 * 0x80 && n / 0x4000 == b2;
    assert n % 0x80 == b0 % 0x80 && n / 0x80 % 0x80 == b1 % 0x80;
  }

  /** Every accepted length field is the canonical encoding of the value it yields. */
  lemma ReadIsCanonical(bytes: Bytes, offset: nat)
    requires offset <= |bytes| && ReadLength(bytes, offset).Some?
    ensures var (n, used) := ReadLength(bytes, offset).value;
            bytes[offset..offset + used] == EncodeLength(n)
  {
    Reading(bytes, offset);
    hide ReadLength, EncodeLength;
    var b0 := bytes[offset];
    if b0 < 0x80 {
      OneByteLength(b0);
    } else if bytes[offset + 1] < 0x80 {
      TwoBytes(b0, bytes[offset + 1]);
    } else {
      ThreeBytes(b0, bytes[offset + 1], bytes[offset + 2]);
    }
  }

  lemma OneByteLength(b: Byte)
    requires b < 0x80
    ensures EncodeLength(b) == [b]
  {
  }

  /** Acceptance is exactly "the field starts with the canonical encoding of n". */
  lemma LengthFieldExact(bytes: Bytes, offset: nat, n: int)
    requires offset <= |bytes| && 0 <= n < 0x1_0000
    ensures ReadLength(bytes, offset) == Some((n, |EncodeLength(n)|)) <==> EncodeLength(n) <= bytes[offset..]
    ensures ReadLength(bytes, offset).Some? && ReadLength(bytes, offset).value.0 == n ==> EncodeLength(n) <= bytes[offset..]
  {
    if EncodeLength(n) <= bytes[offset..] {
      ReadEncoded(bytes, offset, n);
    }
    if ReadLength(bytes, offset).Some? {
      ReadIsCanonical(bytes, offset);
    }
  }

  /** The cursor of ReadLength and its kin as an object; None where the code throws. */
  class Reader {
    const bytes: Bytes
    var offset: nat

    ghost predicate Valid()
      reads this
    {
      offset <= |bytes|
    }

    constructor (bytes: Bytes)
      ensures this.bytes == bytes && offset == 0 && Valid()
    {
      this.bytes := bytes;
      offset := 0;
    }

    method Take(length: nat) returns (r: Option<Bytes>)
      requires Valid()
      modifies this
      ensures Valid()
      ensures r.Some? <==> old(offset) + length <= |bytes|
      ensures r.Some? ==> r.value == bytes[old(offset)..old(offset) + length] && offset == old(offset) + length
      ensures r.None? ==> offset == old(offset)
    {
      if offset + length > |bytes| {
        return None;
      }
      r := Some(bytes[offset..offset + length]);
      offset := offset + length;
    }

    method TakeByte() returns (r: Option<Byte>)
      requires Valid()
      modifies this
      ensures Valid()
      ensures r.Some? <==> old(offset) < |bytes|
      ensures r.Some? ==> r.value == bytes[old(offset)] && offset == old(offset) + 1
    {
      var one := Take(1);
      r := if one.Some? then Some(one.value[0]) else None;
    }

    method Length() returns (r: Option<int>)
      requires Valid()
      modifies this
      ensures Valid()
      ensures r.Some? <==> ReadLength(bytes, old(offset)).Some?
      ensures r.Some? ==> ReadLength(bytes, old(offset)) == Some((r.value, offset - old(offset)))
    {
      var value, byteIndex := 0, 0;
      ghost var start := offset;
      while byteIndex < 3
        invariant 0 <= byteIndex <= 3 && start <= offset <= |bytes| && offset == start + byteIndex
        invariant 0 <= value < Shift(byteIndex)
        invariant ReadLength(bytes, start) == ReadLengthFrom(bytes, offset, byteIndex, value)
      {
        var byte := TakeByte();
        if byte.None? || (byteIndex == 2 && byte.value > 3) {
          return None;
        }
        value := value + byte.value % 0x80 * Shift(byteIndex);
        if byte.value < 0x80 {
          return if byteIndex > 0 && byte.value == 0 then None else Some(value);
        }
        byteIndex := byteIndex + 1;
      }
      return None;
    }

    method Finish() returns (ok: bool)
      ensures ok <==> offset == |bytes|
    {
      ok := offset == |bytes|;
    }
  }
}
