/** Base58 text of keys and signatures: the server and the browser loop against one meaning. */
module Base58 {
  import opened Basics

  /** n consecutive characters from c on. */
  function Consecutive(c: char, n: nat): (r: string)
    requires c as int + n <= 128
    ensures |r| == n && forall i :: 0 <= i < n ==> r[i] == (c as int + i) as char
  {
    if n == 0 then "" else Consecutive(c, n - 1) + [(c as int + n - 1) as char]
  }

  /** No zero, no capital I or O, no small l. */
  const ALPHABET: string :=
    Consecutive('1', 9) + Consecutive('A', 8) + Consecutive('J', 5) + Consecutive('P', 11) + Consecutive('a', 11) + Consecutive('m', 14)

  lemma Figures()
    ensures Consecutive('1', 9) == "123456789"
  {
  }

  lemma CapitalsToH()
    ensures Consecutive('A', 8) == "ABCDEFGH"
  {
  }

  lemma CapitalsToN()
    ensures Consecutive('J', 5) == "JKLMN"
  {
  }

  lemma CapitalsToZ()
    ensures Consecutive('P', 11) == "PQRSTUVWXYZ"
  {
  }

  lemma SmallToK()
    ensures Consecutive('a', 11) == "abcdefghijk"
  {
  }

  lemma SmallToZ()
    ensures Consecutive('m', 14) == "mnopqrstuvwxyz"
  {
  }

  /** The pinned alphabet, spelled out. */
  lemma AlphabetSpelled()
    ensures ALPHABET == "123456789" + "ABCDEFGH" + "JKLMN" + "PQRSTUVWXYZ" + "abcdefghijk" + "mnopqrstuvwxyz"
  {
    hide Consecutive;
    Figures();
    CapitalsToH();
    CapitalsToN();
    CapitalsToZ();
    SmallToK();
    SmallToZ();
  }

  /** The character code of a digit: strictly increasing. */
  function CharCode(d: Digit): int {
    if d < 9 then 49 + d else if d < 17 then 56 + d else if d < 22 then 57 + d else if d < 33 then 58 + d
    else if d < 44 then 64 + d else 65 + d
  }

  lemma AlphabetAt(d: Digit)
    ensures |ALPHABET| == 58 && ALPHABET[d] as int == CharCode(d)
  {
  }

  /** The big-endian number the bytes spell. */
  function Value(b: seq<Byte>): nat {
    if b == [] then 0
    else
      var last: int := b[|b| - 1];
      Value(b[..|b| - 1]) * 256 + last
  }

  function LeadingZeros(b: seq<Byte>): nat
    ensures LeadingZeros(b) <= |b|
  {
    if b == [] || b[0] != 0 then 0 else 1 + LeadingZeros(b[1..])
  }

  type Digit = d: int | 0 <= d < 58

  /** Base-58 digits, most significant first, none for zero. */
  function Digits(n: nat): (r: seq<Digit>)
    ensures n > 0 ==> |r| > 0 && r[0] != 0
  {
    if n == 0 then [] else Digits(n / 58) + [n % 58]
  }

  function Text(d: seq<Digit>): (r: string)
    ensures |r| == |d| && forall i :: 0 <= i < |d| ==> r[i] == ALPHABET[d[i]]
  {
    if d == [] then "" else [ALPHABET[d[0]]] + Text(d[1..])
  }

  function Ones(n: nat): (r: string)
    ensures |r| == n && forall i :: 0 <= i < n ==> r[i] == '1'
  {
    if n == 0 then "" else "1" + Ones(n - 1)
  }

  function Encode(b: seq<Byte>): string {
    Ones(LeadingZeros(b)) + Text(Digits(Value(b)))
  }

  // ---------------------------------------------------------------------- the loops

  lemma TextCons(d: Digit, rest: seq<Digit>)
    ensures Text([d] + rest) == [ALPHABET[d]] + Text(rest)
  {
    assert ([d] + rest)[1..] == rest;
  }

  /** Digits of n, with digits already produced after them. */
  lemma DigitsStep(n: nat, done: seq<Digit>)
    requires n > 0
    ensures Digits(n) + done == Digits(n / 58) + ([n % 58] + done)
  {
  }

  method TextOf(n: nat) returns (encoded: string)
    ensures encoded == Text(Digits(n))
  {
    hide Digits, Text, ALPHABET;
    AlphabetAt(0);
    var value := n;
    encoded := "";
    ghost var done: seq<Digit> := [];
    NoDigits(n);
    while value > 0
      invariant Digits(n) == Digits(value) + done && encoded == Text(done)
    {
      var d: Digit := value % 58;
      DigitsStep(value, done);
      TextCons(d, done);
      encoded := [ALPHABET[d]] + encoded;
      done := [d] + done;
      value := value / 58;
    }
    NoDigits(0);
  }

  lemma NoDigits(n: nat)
    ensures Digits(0) == [] && Text([]) == "" && Digits(n) + [] == Digits(n)
  {
  }

  /** The loop of src/lib/execution/crypto.ts:88-99, repeated in the chain reader and in the one-shot runner. */
  method ServerEncode(bytes: seq<Byte>) returns (text: string)
    ensures text == Encode(bytes)
  {
    hide Digits, Text, Value, Ones, ALPHABET;
    var encoded := TextOf(Value(bytes));
    var zeroes := 0;
    while zeroes < |bytes| && bytes[zeroes] == 0
      invariant 0 <= zeroes <= |bytes| && LeadingZeros(bytes) == zeroes + LeadingZeros(bytes[zeroes..])
    {
      assert bytes[zeroes..][1..] == bytes[zeroes + 1..];
      zeroes := zeroes + 1;
    }
    text := Ones(zeroes) + encoded;
  }

  lemma OnesSnoc(n: nat, s: string)
    ensures "1" + (Ones(n) + s) == Ones(n + 1) + s
  {
  }

  /** The loop of src/lib/onboarding/wallet.ts:33-39, which builds the number before its digits. */
  method BrowserEncode(bytes: seq<Byte>) returns (result: string)
    ensures result == Encode(bytes)
  {
    var number := 0;
    for i := 0 to |bytes|
      invariant number == Value(bytes[..i])
    {
      assert bytes[..i + 1][..i] == bytes[..i];
      var byte: int := bytes[i];
      number := number * 256 + byte;
    }
    assert bytes[..|bytes|] == bytes;
    result := TextOf(number);
    ghost var digits := result;
    assert Ones(0) + digits == digits;
    var i := 0;
    while i < |bytes| && bytes[i] == 0
      invariant 0 <= i <= |bytes| && LeadingZeros(bytes) == i + LeadingZeros(bytes[i..])
      invariant result == Ones(i) + digits
    {
      assert bytes[i..][1..] == bytes[i + 1..];
      OnesSnoc(i, digits);
      result := "1" + result;
      i := i + 1;
    }
  }

  // --------------------------------------------------------------------- decoding

  function FromDigits(d: seq<Digit>): nat {
    if d == [] then 0 else FromDigits(d[..|d| - 1]) * 58 + d[|d| - 1]
  }

  /** The shortest bytes spelling a number, none for zero. */
  function Minimal(n: nat): seq<Byte> {
    if n == 0 then [] else Minimal(n / 256) + [n % 256]
  }

  function Zeros(n: nat): (r: seq<Byte>)
    ensures |r| == n && forall i :: 0 <= i < n ==> r[i] == 0
  {
    if n == 0 then [] else [0] + Zeros(n - 1)
  }

  function Position(c: char, from: nat): (r: Option<Digit>)
    requires from <= 58
    ensures r.Some? ==> ALPHABET[r.value] == c
    ensures r.None? ==> forall i :: from <= i < 58 ==> ALPHABET[i] != c
    decreases 58 - from
  {
    if from == 58 then None else if ALPHABET[from] == c then Some(from) else Position(c, from + 1)
  }

  function Read(s: string): Option<seq<Digit>> {
    if s == "" then Some([])
    else
      var first, rest := Position(s[0], 0), Read(s[1..]);
      if first.None? || rest.None? then None else Some([first.value] + rest.value)
  }

  function LeadingOnes(s: string): nat
    ensures LeadingOnes(s) <= |s|
  {
    if s == "" || s[0] != '1' then 0 else 1 + LeadingOnes(s[1..])
  }

  function Decode(s: string): Option<seq<Byte>> {
    var z := LeadingOnes(s);
    var d := Read(s[z..]);
    if d.None? then None else Some(Zeros(z) + Minimal(FromDigits(d.value)))
  }

  /** No character stands for two digits. */
  lemma AlphabetDistinct(d: Digit, e: Digit)
    requires ALPHABET[d] == ALPHABET[e]
    ensures d == e
  {
    AlphabetAt(d);
    AlphabetAt(e);
  }

  lemma PositionOf(d: Digit)
    ensures Position(ALPHABET[d], 0) == Some(d)
  {
    AlphabetAt(d);
    AlphabetDistinct(Position(ALPHABET[d], 0).value, d);
  }

  lemma {:induction false} ReadText(d: seq<Digit>)
    ensures Read(Text(d)) == Some(d)
  {
    if d != [] {
      ReadText(d[1..]);
      PositionOf(d[0]);
      assert Text(d)[1..] == Text(d[1..]);
      assert d == [d[0]] + d[1..];
    }
  }

  lemma {:induction false} DigitsBack(n: nat)
    ensures FromDigits(Digits(n)) == n
  {
    if n > 0 {
      DigitsBack(n / 58);
      assert Digits(n)[..|Digits(n)| - 1] == Digits(n / 58);
    }
  }

  lemma {:induction false} OnesLead(n: nat, s: string)
    requires s == "" || s[0] != '1'
    ensures LeadingOnes(Ones(n) + s) == n
  {
    if n > 0 {
      OnesLead(n - 1, s);
      assert (Ones(n) + s)[1..] == Ones(n - 1) + s;
    } else {
      assert Ones(0) + s == s;
    }
  }

  /** Dropping the leading zeroes does not change the number, and nothing shorter spells it. */
  lemma {:induction false} MinimalOf(b: seq<Byte>)
    requires b == [] || b[0] != 0
    ensures Minimal(Value(b)) == b
    ensures b != [] ==> Value(b) > 0
  {
    if b != [] {
      var n := |b| - 1;
      var t := b[..n];
      var last: int := b[n];
      MinimalOf(t);
      assert Value(b) == Value(t) * 256 + last;
      assert Value(b) / 256 == Value(t) && Value(b) % 256 == last;
      if t == [] {
        assert b == [b[0]];
        assert Value(t) == 0;
      }
      assert b == t + [b[n]];
    }
  }

  lemma {:induction false} ZeroPrefix(b: seq<Byte>)
    ensures var z := LeadingZeros(b);
            b == Zeros(z) + b[z..] && (z < |b| ==> b[z] != 0)
  {
    if b != [] && b[0] == 0 {
      ZeroPrefix(b[1..]);
      var z := LeadingZeros(b);
      assert b[1..][z - 1..] == b[z..];
      assert b == [b[0]] + b[1..];
    }
  }

  lemma {:induction false} ValueSkips(z: nat, b: seq<Byte>)
    ensures Value(Zeros(z) + b) == Value(b)
  {
    if b == [] {
      if z > 0 {
        ValueSkips(z - 1, []);
        assert (Zeros(z) + [])[..z - 1] == Zeros(z - 1) + [];
      }
    } else {
      var n := |b| - 1;
      ValueSkips(z, b[..n]);
      assert (Zeros(z) + b)[..z + n] == Zeros(z) + b[..n];
    }
  }

  lemma TextLeads(n: nat)
    ensures Text(Digits(n)) == "" || Text(Digits(n))[0] != '1'
  {
    if n > 0 {
      AlphabetAt(Digits(n)[0]);
    }
  }

  /** Decoding inverts encoding on every byte string, leading zeroes included. */
  lemma DecodeEncode(b: seq<Byte>)
    ensures Decode(Encode(b)) == Some(b)
  {
    hide Minimal, FromDigits, Value, Digits, Text, LeadingOnes, Read, Ones, Zeros, LeadingZeros, ALPHABET;
    var z, d := LeadingZeros(b), Digits(Value(b));
    ZeroPrefix(b);
    ValueSkips(z, b[z..]);
    MinimalOf(b[z..]);
    TextLeads(Value(b));
    OnesLead(z, Text(d));
    assert Encode(b)[z..] == Text(d);
    ReadText(d);
    DigitsBack(Value(b));
  }

  /** So different bytes never share a text. */
  lemma EncodeInjective(a: seq<Byte>, b: seq<Byte>)
    requires Encode(a) == Encode(b)
    ensures a == b
  {
    DecodeEncode(a);
    DecodeEncode(b);
  }

  // ----------------------------------------------------------------------- lengths

  function Pow(base: nat, n: nat): (r: nat)
    requires base > 0
    ensures r > 0
  {
    if n == 0 then 1 else base * Pow(base, n - 1)
  }

  lemma {:induction false} DigitCount(n: nat, k: nat)
    ensures |Digits(n)| <= k <==> n < Pow(58, k)
    decreases k
  {
    if n > 0 && k > 0 {
      DigitCount(n / 58, k - 1);
      var p := Pow(58, k - 1);
      assert n < 58 * p <==> n / 58 < p;
    }
  }

  lemma {:induction false} ValueBound(b: seq<Byte>)
    ensures Value(b) < Pow(256, |b|)
  {
    if b != [] {
      var t := b[..|b| - 1];
      ValueBound(t);
    }
  }

  lemma {:induction false} ValueAtLeast(b: seq<Byte>)
    requires b != [] && b[0] != 0
    ensures Pow(256, |b| - 1) <= Value(b)
  {
    if |b| > 1 {
      ValueAtLeast(b[..|b| - 1]);
    } else {
      assert b[..0] == [];
    }
  }

  lemma {:induction false} PowMonotone(n: nat)
    ensures Pow(58, n) <= Pow(256, n)
  {
    if n > 0 { PowMonotone(n - 1); }
  }

  /** Eight bytes fit in eleven digits. */
  lemma {:induction false} EightInEleven(k: nat)
    ensures Pow(256, 8 * k) <= Pow(58, 11 * k)
  {
    if k > 0 {
      EightInEleven(k - 1);
      PowSplit(256, 8 * (k - 1), 8);
      PowSplit(58, 11 * (k - 1), 11);
      PowEight();
      var a, b := Pow(256, 8 * (k - 1)), Pow(58, 11 * (k - 1));
      assert a * Pow(256, 8) <= b * Pow(58, 11) by { Product(a, b, Pow(256, 8), Pow(58, 11)); }
    }
  }

  lemma Product(a: nat, b: nat, x: nat, y: nat)
    requires a <= b && x <= y
    ensures a * x <= b * y
  {
    assert a * x <= b * x;
    assert b * x <= b * y;
  }

  lemma PowEight()
    ensures Pow(256, 8) <= Pow(58, 11)
  {
    assert Pow(256, 4) == 0x1_0000_0000;
    assert Pow(256, 8) == 0x1_0000_0000_0000_0000 by { PowSplit(256, 4, 4); }
    assert Pow(58, 3) == 195_112 && Pow(58, 4) == 11_316_496;
    assert Pow(58, 8) == 11_316_496 * 11_316_496 by { PowSplit(58, 4, 4); }
    assert Pow(58, 11) == 11_316_496 * 11_316_496 * 195_112 by { PowSplit(58, 8, 3); }
  }

  lemma {:induction false} PowSplit(base: nat, m: nat, n: nat)
    requires base > 0
    ensures Pow(base, m + n) == Pow(base, m) * Pow(base, n)
  {
    if m > 0 {
      PowSplit(base, m - 1, n);
      assert base * (Pow(base, m - 1) * Pow(base, n)) == base * Pow(base, m - 1) * Pow(base, n);
    }
  }

  /** Each byte fewer needs at least one digit fewer. */
  lemma {:induction false} Slack(n: nat, extra: nat, less: nat)
    requires less <= n && Pow(256, n) <= Pow(58, n + extra)
    ensures Pow(256, n - less) <= Pow(58, n - less + extra)
    decreases less
  {
    if less > 0 {
      var a, b := Pow(256, n - 1), Pow(58, n - 1 + extra);
      assert 256 * a <= 58 * b;
      assert a <= b;
      Slack(n - 1, extra, less - 1);
    }
  }

  /** 8k bytes take between 8k and 11k characters. */
  lemma EncodedLength(b: seq<Byte>, k: nat)
    requires |b| == 8 * k
    ensures 8 * k <= |Encode(b)| <= 11 * k
  {
    hide Minimal, Value, Digits, Text, Ones, Zeros, LeadingZeros, ALPHABET, Pow;
    var z := LeadingZeros(b);
    ZeroPrefix(b);
    ValueSkips(z, b[z..]);
    var t := b[z..];
    ValueBound(t);
    EightInEleven(k);
    Slack(8 * k, 3 * k, z);
    DigitCount(Value(t), 11 * k - z);
    if t != [] {
      ValueAtLeast(t);
      PowMonotone(|t| - 1);
      DigitCount(Value(t), |t| - 1);
    }
  }

  /** n bytes of 255. */
  function Full(n: nat): (r: seq<Byte>)
    ensures |r| == n && forall i :: 0 <= i < n ==> r[i] == 255
  {
    if n == 0 then [] else Full(n - 1) + [255]
  }

  lemma {:induction false} FullValue(n: nat)
    ensures Value(Full(n)) == Pow(256, n) - 1
  {
    if n > 0 {
      FullValue(n - 1);
      assert Full(n)[..n - 1] == Full(n - 1);
    }
  }

  lemma PowersOf58()
    ensures Pow(58, 43) == 6720533081161609950612561534326096425053356165724989121353049538245544640512
    ensures Pow(58, 87) == 2619602763909278630779532367663996861213512034071751089292652054066123722756822771170053592243575790708285943170538951352655233609300917168977704074084352
  {
    assert Pow(58, 3) == 195_112 && Pow(58, 4) == 11_316_496;
    assert Pow(58, 8) == 128063081718016 by { PowSplit(58, 4, 4); }
    assert Pow(58, 11) == 24986644000165537792 by { PowSplit(58, 8, 3); }
    assert Pow(58, 10) * 58 == Pow(58, 11);
    assert Pow(58, 21) == 10764351351569111513009094806216900608 by { PowSplit(58, 10, 11); }
    assert Pow(58, 22) == 624332378391008467754527498760580235264 by { PowSplit(58, 11, 11); }
    assert Pow(58, 43) == 6720533081161609950612561534326096425053356165724989121353049538245544640512 by { PowSplit(58, 21, 22); }
    assert Pow(58, 44) == 389790918707373377135528568990913592653094657612049369038476873218241589149696 by { PowSplit(58, 22, 22); }
    assert Pow(58, 87) == 2619602763909278630779532367663996861213512034071751089292652054066123722756822771170053592243575790708285943170538951352655233609300917168977704074084352 by { PowSplit(58, 43, 44); }
  }

  lemma PowersOf256()
    ensures Pow(256, 32) == 115792089237316195423570985008687907853269984665640564039457584007913129639936
    ensures Pow(256, 64) == 13407807929942597099574024998205846127479365820592393377723561443721764030073546976801874298166903427690031858186486050853753882811946569946433649006084096
  {
    assert Pow(256, 4) == 0x1_0000_0000;
    assert Pow(256, 8) == 18446744073709551616 by { PowSplit(256, 4, 4); }
    assert Pow(256, 16) == 340282366920938463463374607431768211456 by { PowSplit(256, 8, 8); }
    assert Pow(256, 32) == 115792089237316195423570985008687907853269984665640564039457584007913129639936 by { PowSplit(256, 16, 16); }
    assert Pow(256, 64) == 13407807929942597099574024998205846127479365820592393377723561443721764030073546976801874298166903427690031858186486050853753882811946569946433649006084096 by { PowSplit(256, 32, 32); }
  }

  lemma FullText(n: nat, k: nat)
    requires n > 0 && k > 0 && Pow(58, k - 1) < Pow(256, n)
    ensures |Encode(Full(n))| >= k
  {
    hide Value, Digits, Text, Ones, ALPHABET, Pow;
    FullValue(n);
    DigitCount(Value(Full(n)), k - 1);
    assert Full(n)[0] == 255;
  }

  /** The upper column bounds are reached too. */
  lemma LongestTexts()
    ensures |Encode(Full(32))| == 44 && |Encode(Full(64))| == 88
  {
    hide Encode, Pow, Full;
    PowersOf58();
    PowersOf256();
    FullText(32, 44);
    FullText(64, 88);
    EncodedLength(Full(32), 4);
    EncodedLength(Full(64), 8);
  }

  /** The column bounds of src/db/schema.ts:158-160 hold and each is reached. */
  lemma KeyAndSignatureLengths(key: seq<Byte>, signature: seq<Byte>)
    requires |key| == 32 && |signature| == 64
    ensures 32 <= |Encode(key)| <= 44 && 64 <= |Encode(signature)| <= 88
    ensures |Encode(Zeros(32))| == 32 && |Encode(Zeros(64))| == 64
    ensures |Encode(Full(32))| == 44 && |Encode(Full(64))| == 88
  {
    LongestTexts();
    EncodedLength(key, 4);
    EncodedLength(signature, 8);
    ZeroText(32);
    ZeroText(64);
  }

  lemma {:induction false} ZeroText(n: nat)
    ensures |Encode(Zeros(n))| == n
  {
    ValueSkips(n, []);
    assert Zeros(n) + [] == Zeros(n);
    AllZeros(n);
  }

  lemma {:induction false} AllZeros(n: nat)
    ensures LeadingZeros(Zeros(n)) == n
  {
    if n > 0 {
      AllZeros(n - 1);
      assert Zeros(n)[1..] == Zeros(n - 1);
    }
  }
}
