/** The pinned registry policy, the naming program's addresses and the normal form of a name. */
module Registry {
  import opened Basics

  const DOMAIN_RENT: int := 1927920
  const PRIMARY_RENT: int := 1426800

  /** A wire transaction as the SDK decodes it: message bytes, account list, signature verdict. */
  datatype SignedTransaction = SignedTransaction(message: seq<Byte>, keys: seq<Key>, verified: bool)

  /** What src/lib/chain/policy.ts pins; derived addresses, curve membership and text order are opaque functions of the key. */
  datatype Policy = Policy(
    id: string, genesisHash: Key, programSha256: string, configSha256: string, feeReceiver: Key,
    program: Key, system: Key, compute: Key, config: Key,
    domainPda: string -> Key, primaryPda: Key -> Key, onCurve: Key -> bool,
    /** Position of a key's base58 text in the pinned collation order. */
    rank: Key -> int,
    /** The SDK's decoder and its Ed25519 check; None where it throws. */
    decode: seq<Byte> -> Option<SignedTransaction>)

  predicate LabelChar(c: char) {
    'a' <= c <= 'z' || '0' <= c <= '9' || c == '-'
  }

  /** The 4-32 character campaign tier, without edge hyphens. */
  predicate ValidLabel(name: string) {
    && 4 <= |name| <= 32
    && (forall i :: 0 <= i < |name| ==> LabelChar(name[i]))
    && name[0] != '-' && name[|name| - 1] != '-'
  }

  // ------------------------------------------------------------- normalization

  /** White space and line ends, as String.prototype.trim removes them. */
  predicate Space(c: char) {
    || '\t' <= c <= '\r' || c == ' ' || c == '\U{A0}' || c == '\U{1680}' || '\U{2000}' <= c <= '\U{200A}'
    || c == '\U{2028}' || c == '\U{2029}' || c == '\U{202F}' || c == '\U{205F}' || c == '\U{3000}' || c == '\U{FEFF}'
  }

  function TrimLeft(s: string): string {
    if s != "" && Space(s[0]) then TrimLeft(s[1..]) else s
  }

  function TrimRight(s: string): string {
    if s != "" && Space(s[|s| - 1]) then TrimRight(s[..|s| - 1]) else s
  }

  function Trim(s: string): string {
    TrimRight(TrimLeft(s))
  }

  /**
   * Lower case, as far as a name can tell: capital letters and the Kelvin sign become
   * letters of a label, every other character stays outside the label alphabet.
   */
  function Lower(c: char): char {
    if 'A' <= c <= 'Z' then (c as int + 32) as char else if c == '\U{212A}' then 'k' else c
  }

  function LowerCase(s: string): (r: string)
    ensures |r| == |s| && forall i :: 0 <= i < |s| ==> r[i] == Lower(s[i])
  {
    if s == "" then "" else [Lower(s[0])] + LowerCase(s[1..])
  }

  /** The bare label of what a user typed, with or without the suffix; None where the code throws. */
  function NormalizeName(raw: string): Option<string> {
    var s := LowerCase(Trim(raw));
    var bare := if |s| >= 5 && s[|s| - 5..] == ".cook" then s[..|s| - 5] else s;
    if ValidLabel(bare) then Some(bare) else None
  }

  /** The comparison `name === normalizeName(name)` holds exactly of the valid labels. */
  lemma NormalizedExactly(s: string)
    ensures NormalizeName(s) == Some(s) <==> ValidLabel(s)
  {
    if ValidLabel(s) {
      assert LabelChar(s[0]) && LabelChar(s[|s| - 1]);
      assert Trim(s) == s;
      assert LowerCase(s) == s by { assert forall i :: 0 <= i < |s| ==> LabelChar(s[i]); }
      assert |s| >= 5 ==> LabelChar(s[|s| - 5]);
      assert |s| >= 5 ==> s[|s| - 5..][0] == s[|s| - 5];
    }
  }

  /** Normalizing twice is normalizing once. */
  lemma NormalizeStable(raw: string)
    requires NormalizeName(raw).Some?
    ensures NormalizeName(NormalizeName(raw).value) == NormalizeName(raw)
  {
    NormalizedExactly(NormalizeName(raw).value);
  }
}
