/** Shared value types: options, results, bytes, keys and the digest wrapper. */
module Basics {
  datatype Option<+T> = None | Some(value: T)

  type Byte = b: int | 0 <= b < 256

  /** A 32-byte public key, program address or blockhash. */
  type Key = k: seq<Byte> | |k| == 32 witness seq(32, _ => 0)

  const U64_MAX: int := 0xFFFF_FFFF_FFFF_FFFF
  const MAX_SAFE_INTEGER: int := 0x1F_FFFF_FFFF_FFFF

  /** SHA-256 kept symbolic: two digests are equal exactly when their inputs are. */
  datatype Digest = Sha256(preimage: seq<Byte>)

  predicate SafeCounter(n: int) {
    0 <= n <= MAX_SAFE_INTEGER
  }

  predicate NativeAmount(n: int) {
    0 <= n <= U64_MAX
  }

  predicate Distinct<T(==)>(s: seq<T>) {
    forall i, j :: 0 <= i < j < |s| ==> s[i] != s[j]
  }

  function Max(a: int, b: int): int {
    if a < b then b else a
  }

  function Min(a: int, b: int): int {
    if a < b then a else b
  }
}
