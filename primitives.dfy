/**
 * Values shared by every part of the lottery client: bytes, 32-byte
 * addresses, optional and failing results, and the little-endian unsigned
 * 64-bit encoding that Node's Buffer uses for writeBigUInt64LE and
 * readBigUInt64LE.
 */
module Primitives {

  /** One byte, as stored in a Node Buffer. */
  type byte = x: int | 0 <= x < 256

  /** A public key: always 32 bytes once a PublicKey object exists. */
  type Address = s: seq<byte> | |s| == 32 witness seq(32, _ => 0)

  datatype Option<+T> = None | Some(value: T)

  datatype Result<+T> = Ok(value: T) | Err(message: string)

  /** 2^64: one past the largest value writeBigUInt64LE accepts. */
  const U64_LIMIT: int := 0x1_0000_0000_0000_0000

  predicate IsU64(n: int) {
    0 <= n < U64_LIMIT
  }

  function Pow256(k: nat): (p: nat)
    ensures p >= 1
  {
    if k == 0 then 1 else 256 * Pow256(k - 1)
  }

  /** The k low-order bytes of n, least significant first. */
  function ToLE(n: nat, k: nat): (s: seq<byte>)
    ensures |s| == k
  {
    if k == 0 then [] else [n % 256] + ToLE(n / 256, k - 1)
  }

  /** The unsigned number a little-endian byte string denotes. */
  function FromLE(s: seq<byte>): nat {
    if s == [] then 0 else s[0] + 256 * FromLE(s[1..])
  }

  lemma {:induction false} FromLEBound(s: seq<byte>)
    ensures FromLE(s) < Pow256(|s|)
  {
    if s != [] {
      FromLEBound(s[1..]);
    }
  }

  /** Reading back k bytes written from a value below 256^k gives the value. */
  lemma {:induction false} FromToLE(n: nat, k: nat)
    requires n < Pow256(k)
    ensures FromLE(ToLE(n, k)) == n
  {
    if k > 0 {
      FromToLE(n / 256, k - 1);
      assert ToLE(n, k)[1..] == ToLE(n / 256, k - 1);
    }
  }

  /** Writing back what was read reproduces the bytes. */
  lemma {:induction false} ToFromLE(s: seq<byte>)
    ensures ToLE(FromLE(s), |s|) == s
  {
    if s != [] {
      ToFromLE(s[1..]);
      assert (s[0] + 256 * FromLE(s[1..])) / 256 == FromLE(s[1..]);
    }
  }

  lemma {:induction false} Pow256Monotone(i: nat, j: nat)
    requires i <= j
    ensures Pow256(i) <= Pow256(j)
    decreases j
  {
    if i < j {
      Pow256Monotone(i, j - 1);
    }
  }

  /** At most eight bytes denote a u64. */
  lemma ShortFromLEIsU64(s: seq<byte>)
    requires |s| <= 8
    ensures IsU64(FromLE(s))
  {
    FromLEBound(s);
    Pow256Monotone(|s|, 8);
    Pow256Eight();
  }

  lemma Pow256Eight()
    ensures Pow256(8) == U64_LIMIT
  {
  }

  /**
   * Buffer.writeBigUInt64LE(BigInt(n)) into an 8-byte buffer: the eight
   * little-endian bytes of n, or the RangeError Node raises when n is not
   * an unsigned 64-bit value.
   */
  function U64LE(n: int): (r: Result<seq<byte>>)
    ensures r.Ok? <==> IsU64(n)
    ensures r.Ok? ==> |r.value| == 8 && FromLE(r.value) == n
  {
    if IsU64(n) then
      Pow256Eight();
      FromToLE(n, 8);
      Ok(ToLE(n, 8))
    else
      Err("RangeError: value out of range")
  }

  /** Two values have the same 8-byte encoding only if they are equal. */
  lemma U64LEInjective(a: int, b: int)
    requires U64LE(a).Ok? && U64LE(b).Ok?
    requires U64LE(a).value == U64LE(b).value
    ensures a == b
  {
  }

  /** Buffer.readUInt8(offset): throws unless offset addresses a byte. */
  function ReadU8(buf: seq<byte>, offset: nat): (r: Option<byte>)
    ensures r.Some? <==> offset < |buf|
    ensures r.Some? ==> r.value == buf[offset]
  {
    if offset < |buf| then Some(buf[offset]) else None
  }

  /** Buffer.readBigUInt64LE(offset): throws unless eight bytes remain. */
  function ReadU64LE(buf: seq<byte>, offset: nat): (r: Option<nat>)
    ensures r.Some? <==> offset + 8 <= |buf|
    ensures r.Some? ==> IsU64(r.value) && U64LE(r.value) == Ok(buf[offset..offset + 8])
  {
    if offset + 8 <= |buf| then
      var v := buf[offset..offset + 8];
      FromLEBound(v);
      Pow256Eight();
      ToFromLE(v);
      Some(FromLE(v))
    else
      None
  }

  function Min(a: int, b: int): int {
    if a <= b then a else b
  }

  /** Buffer.slice(from, to): clamps to the buffer and never throws. */
  function Slice(buf: seq<byte>, from: nat, to: nat): (r: seq<byte>)
    ensures to <= |buf| && from <= to ==> r == buf[from..to]
    ensures |r| <= (if to >= from then to - from else 0)
  {
    var hi := Min(to, |buf|);
    if from <= hi then buf[from..hi] else []
  }

  /**
   * new PublicKey(bytes) for at most 32 bytes: the key is the big-endian
   * number they denote, padded back to 32 bytes on the left.
   */
  function KeyFromBytes(b: seq<byte>): (a: Address)
    requires |b| <= 32
    ensures |b| == 32 ==> a == b
  {
    seq(32 - |b|, _ => 0) + b
  }

  /** Buffer.from(text) for text made of ASCII characters: one byte each. */
  function AsciiBytes(s: string): (r: seq<byte>)
    requires forall i :: 0 <= i < |s| ==> s[i] as int < 128
    ensures |r| == |s|
    ensures forall i :: 0 <= i < |s| ==> r[i] == s[i] as int
  {
    seq(|s|, i requires 0 <= i < |s| => s[i] as int)
  }
}
