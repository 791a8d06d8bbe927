/** Byte strings as `@polkadot/util` builds them: `Uint8Array` contents are
    sequences of integers in [0, 256). */
module Bytes {

  type Byte = b: int | 0 <= b < 256

  /** 256^width: the number of values a `width`-byte unsigned integer can hold. */
  function Pow256(width: nat): (r: nat)
    ensures r >= 1
  {
    if width == 0 then 1 else 256 * Pow256(width - 1)
  }

  /** `new Uint8Array(n)`: n zero bytes. */
  function Zeros(n: nat): (r: seq<Byte>)
    ensures |r| == n
    ensures forall i | 0 <= i < n :: r[i] == 0
  {
    seq(n, _ => 0)
  }

  /** `bnToU8a(n, 8 * width, true)`: the low `width` bytes of `n`, least
      significant byte first. */
  function LittleEndian(n: nat, width: nat): (r: seq<Byte>)
    ensures |r| == width
  {
    if width == 0 then [] else [n % 256] + LittleEndian(n / 256, width - 1)
  }

  /** `u8aToBigInt(b)` with its default little-endian, unsigned reading. */
  function FromLittleEndian(b: seq<Byte>): (r: nat)
    ensures r < Pow256(|b|)
  {
    if b == [] then 0 else b[0] + 256 * FromLittleEndian(b[1..])
  }

  /** Reading back a little-endian encoding gives the number, as long as it fits. */
  lemma {:induction false} LittleEndianRoundTrip(n: nat, width: nat)
    requires n < Pow256(width)
    ensures FromLittleEndian(LittleEndian(n, width)) == n
  {
    if width > 0 {
      var r := LittleEndian(n, width);
      assert r[1..] == LittleEndian(n / 256, width - 1);
      LittleEndianRoundTrip(n / 256, width - 1);
    }
  }

  /** Distinct numbers that fit in `width` bytes have distinct encodings. */
  lemma LittleEndianInjective(a: nat, b: nat, width: nat)
    requires a < Pow256(width) && b < Pow256(width)
    requires LittleEndian(a, width) == LittleEndian(b, width)
    ensures a == b
  {
    LittleEndianRoundTrip(a, width);
    LittleEndianRoundTrip(b, width);
  }

  /** `Uint8Array.prototype.reverse`. */
  function Reverse(s: seq<Byte>): (r: seq<Byte>)
    ensures |r| == |s|
    ensures forall i | 0 <= i < |s| :: r[i] == s[|s| - 1 - i]
  {
    if s == [] then [] else Reverse(s[1..]) + [s[0]]
  }

  predicate IsAscii(s: string) {
    forall i | 0 <= i < |s| :: s[i] as int < 128
  }

  /** `stringToU8a(s)` (UTF-8) for an ASCII string: one byte per character,
      equal to its code point. */
  function AsciiBytes(s: string): (r: seq<Byte>)
    requires IsAscii(s)
    ensures |r| == |s|
    ensures forall i | 0 <= i < |s| :: r[i] == s[i] as int
  {
    seq(|s|, i requires 0 <= i < |s| => s[i] as int)
  }
}
