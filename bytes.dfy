/** Little- and big-endian integer fields and ASCII text inside a byte sequence.
    These are the values that the stream's read operations return. */
module Bytes {

  type u8 = x: int | 0 <= x < 0x100

  /** Unsigned 16-bit little-endian field at p. */
  function U16LE(s: seq<u8>, p: nat): (r: nat)
    requires p + 2 <= |s|
    ensures r < 0x1_0000
    ensures r % 0x100 == s[p] && r / 0x100 == s[p + 1]
  {
    s[p] as int + s[p + 1] as int * 0x100
  }

  /** Signed (two's complement) 16-bit little-endian field at p. */
  function S16LE(s: seq<u8>, p: nat): (r: int)
    requires p + 2 <= |s|
    ensures -0x8000 <= r < 0x8000
    ensures (r + 0x1_0000) % 0x1_0000 == U16LE(s, p)
  {
    var u := U16LE(s, p);
    if u < 0x8000 then u else u - 0x1_0000
  }

  /** Unsigned 24-bit little-endian field at p (three bytes, low byte first). */
  function U24LE(s: seq<u8>, p: nat): (r: nat)
    requires p + 3 <= |s|
    ensures r < 0x100_0000
    ensures r % 0x1_0000 == U16LE(s, p) && r / 0x1_0000 == s[p + 2]
  {
    s[p] as int + s[p + 1] as int * 0x100 + s[p + 2] as int * 0x1_0000
  }

  /** Unsigned 32-bit little-endian field at p. */
  function U32LE(s: seq<u8>, p: nat): (r: nat)
    requires p + 4 <= |s|
    ensures r < 0x1_0000_0000
    ensures r % 0x1_0000 == U16LE(s, p) && r / 0x1_0000 == U16LE(s, p + 2)
  {
    U16LE(s, p) + U16LE(s, p + 2) * 0x1_0000
  }

  /** Four-character tag as built by MKTAG: the first character is the most significant byte. */
  function MkTag(a: u8, b: u8, c: u8, d: u8): (r: nat)
    ensures r < 0x1_0000_0000
  {
    a as int * 0x100_0000 + b as int * 0x1_0000 + c as int * 0x100 + d as int
  }

  /** Unsigned 32-bit big-endian field at p. */
  function U32BE(s: seq<u8>, p: nat): (r: nat)
    requires p + 4 <= |s|
    ensures r < 0x1_0000_0000
  {
    MkTag(s[p], s[p + 1], s[p + 2], s[p + 3])
  }

  /** MKTAG is injective: a 32-bit big-endian field equals a tag exactly when its four bytes
      are the tag's four characters, in order. */
  lemma TagBytes(s: seq<u8>, p: nat, a: u8, b: u8, c: u8, d: u8)
    requires p + 4 <= |s|
    ensures U32BE(s, p) == MkTag(a, b, c, d) <==> s[p..p + 4] == [a, b, c, d]
  {
    if U32BE(s, p) == MkTag(a, b, c, d) {
      var x0, x1, x2, x3 := s[p] as nat, s[p + 1] as nat, s[p + 2] as nat, s[p + 3] as nat;
      var y0, y1, y2, y3 := a as nat, b as nat, c as nat, d as nat;
      assert (x0 * 0x100_0000 + (x1 * 0x1_0000 + x2 * 0x100 + x3)) / 0x100_0000 == x0;
      assert (y0 * 0x100_0000 + (y1 * 0x1_0000 + y2 * 0x100 + y3)) / 0x100_0000 == y0;
      assert (x1 * 0x1_0000 + (x2 * 0x100 + x3)) / 0x1_0000 == x1;
      assert (y1 * 0x1_0000 + (y2 * 0x100 + y3)) / 0x1_0000 == y1;
      assert (x2 * 0x100 + x3) / 0x100 == x2;
      assert (y2 * 0x100 + y3) / 0x100 == y2;
    }
  }

  /** A field read from a window of the buffer is the field at the window's start plus its
      offset in the window. */
  lemma U32LEWindow(s: seq<u8>, b: nat, e: nat, k: nat)
    requires b <= e <= |s| && k + 4 <= e - b
    ensures U32LE(s[b..e], k) == U32LE(s, b + k)
  {
    var w := s[b..e];
    assert w[k] == s[b + k] && w[k + 1] == s[b + k + 1] && w[k + 2] == s[b + k + 2] && w[k + 3] == s[b + k + 3];
  }

  /** Signed 8-bit value of a byte. */
  function S8(b: u8): (r: int)
    ensures -0x80 <= r < 0x80
    ensures (r + 0x100) % 0x100 == b
  {
    if b < 0x80 then b as int else b as int - 0x100
  }

  /** The ASCII text that a byte run holds: the characters before the first NUL byte,
      or all of them when there is none. Used both for fixed-width name fields and for
      NUL-terminated strings. */
  function TextBeforeNul(bytes: seq<u8>): (t: string)
    ensures |t| <= |bytes|
    ensures forall i :: 0 <= i < |t| ==> t[i] as int == bytes[i] && bytes[i] != 0
    ensures |t| < |bytes| ==> bytes[|t|] == 0
  {
    if bytes == [] || bytes[0] == 0 then "" else [bytes[0] as char] + TextBeforeNul(bytes[1..])
  }
}
