/** Well-formed UTF-8 byte sequences, following the byte-sequence syntax of
    section 4 of RFC 3629, and the encoding of section 3 as a reference.
    A Go `string` is a sequence of bytes; this is what `utf8.ValidString` accepts. */
module Utf8 {

  newtype byte = x: int | 0 <= x < 256

  /** UTF8-tail = %x80-BF */
  predicate IsTail(b: byte) {
    0x80 <= b <= 0xBF
  }

  /** The number of bytes of the well-formed character that `s` starts with,
      or 0 when `s` is empty or does not start with a well-formed character. */
  function FirstCharLength(s: seq<byte>): (n: nat)
    ensures n <= |s| && n <= 4
    ensures n > 0 ==> (s[0] <= 0x7F <==> n == 1)
  {
    if |s| == 0 then 0
    // UTF8-1
    else if s[0] <= 0x7F then 1
    // UTF8-2
    else if 0xC2 <= s[0] <= 0xDF then
      if |s| >= 2 && IsTail(s[1]) then 2 else 0
    // UTF8-3
    else if s[0] == 0xE0 then
      if |s| >= 3 && 0xA0 <= s[1] <= 0xBF && IsTail(s[2]) then 3 else 0
    else if 0xE1 <= s[0] <= 0xEC || 0xEE <= s[0] <= 0xEF then
      if |s| >= 3 && IsTail(s[1]) && IsTail(s[2]) then 3 else 0
    else if s[0] == 0xED then
      if |s| >= 3 && 0x80 <= s[1] <= 0x9F && IsTail(s[2]) then 3 else 0
    // UTF8-4
    else if s[0] == 0xF0 then
      if |s| >= 4 && 0x90 <= s[1] <= 0xBF && IsTail(s[2]) && IsTail(s[3]) then 4 else 0
    else if 0xF1 <= s[0] <= 0xF3 then
      if |s| >= 4 && IsTail(s[1]) && IsTail(s[2]) && IsTail(s[3]) then 4 else 0
    else if s[0] == 0xF4 then
      if |s| >= 4 && 0x80 <= s[1] <= 0x8F && IsTail(s[2]) && IsTail(s[3]) then 4 else 0
    else 0
  }

  /** UTF8-octets = *( UTF8-char ) */
  predicate ValidUtf8(s: seq<byte>)
    ensures ValidUtf8(s) && |s| > 0 ==> !IsTail(s[0])
    ensures (forall i :: 0 <= i < |s| ==> s[i] <= 0x7F) ==> ValidUtf8(s)
    decreases |s|
  {
    |s| == 0 || (FirstCharLength(s) > 0 && ValidUtf8(s[FirstCharLength(s)..]))
  }

  /** Whether the first character is well-formed depends only on its own bytes. */
  lemma FirstCharLengthPrefix(s: seq<byte>, t: seq<byte>)
    requires FirstCharLength(s) > 0
    ensures FirstCharLength(s + t) == FirstCharLength(s)
  {
    var n := FirstCharLength(s);
    assert forall i :: 0 <= i < n ==> (s + t)[i] == s[i];
  }

  /** Two well-formed byte sequences concatenate to a well-formed one. */
  lemma {:induction false} ConcatValid(a: seq<byte>, b: seq<byte>)
    requires ValidUtf8(a) && ValidUtf8(b)
    ensures ValidUtf8(a + b)
    decreases |a|
  {
    if |a| == 0 {
      assert a + b == b;
    } else {
      var n := FirstCharLength(a);
      FirstCharLengthPrefix(a, b);
      assert (a + b)[n..] == a[n..] + b;
      ConcatValid(a[n..], b);
    }
  }

  /** A Unicode scalar value: a code point that is not a surrogate. */
  predicate IsScalarValue(cp: int) {
    0 <= cp <= 0x10FFFF && !(0xD800 <= cp <= 0xDFFF)
  }

  /** The UTF-8 encoding of one scalar value (section 3 of RFC 3629). */
  function EncodeScalar(cp: int): (r: seq<byte>)
    requires IsScalarValue(cp)
    ensures 1 <= |r| <= 4
    ensures FirstCharLength(r) == |r|
  {
    if cp < 0x80 then
      [cp as byte]
    else if cp < 0x800 then
      [(0xC0 + cp / 64) as byte, (0x80 + cp % 64) as byte]
    else if cp < 0x10000 then
      [(0xE0 + cp / 4096) as byte, (0x80 + cp / 64 % 64) as byte, (0x80 + cp % 64) as byte]
    else
      [(0xF0 + cp / 262144) as byte, (0x80 + cp / 4096 % 64) as byte,
       (0x80 + cp / 64 % 64) as byte, (0x80 + cp % 64) as byte]
  }

  /** The UTF-8 encoding of a text, character by character. */
  function Encode(text: seq<int>): (r: seq<byte>)
    requires forall i :: 0 <= i < |text| ==> IsScalarValue(text[i])
    ensures |text| <= |r| <= 4 * |text|
  {
    if text == [] then [] else EncodeScalar(text[0]) + Encode(text[1..])
  }

  /** Every encoded text is well-formed. */
  lemma {:induction false} EncodeValid(text: seq<int>)
    requires forall i :: 0 <= i < |text| ==> IsScalarValue(text[i])
    ensures ValidUtf8(Encode(text))
  {
    if text != [] {
      var head := EncodeScalar(text[0]);
      assert head[|head|..] == [];
      assert ValidUtf8(head);
      EncodeValid(text[1..]);
      ConcatValid(head, Encode(text[1..]));
    }
  }
}
