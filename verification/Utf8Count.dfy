/** Counting the characters of a UTF-8 string by the first byte of each. */
module Utf8Count {

  const TWO_BYTE_MASK: bv8 := 0xE0
  const THREE_BYTE_MASK: bv8 := 0xF0
  const FOUR_BYTE_MASK: bv8 := 0xF8
  const TWO_BYTE_START: bv8 := 0xC0
  const THREE_BYTE_START: bv8 := 0xE0
  const FOUR_BYTE_START: bv8 := 0xF0

  /** How far the counter moves on a byte. */
  function Stride(c: bv8): (n: nat)
    ensures 1 <= n <= 4
  {
    if c & TWO_BYTE_MASK == TWO_BYTE_START then 2
    else if c & THREE_BYTE_MASK == THREE_BYTE_START then 3
    else if c & FOUR_BYTE_MASK == FOUR_BYTE_START then 4
    else 1
  }

  /** The number of strides from place `i` to the end; the last one may go past it. */
  function CountFrom(s: seq<bv8>, i: nat): nat
    decreases |s| - i
  {
    if i >= |s| then 0 else 1 + CountFrom(s, i + Stride(s[i]))
  }

  method GetUtf8CharCount(s: seq<bv8>) returns (charCount: nat)
    ensures charCount == CountFrom(s, 0)
    ensures (|s| + 3) / 4 <= charCount <= |s|
  {
    charCount := 0;
    var i := 0;
    while i < |s|
      invariant charCount + CountFrom(s, i) == CountFrom(s, 0)
      invariant i <= 4 * charCount
      invariant charCount <= i
      decreases |s| - i
    {
      var c := s[i];
      if c & TWO_BYTE_MASK == TWO_BYTE_START {
        i := i + 2;
      } else if c & THREE_BYTE_MASK == THREE_BYTE_START {
        i := i + 3;
      } else if c & FOUR_BYTE_MASK == FOUR_BYTE_START {
        i := i + 4;
      } else {
        i := i + 1;
      }
      charCount := charCount + 1;
    }
    CountIsBounded(s, 0);
  }

  /** On any bytes at all the count is at least a quarter of the length and at most the length. */
  lemma {:induction false} CountIsBounded(s: seq<bv8>, i: nat)
    requires i <= |s|
    ensures (|s| - i + 3) / 4 <= CountFrom(s, i) <= |s| - i
    decreases |s| - i
  {
    if i < |s| && i + Stride(s[i]) <= |s| {
      CountIsBounded(s, i + Stride(s[i]));
    }
  }

  // ----- UTF-8, section 3 of RFC 3629 -----

  /** A code point that has an encoding: up to 10FFFF, surrogates excluded. */
  predicate IsScalar(cp: bv32) {
    cp <= 0x10FFFF && !(0xD800 <= cp <= 0xDFFF)
  }

  function Byte(prefix: bv8, cp: bv32, shift: bv32): bv8
    requires shift <= 18
  {
    prefix | (((cp >> (shift as bv6)) & 0x3F) as bv8)
  }

  function Encode(cp: bv32): seq<bv8>
    requires IsScalar(cp)
  {
    if cp <= 0x7F then [(cp & 0x7F) as bv8]
    else if cp <= 0x7FF then [0xC0 | ((cp >> 6) & 0x1F) as bv8, Byte(0x80, cp, 0)]
    else if cp <= 0xFFFF then [0xE0 | ((cp >> 12) & 0x0F) as bv8, Byte(0x80, cp, 6), Byte(0x80, cp, 0)]
    else [0xF0 | ((cp >> 18) & 0x07) as bv8, Byte(0x80, cp, 12), Byte(0x80, cp, 6), Byte(0x80, cp, 0)]
  }

  function EncodeAll(cps: seq<bv32>): seq<bv8>
    requires forall cp | cp in cps :: IsScalar(cp)
  {
    if cps == [] then [] else Encode(cps[0]) + EncodeAll(cps[1..])
  }

  /** The first byte of an encoding tells its length. */
  lemma StrideIsLength(cp: bv32)
    requires IsScalar(cp)
    ensures Stride(Encode(cp)[0]) == |Encode(cp)|
  {
  }

  lemma {:induction false} CountShifts(a: seq<bv8>, b: seq<bv8>, i: nat)
    ensures CountFrom(a + b, |a| + i) == CountFrom(b, i)
    decreases |b| - i
  {
    if i < |b| {
      assert (a + b)[|a| + i] == b[i];
      CountShifts(a, b, i + Stride(b[i]));
    }
  }

  /** The count of an encoded string is the number of its code points. */
  lemma {:induction false} CountsCodePoints(cps: seq<bv32>)
    requires forall cp | cp in cps :: IsScalar(cp)
    ensures CountFrom(EncodeAll(cps), 0) == |cps|
  {
    if cps != [] {
      var first, rest := Encode(cps[0]), EncodeAll(cps[1..]);
      StrideIsLength(cps[0]);
      CountsCodePoints(cps[1..]);
      assert (first + rest)[0] == first[0];
      CountShifts(first, rest, 0);
    }
  }
}
