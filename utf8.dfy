/** Decoding the captured payload bytes as UTF-8 with errors="ignore":
    every well-formed sequence becomes its character, and every maximal
    ill-formed subpart (a byte that cannot start a sequence, or a lead byte
    with the continuation bytes that were valid so far) is dropped. */
module Utf8 {
  import opened Wrappers

  newtype byte = b: int | 0 <= b < 256

  /** How many bytes the sequence introduced by `b0` has; 0 when `b0`
      cannot start a sequence (a continuation byte, C0, C1 or F5..FF). */
  function SequenceLength(b0: byte): nat
  {
    if b0 < 0x80 then 1
    else if b0 < 0xC2 then 0
    else if b0 < 0xE0 then 2
    else if b0 < 0xF0 then 3
    else if b0 < 0xF5 then 4
    else 0
  }

  /** The bounds of the byte after a lead byte; they exclude overlong forms,
      surrogates and code points above U+10FFFF. */
  function SecondLow(b0: byte): byte
  {
    if b0 == 0xE0 then 0xA0 else if b0 == 0xF0 then 0x90 else 0x80
  }

  function SecondHigh(b0: byte): byte
  {
    if b0 == 0xED then 0x9F else if b0 == 0xF4 then 0x8F else 0xBF
  }

  predicate IsContinuation(b: byte) { 0x80 <= b <= 0xBF }

  /** Whether `b[k]` (k >= 1) is an acceptable k-th byte of the sequence led by `b[0]`. */
  predicate Accepts(b: seq<byte>, k: nat)
    requires 1 <= k
  {
    k < |b| &&
    if k == 1 then SecondLow(b[0]) <= b[1] <= SecondHigh(b[0]) else IsContinuation(b[k])
  }

  /** Decodes one sequence at the start of `b`: the character (None for an
      ill-formed subpart) and how many bytes were consumed. */
  function DecodeStep(b: seq<byte>): (s: (Option<char>, nat))
    requires |b| > 0
    ensures 1 <= s.1 <= |b|
    ensures s.0.Some? ==> s.1 == SequenceLength(b[0])
    ensures s.0.Some? && s.1 == 1 ==> s.0.value as int == b[0] as int
    ensures s.0.None? ==> s.1 < SequenceLength(b[0]) || s.1 == 1
  {
    var b0 := b[0];
    var n := SequenceLength(b0);
    if n == 1 then (Some(b0 as int as char), 1)
    else if n == 0 || !Accepts(b, 1) then (None, 1)
    else if n == 2 then
      (Some(((b0 as int - 0xC0) * 0x40 + (b[1] as int - 0x80)) as char), 2)
    else if !Accepts(b, 2) then (None, 2)
    else if n == 3 then
      var cp := (b0 as int - 0xE0) * 0x1000 + (b[1] as int - 0x80) * 0x40 + (b[2] as int - 0x80);
      assert cp < 0xD800 || 0xE000 <= cp < 0x10000;
      (Some(cp as char), 3)
    else if !Accepts(b, 3) then (None, 3)
    else
      var cp := (b0 as int - 0xF0) * 0x40000 + (b[1] as int - 0x80) * 0x1000
                + (b[2] as int - 0x80) * 0x40 + (b[3] as int - 0x80);
      assert 0x10000 <= cp < 0x110000;
      (Some(cp as char), 4)
  }

  /** bytes.decode(errors="ignore") for UTF-8. */
  function Decode(b: seq<byte>): (r: string)
    ensures |r| <= |b|
    decreases |b|
  {
    if b == [] then ""
    else
      var (c, w) := DecodeStep(b);
      (if c.Some? then [c.value] else "") + Decode(b[w..])
  }

  predicate IsAscii(b: seq<byte>) { forall j :: 0 <= j < |b| ==> b[j] < 0x80 }

  /** ASCII bytes decode to the characters with the same codes, one for one. */
  lemma {:induction false} DecodeAscii(b: seq<byte>)
    requires IsAscii(b)
    ensures |Decode(b)| == |b|
    ensures forall j :: 0 <= j < |b| ==> Decode(b)[j] as int == b[j] as int
  {
    if b != [] {
      DecodeAscii(b[1..]);
      assert Decode(b) == [b[0] as int as char] + Decode(b[1..]);
    }
  }

  /** A byte that cannot start a sequence is dropped and decoding goes on after it. */
  lemma DecodeDropsInvalidLead(x: byte, rest: seq<byte>)
    requires SequenceLength(x) == 0
    ensures Decode([x] + rest) == Decode(rest)
  {
    assert ([x] + rest)[1..] == rest;
  }
}
