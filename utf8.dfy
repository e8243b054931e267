/** UTF-8 as RFC 3629 defines it: how many bytes a string occupies (Go's
    len on a string) and which byte sequences are well formed (Go's
    utf8.Valid). */
module Utf8 {
  import opened Bytes

  /** Bytes needed for one scalar value (section 3 of RFC 3629). */
  function Width(c: char): (w: nat)
    ensures 1 <= w <= 4
  {
    if c as int < 0x80 then 1
    else if c as int < 0x800 then 2
    else if c as int < 0x10000 then 3
    else 4
  }

  /** The length in bytes of the UTF-8 encoding of s. */
  function Length(s: string): (n: nat)
    ensures |s| <= n <= 4 * |s|
    decreases |s|
  {
    if |s| == 0 then 0 else Width(s[0]) + Length(s[1..])
  }

  predicate Ascii(s: string)
  {
    forall i :: 0 <= i < |s| ==> s[i] as int < 0x80
  }

  /** Two ASCII strings make an ASCII string. */
  lemma AsciiConcat(a: string, b: string)
    requires Ascii(a) && Ascii(b)
    ensures Ascii(a + b)
  {
    forall i | |a| <= i < |a + b|
      ensures (a + b)[i] as int < 0x80
    {
      assert (a + b)[i] == b[i - |a|];
    }
  }

  /** An ASCII string takes one byte per character. */
  lemma {:induction false} AsciiLength(s: string)
    requires Ascii(s)
    ensures Length(s) == |s|
    decreases |s|
  {
    if |s| > 0 {
      assert Ascii(s[1..]) by {
        forall i | 0 <= i < |s[1..]| ensures s[1..][i] as int < 0x80 {
          assert s[1..][i] == s[i + 1];
        }
      }
      AsciiLength(s[1..]);
    }
  }

  predicate Continuation(x: byte)
  {
    0x80 <= x <= 0xBF
  }

  /** The number of bytes of the well-formed character at the front of b,
      or 0 when b does not start with one (the UTF8-char rule of section 4 of RFC 3629). */
  function Leading(b: seq<byte>): (n: nat)
    requires |b| > 0
    ensures n <= |b| && n <= 4
  {
    var x := b[0];
    if x <= 0x7F then 1
    else if 0xC2 <= x <= 0xDF then
      if |b| >= 2 && Continuation(b[1]) then 2 else 0
    else if 0xE0 <= x <= 0xEF then
      var lo := if x == 0xE0 then 0xA0 else 0x80;
      var hi := if x == 0xED then 0x9F else 0xBF;
      if |b| >= 3 && lo <= b[1] <= hi && Continuation(b[2]) then 3 else 0
    else if 0xF0 <= x <= 0xF4 then
      var lo := if x == 0xF0 then 0x90 else 0x80;
      var hi := if x == 0xF4 then 0x8F else 0xBF;
      if |b| >= 4 && lo <= b[1] <= hi && Continuation(b[2]) && Continuation(b[3]) then 4 else 0
    else 0
  }

  /** b is a sequence of well-formed UTF-8 characters. */
  predicate Valid(b: seq<byte>)
    decreases |b|
  {
    |b| == 0 || (Leading(b) > 0 && Valid(b[Leading(b)..]))
  }

  /** Bytes below 0x80 are always well formed. */
  lemma {:induction false} AsciiBytesValid(b: seq<byte>)
    requires forall i :: 0 <= i < |b| ==> b[i] < 0x80
    ensures Valid(b)
    decreases |b|
  {
    if |b| > 0 {
      assert forall i :: 0 <= i < |b[1..]| ==> b[1..][i] < 0x80 by {
        forall i | 0 <= i < |b[1..]| ensures b[1..][i] < 0x80 {
          assert b[1..][i] == b[i + 1];
        }
      }
      AsciiBytesValid(b[1..]);
    }
  }

  /** A lone continuation byte, an overlong form and a surrogate are rejected. */
  lemma Rejected()
    ensures !Valid([0x80]) && !Valid([0xC0, 0x80]) && !Valid([0xED, 0xA0, 0x80])
    ensures Valid([0xE2, 0x82, 0xAC])
  {
    var euro: seq<byte> := [0xE2, 0x82, 0xAC];
    assert Leading(euro) == 3;
    assert euro[3..] == [];
  }
}
