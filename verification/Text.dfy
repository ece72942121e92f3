/**
 * Rust strings as their UTF-8 bytes: searching, splitting and joining at an ASCII character,
 * and decimal numbers.
 */
module Texts {
  import opened Wrappers
  import opened Bytes

  type Text = seq<byte>

  /** An ASCII literal. */
  function Ascii(s: string): (t: Text)
    requires forall i :: 0 <= i < |s| ==> s[i] < 128 as char
    ensures |t| == |s|
    ensures forall i :: 0 <= i < |s| ==> t[i] == s[i] as int
  {
    seq(|s|, i requires 0 <= i < |s| => s[i] as int)
  }

  const NEWLINE: byte := 10
  const COMMA: byte := 44
  const EQUALS: byte := 61
  const DASH: byte := 45
  const PLUS: byte := 43

  /** `find`: the position of the first `c`, or the length of the text. */
  function Find(t: Text, c: byte): (k: nat)
    ensures k <= |t|
    ensures k < |t| ==> t[k] == c
    ensures c !in t[..k]
  {
    if t == [] || t[0] == c then 0
    else
      var k := Find(t[1..], c) + 1;
      assert t[..k] == [t[0]] + t[1..][..k - 1];
      k
  }

  lemma FindIs(before: Text, c: byte, after: Text)
    requires c !in before
    ensures Find(before + [c] + after, c) == |before|
  {
    var t := before + [c] + after;
    assert t[|before|] == c;
    assert forall i :: 0 <= i < |before| ==> t[i] != c;
  }

  lemma FindNone(t: Text, c: byte)
    requires c !in t
    ensures Find(t, c) == |t|
  {
  }

  /** `split(c)`: always at least one piece. */
  function Split(t: Text, c: byte): (pieces: seq<Text>)
    ensures |pieces| > 0
    ensures forall i :: 0 <= i < |pieces| ==> c !in pieces[i]
    decreases |t|
  {
    var k := Find(t, c);
    if k == |t| then
      assert t[..k] == t;
      [t]
    else [t[..k]] + Split(t[k + 1..], c)
  }

  /** `join`. */
  function Join(pieces: seq<Text>, c: byte): Text {
    if pieces == [] then []
    else if |pieces| == 1 then pieces[0]
    else pieces[0] + [c] + Join(pieces[1..], c)
  }

  lemma {:induction false} SplitJoin(pieces: seq<Text>, c: byte)
    requires pieces != []
    requires forall i :: 0 <= i < |pieces| ==> c !in pieces[i]
    ensures Split(Join(pieces, c), c) == pieces
  {
    if |pieces| == 1 {
      FindNone(pieces[0], c);
    } else {
      var rest := Join(pieces[1..], c);
      var t := Join(pieces, c);
      FindIs(pieces[0], c, rest);
      assert t[..|pieces[0]|] == pieces[0] && t[|pieces[0]| + 1..] == rest;
      SplitJoin(pieces[1..], c);
    }
  }

  /** `split_once(c)`: the parts before and after the first `c`. */
  function SplitOnce(t: Text, c: byte): Option<(Text, Text)> {
    var k := Find(t, c);
    if k == |t| then None else Some((t[..k], t[k + 1..]))
  }

  lemma SplitOnceIs(before: Text, c: byte, after: Text)
    requires c !in before
    ensures SplitOnce(before + [c] + after, c) == Some((before, after))
  {
    FindIs(before, c, after);
    var t := before + [c] + after;
    assert t[..|before|] == before && t[|before| + 1..] == after;
  }

  lemma SplitOnceParts(t: Text, c: byte)
    requires SplitOnce(t, c).Some?
    ensures t == SplitOnce(t, c).value.0 + [c] + SplitOnce(t, c).value.1
    ensures c !in SplitOnce(t, c).value.0
  {
  }

  predicate IsDigit(b: byte) {
    48 <= b <= 57
  }

  function DigitsValue(t: Text): (n: nat)
    requires forall i :: 0 <= i < |t| ==> IsDigit(t[i])
  {
    if t == [] then 0
    else
      assert IsDigit(t[|t| - 1]);
      DigitsValue(t[..|t| - 1]) * 10 + t[|t| - 1] - 48
  }

  /** Rust's `parse` for an unsigned integer type with the given maximum. */
  function ParseUnsigned(t: Text, max: nat): (r: Option<nat>)
    ensures r.Some? ==> r.value <= max
  {
    var digits := if t != [] && t[0] == PLUS then t[1..] else t;
    if digits != [] && forall i :: 0 <= i < |digits| ==> IsDigit(digits[i]) then
      if DigitsValue(digits) <= max then Some(DigitsValue(digits)) else None
    else None
  }

  const I64_MAX: nat := 0x7FFF_FFFF_FFFF_FFFF

  /** Rust's `parse::<i64>`. */
  function ParseI64(t: Text): Option<int> {
    if t != [] && t[0] == DASH then
      if |t| > 1 && forall i :: 1 <= i < |t| ==> IsDigit(t[i]) then
        if DigitsValue(t[1..]) <= I64_MAX + 1 then Some(0 - DigitsValue(t[1..])) else None
      else None
    else
      match ParseUnsigned(t, I64_MAX)
      case Some(n) => Some(n)
      case None => None
  }

  /** `to_string` of an unsigned integer. */
  function Decimal(n: nat): (t: Text)
    ensures t != []
    ensures forall i :: 0 <= i < |t| ==> IsDigit(t[i])
    ensures DigitsValue(t) == n
  {
    if n < 10 then [48 + n]
    else
      var t := Decimal(n / 10) + [48 + n % 10];
      assert t[..|t| - 1] == Decimal(n / 10);
      t
  }

  lemma DecimalParses(n: nat, max: nat)
    requires n <= max
    ensures ParseUnsigned(Decimal(n), max) == Some(n)
  {
    assert IsDigit(Decimal(n)[0]);
  }
}
