/** Percent-encoding (section 2.1 of RFC 3986) as used by src/cli/client.rs. */
module Percents {
  import opened Wrappers
  import opened Bytes
  import opened Texts
  import opened Uuids

  const PERCENT: byte := 37

  /** An upper-case hexadecimal digit. */
  function UpperHex(n: nat): byte
    requires n < 16
  {
    if n < 10 then 48 + n else 55 + n
  }

  function EncodeByte(b: byte, must: byte -> bool): Text {
    if must(b) then [PERCENT, UpperHex(b / 16), UpperHex(b % 16)] else [b]
  }

  /** Every byte that `must` be encoded becomes a percent sign and two digits. */
  function Encode(t: Text, must: byte -> bool): Text {
    if t == [] then [] else EncodeByte(t[0], must) + Encode(t[1..], must)
  }

  /** A percent sign without two digits after it stands for itself. */
  function Decode(t: Text): Text {
    if t == [] then []
    else if t[0] == PERCENT && |t| >= 3 && HexValue(t[1]).Some? && HexValue(t[2]).Some? then
      [HexValue(t[1]).value * 16 + HexValue(t[2]).value] + Decode(t[3..])
    else [t[0]] + Decode(t[1..])
  }

  lemma UpperHexValue(n: nat)
    requires n < 16
    ensures HexValue(UpperHex(n)) == Some(n)
  {
  }

  /** Decoding undoes encoding for every set of encoded characters that has the percent sign. */
  lemma {:induction false} DecodeEncode(t: Text, must: byte -> bool)
    requires must(PERCENT)
    ensures Decode(Encode(t, must)) == t
  {
    if t != [] {
      var rest := Encode(t[1..], must);
      DecodeEncode(t[1..], must);
      if must(t[0]) {
        UpperHexValue(t[0] / 16);
        UpperHexValue(t[0] % 16);
        assert Encode(t, must)[3..] == rest;
      } else {
        assert Encode(t, must)[1..] == rest;
      }
      assert t == [t[0]] + t[1..];
    }
  }

  /** A character that encoding never produces: neither the percent sign nor a digit it writes. */
  predicate Delimiter(c: byte) {
    c != PERCENT && !(48 <= c <= 57) && !(65 <= c <= 70)
  }

  /** An encoded delimiter is gone; one that is not encoded stays exactly where it was. */
  lemma {:induction false} EncodedDelimiters(t: Text, must: byte -> bool, c: byte)
    requires Delimiter(c)
    ensures c in Encode(t, must) <==> c in t && !must(c)
  {
    if t != [] {
      EncodedDelimiters(t[1..], must, c);
      assert t == [t[0]] + t[1..];
    }
  }

  lemma {:induction false} EncodeAppend(a: Text, b: Text, must: byte -> bool)
    ensures Encode(a + b, must) == Encode(a, must) + Encode(b, must)
  {
    if a == [] {
      assert a + b == b;
    } else {
      assert (a + b)[1..] == a[1..] + b;
      EncodeAppend(a[1..], b, must);
    }
  }

  /** Text around a character that is not encoded. */
  lemma EncodeAround(a: Text, c: byte, b: Text, must: byte -> bool)
    requires !must(c)
    ensures Encode(a + [c] + b, must) == Encode(a, must) + [c] + Encode(b, must)
  {
    hide Encode;
    EncodeAppend(a + [c], b, must);
    EncodeAppend(a, [c], must);
    EncodeOne(c, must);
  }

  lemma EncodeOne(c: byte, must: byte -> bool)
    requires !must(c)
    ensures Encode([c], must) == [c]
  {
    assert [c][1..] == [];
  }

  /** An encoded byte: a percent sign and its two upper-case digits, the more significant first. */
  lemma EncodedByte(b: byte, must: byte -> bool)
    requires must(b)
    ensures var t := Encode([b], must);
            && |t| == 3 && t[0] == 37 && HexValue(t[1]) == Some(b / 16) && HexValue(t[2]) == Some(b % 16)
            && !(97 <= t[1] <= 102) && !(97 <= t[2] <= 102)
  {
    assert [b][1..] == [];
    UpperHexValue(b / 16);
    UpperHexValue(b % 16);
  }

  lemma DecodeStep(t: Text)
    requires t != [] && (t[0] != PERCENT || |t| < 3 || HexValue(t[1]).None? || HexValue(t[2]).None?)
    ensures Decode(t) == [t[0]] + Decode(t[1..])
  {
  }

  /** Text without a percent sign, and a percent sign without two digits after it, stand for themselves. */
  lemma {:induction false} DecodePlain(t: Text, more: Text)
    requires PERCENT !in t
    requires more != [] ==>
               more[0] == PERCENT && (|more| < 3 || HexValue(more[1]).None? || HexValue(more[2]).None?)
    ensures Decode(t + more) == t + if more == [] then [] else [PERCENT] + Decode(more[1..])
  {
    hide HexValue, Decode;
    if t == [] {
      assert t + more == more;
      if more == [] {
        DecodeNothing();
      } else {
        DecodeStep(more);
      }
    } else {
      assert (t + more)[1..] == t[1..] + more;
      DecodeStep(t + more);
      DecodePlain(t[1..], more);
      assert t == [t[0]] + t[1..];
    }
  }

  lemma DecodeNothing()
    ensures Decode([]) == []
  {
  }
}
