/**
 * Client ids as UUIDs: the text form of section 4 of RFC 9562 that src/core/auth.rs and
 * src/cli/client.rs write, and the forms they read back.
 */
module Uuids {
  import opened Wrappers
  import opened Bytes
  import opened Texts

  const UUID_BYTES: nat := 16
  const UUID_DIGITS: nat := 32
  const UUID_TEXT: nat := 36

  type Uuid = u: seq<byte> | |u| == UUID_BYTES witness Zeros(UUID_BYTES)

  /** A lower-case hexadecimal digit. */
  function HexDigit(n: nat): byte
    requires n < 16
  {
    if n < 10 then 48 + n else 87 + n
  }

  /** The value of a hexadecimal digit of either case. */
  function HexValue(c: byte): Option<nat> {
    if 48 <= c <= 57 then Some(c - 48)
    else if 97 <= c <= 102 then Some(c - 87)
    else if 65 <= c <= 70 then Some(c - 55)
    else None
  }

  lemma HexRoundTrip(n: nat)
    requires n < 16
    ensures HexValue(HexDigit(n)) == Some(n)
  {
  }

  /** Half of a byte, the upper half first. */
  function Nibble(u: Uuid, k: nat): (n: nat)
    requires k < UUID_DIGITS
    ensures n < 16
  {
    if k % 2 == 0 then u[k / 2] / 16 else u[k / 2] % 16
  }

  predicate IsHyphen(p: nat) {
    p == 8 || p == 13 || p == 18 || p == 23
  }

  /** The place of hexadecimal digit `k` in the hyphenated text. */
  function DigitAt(k: nat): (p: nat)
    requires k < UUID_DIGITS
    ensures p < UUID_TEXT && !IsHyphen(p)
  {
    k + (if k >= 8 then 1 else 0) + (if k >= 12 then 1 else 0) + (if k >= 16 then 1 else 0) + (if k >= 20 then 1 else 0)
  }

  /** Which hexadecimal digit stands at a place that is no hyphen. */
  function DigitOf(p: nat): (k: nat)
    requires p < UUID_TEXT && !IsHyphen(p)
    ensures k < UUID_DIGITS && DigitAt(k) == p
  {
    p - (if p > 8 then 1 else 0) - (if p > 13 then 1 else 0) - (if p > 18 then 1 else 0) - (if p > 23 then 1 else 0)
  }

  /** `Uuid::to_string`: 8-4-4-4-12 lower-case digits. */
  function Print(u: Uuid): (t: Text)
    ensures |t| == UUID_TEXT
  {
    seq(UUID_TEXT, p requires 0 <= p < UUID_TEXT => if IsHyphen(p) then DASH else HexDigit(Nibble(u, DigitOf(p))))
  }

  /** Hyphens at four places, and byte `i` as two lower-case digits at its place. */
  lemma PrintedBytes(u: Uuid, i: nat)
    requires i < |u|
    ensures var t := Print(u);
            var p := 2 * i + (if i >= 4 then 1 else 0) + (if i >= 6 then 1 else 0)
                     + (if i >= 8 then 1 else 0) + (if i >= 10 then 1 else 0);
            && t[8] == DASH && t[13] == DASH && t[18] == DASH && t[23] == DASH
            && p + 1 < |t| && HexValue(t[p]) == Some(u[i] / 16) && HexValue(t[p + 1]) == Some(u[i] % 16)
            && !(65 <= t[p] <= 70) && !(65 <= t[p + 1] <= 70)
  {
    HexRoundTrip(u[i] / 16);
    HexRoundTrip(u[i] % 16);
  }

  predicate AllHex(digits: Text) {
    forall k :: 0 <= k < |digits| ==> HexValue(digits[k]).Some?
  }

  function FromDigits(digits: Text): (u: Uuid)
    requires |digits| == UUID_DIGITS && AllHex(digits)
  {
    seq(UUID_BYTES, i requires 0 <= i < UUID_BYTES =>
      HexValue(digits[2 * i]).value * 16 + HexValue(digits[2 * i + 1]).value)
  }

  /** The digits of a hyphenated text. */
  function Digits(t: Text): (digits: Text)
    requires |t| == UUID_TEXT
    ensures |digits| == UUID_DIGITS
  {
    seq(UUID_DIGITS, k requires 0 <= k < UUID_DIGITS => t[DigitAt(k)])
  }

  function ParseHyphenated(t: Text): Option<Uuid> {
    if |t| == UUID_TEXT && (forall p :: 0 <= p < |t| && IsHyphen(p) ==> t[p] == DASH) && AllHex(Digits(t))
    then Some(FromDigits(Digits(t)))
    else None
  }

  const URN: Text := Ascii("urn:uuid:")

  /** `Uuid::parse_str`: plain digits, or hyphenated with nothing, braces or a URN prefix around. */
  function Parse(t: Text): Option<Uuid> {
    if |t| == UUID_DIGITS && AllHex(t) then Some(FromDigits(t))
    else if |t| == UUID_TEXT + 2 && t[0] == 123 && t[UUID_TEXT + 1] == 125 then ParseHyphenated(t[1..UUID_TEXT + 1])
    else if |t| == UUID_TEXT + 9 && t[..9] == URN then ParseHyphenated(t[9..])
    else ParseHyphenated(t)
  }

  lemma PrintedDigits(u: Uuid, k: nat)
    requires k < UUID_DIGITS
    ensures Digits(Print(u))[k] == HexDigit(Nibble(u, k))
  {
    var p := DigitAt(k);
    assert DigitOf(p) == k;
  }

  /** Printing and reading back is the identity. */
  lemma ParsePrint(u: Uuid)
    ensures Parse(Print(u)) == Some(u)
  {
    hide HexDigit, HexValue, Nibble, DigitAt;
    var t := Print(u);
    forall k | 0 <= k < UUID_DIGITS
      ensures HexValue(Digits(t)[k]) == Some(Nibble(u, k))
    {
      PrintedDigits(u, k);
      HexRoundTrip(Nibble(u, k));
    }
    assert AllHex(Digits(t));
    forall i | 0 <= i < UUID_BYTES
      ensures FromDigits(Digits(t))[i] == u[i]
    {
      HalvesJoin(u, i);
    }
    assert FromDigits(Digits(t)) == u;
  }

  lemma HalvesJoin(u: Uuid, i: nat)
    requires i < UUID_BYTES
    ensures Nibble(u, 2 * i) * 16 + Nibble(u, 2 * i + 1) == u[i]
  {
  }

  /** No character of a printed id is trimmed away. */
  lemma PrintedIsPlain(u: Uuid, p: nat)
    requires p < UUID_TEXT
    ensures Print(u)[p] > 32 && Print(u)[p] < 128
  {
  }

  function LowerHex(c: byte): byte {
    if 65 <= c <= 70 then c + 32 else c
  }

  /** A hyphenated text that is parsed as an id is that id's own text, up to the case of its digits. */
  lemma ParsedIsPrinted(t: Text, u: Uuid, p: nat)
    requires ParseHyphenated(t) == Some(u) && p < UUID_TEXT
    ensures |t| == UUID_TEXT && LowerHex(t[p]) == Print(u)[p]
  {
    if !IsHyphen(p) {
      var k := DigitOf(p);
      assert HexValue(Digits(t)[k]).Some?;
      ParsedNibble(Digits(t), k);
      LowerOfValue(t[p]);
    }
  }

  lemma LowerOfValue(c: byte)
    requires HexValue(c).Some?
    ensures HexValue(c).value < 16 && HexDigit(HexValue(c).value) == LowerHex(c)
  {
  }

  lemma ParsedNibble(digits: Text, k: nat)
    requires |digits| == UUID_DIGITS && AllHex(digits) && k < UUID_DIGITS
    ensures HexValue(digits[k]).Some? && Nibble(FromDigits(digits), k) == HexValue(digits[k]).value
  {
    var i := k / 2;
    assert HexValue(digits[2 * i]).Some? && HexValue(digits[2 * i + 1]).Some?;
    assert k == 2 * i || k == 2 * i + 1;
  }
}
