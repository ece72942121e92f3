/** Bytes, fixed-width big-endian integers, and concatenation of sequences of sequences. */
module Bytes {
  type byte = b: int | 0 <= b < 0x100

  type u16 = x: int | 0 <= x < 0x1_0000

  type u32 = x: int | 0 <= x < 0x1_0000_0000

  /** Rust's `as u16` on an unsigned value: the low sixteen bits. */
  function TruncateToU16(x: nat): u16 {
    x % 0x1_0000
  }

  /** Two digits in the given base, the more significant first. */
  function Compose(high: int, low: int, base: int): int {
    high * base + low
  }

  function ToBe16(x: u16): (bytes: seq<byte>)
    ensures |bytes| == 2
  {
    [x / 0x100, x % 0x100]
  }

  function FromBe16(bytes: seq<byte>): u16
    requires |bytes| == 2
  {
    Compose(bytes[0], bytes[1], 0x100)
  }

  function ToBe32(x: u32): (bytes: seq<byte>)
    ensures |bytes| == 4
  {
    ToBe16(x / 0x1_0000) + ToBe16(x % 0x1_0000)
  }

  function FromBe32(bytes: seq<byte>): u32
    requires |bytes| == 4
  {
    Compose(FromBe16(bytes[..2]), FromBe16(bytes[2..]), 0x1_0000)
  }

  lemma ComposeSplits(high: int, low: int)
    requires 0 <= low < 0x1_0000
    ensures Compose(high, low, 0x1_0000) / 0x1_0000 == high
    ensures Compose(high, low, 0x1_0000) % 0x1_0000 == low
  {
  }

  lemma Be16RoundTrip(x: u16)
    ensures FromBe16(ToBe16(x)) == x
  {
  }

  lemma Be16Inverse(bytes: seq<byte>)
    requires |bytes| == 2
    ensures ToBe16(FromBe16(bytes)) == bytes
  {
  }

  lemma Be32RoundTrip(x: u32)
    ensures FromBe32(ToBe32(x)) == x
  {
    assert ToBe32(x)[..2] == ToBe16(x / 0x1_0000);
    assert ToBe32(x)[2..] == ToBe16(x % 0x1_0000);
  }

  lemma Be32Inverse(bytes: seq<byte>)
    requires |bytes| == 4
    ensures ToBe32(FromBe32(bytes)) == bytes
  {
    Be16Inverse(bytes[..2]);
    Be16Inverse(bytes[2..]);
    ComposeSplits(FromBe16(bytes[..2]), FromBe16(bytes[2..]));
    assert bytes == bytes[..2] + bytes[2..];
  }

  function Zeros(n: nat): (bytes: seq<byte>)
    ensures |bytes| == n
    ensures forall i :: 0 <= i < n ==> bytes[i] == 0
  {
    seq(n, _ => 0)
  }

  /** Concatenation of all the parts, in order. */
  function Flatten<T>(parts: seq<seq<T>>): seq<T> {
    if parts == [] then [] else parts[0] + Flatten(parts[1..])
  }

  lemma FlattenCons<T>(a: seq<T>, parts: seq<seq<T>>)
    ensures Flatten([a] + parts) == a + Flatten(parts)
  {
    assert ([a] + parts)[1..] == parts;
  }

  lemma FlattenSingle<T>(a: seq<T>)
    ensures Flatten([a]) == a
  {
    assert Flatten([a]) == a + Flatten([]);
  }
}
