/**
 * Padding schemes as texts (src/core/padding.rs): a text that lists a stop and, packet by packet,
 * check marks and ranges is read back as exactly these.
 */
module SchemeTexts {
  import opened Wrappers
  import opened Bytes
  import opened Texts
  import opened StringMaps
  import opened Paddings

  /** A check mark, or two bounds in whatever order. */
  datatype Item = Mark | Bounds(a: nat, b: nat)

  function ItemText(item: Item): Text {
    match item
    case Mark => CHECK_PIECE
    case Bounds(a, b) => Decimal(a) + [DASH] + Decimal(b)
  }

  /** What an item is read as: a range has its bounds in order, and one that starts at zero is dropped. */
  function ItemPiece(item: Item): seq<Piece> {
    match item
    case Mark => [Check]
    case Bounds(a, b) =>
      if a == 0 || b == 0 then []
      else if a <= b then [Range(a, b)]
      else [Range(b, a)]
  }

  predicate Readable(item: Item) {
    item.Bounds? ==> item.a <= I64_MAX && item.b <= I64_MAX
  }

  lemma DecimalHasNo(n: nat, c: byte)
    requires !IsDigit(c)
    ensures c !in Decimal(n)
  {
  }

  lemma I64Parses(n: nat)
    requires n <= I64_MAX
    ensures ParseI64(Decimal(n)) == Some(n)
  {
    DecimalHasNo(n, DASH);
    DecimalParses(n, I64_MAX);
  }

  lemma ItemParses(item: Item)
    requires Readable(item)
    ensures ParsePiece(ItemText(item))
         == if ItemPiece(item) == [] then None else Some(ItemPiece(item)[0])
  {
    hide ParseI64, Decimal, SplitOnce;
    match item
    case Mark =>
    case Bounds(a, b) =>
      DecimalHasNo(a, DASH);
      SplitOnceIs(Decimal(a), DASH, Decimal(b));
      I64Parses(a);
      I64Parses(b);
      assert ItemText(item)[|Decimal(a)|] == DASH;
      assert DASH in ItemText(item) && DASH !in CHECK_PIECE;
  }

  function ItemTexts(items: seq<Item>): (texts: seq<Text>)
    ensures |texts| == |items|
  {
    seq(|items|, i requires 0 <= i < |items| => ItemText(items[i]))
  }

  function ItemPieces(items: seq<Item>): seq<Piece> {
    if items == [] then [] else ItemPieces(items[..|items| - 1]) + ItemPiece(items[|items| - 1])
  }

  ghost predicate AllReadable(items: seq<Item>) {
    forall i :: 0 <= i < |items| ==> Readable(items[i])
  }

  lemma {:induction false} ItemsParse(items: seq<Item>)
    requires AllReadable(items)
    ensures ParsePieces(ItemTexts(items)) == ItemPieces(items)
    decreases |items|
  {
    if items != [] {
      var n := |items| - 1;
      ItemsParse(items[..n]);
      ItemParses(items[n]);
      assert ItemTexts(items)[..n] == ItemTexts(items[..n]);
    }
  }

  lemma ItemHasNo(item: Item, c: byte)
    requires !IsDigit(c) && c != DASH && c != 99
    ensures c !in ItemText(item)
  {
    if item.Bounds? {
      DecimalHasNo(item.a, c);
      DecimalHasNo(item.b, c);
    }
  }

  lemma {:induction false} JoinHasNo(texts: seq<Text>, sep: byte, c: byte)
    requires c != sep && forall i :: 0 <= i < |texts| ==> c !in texts[i]
    ensures c !in Join(texts, sep)
    decreases |texts|
  {
    if |texts| > 1 {
      JoinHasNo(texts[1..], sep, c);
    }
  }

  /** One packet of a scheme and its items. */
  datatype Entry = Entry(packet: u32, items: seq<Item>)

  function EntryValue(e: Entry): Text {
    Join(ItemTexts(e.items), COMMA)
  }

  lemma EntryClean(e: Entry)
    ensures CleanEntry(Decimal(e.packet), EntryValue(e))
  {
    DecimalHasNo(e.packet, EQUALS);
    DecimalHasNo(e.packet, NEWLINE);
    forall i | 0 <= i < |e.items|
      ensures NEWLINE !in ItemTexts(e.items)[i]
    {
      ItemHasNo(e.items[i], NEWLINE);
    }
    JoinHasNo(ItemTexts(e.items), COMMA, NEWLINE);
  }

  lemma EntryParses(e: Entry)
    requires AllReadable(e.items)
    ensures ParsePieces(Split(EntryValue(e), COMMA)) == ItemPieces(e.items)
  {
    if e.items == [] {
      NoItems();
    } else {
      forall i | 0 <= i < |e.items|
        ensures COMMA !in ItemTexts(e.items)[i]
      {
        ItemHasNo(e.items[i], COMMA);
      }
      SplitJoin(ItemTexts(e.items), COMMA);
      ItemsParse(e.items);
    }
  }

  lemma NoItems()
    ensures ParsePieces(Split([], COMMA)) == []
  {
    assert Split([], COMMA) == [[]];
    assert SplitOnce([], DASH) == None;
    assert ParsePieces([[]][..0]) == [];
  }

  /** The lines of the text: the stop and the packets. */
  function Settings(stop: u32, entries: seq<Entry>): (items: seq<(Text, Text)>)
    ensures |items| == |entries| + 1
  {
    [(STOP, Decimal(stop))] + seq(|entries|, i requires 0 <= i < |entries| =>
      (Decimal(entries[i].packet), EntryValue(entries[i])))
  }

  function SchemeText(stop: u32, entries: seq<Entry>): Text {
    ToBytes(Settings(stop, entries))
  }

  ghost predicate DistinctPackets(entries: seq<Entry>) {
    forall i, j :: 0 <= i < j < |entries| ==> entries[i].packet != entries[j].packet
  }

  lemma StopIsNoNumber(n: nat)
    ensures Decimal(n) != STOP
  {
    assert IsDigit(Decimal(n)[0]) && !IsDigit(STOP[0]);
  }

  lemma SettingsAreClean(stop: u32, entries: seq<Entry>)
    requires DistinctPackets(entries)
    ensures var items := Settings(stop, entries);
            && (forall i, j :: 0 <= i < j < |items| ==> items[i].0 != items[j].0)
            && (forall i :: 0 <= i < |items| ==> CleanEntry(items[i].0, items[i].1))
  {
    hide EntryValue, Decimal, CleanEntry;
    var items := Settings(stop, entries);
    forall i, j | 0 <= i < j < |items|
      ensures items[i].0 != items[j].0
    {
      if i == 0 {
        StopIsNoNumber(entries[j - 1].packet);
      }
    }
    forall i | 0 <= i < |items|
      ensures CleanEntry(items[i].0, items[i].1)
    {
      if i == 0 {
        StopClean(stop);
      } else {
        EntryClean(entries[i - 1]);
      }
    }
  }

  lemma StopClean(stop: u32)
    ensures CleanEntry(STOP, Decimal(stop))
  {
    DecimalHasNo(stop, NEWLINE);
  }

  lemma LinesClean(items: seq<(Text, Text)>)
    requires items != [] && forall i :: 0 <= i < |items| ==> CleanEntry(items[i].0, items[i].1)
    ensures Split(ToBytes(items), NEWLINE) == Lines(items)
  {
    SplitJoin(Lines(items), NEWLINE);
  }

  /** The map of the text has the stop, the listed packets and no other number. */
  lemma SchemeMap(stop: u32, entries: seq<Entry>)
    requires DistinctPackets(entries)
    ensures var m := FromBytes(SchemeText(stop, entries));
            && STOP in m && m[STOP] == Decimal(stop)
            && (forall i :: 0 <= i < |entries| ==>
                  Decimal(entries[i].packet) in m && m[Decimal(entries[i].packet)] == EntryValue(entries[i]))
            && (forall packet: u32 ::
                  (forall i :: 0 <= i < |entries| ==> entries[i].packet != packet) ==> Decimal(packet) !in m)
  {
    hide EntryValue, Decimal, CleanEntry, Lines, FromLines, ToBytes, Split, DigitsValue, Ascii, IsDigit;
    var items := Settings(stop, entries);
    SettingsAreClean(stop, entries);
    LinesClean(items);
    FromLinesOfItems(items);
    var m := FromBytes(SchemeText(stop, entries));
    assert items[0].0 in m && m[STOP] == Decimal(stop);
    forall i | 0 <= i < |entries|
      ensures Decimal(entries[i].packet) in m && m[Decimal(entries[i].packet)] == EntryValue(entries[i])
    {
      assert items[i + 1].0 in m && m[items[i + 1].0] == items[i + 1].1;
    }
    forall packet: u32 | (forall i :: 0 <= i < |entries| ==> entries[i].packet != packet)
      ensures Decimal(packet) !in m
    {
      NotListed(stop, entries, packet);
    }
  }

  lemma NotListed(stop: u32, entries: seq<Entry>, packet: u32)
    requires forall i :: 0 <= i < |entries| ==> entries[i].packet != packet
    ensures forall i :: 0 <= i <= |entries| ==> Settings(stop, entries)[i].0 != Decimal(packet)
  {
    hide EntryValue, Decimal;
    StopIsNoNumber(packet);
  }

  /**
   * Reading a scheme text back: the factory has its stop and, for each listed packet, its check
   * marks and ranges in order; for any other packet it has none.
   */
  lemma SchemeRoundTrip(stop: u32, entries: seq<Entry>, digest: Text -> Text)
    requires DistinctPackets(entries) && forall i :: 0 <= i < |entries| ==> AllReadable(entries[i].items)
    ensures var r := NewFactory(SchemeText(stop, entries), digest);
            && r.Some? && r.value.stop == stop
            && (forall i :: 0 <= i < |entries| ==>
                  PiecesFor(r.value, entries[i].packet) == ItemPieces(entries[i].items))
            && (forall packet: u32 ::
                  (forall i :: 0 <= i < |entries| ==> entries[i].packet != packet) ==> PiecesFor(r.value, packet) == [])
  {
    hide EntryValue, Decimal, FromBytes, SchemeText, ParsePieces, ItemPieces, NewFactory, ParseUnsigned, Split,
      AllReadable;
    SchemeMap(stop, entries);
    DecimalParses(stop, 0xFFFF_FFFF);
    forall i | 0 <= i < |entries|
      ensures ParsePieces(Split(EntryValue(entries[i]), COMMA)) == ItemPieces(entries[i].items)
    {
      EntryParses(entries[i]);
    }
  }
}
