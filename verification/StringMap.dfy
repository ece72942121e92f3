/** The `key=value` settings text of src/core/string_map.rs. */
module StringMaps {
  import opened Texts

  type StringMap = map<Text, Text>

  /** One line of the text: ignored without an equals sign, else the last value for the key wins. */
  function Insert(m: StringMap, line: Text): StringMap {
    match SplitOnce(line, EQUALS)
    case Some((key, value)) => m[key := value]
    case None => m
  }

  function FromLines(lines: seq<Text>): StringMap {
    if lines == [] then map[]
    else Insert(FromLines(lines[..|lines| - 1]), lines[|lines| - 1])
  }

  function FromBytes(bytes: Text): StringMap {
    FromLines(Split(bytes, NEWLINE))
  }

  /** The line has the key before its first equals sign. */
  predicate Sets(line: Text, key: Text) {
    EQUALS !in key && key + [EQUALS] <= line
  }

  /** Line `i` is the last one that has the key. */
  ghost predicate LastSets(lines: seq<Text>, i: nat, key: Text) {
    i < |lines| && Sets(lines[i], key) && forall j :: i < j < |lines| ==> !Sets(lines[j], key)
  }

  lemma SetsIs(line: Text, key: Text)
    ensures Sets(line, key) <==> SplitOnce(line, EQUALS).Some? && SplitOnce(line, EQUALS).value.0 == key
    ensures Sets(line, key) ==> line == key + [EQUALS] + SplitOnce(line, EQUALS).value.1
  {
    if Sets(line, key) {
      assert line == key + [EQUALS] + line[|key| + 1..];
      SplitOnceIs(key, EQUALS, line[|key| + 1..]);
    }
    if SplitOnce(line, EQUALS).Some? && SplitOnce(line, EQUALS).value.0 == key {
      SplitOnceParts(line, EQUALS);
    }
  }

  /** A key is in the map exactly if some line has it, and its value is the rest of the last such line. */
  lemma {:induction false} LastLineWins(lines: seq<Text>, key: Text)
    ensures key in FromLines(lines) <==> exists i :: 0 <= i < |lines| && Sets(lines[i], key)
    ensures forall i: nat :: LastSets(lines, i, key) ==>
              key in FromLines(lines) && lines[i] == key + [EQUALS] + FromLines(lines)[key]
    decreases |lines|
  {
    hide Sets, SplitOnce;
    if lines != [] {
      var n := |lines| - 1;
      LastLineWins(lines[..n], key);
      SetsIs(lines[n], key);
      assert forall i :: 0 <= i < n ==> lines[..n][i] == lines[i];
      forall i: nat | LastSets(lines, i, key)
        ensures key in FromLines(lines) && lines[i] == key + [EQUALS] + FromLines(lines)[key]
      {
        assert i < n ==> LastSets(lines[..n], i, key);
      }
    }
  }

  /** The map that these lines define, key by key. */
  ghost predicate Defines(lines: seq<Text>, m: StringMap) {
    && (forall key :: key in m <==> exists i :: 0 <= i < |lines| && Sets(lines[i], key))
    && (forall key, i: nat :: LastSets(lines, i, key) ==> key in m && lines[i] == key + [EQUALS] + m[key])
  }

  lemma LinesDefine(lines: seq<Text>)
    ensures Defines(lines, FromLines(lines))
  {
    hide Sets, FromLines;
    forall key
      ensures key in FromLines(lines) <==> exists i :: 0 <= i < |lines| && Sets(lines[i], key)
    {
      LastLineWins(lines, key);
    }
    forall key, i: nat | LastSets(lines, i, key)
      ensures key in FromLines(lines) && lines[i] == key + [EQUALS] + FromLines(lines)[key]
    {
      LastLineWins(lines, key);
    }
  }

  /** The loop of `from_bytes`. */
  method ReadMap(bytes: Text) returns (m: StringMap)
    ensures m == FromBytes(bytes)
    ensures Defines(Split(bytes, NEWLINE), m)
  {
    hide Defines;
    m := map[];
    var lines := Split(bytes, NEWLINE);
    for i := 0 to |lines|
      invariant m == FromLines(lines[..i])
    {
      assert lines[..i + 1][..i] == lines[..i];
      var entry := SplitOnce(lines[i], EQUALS);
      if entry.Some? {
        m := m[entry.value.0 := entry.value.1];
      }
    }
    assert lines[..|lines|] == lines;
    LinesDefine(lines);
  }

  function Line(item: (Text, Text)): Text {
    item.0 + [EQUALS] + item.1
  }

  function Lines(items: seq<(Text, Text)>): (lines: seq<Text>)
    ensures |lines| == |items|
  {
    seq(|items|, i requires 0 <= i < |items| => Line(items[i]))
  }

  /** `to_bytes` when the hash map happens to iterate in the order `items`. */
  function ToBytes(items: seq<(Text, Text)>): Text {
    Join(Lines(items), NEWLINE)
  }

  /** `items` lists every entry of `m` once: an order the hash map may iterate in. */
  ghost predicate Enumerates(items: seq<(Text, Text)>, m: StringMap) {
    && (forall i, j :: 0 <= i < j < |items| ==> items[i].0 != items[j].0)
    && (forall i :: 0 <= i < |items| ==> items[i].0 in m && m[items[i].0] == items[i].1)
    && (forall key :: key in m ==> (key, m[key]) in items)
  }

  predicate CleanEntry(key: Text, value: Text) {
    EQUALS !in key && NEWLINE !in key && NEWLINE !in value
  }

  ghost predicate CleanMap(m: StringMap) {
    forall key :: key in m ==> CleanEntry(key, m[key])
  }

  lemma {:induction false} FromLinesIsClean(lines: seq<Text>)
    requires forall i :: 0 <= i < |lines| ==> NEWLINE !in lines[i]
    ensures CleanMap(FromLines(lines))
  {
    if lines != [] {
      var last := lines[|lines| - 1];
      FromLinesIsClean(lines[..|lines| - 1]);
      if SplitOnce(last, EQUALS).Some? {
        SplitOnceParts(last, EQUALS);
      }
    }
  }

  /** The text is read back entry by entry, whatever the order of the entries. */
  lemma {:induction false} FromLinesOfItems(items: seq<(Text, Text)>)
    requires forall i, j :: 0 <= i < j < |items| ==> items[i].0 != items[j].0
    requires forall i :: 0 <= i < |items| ==> CleanEntry(items[i].0, items[i].1)
    ensures var m := FromLines(Lines(items));
            && (forall i :: 0 <= i < |items| ==> items[i].0 in m && m[items[i].0] == items[i].1)
            && (forall key :: key in m ==> exists i :: 0 <= i < |items| && items[i].0 == key)
  {
    if items != [] {
      var n := |items| - 1;
      FromLinesOfItems(items[..n]);
      assert Lines(items)[..n] == Lines(items[..n]);
      SplitOnceIs(items[n].0, EQUALS, items[n].1);
      assert FromLines(Lines(items)) == FromLines(Lines(items[..n]))[items[n].0 := items[n].1];
      assert items == items[..n] + [items[n]];
    }
  }

  /**
   * Printing a map in any iteration order and reading it back gives the same map exactly when no
   * key holds an equals sign or newline and no value holds a newline.
   */
  lemma RoundTrip(m: StringMap, items: seq<(Text, Text)>)
    requires Enumerates(items, m)
    ensures FromBytes(ToBytes(items)) == m <==> CleanMap(m)
  {
    if CleanMap(m) {
      if items == [] {
        assert m == map[];
        assert Split([], NEWLINE) == [[]];
        assert FromLines([[]]) == map[];
      } else {
        SplitJoin(Lines(items), NEWLINE);
        FromLinesOfItems(items);
        SameEntries(items, m, FromLines(Lines(items)));
      }
    } else {
      FromLinesIsClean(Split(ToBytes(items), NEWLINE));
    }
  }

  lemma SameEntries(items: seq<(Text, Text)>, m: StringMap, m': StringMap)
    requires Enumerates(items, m)
    requires forall i :: 0 <= i < |items| ==> items[i].0 in m' && m'[items[i].0] == items[i].1
    requires forall key :: key in m' ==> exists i :: 0 <= i < |items| && items[i].0 == key
    ensures m == m'
  {
    forall key | key in m
      ensures key in m' && m'[key] == m[key]
    {
      var i :| 0 <= i < |items| && items[i] == (key, m[key]);
    }
    assert forall key :: key in m' ==> key in m;
  }
}
