/**
 * How one write is cut and padded into transport records (`Writer::write_conn` of
 * src/runtime/session.rs), and how long those records are.
 */
module Records {
  import opened Bytes
  import opened Frames
  import opened Paddings

  /** A check mark or a non-negative size: what a cast that did not wrap leaves. */
  ghost predicate ValidSizes(sizes: seq<int>) {
    forall i :: 0 <= i < |sizes| ==> sizes[i] >= CHECK_MARK
  }

  /** A Waste header whose length field is cut to 16 bits, and `n` zero bytes. */
  function WasteRecord(n: nat): (record: seq<byte>)
    ensures |record| == HEADER_OVERHEAD_SIZE + n
  {
    Header(Waste, 0, TruncateToU16(n)) + Zeros(n)
  }

  /** The padding that fills a record of the given size after `length` payload bytes. */
  function PaddingLength(length: nat, size: nat): nat {
    if size > length + HEADER_OVERHEAD_SIZE then size - length - HEADER_OVERHEAD_SIZE else 0
  }

  /** The lengths of the Waste frames that fill up one record: none or one. */
  function Filler(length: nat, size: nat): seq<nat> {
    if length == 0 then [size]
    else if PaddingLength(length, size) > 0 then [PaddingLength(length, size)]
    else []
  }

  function WasteBytes(lengths: seq<nat>): seq<byte> {
    if lengths == [] then [] else WasteRecord(lengths[0]) + WasteBytes(lengths[1..])
  }

  /** The records written for a payload under a list of sizes; what remains is one last record. */
  function Split(payload: seq<byte>, sizes: seq<int>): seq<seq<byte>>
    requires ValidSizes(sizes)
    decreases |sizes|
  {
    if sizes == [] then
      if payload == [] then [] else [payload]
    else if sizes[0] == CHECK_MARK then
      if payload == [] then [] else Split(payload, sizes[1..])
    else if |payload| > sizes[0] then
      [payload[..sizes[0]]] + Split(payload[sizes[0]..], sizes[1..])
    else
      [payload + WasteBytes(Filler(|payload|, sizes[0]))] + Split([], sizes[1..])
  }

  /** The records a write comes to, and whether it then fails for a size that no buffer can have. */
  datatype Cutting = Cutting(records: seq<seq<byte>>, panics: bool)

  const USIZE_RANGE: int := 0x1_0000_0000_0000_0000

  /** A negative size from -7 up wraps around when the header is added, and cuts the header short. */
  function ShortWaste(size: int): (record: seq<byte>)
    requires HEADER_OVERHEAD_SIZE + size >= 0 && size < 0
    ensures |record| == HEADER_OVERHEAD_SIZE + size
  {
    Header(Waste, 0, TruncateToU16(USIZE_RANGE + size))[..HEADER_OVERHEAD_SIZE + size]
  }

  function Before(record: seq<byte>, later: Cutting): Cutting {
    Cutting([record] + later.records, later.panics)
  }

  /**
   * The records for any sizes at all. A size that the cast to 32 bits made negative is huge as an
   * unsigned number: no payload is longer, and the padding for it cannot be allocated.
   */
  function Cuts(payload: seq<byte>, sizes: seq<int>): Cutting
    decreases |sizes|
  {
    if sizes == [] then
      Cutting(if payload == [] then [] else [payload], false)
    else if sizes[0] == CHECK_MARK then
      if payload == [] then Cutting([], false) else Cuts(payload, sizes[1..])
    else if sizes[0] < 0 then
      if payload == [] && HEADER_OVERHEAD_SIZE + sizes[0] >= 0 then Before(ShortWaste(sizes[0]), Cuts([], sizes[1..]))
      else Cutting([], true)
    else if |payload| > sizes[0] then
      Before(payload[..sizes[0]], Cuts(payload[sizes[0]..], sizes[1..]))
    else
      Before(payload + WasteBytes(Filler(|payload|, sizes[0])), Cuts([], sizes[1..]))
  }

  /** Without negative sizes nothing fails, and the records are those of `Split`. */
  lemma {:induction false} CutsIsSplit(payload: seq<byte>, sizes: seq<int>)
    requires ValidSizes(sizes)
    ensures Cuts(payload, sizes) == Cutting(Split(payload, sizes), false)
    decreases |sizes|
  {
    hide WasteBytes, Filler;
    if sizes != [] {
      CutsIsSplit(payload, sizes[1..]);
      CutsIsSplit([], sizes[1..]);
      if sizes[0] >= 0 && |payload| > sizes[0] {
        CutsIsSplit(payload[sizes[0]..], sizes[1..]);
      }
    }
  }

  /** The lengths of the Waste frames that a payload of the given length is followed by. */
  function WasteLengths(length: nat, sizes: seq<int>): seq<nat>
    requires ValidSizes(sizes)
    decreases |sizes|
  {
    if sizes == [] then []
    else if sizes[0] == CHECK_MARK then
      if length == 0 then [] else WasteLengths(length, sizes[1..])
    else if length > sizes[0] then WasteLengths(length - sizes[0], sizes[1..])
    else Filler(length, sizes[0]) + WasteLengths(0, sizes[1..])
  }

  lemma WasteBytesOne(n: nat)
    ensures WasteBytes([n]) == WasteRecord(n)
  {
    assert [n][1..] == [];
  }

  lemma {:induction false} WasteBytesAppend(a: seq<nat>, b: seq<nat>)
    ensures WasteBytes(a + b) == WasteBytes(a) + WasteBytes(b)
  {
    if a == [] {
      assert a + b == b;
    } else {
      assert (a + b)[1..] == a[1..] + b;
      WasteBytesAppend(a[1..], b);
    }
  }

  /** Cutting never reorders or loses payload: all padding comes after its last byte. */
  lemma {:induction false} PayloadThenWaste(payload: seq<byte>, sizes: seq<int>)
    requires ValidSizes(sizes)
    ensures Flatten(Split(payload, sizes)) == payload + WasteBytes(WasteLengths(|payload|, sizes))
    decreases |sizes|
  {
    hide Flatten, Filler, WasteRecord, WasteBytes;
    if sizes == [] || (sizes[0] == CHECK_MARK && payload == []) {
      LastRecord(payload);
    } else if sizes[0] == CHECK_MARK {
      PayloadThenWaste(payload, sizes[1..]);
    } else if |payload| > sizes[0] {
      var taken, left := payload[..sizes[0]], payload[sizes[0]..];
      PayloadThenWaste(left, sizes[1..]);
      FlattenCons(taken, Split(left, sizes[1..]));
      assert payload == taken + left;
    } else {
      var filler, later := Filler(|payload|, sizes[0]), WasteLengths(0, sizes[1..]);
      PayloadThenWaste([], sizes[1..]);
      FlattenCons(payload + WasteBytes(filler), Split([], sizes[1..]));
      WasteBytesAppend(filler, later);
    }
  }

  lemma LastRecord(payload: seq<byte>)
    ensures Flatten(if payload == [] then [] else [payload]) == payload + WasteBytes([])
  {
    FlattenSingle(payload);
  }

  /** The sizes of a list without its check marks. */
  function RealSizes(sizes: seq<int>): seq<nat>
    requires ValidSizes(sizes)
  {
    if sizes == [] then []
    else if sizes[0] == CHECK_MARK then RealSizes(sizes[1..])
    else [sizes[0]] + RealSizes(sizes[1..])
  }

  function Sum(ns: seq<nat>): nat {
    if ns == [] then 0 else ns[0] + Sum(ns[1..])
  }

  function Monus(a: nat, b: nat): nat {
    if a > b then a - b else 0
  }

  /**
   * The length of a record for one size when `left` payload bytes remain: the size itself while
   * payload exceeds it or can be padded to it, what remains when a Waste header does not fit, and
   * a header more than the size once the payload is gone.
   */
  function RecordLength(left: nat, size: nat): (length: nat)
    ensures left > size ==> length == size
    ensures 0 < left <= size ==> size - HEADER_OVERHEAD_SIZE <= length <= size
    ensures left == 0 ==> length == size + HEADER_OVERHEAD_SIZE
  {
    if left > size then size
    else if left == 0 then size + HEADER_OVERHEAD_SIZE
    else if left + HEADER_OVERHEAD_SIZE < size then size
    else left
  }

  /** The records of one write follow the list of sizes, up to `stop`, as `Profile` says. */
  ghost predicate Profile(payload: seq<byte>, sizes: seq<int>, stop: nat)
    requires ValidSizes(sizes) && stop <= |sizes|
  {
    var records := Split(payload, sizes);
    var wanted := RealSizes(sizes[..stop]);
    && |records| == |wanted| + (if |payload| > Sum(wanted) then 1 else 0)
    && (forall i :: 0 <= i < |wanted| ==>
          |records[i]| == RecordLength(Monus(|payload|, Sum(wanted[..i])), wanted[i]))
    && (|payload| > Sum(wanted) ==> records[|wanted|] == payload[Sum(wanted)..])
  }

  /** `stop` is the first check mark reached with no payload left, or the end of the list. */
  ghost predicate StopsAt(length: nat, sizes: seq<int>, stop: nat)
    requires ValidSizes(sizes)
  {
    && stop <= |sizes|
    && (stop < |sizes| ==> sizes[stop] == CHECK_MARK && length <= Sum(RealSizes(sizes[..stop])))
    && (forall j :: 0 <= j < stop && sizes[j] == CHECK_MARK ==> length > Sum(RealSizes(sizes[..j])))
  }

  /**
   * The record-size profile: one record for each size, of the length `RecordLength` gives, until
   * a check mark finds no payload left; a remainder after all sizes is one last record.
   */
  lemma {:induction false} RecordProfile(payload: seq<byte>, sizes: seq<int>) returns (stop: nat)
    requires ValidSizes(sizes)
    ensures StopsAt(|payload|, sizes, stop)
    ensures Profile(payload, sizes, stop)
    decreases |sizes|
  {
    hide Profile, StopsAt, Split;
    if sizes == [] || (sizes[0] == CHECK_MARK && payload == []) {
      stop := 0;
      ProfileBase(payload, sizes);
    } else if sizes[0] == CHECK_MARK {
      var later := RecordProfile(payload, sizes[1..]);
      stop := later + 1;
      ProfileCheck(payload, sizes, later);
    } else {
      var left := if |payload| > sizes[0] then payload[sizes[0]..] else [];
      var later := RecordProfile(left, sizes[1..]);
      stop := later + 1;
      ProfileStops(payload, left, sizes, later);
      ProfileSize(payload, left, sizes, later);
    }
  }

  lemma ProfileBase(payload: seq<byte>, sizes: seq<int>)
    requires ValidSizes(sizes)
    requires sizes == [] || (sizes[0] == CHECK_MARK && payload == [])
    ensures StopsAt(|payload|, sizes, 0) && Profile(payload, sizes, 0)
  {
  }

  lemma RealSizesCons(size: int, sizes: seq<int>)
    requires size >= CHECK_MARK && ValidSizes(sizes)
    ensures ValidSizes([size] + sizes)
    ensures RealSizes([size] + sizes)
         == if size == CHECK_MARK then RealSizes(sizes) else [size] + RealSizes(sizes)
  {
    assert ([size] + sizes)[1..] == sizes;
  }

  lemma SumCons(n: nat, ns: seq<nat>)
    ensures Sum([n] + ns) == n + Sum(ns)
  {
    assert ([n] + ns)[1..] == ns;
  }

  /** The sum of the wanted sizes of a prefix, one size further. */
  lemma PrefixSum(sizes: seq<int>, j: nat)
    requires ValidSizes(sizes) && 0 < j <= |sizes|
    ensures RealSizes(sizes[..j])
         == if sizes[0] == CHECK_MARK then RealSizes(sizes[1..][..j - 1])
            else [sizes[0]] + RealSizes(sizes[1..][..j - 1])
    ensures Sum(RealSizes(sizes[..j]))
         == Sum(RealSizes(sizes[1..][..j - 1])) + if sizes[0] == CHECK_MARK then 0 else sizes[0]
  {
    var rest := sizes[1..][..j - 1];
    assert sizes[..j] == [sizes[0]] + rest;
    RealSizesCons(sizes[0], rest);
    if sizes[0] != CHECK_MARK {
      SumCons(sizes[0], RealSizes(rest));
    }
  }

  lemma ProfileCheck(payload: seq<byte>, sizes: seq<int>, later: nat)
    requires ValidSizes(sizes) && sizes != [] && sizes[0] == CHECK_MARK && payload != []
    requires StopsAt(|payload|, sizes[1..], later) && Profile(payload, sizes[1..], later)
    ensures StopsAt(|payload|, sizes, later + 1) && Profile(payload, sizes, later + 1)
  {
    forall j | 0 < j <= later + 1
      ensures RealSizes(sizes[..j]) == RealSizes(sizes[1..][..j - 1])
    {
      PrefixSum(sizes, j);
    }
    assert Split(payload, sizes) == Split(payload, sizes[1..]);
    assert RealSizes(sizes[..0]) == [];
  }

  lemma ProfileStops(payload: seq<byte>, left: seq<byte>, sizes: seq<int>, later: nat)
    requires ValidSizes(sizes) && sizes != [] && sizes[0] != CHECK_MARK
    requires left == if |payload| > sizes[0] then payload[sizes[0]..] else []
    requires StopsAt(|left|, sizes[1..], later)
    ensures StopsAt(|payload|, sizes, later + 1)
  {
    forall j | 0 < j <= later + 1
      ensures Sum(RealSizes(sizes[..j])) == Sum(RealSizes(sizes[1..][..j - 1])) + sizes[0]
    {
      PrefixSum(sizes, j);
    }
  }

  lemma ProfileSize(payload: seq<byte>, left: seq<byte>, sizes: seq<int>, later: nat)
    requires ValidSizes(sizes) && sizes != [] && sizes[0] != CHECK_MARK && later < |sizes|
    requires left == if |payload| > sizes[0] then payload[sizes[0]..] else []
    requires Profile(left, sizes[1..], later)
    ensures Profile(payload, sizes, later + 1)
  {
    hide Split, RealSizes, Sum, RecordLength;
    var size := sizes[0];
    var wanted, rest := RealSizes(sizes[..later + 1]), RealSizes(sizes[1..][..later]);
    PrefixSum(sizes, later + 1);
    assert wanted == [size] + rest;
    var records := Split(payload, sizes);
    FirstRecord(payload, left, sizes);
    forall i | 0 <= i < |wanted|
      ensures |records[i]| == RecordLength(Monus(|payload|, Sum(wanted[..i])), wanted[i])
    {
      if i > 0 {
        assert wanted[..i] == [size] + rest[..i - 1];
        SumCons(size, rest[..i - 1]);
        assert records[i] == Split(left, sizes[1..])[i - 1];
      } else {
        assert wanted[..0] == [];
        NoSum();
      }
    }
  }

  lemma NoSum()
    ensures Sum([]) == 0
  {
  }

  lemma FirstRecord(payload: seq<byte>, left: seq<byte>, sizes: seq<int>)
    requires ValidSizes(sizes) && sizes != [] && sizes[0] != CHECK_MARK
    requires left == if |payload| > sizes[0] then payload[sizes[0]..] else []
    ensures var records := Split(payload, sizes);
            && records != []
            && records[1..] == Split(left, sizes[1..])
            && |records[0]| == RecordLength(|payload|, sizes[0])
  {
    if |payload| <= sizes[0] && Filler(|payload|, sizes[0]) != [] {
      WasteBytesOne(Filler(|payload|, sizes[0])[0]);
    }
  }

  /**
   * A size below the check mark that is reached with payload left makes the write fail, after
   * exactly the part of the payload that the sizes before it cover.
   */
  lemma {:induction false} ImpossibleSizeFails(payload: seq<byte>, good: seq<int>, bad: int, rest: seq<int>)
    requires ValidSizes(good) && bad < CHECK_MARK && |payload| > Sum(RealSizes(good))
    ensures var cutting := Cuts(payload, good + [bad] + rest);
            cutting.panics && Flatten(cutting.records) == payload[..Sum(RealSizes(good))]
    decreases |good|
  {
    var sizes := good + [bad] + rest;
    if good == [] {
      assert sizes[0] == bad;
    } else {
      assert sizes[1..] == good[1..] + [bad] + rest;
      if good[0] == CHECK_MARK {
        ImpossibleSizeFails(payload, good[1..], bad, rest);
      } else {
        assert Sum(RealSizes(good)) == good[0] + Sum(RealSizes(good[1..])) by {
          SumCons(good[0], RealSizes(good[1..]));
        }
        ImpossibleSizeFails(payload[good[0]..], good[1..], bad, rest);
        FlattenCons(payload[..good[0]], Cuts(payload[good[0]..], sizes[1..]).records);
      }
    }
  }
}
