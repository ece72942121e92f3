/**
 * Which writes of a session are padded (`write_conn` of src/runtime/session.rs): the first ones, up
 * to the first whose number the scheme in force no longer covers, and none after it.
 */
module PaddedWrites {
  import opened Bytes
  import opened Records
  import opened Writers

  /** One call of `write_conn` and what it read from the scheme in force. */
  datatype Write = Write(bytes: seq<byte>, draw: Draw)

  function After(w: WriterState, writes: seq<Write>): (w': WriterState)
    requires w.Valid()
    ensures w'.Valid()
  {
    if writes == [] then w
    else
      var n := |writes| - 1;
      After(w, writes[..n]).AfterWrite(writes[n].bytes, writes[n].draw)
  }

  function AllBytes(writes: seq<Write>): seq<byte> {
    if writes == [] then [] else AllBytes(writes[..|writes| - 1]) + writes[|writes| - 1].bytes
  }

  /** Each of the first `k` writes has a number below the stop of the scheme it found. */
  ghost predicate Covered(writes: seq<Write>, k: nat) {
    forall j :: 0 <= j < k && j < |writes| ==> j + 1 < writes[j].draw.stop
  }

  /** Before the first SYN a client's writes only fill the buffer; they do not count. */
  lemma {:induction false} BufferedWrites(writes: seq<Write>)
    ensures After(InitialWriter(true), writes) == InitialWriter(true).(buffered := AllBytes(writes))
    decreases |writes|
  {
    if writes != [] {
      BufferedWrites(writes[..|writes| - 1]);
    }
  }

  lemma {:induction false} CountedWrites(w: WriterState, writes: seq<Write>)
    requires w.Valid() && !w.buffering && w.sendPadding && w.packetCounter == 0
    ensures var w' := After(w, writes);
            && !w'.buffering && (writes != [] ==> w'.buffered == [])
            && (w'.sendPadding <==> Covered(writes, |writes|))
            && (w'.sendPadding ==> w'.packetCounter == |writes|)
    decreases |writes|
  {
    hide Cuts, Flatten;
    if writes != [] {
      var n := |writes| - 1;
      CountedWrites(w, writes[..n]);
      assert forall j :: 0 <= j < n ==> writes[..n][j] == writes[j];
      assert Covered(writes, |writes|) <==> Covered(writes[..n], n) && n + 1 < writes[n].draw.stop;
    }
  }

  /**
   * A session's writes, some buffered ones first in the case of a client, and then any others, which
   * are numbered from one. Write `k` of the others, number k + 1, is cut by the sizes drawn for it if
   * and only if every one of them up to it has a number below the stop of its scheme; otherwise its
   * payload goes out as it is. The first of them carries what was buffered.
   */
  lemma WhichWritesArePadded(isClient: bool, early: seq<Write>, writes: seq<Write>, k: nat)
    requires (!isClient ==> early == []) && k < |writes|
    ensures After(InitialWriter(isClient), early).wire == []
    ensures var w := After(InitialWriter(isClient), early).(buffering := false);
            var payload := (if k == 0 then AllBytes(early) else []) + writes[k].bytes;
            && (After(w, writes[..k + 1]).wire
                == After(w, writes[..k]).wire +
                   if forall j :: 0 <= j <= k ==> j + 1 < writes[j].draw.stop
                   then Flatten(Cuts(payload, writes[k].draw.sizes).records)
                   else payload)
            && (After(w, writes[..k]).sendPadding ==> After(w, writes[..k]).packetCounter == k)
  {
    hide Cuts, Flatten;
    if isClient {
      BufferedWrites(early);
    }
    var w := After(InitialWriter(isClient), early).(buffering := false);
    CountedWrites(w, writes[..k]);
    CountedWrites(w, writes[..k + 1]);
    assert writes[..k + 1][..k] == writes[..k];
    assert forall j :: 0 <= j <= k ==> writes[..k + 1][j] == writes[j];
    CutsEnd(After(w, writes[..k]).buffered + writes[k].bytes, []);
  }
}
