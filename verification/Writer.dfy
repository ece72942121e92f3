/** The transport writer of src/runtime/session.rs: buffering, padding and the packet counter. */
module Writers {
  import opened Bytes
  import opened Frames
  import opened Paddings
  import opened Records

  /** What one `write_conn` reads from the shared padding factory: its stop and the drawn sizes. */
  datatype Draw = Draw(stop: u32, sizes: seq<int>)

  datatype WriterState = WriterState(
    buffering: bool,
    buffered: seq<byte>,
    sendPadding: bool,
    packetCounter: u32,
    wire: seq<byte>)
  {
    /** Padding turns off for good before the counter could overflow. */
    predicate Valid() {
      sendPadding ==> packetCounter < 0xFFFF_FFFF
    }

    predicate Pads(stop: u32)
      requires Valid()
    {
      sendPadding && packetCounter + 1 < stop
    }

    /** The records of one `write_conn` that is not buffered. */
    function Cutting(bytes: seq<byte>, draw: Draw): Records.Cutting
      requires Valid()
    {
      Cuts(buffered + bytes, if Pads(draw.stop) then draw.sizes else [])
    }

    /** The bytes one `write_conn` puts on the transport when the transport does not fail. */
    function Output(bytes: seq<byte>, draw: Draw): seq<byte>
      requires Valid()
    {
      if buffering then [] else Flatten(Cutting(bytes, draw).records)
    }

    /** The write fails by itself. */
    predicate Panics(bytes: seq<byte>, draw: Draw)
      requires Valid()
    {
      !buffering && Cutting(bytes, draw).panics
    }

    function AfterWrite(bytes: seq<byte>, draw: Draw): (w: WriterState)
      requires Valid()
      ensures w.Valid()
      ensures w.wire == wire + Output(bytes, draw)
    {
      if buffering then this.(buffered := buffered + bytes)
      else WriterState(
             false,
             [],
             Pads(draw.stop),
             if sendPadding then packetCounter + 1 else packetCounter,
             wire + Output(bytes, draw))
    }
  }

  /** The state a new session's writer starts in. */
  function InitialWriter(isClient: bool): (w: WriterState)
    ensures w.Valid()
  {
    WriterState(isClient, [], true, 0, [])
  }

  /** A transport that may fail, time out or be dropped inside any write. */
  class Sink {
    var log: seq<byte>

    constructor ()
      ensures log == []
    {
      log := [];
    }

    /** `write_all`: either all bytes, or some prefix of them and a failure. */
    method WriteAll(bytes: seq<byte>) returns (ok: bool)
      modifies this
      ensures old(log) <= log <= old(log) + bytes
      ensures ok ==> log == old(log) + bytes
    {
      var k: nat :| k <= |bytes|;
      log := log + bytes[..k];
      ok := k == |bytes|;
    }
  }

  class Writer {
    const transport: Sink
    var buffering: bool
    var buffered: seq<byte>
    var sendPadding: bool
    var packetCounter: u32

    constructor (isClient: bool)
      ensures fresh(transport)
      ensures State() == InitialWriter(isClient)
    {
      transport := new Sink();
      buffering := isClient;
      buffered := [];
      sendPadding := true;
      packetCounter := 0;
    }

    ghost function State(): WriterState
      reads this, transport
    {
      WriterState(buffering, buffered, sendPadding, packetCounter, transport.log)
    }

    /**
     * `write_conn`, for every scheme. On success the writer is exactly in the state `AfterWrite`
     * gives; a failure, of the transport or for an impossible size, leaves on the transport a prefix
     * of what was to be written.
     */
    method WriteConn(bytes: seq<byte>, factory: PaddingFactory) returns (ok: bool, ghost draw: Draw)
      requires State().Valid()
      modifies this, transport
      ensures draw.stop == factory.stop
      ensures !old(buffering) && old(sendPadding) && old(packetCounter) + 1 < factory.stop ==>
                MayGenerate(factory, old(packetCounter) + 1, draw.sizes)
      ensures ok ==> State() == old(State()).AfterWrite(bytes, draw)
      ensures old(State()).Panics(bytes, draw) ==> !ok
      ensures old(transport.log) <= transport.log <= old(transport.log) + old(State()).Output(bytes, draw)
    {
      hide Cuts, Flatten, MayGenerate;
      draw := Draw(factory.stop, []);
      if buffering {
        buffered := buffered + bytes;
        return true, draw;
      }
      var payload := bytes;
      if buffered != [] {
        payload := buffered + bytes;
        buffered := [];
      }
      assert payload == old(buffered) + bytes;
      var sizes: seq<int> := [];
      if sendPadding {
        packetCounter := packetCounter + 1;
        if packetCounter < factory.stop {
          sizes := GenerateRecordPayloadSizes(factory, packetCounter);
          draw := Draw(factory.stop, sizes);
        } else {
          sendPadding := false;
        }
      }
      ok := WriteRecords(payload, sizes);
    }

    /** The loop over the record sizes and the write of the remainder. */
    method WriteRecords(payload: seq<byte>, sizes: seq<int>) returns (ok: bool)
      modifies transport
      ensures old(transport.log) <= transport.log <= old(transport.log) + Flatten(Cuts(payload, sizes).records)
      ensures ok ==> transport.log == old(transport.log) + Flatten(Cuts(payload, sizes).records)
      ensures Cuts(payload, sizes).panics ==> !ok
    {
      hide Cuts;
      var bytes := payload;
      var i := 0;
      ghost var whole := transport.log + Flatten(Cuts(payload, sizes).records);
      while i < |sizes|
        invariant 0 <= i <= |sizes|
        invariant old(transport.log) <= transport.log
        invariant transport.log + Flatten(Cuts(bytes, sizes[i..]).records) == whole
        invariant Cuts(bytes, sizes[i..]).panics == Cuts(payload, sizes).panics
      {
        CutsStep(bytes, sizes, i);
        if sizes[i] == CHECK_MARK {
          if bytes == [] {
            break;
          }
          i := i + 1;
          continue;
        }
        var record: seq<byte>;
        ghost var before := transport.log;
        if sizes[i] < 0 {
          if bytes != [] || HEADER_OVERHEAD_SIZE + sizes[i] < 0 {
            return false;
          }
          record := ShortWaste(sizes[i]);
        } else if |bytes| > sizes[i] {
          record := bytes[..sizes[i]];
          bytes := bytes[sizes[i]..];
        } else if bytes != [] {
          var padding := PaddingLength(|bytes|, sizes[i]);
          record := bytes;
          if padding > 0 {
            record := record + WasteRecord(padding);
          }
          bytes := [];
        } else {
          record := WasteRecord(sizes[i]);
        }
        i := i + 1;
        PrefixOfWhole(before, record, Flatten(Cuts(bytes, sizes[i..]).records), whole);
        ok := transport.WriteAll(record);
        if !ok {
          return false;
        }
      }
      CutsEnd(bytes, sizes[i..]);
      if bytes != [] {
        ok := transport.WriteAll(bytes);
      } else {
        ok := true;
      }
    }
  }

  /** One turn of the loop: the next record and what is then still to be written. */
  lemma CutsStep(bytes: seq<byte>, sizes: seq<int>, i: nat)
    requires i < |sizes|
    ensures var now, size := Cuts(bytes, sizes[i..]), sizes[i];
            if size == CHECK_MARK then bytes != [] ==> now == Cuts(bytes, sizes[i + 1..])
            else if size < 0 && (bytes != [] || HEADER_OVERHEAD_SIZE + size < 0) then now == Cutting([], true)
            else
              var padding := if size < 0 then 0 else PaddingLength(|bytes|, size);
              var record := if size < 0 then ShortWaste(size)
                            else if |bytes| > size then bytes[..size]
                            else if bytes == [] then WasteRecord(size)
                            else if padding > 0 then bytes + WasteRecord(padding)
                            else bytes;
              var later := Cuts(if 0 <= size < |bytes| then bytes[size..] else [], sizes[i + 1..]);
              Flatten(now.records) == record + Flatten(later.records) && now.panics == later.panics
  {
    hide Flatten, WasteRecord, WasteBytes, ShortWaste;
    assert sizes[i..][1..] == sizes[i + 1..];
    var size := sizes[i];
    if size != CHECK_MARK && size < 0 && bytes == [] && HEADER_OVERHEAD_SIZE + size >= 0 {
      FlattenCons(ShortWaste(size), Cuts([], sizes[i + 1..]).records);
    } else if 0 <= size < |bytes| {
      FlattenCons(bytes[..size], Cuts(bytes[size..], sizes[i + 1..]).records);
    } else if size >= 0 {
      FillerBytes(bytes, size);
      FlattenCons(bytes + WasteBytes(Filler(|bytes|, size)), Cuts([], sizes[i + 1..]).records);
    }
  }

  lemma FillerBytes(bytes: seq<byte>, size: nat)
    ensures var record := bytes + WasteBytes(Filler(|bytes|, size));
            record == if bytes == [] then WasteRecord(size)
                      else if PaddingLength(|bytes|, size) > 0 then bytes + WasteRecord(PaddingLength(|bytes|, size))
                      else bytes
  {
    if Filler(|bytes|, size) != [] {
      WasteBytesOne(Filler(|bytes|, size)[0]);
    }
  }

  lemma CutsEnd(bytes: seq<byte>, sizes: seq<int>)
    requires sizes == [] || (sizes[0] == CHECK_MARK && bytes == [])
    ensures Flatten(Cuts(bytes, sizes).records) == bytes && !Cuts(bytes, sizes).panics
  {
    FlattenSingle(bytes);
  }

  lemma PrefixOfWhole(log: seq<byte>, record: seq<byte>, later: seq<byte>, whole: seq<byte>)
    requires log + (record + later) == whole
    ensures log + record <= whole
    ensures log + record + later == whole
  {
    assert log + (record + later) == log + record + later;
  }
}
