/**
 * One direction of a byte pipe, state by state: the sender's writer on one end, the receiver's
 * session on the other, and what their invariants say of the payload in between.
 */
module EndToEnd {
  import opened Bytes
  import opened Frames
  import opened StreamInvariants
  import opened WriterTasks
  import opened WireOrder
  import opened SynOrder
  import opened StreamOrigins
  import Inbound
  import Sessions

  // ---- payload of frames and of requests ----

  lemma {:induction false} PushPayloadAppend(a: seq<Frame>, b: seq<Frame>, id: u32)
    ensures PushPayload(a + b, id) == PushPayload(a, id) + PushPayload(b, id)
  {
    hide PushPayload;
    NoPayload([], id);
    if b == [] {
      assert a + b == a;
    } else {
      var n := |b| - 1;
      PushPayloadAppend(a, b[..n], id);
      assert b == b[..n] + [b[n]] && a + b == (a + b[..n]) + [b[n]];
      PushPayloadSnoc(b[..n], b[n], id);
      PushPayloadSnoc(a + b[..n], b[n], id);
    }
  }

  lemma PushPayloadPrefix(a: seq<Frame>, b: seq<Frame>, id: u32)
    requires a <= b
    ensures PushPayload(a, id) <= PushPayload(b, id)
  {
    assert b == a + b[|a|..];
    PushPayloadAppend(a, b[|a|..], id);
  }

  lemma {:induction false} PushPayloadDropWaste(fs: seq<Frame>, id: u32)
    ensures PushPayload(DropWaste(fs), id) == PushPayload(fs, id)
  {
    if fs != [] {
      var n := |fs| - 1;
      assert fs == fs[..n] + [fs[n]];
      DropWasteAppend(fs[..n], [fs[n]]);
      PushPayloadDropWaste(fs[..n], id);
      PushPayloadAppend(DropWaste(fs[..n]), DropWaste([fs[n]]), id);
      OneDropWaste(fs[n], id);
    }
  }

  lemma OneDropWaste(f: Frame, id: u32)
    ensures PushPayload(DropWaste([f]), id) == if f.command == Push && f.streamId == id then f.data else []
    ensures f.command != Waste ==> DropWaste([f]) == [f]
  {
    assert [f][1..] == [];
    assert DropWaste([f]) == if f.command == Waste then [] else [f];
    assert [f][..0] == [];
  }

  function RequestFrames(rs: seq<Request>): (fs: seq<Frame>)
    ensures |fs| == |rs| && forall i :: 0 <= i < |fs| ==> fs[i] == rs[i].frame
  {
    seq(|rs|, i requires 0 <= i < |rs| => rs[i].frame)
  }

  /** The bytes the application wrote to a stream: the payload of its write requests in order. */
  function Sent(w: TaskState, id: u32): seq<byte> {
    PushPayload(RequestFrames(w.dataSent), id)
  }

  /** Payload travels in the data queue alone, so its order on the wire is that of the queue. */
  lemma {:induction false} TakenPayload(taken: seq<Taken>, id: u32)
    requires forall t :: t in taken ==> Sendable(t.queue, t.request)
    ensures PushPayload(FramesOf(taken), id) == PushPayload(RequestFrames(From(Data, taken)), id)
  {
    hide Sendable, From, PushPayload;
    if taken == [] {
      assert From(Data, []) == [] by { FromNothing(); }
      assert FramesOf(taken) == RequestFrames([]);
    } else {
      var n := |taken| - 1;
      var t := taken[n];
      TakenPayload(taken[..n], id);
      assert taken == taken[..n] + [t];
      FromSnoc(Data, taken[..n], t);
      assert FramesOf(taken) == FramesOf(taken[..n]) + [t.request.frame];
      PushPayloadSnoc(FramesOf(taken[..n]), t.request.frame, id);
      assert t in taken;
      PushIsData(t);
      if t.queue == Data {
        assert RequestFrames(From(Data, taken)) == RequestFrames(From(Data, taken[..n])) + [t.request.frame];
        PushPayloadSnoc(RequestFrames(From(Data, taken[..n])), t.request.frame, id);
      } else {
        assert From(Data, taken) == From(Data, taken[..n]);
        assert PushPayload(FramesOf(taken), id) == PushPayload(FramesOf(taken[..n]), id);
      }
    }
  }

  lemma FromNothing()
    ensures From(Data, []) == []
  {
  }

  lemma PushIsData(t: Taken)
    requires Sendable(t.queue, t.request)
    ensures t.request.frame.command == Push ==> t.queue == Data
  {
  }

  // ---- the pipe ----

  /** The receive loop has handled some of the frames that the bytes it got decode to. */
  ghost predicate Piped(w: TaskState, handled: seq<Frame>) {
    exists k: nat :: k <= |w.writer.wire| && handled <= Decode(w.writer.wire[..k]).frames
  }

  /** The sender's side: the invariant of its writer, with padding that stays in step. */
  ghost predicate Sending(w: TaskState) {
    WireOrder.Inv(w) && w.aligned
  }

  /** What the receive loop handled, Waste aside, is a prefix of the requests the sender took. */
  lemma HandledIsTaken(w: TaskState, handled: seq<Frame>)
    requires Sending(w) && Piped(w, handled)
    ensures DropWaste(handled) <= FramesOf(w.taken)
  {
    hide Decode, DropWaste, GoodRequests, Merged, ControlFirst, Buffered, CleanPrefix;
    var k: nat :| k <= |w.writer.wire| && handled <= Decode(w.writer.wire[..k]).frames;
    CleanPrefixDecodes(w.writer.wire, FramesOf(w.taken), k);
    var all := Decode(w.writer.wire[..k]).frames;
    DropWasteOfPrefix(all, |handled|);
    assert all[..|handled|] == handled;
  }

  /** Frame `j` of the receiver is request `n` of the sender, and the payload before it agrees. */
  lemma MatchFrame(w: TaskState, handled: seq<Frame>, j: nat, id: u32) returns (n: nat)
    requires Sending(w) && Piped(w, handled) && j < |handled| && handled[j].command != Waste
    ensures n < |w.taken| && w.taken[n].request.frame == handled[j]
    ensures DropWaste(handled[..j]) == FramesOf(w.taken)[..n]
    ensures PushPayload(handled[..j], id) == PushPayload(FramesOf(w.taken)[..n], id)
  {
    hide DropWaste, Sending, Piped, PushPayload;
    HandledIsTaken(w, handled);
    var front := handled[..j + 1];
    DropWasteOfPrefix(handled, j + 1);
    assert front == handled[..j] + [handled[j]];
    DropWasteAppend(handled[..j], [handled[j]]);
    OneDropWaste(handled[j], id);
    n := |DropWaste(handled[..j])|;
    assert FramesOf(w.taken)[n] == handled[j];
    PushPayloadDropWaste(handled[..j], id);
  }

  /** Two handled frames are two requests, in the same order. */
  lemma MatchTwo(w: TaskState, handled: seq<Frame>, i: nat, j: nat) returns (m: nat, n: nat)
    requires Sending(w) && Piped(w, handled)
    requires i < j < |handled| && handled[i].command != Waste && handled[j].command != Waste
    ensures m < n < |w.taken| && w.taken[m].request.frame == handled[i] && w.taken[n].request.frame == handled[j]
  {
    hide DropWaste, Sending, Piped, PushPayload;
    m := MatchFrame(w, handled, i, 0);
    n := MatchFrame(w, handled, j, 0);
    assert handled[..j] == handled[..i + 1] + handled[i + 1..j];
    DropWasteAppend(handled[..i + 1], handled[i + 1..j]);
    assert handled[..i + 1] == handled[..i] + [handled[i]];
    DropWasteAppend(handled[..i], [handled[i]]);
    OneDropWaste(handled[i], 0);
  }

  // ---- what was read is a prefix of what was written ----

  /** No payload for the id was handled before the stream was opened. */
  ghost predicate Unused(handled: seq<Frame>, n: nat, id: u32) {
    n <= |handled| && PushPayload(handled[..n], id) == []
  }

  /** Everything the receive loop got for the id is a prefix of what the sender wrote to it. */
  lemma HandledPayloadIsSent(w: TaskState, handled: seq<Frame>, id: u32)
    requires Sending(w) && Piped(w, handled)
    ensures PushPayload(handled, id) <= Sent(w, id)
  {
    hide Piped, DropWaste, PushPayload, Wired, Buffered, ControlFirst, From, Sendable;
    HandledIsTaken(w, handled);
    PushPayloadDropWaste(handled, id);
    PushPayloadPrefix(DropWaste(handled), FramesOf(w.taken), id);
    TakenPayload(w.taken, id);
    assert RequestFrames(From(Data, w.taken)) <= RequestFrames(w.dataSent);
    PushPayloadPrefix(RequestFrames(From(Data, w.taken)), RequestFrames(w.dataSent), id);
  }

  /** The receiver's side: the invariant of its session and the origin of its streams. */
  ghost predicate Getting(r: Sessions.Session) {
    StreamInvariants.Inv(r) && Origins(r)
  }

  lemma ReadIsPrefix(w: TaskState, r: Sessions.Session, key: nat)
    requires Sending(w) && Getting(r) && Piped(w, r.handled) && key < |r.streams|
    requires !r.streams[key].skipped && Unused(r.handled, r.streams[key].openedAt, r.streams[key].id)
    ensures r.streams[key].delivered <= Sent(w, r.streams[key].id)
  {
    hide Sending, StreamInvariants.Inv, Piped, PushPayload, Sent, FinAt;
    var st := r.streams[key];
    StreamFacts(r, key);
    assert Origin(st, r.handled, r.isClient, r.closed);
    HandledPayloadIsSent(w, r.handled, st.id);
    AllReceived(r.handled, st.openedAt, st.id);
  }

  lemma AllReceived(handled: seq<Frame>, n: nat, id: u32)
    requires Unused(handled, n, id)
    ensures PushPayload(handled[n..], id) == PushPayload(handled, id)
  {
    hide PushPayload;
    assert handled == handled[..n] + handled[n..];
    PushPayloadAppend(handled[..n], handled[n..], id);
  }

  // ---- a stream begins with its SYN ----

  /** The sender's requests hold at most one SYN for the id. */
  ghost predicate OpensOnce(taken: seq<Taken>, id: u32) {
    forall i, j :: 0 <= i < |taken| && 0 <= j < |taken| && IsSyn(taken[i], id) && IsSyn(taken[j], id) ==> i == j
  }

  predicate IsSyn(t: Taken, id: u32) {
    t.request.frame.command == Syn && t.request.frame.streamId == id
  }

  /** A server sees no payload of a stream before the SYN that opens it. */
  lemma ServerUnused(w: TaskState, r: Sessions.Session, key: nat)
    requires Sending(w) && PushesOpened(w) && Getting(r) && !r.isClient
    requires Piped(w, r.handled) && key < |r.streams| && OpensOnce(w.taken, r.streams[key].id)
    ensures Unused(r.handled, r.streams[key].openedAt, r.streams[key].id)
  {
    hide Sending, StreamInvariants.Inv, PushesOpened, Piped, PushPayload, FinAt;
    var st := r.streams[key];
    assert Origin(st, r.handled, r.isClient, r.closed);
    var j := st.openedAt - 1;
    var n := MatchFrame(w, r.handled, j, st.id);
    NoPushBeforeSyn(w, n, st.id);
    assert r.handled[..st.openedAt] == r.handled[..j] + [r.handled[j]];
    PushPayloadSnoc(r.handled[..j], r.handled[j], st.id);
  }

  lemma OnlySyn(taken: seq<Taken>, j: nat, n: nat, id: u32)
    requires j < n < |taken| && IsSyn(taken[n], id) && OpensOnce(taken, id)
    ensures !IsSyn(taken[j], id)
  {
  }

  lemma NoPushBeforeSyn(w: TaskState, n: nat, id: u32)
    requires Sending(w) && PushesOpened(w)
    requires n < |w.taken| && IsSyn(w.taken[n], id) && OpensOnce(w.taken, id)
    ensures PushPayload(FramesOf(w.taken)[..n], id) == []
  {
    hide WireOrder.Inv, PushesOpened, PushPayload, OpensOnce;
    forall i | 0 <= i < n
      ensures !(FramesOf(w.taken)[i].command == Push && FramesOf(w.taken)[i].streamId == id)
    {
      if FramesOf(w.taken)[i].command == Push && FramesOf(w.taken)[i].streamId == id {
        var j := SynBeforePush(w, i);
        OnlySyn(w.taken, j, n, id);
      }
    }
    NoPayload(FramesOf(w.taken)[..n], id);
  }

  lemma {:induction false} NoPayload(fs: seq<Frame>, id: u32)
    requires forall i :: 0 <= i < |fs| ==> !(fs[i].command == Push && fs[i].streamId == id)
    ensures PushPayload(fs, id) == []
  {
    if fs != [] {
      NoPayload(fs[..|fs| - 1], id);
    }
  }

  // ---- an end of stream means everything arrived ----

  /** Request `n` is the FIN that ended the stream, and what came before it on the wire was read. */
  ghost predicate EndedBy(w: TaskState, st: Inbound.Stream, n: nat) {
    && n < |w.taken| && IsFor(w.taken[n].request, Fin, st.id)
    && PushPayload(FramesOf(w.taken)[..n], st.id) <= st.delivered
    && (PushPayload(FramesOf(w.taken)[..n], st.id) == PushPayload(FramesOf(w.taken), st.id) ==>
          st.delivered == PushPayload(FramesOf(w.taken), st.id))
  }

  lemma EofIsEndedBy(w: TaskState, r: Sessions.Session, key: nat) returns (n: nat)
    requires Sending(w) && Getting(r) && Piped(w, r.handled) && key < |r.streams| && r.streams[key].eof
    requires !r.streams[key].skipped && Unused(r.handled, r.streams[key].openedAt, r.streams[key].id)
    ensures EndedBy(w, r.streams[key], n)
  {
    hide Sending, StreamInvariants.Inv, Piped, PushPayload, DropWaste;
    var st := r.streams[key];
    assert Origin(st, r.handled, r.isClient, r.closed);
    EofFacts(r, key);
    StreamFacts(r, key);
    var j: nat :| FinAt(st, r.handled, j);
    n := MatchFrame(w, r.handled, j, st.id);
    UsedLater(r.handled, st.openedAt, j, st.id);
    // what was read is part of what was handled, and that of what was taken
    AllReceived(r.handled, st.openedAt, st.id);
    PushPayloadDropWaste(r.handled, st.id);
    HandledIsTaken(w, r.handled);
    PushPayloadPrefix(DropWaste(r.handled), FramesOf(w.taken), st.id);
  }

  lemma UsedLater(handled: seq<Frame>, n: nat, j: nat, id: u32)
    requires Unused(handled, n, id) && n <= j <= |handled|
    ensures PushPayload(handled[n..j], id) == PushPayload(handled[..j], id)
  {
    hide PushPayload;
    assert handled[..j] == handled[..n] + handled[n..j];
    PushPayloadAppend(handled[..n], handled[n..j], id);
  }

  predicate IsFor(q: Request, command: Command, id: u32) {
    q.frame.command == command && q.frame.streamId == id
  }

  /** No FIN for the id went through the control queue. */
  ghost predicate NoOverload(w: TaskState, id: u32) {
    forall i :: 0 <= i < |w.controlSent| ==> !IsFor(w.controlSent[i], Fin, id)
  }

  /** No payload for the id was sent after a FIN for it. */
  ghost predicate FinLast(sent: seq<Request>, id: u32) {
    forall i, j :: 0 <= i < j < |sent| && IsFor(sent[i], Fin, id) ==> !IsFor(sent[j], Push, id)
  }

  lemma EofMeansAllSent(w: TaskState, r: Sessions.Session, key: nat)
    requires Sending(w) && Getting(r) && Piped(w, r.handled) && key < |r.streams| && r.streams[key].eof
    requires !r.streams[key].skipped && Unused(r.handled, r.streams[key].openedAt, r.streams[key].id)
    requires NoOverload(w, r.streams[key].id) && FinLast(w.dataSent, r.streams[key].id)
    ensures r.streams[key].delivered == Sent(w, r.streams[key].id)
  {
    hide Sending, Getting, Piped, PushPayload, NoOverload, FinLast, Unused;
    var id := r.streams[key].id;
    var n := EofIsEndedBy(w, r, key);
    FinEndsPayload(w, n, id);
    ReadIsPrefix(w, r, key);
  }

  /** What precedes such a FIN on the wire is all that was written. */
  lemma FinEndsPayload(w: TaskState, n: nat, id: u32)
    requires Sending(w) && NoOverload(w, id) && FinLast(w.dataSent, id)
    requires n < |w.taken| && IsFor(w.taken[n].request, Fin, id)
    ensures PushPayload(FramesOf(w.taken)[..n], id) == Sent(w, id)
  {
    hide PushPayload, Wired, Buffered, ControlFirst, From, Sendable;
    var front := w.taken[..n];
    assert FramesOf(w.taken)[..n] == FramesOf(front);
    assert forall t :: t in front ==> t in w.taken;
    TakenPayload(front, id);
    var m := |From(Data, front)|;
    FinIsData(w, n, id);
    assert From(Data, front) == w.dataSent[..m];
    assert RequestFrames(w.dataSent) == RequestFrames(w.dataSent[..m]) + RequestFrames(w.dataSent[m..]);
    PushPayloadAppend(RequestFrames(w.dataSent[..m]), RequestFrames(w.dataSent[m..]), id);
    forall i | 0 <= i < |w.dataSent[m..]|
      ensures !IsFor(w.dataSent[m..][i], Push, id)
    {
      assert w.dataSent[m..][i] == w.dataSent[m + i];
    }
    NoPayload(RequestFrames(w.dataSent[m..]), id);
  }

  /** The FIN at position `n` was sent through the data queue, right after what was taken from it. */
  lemma FinIsData(w: TaskState, n: nat, id: u32)
    requires Merged(w) && NoOverload(w, id)
    requires n < |w.taken| && IsFor(w.taken[n].request, Fin, id)
    ensures var sent := From(Data, w.taken[..n]);
            sent < w.dataSent && w.dataSent[|sent|] == w.taken[n].request
  {
    hide From;
    var queue := w.taken[n].queue;
    assert w.taken[..n + 1] == w.taken[..n] + [w.taken[n]];
    FromSnoc(queue, w.taken[..n], w.taken[n]);
    FromOfPrefix(queue, w.taken, n + 1);
    var sent := From(queue, w.taken[..n]);
    if queue == Control {
      ControlNeverFins(w, sent, w.taken[n].request, id);
    }
  }

  lemma ControlNeverFins(w: TaskState, before: seq<Request>, q: Request, id: u32)
    requires NoOverload(w, id) && before + [q] <= w.controlSent
    ensures !IsFor(q, Fin, id)
  {
    assert (before + [q])[|before|] == w.controlSent[|before|];
  }

  // ---- taken and sent ----

  /** A request that was taken was sent. */
  lemma TakenIsSent(w: TaskState, n: nat) returns (k: nat)
    requires Merged(w) && n < |w.taken|
    ensures var sent := if w.taken[n].queue == Control then w.controlSent else w.dataSent;
            k < |sent| && sent[k] == w.taken[n].request
  {
    hide From;
    var queue := w.taken[n].queue;
    assert w.taken[..n + 1] == w.taken[..n] + [w.taken[n]];
    FromSnoc(queue, w.taken[..n], w.taken[n]);
    FromOfPrefix(queue, w.taken, n + 1);
    k := |From(queue, w.taken[..n])|;
  }

  /** Two requests taken from one queue are two requests sent. */
  lemma TakenTwice(w: TaskState, m: nat, n: nat) returns (i: nat, j: nat)
    requires Merged(w) && m < n < |w.taken| && w.taken[m].queue == w.taken[n].queue
    ensures var sent := if w.taken[n].queue == Control then w.controlSent else w.dataSent;
            i < j < |sent| && sent[i] == w.taken[m].request && sent[j] == w.taken[n].request
  {
    hide From;
    var queue := w.taken[n].queue;
    assert w.taken[..n + 1] == w.taken[..n] + [w.taken[n]];
    assert w.taken[..m + 1] == w.taken[..m] + [w.taken[m]];
    FromSnoc(queue, w.taken[..n], w.taken[n]);
    FromSnoc(queue, w.taken[..m], w.taken[m]);
    FromOfPrefix(queue, w.taken, n + 1);
    FromOfPrefix(queue, w.taken[..n], m + 1);
    assert w.taken[..n][..m + 1] == w.taken[..m + 1];
    i, j := |From(queue, w.taken[..m])|, |From(queue, w.taken[..n])|;
  }
}
