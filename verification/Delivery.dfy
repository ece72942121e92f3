/**
 * What two connected applications get from each other: over every run of two sessions joined by byte
 * pipes, the payload one application wrote, the end of its side, and nothing that the other session
 * would refuse.
 */
module Deliveries {
  import opened Bytes
  import opened Frames
  import opened Releases
  import opened StreamIds
  import opened EndToEnd
  import opened NodeInvariants
  import opened Links
  import opened Outgoings
  import Admissions
  import Finishes
  import StreamOrigins
  import SynOrder
  import WireOrder
  import N = Nodes
  import S = Sessions
  import W = WriterTasks

  // ---- every run ----

  ghost predicate NodeOut(n: N.Node) {
    OutInv(n) && Finishes.AllDue(n.session)
  }

  lemma NodeStepKeepsOut(n: N.Node, e: N.Event, n': N.Node)
    requires NodeInv(n) && NodeOut(n) && N.Next(n, e, n')
    ensures NodeOut(n')
  {
    hide NodeInv, OutInv, N.Next, S.Next, S.NextBy, S.Enabled, FullInv, Finishes.AllDue;
    NextKeepsOut(n, e, n');
    WireGrows(n, e, n');
    if e.Move? {
      FullOfNode(n);
      StepIsNext(n.session, e.e, n'.session);
      Finishes.NextKeepsDue(n.session, n'.session);
    }
  }

  lemma {:induction false} RunOut(run: seq<Link>)
    requires IsRun(run)
    ensures var l := run[|run| - 1]; NodeOut(l.client) && NodeOut(l.server) && NodeInv(l.client) && NodeInv(l.server)
    decreases |run|
  {
    hide NodeOut, NodeInv, N.Next, N.InitialNode, Fed, Pipes, Allocations, UsedByStreams;
    Links.RunInv(run);
    if |run| == 1 {
      InitialOut(true);
      InitialOut(false);
    } else {
      var m := |run| - 1;
      assert forall i :: 0 <= i < m ==> run[..m][i] == run[i];
      RunOut(run[..m]);
      assert Step(run[m - 1], run[m]);
      var e :| Next(run[m - 1], e, run[m]);
      match e
      case OnClient(e) => NodeStepKeepsOut(run[m - 1].client, e, run[m].client);
      case OnServer(e) => NodeStepKeepsOut(run[m - 1].server, e, run[m].server);
      case OtherAllocation =>
    }
  }

  lemma InitialOut(isClient: bool)
    ensures NodeOut(N.InitialNode(isClient))
  {
    hide OutInv;
    InitialOutInv(isClient);
  }

  lemma SenderOut(run: seq<Link>, l: Link, d: Direction)
    requires IsRun(run) && l == run[|run| - 1]
    ensures OutInv(Sender(l, d)) && Finishes.AllDue(Sender(l, d).session) && NodeInv(Sender(l, d))
  {
    hide IsRun, OutInv, NodeInv, Finishes.AllDue;
    RunOut(run);
  }

  // ---- FINs ----

  /** A task that has sent its stream's FIN, for a half-close, a close or a drop, has it in the data queue. */
  lemma FinWasSent(run: seq<Link>, l: Link, d: Direction, i: nat, c: S.Choice, n': N.Node)
    requires IsRun(run) && l == run[|run| - 1] && i < |Sender(l, d).session.tasks| && c.ok
    requires Sender(l, d).session.tasks[i].SendingFin? && N.Next(Sender(l, d), N.Move(S.RunTask(i, c)), n')
    ensures var n := Sender(l, d);
            var fin := Frame(Fin, n.session.tasks[i].id, []);
            exists k :: 0 <= k < |n.writer.dataSent| && n.writer.dataSent[k].frame == fin
  {
    hide IsRun, NodeInv, S.NextBy, Finishes.AllDue, LocalFinSent, ValidSent, WrittenSent, OneAtATime, HandedOrPlacing,
      N.Replied, N.HandedOver;
    SenderOut(run, l, d);
    FinTaskLeaves(Sender(l, d), i, c);
  }

  /**
   * An application that half-closes, closes or drops the stream in the slot gets its FIN sent: until
   * the session or its writer ends, the FIN is in the data queue or a task is still to put it there.
   */
  lemma EndedSideSendsFin(run: seq<Link>, l: Link, d: Direction)
    requires IsRun(run) && l == run[|run| - 1] && Sender(l, d).session.slot.Some? && !Sender(l, d).session.Ended()
    requires var s := Sender(l, d).session;
             s.slot.value.localFin || (S.SlotValid(s) && s.streams[s.Key()].ending)
    ensures var n := Sender(l, d);
            var id := n.session.slot.value.id;
            || (exists k :: 0 <= k < |n.writer.dataSent| && n.writer.dataSent[k].frame == Frame(Fin, id, []))
            || (exists i :: 0 <= i < |n.session.tasks| && n.session.tasks[i].SendingFin? && n.session.tasks[i].id == id)
            || (exists i :: 0 <= i < |n.session.tasks| && n.session.tasks[i].StartFin? && n.session.tasks[i].id == id)
  {
    hide IsRun, NodeInv, FinsEnqueued, ValidSent, WrittenSent, OneAtATime, HandedOrPlacing;
    SenderOut(run, l, d);
  }

  // ---- payload ----

  lemma SenderDistinct(l: Link, d: Direction)
    requires Inv(l) && Good(l)
    ensures Sender(l, d).session.distinct
  {
    hide Ends, Pipes, Admissions.Outcomes, UsedByStreams, ClientUnused;
    ClientDistinct(l);
  }

  /** What went into the data queue for a stream is what the application wrote to it, write by write. */
  lemma SentIsWritten(run: seq<Link>, l: Link, d: Direction, id: u32)
    requires IsRun(run) && l == run[|run| - 1] && Good(l)
    ensures Sent(Sender(l, d).writer, id) == Wrote(Sender(l, d).writes, Sender(l, d).session.streams, id)
  {
    hide IsRun, NodeInv, Sent, Wrote, Inv, Good, Finishes.AllDue, FinsEnqueued, LocalFinSent, ValidSent, OneAtATime,
      HandedOrPlacing, SynsEndBuffering;
    SenderOut(run, l, d);
    Links.RunInv(run);
    SenderDistinct(l, d);
  }

  /**
   * For every scheme whose sizes are check marks or at most 65535, over every run: what the receiving
   * application has read from a stream is a prefix of what the sending application wrote to it, and
   * at an end of stream, unless the sending session itself ended the stream in an overload, all of it.
   */
  lemma ReadIsWhatWasWritten(run: seq<Link>, l: Link, d: Direction, key: nat)
    requires FittingRun(run) && l == run[|run| - 1] && l.allocations <= ID_COUNT
    requires key < |Receiver(l, d).session.streams| && !Receiver(l, d).session.streams[key].skipped
    ensures var n, st := Sender(l, d), Receiver(l, d).session.streams[key];
            var written := Wrote(n.writes, n.session.streams, st.id);
            st.delivered <= written && (st.eof && NoOverload(n.writer, st.id) ==> st.delivered == written)
  {
    hide IsRun, FittingStep, Sent, Wrote, NoOverload, EndedBy;
    FittingRunAligned(run);
    FittingRunsDeliver(run, l, d, key);
    SentIsWritten(run, l, d, Receiver(l, d).session.streams[key].id);
  }

  // ---- what is on the wire ----

  /** Each request taken was sent, so its frame is one the peer accepts and a SYN ends buffering. */
  lemma TakenIsAccepted(n: N.Node, i: nat)
    requires OutInv(n) && WireOrder.Inv(n.writer) && i < |n.writer.taken|
    ensures S.ValidFrame(n.writer.taken[i].request.frame)
    ensures n.writer.taken[i].request.frame.command == Syn ==> n.writer.taken[i].request.disableBufferingAfter
  {
    hide S.ValidFrame, FinsEnqueued, LocalFinSent, WrittenSent, OneAtATime, HandedOrPlacing, WireOrder.Wired,
      WireOrder.Buffered, WireOrder.Flushed, WireOrder.ControlFirst, WireOrder.Merged;
    var k := TakenIsSent(n.writer, i);
    if n.writer.taken[i].request.frame.command == Syn {
      SynIsControl(n.writer, i);
    }
  }

  /** No frame, Waste aside, that any part of a session's wire decodes to makes the peer's receive loop end. */
  lemma WireIsAccepted(run: seq<Link>, l: Link, d: Direction, k: nat, j: nat)
    requires IsRun(run) && l == run[|run| - 1] && Sender(l, d).writer.aligned && k <= |Sender(l, d).writer.writer.wire|
    requires j < |DropWaste(Decode(Sender(l, d).writer.writer.wire[..k]).frames)|
    ensures S.ValidFrame(DropWaste(Decode(Sender(l, d).writer.writer.wire[..k]).frames)[j])
  {
    hide IsRun, NodeInv, OutInv, Finishes.AllDue, S.ValidFrame, Decode, DropWaste, FullInv, Getting,
      WireOrder.GoodRequests, WireOrder.Merged, WireOrder.ControlFirst, WireOrder.Buffered, WireOrder.Flushed,
      WireOrder.CleanPrefix, SynOrder.Orderly, StreamOrigins.Origins;
    SenderOut(run, l, d);
    var n := Sender(l, d);
    FullOfNode(n);
    WireOrder.CleanPrefixDecodes(n.writer.writer.wire, WireOrder.FramesOf(n.writer.taken), k);
    TakenIsAccepted(n, j);
  }

  /**
   * A server's wire, and a client's once a SYN is written, holds nothing back: while the writer runs
   * it decodes, Waste aside, to exactly the requests written so far.
   */
  lemma OpenWireHoldsNothingBack(run: seq<Link>, l: Link, d: Direction)
    requires IsRun(run) && l == run[|run| - 1] && Sender(l, d).writer.running && Sender(l, d).writer.aligned
    requires var w := Sender(l, d).writer;
             d == ToClient || exists i :: 0 <= i < w.written && i < |w.taken| && w.taken[i].request.frame.command == Syn
    ensures var w := Sender(l, d).writer;
            && w.written <= |w.taken|
            && DropWaste(Decode(w.writer.wire).frames) == WireOrder.FramesOf(w.taken[..w.written])
  {
    hide IsRun, NodeInv, OutInv, Finishes.AllDue, Decode, DropWaste, FullInv, Getting, WireOrder.GoodRequests,
      WireOrder.Merged, WireOrder.ControlFirst, WireOrder.Buffered, WireOrder.CleanPrefix, WireOrder.FramesOf,
      SynOrder.Orderly, StreamOrigins.Origins;
    SenderOut(run, l, d);
    Sides(run, l);
    var n := Sender(l, d);
    var w := n.writer;
    FullOfNode(n);
    if d == ToServer {
      var i :| 0 <= i < w.written && i < |w.taken| && w.taken[i].request.frame.command == Syn;
      TakenIsAccepted(n, i);
      assert w.taken[i].request.disableBufferingAfter;
    }
    WireOrder.DecodeNothing();
  }

  lemma Sides(run: seq<Link>, l: Link)
    requires IsRun(run) && l == run[|run| - 1]
    ensures !l.server.writer.isClient
  {
    hide IsRun, Pipes, Allocations, Admissions.Outcomes, UsedByStreams, ClientUnused, Good, FullInv, WireOrder.Inv,
      StreamOrigins.Origins, PushOk, ReadyOk, SynOk, FinOk, StartOk;
    Links.RunInv(run);
  }

  // ---- streams are handed over or undone ----

  /**
   * A stream in the slot of either session was handed to its application, or is about to be, or is
   * being taken back.
   */
  lemma StreamIsHandedOrUndone(run: seq<Link>, l: Link, d: Direction)
    requires IsRun(run) && l == run[|run| - 1] && Sender(l, d).session.slot.Some?
    ensures var n := Sender(l, d);
            var id := n.session.slot.value.id;
            id in n.ready || exists i :: 0 <= i < |n.session.tasks| && Placing(n.session.tasks[i], id)
  {
    hide IsRun, NodeInv, Finishes.AllDue, FinsEnqueued, LocalFinSent, ValidSent, WrittenSent, OneAtATime,
      SynsEndBuffering, Placing;
    SenderOut(run, l, d);
  }
}
