/**
 * Two sessions joined by a byte pipe in each direction: a client node and a server node, whose
 * receive loops handle what the other's wire decodes to. What the receiving application reads is
 * what the sending application wrote, in both directions.
 */
module Links {
  import opened Bytes
  import opened Frames
  import opened StreamInvariants
  import opened SessionInvariants
  import opened StreamOrigins
  import opened Releases
  import opened SessionTheorems
  import opened Admissions
  import opened StreamIds
  import opened SynOrder
  import opened EndToEnd
  import opened NodeInvariants
  import WireOrder
  import N = Nodes
  import S = Sessions
  import W = WriterTasks

  /**
   * The two ends, and the ids the client process has allocated: `at` tells which allocations were
   * for this session, the others went to other sessions.
   */
  datatype Link = Link(client: N.Node, server: N.Node, allocations: nat, at: seq<nat>)

  datatype Event = OnClient(e: N.Event) | OnServer(e: N.Event) | OtherAllocation

  /** A frame is handled only if it is the next that the bytes from the other end decode to. */
  ghost predicate Fed(e: N.Event, n': N.Node, w: W.TaskState) {
    e.Move? && e.e.ReceiveFrame? ==> Piped(w, n'.session.handled)
  }

  ghost predicate Next(l: Link, e: Event, l': Link) {
    match e
    case OnClient(e) =>
      && N.Next(l.client, e, l'.client) && Fed(e, l'.client, l.server.writer) && l'.server == l.server
      && (if e.Move? && e.e.AppReserve? then
            e.e.id == IdAt(0, l.allocations) && l'.allocations == l.allocations + 1 && l'.at == l.at + [l.allocations]
          else l'.allocations == l.allocations && l'.at == l.at)
    case OnServer(e) =>
      && N.Next(l.server, e, l'.server) && Fed(e, l'.server, l.client.writer) && l'.client == l.client
      && l'.allocations == l.allocations && l'.at == l.at
    case OtherAllocation => l' == l.(allocations := l.allocations + 1)
  }

  ghost predicate Step(l: Link, l': Link) {
    exists e :: Next(l, e, l')
  }

  ghost predicate IsRun(run: seq<Link>) {
    && run != []
    && run[0] == Link(N.InitialNode(true), N.InitialNode(false), 0, [])
    && forall i :: 0 < i < |run| ==> Step(run[i - 1], run[i])
  }

  /** Ids have not come round again, and padding has stayed in step. */
  ghost predicate Good(l: Link) {
    l.allocations <= ID_COUNT && l.client.writer.aligned && l.server.writer.aligned
  }

  // ---- the invariant ----

  function IdsAt(at: seq<nat>): (ids: seq<nat>)
    ensures |ids| == |at| && forall i :: 0 <= i < |ids| ==> ids[i] == IdAt(0, at[i])
  {
    seq(|at|, i requires 0 <= i < |at| => IdAt(0, at[i]))
  }

  ghost predicate Allocations(l: Link) {
    && (forall i :: 0 <= i < |l.at| ==> l.at[i] < l.allocations)
    && (l.allocations <= ID_COUNT ==> IdsReserved(l.client.session, IdsAt(l.at)))
  }

  /** Every id ever used by a session is that of one of its streams. */
  ghost predicate UsedByStreams(s: S.Session) {
    forall id :: id in s.used ==> HasStream(s, id)
  }

  /** No payload of a client's stream was handled before the stream was opened. */
  ghost predicate ClientUnused(l: Link) {
    forall key :: 0 <= key < |l.client.session.streams| ==>
      Unused(l.client.session.handled, l.client.session.streams[key].openedAt, l.client.session.streams[key].id)
  }

  ghost predicate Ends(l: Link) {
    NodeInv(l.client) && NodeInv(l.server) && l.client.session.isClient && !l.server.session.isClient
  }

  ghost predicate Pipes(l: Link) {
    Piped(l.server.writer, l.client.session.handled) && Piped(l.client.writer, l.server.session.handled)
  }

  ghost predicate Inv(l: Link) {
    && Ends(l) && Pipes(l) && Allocations(l)
    && Outcomes(l.server.session) && UsedByStreams(l.server.session)
    && (Good(l) ==> l.server.session.distinct && ClientUnused(l))
  }

  // ---- one end moves ----

  lemma WireGrows(n: N.Node, e: N.Event, n': N.Node)
    requires NodeInv(n) && N.Next(n, e, n')
    ensures n.writer.writer.wire <= n'.writer.writer.wire && (n'.writer.aligned ==> n.writer.aligned)
    ensures n'.session.isClient == n.session.isClient
    ensures e.Move? ==> S.Enabled(n.session, e.e) && S.NextBy(n.session, e.e, n'.session)
    ensures !e.Move? ==> n'.session == n.session
  {
    hide Parts, PushOk, SynOk, FinOk, ReadyOk, StartOk, N.Sends, N.MayWrite, W.Enabled, W.Apply, S.Enabled, S.NextBy,
      N.MayMove, N.Replied, SessionStep, NoNewSyn, Shape, AdmissionOk, IdsShape;
    match e
    case Move(e) =>
      ShapeOfParts(n);
      MoveSends(n, e, n');
      SameSide(n.session, e, n'.session);
    case Transport(t) => TransportKeeps(n.writer, t);
    case Enqueue(i) =>
      var (queue, r) := N.RequestOf(n.session.tasks[i]).value;
      SendGrows(n.writer, queue, r, n'.writer);
    case QueueWrite(j) => SendGrows(n.writer, W.Data, N.PushOf(n, j), n'.writer);
    case Start(r) => SendGrows(n.writer, W.Control, r, n'.writer);
    case SendControl(r) => SendGrows(n.writer, W.Control, r, n'.writer);
    case _ =>
  }

  lemma SameSide(s: S.Session, e: S.Event, s': S.Session)
    requires SessionStep(s, e, s')
    ensures s'.isClient == s.isClient
  {
    hide TasksFrom, SlotFrom, PlainReplies, Grows;
  }

  /** Only the receive loop's step handles a frame. */
  lemma HandledSame(s: S.Session, e: S.Event, s': S.Session)
    requires S.Enabled(s, e) && S.NextBy(s, e, s')
    ensures s.handled <= s'.handled && (!e.ReceiveFrame? ==> s'.handled == s.handled)
  {
    hide S.StepOf, S.FrameStep, S.EffectOf, S.SlotAfter, S.StreamsAfter;
  }

  lemma PipedGrows(w: W.TaskState, w': W.TaskState, handled: seq<Frame>)
    requires Piped(w, handled) && w.writer.wire <= w'.writer.wire
    ensures Piped(w', handled)
  {
    hide Decode;
    var k: nat :| k <= |w.writer.wire| && handled <= Decode(w.writer.wire[..k]).frames;
    assert w'.writer.wire[..k] == w.writer.wire[..k];
  }

  lemma StepKeepsPipes(l: Link, e: Event, l': Link)
    requires Ends(l) && Pipes(l) && Next(l, e, l')
    ensures Ends(l') && Pipes(l')
    ensures Good(l') ==> Good(l)
  {
    hide NodeInv, N.Next, Piped, S.Enabled, S.NextBy;
    match e
    case OnClient(e) =>
      WireGrows(l.client, e, l'.client);
      NextKeepsNodeInv(l.client, e, l'.client);
      PipedGrows(l.client.writer, l'.client.writer, l.server.session.handled);
      if e.Move? {
        HandledSame(l.client.session, e.e, l'.client.session);
      }
    case OnServer(e) =>
      WireGrows(l.server, e, l'.server);
      NextKeepsNodeInv(l.server, e, l'.server);
      PipedGrows(l.server.writer, l'.server.writer, l.client.session.handled);
      if e.Move? {
        HandledSame(l.server.session, e.e, l'.server.session);
      }
    case OtherAllocation =>
  }

  lemma FullOfNode(n: N.Node)
    requires NodeInv(n)
    ensures FullInv(n.session) && Origins(n.session) && Getting(n.session) && WireOrder.Inv(n.writer)
    ensures n.session.isClient ==> Orderly(n.writer)
  {
    hide Origins, PushOk, ReadyOk, SynOk, FinOk, StartOk, WireOrder.Inv, Orderly, HalfCloses.NotLost,
      HalfCloses.RetireOwed, SmallInv, StreamInvariants.Inv;
  }

  lemma StepKeepsAllocations(l: Link, e: Event, l': Link)
    requires Ends(l) && Allocations(l) && Next(l, e, l')
    ensures Allocations(l')
  {
    hide NodeInv, N.Next, Piped, S.Enabled, S.NextBy, FullInv, IdsReserved;
    if e.OnClient? {
      WireGrows(l.client, e.e, l'.client);
      if e.e.Move? && l'.allocations <= ID_COUNT {
        var ids := IdsAt(l.at);
        var m := e.e.e;
        FullOfNode(l.client);
        if m.AppReserve? {
          NewId(l, m.id);
          assert IdsAt(l'.at) == ids + [m.id];
        }
        NextKeepsReserved(l.client.session, m, l'.client.session, ids);
      }
    }
  }

  /** A newly allocated id was not reserved before. */
  lemma NewId(l: Link, id: u32)
    requires Allocations(l) && l.allocations < ID_COUNT && id == IdAt(0, l.allocations)
    ensures id !in IdsAt(l.at)
  {
    hide IdsReserved, IdAt;
    forall i | 0 <= i < |l.at|
      ensures IdsAt(l.at)[i] != id
    {
      DistinctWithinRange(0, l.at[i], l.allocations);
    }
  }

  lemma ClientDistinct(l: Link)
    requires Allocations(l) && l.allocations <= ID_COUNT
    ensures l.client.session.distinct
  {
  }

  // ---- the server's streams ----

  lemma OpensOnceIfSentOnce(w: W.TaskState, id: u32)
    requires WireOrder.Inv(w) && SynsOnce(w.controlSent)
    ensures OpensOnce(w.taken, id)
  {
    hide WireOrder.Wired, WireOrder.Buffered, WireOrder.ControlFirst, WireOrder.Merged, W.Sendable;
    forall i, j | 0 <= i < j < |w.taken| && IsSyn(w.taken[i], id)
      ensures !IsSyn(w.taken[j], id)
    {
      if IsSyn(w.taken[j], id) {
        SynIsControl(w, i);
        SynIsControl(w, j);
        var m, n := TakenTwice(w, i, j);
        SentTwice(w.controlSent, m, n);
      }
    }
  }

  lemma SynIsControl(w: W.TaskState, i: nat)
    requires WireOrder.GoodRequests(w) && i < |w.taken| && w.taken[i].request.frame.command == Syn
    ensures w.taken[i].queue == W.Control
  {
    assert w.taken[i] in w.taken;
  }

  lemma SentTwice(sent: seq<W.Request>, m: nat, n: nat)
    requires SynsOnce(sent) && m < n < |sent| && sent[m].frame.command == Syn
    ensures sent[n].frame.command == Syn ==> sent[n].frame.streamId != sent[m].frame.streamId
  {
  }

  /** A stream of the server has an id that the client has used. */
  lemma ServerIdIsClients(l: Link, key: nat)
    requires Inv(l) && Good(l) && key < |l.server.session.streams|
    ensures l.server.session.streams[key].id in l.client.session.used
  {
    hide NodeInv, Allocations, Outcomes, UsedByStreams, ClientUnused, Piped, Origin, SynOk;
    var s, w := l.server.session, l.client.writer;
    FullOfNode(l.client);
    FullOfNode(l.server);
    ClientDistinct(l);
    var st := s.streams[key];
    ServerOrigin(s, key);
    var n := SynTaken(w, s.handled, st.openedAt - 1);
    SynUsed(l.client, n, st.id);
  }

  lemma ServerOrigin(s: S.Session, key: nat)
    requires Origins(s) && !s.isClient && key < |s.streams|
    ensures StreamOrigins.SynAt(s.handled, s.streams[key].openedAt, s.streams[key].id)
  {
    assert Origin(s.streams[key], s.handled, s.isClient, s.closed);
  }

  lemma SynTaken(w: W.TaskState, handled: seq<Frame>, j: nat) returns (n: nat)
    requires WireOrder.Inv(w) && w.aligned && Piped(w, handled) && j < |handled| && handled[j].command == Syn
    ensures n < |w.taken| && w.taken[n].request.frame == handled[j] && w.taken[n].queue == W.Control
  {
    hide WireOrder.Wired, WireOrder.Buffered, WireOrder.ControlFirst, WireOrder.Merged, Piped, W.Sendable;
    n := MatchFrame(w, handled, j, 0);
    SynIsControl(w, n);
  }

  lemma SynUsed(n: N.Node, k: nat, id: u32)
    requires NodeInv(n) && n.session.distinct && k < |n.writer.taken| && IsSyn(n.writer.taken[k], id)
    requires n.writer.taken[k].queue == W.Control
    ensures id in n.session.used
  {
    hide FullInv, Origins, Orderly, PushOk, ReadyOk, FinOk, StartOk, SynsOnce, W.Opens,
      WireOrder.Wired, WireOrder.Buffered, WireOrder.ControlFirst, WireOrder.GoodRequests, WireOrder.Merged;
    var i := TakenIsSent(n.writer, k);
  }

  /** The SYN in hand is for an id that the server has not used. */
  lemma AdmittedIsNew(l: Link, id: u32)
    requires Inv(l) && Good(l) && l.server.session.tasks != [] && l.server.session.tasks[0] == S.Admitting(id)
    ensures id !in l.server.session.used
  {
    hide NodeInv, Allocations, Pipes, Outcomes, ClientUnused, Origins, FullInv, Getting, WireOrder.Inv, Orderly,
      UsedByStreams;
    var s := l.server.session;
    if id in s.used {
      var key := StreamOfId(s, id);
      FullOfNode(l.server);
      ClientDistinct(l);
      ServerOrigin(s, key);
      SynInHand(s, key);
      OneSynHandled(l, s.streams[key].openedAt - 1, |s.handled| - 1);
    }
  }

  lemma StreamOfId(s: S.Session, id: u32) returns (key: nat)
    requires UsedByStreams(s) && id in s.used
    ensures key < |s.streams| && s.streams[key].id == id
  {
    key :| 0 <= key < |s.streams| && s.streams[key].id == id;
  }

  /** The SYN in hand came after every stream was opened. */
  lemma SynInHand(s: S.Session, key: nat)
    requires Outcomes(s) && s.tasks[0].Admitting? && key < |s.streams|
    ensures s.streams[key].openedAt < |s.handled|
    ensures s.handled[|s.handled| - 1].command == Syn && s.handled[|s.handled| - 1].streamId == s.tasks[0].id
  {
    hide SynPositions, OutcomeOk;
    assert s.streams[key].openedAt <= |s.handled|;
  }

  /** The client's wire has one SYN for an id, and so has what the server handled. */
  lemma OneSynHandled(l: Link, i: nat, j: nat)
    requires Ends(l) && Pipes(l) && Good(l) && l.client.session.distinct && i < j < |l.server.session.handled|
    requires l.server.session.handled[i].command == Syn && l.server.session.handled[j].command == Syn
    ensures l.server.session.handled[i].streamId != l.server.session.handled[j].streamId
  {
    hide NodeInv, Piped;
    var w, handled := l.client.writer, l.server.session.handled;
    FullOfNode(l.client);
    SynsOnceOf(l.client);
    var m, n := MatchTwo(w, handled, i, j);
    var id := handled[i].streamId;
    OpensOnceIfSentOnce(w, id);
    NotBoth(w.taken, m, n, id);
  }

  lemma NotBoth(taken: seq<W.Taken>, m: nat, n: nat, id: u32)
    requires OpensOnce(taken, id) && m < n < |taken| && IsSyn(taken[m], id)
    ensures !IsSyn(taken[n], id)
  {
  }

  lemma SynsOnceOf(n: N.Node)
    requires NodeInv(n) && n.session.distinct
    ensures SynsOnce(n.writer.controlSent)
  {
    hide Parts, PushOk, ReadyOk, FinOk, StartOk, SynsOnce;
  }

  // ---- what is opened ----

  /** A step of a session that adds a stream opens one of a new id, here and now. */
  lemma OpenedNow(s: S.Session, s': S.Session)
    requires FullInv(s) && S.Next(s, s')
    ensures Grows(s.streams, s'.streams) && |s'.streams| <= |s.streams| + 1
    ensures |s'.streams| > |s.streams| ==>
              var st := s'.streams[|s.streams|];
              && st.openedAt == |s.handled| && s'.used == s.used + {st.id}
              && s'.distinct == (s.distinct && st.id !in s.used)
              && MayOpen(s, st.id)
    ensures |s'.streams| == |s.streams| ==> s'.used == s.used && s'.distinct == s.distinct
  {
    hide FullInv, S.Next, S.SlotAfter, S.StreamsAfter;
    var a := NextSteps(s, s');
    ActCount(s, a);
    GrowsBy(s, s');
  }

  lemma GrowsBy(s: S.Session, s': S.Session)
    requires FullInv(s) && S.Next(s, s')
    ensures Grows(s.streams, s'.streams)
  {
    hide FullInv, S.NextBy, S.Enabled, Grows, TasksFrom, SlotFrom, PlainReplies, Shape, AdmissionOk, IdsShape;
    var e :| S.Enabled(s, e) && S.NextBy(s, e, s');
    ShapeOfFull(s);
    AnySessionStep(s, e, s');
  }

  lemma NothingSent(w: W.TaskState, id: u32)
    requires forall k :: 0 <= k < |w.dataSent| ==>
              !(w.dataSent[k].frame.command == Push && w.dataSent[k].frame.streamId == id)
    ensures Sent(w, id) == []
  {
    NoPayload(RequestFrames(w.dataSent), id);
  }

  /** The server has sent nothing for an id that the client has not used. */
  lemma NothingSentFor(l: Link, id: u32)
    requires Inv(l) && Good(l) && id !in l.client.session.used
    ensures Sent(l.server.writer, id) == []
  {
    hide Parts, ReadyOk, SynOk, FinOk, StartOk, Pipes, Allocations, Outcomes, UsedByStreams, ClientUnused, Sent;
    var w := l.server.writer;
    forall k | 0 <= k < |w.dataSent| && w.dataSent[k].frame.command == Push
      ensures w.dataSent[k].frame.streamId != id
    {
      var other := w.dataSent[k].frame.streamId;
      assert HasStream(l.server.session, other);
      var key :| 0 <= key < |l.server.session.streams| && l.server.session.streams[key].id == other;
      ServerIdIsClients(l, key);
    }
    NothingSent(w, id);
  }

  lemma UnusedStays(handled: seq<Frame>, handled': seq<Frame>, n: nat, id: u32)
    requires Unused(handled, n, id) && handled <= handled'
    ensures Unused(handled', n, id)
  {
    assert handled'[..n] == handled[..n];
  }

  lemma ClientStepKeepsUnused(l: Link, s': S.Session)
    requires Inv(l) && Good(l) && S.Next(l.client.session, s') && s'.distinct && l.client.session.handled <= s'.handled
    ensures forall key :: 0 <= key < |s'.streams| ==> Unused(s'.handled, s'.streams[key].openedAt, s'.streams[key].id)
  {
    hide NodeInv, Pipes, Allocations, Outcomes, UsedByStreams, S.Next, FullInv, PushPayload, Unused, Sent, MayOpen;
    var s := l.client.session;
    FullOfNode(l.client);
    OpenedNow(s, s');
    forall key | 0 <= key < |s'.streams|
      ensures Unused(s'.handled, s'.streams[key].openedAt, s'.streams[key].id)
    {
      if key == |s.streams| {
        NewStreamUnused(l, s'.streams[key].id);
        UnusedStays(s.handled, s'.handled, |s.handled|, s'.streams[key].id);
      } else {
        UnusedStays(s.handled, s'.handled, s.streams[key].openedAt, s.streams[key].id);
      }
    }
  }

  lemma NewStreamUnused(l: Link, id: u32)
    requires Inv(l) && Good(l) && id !in l.client.session.used
    ensures Unused(l.client.session.handled, |l.client.session.handled|, id)
  {
    hide NodeInv, Allocations, Outcomes, UsedByStreams, ClientUnused, PushPayload, Sent, Piped, WireOrder.Inv;
    var handled := l.client.session.handled;
    FullOfNode(l.server);
    NothingSentFor(l, id);
    HandledPayloadIsSent(l.server.writer, handled, id);
    assert handled[..|handled|] == handled;
  }

  lemma UsedByStreamsStays(s: S.Session, s': S.Session)
    requires FullInv(s) && S.Next(s, s') && UsedByStreams(s)
    ensures UsedByStreams(s')
  {
    hide FullInv, S.Next, MayOpen;
    OpenedNow(s, s');
    forall id | id in s'.used
      ensures HasStream(s', id)
    {
      if id in s.used {
        var key :| 0 <= key < |s.streams| && s.streams[key].id == id;
        assert s'.streams[key].id == id;
      } else {
        assert s'.streams[|s.streams|].id == id;
      }
    }
  }

  // ---- every step of the link ----

  lemma ClientStepKeeps(l: Link, e: N.Event, l': Link)
    requires Inv(l) && Next(l, OnClient(e), l')
    ensures Inv(l')
  {
    hide NodeInv, N.Next, Pipes, Allocations, Outcomes, UsedByStreams, S.Enabled, S.NextBy, S.Next, FullInv, Unused;
    StepKeepsPipes(l, OnClient(e), l');
    StepKeepsAllocations(l, OnClient(e), l');
    WireGrows(l.client, e, l'.client);
    if Good(l') {
      ClientDistinct(l');
      if e.Move? {
        StepIsNext(l.client.session, e.e, l'.client.session);
        HandledSame(l.client.session, e.e, l'.client.session);
        ClientStepKeepsUnused(l, l'.client.session);
      }
    }
  }

  lemma ServerStepKeeps(l: Link, e: N.Event, l': Link)
    requires Inv(l) && Next(l, OnServer(e), l')
    ensures Inv(l')
  {
    hide NodeInv, N.Next, Pipes, Allocations, Outcomes, UsedByStreams, S.Enabled, S.NextBy, S.Next, FullInv, Unused;
    StepKeepsPipes(l, OnServer(e), l');
    StepKeepsAllocations(l, OnServer(e), l');
    WireGrows(l.server, e, l'.server);
    if e.Move? {
      var s, s' := l.server.session, l'.server.session;
      StepIsNext(s, e.e, s');
      FullOfNode(l.server);
      NextKeepsOutcomes(s, s');
      UsedByStreamsStays(s, s');
      OpenedNow(s, s');
      if Good(l) && |s'.streams| > |s.streams| {
        AdmittedIsNew(l, s'.streams[|s.streams|].id);
      }
    }
  }

  lemma AllocationKeeps(l: Link, l': Link)
    requires Inv(l) && Next(l, OtherAllocation, l')
    ensures Inv(l')
  {
    hide NodeInv, Outcomes, UsedByStreams, Unused, IdsReserved, Piped;
  }

  lemma StepKeepsInv(l: Link, l': Link)
    requires Inv(l) && Step(l, l')
    ensures Inv(l')
  {
    hide Inv, Next;
    var e :| Next(l, e, l');
    match e
    case OnClient(e) => ClientStepKeeps(l, e, l');
    case OnServer(e) => ServerStepKeeps(l, e, l');
    case OtherAllocation => AllocationKeeps(l, l');
  }

  lemma InitialNodeInv(isClient: bool)
    ensures NodeInv(N.InitialNode(isClient))
  {
    hide FullInv, WireOrder.Inv;
    InitialFullInv(isClient);
    WireOrder.InitInv(N.InitialNode(isClient).writer);
  }

  lemma InitialInv()
    ensures Inv(Link(N.InitialNode(true), N.InitialNode(false), 0, []))
  {
    hide NodeInv;
    InitialNodeInv(true);
    InitialNodeInv(false);
    NothingPiped();
    assert IdsAt([]) == [];
  }

  lemma NothingPiped()
    ensures Piped(N.InitialNode(true).writer, []) && Piped(N.InitialNode(false).writer, [])
  {
    hide Decode;
    assert [] <= Decode(N.InitialNode(true).writer.writer.wire[..0]).frames;
    assert [] <= Decode(N.InitialNode(false).writer.writer.wire[..0]).frames;
  }

  lemma {:induction false} RunInv(run: seq<Link>)
    requires IsRun(run)
    ensures Inv(run[|run| - 1])
    decreases |run|
  {
    hide Inv, Step, N.InitialNode;
    if |run| == 1 {
      InitialInv();
    } else {
      RunInv(run[..|run| - 1]);
      StepKeepsInv(run[|run| - 2], run[|run| - 1]);
    }
  }

  // ---- the theorems ----

  datatype Direction = ToServer | ToClient

  function Sender(l: Link, d: Direction): N.Node {
    if d == ToServer then l.client else l.server
  }

  function Receiver(l: Link, d: Direction): N.Node {
    if d == ToServer then l.server else l.client
  }

  /** No payload of any stream is handled before the stream is opened, in either direction. */
  lemma NeverBeforeOpened(l: Link, d: Direction, key: nat)
    requires Inv(l) && Good(l) && key < |Receiver(l, d).session.streams|
    ensures var r := Receiver(l, d).session; Unused(r.handled, r.streams[key].openedAt, r.streams[key].id)
    ensures Sending(Sender(l, d).writer) && Getting(Receiver(l, d).session)
    ensures Piped(Sender(l, d).writer, Receiver(l, d).session.handled)
    ensures Sender(l, d).session.distinct && NodeInv(Sender(l, d))
  {
    hide NodeInv, Allocations, Outcomes, UsedByStreams, Unused, Piped, WireOrder.Inv, PushesOpened, SettingsFirst,
      Origins;
    FullOfNode(l.client);
    FullOfNode(l.server);
    ClientDistinct(l);
    if d == ToServer {
      SynsOnceOf(l.client);
      OpensOnceIfSentOnce(l.client.writer, l.server.session.streams[key].id);
      ServerUnused(l.client.writer, l.server.session, key);
    }
  }

  /**
   * Over every run of two sessions joined by byte pipes, in both directions: what the receiving
   * application has read from a stream is a prefix of what the sending application wrote to it. The
   * one exception is a stream that skipped a push after its session had closed.
   */
  lemma ReadIsPrefixOfWritten(run: seq<Link>, l: Link, d: Direction, key: nat)
    requires IsRun(run) && l == run[|run| - 1] && Good(l)
    requires key < |Receiver(l, d).session.streams| && !Receiver(l, d).session.streams[key].skipped
    ensures var st := Receiver(l, d).session.streams[key];
            st.delivered <= Sent(Sender(l, d).writer, st.id)
  {
    hide Inv, Good, Sending, Getting, Piped, Unused, NodeInv, Sent;
    RunInv(run);
    NeverBeforeOpened(l, d, key);
    ReadIsPrefix(Sender(l, d).writer, Receiver(l, d).session, key);
  }

  /**
   * When the end of a stream comes from the peer's FIN, every payload that preceded that FIN on the
   * wire has been read before it; with no payload after it, exactly that was read.
   */
  lemma EofAfterEverything(run: seq<Link>, l: Link, d: Direction, key: nat) returns (n: nat)
    requires IsRun(run) && l == run[|run| - 1] && Good(l)
    requires key < |Receiver(l, d).session.streams| && !Receiver(l, d).session.streams[key].skipped
    requires Receiver(l, d).session.streams[key].eof
    ensures EndedBy(Sender(l, d).writer, Receiver(l, d).session.streams[key], n)
  {
    hide Inv, Good, Sending, Getting, Piped, Unused, NodeInv, EndedBy;
    RunInv(run);
    NeverBeforeOpened(l, d, key);
    n := EofIsEndedBy(Sender(l, d).writer, Receiver(l, d).session, key);
  }

  /**
   * An end of stream means that everything was read: unless the sender's session itself sent a FIN
   * for the stream because it was overloaded, the receiving application has then read all that the
   * sending application ever wrote to the stream.
   */
  lemma EofMeansAllWritten(run: seq<Link>, l: Link, d: Direction, key: nat)
    requires IsRun(run) && l == run[|run| - 1] && Good(l)
    requires key < |Receiver(l, d).session.streams| && !Receiver(l, d).session.streams[key].skipped
    requires Receiver(l, d).session.streams[key].eof
    requires NoOverload(Sender(l, d).writer, Receiver(l, d).session.streams[key].id)
    ensures var st := Receiver(l, d).session.streams[key];
            st.delivered == Sent(Sender(l, d).writer, st.id)
  {
    hide Inv, Good, Sending, Getting, Piped, Unused, NodeInv, Sent, NoOverload, FinLast;
    RunInv(run);
    NeverBeforeOpened(l, d, key);
    FinsAreLast(Sender(l, d), Receiver(l, d).session.streams[key].id);
    EofMeansAllSent(Sender(l, d).writer, Receiver(l, d).session, key);
  }

  /** A sequential application sends nothing on a stream after its FIN. */
  lemma FinsAreLast(n: N.Node, id: u32)
    requires NodeInv(n) && n.session.distinct
    ensures FinLast(n.writer.dataSent, id)
  {
    hide Parts, PushOk, ReadyOk, SynOk, StartOk, Ended, NoOpenWrite;
  }

  /** No stream of an open session has skipped a push. */
  lemma OpenNeverSkips(run: seq<Link>, l: Link, d: Direction, key: nat)
    requires IsRun(run) && l == run[|run| - 1]
    requires key < |Receiver(l, d).session.streams| && Receiver(l, d).session.streams[key].skipped
    ensures Receiver(l, d).session.closed
  {
    hide Pipes, Allocations, Outcomes, UsedByStreams, ClientUnused, Good, NodeInv, FullInv, FinAt, WireOrder.Inv,
      Orderly;
    RunInv(run);
    FullOfNode(l.client);
    FullOfNode(l.server);
    var r := Receiver(l, d).session;
    assert Origin(r.streams[key], r.handled, r.isClient, r.closed);
  }

  // ---- with sizes that fit a length field ----

  ghost predicate FittingEvent(e: N.Event) {
    e.Transport? && (e.t.Complete? || e.t.Abort?) ==> W.FrameSizes(e.t.first) && W.FrameSizes(e.t.flush)
  }

  /** A step in which every drawn size is a check mark or at most 65535, for whatever scheme. */
  ghost predicate FittingStep(l: Link, l': Link) {
    exists e :: Next(l, e, l') && (e.OnClient? || e.OnServer? ==> FittingEvent(e.e))
  }

  lemma FittingKeepsAligned(n: N.Node, e: N.Event, n': N.Node)
    requires NodeInv(n) && N.Next(n, e, n') && FittingEvent(e) && n.writer.aligned
    ensures n'.writer.aligned
  {
    hide Parts, PushOk, SynOk, FinOk, ReadyOk, StartOk, N.Sends, N.MayWrite, W.Enabled, W.Apply, S.Enabled, S.NextBy,
      N.MayMove, N.Replied, SessionStep, NoNewSyn, Shape, AdmissionOk, IdsShape, W.FrameSizes;
    match e
    case Move(e) =>
      ShapeOfParts(n);
      MoveSends(n, e, n');
    case Transport(t) => WireOrder.FittingStepAligns(n.writer, n'.writer);
    case Enqueue(i) =>
      var (queue, r) := N.RequestOf(n.session.tasks[i]).value;
      SendGrows(n.writer, queue, r, n'.writer);
    case QueueWrite(j) => SendGrows(n.writer, W.Data, N.PushOf(n, j), n'.writer);
    case Start(r) => SendGrows(n.writer, W.Control, r, n'.writer);
    case SendControl(r) => SendGrows(n.writer, W.Control, r, n'.writer);
    case _ =>
  }

  /** A run all of whose sizes fit a length field. */
  ghost predicate FittingRun(run: seq<Link>) {
    IsRun(run) && forall i :: 0 < i < |run| ==> FittingStep(run[i - 1], run[i])
  }

  lemma {:induction false} FittingRunAligned(run: seq<Link>)
    requires FittingRun(run)
    ensures run[|run| - 1].client.writer.aligned && run[|run| - 1].server.writer.aligned
    decreases |run|
  {
    hide FittingStep, Step, Inv;
    if |run| > 1 {
      var n := |run| - 1;
      assert forall i :: 0 <= i < n ==> run[..n][i] == run[i];
      FittingRunAligned(run[..n]);
      RunInv(run[..n]);
      FittingStepAligned(run[n - 1], run[n]);
    }
  }

  lemma FittingStepAligned(l: Link, l': Link)
    requires Inv(l) && FittingStep(l, l') && l.client.writer.aligned && l.server.writer.aligned
    ensures l'.client.writer.aligned && l'.server.writer.aligned
  {
    hide NodeInv, N.Next, FittingEvent, Fed, Pipes, Allocations, Outcomes, UsedByStreams, ClientUnused;
    var e :| Next(l, e, l') && (e.OnClient? || e.OnServer? ==> FittingEvent(e.e));
    match e
    case OnClient(e) => FittingKeepsAligned(l.client, e, l'.client);
    case OnServer(e) => FittingKeepsAligned(l.server, e, l'.server);
    case OtherAllocation =>
  }

  /**
   * The end-to-end theorems for every scheme whose sizes are check marks or at most 65535, with
   * nothing assumed of the padding itself: what was read is a prefix of what was written; an end of
   * stream comes after all that preceded its FIN; and without an overload FIN it means that all was
   * read.
   */
  lemma FittingRunsDeliver(run: seq<Link>, l: Link, d: Direction, key: nat)
    requires FittingRun(run) && l == run[|run| - 1] && l.allocations <= ID_COUNT
    requires key < |Receiver(l, d).session.streams| && !Receiver(l, d).session.streams[key].skipped
    ensures var w, st := Sender(l, d).writer, Receiver(l, d).session.streams[key];
            && st.delivered <= Sent(w, st.id)
            && (st.eof ==> exists n :: EndedBy(w, st, n))
            && (st.eof && NoOverload(w, st.id) ==> st.delivered == Sent(w, st.id))
  {
    hide IsRun, Sent, EndedBy, NoOverload, FittingStep;
    FittingRunAligned(run);
    ReadIsPrefixOfWritten(run, l, d, key);
    var w, st := Sender(l, d).writer, Receiver(l, d).session.streams[key];
    if st.eof {
      var n := EofAfterEverything(run, l, d, key);
      if NoOverload(w, st.id) {
        EofMeansAllWritten(run, l, d, key);
      }
    }
  }

  // ---- the order of a client's requests ----

  /** The first frame a server ever decodes from a client session, padding aside, is its Settings. */
  lemma SettingsLead(run: seq<Link>, l: Link, k: nat)
    requires IsRun(run) && l == run[|run| - 1] && l.client.writer.aligned && k <= |l.client.writer.writer.wire|
    requires DropWaste(Decode(l.client.writer.writer.wire[..k]).frames) != []
    ensures DropWaste(Decode(l.client.writer.writer.wire[..k]).frames)[0].command == Settings
  {
    hide Pipes, Allocations, Outcomes, UsedByStreams, ClientUnused, Good, NodeInv, FullInv, Getting, Origins, Decode,
      DropWaste, PushesOpened, WireOrder.GoodRequests, WireOrder.Merged, WireOrder.ControlFirst, WireOrder.Buffered,
      WireOrder.CleanPrefix;
    RunInv(run);
    FullOfNode(l.client);
    WireOrder.CleanPrefixDecodes(l.client.writer.writer.wire, WireOrder.FramesOf(l.client.writer.taken), k);
  }

  /** On a client's wire the SYN of a stream comes before each of its payloads. */
  lemma SynPrecedesPush(run: seq<Link>, l: Link, i: nat) returns (j: nat)
    requires IsRun(run) && l == run[|run| - 1]
    requires i < |l.client.writer.taken| && l.client.writer.taken[i].request.frame.command == Push
    ensures j < i && l.client.writer.taken[j].request.frame.command == Syn
    ensures l.client.writer.taken[j].request.frame.streamId == l.client.writer.taken[i].request.frame.streamId
  {
    hide Pipes, Allocations, Outcomes, UsedByStreams, ClientUnused, Good, NodeInv, FullInv, Getting, Origins,
      WireOrder.Inv, PushesOpened, SettingsFirst;
    RunInv(run);
    FullOfNode(l.client);
    j := SynBeforePush(l.client.writer, i);
  }

  // ---- a writer that has stopped ----

  lemma StoppedStays(n: N.Node, e: N.Event, n': N.Node)
    requires N.Next(n, e, n') && !n.writer.running
    ensures n'.writer == n.writer
  {
    hide S.NextBy, S.Enabled, N.MayMove, N.MayWrite;
  }

  /**
   * A writer that has stopped, after an error, a timeout, a cancellation or at its end, has stopped
   * for good: whatever the two sessions and applications go on doing, its wire is final.
   */
  lemma {:induction false} StoppedForGood(run: seq<Link>, d: Direction, i: nat, j: nat)
    requires IsRun(run) && i <= j < |run| && !Sender(run[i], d).writer.running
    ensures Sender(run[j], d).writer == Sender(run[i], d).writer
    decreases j
  {
    hide N.Next, N.InitialNode, Fed;
    if i < j {
      StoppedForGood(run, d, i, j - 1);
      assert Step(run[j - 1], run[j]);
      var e :| Next(run[j - 1], e, run[j]);
      match e
      case OnClient(e) =>
        if d == ToServer {
          StoppedStays(run[j - 1].client, e, run[j].client);
        }
      case OnServer(e) =>
        if d == ToClient {
          StoppedStays(run[j - 1].server, e, run[j].server);
        }
      case OtherAllocation =>
    }
  }
}
