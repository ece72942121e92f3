/**
 * Control priority keeps a client's requests in order: with Settings sent first, and each payload
 * sent after the SYN of its stream, they come in that order on the wire, although they travel
 * through different queues.
 */
module SynOrder {
  import opened Bytes
  import opened Frames
  import opened WriterTasks
  import opened WireOrder

  /** Every payload sent waits behind, or was taken after, its SYN. */
  ghost predicate PushesOpened(s: TaskState) {
    && (forall i :: 0 <= i < |s.data| && s.data[i].frame.command == Push ==>
          Opens(s.controlSent, s.data[i].frame.streamId))
    && (forall i :: 0 <= i < |s.taken| && s.taken[i].request.frame.command == Push ==>
          && s.taken[i].controlSent <= |s.controlSent|
          && Opens(s.controlSent[..s.taken[i].controlSent], s.taken[i].request.frame.streamId))
  }

  ghost predicate SettingsFirst(s: TaskState) {
    && (s.controlSent == [] ==> s.dataSent == [])
    && (s.controlSent != [] ==> s.controlSent[0].frame.command == Settings)
    && (s.taken != [] ==> s.taken[0].request.frame.command == Settings)
  }

  ghost predicate Orderly(s: TaskState) {
    PushesOpened(s) && SettingsFirst(s)
  }

  /** A request sent in order: nothing before Settings, and no payload before its SYN. */
  ghost predicate InOrder(s: TaskState, queue: Queue, r: Request) {
    && (s.controlSent == [] ==> queue == Control && r.frame.command == Settings)
    && (r.frame.command == Push ==> Opens(s.controlSent, r.frame.streamId))
  }

  lemma OpensMore(sent: seq<Request>, more: seq<Request>, id: u32)
    requires Opens(sent, id) && sent <= more
    ensures Opens(more, id)
  {
    var i :| 0 <= i < |sent| && sent[i].frame.command == Syn && sent[i].frame.streamId == id;
    assert more[i] == sent[i];
  }

  lemma SendKeepsOrderly(s: TaskState, e: Event)
    requires Orderly(s) && e.Send? && Enabled(s, e) && InOrder(s, e.queue, e.request)
    ensures Orderly(Apply(s, e))
  {
    hide Opens;
    var s' := Apply(s, e);
    forall i | 0 <= i < |s'.data| && s'.data[i].frame.command == Push
      ensures Opens(s'.controlSent, s'.data[i].frame.streamId)
    {
      OpensMore(s.controlSent, s'.controlSent, s'.data[i].frame.streamId);
    }
    forall i | 0 <= i < |s'.taken| && s'.taken[i].request.frame.command == Push
      ensures s'.taken[i].controlSent <= |s'.controlSent|
      ensures Opens(s'.controlSent[..s'.taken[i].controlSent], s'.taken[i].request.frame.streamId)
    {
      assert s'.controlSent[..s.taken[i].controlSent] == s.controlSent[..s.taken[i].controlSent];
    }
  }

  lemma TakeKeepsOpened(s: TaskState)
    requires WireOrder.Inv(s) && PushesOpened(s) && Enabled(s, Take)
    ensures PushesOpened(Apply(s, Take))
  {
    hide Opens, Wired, Buffered, ControlFirst, From;
    var s' := Apply(s, Take);
    assert s.controlSent[..|s.controlSent|] == s.controlSent;
    if s.control != [] {
      HeadMoves(From(Control, s.taken), s.control, s.controlSent);
    }
  }

  lemma TakeKeepsSettings(s: TaskState)
    requires Merged(s) && SettingsFirst(s) && Enabled(s, Take)
    ensures SettingsFirst(Apply(s, Take))
  {
    hide From;
    if s.taken == [] {
      NothingTakenYet(s);
    }
  }

  lemma TakeKeepsOrderly(s: TaskState)
    requires WireOrder.Inv(s) && Orderly(s) && Enabled(s, Take)
    ensures Orderly(Apply(s, Take))
  {
    hide GoodRequests, Merged, ControlFirst, Buffered, Wired, PushesOpened, SettingsFirst, Enabled, Apply;
    TakeKeepsOpened(s);
    TakeKeepsSettings(s);
  }

  lemma NothingTakenYet(s: TaskState)
    requires Merged(s) && s.taken == []
    ensures s.control == s.controlSent && s.data == s.dataSent
  {
  }

  ghost predicate OrderlyNext(s: TaskState, s': TaskState) {
    exists e :: Enabled(s, e) && s' == Apply(s, e) && (e.Send? ==> InOrder(s, e.queue, e.request))
  }

  lemma NextKeepsOrderly(s: TaskState, s': TaskState)
    requires WireOrder.Inv(s) && Orderly(s) && OrderlyNext(s, s')
    ensures Orderly(s')
  {
    hide WireOrder.Inv, Opens, AfterRequest, InOrder;
    var e :| Enabled(s, e) && s' == Apply(s, e) && (e.Send? ==> InOrder(s, e.queue, e.request));
    match e
    case Send(_, _) => SendKeepsOrderly(s, e);
    case Take => TakeKeepsOrderly(s);
    case _ =>
  }

  /** A request taken from a queue is in the list of those taken before any later point. */
  lemma {:induction false} FromIsTaken(queue: Queue, taken: seq<Taken>, k: nat) returns (i: nat)
    requires k < |From(queue, taken)|
    ensures i < |taken| && taken[i].queue == queue && taken[i].request == From(queue, taken)[k]
  {
    var n := |taken| - 1;
    if k < |From(queue, taken[..n])| {
      i := FromIsTaken(queue, taken[..n], k);
    } else {
      i := n;
    }
  }

  lemma {:induction false} FromOfPrefix(queue: Queue, taken: seq<Taken>, n: nat)
    requires n <= |taken|
    ensures From(queue, taken[..n]) <= From(queue, taken)
    decreases |taken|
  {
    if n == |taken| {
      assert taken[..n] == taken;
    } else {
      FromOfPrefix(queue, taken[..|taken| - 1], n);
      assert taken[..|taken| - 1][..n] == taken[..n];
    }
  }

  /** Control priority: the SYN is taken before each payload of its stream. */
  lemma SynBeforePush(s: TaskState, i: nat) returns (j: nat)
    requires WireOrder.Inv(s) && PushesOpened(s)
    requires i < |s.taken| && s.taken[i].request.frame.command == Push
    ensures j < i
    ensures s.taken[j].request.frame.command == Syn
    ensures s.taken[j].request.frame.streamId == s.taken[i].request.frame.streamId
  {
    hide From, Wired, Buffered;
    var id, n := s.taken[i].request.frame.streamId, s.taken[i].controlSent;
    assert Sendable(s.taken[i].queue, s.taken[i].request);
    var before := From(Control, s.taken[..i]);
    FromOfPrefix(Control, s.taken, i);
    assert before == s.controlSent[..n];
    var k :| 0 <= k < |before| && before[k].frame.command == Syn && before[k].frame.streamId == id;
    j := FromIsTaken(Control, s.taken[..i], k);
  }
}
