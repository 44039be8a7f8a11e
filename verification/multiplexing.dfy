/** Multiplexing is transparent: seen from one stream, a session runs the two-party protocol. */
module Multiplexing {
  import opened Protocol
  import opened Endpoints
  import opened Session
  import P = StreamProtocol

  /** Everything sent in one direction and not yet handed to a task, oldest first. */
  function Flow(p: Pipe): seq<Message> { Opt(p.held) + p.wire + Opt(p.hand) + p.queue }

  function Opt(o: Option<Message>): seq<Message> { if o.None? then [] else [o.value] }

  /** The source actions of one stream among some messages. */
  function SourceMsgs(ms: seq<Message>, id: StdId): seq<SourceAction> {
    if ms == [] then []
    else (if ms[0].FromSource? && ms[0].sid == id then [ms[0].source] else []) + SourceMsgs(ms[1..], id)
  }

  function SinkMsgs(ms: seq<Message>, id: StdId): seq<SinkAction> {
    if ms == [] then []
    else (if ms[0].FromSink? && ms[0].kid == id then [ms[0].sink] else []) + SinkMsgs(ms[1..], id)
  }

  /** The two-party state of a stream inside a session. */
  function Project(s: Session, id: StdId): P.Link {
    var st := s.streams[id];
    P.Link(
      st.ends,
      st.outbox + SourceMsgs(Flow(s.pipes[Forward(id)]), id),
      st.inbox + SinkMsgs(Flow(s.pipes[Backward(id)]), id))
  }

  /** What stream `id` sees of a session event: nothing, or one event of the two-party protocol. */
  function Seen(s: Session, e: Event, id: StdId): seq<P.LinkEvent> {
    match e
    case TaskStep(j, ev) => if j == id then [P.Task(ev)] else []
    case MainSend => if s.server.Injecting? && id.Stdin? then [P.Inject] else []
    case Route(d) =>
      var p := s.pipes[d];
      if p.held.Some? && p.held.value.FromSink? && p.held.value.kid == id && HasSource(d, id, s.pty)
         && s.streams[id].ends.src.SourceDone?
      then [P.Drop(|s.streams[id].inbox|)] else []
    case _ => []
  }

  function SeenAll(s: Session, es: seq<Event>, id: StdId): seq<P.LinkEvent>
    requires Run(s, es).Some?
    decreases |es|
  {
    if es == [] then [] else Seen(s, es[0], id) + SeenAll(Step(s, es[0]).value, es[1..], id)
  }

  // ------------------------------------------------------------------ filters

  lemma {:induction false} MsgsConcat(a: seq<Message>, b: seq<Message>, id: StdId)
    ensures SourceMsgs(a + b, id) == SourceMsgs(a, id) + SourceMsgs(b, id)
    ensures SinkMsgs(a + b, id) == SinkMsgs(a, id) + SinkMsgs(b, id)
  {
    if a == [] {
      assert a + b == b;
    } else {
      assert (a + b)[1..] == a[1..] + b;
      MsgsConcat(a[1..], b, id);
    }
  }

  /** A pipe whose flow grew by `ms`. */
  lemma FlowGrows(p: Pipe, q: Pipe, ms: seq<Message>, id: StdId)
    requires Flow(q) == Flow(p) + ms
    ensures SourceMsgs(Flow(q), id) == SourceMsgs(Flow(p), id) + SourceMsgs(ms, id)
    ensures SinkMsgs(Flow(q), id) == SinkMsgs(Flow(p), id) + SinkMsgs(ms, id)
  {
    MsgsConcat(Flow(p), ms, id);
  }

  /** A pipe that lost its oldest message. */
  lemma FlowShrinks(p: Pipe, q: Pipe, m: Message, id: StdId)
    requires Flow(p) == [m] + Flow(q)
    ensures SourceMsgs(Flow(p), id) == SourceMsgs([m], id) + SourceMsgs(Flow(q), id)
    ensures SinkMsgs(Flow(p), id) == SinkMsgs([m], id) + SinkMsgs(Flow(q), id)
  {
    MsgsConcat([m], Flow(q), id);
  }

  lemma ActSeesOnlyHeads(e: Ends, ev: TaskEvent, inbox: seq<SinkAction>, outbox: seq<SourceAction>,
                         x: seq<SinkAction>, y: seq<SourceAction>)
    requires Act(e, ev, inbox, outbox).Some?
    ensures Act(e, ev, inbox + x, outbox + y) == Act(e, ev, inbox, outbox)
  {
  }

  // -------------------------------------------------------------- projection

  lemma EnqueueFlow(s: Session, d: Direction, ms: seq<Message>)
    requires Enqueue(s, d, ms).Some?
    ensures var r := Enqueue(s, d, ms).value;
      && r == s.(pipes := r.pipes)
      && (forall j: Direction :: j != d ==> r.pipes[j] == s.pipes[j])
      && r.pipes[d] == s.pipes[d].(queue := r.pipes[d].queue)
      && (|r.pipes[d].queue| <= QUEUE_CAPACITY || r == s)
      && Flow(r.pipes[d]) == Flow(s.pipes[d]) + ms
  {
    if |ms| == 0 { assert Flow(s.pipes[d]) + ms == Flow(s.pipes[d]); }
  }

  /** `r` is `s` after move `m` of stream `j`. */
  predicate MoveEffect(s: Session, j: StdId, m: Move, r: Session)
    requires m.fromInbox <= |s.streams[j].inbox| && m.fromOutbox <= |s.streams[j].outbox|
  {
    && r == s.(streams := s.streams[j := AfterMove(s.streams[j], m)], pipes := r.pipes)
    && Flow(r.pipes[Forward(j)]) == Flow(s.pipes[Forward(j)]) + Upward(j, m.up)
    && Flow(r.pipes[Backward(j)]) == Flow(s.pipes[Backward(j)]) + Downward(j, m.down)
    && (forall d: Direction :: QueueOnly(s.pipes[d], r.pipes[d]))
  }

  /** Only the queue may have changed, and it is within its capacity if it has. */
  predicate QueueOnly(p: Pipe, q: Pipe) {
    q == p.(queue := q.queue) && (q.queue == p.queue || |q.queue| <= QUEUE_CAPACITY)
  }

  lemma TaskEffect(s: Session, j: StdId, ev: TaskEvent) returns (m: Move)
    requires RunTask(s, j, ev).Some?
    ensures Act(s.streams[j].ends, ev, s.streams[j].inbox, s.streams[j].outbox) == Some(m)
    ensures MoveEffect(s, j, m, RunTask(s, j, ev).value)
  {
    var st := s.streams[j];
    m := Act(st.ends, ev, st.inbox, st.outbox).value;
    var s1 := WithStream(s, j, AfterMove(st, m));
    EnqueueFlow(s1, Forward(j), Upward(j, m.up));
    var s2 := Enqueue(s1, Forward(j), Upward(j, m.up)).value;
    EnqueueFlow(s2, Backward(j), Downward(j, m.down));
  }

  lemma MoveMsgs(s: Session, j: StdId, m: Move, r: Session, id: StdId)
    requires m.fromInbox <= |s.streams[j].inbox| && m.fromOutbox <= |s.streams[j].outbox|
    requires MoveEffect(s, j, m, r)
    requires |m.up| <= 1 && |m.down| <= 1
    ensures SourceMsgs(Flow(r.pipes[Forward(id)]), id)
         == var x := SourceMsgs(Flow(s.pipes[Forward(id)]), id); if id == j then x + m.up else x
    ensures SinkMsgs(Flow(r.pipes[Backward(id)]), id)
         == var y := SinkMsgs(Flow(s.pipes[Backward(id)]), id); if id == j then y + m.down else y
  {
    var up, down := Upward(j, m.up), Downward(j, m.down);
    FlowGrows(s.pipes[Forward(j)], r.pipes[Forward(j)], up, id);
    FlowGrows(s.pipes[Backward(j)], r.pipes[Backward(j)], down, id);
    assert SourceMsgs(up, id) == if id == j then m.up else [];
    assert SinkMsgs(up, id) == [];
    assert SourceMsgs(down, id) == [];
    assert SinkMsgs(down, id) == if id == j then m.down else [];
  }

  lemma OtherStreams(s: Session, j: StdId, m: Move, r: Session, id: StdId)
    requires m.fromInbox <= |s.streams[j].inbox| && m.fromOutbox <= |s.streams[j].outbox|
    requires MoveEffect(s, j, m, r) && |m.up| <= 1 && |m.down| <= 1 && id != j
    ensures Project(r, id) == Project(s, id)
  {
    MoveMsgs(s, j, m, r, id);
  }

  lemma OwnStream(s: Session, id: StdId, m: Move, r: Session)
    requires m.fromInbox <= |s.streams[id].inbox| && m.fromOutbox <= |s.streams[id].outbox|
    requires MoveEffect(s, id, m, r) && |m.up| <= 1 && |m.down| <= 1
    ensures var t := Project(s, id);
      && m.fromOutbox <= |t.fwd| && m.fromInbox <= |t.back|
      && Project(r, id) == P.Link(m.ends, Advance(t.fwd, m.fromOutbox, m.up), Advance(t.back, m.fromInbox, m.down))
  {
    MoveMsgs(s, id, m, r, id);
    var st := s.streams[id];
    AdvanceSplits(st.inbox, SinkMsgs(Flow(s.pipes[Backward(id)]), id), m.fromInbox, m.down);
    AdvanceSplits(st.outbox, SourceMsgs(Flow(s.pipes[Forward(id)]), id), m.fromOutbox, m.up);
  }

  lemma TaskProjects(s: Session, j: StdId, ev: TaskEvent, r: Session, id: StdId)
    requires RunTask(s, j, ev) == Some(r)
    ensures if id == j then P.Step(Project(s, id), P.Task(ev)) == Some(Project(r, id))
            else Project(r, id) == Project(s, id)
  {
    var m := TaskEffect(s, j, ev);
    if id == j {
      OwnStream(s, id, m, r);
      var st, t := s.streams[id], Project(s, id);
      ActSeesOnlyHeads(st.ends, ev, st.inbox, st.outbox, SinkMsgs(Flow(s.pipes[Backward(id)]), id),
                       SourceMsgs(Flow(s.pipes[Forward(id)]), id));
      P.StepTask(t, ev, m);
    } else {
      OtherStreams(s, j, m, r, id);
    }
  }

  lemma AdvanceSplits<T>(s: seq<T>, x: seq<T>, taken: nat, added: seq<T>)
    requires taken <= |s|
    ensures Advance(s + x, taken, added) == Advance(s, taken, []) + (x + added)
  {
  }

  // ------------------------------------------------------------- other events

  /** Nothing any stream can see has changed. */
  predicate SameMail(s: Session, r: Session) {
    && r.streams == s.streams
    && forall d: Direction, id: StdId ::
         && SourceMsgs(Flow(r.pipes[d]), id) == SourceMsgs(Flow(s.pipes[d]), id)
         && SinkMsgs(Flow(r.pipes[d]), id) == SinkMsgs(Flow(s.pipes[d]), id)
  }

  lemma TakeFlow(s: Session, d: Direction)
    requires DoTake(s, d).Some?
    ensures forall j: Direction :: Flow(DoTake(s, d).value.pipes[j]) == Flow(s.pipes[j])
  {
    var p := s.pipes[d];
    assert Flow(DoTake(s, d).value.pipes[d]) == Opt(p.held) + p.wire + ([p.queue[0]] + p.queue[1..]) == Flow(p);
  }

  lemma TransmitFlow(s: Session, d: Direction)
    requires DoTransmit(s, d).Some?
    ensures forall j: Direction :: Flow(DoTransmit(s, d).value.pipes[j]) == Flow(s.pipes[j])
  {
    assert Flow(DoTransmit(s, d).value.pipes[d]) == Flow(s.pipes[d]);
  }

  lemma FetchFlow(s: Session, d: Direction)
    requires DoFetch(s, d).Some?
    ensures forall j: Direction :: Flow(DoFetch(s, d).value.pipes[j]) == Flow(s.pipes[j])
  {
    var p := s.pipes[d];
    assert Flow(DoFetch(s, d).value.pipes[d]) == ([p.wire[0]] + p.wire[1..]) + Opt(p.hand) + p.queue == Flow(p);
  }

  /** Picking up `Finished` changes no stream's mail. */
  lemma FinishingMail(p: Pipe, q: Pipe, id: StdId)
    requires p.hand.None? && q == p.(hand := Some(Finished), sender := q.sender)
    ensures SourceMsgs(Flow(q), id) == SourceMsgs(Flow(p), id)
    ensures SinkMsgs(Flow(q), id) == SinkMsgs(Flow(p), id)
  {
    var front := Opt(p.held) + p.wire;
    assert Flow(p) == front + p.queue && Flow(q) == (front + [Finished]) + p.queue;
    MsgsConcat(front + [Finished], p.queue, id);
    MsgsConcat(front, [Finished], id);
    MsgsConcat(front, p.queue, id);
    assert SourceMsgs([Finished], id) == [] && SinkMsgs([Finished], id) == [];
  }

  lemma DrainedMail(s: Session, d: Direction)
    requires DoDrained(s, d).Some?
    ensures SameMail(s, DoDrained(s, d).value)
  {
    if d.ToServer? {
      forall id: StdId { FinishingMail(s.pipes[d], DoDrained(s, d).value.pipes[d], id); }
    }
  }

  lemma NotifiedMail(s: Session)
    requires DoNotified(s).Some?
    ensures SameMail(s, DoNotified(s).value)
  {
    forall id: StdId { FinishingMail(s.pipes[ToClient], DoNotified(s).value.pipes[ToClient], id); }
  }

  /** What handing over message `m` does to the pipes and to stream `id`'s channels. */
  predicate HandOver(s: Session, d: Direction, m: Message, r: Session, id: StdId) {
    var st, q := s.streams[id], r.pipes[d];
    && (forall j: Direction :: j != d ==> r.pipes[j] == s.pipes[j])
    && q == s.pipes[d].(receiver := q.receiver)
    && (m.FromSource? && !q.receiver.Crashed? ==> d == Forward(m.sid))
    && (m.FromSink? && !q.receiver.Crashed? ==> d == Backward(m.kid))
    && (!q.receiver.Crashed? ==>
        r.streams[id] == st.(
          outbox := if m.FromSource? && m.sid == id then st.outbox + [m.source] else st.outbox,
          inbox := if m.FromSink? && m.kid == id && !st.ends.src.SourceDone? then st.inbox + [m.sink] else st.inbox))
  }

  lemma HandleHandsOver(s: Session, d: Direction, m: Message, id: StdId)
    requires Handle(s, d, m).Some?
    ensures HandOver(s, d, m, Handle(s, d, m).value, id)
  {
    match m {
      case FromSource(j, a) => SourceHandsOver(s, d, j, a, id);
      case FromSink(j, a) => SinkHandsOver(s, d, j, a, id);
      case _ => ControlHandsOver(s, d, m, id);
    }
  }

  lemma SourceHandsOver(s: Session, d: Direction, j: StdId, a: SourceAction, id: StdId)
    requires HandleSource(s, d, j, a).Some?
    ensures HandOver(s, d, FromSource(j, a), HandleSource(s, d, j, a).value, id)
  {
  }

  lemma SinkHandsOver(s: Session, d: Direction, j: StdId, a: SinkAction, id: StdId)
    requires HandleSink(s, d, j, a).Some?
    ensures HandOver(s, d, FromSink(j, a), HandleSink(s, d, j, a).value, id)
  {
    var r := HandleSink(s, d, j, a).value;
    assert !r.pipes[d].receiver.Crashed? ==> r.pipes == s.pipes && d == Backward(j);
  }

  lemma ControlHandsOver(s: Session, d: Direction, m: Message, id: StdId)
    requires !m.FromSource? && !m.FromSink? && HandleControl(s, d, m).Some?
    ensures HandOver(s, d, m, HandleControl(s, d, m).value, id)
  {
  }

  /** A receiver loop takes the oldest message of its direction. */
  lemma RouteFlow(s: Session, d: Direction)
    requires DoRoute(s, d).Some?
    ensures s.pipes[d].held.Some?
    ensures Flow(s.pipes[d]) == [s.pipes[d].held.value] + Flow(DoRoute(s, d).value.pipes[d])
    ensures forall j: Direction :: j != d ==> DoRoute(s, d).value.pipes[j] == s.pipes[j]
  {
    var p := s.pipes[d];
    HandleHandsOver(WithPipe(s, d, p.(held := None)), d, p.held.value, Stdin);
    assert Flow(p) == [p.held.value] + Flow(p.(held := None));
  }

  lemma OneMsg(m: Message, id: StdId)
    ensures SourceMsgs([m], id) == if m.FromSource? && m.sid == id then [m.source] else []
    ensures SinkMsgs([m], id) == if m.FromSink? && m.kid == id then [m.sink] else []
  {
  }

  lemma HandMiddle<T>(a: seq<T>, m: T, x: seq<T>)
    ensures a + ([m] + x) == (a + [m]) + x
    ensures (a + ([m] + x))[..|a|] + (a + ([m] + x))[|a| + 1..] == a + x
    ensures |a| < |a + ([m] + x)|
  {
  }

  function SourceOf(m: Message, id: StdId): seq<SourceAction> {
    if m.FromSource? && m.sid == id then [m.source] else []
  }

  function SinkOf(m: Message, id: StdId): seq<SinkAction> {
    if m.FromSink? && m.kid == id then [m.sink] else []
  }

  /** What stream `id` has under way before and after a hand-over. */
  lemma RouteMsgs(s: Session, d: Direction, id: StdId)
    requires DoRoute(s, d).Some? && !DoRoute(s, d).value.pipes[d].receiver.Crashed?
    ensures s.pipes[d].held.Some?
    ensures var m, r := s.pipes[d].held.value, DoRoute(s, d).value;
      && SourceMsgs(Flow(s.pipes[Forward(id)]), id) == SourceOf(m, id) + SourceMsgs(Flow(r.pipes[Forward(id)]), id)
      && SinkMsgs(Flow(s.pipes[Backward(id)]), id) == SinkOf(m, id) + SinkMsgs(Flow(r.pipes[Backward(id)]), id)
  {
    var m, r := s.pipes[d].held.value, DoRoute(s, d).value;
    RouteFlow(s, d);
    assert SourceMsgs(Flow(s.pipes[d]), id) == SourceOf(m, id) + SourceMsgs(Flow(r.pipes[d]), id)
        && SinkMsgs(Flow(s.pipes[d]), id) == SinkOf(m, id) + SinkMsgs(Flow(r.pipes[d]), id) by {
      FlowShrinks(s.pipes[d], r.pipes[d], m, id);
      OneMsg(m, id);
    }
    HandleHandsOver(WithPipe(s, d, s.pipes[d].(held := None)), d, m, id);
  }

  predicate LateReply(st: Stream, m: Message, id: StdId) { SinkOf(m, id) != [] && st.ends.src.SourceDone? }

  /** The stream record after `m` was handed over. */
  function Received(st: Stream, m: Message, id: StdId): Stream {
    st.(outbox := st.outbox + SourceOf(m, id),
        inbox := if LateReply(st, m, id) then st.inbox else st.inbox + SinkOf(m, id))
  }

  lemma ReceivedChannels(st: Stream, m: Message, id: StdId, x: seq<SourceAction>, y: seq<SinkAction>)
    ensures Received(st, m, id).outbox + x == st.outbox + (SourceOf(m, id) + x)
    ensures var back := st.inbox + (SinkOf(m, id) + y);
      Received(st, m, id).inbox + y ==
        if LateReply(st, m, id) then back[..|st.inbox|] + back[|st.inbox| + 1..] else back
  {
    if SinkOf(m, id) != [] { HandMiddle(st.inbox, m.sink, y); }
  }

  lemma HandOverReceives(s: Session, d: Direction, m: Message, r: Session, id: StdId)
    requires HandOver(s, d, m, r, id) && !r.pipes[d].receiver.Crashed?
    ensures r.streams[id] == Received(s.streams[id], m, id)
  {
    assert s.streams[id].outbox + [] == s.streams[id].outbox;
    assert s.streams[id].inbox + [] == s.streams[id].inbox;
  }

  /** A hand-over leaves the two-party state alone, except that a late reply disappears. */
  lemma RouteLinks(s: Session, d: Direction, id: StdId)
    requires DoRoute(s, d).Some? && !DoRoute(s, d).value.pipes[d].receiver.Crashed?
    ensures s.pipes[d].held.Some?
    ensures var m, t, u := s.pipes[d].held.value, Project(s, id), Project(DoRoute(s, d).value, id);
      if LateReply(s.streams[id], m, id) then
        var i := |s.streams[id].inbox|;
        i < |t.back| && u == t.(back := t.back[..i] + t.back[i + 1..])
      else u == t
  {
    RouteMsgs(s, d, id);
    var m, r := s.pipes[d].held.value, DoRoute(s, d).value;
    var s0 := WithPipe(s, d, s.pipes[d].(held := None));
    HandleHandsOver(s0, d, m, id);
    HandOverReceives(s0, d, m, r, id);
    ReceivedChannels(s.streams[id], m, id, SourceMsgs(Flow(r.pipes[Forward(id)]), id),
                     SinkMsgs(Flow(r.pipes[Backward(id)]), id));
  }

  lemma SinkHasEntry(s: Session, d: Direction, m: Message)
    requires m.FromSink? && Handle(s, d, m).Some? && !Handle(s, d, m).value.pipes[d].receiver.Crashed?
    ensures HasSource(d, m.kid, s.pty)
  {
  }

  lemma RouteSeen(s: Session, d: Direction, id: StdId)
    requires DoRoute(s, d).Some? && !DoRoute(s, d).value.pipes[d].receiver.Crashed?
    ensures s.pipes[d].held.Some?
    ensures Seen(s, Route(d), id) ==
      if LateReply(s.streams[id], s.pipes[d].held.value, id) then [P.Drop(|s.streams[id].inbox|)] else []
  {
    var m := s.pipes[d].held.value;
    if m.FromSink? { SinkHasEntry(WithPipe(s, d, s.pipes[d].(held := None)), d, m); }
  }

  lemma RouteProjects(s: Session, d: Direction, r: Session, id: StdId)
    requires DoRoute(s, d) == Some(r) && !r.pipes[d].receiver.Crashed?
    ensures P.Run(Project(s, id), Seen(s, Route(d), id)) == Some(Project(r, id))
  {
    RouteSeen(s, d, id);
    RouteLinks(s, d, id);
    if LateReply(s.streams[id], s.pipes[d].held.value, id) {
      P.RunDrop(Project(s, id), |s.streams[id].inbox|);
    }
  }

  lemma ExitLinks(s: Session, r: Session, id: StdId)
    requires DoMainSend(s) == Some(r) && s.server.Exiting?
    ensures Project(r, id) == Project(s, id)
  {
    var m := Exit(s.server.status);
    EnqueueFlow(s, ToClient, [m]);
    FlowGrows(s.pipes[ToClient], r.pipes[ToClient], [m], id);
    OneMsg(m, id);
  }

  lemma InjectLinks(s: Session, r: Session, id: StdId)
    requires DoMainSend(s) == Some(r) && s.server.Injecting?
    ensures Project(r, id) == if id.Stdin? then P.Injected(Project(s, id)) else Project(s, id)
  {
    var m := FromSink(Stdin, SinkClosed);
    EnqueueFlow(s, ToClient, [m]);
    var x, y := SourceMsgs(Flow(s.pipes[ToClient]), id), SinkMsgs(Flow(s.pipes[ToClient]), id);
    assert SourceMsgs(Flow(r.pipes[ToClient]), id) == x
        && SinkMsgs(Flow(r.pipes[ToClient]), id) == if id.Stdin? then y + [SinkClosed] else y by {
      FlowGrows(s.pipes[ToClient], r.pipes[ToClient], [m], id);
      OneMsg(m, id);
      assert x + [] == x && y + [] == y;
    }
    if id.Stdin? {
      assert (s.streams[id].inbox + y) + [SinkClosed] == s.streams[id].inbox + (y + [SinkClosed]);
    }
  }

  lemma MainProjects(s: Session, r: Session, id: StdId)
    requires DoMainSend(s) == Some(r)
    ensures P.Run(Project(s, id), Seen(s, MainSend, id)) == Some(Project(r, id))
  {
    if s.server.Injecting? { InjectLinks(s, r, id); } else { ExitLinks(s, r, id); }
    P.RunInject(Project(s, id));
  }

  lemma SizeMail(s: Session)
    requires DoSendSize(s).Some?
    ensures SameMail(s, DoSendSize(s).value)
  {
    var m := WindowSizeChange(s.window.width, s.window.height);
    EnqueueFlow(s, ToServer, [m]);
    forall id: StdId
      ensures SourceMsgs(Flow(DoSendSize(s).value.pipes[ToServer]), id) == SourceMsgs(Flow(s.pipes[ToServer]), id)
      ensures SinkMsgs(Flow(DoSendSize(s).value.pipes[ToServer]), id) == SinkMsgs(Flow(s.pipes[ToServer]), id)
    {
      FlowGrows(s.pipes[ToServer], DoSendSize(s).value.pipes[ToServer], [m], id);
      OneMsg(m, id);
    }
  }

  /** Events that touch no queue and no stream. */
  predicate Local(e: Event) {
    || e.ChildExit? || e.ServerJoin? || e.StatusArrives? || e.StdioJoined? || e.LoopsJoined?
    || e.SizeChanged? || e.SizeUnknown? || e.WindowStop?
  }

  lemma LocalTouchesNothing(s: Session, e: Event)
    requires Local(e) && Step(s, e).Some?
    ensures Step(s, e).value.pipes == s.pipes && Step(s, e).value.streams == s.streams
  {
  }

  lemma LoopMail(s: Session, e: Event)
    requires (e.Take? || e.Transmit? || e.Fetch?) && Step(s, e).Some?
    ensures Step(s, e).value.streams == s.streams
    ensures forall j: Direction :: Flow(Step(s, e).value.pipes[j]) == Flow(s.pipes[j])
  {
    match e {
      case Take(d) => TakeFlow(s, d);
      case Transmit(d) => TransmitFlow(s, d);
      case Fetch(d) => FetchFlow(s, d);
    }
  }

  /** Events no stream can see. */
  predicate Unseen(e: Event) { !e.TaskStep? && !e.Route? && !e.MainSend? && !Loses(e) }

  lemma UnseenMail(s: Session, e: Event)
    requires Unseen(e) && Step(s, e).Some?
    ensures SameMail(s, Step(s, e).value)
  {
    if Local(e) {
      LocalTouchesNothing(s, e);
    } else {
      match e {
        case Drained(d) => DrainedMail(s, d);
        case Notified => NotifiedMail(s);
        case SendSize => SizeMail(s);
        case _ => LoopMail(s, e);
      }
    }
  }

  /** One step of the session is at most one step of each stream's two-party protocol. */
  lemma StepProjects(s: Session, e: Event, r: Session, id: StdId)
    requires Step(s, e) == Some(r) && !Loses(e)
    requires e.Route? ==> !r.pipes[e.d].receiver.Crashed?
    ensures P.Run(Project(s, id), Seen(s, e, id)) == Some(Project(r, id))
  {
    if Unseen(e) {
      UnseenMail(s, e);
    } else if e.TaskStep? {
      TaskProjects(s, e.id, e.ev, r, id);
      P.RunOne(Project(s, id), P.Task(e.ev));
    } else if e.Route? {
      RouteProjects(s, e.d, r, id);
    } else {
      MainProjects(s, r, id);
    }
  }
}
