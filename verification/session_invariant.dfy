/** The invariant of a session and the proof that every step keeps it. */
module SessionInvariant {
  import opened Protocol
  import opened Endpoints
  import opened Session
  import opened Multiplexing
  import P = StreamProtocol

  // --------------------------------------------------------------- invariant

  predicate Links(s: Session) { forall id: StdId :: P.Inv(Project(s, id)) }

  predicate Channels(s: Session) {
    && (forall id: StdId :: |s.streams[id].inbox| <= 1 && |s.streams[id].outbox| <= 1)
    && (forall d: Direction :: |s.pipes[d].queue| <= QUEUE_CAPACITY && |s.pipes[d].wire| <= s.wireCap)
  }

  /** A message that belongs in direction `d`. */
  predicate Belongs(m: Message, d: Direction, pty: bool) {
    match m
    case FromSource(id, _) => HasSink(d, id)
    case FromSink(id, _) => HasSource(d, id, pty)
    case WindowSizeChange(_, _) => d.ToServer?
    case Exit(_) => d.ToClient?
    case Finished => true
    case Forwarded(_) => false
  }

  predicate AllBelong(ms: seq<Message>, d: Direction, pty: bool) {
    forall i :: 0 <= i < |ms| ==> Belongs(ms[i], d, pty)
  }

  predicate Typed(s: Session) { forall d: Direction :: AllBelong(Flow(s.pipes[d]), d, s.pty) }

  predicate Foreign(s: Session) {
    && s.streams[Stdin].ends.foreign == P.B(s.server.Exiting? || s.server.Joining? || s.server.ServerReturned?)
    && s.streams[Stdout].ends.foreign == 0
    && s.streams[Stderr].ends.foreign == 0
    && (s.pty ==> s.streams[Stderr].ends.src.SourceDone? && s.streams[Stderr].ends.sent == 0)
  }

  predicate NoFinished(ms: seq<Message>) { forall i :: 0 <= i < |ms| ==> ms[i] != Finished }

  /** `Finished` is not in the flow before the sender says so, then it is last, then the flow is empty. */
  predicate FinishedLast(p: Pipe) {
    var f := Flow(p);
    if p.sender.Draining? || p.sender.AwaitingNotify? then NoFinished(f) && p.receiver.Open?
    else if p.receiver.Open? then f != [] && f[|f| - 1] == Finished && NoFinished(f[..|f| - 1])
    else p.receiver.Ended? && f == []
  }

  /** What the sender loop holds at each stage. */
  predicate HandFits(p: Pipe) {
    && (p.sender.Finishing? ==> p.hand == Some(Finished))
    && (p.sender.AwaitingNotify? || p.sender.SenderEnded? ==> p.hand.None?)
  }

  predicate Stages(s: Session) {
    var c, v := s.pipes[ToServer], s.pipes[ToClient];
    && FinishedLast(c) && FinishedLast(v)
    && !c.sender.AwaitingNotify?
    && (!c.sender.Draining? ==> c.queue == [] && !ClientStdio(s))
    && (!v.sender.Draining? ==> v.queue == [] && !ServerHandles(s))
    && HandFits(c) && HandFits(v)
    && (s.permit <==> c.receiver.Ended? && (v.sender.Draining? || v.sender.AwaitingNotify?))
    && (v.sender.Finishing? || v.sender.SenderEnded? ==> c.receiver.Ended?)
  }

  function Exits(ms: seq<Message>): seq<ExitStatus> {
    if ms == [] then [] else (if ms[0].Exit? then [ms[0].status] else []) + Exits(ms[1..])
  }

  predicate ExitSent(s: Session) { s.server.Joining? || s.server.ServerReturned? }

  predicate StatusFields(s: Session) {
    && (s.child.None? <==> s.server.Waiting?)
    && (s.server.Injecting? || s.server.Exiting? ==> s.child == Some(s.server.status))
    && (s.taken ==> ExitSent(s) && s.slot == s.child)
    && (!s.taken ==> s.slot.None? && s.client.AwaitingStatus?)
    && (!s.client.AwaitingStatus? ==> s.child == Some(s.client.status))
  }

  predicate StatusFlow(s: Session) {
    && (ExitSent(s) ==> s.child.Some?)
    && Exits(Flow(s.pipes[ToClient])) == (if ExitSent(s) && !s.taken then [s.child.value] else [])
  }

  predicate Status(s: Session) { StatusFields(s) && StatusFlow(s) }

  /** What the main tasks have waited for. */
  predicate Joined(s: Session) {
    && (s.client.JoiningLoops? || s.client.ClientReturned? ==> !ClientStdio(s))
    && (s.client.ClientReturned? ==> s.pipes[ToClient].receiver.Ended? && s.pipes[ToServer].sender.SenderEnded?)
    && (s.server.ServerReturned? ==> s.pipes[ToServer].receiver.Ended? && s.pipes[ToClient].sender.SenderEnded?)
    && (s.window.WindowEnded? || s.pty)
    && (s.pty && s.window.WindowEnded? ==> !s.client.AwaitingStatus?)
  }

  predicate Inv(s: Session) {
    Links(s) && Channels(s) && Typed(s) && Foreign(s) && Stages(s) && Status(s) && Joined(s)
  }

  lemma InitLinks(pty: bool, wireCap: nat, id: StdId)
    ensures P.Inv(Project(Init(pty, wireCap), id))
  {
    var s := Init(pty, wireCap);
    assert Flow(s.pipes[ToServer]) == [];
    assert Flow(s.pipes[ToClient]) == if pty then [FromSource(Stderr, SourceClosed)] else [];
    OneMsg(FromSource(Stderr, SourceClosed), id);
  }

  lemma InitHasInv(pty: bool, wireCap: nat)
    ensures Inv(Init(pty, wireCap))
  {
    var s := Init(pty, wireCap);
    assert Links(s) by {
      forall id: StdId ensures P.Inv(Project(s, id)) { InitLinks(pty, wireCap, id); }
    }
    InitFlows(pty, wireCap);
    InitChannels(pty, wireCap);
    InitStages(pty, wireCap);
  }

  lemma InitFlows(pty: bool, wireCap: nat)
    ensures var s := Init(pty, wireCap);
      && Flow(s.pipes[ToServer]) == []
      && Flow(s.pipes[ToClient]) == if pty then [FromSource(Stderr, SourceClosed)] else []
  {
  }

  lemma InitChannels(pty: bool, wireCap: nat)
    ensures Channels(Init(pty, wireCap)) && Typed(Init(pty, wireCap)) && Foreign(Init(pty, wireCap))
  {
    InitFlows(pty, wireCap);
  }

  lemma InitStages(pty: bool, wireCap: nat)
    ensures Stages(Init(pty, wireCap)) && Status(Init(pty, wireCap)) && Joined(Init(pty, wireCap))
  {
    InitFlows(pty, wireCap);
  }

  // ------------------------------------------------------------ flow changes

  /** What event `e` adds at the young end of direction `d`. */
  function Pushed(s: Session, e: Event, d: Direction): seq<Message> {
    match e
    case TaskStep(id, ev) => (
      match Act(s.streams[id].ends, ev, s.streams[id].inbox, s.streams[id].outbox)
      case None => []
      case Some(m) => if d == Forward(id) then Upward(id, m.up) else Downward(id, m.down))
    case MainSend =>
      if d.ToServer? then []
      else if s.server.Injecting? then [FromSink(Stdin, SinkClosed)]
      else if s.server.Exiting? then [Exit(s.server.status)]
      else []
    case SendSize =>
      if d.ToServer? && s.window.SendingSize? then [WindowSizeChange(s.window.width, s.window.height)] else []
    case Drained(j) => if d.ToServer? && j.ToServer? then [Finished] else []
    case Notified => if d.ToClient? then [Finished] else []
    case _ => []
  }

  predicate FlowEffect(s: Session, e: Event, r: Session, d: Direction) {
    var f, g := Flow(s.pipes[d]), Flow(r.pipes[d]);
    if e == Route(d) then s.pipes[d].held.Some? && f == [s.pipes[d].held.value] + g
    else g == f + Pushed(s, e, d)
  }

  lemma SameFlow(s: Session, e: Event, r: Session, d: Direction)
    requires e != Route(d) && Pushed(s, e, d) == [] && Flow(r.pipes[d]) == Flow(s.pipes[d])
    ensures FlowEffect(s, e, r, d)
  {
    assert Flow(s.pipes[d]) + [] == Flow(s.pipes[d]);
  }

  lemma TaskFlowStep(s: Session, id: StdId, ev: TaskEvent, r: Session, d: Direction)
    requires RunTask(s, id, ev) == Some(r)
    ensures FlowEffect(s, TaskStep(id, ev), r, d)
  {
    var m := TaskEffect(s, id, ev);
  }

  lemma SendFlowStep(s: Session, e: Event, r: Session, d: Direction)
    requires (e.MainSend? || e.SendSize?) && Step(s, e) == Some(r) && !Loses(e)
    ensures FlowEffect(s, e, r, d)
  {
    if e.SendSize? {
      EnqueueFlow(s, ToServer, [WindowSizeChange(s.window.width, s.window.height)]);
    } else if s.server.Injecting? {
      EnqueueFlow(s, ToClient, [FromSink(Stdin, SinkClosed)]);
    } else {
      EnqueueFlow(s, ToClient, [Exit(s.server.status)]);
    }
    if Pushed(s, e, d) == [] { SameFlow(s, e, r, d); }
  }

  lemma DrainedFlowStep(s: Session, j: Direction, r: Session, d: Direction)
    requires DoDrained(s, j) == Some(r)
    ensures FlowEffect(s, Drained(j), r, d)
  {
    var p, q := s.pipes[d], r.pipes[d];
    if d == j && d.ToServer? {
      assert Flow(q) == Opt(p.held) + p.wire + [Finished] + [] == Flow(p) + [Finished];
    } else {
      SameFlow(s, Drained(j), r, d);
    }
  }

  lemma NotifiedFlowStep(s: Session, r: Session, d: Direction)
    requires DoNotified(s) == Some(r) && s.pipes[ToClient].queue == []
    ensures FlowEffect(s, Notified, r, d)
  {
    var p, q := s.pipes[d], r.pipes[d];
    if d.ToClient? {
      assert Flow(q) == Opt(p.held) + p.wire + [Finished] + [] == Flow(p) + [Finished];
    } else {
      SameFlow(s, Notified, r, d);
    }
  }

  /** Every event pushes at the young end of a direction or routes the oldest message, and nothing else. */
  lemma FlowStep(s: Session, e: Event, r: Session, d: Direction)
    requires Step(s, e) == Some(r) && !Loses(e)
    requires s.pipes[ToClient].sender.AwaitingNotify? ==> s.pipes[ToClient].queue == []
    ensures FlowEffect(s, e, r, d)
  {
    if Local(e) {
      LocalTouchesNothing(s, e);
      SameFlow(s, e, r, d);
    } else {
      match e {
        case TaskStep(id, ev) => TaskFlowStep(s, id, ev, r, d);
        case Route(j) => RouteFlow(s, j); if j != d { SameFlow(s, e, r, d); }
        case MainSend => SendFlowStep(s, e, r, d);
        case SendSize => SendFlowStep(s, e, r, d);
        case Drained(j) => DrainedFlowStep(s, j, r, d);
        case Notified => NotifiedFlowStep(s, r, d);
        case _ => LoopMail(s, e); SameFlow(s, e, r, d);
      }
    }
  }

  // ------------------------------------------------------------ preservation

  lemma ActKeepsDone(e: Ends, ev: TaskEvent, inbox: seq<SinkAction>, outbox: seq<SourceAction>, m: Move)
    requires Act(e, ev, inbox, outbox) == Some(m)
    ensures e.src.SourceDone? ==> m.ends.src.SourceDone? && m.up == []
    ensures e.snk.phase.SinkDone? ==> m.ends.snk.phase.SinkDone? && m.down == []
    ensures m.ends.foreign == e.foreign
    ensures e.src.SourceDone? ==> m.ends.sent == e.sent
  {
  }

  /** What a hand-over leaves alone: everything but the one channel, or the control fields its message is about. */
  predicate HandleFrame(s: Session, m: Message, r: Session) {
    && r == s.(streams := r.streams, pipes := r.pipes, taken := r.taken, slot := r.slot, permit := r.permit)
    && (!m.Exit? ==> r.taken == s.taken && r.slot == s.slot)
    && (!m.Finished? ==> r.permit == s.permit)
    && (forall id: StdId :: r.streams[id].ends == s.streams[id].ends)
  }

  lemma HandleKeeps(s: Session, d: Direction, m: Message)
    requires Handle(s, d, m).Some?
    ensures HandleFrame(s, m, Handle(s, d, m).value)
  {
    match m {
      case FromSource(id, a) => HandleSourceKeeps(s, d, id, a);
      case FromSink(id, a) => HandleSinkKeeps(s, d, id, a);
      case _ => HandleControlKeeps(s, d, m);
    }
  }

  lemma HandleSourceKeeps(s: Session, d: Direction, id: StdId, a: SourceAction)
    requires HandleSource(s, d, id, a).Some?
    ensures HandleFrame(s, FromSource(id, a), HandleSource(s, d, id, a).value)
  {
    var st := s.streams[id];
    ChannelFrame(s, id, st.(outbox := st.outbox + [a]), FromSource(id, a));
  }

  lemma HandleSinkKeeps(s: Session, d: Direction, id: StdId, a: SinkAction)
    requires HandleSink(s, d, id, a).Some?
    ensures HandleFrame(s, FromSink(id, a), HandleSink(s, d, id, a).value)
  {
    var st := s.streams[id];
    ChannelFrame(s, id, st.(inbox := st.inbox + [a]), FromSink(id, a));
  }

  lemma ChannelFrame(s: Session, id: StdId, st: Stream, m: Message)
    requires st.ends == s.streams[id].ends && (m.FromSource? || m.FromSink?)
    ensures HandleFrame(s, m, WithStream(s, id, st))
  {
  }

  lemma HandleControlKeeps(s: Session, d: Direction, m: Message)
    requires !m.FromSource? && !m.FromSink? && HandleControl(s, d, m).Some?
    ensures HandleFrame(s, m, HandleControl(s, d, m).value)
  {
  }

  lemma RouteKeeps(s: Session, d: Direction, r: Session)
    requires DoRoute(s, d) == Some(r)
    ensures s.pipes[d].held.Some? && s.pipes[d].receiver.Open?
    ensures HandleFrame(s, s.pipes[d].held.value, r)
    ensures Handle(WithPipe(s, d, s.pipes[d].(held := None)), d, s.pipes[d].held.value) == Some(r)
  {
    HandleKeeps(WithPipe(s, d, s.pipes[d].(held := None)), d, s.pipes[d].held.value);
  }

  lemma UnseenStreams(s: Session, e: Event, r: Session)
    requires Unseen(e) && Step(s, e) == Some(r) && !Loses(e)
    ensures r.streams == s.streams
  {
    UnseenMail(s, e);
  }

  lemma MainStreams(s: Session, r: Session)
    requires DoMainSend(s) == Some(r)
    ensures r.streams == if s.server.Injecting? then Injected(s).streams else s.streams
    ensures r == s.(streams := r.streams, pipes := r.pipes, server := r.server)
    ensures if s.server.Injecting? then r.server == Exiting(s.server.status)
            else s.server.Exiting? && r.server == Joining
  {
  }

  /** A finished task stays finished; only task steps change a task; only the main task counts an injection. */
  lemma DoneStays(s: Session, e: Event, r: Session, id: StdId)
    requires Step(s, e) == Some(r) && !Loses(e)
    ensures s.streams[id].ends.src.SourceDone? ==> r.streams[id].ends.src.SourceDone?
    ensures s.streams[id].ends.snk.phase.SinkDone? ==> r.streams[id].ends.snk.phase.SinkDone?
    ensures !e.TaskStep? && !e.MainSend? ==> r.streams[id].ends == s.streams[id].ends
    ensures !e.MainSend? ==> r.streams[id].ends.foreign == s.streams[id].ends.foreign
    ensures s.streams[id].ends.src.SourceDone? ==> r.streams[id].ends.sent == s.streams[id].ends.sent
  {
    if Unseen(e) {
      UnseenStreams(s, e, r);
    } else if e.TaskStep? {
      var m := TaskEffect(s, e.id, e.ev);
      ActKeepsDone(s.streams[e.id].ends, e.ev, s.streams[e.id].inbox, s.streams[e.id].outbox, m);
    } else if e.Route? {
      RouteKeeps(s, e.d, r);
    } else {
      MainStreams(s, r);
    }
  }

  /** A pseudo-terminal session has no stderr source, so its sink never replies. */
  lemma StderrSilent(s: Session, ev: TaskEvent, m: Move)
    requires Foreign(s) && s.pty && P.Inv(Project(s, Stderr))
    requires Act(s.streams[Stderr].ends, ev, s.streams[Stderr].inbox, s.streams[Stderr].outbox) == Some(m)
    ensures m.down == []
  {
    var e := s.streams[Stderr].ends;
    P.NothingToAnswer(Project(s, Stderr));
    NoReply(e, ev, s.streams[Stderr].inbox, s.streams[Stderr].outbox);
  }

  lemma NoReply(e: Ends, ev: TaskEvent, inbox: seq<SinkAction>, outbox: seq<SourceAction>)
    requires Act(e, ev, inbox, outbox).Some? && !e.snk.phase.SendingAck? && !e.snk.phase.SendingClosed?
    ensures Act(e, ev, inbox, outbox).value.down == []
  {
  }

  lemma TaskPushBelongs(s: Session, id: StdId, m: Move, d: Direction)
    requires s.pty && id.Stderr? ==> m.down == []
    ensures AllBelong(if d == Forward(id) then Upward(id, m.up) else Downward(id, m.down), d, s.pty)
  {
  }

  lemma PushedBelongs(s: Session, e: Event, d: Direction)
    requires Foreign(s) && Links(s)
    ensures AllBelong(Pushed(s, e, d), d, s.pty)
  {
    if e.TaskStep? {
      var st := s.streams[e.id];
      var a := Act(st.ends, e.ev, st.inbox, st.outbox);
      if a.Some? {
        if s.pty && e.id.Stderr? { StderrSilent(s, e.ev, a.value); }
        TaskPushBelongs(s, e.id, a.value, d);
      }
    }
  }

  lemma AllBelongTail(m: Message, ms: seq<Message>, d: Direction, pty: bool)
    requires AllBelong([m] + ms, d, pty)
    ensures AllBelong(ms, d, pty) && Belongs(m, d, pty)
  {
    assert ([m] + ms)[0] == m;
    forall i | 0 <= i < |ms| ensures Belongs(ms[i], d, pty) { assert ms[i] == ([m] + ms)[i + 1]; }
  }

  lemma TypedKept(s: Session, e: Event, r: Session)
    requires Typed(s) && Foreign(s) && Links(s) && Stages(s)
    requires Step(s, e) == Some(r) && !Loses(e)
    ensures Typed(r)
  {
    FrameHolds(s, e, r);
    forall d: Direction ensures AllBelong(Flow(r.pipes[d]), d, r.pty) {
      FlowStep(s, e, r, d);
      if e == Route(d) {
        AllBelongTail(s.pipes[d].held.value, Flow(r.pipes[d]), d, s.pty);
      } else {
        PushedBelongs(s, e, d);
      }
    }
  }

  // ------------------------------------------------------ no receiver crashes

  lemma HeadIsUnderWay(s: Session, d: Direction)
    requires s.pipes[d].held.Some?
    ensures var m, f := s.pipes[d].held.value, Flow(s.pipes[d]);
      f != [] && f[0] == m && f == [m] + f[1..]
  {
    var m, f := s.pipes[d].held.value, Flow(s.pipes[d]);
    assert f[0] == m;
    assert f == [m] + f[1..];
  }

  /** A source action that reached a receiver loop finds its sink alive. */
  lemma SourceActionFindsSink(s: Session, d: Direction)
    requires Links(s) && Typed(s)
    requires s.pipes[d].held.Some? && s.pipes[d].held.value.FromSource?
    ensures var id := s.pipes[d].held.value.sid; HasSink(d, id) && !s.streams[id].ends.snk.phase.SinkDone?
  {
    var m, f := s.pipes[d].held.value, Flow(s.pipes[d]);
    HeadIsUnderWay(s, d);
    assert Belongs(f[0], d, s.pty);
    assert P.Inv(Project(s, m.sid));
    assert SourceMsgs(f, m.sid) != [];
  }

  lemma {:induction false} ExitsConcat(a: seq<Message>, b: seq<Message>)
    ensures Exits(a + b) == Exits(a) + Exits(b)
  {
    if a == [] {
      assert a + b == b;
    } else {
      assert (a + b)[0] == a[0] && (a + b)[1..] == a[1..] + b;
      ExitsConcat(a[1..], b);
    }
  }

  lemma ExitArrivesOnce(s: Session)
    requires Status(s) && s.pipes[ToClient].held.Some? && s.pipes[ToClient].held.value.Exit?
    ensures !s.taken && s.client.AwaitingStatus?
    ensures ExitSent(s) && s.child == Some(s.pipes[ToClient].held.value.status)
  {
    var f := Flow(s.pipes[ToClient]);
    HeadIsUnderWay(s, ToClient);
    assert Exits(f)[0] == f[0].status;
  }

  /** Every routed message finds its entry and `Exit` comes once, so no receiver loop fails. */
  lemma NeverCrashes(s: Session, d: Direction, r: Session)
    requires Links(s) && Typed(s) && Status(s)
    requires DoRoute(s, d) == Some(r)
    ensures !r.pipes[d].receiver.Crashed?
  {
    var m := s.pipes[d].held.value;
    assert Belongs(m, d, s.pty) by {
      HeadIsUnderWay(s, d);
      assert Belongs(Flow(s.pipes[d])[0], d, s.pty);
    }
    if m.FromSource? { SourceActionFindsSink(s, d); }
    if m.Exit? && d.ToClient? { ExitArrivesOnce(s); }
    Handleable(WithPipe(s, d, s.pipes[d].(held := None)), d, m);
  }

  lemma Handleable(s: Session, d: Direction, m: Message)
    requires Belongs(m, d, s.pty) && Handle(s, d, m).Some? && s.pipes[d].receiver.Open?
    requires m.FromSource? ==> !s.streams[m.sid].ends.snk.phase.SinkDone?
    requires m.Exit? && d.ToClient? ==> !s.taken && s.client.AwaitingStatus?
    ensures !Handle(s, d, m).value.pipes[d].receiver.Crashed?
  {
  }

  // ------------------------------------------------------- which event changes what

  /** The pipes and control fields event `e` may change. */
  predicate Frame(s: Session, e: Event, r: Session) {
    && r.pty == s.pty && r.wireCap == s.wireCap
    && (!e.ChildExit? && !e.MainSend? && !e.ServerJoin? ==> r.server == s.server)
    && (e.ChildExit? ==> s.server.Waiting? && r.server == Injecting(e.status) && r.child == Some(e.status))
    && (e.MainSend? ==>
        if s.server.Injecting? then r.server == Exiting(s.server.status) else s.server.Exiting? && r.server == Joining)
    && (e.ServerJoin? ==> s.server.Joining? && r.server == ServerReturned)
    && (!e.ChildExit? ==> r.child == s.child)
    && (!e.StatusArrives? && !e.StdioJoined? && !e.LoopsJoined? ==> r.client == s.client)
    && (!e.Route? ==> r.taken == s.taken && r.slot == s.slot)
    && (!e.Route? && !e.Notified? ==> r.permit == s.permit)
    && (!e.SizeChanged? && !e.SendSize? && !e.WindowStop? ==> r.window == s.window)
    && (s.window.WindowEnded? ==> r.window.WindowEnded?)
  }

  lemma SendFrame(s: Session, e: Event, r: Session)
    requires (e.MainSend? || e.SendSize?) && Step(s, e) == Some(r) && !Loses(e)
    ensures Frame(s, e, r)
    ensures forall d: Direction :: QueueOnly(s.pipes[d], r.pipes[d])
  {
    if e.SendSize? { SizeFrame(s, r); } else { MainFrame(s, r); }
  }

  lemma SizeFrame(s: Session, r: Session)
    requires DoSendSize(s) == Some(r)
    ensures Frame(s, SendSize, r) && forall d: Direction :: QueueOnly(s.pipes[d], r.pipes[d])
  {
    EnqueueFlow(s, ToServer, [WindowSizeChange(s.window.width, s.window.height)]);
  }

  lemma MainFrame(s: Session, r: Session)
    requires DoMainSend(s) == Some(r)
    ensures Frame(s, MainSend, r) && forall d: Direction :: QueueOnly(s.pipes[d], r.pipes[d])
  {
    EnqueueFlow(s, ToClient, [if s.server.Injecting? then FromSink(Stdin, SinkClosed) else Exit(s.server.status)]);
  }

  lemma LocalFrame(s: Session, e: Event, r: Session)
    requires Local(e) && Step(s, e) == Some(r) && !Loses(e)
    ensures Frame(s, e, r) && r.pipes == s.pipes
  {
  }

  predicate LoopEvent(e: Event) { e.Take? || e.Transmit? || e.Drained? || e.Notified? || e.Fetch? }

  lemma LoopFrame(s: Session, e: Event, r: Session)
    requires LoopEvent(e) && Step(s, e) == Some(r) && !Loses(e)
    ensures Frame(s, e, r)
  {
  }

  lemma FrameHolds(s: Session, e: Event, r: Session)
    requires Step(s, e) == Some(r) && !Loses(e)
    ensures Frame(s, e, r)
  {
    if LoopEvent(e) {
      LoopFrame(s, e, r);
    } else if Local(e) {
      LocalFrame(s, e, r);
    } else {
      match e {
        case TaskStep(id, ev) => var m := TaskEffect(s, id, ev);
        case Route(d) => RouteKeeps(s, d, r);
        case _ => SendFrame(s, e, r);
      }
    }
  }

  /** What event `e` may change in direction `d`. */
  predicate PipeFrame(e: Event, d: Direction, p: Pipe, q: Pipe) {
    && (e != Transmit(d) && e != Drained(d) && !(e.Notified? && d.ToClient?) ==> q.sender == p.sender)
    && (e != Route(d) ==> q.receiver == p.receiver)
    && (e != Take(d) && e != Transmit(d) && e != Drained(d) && !(e.Notified? && d.ToClient?) ==> q.hand == p.hand)
    && (e != Transmit(d) && e != Fetch(d) ==> q.wire == p.wire)
    && (q.queue == p.queue || |q.queue| <= QUEUE_CAPACITY || |q.queue| <= |p.queue|)
  }

  lemma LoopPipeFrame(s: Session, e: Event, r: Session, d: Direction)
    requires LoopEvent(e) && Step(s, e) == Some(r) && !Loses(e)
    ensures PipeFrame(e, d, s.pipes[d], r.pipes[d])
    ensures |r.pipes[d].queue| <= |s.pipes[d].queue|
  {
    match e {
      case Take(j) => assert r.pipes[d] == s.pipes[d] || j == d;
      case Transmit(j) => assert r.pipes[d] == s.pipes[d] || j == d;
      case Drained(j) => assert r.pipes[d] == s.pipes[d] || j == d;
      case Notified => assert r.pipes[d] == s.pipes[d] || d.ToClient?;
      case Fetch(j) => assert r.pipes[d] == s.pipes[d] || j == d;
    }
  }

  lemma RoutePipeFrame(s: Session, j: Direction, r: Session, d: Direction)
    requires DoRoute(s, j) == Some(r)
    ensures PipeFrame(Route(j), d, s.pipes[d], r.pipes[d])
  {
    RouteKeeps(s, j, r);
    HandleHandsOver(WithPipe(s, j, s.pipes[j].(held := None)), j, s.pipes[j].held.value, Stdin);
  }

  lemma PipeFrameHolds(s: Session, e: Event, r: Session, d: Direction)
    requires Step(s, e) == Some(r) && !Loses(e)
    ensures PipeFrame(e, d, s.pipes[d], r.pipes[d])
  {
    if LoopEvent(e) {
      LoopPipeFrame(s, e, r, d);
    } else if Local(e) {
      LocalFrame(s, e, r);
    } else if e.TaskStep? {
      var m := TaskEffect(s, e.id, e.ev);
      assert QueueOnly(s.pipes[d], r.pipes[d]);
    } else if e.Route? {
      RoutePipeFrame(s, e.d, r, d);
    } else {
      SendFrame(s, e, r);
      assert QueueOnly(s.pipes[d], r.pipes[d]);
    }
  }

  // --------------------------------------------------------- the parts of Inv

  lemma LinksKept(s: Session, e: Event, r: Session)
    requires Links(s) && Typed(s) && Status(s) && Step(s, e) == Some(r) && !Loses(e)
    ensures Links(r)
  {
    if e.Route? { NeverCrashes(s, e.d, r); }
    forall id: StdId ensures P.Inv(Project(r, id)) {
      StepProjects(s, e, r, id);
      P.RunKeepsInv(Project(s, id), Seen(s, e, id));
    }
  }

  lemma ChannelsKept(s: Session, e: Event, r: Session)
    requires Channels(s) && Step(s, e) == Some(r) && !Loses(e)
    ensures Channels(r)
  {
    forall d: Direction ensures |r.pipes[d].queue| <= QUEUE_CAPACITY && |r.pipes[d].wire| <= s.wireCap {
      PipeFrameHolds(s, e, r, d);
    }
    FrameHolds(s, e, r);
    forall id: StdId ensures |r.streams[id].inbox| <= 1 && |r.streams[id].outbox| <= 1 {
      InboxesKept(s, e, r, id);
    }
  }

  lemma InboxesKept(s: Session, e: Event, r: Session, id: StdId)
    requires |s.streams[id].inbox| <= 1 && |s.streams[id].outbox| <= 1 && Step(s, e) == Some(r) && !Loses(e)
    ensures |r.streams[id].inbox| <= 1 && |r.streams[id].outbox| <= 1
  {
    if Unseen(e) {
      UnseenStreams(s, e, r);
    } else if e.TaskStep? {
      TaskRespectsCapacity(s, e.id, e.ev, r, id);
    } else if e.Route? {
      HandleRespectsCapacity(WithPipe(s, e.d, s.pipes[e.d].(held := None)), e.d, s.pipes[e.d].held.value, id);
    } else {
      MainStreams(s, r);
    }
  }

  lemma TaskRespectsCapacity(s: Session, j: StdId, ev: TaskEvent, r: Session, id: StdId)
    requires |s.streams[id].inbox| <= 1 && |s.streams[id].outbox| <= 1 && RunTask(s, j, ev) == Some(r)
    ensures |r.streams[id].inbox| <= 1 && |r.streams[id].outbox| <= 1
  {
    var m := TaskEffect(s, j, ev);
  }

  lemma HandleRespectsCapacity(s: Session, d: Direction, m: Message, id: StdId)
    requires |s.streams[id].inbox| <= 1 && |s.streams[id].outbox| <= 1 && Handle(s, d, m).Some?
    ensures |Handle(s, d, m).value.streams[id].inbox| <= 1 && |Handle(s, d, m).value.streams[id].outbox| <= 1
  {
    match m {
      case FromSource(j, a) =>
      case FromSink(j, a) =>
      case _ => HandleControlKeepsStreams(s, d, m);
    }
  }

  lemma HandleControlKeepsStreams(s: Session, d: Direction, m: Message)
    requires HandleControl(s, d, m).Some?
    ensures HandleControl(s, d, m).value.streams == s.streams
  {
  }

  lemma ForeignKept(s: Session, e: Event, r: Session)
    requires Foreign(s) && Step(s, e) == Some(r) && !Loses(e)
    ensures Foreign(r)
  {
    FrameHolds(s, e, r);
    forall id: StdId
      ensures e.MainSend? || r.streams[id].ends.foreign == s.streams[id].ends.foreign
      ensures s.streams[id].ends.src.SourceDone? ==>
        r.streams[id].ends.src.SourceDone? && r.streams[id].ends.sent == s.streams[id].ends.sent
    {
      DoneStays(s, e, r, id);
    }
    match e {
      case MainSend => MainStreams(s, r);
      case ChildExit(_) =>
      case ServerJoin =>
      case _ =>
    }
  }

  lemma StatusFieldsKept(s: Session, e: Event, r: Session)
    requires StatusFields(s) && Step(s, e) == Some(r) && !Loses(e) && Frame(s, e, r)
    requires e.Route? ==> RouteTakes(s, e.d, r)
    ensures StatusFields(r)
  {
    match e {
      case Route(d) =>
      case MainSend => MainStreams(s, r);
      case ChildExit(_) =>
      case ServerJoin =>
      case StatusArrives =>
      case StdioJoined =>
      case LoopsJoined =>
      case _ =>
    }
  }

  lemma StatusFlowKept(s: Session, e: Event, r: Session)
    requires Status(s) && FlowEffect(s, e, r, ToClient) && Frame(s, e, r)
    requires e.Route? ==> RouteTakes(s, e.d, r)
    ensures StatusFlow(r)
  {
    var f, g := Flow(s.pipes[ToClient]), Flow(r.pipes[ToClient]);
    if e == Route(ToClient) {
      var m := s.pipes[ToClient].held.value;
      assert Exits(f) == Exits([m]) + Exits(g) by { ExitsConcat([m], g); }
      OneExit(m);
    } else {
      assert Exits(g) == Exits(f) + Exits(Pushed(s, e, ToClient)) by { ExitsConcat(f, Pushed(s, e, ToClient)); }
      PushedExits(s, e);
    }
  }

  lemma OneExit(m: Message)
    ensures Exits([m]) == if m.Exit? then [m.status] else []
  {
    assert [m][1..] == [];
  }

  lemma StatusKept(s: Session, e: Event, r: Session)
    requires Status(s) && Stages(s) && Typed(s) && Step(s, e) == Some(r) && !Loses(e)
    ensures Status(r)
  {
    FrameHolds(s, e, r);
    FlowStep(s, e, r, ToClient);
    if e.Route? { RouteStatus(s, e.d, r); }
    StatusFieldsKept(s, e, r);
    StatusFlowKept(s, e, r);
  }

  /** Only the main task pushes `Exit`. */
  lemma PushedExits(s: Session, e: Event)
    ensures Exits(Pushed(s, e, ToClient)) == if e.MainSend? && s.server.Exiting? then [s.server.status] else []
  {
  }

  /** A routed `Exit` is the first one and fills the one-shot slot; nothing else does. */
  predicate RouteTakes(s: Session, d: Direction, r: Session) {
    && s.pipes[d].held.Some?
    && var m := s.pipes[d].held.value;
      if m.Exit? && d.ToClient? then
        && !s.taken && s.client.AwaitingStatus? && ExitSent(s) && s.child == Some(m.status)
        && r.taken && r.slot == Some(m.status)
      else r.taken == s.taken && r.slot == s.slot
  }

  lemma RouteStatus(s: Session, d: Direction, r: Session)
    requires DoRoute(s, d) == Some(r) && Status(s) && Typed(s)
    ensures RouteTakes(s, d, r)
  {
    var m := s.pipes[d].held.value;
    RouteKeeps(s, d, r);
    if m.Exit? && d.ToClient? { ExitArrivesOnce(s); }
  }

  // ------------------------------------------------------------ the handshake

  predicate Closed(p: Pipe) { p.sender.Finishing? || p.sender.SenderEnded? }

  /** How event `e` moves the sender and the receiver loop of direction `d`. */
  predicate StageMove(s: Session, e: Event, r: Session, d: Direction) {
    var p, q := s.pipes[d], r.pipes[d];
    && (e == Transmit(d) ==>
          q.hand.None? && q.sender == if p.sender.Finishing? then SenderEnded else p.sender)
    && (e == Take(d) ==> p.sender.Draining? && q.sender.Draining?)
    && (e == Drained(d) ==>
          && p.sender.Draining? && p.hand.None? && p.queue == [] && q.queue == []
          && if d.ToServer? then !ClientStdio(s) && q.sender.Finishing? && q.hand == Some(Finished)
             else !ServerHandles(s) && q.sender.AwaitingNotify? && q.hand.None?)
    && (e.Notified? && d.ToClient? ==>
          p.sender.AwaitingNotify? && s.permit && !r.permit && q.sender.Finishing? && q.hand == Some(Finished)
          && q.queue == p.queue)
    && (e == Route(d) ==>
          && p.receiver.Open? && p.held.Some?
          && (!q.receiver.Crashed? ==> q.receiver == if p.held.value == Finished then Ended else Open)
          && q.queue == p.queue
          && r.permit == (s.permit || (d.ToServer? && p.held.value == Finished)))
  }

  lemma StageMoves(s: Session, e: Event, r: Session, d: Direction)
    requires Step(s, e) == Some(r) && !Loses(e)
    ensures StageMove(s, e, r, d)
  {
    if e == Route(d) {
      RouteStage(s, d, r);
    }
  }

  lemma HandleStage(s: Session, d: Direction, m: Message)
    requires Handle(s, d, m).Some? && s.pipes[d].receiver.Open?
    ensures var r := Handle(s, d, m).value;
      && r.pipes[d].queue == s.pipes[d].queue
      && (!r.pipes[d].receiver.Crashed? ==> r.pipes[d].receiver == if m == Finished then Ended else Open)
      && r.permit == (s.permit || (d.ToServer? && m == Finished))
  {
    match m {
      case FromSource(_, _) =>
      case FromSink(_, _) =>
      case _ =>
    }
  }

  lemma RouteStage(s: Session, d: Direction, r: Session)
    requires DoRoute(s, d) == Some(r)
    ensures StageMove(s, Route(d), r, d)
  {
    HandleStage(WithPipe(s, d, s.pipes[d].(held := None)), d, s.pipes[d].held.value);
  }

  lemma GoneStays(s: Session, e: Event, r: Session)
    requires Step(s, e) == Some(r) && !Loses(e)
    ensures !ClientStdio(s) ==> !ClientStdio(r)
    ensures !ServerHandles(s) ==> !ServerHandles(r)
  {
    FrameHolds(s, e, r);
    DoneStays(s, e, r, Stdin);
    DoneStays(s, e, r, Stdout);
    DoneStays(s, e, r, Stderr);
  }

  /** Nobody is left to push in direction `d`. */
  predicate Deserted(s: Session, d: Direction) { if d.ToServer? then !ClientStdio(s) else !ServerHandles(s) }

  lemma DesertedPushesNothing(s: Session, e: Event, d: Direction)
    requires Deserted(s, d) && !e.Drained? && !e.Notified?
    ensures Pushed(s, e, d) == []
  {
    match e {
      case TaskStep(id, ev) =>
        var st := s.streams[id];
        var a := Act(st.ends, ev, st.inbox, st.outbox);
        if a.Some? { ActKeepsDone(st.ends, ev, st.inbox, st.outbox, a.value); }
      case _ =>
    }
  }

  lemma FinishedLastPush(p: Pipe, q: Pipe, x: seq<Message>)
    requires FinishedLast(p) && Flow(q) == Flow(p) + x && q.receiver == p.receiver
    requires if Closed(p) then x == [] && Closed(q)
             else (if Closed(q) then x == [Finished] else NoFinished(x))
    ensures FinishedLast(q)
  {
    if !Closed(p) && Closed(q) { assert Flow(q)[..|Flow(q)| - 1] == Flow(p); }
  }

  lemma FinishedLastRoute(p: Pipe, q: Pipe, m: Message)
    requires FinishedLast(p) && Flow(p) == [m] + Flow(q) && q.sender == p.sender
    requires p.receiver.Open? && q.receiver == if m == Finished then Ended else Open
    ensures FinishedLast(q)
    ensures m == Finished ==> Closed(p)
  {
    var f, g := Flow(p), Flow(q);
    assert f[0] == m;
    forall i | 0 <= i < |g| ensures g[i] == f[i + 1] {}
    if Closed(p) {
      if |f| == 1 {
        assert g == [];
      } else {
        assert f[..|f| - 1][0] == m;
        assert g[|g| - 1] == Finished;
        forall i | 0 <= i < |g| - 1 ensures g[i] != Finished { assert g[i] == f[..|f| - 1][i + 1]; }
      }
    }
  }

  lemma StagePush(s: Session, e: Event, r: Session, d: Direction)
    requires Stages(s) && e != Route(d)
    requires FlowEffect(s, e, r, d) && StageMove(s, e, r, d) && PipeFrame(e, d, s.pipes[d], r.pipes[d])
    ensures var p, q, x := s.pipes[d], r.pipes[d], Pushed(s, e, d);
      if Closed(p) then x == [] && Closed(q) else (if Closed(q) then x == [Finished] else NoFinished(x))
  {
    if Closed(s.pipes[d]) && !e.Drained? && !e.Notified? {
      DesertedPushesNothing(s, e, d);
    }
  }

  lemma FinishedLastKept(s: Session, e: Event, r: Session, d: Direction)
    requires Stages(s)
    requires FlowEffect(s, e, r, d) && StageMove(s, e, r, d) && PipeFrame(e, d, s.pipes[d], r.pipes[d])
    requires !r.pipes[d].receiver.Crashed?
    ensures FinishedLast(r.pipes[d])
    ensures e == Route(d) && s.pipes[d].held == Some(Finished) ==> Closed(s.pipes[d])
  {
    if e == Route(d) {
      FinishedLastRoute(s.pipes[d], r.pipes[d], s.pipes[d].held.value);
    } else {
      StagePush(s, e, r, d);
      FinishedLastPush(s.pipes[d], r.pipes[d], Pushed(s, e, d));
    }
  }

  /** A direction whose sender saw its queue drained keeps an empty queue. */
  lemma QueueStaysEmpty(s: Session, e: Event, r: Session, d: Direction)
    requires Stages(s) && !s.pipes[d].sender.Draining?
    requires FlowEffect(s, e, r, d) && StageMove(s, e, r, d) && PipeFrame(e, d, s.pipes[d], r.pipes[d])
    requires QueueMove(s, e, r, d)
    ensures r.pipes[d].queue == []
  {
    if !e.Drained? && !e.Notified? { DesertedPushesNothing(s, e, d); }
  }

  /** Unless something is pushed, a queue only shrinks. */
  predicate QueueMove(s: Session, e: Event, r: Session, d: Direction) {
    Pushed(s, e, d) == [] ==> |r.pipes[d].queue| <= |s.pipes[d].queue|
  }

  lemma QueueMoves(s: Session, e: Event, r: Session, d: Direction)
    requires Step(s, e) == Some(r) && !Loses(e) && FlowEffect(s, e, r, d)
    ensures QueueMove(s, e, r, d)
  {
    if LoopEvent(e) {
      LoopPipeFrame(s, e, r, d);
    } else if Local(e) {
      LocalFrame(s, e, r);
    } else if e.TaskStep? {
      var m := TaskEffect(s, e.id, e.ev);
      assert QueueOnly(s.pipes[d], r.pipes[d]);
    } else if e.Route? {
      RouteQueue(s, e.d, r, d);
    } else {
      SendFrame(s, e, r);
      assert QueueOnly(s.pipes[d], r.pipes[d]);
    }
  }

  lemma RouteQueue(s: Session, j: Direction, r: Session, d: Direction)
    requires DoRoute(s, j) == Some(r)
    ensures r.pipes[d].queue == s.pipes[d].queue
  {
    RouteKeeps(s, j, r);
    HandleHandsOver(WithPipe(s, j, s.pipes[j].(held := None)), j, s.pipes[j].held.value, Stdin);
  }

  lemma ReceiverSound(s: Session, e: Event, r: Session, d: Direction)
    requires Links(s) && Typed(s) && Status(s) && Stages(s) && Step(s, e) == Some(r) && !Loses(e)
    ensures !r.pipes[d].receiver.Crashed?
  {
    if e == Route(d) { NeverCrashes(s, d, r); } else { PipeFrameHolds(s, e, r, d); }
  }

  /** Everything `StagesKept` needs to know about direction `d`. */
  predicate StageFacts(s: Session, e: Event, r: Session, d: Direction) {
    && FinishedLast(r.pipes[d])
    && (e == Route(d) && s.pipes[d].held == Some(Finished) ==> Closed(s.pipes[d]))
    && (!s.pipes[d].sender.Draining? ==> r.pipes[d].queue == [])
    && StageMove(s, e, r, d)
    && PipeFrame(e, d, s.pipes[d], r.pipes[d])
    && !r.pipes[d].receiver.Crashed?
    && (Deserted(s, d) ==> Deserted(r, d))
  }

  lemma StageFactsHold(s: Session, e: Event, r: Session, d: Direction)
    requires Links(s) && Typed(s) && Status(s) && Stages(s) && Step(s, e) == Some(r) && !Loses(e)
    ensures StageFacts(s, e, r, d)
  {
    FlowStep(s, e, r, d);
    StageMoves(s, e, r, d);
    PipeFrameHolds(s, e, r, d);
    ReceiverSound(s, e, r, d);
    FinishedLastKept(s, e, r, d);
    QueueMoves(s, e, r, d);
    if !s.pipes[d].sender.Draining? { QueueStaysEmpty(s, e, r, d); }
    GoneStays(s, e, r);
  }

  lemma StagesFollow(s: Session, e: Event, r: Session)
    requires Stages(s) && Frame(s, e, r) && StageFacts(s, e, r, ToServer) && StageFacts(s, e, r, ToClient)
    ensures Stages(r)
  {
    var c, v := s.pipes[ToServer], s.pipes[ToClient];
    var c', v' := r.pipes[ToServer], r.pipes[ToClient];
    assert !c'.sender.Draining? ==> Deserted(r, ToServer);
    assert !v'.sender.Draining? ==> Deserted(r, ToClient);
    HandFollows(s, e, r, ToServer);
    HandFollows(s, e, r, ToClient);
    assert FinishedLast(c') && FinishedLast(v') && HandFits(c') && HandFits(v');
    SendersFollow(s, e, r);
    PermitFollows(s, e, r);
  }

  /**
   * The client's sender never waits for a permit, and the server's does not finish before the client's `Finished` was
   * read.
   */
  lemma SendersFollow(s: Session, e: Event, r: Session)
    requires Stages(s) && Frame(s, e, r) && StageFacts(s, e, r, ToServer) && StageFacts(s, e, r, ToClient)
    ensures !r.pipes[ToServer].sender.AwaitingNotify?
    ensures !r.pipes[ToServer].sender.Draining? ==> r.pipes[ToServer].queue == []
    ensures !r.pipes[ToClient].sender.Draining? ==> r.pipes[ToClient].queue == []
    ensures Closed(r.pipes[ToClient]) ==> r.pipes[ToServer].receiver.Ended?
  {
  }

  /** The permit is there exactly from the client's `Finished` to the server's. */
  lemma PermitFollows(s: Session, e: Event, r: Session)
    requires Stages(s) && Frame(s, e, r) && StageFacts(s, e, r, ToServer) && StageFacts(s, e, r, ToClient)
    ensures r.permit <==> r.pipes[ToServer].receiver.Ended?
                          && (r.pipes[ToClient].sender.Draining? || r.pipes[ToClient].sender.AwaitingNotify?)
  {
    match e {
      case Route(_) =>
      case Transmit(_) =>
      case Drained(_) =>
      case Notified =>
      case Take(_) =>
      case _ =>
    }
  }

  lemma HandFollows(s: Session, e: Event, r: Session, d: Direction)
    requires HandFits(s.pipes[d]) && StageMove(s, e, r, d) && PipeFrame(e, d, s.pipes[d], r.pipes[d])
    ensures HandFits(r.pipes[d])
  {
  }

  lemma StagesKept(s: Session, e: Event, r: Session)
    requires Links(s) && Typed(s) && Status(s) && Stages(s) && Step(s, e) == Some(r) && !Loses(e)
    ensures Stages(r)
  {
    FrameHolds(s, e, r);
    StageFactsHold(s, e, r, ToServer);
    StageFactsHold(s, e, r, ToClient);
    StagesFollow(s, e, r);
  }

  // ----------------------------------------------------------------- together

  lemma EndedStays(s: Session, e: Event, r: Session, d: Direction)
    requires StageFacts(s, e, r, d)
    ensures s.pipes[d].receiver.Ended? ==> r.pipes[d].receiver.Ended?
    ensures s.pipes[d].sender.SenderEnded? ==> r.pipes[d].sender.SenderEnded?
  {
  }

  /** What the main tasks have waited for when they move on. */
  lemma JoinSteps(s: Session, e: Event, r: Session)
    requires Step(s, e) == Some(r) && !Loses(e)
    ensures e.StdioJoined? ==> !ClientStdio(s) && r == s.(client := r.client)
    ensures e.LoopsJoined? ==>
      && s.client.JoiningLoops? && r == s.(client := r.client)
      && s.pipes[ToClient].receiver.Ended? && s.pipes[ToServer].sender.SenderEnded?
    ensures e.StatusArrives? ==> r.client.JoiningStdio?
    ensures e.WindowStop? ==> !s.client.AwaitingStatus?
    ensures e.SizeChanged? || e.SendSize? ==> !r.window.WindowEnded?
    ensures e.ServerJoin? ==>
      && r == s.(server := ServerReturned)
      && s.pipes[ToServer].receiver.Ended? && s.pipes[ToClient].sender.SenderEnded?
    ensures e.SizeChanged? || e.SendSize? || e.WindowStop? ==> !s.window.WindowEnded? && r.pty == s.pty
  {
  }

  lemma JoinedKept(s: Session, e: Event, r: Session)
    requires Joined(s) && Frame(s, e, r) && Step(s, e) == Some(r) && !Loses(e)
    requires StageFacts(s, e, r, ToServer) && StageFacts(s, e, r, ToClient)
    ensures Joined(r)
  {
    EndedStays(s, e, r, ToServer);
    EndedStays(s, e, r, ToClient);
    GoneStays(s, e, r);
    JoinSteps(s, e, r);
  }

  lemma ClientTasksEnded(s: Session)
    requires Stages(s) && s.pipes[ToClient].receiver.Ended?
    ensures !ClientStdio(s)
  {
  }

  lemma ServerTasksEnded(s: Session)
    requires Stages(s) && Joined(s) && s.server.ServerReturned?
    ensures !ServerHandles(s)
  {
  }

  /** No task ever finds its channel gone: whoever drops a router does so after all tasks it feeds have ended. */
  lemma NothingLost(s: Session, e: Event)
    requires Stages(s) && Joined(s) && Loses(e)
    ensures Step(s, e).None?
  {
    var d := if e.SourceGone? then Backward(e.id) else Forward(e.id);
    if RouterGone(s, d) {
      if d.ToClient? { ClientTasksEnded(s); } else { ServerTasksEnded(s); }
    }
  }

  lemma StepLosesNothing(s: Session, e: Event)
    requires Inv(s) && Step(s, e).Some?
    ensures !Loses(e)
  {
    if Loses(e) { NothingLost(s, e); }
  }

  /** Every step of a session keeps the invariant. */
  lemma StepKeepsInv(s: Session, e: Event, r: Session)
    requires Inv(s) && Step(s, e) == Some(r)
    ensures Inv(r)
  {
    StepLosesNothing(s, e);
    FrameHolds(s, e, r);
    StageFactsHold(s, e, r, ToServer);
    StageFactsHold(s, e, r, ToClient);
    LinksKept(s, e, r);
    ChannelsKept(s, e, r);
    TypedKept(s, e, r);
    ForeignKept(s, e, r);
    StatusKept(s, e, r);
    StagesKept(s, e, r);
    JoinedKept(s, e, r);
  }

  lemma {:induction false} RunKeepsInv(s: Session, es: seq<Event>)
    requires Inv(s) && Run(s, es).Some?
    ensures Inv(Run(s, es).value)
    decreases |es|
  {
    if es == [] {
    } else {
      var r := Step(s, es[0]).value;
      StepKeepsInv(s, es[0], r);
      RunKeepsInv(r, es[1..]);
    }
  }

  lemma Reachable(pty: bool, wireCap: nat, es: seq<Event>)
    requires Run(Init(pty, wireCap), es).Some?
    ensures Inv(Run(Init(pty, wireCap), es).value)
  {
    InitHasInv(pty, wireCap);
    RunKeepsInv(Init(pty, wireCap), es);
  }

  /**
   * Multiplexing is transparent: the events stream `id` sees of a session run are a run of the
   * two-party protocol, from the projection of the first state to that of the last.
   */
  lemma {:induction false} RunProjects(s: Session, es: seq<Event>, id: StdId)
    requires Inv(s) && Run(s, es).Some?
    ensures P.Run(Project(s, id), SeenAll(s, es, id)) == Some(Project(Run(s, es).value, id))
    decreases |es|
  {
    if es == [] {
    } else {
      var e, r := es[0], Step(s, es[0]).value;
      StepLosesNothing(s, e);
      if e.Route? { NeverCrashes(s, e.d, r); }
      StepProjects(s, e, r, id);
      StepKeepsInv(s, e, r);
      RunProjects(r, es[1..], id);
      P.RunConcat(Project(s, id), Seen(s, e, id), SeenAll(r, es[1..], id));
    }
  }
}
