/**
 * Deadlock freedom with the real queue capacities, once the child has exited and its output pipes are at end of file.
 */
module Progress {
  import opened Protocol
  import opened Endpoints
  import opened Session
  import opened Multiplexing
  import opened SessionInvariant
  import opened Guarantees
  import P = StreamProtocol

  /**
   * Events that need nothing from outside except that writes return: everything but input on the
   * client's stdin, output of the (exited) child, the child's exit and window-change signals.
   */
  predicate Autonomous(e: Event) {
    match e
    case TaskStep(id, ev) => !ev.SrcRead? && (ev.SrcEnd? ==> !id.Stdin?)
    case ChildExit(_) => false
    case SizeChanged(_, _) => false
    case SizeUnknown => false
    case _ => true
  }

  ghost predicate CanMove(s: Session) { exists e :: Autonomous(e) && Step(s, e).Some? }

  /** The events among them other than a send of the server's main task and a broken pipe. */
  predicate Calm(e: Event) {
    !e.MainSend? && (e.TaskStep? ==> !e.ev.SnkBreak? && !e.ev.SnkFlushBreak?)
  }

  /** None of these events can happen; only calm ones are looked at if `calm`. */
  ghost predicate Stuck(s: Session, calm: bool) {
    forall e :: Autonomous(e) && (calm ==> Calm(e)) ==> Step(s, e).None?
  }

  /** Both `serve` functions have returned. */
  predicate Final(s: Session) { s.client.ClientReturned? && s.server.ServerReturned? }

  lemma Blocked(s: Session, calm: bool, e: Event)
    requires Stuck(s, calm) && Autonomous(e) && (calm ==> Calm(e))
    ensures Step(s, e).None?
  {
  }

  predicate Room(s: Session, d: Direction) { |s.pipes[d].queue| < QUEUE_CAPACITY }

  lemma TaskCanRun(s: Session, id: StdId, ev: TaskEvent, m: Move)
    requires Act(s.streams[id].ends, ev, s.streams[id].inbox, s.streams[id].outbox) == Some(m)
    requires m.up == [] || m.down == []
    requires (m.up != [] ==> Room(s, Forward(id))) && (m.down != [] ==> Room(s, Backward(id)))
    ensures RunTask(s, id, ev).Some?
  {
  }

  /** The next event of a sink that does not wait for its source. */
  function SinkWork(k: SinkPhase): TaskEvent {
    match k
    case Writing(_) => SnkWrite
    case SendingAck => SnkSend
    case SendingClosed => SnkSend
    case Flushing => SnkFlush
    case ShuttingDown => SnkShutdown
    case _ => SnkRecv
  }

  lemma SinkBlocked(s: Session, calm: bool, id: StdId)
    requires Stuck(s, calm) && Room(s, Backward(id)) && NoFailure(s.streams[id].ends)
    ensures var st := s.streams[id];
      st.ends.snk.phase.SinkDone? || (st.ends.snk.phase.Receiving? && st.outbox == [])
  {
    var st := s.streams[id];
    var ev := SinkWork(st.ends.snk.phase);
    Blocked(s, calm, TaskStep(id, ev));
    var a := Act(st.ends, ev, st.inbox, st.outbox);
    if a.Some? { TaskCanRun(s, id, ev, a.value); }
  }

  function SourceWork(p: SourcePhase, inbox: seq<SinkAction>): TaskEvent {
    match p
    case Sending(_) => SrcSend
    case Closing => SrcSend
    case Idle => if inbox == [] then SrcEnd else SrcRecv
    case _ => SrcRecv
  }

  lemma SourceBlocked(s: Session, calm: bool, id: StdId)
    requires Stuck(s, calm) && Room(s, Forward(id)) && NoFailure(s.streams[id].ends)
    ensures var st := s.streams[id];
      || st.ends.src.SourceDone?
      || (st.inbox == [] && (st.ends.src.Awaiting? || (id.Stdin? && st.ends.src.Idle?)))
  {
    var st := s.streams[id];
    var ev := SourceWork(st.ends.src, st.inbox);
    if Autonomous(TaskStep(id, ev)) { Blocked(s, calm, TaskStep(id, ev)); }
    var a := Act(st.ends, ev, st.inbox, st.outbox);
    if a.Some? { TaskCanRun(s, id, ev, a.value); }
  }

  // --------------------------------------------------------------- directions

  /** No task waits to be handed a message of direction `d` while its channel is full. */
  predicate Receptive(s: Session, d: Direction) {
    forall id: StdId ::
      && (d == Forward(id) ==> s.streams[id].outbox == [] || s.streams[id].ends.snk.phase.SinkDone?)
      && (d == Backward(id) ==> s.streams[id].inbox == [] || s.streams[id].ends.src.SourceDone?)
  }

  lemma HandleRuns(s: Session, d: Direction, m: Message)
    requires Receptive(s, d) && Belongs(m, d, s.pty)
    ensures Handle(s, d, m).Some?
  {
    match m {
      case FromSource(id, _) =>
      case FromSink(id, _) =>
      case _ =>
    }
  }

  lemma ReceiverBlocked(s: Session, calm: bool, d: Direction)
    requires Stuck(s, calm) && Typed(s) && Receptive(s, d) && s.pipes[d].receiver.Open?
    ensures s.pipes[d].held.None? && s.pipes[d].wire == []
  {
    Blocked(s, calm, Route(d));
    Blocked(s, calm, Fetch(d));
    if s.pipes[d].held.Some? {
      HeadIsUnderWay(s, d);
      assert Belongs(Flow(s.pipes[d])[0], d, s.pty);
      HandleRuns(WithPipe(s, d, s.pipes[d].(held := None)), d, s.pipes[d].held.value);
    }
  }

  lemma DirectionEmpty(s: Session, calm: bool, d: Direction)
    requires Stuck(s, calm) && Typed(s) && Stages(s) && Receptive(s, d) && s.wireCap >= 1
    ensures Flow(s.pipes[d]) == []
  {
    var p := s.pipes[d];
    if p.receiver.Open? {
      ReceiverBlocked(s, calm, d);
      Blocked(s, calm, Transmit(d));
      Blocked(s, calm, Take(d));
    }
  }

  // -------------------------------------------------------------- one by one

  predicate SinkRests(st: Stream) {
    st.ends.snk.phase.SinkDone? || (st.ends.snk.phase.Receiving? && st.outbox == [])
  }

  predicate SourceRests(id: StdId, st: Stream) {
    st.ends.src.SourceDone? || (st.inbox == [] && (st.ends.src.Awaiting? || (id.Stdin? && st.ends.src.Idle?)))
  }

  lemma LinksDoNotFail(s: Session)
    requires Links(s)
    ensures forall id: StdId :: NoFailure(s.streams[id].ends)
  {
    forall id: StdId ensures NoFailure(s.streams[id].ends) {
      assert P.InvFlow(Project(s, id));
    }
  }

  predicate ServerAtRest(s: Session) {
    && SinkRests(s.streams[Stdin])
    && SourceRests(Stdout, s.streams[Stdout]) && SourceRests(Stderr, s.streams[Stderr])
  }

  predicate ClientAtRest(s: Session) {
    && SourceRests(Stdin, s.streams[Stdin])
    && SinkRests(s.streams[Stdout]) && SinkRests(s.streams[Stderr])
    && !s.window.SendingSize?
  }

  lemma ServerRests(s: Session, calm: bool)
    requires Links(s) && Stuck(s, calm) && Room(s, ToClient)
    ensures ServerAtRest(s)
    ensures !calm ==> s.server.Waiting? || ExitSent(s)
  {
    LinksDoNotFail(s);
    SinkBlocked(s, calm, Stdin);
    SourceBlocked(s, calm, Stdout);
    SourceBlocked(s, calm, Stderr);
    if !calm { Blocked(s, calm, MainSend); }
  }

  lemma ClientRests(s: Session, calm: bool)
    requires Links(s) && Stuck(s, calm) && Room(s, ToServer)
    ensures ClientAtRest(s)
  {
    LinksDoNotFail(s);
    SourceBlocked(s, calm, Stdin);
    SinkBlocked(s, calm, Stdout);
    SinkBlocked(s, calm, Stderr);
    Blocked(s, calm, SendSize);
  }

  lemma RestIsReceptive(s: Session)
    ensures ServerAtRest(s) ==> Receptive(s, ToServer)
    ensures ClientAtRest(s) ==> Receptive(s, ToClient)
  {
    forall id: StdId
      ensures ServerAtRest(s) && ToServer == Forward(id) ==>
        s.streams[id].outbox == [] || s.streams[id].ends.snk.phase.SinkDone?
      ensures ServerAtRest(s) && ToServer == Backward(id) ==>
        s.streams[id].inbox == [] || s.streams[id].ends.src.SourceDone?
      ensures ClientAtRest(s) && ToClient == Forward(id) ==>
        s.streams[id].outbox == [] || s.streams[id].ends.snk.phase.SinkDone?
      ensures ClientAtRest(s) && ToClient == Backward(id) ==>
        s.streams[id].inbox == [] || s.streams[id].ends.src.SourceDone?
    {
      match id { case Stdin => case Stdout => case Stderr => }
    }
  }

  /** A stream with nothing under way and both tasks at rest is finished, unless it is stdin before the injection. */
  lemma RestingStreamDone(s: Session, id: StdId)
    requires P.Inv(Project(s, id)) && SinkRests(s.streams[id]) && SourceRests(id, s.streams[id])
    requires Flow(s.pipes[Forward(id)]) == [] && Flow(s.pipes[Backward(id)]) == []
    requires id.Stdin? ==> s.streams[id].ends.foreign > 0
    ensures s.streams[id].ends.src.SourceDone? && s.streams[id].ends.snk.phase.SinkDone?
  {
    var t := Project(s, id);
    assert t.back == s.streams[id].inbox && t.fwd == s.streams[id].outbox;
  }

  lemma RestingStreamsDone(s: Session)
    requires Links(s) && Foreign(s) && ServerAtRest(s) && ClientAtRest(s) && ExitSent(s)
    requires Flow(s.pipes[ToServer]) == [] && Flow(s.pipes[ToClient]) == []
    ensures forall id: StdId :: s.streams[id].ends.src.SourceDone? && s.streams[id].ends.snk.phase.SinkDone?
  {
    forall id: StdId ensures s.streams[id].ends.src.SourceDone? && s.streams[id].ends.snk.phase.SinkDone? {
      assert P.Inv(Project(s, id));
      match id { case Stdin => case Stdout => case Stderr => }
      RestingStreamDone(s, id);
    }
  }

  lemma LoopsEnd(s: Session)
    requires Inv(s) && Stuck(s, false) && !ClientStdio(s) && !ServerHandles(s)
    requires Flow(s.pipes[ToServer]) == [] && Flow(s.pipes[ToClient]) == []
    ensures forall d: Direction :: s.pipes[d].sender.SenderEnded? && s.pipes[d].receiver.Ended?
  {
    var c, v := s.pipes[ToServer], s.pipes[ToClient];
    EmptyFlow(c);
    EmptyFlow(v);
    Blocked(s, false, Drained(ToServer));
    Blocked(s, false, Drained(ToClient));
    Blocked(s, false, Notified);
    assert FinishedLast(c) && FinishedLast(v) && HandFits(c) && HandFits(v);
    assert c.sender.SenderEnded? && c.receiver.Ended?;
    assert v.sender.SenderEnded? && v.receiver.Ended?;
    forall d: Direction ensures s.pipes[d].sender.SenderEnded? && s.pipes[d].receiver.Ended? {
      match d { case ToServer => case ToClient => }
    }
  }

  /** With nothing under way, the client's main task has its status and the window task has stopped. */
  lemma StatusThere(s: Session)
    requires StatusFields(s) && StatusFlow(s) && Stuck(s, false) && ExitSent(s) && Flow(s.pipes[ToClient]) == []
    requires !s.window.SendingSize?
    ensures !s.client.AwaitingStatus? && s.window.WindowEnded?
  {
    Blocked(s, false, StatusArrives);
    Blocked(s, false, WindowStop);
  }

  /** In a session at rest all tasks rest and both directions are empty. */
  lemma NothingUnderWay(s: Session)
    requires Inv(s) && Stuck(s, false) && s.wireCap >= 1
    ensures ServerAtRest(s) && ClientAtRest(s) && (s.server.Waiting? || ExitSent(s))
    ensures Flow(s.pipes[ToServer]) == [] && Flow(s.pipes[ToClient]) == []
  {
    ServerQueueNeverFills(s);
    ServerRests(s, false);
    RestIsReceptive(s);
    DirectionEmpty(s, false, ToServer);
    EmptyFlow(s.pipes[ToServer]);
    ClientRests(s, false);
    RestIsReceptive(s);
    DirectionEmpty(s, false, ToClient);
  }

  lemma MainTasksReturn(s: Session)
    requires Stuck(s, false) && ExitSent(s) && !s.client.AwaitingStatus? && !ClientStdio(s) && !ServerStdio(s)
    requires forall d: Direction :: s.pipes[d].sender.SenderEnded? && s.pipes[d].receiver.Ended?
    ensures Final(s)
  {
    Blocked(s, false, StdioJoined);
    Blocked(s, false, LoopsJoined);
    Blocked(s, false, ServerJoin);
  }

  /**
   * A session at rest whose stdin has ended and that has no window-change task: the client has said `Finished`, child
   * or no child.
   */
  lemma RestWithoutExit(s: Session)
    requires Inv(s) && !CanMove(s) && s.wireCap >= 1 && !s.pty && s.server.Waiting?
    requires !P.Running(s.streams[Stdin].ends.src)
    ensures s.pipes[ToServer].receiver.Ended? && !ServerStdio(s)
    ensures s.pipes[ToClient].sender.Draining? && s.pipes[ToClient].hand.None? && s.pipes[ToClient].queue == []
  {
    assert Stuck(s, false);
    NothingUnderWay(s);
    EmptyFlow(s.pipes[ToServer]);
    EmptyFlow(s.pipes[ToClient]);
    RestingStdioDone(s);
    Blocked(s, false, Drained(ToServer));
    assert FinishedLast(s.pipes[ToServer]) && HandFits(s.pipes[ToServer]);
  }

  lemma RestingStdioDone(s: Session)
    requires Links(s) && ServerAtRest(s) && ClientAtRest(s) && !P.Running(s.streams[Stdin].ends.src)
    requires Flow(s.pipes[ToServer]) == [] && Flow(s.pipes[ToClient]) == []
    ensures forall id: StdId :: s.streams[id].ends.src.SourceDone? && s.streams[id].ends.snk.phase.SinkDone?
  {
    forall id: StdId ensures s.streams[id].ends.src.SourceDone? && s.streams[id].ends.snk.phase.SinkDone? {
      assert P.Inv(Project(s, id));
      match id {
        case Stdin =>
          var t := Project(s, Stdin);
          assert t.fwd == s.streams[Stdin].outbox;
        case Stdout => RestingStreamDone(s, Stdout);
        case Stderr => RestingStreamDone(s, Stderr);
      }
    }
  }

  lemma StuckIsFinal(s: Session)
    requires Inv(s) && !CanMove(s) && !s.server.Waiting? && s.wireCap >= 1
    ensures Final(s)
  {
    assert Stuck(s, false);
    NothingUnderWay(s);
    StatusThere(s);
    RestingStreamsDone(s);
    LoopsEnd(s);
    MainTasksReturn(s);
  }

  /**
   * Deadlock freedom: in every reachable state after the child's exit in which the two `serve`
   * functions have not both returned, some task can run.
   */
  lemma DeadlockFree(s: Session)
    requires IsReachable(s) && s.wireCap >= 1 && !s.server.Waiting? && !Final(s)
    ensures CanMove(s)
  {
    ReachableHasInv(s);
    if !CanMove(s) { StuckIsFinal(s); }
  }
}
