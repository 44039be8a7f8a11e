/**
 * Every run is finite but for what comes in from outside: each step brings the session closer to its end, except that
 * a read or a window-change signal pays for the steps it causes.
 */
module Termination {
  import opened Protocol
  import opened Endpoints
  import opened Session
  import opened Multiplexing
  import opened SessionInvariant
  import opened Guarantees
  import opened Progress

  // ------------------------------------------------------------------ measure

  /** Work a message can still cause, apart from being carried along. */
  function SourceValue(a: SourceAction): nat { if a.Data? then 15 else 0 }
  function SinkValue(a: SinkAction): nat { if a.Ack? then 1 else 0 }

  function Value(m: Message): nat {
    match m
    case FromSource(_, a) => SourceValue(a)
    case FromSink(_, a) => SinkValue(a)
    case _ => 0
  }

  /** The messages `ms`, each `hops` hand-overs away from its task's channel. */
  function Weigh(ms: seq<Message>, hops: nat): nat {
    if ms == [] then 0 else hops + Value(ms[0]) + Weigh(ms[1..], hops)
  }

  function WeighInbox(s: seq<SinkAction>): nat { if s == [] then 0 else 1 + SinkValue(s[0]) + WeighInbox(s[1..]) }
  function WeighOutbox(s: seq<SourceAction>): nat { if s == [] then 0 else 1 + SourceValue(s[0]) + WeighOutbox(s[1..]) }

  function SenderRank(s: SenderStage): nat {
    match s case Draining => 7 case AwaitingNotify => 6 case Finishing => 1 case SenderEnded => 0
  }

  function PipeWeight(p: Pipe): nat {
    Weigh(p.queue, 5) + Weigh(Opt(p.hand), 4) + Weigh(p.wire, 3) + Weigh(Opt(p.held), 2) + SenderRank(p.sender)
  }

  function SourceRank(p: SourcePhase): nat {
    match p case Idle => 8 case Sending(_) => 28 case Awaiting => 7 case Closing => 6 case _ => 0
  }

  function SinkRank(k: SinkPhase): nat {
    match k
    case Writing(_) => 17
    case SendingAck => 16
    case Flushing => 9
    case SendingClosed => 8
    case Receiving => 2
    case ShuttingDown => 1
    case _ => 0
  }

  function StreamWeight(st: Stream): nat {
    SourceRank(st.ends.src) + SinkRank(st.ends.snk.phase) + WeighInbox(st.inbox) + WeighOutbox(st.outbox)
  }

  function ServerRank(m: ServerMain): nat {
    match m
    case Waiting => 14
    case Injecting(_) => 13
    case Exiting(_) => 7
    case Joining => 1
    case ServerReturned => 0
  }

  function ClientRank(m: ClientMain): nat {
    match m
    case AwaitingStatus => 3
    case JoiningStdio(_) => 2
    case JoiningLoops(_) => 1
    case ClientReturned(_) => 0
  }

  function WindowRank(w: WindowTask): nat {
    match w case Listening => 1 case SendingSize(_, _) => 7 case WindowEnded => 0
  }

  function ControlWeight(s: Session): nat {
    ServerRank(s.server) + ClientRank(s.client) + WindowRank(s.window)
  }

  /** Bounds the number of steps a session can still make without any input. */
  function Measure(s: Session): nat {
    StreamWeight(s.streams[Stdin]) + StreamWeight(s.streams[Stdout]) + StreamWeight(s.streams[Stderr])
    + PipeWeight(s.pipes[ToServer]) + PipeWeight(s.pipes[ToClient])
    + ControlWeight(s)
  }

  lemma {:induction false} WeighConcat(a: seq<Message>, b: seq<Message>, hops: nat)
    ensures Weigh(a + b, hops) == Weigh(a, hops) + Weigh(b, hops)
  {
    if a == [] {
      assert a + b == b;
    } else {
      assert (a + b)[1..] == a[1..] + b;
      WeighConcat(a[1..], b, hops);
    }
  }

  lemma WeighOne(m: Message, hops: nat)
    ensures Weigh([m], hops) == hops + Value(m)
  {
  }

  lemma {:induction false} WeighInboxConcat(a: seq<SinkAction>, b: seq<SinkAction>)
    ensures WeighInbox(a + b) == WeighInbox(a) + WeighInbox(b)
  {
    if a == [] {
      assert a + b == b;
    } else {
      assert (a + b)[1..] == a[1..] + b;
      WeighInboxConcat(a[1..], b);
    }
  }

  lemma {:induction false} WeighOutboxConcat(a: seq<SourceAction>, b: seq<SourceAction>)
    ensures WeighOutbox(a + b) == WeighOutbox(a) + WeighOutbox(b)
  {
    if a == [] {
      assert a + b == b;
    } else {
      assert (a + b)[1..] == a[1..] + b;
      WeighOutboxConcat(a[1..], b);
    }
  }

  // ---------------------------------------------------------------- task steps

  /** A task step other than a read pays for the messages it sends. */
  lemma ActPays(id: StdId, ev: TaskEvent, m: Move, st: Stream)
    requires Act(st.ends, ev, st.inbox, st.outbox) == Some(m)
    ensures StreamWeight(AfterMove(st, m)) + Weigh(Upward(id, m.up), 5) + Weigh(Downward(id, m.down), 5)
         <= StreamWeight(st) + (if ev.SrcRead? then 20 else -1)
  {
    match ev {
      case SrcRead(_) =>
      case SrcEnd =>
      case SrcSend =>
      case SrcRecv =>
      case SnkRecv =>
      case SnkWrite =>
      case SnkBreak(_) =>
      case SnkSend =>
      case SnkFlush =>
      case SnkFlushBreak =>
      case SnkShutdown =>
    }
  }

  /** The total over the three streams after one of them changed. */
  function StreamsWeight(s: Session): nat {
    StreamWeight(s.streams[Stdin]) + StreamWeight(s.streams[Stdout]) + StreamWeight(s.streams[Stderr])
  }

  lemma QueueGrows(p: Pipe, q: Pipe, ms: seq<Message>)
    requires q == p.(queue := q.queue) && Flow(q) == Flow(p) + ms
    ensures PipeWeight(q) == PipeWeight(p) + Weigh(ms, 5)
  {
    var front := Opt(p.held) + p.wire + Opt(p.hand);
    assert front + q.queue == front + (p.queue + ms);
    assert q.queue == (front + q.queue)[|front|..] == p.queue + ms;
    WeighConcat(p.queue, ms, 5);
  }

  lemma TaskMeasure(s: Session, id: StdId, ev: TaskEvent, m: Move, r: Session)
    requires Act(s.streams[id].ends, ev, s.streams[id].inbox, s.streams[id].outbox) == Some(m)
    requires MoveEffect(s, id, m, r)
    ensures StreamsWeight(r) + PipeWeight(r.pipes[ToServer]) + PipeWeight(r.pipes[ToClient])
         <= StreamsWeight(s) + PipeWeight(s.pipes[ToServer]) + PipeWeight(s.pipes[ToClient])
            + (if ev.SrcRead? then 20 else -1)
  {
    ActPays(id, ev, m, s.streams[id]);
    assert QueueOnly(s.pipes[Forward(id)], r.pipes[Forward(id)]);
    assert QueueOnly(s.pipes[Backward(id)], r.pipes[Backward(id)]);
    QueueGrows(s.pipes[Forward(id)], r.pipes[Forward(id)], Upward(id, m.up));
    QueueGrows(s.pipes[Backward(id)], r.pipes[Backward(id)], Downward(id, m.down));
  }

  lemma TaskPays(s: Session, id: StdId, ev: TaskEvent, r: Session)
    requires RunTask(s, id, ev) == Some(r)
    ensures if ev.SrcRead? then Measure(r) < Measure(s) + INPUT_COST else Measure(r) < Measure(s)
  {
    var m := TaskEffect(s, id, ev);
    TaskMeasure(s, id, ev, m, r);
  }

  // ------------------------------------------------------------- other events

  lemma LoopPipeWeight(s: Session, e: Event, r: Session)
    requires (e.Take? || e.Transmit? || e.Fetch?) && Step(s, e) == Some(r)
    ensures PipeWeight(r.pipes[e.d]) < PipeWeight(s.pipes[e.d])
    ensures forall j: Direction :: j != e.d ==> r.pipes[j] == s.pipes[j]
  {
    var p, q := s.pipes[e.d], r.pipes[e.d];
    match e {
      case Take(d) => WeighOne(p.queue[0], 4);
      case Transmit(d) =>
        assert Opt(p.hand) == [p.hand.value] && q.wire == p.wire + [p.hand.value];
        WeighConcat(p.wire, [p.hand.value], 3);
        WeighOne(p.hand.value, 3);
        WeighOne(p.hand.value, 4);
      case Fetch(d) => WeighOne(p.wire[0], 2);
    }
  }

  lemma FinishWeight(s: Session, e: Event, r: Session)
    requires (e.Drained? || e.Notified?) && Step(s, e) == Some(r)
    ensures PipeWeight(r.pipes[ToServer]) + PipeWeight(r.pipes[ToClient])
          < PipeWeight(s.pipes[ToServer]) + PipeWeight(s.pipes[ToClient])
  {
    WeighOne(Finished, 4);
  }

  predicate SameControl(s: Session, r: Session) {
    r.server == s.server && r.client == s.client && r.window == s.window
  }

  lemma LoopKeepsControl(s: Session, e: Event, r: Session)
    requires LoopEvent(e) && Step(s, e) == Some(r)
    ensures SameControl(s, r) && r.streams == s.streams
  {
  }

  function PipesWeight(s: Session): nat { PipeWeight(s.pipes[ToServer]) + PipeWeight(s.pipes[ToClient]) }

  lemma LoopPipesWeight(s: Session, e: Event, r: Session)
    requires LoopEvent(e) && Step(s, e) == Some(r)
    ensures PipesWeight(r) < PipesWeight(s)
  {
    if e.Drained? || e.Notified? {
      FinishWeight(s, e, r);
    } else {
      LoopPipeWeight(s, e, r);
      match e.d { case ToServer => case ToClient => }
    }
  }

  lemma OnlyPipesChange(s: Session, r: Session)
    requires SameControl(s, r) && r.streams == s.streams && PipesWeight(r) < PipesWeight(s)
    ensures Measure(r) < Measure(s)
  {
  }

  lemma LoopDecreases(s: Session, e: Event, r: Session)
    requires LoopEvent(e) && Step(s, e) == Some(r)
    ensures Measure(r) < Measure(s)
  {
    LoopKeepsControl(s, e, r);
    LoopPipesWeight(s, e, r);
    OnlyPipesChange(s, r);
  }

  lemma RouteWeight(s: Session, d: Direction, r: Session)
    requires DoRoute(s, d) == Some(r)
    ensures StreamsWeight(r) + PipeWeight(r.pipes[d]) < StreamsWeight(s) + PipeWeight(s.pipes[d])
    ensures forall j: Direction :: j != d ==> r.pipes[j] == s.pipes[j]
  {
    var p := s.pipes[d];
    HandleWeight(WithPipe(s, d, p.(held := None)), d, p.held.value);
  }

  /** Handing message `m` over gives its channel no more weight than the message had. */
  predicate HandleWeighs(s: Session, d: Direction, m: Message, r: Session) {
    && StreamsWeight(r) <= StreamsWeight(s) + 1 + Value(m)
    && PipeWeight(r.pipes[d]) == PipeWeight(s.pipes[d])
    && (forall j: Direction :: j != d ==> r.pipes[j] == s.pipes[j])
  }

  lemma OutboxWeight(s: Session, id: StdId, a: SourceAction)
    ensures var st := s.streams[id];
      StreamsWeight(WithStream(s, id, st.(outbox := st.outbox + [a]))) == StreamsWeight(s) + 1 + SourceValue(a)
  {
    WeighOutboxConcat(s.streams[id].outbox, [a]);
    match id { case Stdin => case Stdout => case Stderr => }
  }

  lemma InboxWeight(s: Session, id: StdId, a: SinkAction)
    ensures var st := s.streams[id];
      StreamsWeight(WithStream(s, id, st.(inbox := st.inbox + [a]))) == StreamsWeight(s) + 1 + SinkValue(a)
  {
    WeighInboxConcat(s.streams[id].inbox, [a]);
    match id { case Stdin => case Stdout => case Stderr => }
  }

  lemma HandleSourceWeight(s: Session, d: Direction, id: StdId, a: SourceAction)
    requires HandleSource(s, d, id, a).Some?
    ensures HandleWeighs(s, d, FromSource(id, a), HandleSource(s, d, id, a).value)
  {
    OutboxWeight(s, id, a);
  }

  lemma HandleSinkWeight(s: Session, d: Direction, id: StdId, a: SinkAction)
    requires HandleSink(s, d, id, a).Some?
    ensures HandleWeighs(s, d, FromSink(id, a), HandleSink(s, d, id, a).value)
  {
    if HasSource(d, id, s.pty) { InboxWeight(s, id, a); }
  }

  lemma HandleControlWeight(s: Session, d: Direction, m: Message)
    requires HandleControl(s, d, m).Some?
    ensures HandleWeighs(s, d, m, HandleControl(s, d, m).value)
  {
    HandleControlKeepsStreams(s, d, m);
  }

  lemma HandleWeight(s: Session, d: Direction, m: Message)
    requires Handle(s, d, m).Some?
    ensures HandleWeighs(s, d, m, Handle(s, d, m).value)
  {
    match m {
      case FromSource(id, a) => HandleSourceWeight(s, d, id, a);
      case FromSink(id, a) => HandleSinkWeight(s, d, id, a);
      case _ => HandleControlWeight(s, d, m);
    }
  }

  lemma RouteDecreases(s: Session, d: Direction, r: Session)
    requires DoRoute(s, d) == Some(r)
    ensures Measure(r) < Measure(s)
  {
    RouteWeight(s, d, r);
    RouteKeeps(s, d, r);
  }

  lemma SizeDecreases(s: Session, r: Session)
    requires DoSendSize(s) == Some(r)
    ensures Measure(r) < Measure(s)
  {
    var m := WindowSizeChange(s.window.width, s.window.height);
    EnqueueFlow(s, ToServer, [m]);
    QueueGrows(s.pipes[ToServer], r.pipes[ToServer], [m]);
    WeighOne(m, 5);
  }

  lemma MainDecreases(s: Session, r: Session)
    requires DoMainSend(s) == Some(r)
    ensures Measure(r) < Measure(s)
  {
    var m := if s.server.Injecting? then FromSink(Stdin, SinkClosed) else Exit(s.server.status);
    EnqueueFlow(s, ToClient, [m]);
    QueueGrows(s.pipes[ToClient], r.pipes[ToClient], [m]);
    WeighOne(m, 5);
  }

  lemma LocalControl(s: Session, e: Event, r: Session)
    requires Local(e) && Step(s, e) == Some(r)
    ensures
      if IsSignal(e) then ControlWeight(r) < ControlWeight(s) + INPUT_COST else ControlWeight(r) < ControlWeight(s)
  {
    match e {
      case ChildExit(_) =>
      case ServerJoin =>
      case StatusArrives =>
      case StdioJoined =>
      case LoopsJoined =>
      case SizeChanged(_, _) =>
      case SizeUnknown =>
      case WindowStop =>
    }
  }

  lemma LocalPays(s: Session, e: Event, r: Session)
    requires Local(e) && Step(s, e) == Some(r)
    ensures if IsSignal(e) then Measure(r) < Measure(s) + INPUT_COST else Measure(r) < Measure(s)
  {
    LocalTouchesNothing(s, e);
    LocalControl(s, e, r);
  }

  lemma LosingPays(s: Session, e: Event, r: Session)
    requires Loses(e) && Step(s, e) == Some(r)
    ensures Measure(r) < Measure(s)
  {
    var st := r.streams[e.id];
    assert r == WithStream(s, e.id, st) && StreamWeight(st) < StreamWeight(s.streams[e.id]);
    OneStreamLighter(s, e.id, st);
  }

  lemma OneStreamLighter(s: Session, id: StdId, st: Stream)
    requires StreamWeight(st) < StreamWeight(s.streams[id])
    ensures Measure(WithStream(s, id, st)) < Measure(s)
  {
    match id { case Stdin => case Stdout => case Stderr => }
  }

  const INPUT_COST := 21

  predicate IsRead(e: Event) { e.TaskStep? && e.ev.SrcRead? }

  predicate IsSignal(e: Event) { e.SizeChanged? || e.SizeUnknown? }

  /** Something arrives from outside: bytes, or a window-change signal. */
  predicate IsInput(e: Event) { IsRead(e) || IsSignal(e) }

  /** Every step, whatever the schedule, brings the session closer to its end, unless it takes an input. */
  lemma StepPays(s: Session, e: Event, r: Session)
    requires Step(s, e) == Some(r)
    ensures if IsInput(e) then Measure(r) < Measure(s) + INPUT_COST else Measure(r) < Measure(s)
  {
    if Local(e) {
      LocalPays(s, e, r);
    } else if Loses(e) {
      LosingPays(s, e, r);
    } else {
      match e {
        case TaskStep(id, ev) => TaskPays(s, id, ev, r);
        case Route(d) => RouteDecreases(s, d, r);
        case MainSend => MainDecreases(s, r);
        case SendSize => SizeDecreases(s, r);
        case _ => LoopDecreases(s, e, r);
      }
    }
  }

  function Inputs(es: seq<Event>): nat {
    if es == [] then 0 else (if IsInput(es[0]) then 1 else 0) + Inputs(es[1..])
  }

  /** No run has infinitely many steps unless it takes infinitely many inputs. */
  lemma {:induction false} RunIsBounded(s: Session, es: seq<Event>)
    requires Run(s, es).Some?
    ensures |es| + Measure(Run(s, es).value) <= Measure(s) + INPUT_COST * Inputs(es)
    decreases |es|
  {
    if es == [] {
    } else {
      var r := Step(s, es[0]).value;
      StepPays(s, es[0], r);
      RunIsBounded(r, es[1..]);
    }
  }

  // ---------------------------------------------------------------- theorems

  /**
   * Termination: from any reachable state after the child's exit a run has at most as many steps as the state and
   * the inputs of the run pay for, and a run that cannot be continued has returned from both `serve`s with the
   * child's status and both outputs delivered.
   */
  lemma EveryRunFinishes(s: Session, es: seq<Event>)
    requires IsReachable(s) && s.wireCap >= 1 && !s.server.Waiting? && Run(s, es).Some?
    ensures |es| <= Measure(s) + INPUT_COST * Inputs(es)
    ensures var r := Run(s, es).value;
      !CanMove(r) ==>
        && Final(r) && r.child == Some(r.client.status)
        && Delivered(r.streams[Stdout].ends) && Delivered(r.streams[Stderr].ends)
  {
    ReachableHasInv(s);
    RunIsBounded(s, es);
    StaysExited(s, es);
    var r := Run(s, es).value;
    if !CanMove(r) {
      StuckIsFinal(r);
      ReturnMeansDelivered(r);
    }
  }

  lemma {:induction false} StaysExited(s: Session, es: seq<Event>)
    requires Inv(s) && !s.server.Waiting? && Run(s, es).Some?
    ensures var r := Run(s, es).value; Inv(r) && r.wireCap == s.wireCap && !r.server.Waiting? && r.child == s.child
    decreases |es|
  {
    if es == [] {
    } else {
      var r := Step(s, es[0]).value;
      StepKeepsInv(s, es[0], r);
      StepStaysExited(s, es[0], r);
      StaysExited(r, es[1..]);
    }
  }

  predicate AllAutonomous(es: seq<Event>) { forall i :: 0 <= i < |es| ==> Autonomous(es[i]) }

  lemma StepStaysExited(s: Session, e: Event, r: Session)
    requires Inv(s) && !s.server.Waiting? && Step(s, e) == Some(r)
    ensures r.wireCap == s.wireCap && !r.server.Waiting? && r.child == s.child
  {
    StepLosesNothing(s, e);
    FrameHolds(s, e, r);
  }

  /** A session after the child's exit that has `measure` to go. */
  ghost predicate OnItsWay(s: Session, child: Option<ExitStatus>, wireCap: nat, measure: nat) {
    Inv(s) && s.wireCap == wireCap && !s.server.Waiting? && s.child == child && Measure(s) <= measure
  }

  lemma AutonomousPays(s: Session, e: Event, r: Session)
    requires Autonomous(e) && Step(s, e) == Some(r)
    ensures Measure(r) < Measure(s)
  {
    assert !IsInput(e);
    StepPays(s, e, r);
  }

  lemma StepIsOnItsWay(s: Session, e: Event, r: Session)
    requires Inv(s) && !s.server.Waiting? && Autonomous(e) && Step(s, e) == Some(r)
    ensures Measure(s) > 0 && OnItsWay(r, s.child, s.wireCap, Measure(s) - 1)
  {
    assert Measure(r) < Measure(s) by { AutonomousPays(s, e, r); }
    assert Inv(r) by { StepKeepsInv(s, e, r); }
    assert r.wireCap == s.wireCap && !r.server.Waiting? && r.child == s.child by { StepStaysExited(s, e, r); }
  }

  /** After the child's exit, not yet at its end, a session can move on without input and get closer to its end. */
  lemma SomeStep(s: Session) returns (e: Event, r: Session)
    requires Inv(s) && s.wireCap >= 1 && !s.server.Waiting? && !Final(s)
    ensures Autonomous(e) && Step(s, e) == Some(r)
    ensures Measure(s) > 0 && OnItsWay(r, s.child, s.wireCap, Measure(s) - 1)
  {
    e := AnEvent(s);
    r := Step(s, e).value;
    StepIsOnItsWay(s, e, r);
  }

  lemma AnEvent(s: Session) returns (e: Event)
    requires Inv(s) && s.wireCap >= 1 && !s.server.Waiting? && !Final(s)
    ensures Autonomous(e) && Step(s, e).Some?
  {
    assert CanMove(s) by { if !CanMove(s) { StuckIsFinal(s); } }
    e :| Autonomous(e) && Step(s, e).Some?;
  }

  lemma AutonomousFirst(e: Event, rest: seq<Event>)
    requires Autonomous(e) && AllAutonomous(rest)
    ensures AllAutonomous([e] + rest)
  {
  }

  /** After the child's exit a session can be brought to its end without any input, whatever happened before. */
  lemma {:induction false} CanFinish(s: Session) returns (es: seq<Event>)
    requires Inv(s) && s.wireCap >= 1 && !s.server.Waiting?
    ensures AllAutonomous(es) && Run(s, es).Some? && Final(Run(s, es).value)
    decreases Measure(s)
  {
    if Final(s) {
      es := [];
    } else {
      var e, r := SomeStep(s);
      var rest := CanFinish(r);
      RunFirst(s, e, r, rest);
      AutonomousFirst(e, rest);
      es := [e] + rest;
    }
  }

  function Exited(s: Session, status: ExitStatus): Session {
    s.(server := Injecting(status), child := Some(status))
  }

  /** Without input every session comes to rest; its child does not exit on the way. */
  lemma {:induction false} RunToRest(s: Session) returns (es: seq<Event>)
    requires Inv(s)
    ensures AllAutonomous(es) && Run(s, es).Some? && !CanMove(Run(s, es).value)
    decreases Measure(s)
  {
    if !CanMove(s) {
      es := [];
    } else {
      var e :| Autonomous(e) && Step(s, e).Some?;
      var r := Step(s, e).value;
      assert Measure(r) < Measure(s) by { AutonomousPays(s, e, r); }
      assert Inv(r) by { StepKeepsInv(s, e, r); }
      var rest := RunToRest(r);
      RunFirst(s, e, r, rest);
      AutonomousFirst(e, rest);
      es := [e] + rest;
    }
  }

  lemma ExitStep(s: Session, status: ExitStatus)
    requires s.server.Waiting?
    ensures Step(s, ChildExit(status)) == Some(Exited(s, status))
  {
  }

  /**
   * However a session has gone so far, and with whatever status the child ends, both sides can return, the client
   * with that status.
   */
  lemma EverySessionCanEnd(s: Session, status: ExitStatus) returns (es: seq<Event>)
    requires IsReachable(s) && s.wireCap >= 1 && s.server.Waiting?
    ensures Run(s, es).Some?
    ensures var r := Run(s, es).value; Final(r) && r.client.status == status
  {
    var r := Exited(s, status);
    ExitStep(s, status);
    assert Inv(r) by {
      ReachableHasInv(s);
      StepKeepsInv(s, ChildExit(status), r);
    }
    var rest := CanFinish(r);
    RunFirst(s, ChildExit(status), r, rest);
    es := [ChildExit(status)] + rest;
    StaysExited(r, rest);
    ReturnMeansDelivered(Run(r, rest).value);
  }
}
