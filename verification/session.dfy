/**
 * A session without port forwarding: both processes after set-up, their tasks, queues and the
 * connection between them. Every step is one task running from an await point to the next.
 */
module Session {
  import opened Protocol
  import opened Endpoints
  import Traces

  // ------------------------------------------------------------------- state

  /** One stream: its two tasks and their receive channels (capacity one). */
  datatype Stream = Stream(ends: Ends, inbox: seq<SinkAction>, outbox: seq<SourceAction>)

  const BLANK := Stream(FRESH, [], [])

  type Streams = m: map<StdId, Stream> | forall id: StdId :: id in m
    witness map id: StdId :: BLANK

  datatype Direction = ToServer | ToClient

  datatype SenderStage = Draining | AwaitingNotify | Finishing | SenderEnded

  datatype ReceiverStage = Open | Ended | Crashed

  /**
   * One direction of the session: the outbound queue, the message the sender loop holds, the wire,
   * and the message the receiver loop holds.
   */
  datatype Pipe = Pipe(
    queue: seq<Message>, hand: Option<Message>, wire: seq<Message>, held: Option<Message>,
    sender: SenderStage, receiver: ReceiverStage)

  const EMPTY_PIPE := Pipe([], None, [], None, Draining, Open)

  type Pipes = m: map<Direction, Pipe> | forall d: Direction :: d in m
    witness map d: Direction :: EMPTY_PIPE

  datatype ServerMain =
    | Waiting                        // in `child.wait`
    | Injecting(status: ExitStatus)  // sending stdin's `SinkClosed`
    | Exiting(status: ExitStatus)    // sending `Exit`
    | Joining                        // its queue handle is dropped
    | ServerReturned

  datatype ClientMain =
    | AwaitingStatus
    | JoiningStdio(status: ExitStatus)  // the task-end signal is out
    | JoiningLoops(status: ExitStatus)
    | ClientReturned(status: ExitStatus)

  datatype WindowTask = Listening | SendingSize(width: nat, height: nat) | WindowEnded

  datatype Session = Session(
    pty: bool,                  // a pseudo-terminal was allocated: no stderr source, but a window-change task
    wireCap: nat,               // messages one direction of the connection can buffer
    streams: Streams,
    pipes: Pipes,
    server: ServerMain,
    permit: bool,               // the stored permit of `finish_notify`
    child: Option<ExitStatus>,  // what the server's `child.wait` returned
    client: ClientMain,
    slot: Option<ExitStatus>,   // the exit-status one-shot channel
    taken: bool,                // the client receiver has used its sending half
    window: WindowTask
  )

  /** The direction in which a stream's source sends. */
  function Forward(id: StdId): Direction { if id.Stdin? then ToServer else ToClient }

  /** The direction in which a stream's sink replies. */
  function Backward(id: StdId): Direction { if id.Stdin? then ToClient else ToServer }

  /** The state both `serve` functions build. */
  function Init(pty: bool, wireCap: nat): Session {
    var absent := Stream(FRESH.(src := SourceDone), [], []);
    Session(
      pty, wireCap,
      (map id: StdId :: if pty && id.Stderr? then absent else BLANK),
      (map d: Direction ::
        EMPTY_PIPE.(queue := if pty && d.ToClient? then [FromSource(Stderr, SourceClosed)] else [])),
      Waiting, false, None, AwaitingStatus, None, false, if pty then Listening else WindowEnded)
  }

  /** The server still holds a handle of its outbound queue. */
  predicate ServerHandles(s: Session) {
    || s.server.Waiting? || s.server.Injecting? || s.server.Exiting?
    || !s.streams[Stdin].ends.snk.phase.SinkDone?
    || !s.streams[Stdout].ends.src.SourceDone?
    || !s.streams[Stderr].ends.src.SourceDone?
  }

  predicate ClientStdio(s: Session) {
    || !s.streams[Stdin].ends.src.SourceDone?
    || !s.streams[Stdout].ends.snk.phase.SinkDone?
    || !s.streams[Stderr].ends.snk.phase.SinkDone?
    || !s.window.WindowEnded?
  }

  predicate ServerStdio(s: Session) {
    || !s.streams[Stdin].ends.snk.phase.SinkDone?
    || !s.streams[Stdout].ends.src.SourceDone?
    || !s.streams[Stderr].ends.src.SourceDone?
  }

  /** The receiving side of direction `d` has a sink, or a source, registered for the stream. */
  predicate HasSink(d: Direction, id: StdId) { d == Forward(id) }
  predicate HasSource(d: Direction, id: StdId, pty: bool) { d == Backward(id) && !(pty && id.Stderr?) }

  /**
   * The router that feeds the tasks at the receiving end of direction `d` is gone: the client's receiver loop owns it,
   * the server's main task keeps it until it returns.
   */
  predicate RouterGone(s: Session, d: Direction) {
    if d.ToClient? then !s.pipes[ToClient].receiver.Open? else s.server.ServerReturned?
  }

  // ------------------------------------------------------------------- steps

  datatype Event =
    | TaskStep(id: StdId, ev: TaskEvent)
    | Take(d: Direction)        // a sender loop takes a message from its queue
    | Transmit(d: Direction)    // and writes it to the connection
    | Drained(d: Direction)     // the queue is empty and has no handle left
    | Notified                  // the server's sender consumes the notify permit
    | Fetch(d: Direction)       // a receiver loop reads a message
    | Route(d: Direction)       // and handles it
    | ChildExit(status: ExitStatus)
    | MainSend
    | ServerJoin
    | StatusArrives
    | StdioJoined
    | LoopsJoined
    | SizeChanged(width: nat, height: nat)
    | SizeUnknown
    | SendSize
    | WindowStop
    | SourceGone(id: StdId)     // `rx.recv` of a source returns nothing: its router is gone
    | SinkGone(id: StdId)       // likewise for a sink

  function WithPipe(s: Session, d: Direction, p: Pipe): Session { s.(pipes := s.pipes[d := p]) }

  function WithStream(s: Session, id: StdId, st: Stream): Session { s.(streams := s.streams[id := st]) }

  /** Puts messages on an outbound queue; None while it is full. */
  function Enqueue(s: Session, d: Direction, ms: seq<Message>): Option<Session> {
    var p := s.pipes[d];
    if |ms| == 0 then Some(s)
    else if |p.queue| + |ms| <= QUEUE_CAPACITY then Some(WithPipe(s, d, p.(queue := p.queue + ms)))
    else None
  }

  function Upward(id: StdId, up: seq<SourceAction>): seq<Message> {
    if |up| == 0 then [] else [FromSource(id, up[0])]
  }

  function Downward(id: StdId, down: seq<SinkAction>): seq<Message> {
    if |down| == 0 then [] else [FromSink(id, down[0])]
  }

  /** The stream record after a task event that makes move `m`. */
  function AfterMove(st: Stream, m: Move): Stream
    requires m.fromInbox <= |st.inbox| && m.fromOutbox <= |st.outbox|
  {
    Stream(m.ends, Advance(st.inbox, m.fromInbox, []), Advance(st.outbox, m.fromOutbox, []))
  }

  function RunTask(s: Session, id: StdId, ev: TaskEvent): Option<Session> {
    var st := s.streams[id];
    match Act(st.ends, ev, st.inbox, st.outbox)
    case None => None
    case Some(m) =>
      match Enqueue(WithStream(s, id, AfterMove(st, m)), Forward(id), Upward(id, m.up))
      case None => None
      case Some(s') => Enqueue(s', Backward(id), Downward(id, m.down))
  }

  function Crash(s: Session, d: Direction): Session { WithPipe(s, d, s.pipes[d].(receiver := Crashed)) }

  /** `send_source_action`: into the sink's channel, None while it is full; an error if the sink is gone. */
  function HandleSource(s: Session, d: Direction, id: StdId, a: SourceAction): Option<Session> {
    var st := s.streams[id];
    if !HasSink(d, id) || st.ends.snk.phase.SinkDone? then Some(Crash(s, d))
    else if |st.outbox| >= 1 then None
    else Some(WithStream(s, id, st.(outbox := st.outbox + [a])))
  }

  /** `send_sink_action`: into the source's channel; dropped without an error if the source is gone. */
  function HandleSink(s: Session, d: Direction, id: StdId, a: SinkAction): Option<Session> {
    var st := s.streams[id];
    if !HasSource(d, id, s.pty) then Some(Crash(s, d))
    else if st.ends.src.SourceDone? then Some(s)
    else if |st.inbox| >= 1 then None
    else Some(WithStream(s, id, st.(inbox := st.inbox + [a])))
  }

  /** The messages a receiver loop handles itself. */
  function HandleControl(s: Session, d: Direction, m: Message): Option<Session> {
    if m.WindowSizeChange? && d.ToServer? then Some(s)
    else if m.Exit? && d.ToClient? then
      if s.taken || !s.client.AwaitingStatus? then Some(Crash(s, d))
      else Some(s.(taken := true, slot := Some(m.status)))
    else if m.Finished? then
      var s' := WithPipe(s, d, s.pipes[d].(receiver := Ended));
      Some(if d.ToServer? then s'.(permit := true) else s')
    else None
  }

  /** A receiver loop handles message `m`; `s` is the state in which it no longer holds it. */
  function Handle(s: Session, d: Direction, m: Message): Option<Session> {
    match m
    case FromSource(id, a) => HandleSource(s, d, id, a)
    case FromSink(id, a) => HandleSink(s, d, id, a)
    case _ => HandleControl(s, d, m)
  }

  function DoTake(s: Session, d: Direction): Option<Session> {
    var p := s.pipes[d];
    if p.sender.Draining? && p.hand.None? && |p.queue| > 0 then
      Some(WithPipe(s, d, p.(hand := Some(p.queue[0]), queue := p.queue[1..])))
    else None
  }

  function DoTransmit(s: Session, d: Direction): Option<Session> {
    var p := s.pipes[d];
    if p.hand.Some? && |p.wire| < s.wireCap then
      Some(WithPipe(s, d, p.(hand := None, wire := p.wire + [p.hand.value],
                             sender := if p.sender.Finishing? then SenderEnded else p.sender)))
    else None
  }

  /** `rx.recv` of a sender loop returns nothing: the queue is empty and nobody holds a handle of it. */
  function DoDrained(s: Session, d: Direction): Option<Session> {
    var p := s.pipes[d];
    if !(p.sender.Draining? && p.hand.None? && |p.queue| == 0) then None
    else if d.ToServer? then
      if ClientStdio(s) then None else Some(WithPipe(s, d, p.(sender := Finishing, hand := Some(Finished))))
    else
      if ServerHandles(s) then None else Some(WithPipe(s, d, p.(sender := AwaitingNotify)))
  }

  function DoNotified(s: Session): Option<Session> {
    var p := s.pipes[ToClient];
    if p.sender.AwaitingNotify? && p.hand.None? && s.permit then
      Some(WithPipe(s, ToClient, p.(sender := Finishing, hand := Some(Finished))).(permit := false))
    else None
  }

  function DoFetch(s: Session, d: Direction): Option<Session> {
    var p := s.pipes[d];
    if p.receiver.Open? && p.held.None? && |p.wire| > 0 then
      Some(WithPipe(s, d, p.(held := Some(p.wire[0]), wire := p.wire[1..])))
    else None
  }

  function DoRoute(s: Session, d: Direction): Option<Session> {
    var p := s.pipes[d];
    if p.receiver.Open? && p.held.Some? then Handle(WithPipe(s, d, p.(held := None)), d, p.held.value) else None
  }

  function DoChildExit(s: Session, status: ExitStatus): Option<Session> {
    if s.server.Waiting? then Some(s.(server := Injecting(status), child := Some(status))) else None
  }

  /** Counts one more `SinkClosed` sent on behalf of stdin's sink. */
  function Injected(s: Session): Session {
    var st := s.streams[Stdin];
    WithStream(s, Stdin, st.(ends := st.ends.(foreign := st.ends.foreign + 1)))
  }

  function DoMainSend(s: Session): Option<Session> {
    match s.server
    case Injecting(status) => (
      match Enqueue(s, ToClient, [FromSink(Stdin, SinkClosed)])
      case None => None
      case Some(r) => Some(Injected(r).(server := Exiting(status))))
    case Exiting(status) => (
      match Enqueue(s, ToClient, [Exit(status)])
      case None => None
      case Some(r) => Some(r.(server := Joining)))
    case _ => None
  }

  function DoServerJoin(s: Session): Option<Session> {
    if s.server.Joining? && s.pipes[ToServer].receiver.Ended? && s.pipes[ToClient].sender.SenderEnded?
       && !ServerStdio(s)
    then Some(s.(server := ServerReturned)) else None
  }

  /** The client's main task: the status arrives, then stdio ends, then the loops end. */
  function DoClientMain(s: Session, e: Event): Option<Session> {
    match s.client
    case AwaitingStatus =>
      if e.StatusArrives? && s.slot.Some? then Some(s.(client := JoiningStdio(s.slot.value))) else None
    case JoiningStdio(status) =>
      if e.StdioJoined? && !ClientStdio(s) then Some(s.(client := JoiningLoops(status))) else None
    case JoiningLoops(status) =>
      if e.LoopsJoined? && s.pipes[ToClient].receiver.Ended? && s.pipes[ToServer].sender.SenderEnded?
      then Some(s.(client := ClientReturned(status))) else None
    case ClientReturned(_) => None
  }

  function DoWindow(s: Session, e: Event): Option<Session> {
    match e
    case SizeChanged(w, h) =>
      if s.window.Listening? then Some(s.(window := SendingSize(w, h))) else None
    case SizeUnknown =>
      if s.window.Listening? then Some(s) else None
    case WindowStop =>
      if s.window.Listening? && !s.client.AwaitingStatus? then Some(s.(window := WindowEnded)) else None
    case _ => None
  }

  function DoSendSize(s: Session): Option<Session> {
    match s.window
    case SendingSize(w, h) => (
      match Enqueue(s, ToServer, [WindowSizeChange(w, h)])
      case None => None
      case Some(r) => Some(r.(window := Listening)))
    case _ => None
  }

  function DoSourceGone(s: Session, id: StdId): Option<Session> {
    var st := s.streams[id];
    if !RouterGone(s, Backward(id)) || st.inbox != [] then None
    else
      match SourceStep(st.ends.src, ReplyGone)
      case None => None
      case Some(p) => Some(WithStream(s, id, st.(ends := st.ends.(src := p))))
  }

  function DoSinkGone(s: Session, id: StdId): Option<Session> {
    var st := s.streams[id];
    if !RouterGone(s, Forward(id)) || st.outbox != [] then None
    else
      match SinkStep(st.ends.snk, GotGone)
      case None => None
      case Some(k) => Some(WithStream(s, id, st.(ends := st.ends.(snk := k))))
  }

  /** A task loses its channel. */
  predicate Loses(e: Event) { e.SourceGone? || e.SinkGone? }

  function Step(s: Session, e: Event): Option<Session> {
    match e
    case TaskStep(id, ev) => RunTask(s, id, ev)
    case Take(d) => DoTake(s, d)
    case Transmit(d) => DoTransmit(s, d)
    case Drained(d) => DoDrained(s, d)
    case Notified => DoNotified(s)
    case Fetch(d) => DoFetch(s, d)
    case Route(d) => DoRoute(s, d)
    case ChildExit(status) => DoChildExit(s, status)
    case MainSend => DoMainSend(s)
    case ServerJoin => DoServerJoin(s)
    case StatusArrives => DoClientMain(s, e)
    case StdioJoined => DoClientMain(s, e)
    case LoopsJoined => DoClientMain(s, e)
    case SizeChanged(_, _) => DoWindow(s, e)
    case SizeUnknown => DoWindow(s, e)
    case WindowStop => DoWindow(s, e)
    case SendSize => DoSendSize(s)
    case SourceGone(id) => DoSourceGone(s, id)
    case SinkGone(id) => DoSinkGone(s, id)
  }

  /**
   * A task finds its channel gone exactly where it waits for a message, none is left in the channel, and whoever
   * feeds it has dropped the router.
   */
  lemma LossExactly(s: Session, id: StdId)
    ensures var src, fed := s.streams[id].ends.src, if id.Stdin? then s.pipes[ToClient].receiver.Open?
                                                   else !s.server.ServerReturned?;
      Step(s, SourceGone(id)).Some? <==> !fed && s.streams[id].inbox == [] && (src.Idle? || src.Awaiting?)
    ensures var snk, fed := s.streams[id].ends.snk, if id.Stdin? then !s.server.ServerReturned?
                                                   else s.pipes[ToClient].receiver.Open?;
      Step(s, SinkGone(id)).Some? <==> !fed && s.streams[id].outbox == [] && snk.phase.Receiving?
  {
  }

  function Run(s: Session, es: seq<Event>): Option<Session>
    decreases |es|
  {
    if es == [] then Some(s)
    else match Step(s, es[0])
      case None => None
      case Some(s') => Run(s', es[1..])
  }

  lemma RunFirst(s: Session, e: Event, r: Session, rest: seq<Event>)
    requires Step(s, e) == Some(r)
    ensures Run(s, [e] + rest) == Run(r, rest)
  {
    assert ([e] + rest)[1..] == rest;
  }

  predicate Next(s: Session, e: Event, r: Session) { Step(s, e) == Some(r) }

  /** `ss` are the states a run of `es` goes through. */
  predicate IsTrace(ss: seq<Session>, es: seq<Event>) { Traces.IsTrace(Next, ss, es) }

  /** Event number `k` of such a run leads from state number `k` to the next. */
  lemma TraceStep(ss: seq<Session>, es: seq<Event>, k: nat)
    requires IsTrace(ss, es) && k < |es|
    ensures Step(ss[k], es[k]) == Some(ss[k + 1])
  {
    assert Traces.StepAt(Next, ss, es, k);
  }

  lemma {:induction false} LaterTrace(s: Session, es: seq<Event>) returns (rest: seq<Session>)
    requires es != [] && Run(s, es).Some?
    ensures IsTrace([s] + rest, [es[0]] + es[1..]) && |rest| == |es| && rest[|es| - 1] == Run(s, es).value
    decreases |es|, 0
  {
    rest := RunHasTrace(Step(s, es[0]).value, es[1..]);
    Traces.OneStepEarlier(Next, s, es[0], rest, es[1..]);
  }

  /** Every run goes through such states. */
  lemma {:induction false} RunHasTrace(s: Session, es: seq<Event>) returns (ss: seq<Session>)
    requires Run(s, es).Some?
    ensures IsTrace(ss, es) && ss[0] == s && ss[|es|] == Run(s, es).value
    decreases |es|, 1
  {
    if es == [] {
      ss := [s];
    } else {
      var rest := LaterTrace(s, es);
      assert [es[0]] + es[1..] == es;
      ss := [s] + rest;
    }
  }

  lemma ThreeSteps(s: Session, e1: Event, s1: Session, e2: Event, s2: Session, e3: Event, s3: Session)
    requires Step(s, e1) == Some(s1) && Step(s1, e2) == Some(s2) && Step(s2, e3) == Some(s3)
    ensures Run(s, [e1, e2, e3]) == Some(s3)
  {
    RunFirst(s2, e3, s3, []);
    RunFirst(s1, e2, s2, [e3]);
    RunFirst(s, e1, s1, [e2, e3]);
    assert [e3] + [] == [e3] && [e2] + [e3] == [e2, e3] && [e1] + [e2, e3] == [e1, e2, e3];
  }

  /** The states of a trace are those its events lead to. */
  lemma {:induction false} TraceIsRun(ss: seq<Session>, es: seq<Event>, k: nat)
    requires IsTrace(ss, es) && k <= |es|
    ensures Run(ss[0], es[..k]) == Some(ss[k])
  {
    if k == 0 {
      assert es[..0] == [];
    } else {
      TraceIsRun(ss, es, k - 1);
      TraceStep(ss, es, k - 1);
      RunConcat(ss[0], es[..k - 1], [es[k - 1]]);
      RunFirst(ss[k - 1], es[k - 1], ss[k], []);
      assert es[..k] == es[..k - 1] + [es[k - 1]] && [es[k - 1]] == [es[k - 1]] + [];
    }
  }

  lemma {:induction false} RunConcat(s: Session, es: seq<Event>, fs: seq<Event>)
    requires Run(s, es).Some?
    ensures Run(s, es + fs) == Run(Run(s, es).value, fs)
    decreases |es|
  {
    if es == [] {
      assert es + fs == fs;
    } else {
      assert (es + fs)[0] == es[0] && (es + fs)[1..] == es[1..] + fs;
      RunConcat(Step(s, es[0]).value, es[1..], fs);
    }
  }
}
