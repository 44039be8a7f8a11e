/**
 * The client after its connection failed: a receiver loop that is still reading shuts every task down and reports the
 * failure, unless the exit status has been reported before; nothing arrives from the server any more. Without port
 * forwarding.
 */
module ClientFailure {
  import opened Protocol
  import opened Endpoints
  import opened FailingTasks
  import S = Session
  import M = Multiplexing
  import I = SessionInvariant
  import G = Guarantees
  import P = StreamProtocol
  import R = ReceiverTask

  // ------------------------------------------------------------------- state

  /** One message of `RecvRouter::shutdown`: `SourceClosed` to an output's sink or `SinkClosed` to stdin's source. */
  datatype Notice = ToSink(id: StdId) | ToSource

  datatype Receiver = ShuttingTasksDown(todo: seq<Notice>) | Reporting | ReceiverEnded

  datatype Sender = Draining(busy: bool) | Finishing | SenderEnded

  datatype Main =
    | AwaitingStatus
    | JoiningStdio(status: ExitStatus)
    | JoiningLoops(status: ExitStatus)
    | Succeeded(status: ExitStatus)    // `serve` returned the status
    | Failed                           // `serve` returned the failure

  datatype Failing = Failing(
    stdin: SourceTask, stdout: SinkTask, stderr: SinkTask, window: S.WindowTask,
    queue: nat,          // messages in the outbound queue
    sender: Sender, receiver: Receiver, report: R.Report, main: Main)

  datatype Event =
    | SourceEvent(input: SourceInput)
    | SinkEvent(id: StdId, io: SinkInput)
    | TakeMessage | WriteReturns | QueueDrained | FinishedReturns
    | SendNotice | MakeReport
    | ReportArrives | StdioJoined | LoopsJoined
    | SizeChanged(width: nat, height: nat) | SizeUnknown | SendSize | WindowStop

  function Sink(s: Failing, id: StdId): SinkTask { if id.Stdout? then s.stdout else s.stderr }

  function WithSink(s: Failing, id: StdId, t: SinkTask): Failing {
    if id.Stdout? then s.(stdout := t) else s.(stderr := t)
  }

  predicate Handles(s: Failing) {
    || !s.stdin.phase.SourceDone? || !s.stdout.state.phase.SinkDone? || !s.stderr.state.phase.SinkDone?
    || !s.window.WindowEnded?
  }

  // ------------------------------------------------------------------- steps

  function Send(s: Failing, sends: bool): Option<Failing> {
    if !sends then Some(s) else if s.queue < QUEUE_CAPACITY then Some(s.(queue := s.queue + 1)) else None
  }

  function SourceMoves(s: Failing, i: SourceInput): Option<Failing> {
    match SourceTaskStep(s.stdin, i)
    case None => None
    case Some(t) => Send(s.(stdin := t), i.Sent?)
  }

  function SinkMoves(s: Failing, id: StdId, i: SinkInput): Option<Failing> {
    if id.Stdin? then None
    else
      match SinkTaskStep(Sink(s, id), i)
      case None => None
      case Some(t) => Send(WithSink(s, id, t), Sends(i))
  }

  /** Sends the next notice; waits while the channel is full; an ended task is passed over. */
  function DoNotice(s: Failing): Option<Failing> {
    match s.receiver
    case ShuttingTasksDown(todo) =>
      if |todo| == 0 then Some(s.(receiver := Reporting))
      else
        var r := s.(receiver := ShuttingTasksDown(todo[1..]));
        if todo[0].ToSource? then
          if s.stdin.phase.SourceDone? then Some(r)
          else if |s.stdin.inbox| < 1 then Some(r.(stdin := TellSource(s.stdin)))
          else None
        else
          var id := todo[0].id;
          if Sink(s, id).state.phase.SinkDone? then Some(r)
          else if |Sink(s, id).outbox| < 1 then Some(WithSink(r, id, TellSink(Sink(s, id))))
          else None
    case _ => None
  }

  function DoWindow(s: Failing, e: Event): Option<Failing> {
    match e
    case SizeChanged(w, h) => if s.window.Listening? then Some(s.(window := S.SendingSize(w, h))) else None
    case SizeUnknown => if s.window.Listening? then Some(s) else None
    case SendSize => if s.window.SendingSize? then Send(s.(window := S.Listening), true) else None
    case WindowStop =>
      if s.window.Listening? && !s.main.AwaitingStatus? then Some(s.(window := S.WindowEnded)) else None
    case _ => None
  }

  function DoSender(s: Failing, e: Event): Option<Failing> {
    match e
    case TakeMessage =>
      if s.sender == Draining(false) && s.queue > 0 then Some(s.(sender := Draining(true), queue := s.queue - 1))
      else None
    case WriteReturns => if s.sender == Draining(true) then Some(s.(sender := Draining(false))) else None
    case QueueDrained =>
      if s.sender == Draining(false) && s.queue == 0 && !Handles(s) then Some(s.(sender := Finishing)) else None
    case FinishedReturns => if s.sender.Finishing? then Some(s.(sender := SenderEnded)) else None
    case _ => None
  }

  function DoMain(s: Failing, e: Event): Option<Failing> {
    match s.main
    case AwaitingStatus =>
      if !e.ReportArrives? || s.report.Unsent? then None
      else if s.report.Status? then Some(s.(main := JoiningStdio(s.report.status)))
      else Some(s.(main := Failed))
    case JoiningStdio(status) =>
      if e.StdioJoined? && !Handles(s) then Some(s.(main := JoiningLoops(status))) else None
    case JoiningLoops(status) =>
      if e.LoopsJoined? && s.receiver.ReceiverEnded? && s.sender.SenderEnded? then Some(s.(main := Succeeded(status)))
      else None
    case _ => None
  }

  function Step(s: Failing, e: Event): Option<Failing> {
    match e
    case SourceEvent(i) => SourceMoves(s, i)
    case SinkEvent(id, i) => SinkMoves(s, id, i)
    case SendNotice => DoNotice(s)
    case MakeReport =>
      if s.receiver.Reporting? then
        Some(s.(receiver := ReceiverEnded, report := if s.report.Unsent? then R.Failure else s.report))
      else None
    case ReportArrives => DoMain(s, e)
    case StdioJoined => DoMain(s, e)
    case LoopsJoined => DoMain(s, e)
    case SizeChanged(_, _) => DoWindow(s, e)
    case SizeUnknown => DoWindow(s, e)
    case SendSize => DoWindow(s, e)
    case WindowStop => DoWindow(s, e)
    case _ => DoSender(s, e)
  }

  function Run(s: Failing, es: seq<Event>): Option<Failing>
    decreases |es|
  {
    if es == [] then Some(s)
    else match Step(s, es[0])
      case None => None
      case Some(r) => Run(r, es[1..])
  }

  // --------------------------------------------------------------- invariant

  predicate Pending(s: Failing, n: Notice) { s.receiver.ShuttingTasksDown? && n in s.receiver.todo }

  predicate SourceOk(s: Failing) { SourceFine(s.stdin) && (Pending(s, ToSource) || SourceTold(s.stdin)) }

  predicate SinkOk(s: Failing, id: StdId) {
    SinkFine(Sink(s, id)) && (Pending(s, ToSink(id)) || SinkTold(Sink(s, id)))
  }

  predicate Loops(s: Failing) {
    && s.queue <= QUEUE_CAPACITY
    && (!s.sender.Draining? ==> s.queue == 0 && !Handles(s))
    && (s.report.Failure? ==> s.receiver.ReceiverEnded?)
    && (s.receiver.ReceiverEnded? ==> !s.report.Unsent?)
    && (s.receiver.ShuttingTasksDown? ==>
        forall i :: 0 <= i < |s.receiver.todo| ==> s.receiver.todo[i] != ToSink(Stdin))
  }

  /** What the main task knows it was told, and what it has waited for. */
  predicate MainOk(s: Failing) {
    match s.main
    case AwaitingStatus => true
    case JoiningStdio(status) => s.report == R.Status(status)
    case JoiningLoops(status) => s.report == R.Status(status) && !Handles(s)
    case Succeeded(status) =>
      s.report == R.Status(status) && !Handles(s) && s.receiver.ReceiverEnded? && s.sender.SenderEnded?
    case Failed => s.report.Failure?
  }

  predicate Inv(s: Failing) { SourceOk(s) && SinkOk(s, Stdout) && SinkOk(s, Stderr) && Loops(s) && MainOk(s) }

  lemma SourceKeeps(s: Failing, i: SourceInput, r: Failing)
    requires Inv(s) && SourceMoves(s, i) == Some(r)
    ensures Inv(r)
  {
    SourceTaskPays(s.stdin, i, r.stdin);
  }

  lemma SinkKeeps(s: Failing, id: StdId, i: SinkInput, r: Failing)
    requires Inv(s) && SinkMoves(s, id, i) == Some(r)
    ensures Inv(r)
  {
    SinkTaskPays(Sink(s, id), i, Sink(r, id));
  }

  lemma NoticeKeeps(s: Failing, r: Failing)
    requires Inv(s) && DoNotice(s) == Some(r)
    ensures Inv(r)
  {
    var todo := s.receiver.todo;
    if todo != [] {
      assert todo == [todo[0]] + todo[1..];
      assert forall n: Notice :: n in todo ==> n == todo[0] || n in todo[1..];
      if todo[0].ToSource? { SourceNoticeKeeps(s, r); } else { SinkNoticeKeeps(s, r); }
    }
  }

  lemma SourceNoticeKeeps(s: Failing, r: Failing)
    requires Inv(s) && DoNotice(s) == Some(r) && s.receiver.todo != [] && s.receiver.todo[0].ToSource?
    requires forall n: Notice :: n in s.receiver.todo ==> n == s.receiver.todo[0] || n in s.receiver.todo[1..]
    ensures Inv(r)
  {
  }

  lemma SinkNoticeKeeps(s: Failing, r: Failing)
    requires Inv(s) && DoNotice(s) == Some(r) && s.receiver.todo != [] && s.receiver.todo[0].ToSink?
    requires forall n: Notice :: n in s.receiver.todo ==> n == s.receiver.todo[0] || n in s.receiver.todo[1..]
    ensures Inv(r)
  {
    var id := s.receiver.todo[0].id;
    if |Sink(s, id).outbox| < 1 { SinkIsTold(Sink(s, id), []); }
  }

  lemma ControlKeeps(s: Failing, e: Event, r: Failing)
    requires Inv(s) && Step(s, e) == Some(r) && !e.SourceEvent? && !e.SinkEvent? && !e.SendNotice?
    ensures Inv(r)
  {
    match e {
      case TakeMessage =>
      case WriteReturns =>
      case QueueDrained =>
      case FinishedReturns =>
      case MakeReport =>
      case ReportArrives =>
      case StdioJoined =>
      case LoopsJoined =>
      case SizeChanged(_, _) =>
      case SizeUnknown =>
      case SendSize =>
      case WindowStop =>
    }
  }

  lemma StepKeepsInv(s: Failing, e: Event, r: Failing)
    requires Inv(s) && Step(s, e) == Some(r)
    ensures Inv(r)
  {
    match e {
      case SourceEvent(i) => SourceKeeps(s, i, r);
      case SinkEvent(id, i) => SinkKeeps(s, id, i, r);
      case SendNotice => NoticeKeeps(s, r);
      case _ => ControlKeeps(s, e, r);
    }
  }

  // ---------------------------------------------------------------- progress

  /** Events that need nothing but that writes succeed: no input on stdin and no window-change signal. */
  predicate Autonomous(e: Event) {
    match e
    case SourceEvent(i) => !i.Read? && !i.ReadEnd?
    case SinkEvent(_, i) => !i.WriteBroken? && !i.FlushBroken?
    case SizeChanged(_, _) => false
    case SizeUnknown => false
    case _ => true
  }

  ghost predicate CanMove(s: Failing) { exists e :: Autonomous(e) && Step(s, e).Some? }

  predicate Final(s: Failing) { s.main.Succeeded? || s.main.Failed? }

  lemma Blocked(s: Failing, e: Event)
    requires !CanMove(s) && Autonomous(e)
    ensures Step(s, e).None?
  {
  }

  lemma TasksAtRest(s: Failing)
    requires Inv(s) && !CanMove(s)
    ensures s.queue == 0 && s.sender != Draining(true) && s.receiver.ReceiverEnded?
    ensures s.stdin.phase.SourceDone? && s.stdout.state.phase.SinkDone? && s.stderr.state.phase.SinkDone?
  {
    Blocked(s, WriteReturns);
    Blocked(s, TakeMessage);
    Blocked(s, SourceEvent(SourceNext(s.stdin)));
    SourceRests(s.stdin);
    Blocked(s, SinkEvent(Stdout, SinkNext(s.stdout)));
    SinkRests(s.stdout);
    Blocked(s, SinkEvent(Stderr, SinkNext(s.stderr)));
    SinkRests(s.stderr);
    Blocked(s, SendNotice);
    Blocked(s, MakeReport);
  }

  /** A client on which nothing can move has returned. */
  lemma StuckIsFinal(s: Failing)
    requires Inv(s) && !CanMove(s)
    ensures Final(s)
  {
    TasksAtRest(s);
    Blocked(s, ReportArrives);
    Blocked(s, WindowStop);
    Blocked(s, SendSize);
    Blocked(s, StdioJoined);
    Blocked(s, QueueDrained);
    Blocked(s, FinishedReturns);
    Blocked(s, LoopsJoined);
  }

  // ------------------------------------------------------------- termination

  function ReceiverWeight(r: Receiver): nat {
    match r
    case ShuttingTasksDown(todo) => 2 + 3 * |todo|
    case Reporting => 1
    case ReceiverEnded => 0
  }

  function SenderWeight(s: Sender): nat {
    match s
    case Draining(busy) => if busy then 4 else 2
    case Finishing => 1
    case SenderEnded => 0
  }

  function MainWeight(m: Main): nat {
    match m
    case AwaitingStatus => 3
    case JoiningStdio(_) => 2
    case JoiningLoops(_) => 1
    case _ => 0
  }

  function WindowWeight(w: S.WindowTask): nat {
    match w case Listening => 1 case SendingSize(_, _) => 5 case WindowEnded => 0
  }

  function Measure(s: Failing): nat {
    SourceWeight(s.stdin) + SinkWeight(s.stdout) + SinkWeight(s.stderr) + WindowWeight(s.window) + MESSAGE * s.queue
    + ReceiverWeight(s.receiver) + SenderWeight(s.sender) + MainWeight(s.main)
  }

  predicate IsSignal(e: Event) { e.SizeChanged? || e.SizeUnknown? }

  const SIGNAL_COST := 5

  lemma SourceDecreases(s: Failing, i: SourceInput, r: Failing)
    requires Inv(s) && SourceMoves(s, i) == Some(r)
    ensures Measure(r) < Measure(s)
  {
    SourceTaskPays(s.stdin, i, r.stdin);
  }

  lemma SinkDecreases(s: Failing, id: StdId, i: SinkInput, r: Failing)
    requires Inv(s) && SinkMoves(s, id, i) == Some(r)
    ensures Measure(r) < Measure(s)
  {
    SinkTaskPays(Sink(s, id), i, Sink(r, id));
  }

  lemma NoticeDecreases(s: Failing, r: Failing)
    requires Inv(s) && DoNotice(s) == Some(r)
    ensures Measure(r) < Measure(s)
  {
    if |s.stdout.outbox| < 1 { SinkIsTold(s.stdout, []); }
    if |s.stderr.outbox| < 1 { SinkIsTold(s.stderr, []); }
  }

  /** Every step but a window-change signal, reads included, brings the client closer to its end. */
  lemma StepPays(s: Failing, e: Event, r: Failing)
    requires Inv(s) && Step(s, e) == Some(r)
    ensures if IsSignal(e) then Measure(r) < Measure(s) + SIGNAL_COST else Measure(r) < Measure(s)
  {
    match e {
      case SourceEvent(i) => SourceDecreases(s, i, r);
      case SinkEvent(id, i) => SinkDecreases(s, id, i, r);
      case SendNotice => NoticeDecreases(s, r);
      case SizeChanged(_, _) =>
      case SizeUnknown =>
      case SendSize =>
      case WindowStop =>
      case _ => LoopsPay(s, e, r);
    }
  }

  /** The loops and the main task get on. */
  lemma LoopsPay(s: Failing, e: Event, r: Failing)
    requires Inv(s) && Step(s, e) == Some(r)
    requires !e.SourceEvent? && !e.SinkEvent? && !e.SendNotice? && !e.SendSize? && !IsSignal(e)
    ensures Measure(r) < Measure(s)
  {
  }

  function Signals(es: seq<Event>): nat {
    if es == [] then 0 else (if IsSignal(es[0]) then 1 else 0) + Signals(es[1..])
  }

  lemma {:induction false} RunIsBounded(s: Failing, es: seq<Event>)
    requires Inv(s) && Run(s, es).Some?
    ensures Inv(Run(s, es).value)
    ensures |es| + Measure(Run(s, es).value) <= Measure(s) + SIGNAL_COST * Signals(es)
    decreases |es|
  {
    if es == [] {
    } else {
      var r := Step(s, es[0]).value;
      StepKeepsInv(s, es[0], r);
      StepPays(s, es[0], r);
      RunIsBounded(r, es[1..]);
    }
  }

  // ------------------------------------------------------- as in the session

  /** What an event of the client's tasks in a session is on a failing client; nothing for the receiver loop's. */
  function Counterpart(s: S.Session, e: S.Event): Option<Event> {
    match e
    case TaskStep(id, ev) =>
      if id.Stdin? && P.BySource(ev) then Some(SourceEvent(SourceInputOf(s.streams[id], ev)))
      else if !id.Stdin? && !P.BySource(ev) then Some(SinkEvent(id, SinkInputOf(s.streams[id], ev)))
      else None
    case Take(d) => if d.ToServer? then Some(TakeMessage) else None
    case Transmit(d) =>
      if d.ToClient? then None
      else if s.pipes[d].sender.Finishing? then Some(FinishedReturns)
      else Some(WriteReturns)
    case Drained(d) => if d.ToServer? then Some(QueueDrained) else None
    case StatusArrives => Some(ReportArrives)
    case StdioJoined => Some(StdioJoined)
    case LoopsJoined => Some(LoopsJoined)
    case SizeChanged(w, h) => Some(SizeChanged(w, h))
    case SizeUnknown => Some(SizeUnknown)
    case SendSize => Some(SendSize)
    case WindowStop => Some(WindowStop)
    case _ => None
  }

  lemma SourceAlike(s: S.Session, todo: seq<Notice>, ev: TaskEvent, r: S.Session)
    requires S.RunTask(s, Stdin, ev) == Some(r) && P.BySource(ev)
    ensures Step(Fail(s, todo), SourceEvent(SourceInputOf(s.streams[Stdin], ev))) == Some(Fail(r, todo))
  {
    SourceStepsAlike(s, Stdin, ev, r);
  }

  lemma SinkAlike(s: S.Session, todo: seq<Notice>, id: StdId, ev: TaskEvent, r: S.Session)
    requires S.RunTask(s, id, ev) == Some(r) && !id.Stdin? && !P.BySource(ev)
    ensures Step(Fail(s, todo), SinkEvent(id, SinkInputOf(s.streams[id], ev))) == Some(Fail(r, todo))
  {
    SinkStepsAlike(s, id, ev, r);
  }

  lemma LoopAlike(s: S.Session, todo: seq<Notice>, e: S.Event, r: S.Session)
    requires I.Stages(s) && S.Step(s, e) == Some(r)
    requires (e.Take? || e.Transmit? || e.Drained?) && e.d.ToServer?
    ensures Step(Fail(s, todo), Counterpart(s, e).value) == Some(Fail(r, todo))
  {
    assert I.HandFits(s.pipes[S.ToServer]) && !s.pipes[S.ToServer].sender.AwaitingNotify?;
  }

  lemma MainAlike(s: S.Session, todo: seq<Notice>, e: S.Event, r: S.Session)
    requires I.StatusFields(s) && S.Step(s, e) == Some(r)
    requires e.StatusArrives? || e.StdioJoined? || e.LoopsJoined?
    ensures Step(Fail(s, todo), Counterpart(s, e).value) == Some(Fail(r, todo))
  {
    assert S.DoClientMain(s, e) == Some(r) && r == s.(client := r.client);
  }

  lemma WindowAlike(s: S.Session, todo: seq<Notice>, e: S.Event, r: S.Session)
    requires S.DoWindow(s, e) == Some(r) && (e.SizeChanged? || e.SizeUnknown? || e.WindowStop?)
    ensures Step(Fail(s, todo), Counterpart(s, e).value) == Some(Fail(r, todo))
  {
  }

  lemma SizeAlike(s: S.Session, todo: seq<Notice>, r: S.Session)
    requires S.DoSendSize(s) == Some(r)
    ensures Step(Fail(s, todo), SendSize) == Some(Fail(r, todo))
  {
  }

  /** Until it learns of the failure, a client does what it does in a session: its tasks, sender loop and main task. */
  lemma StepsAlike(s: S.Session, todo: seq<Notice>, e: S.Event, r: S.Session)
    requires G.IsReachable(s) && S.Step(s, e) == Some(r) && Counterpart(s, e).Some?
    ensures Step(Fail(s, todo), Counterpart(s, e).value) == Some(Fail(r, todo))
  {
    if e.TaskStep? {
      if e.id.Stdin? { SourceAlike(s, todo, e.ev, r); } else { SinkAlike(s, todo, e.id, e.ev, r); }
    } else if e.SendSize? {
      SizeAlike(s, todo, r);
    } else if e.SizeChanged? || e.SizeUnknown? || e.WindowStop? {
      WindowAlike(s, todo, e, r);
    } else {
      assert I.StatusFields(s) && I.Stages(s) by { G.ReachableHasInv(s); }
      if e.StatusArrives? || e.StdioJoined? || e.LoopsJoined? {
        MainAlike(s, todo, e, r);
      } else {
        LoopAlike(s, todo, e, r);
      }
    }
  }

  /** A client that still returns a status has waited for all its tasks and both its loops. */
  lemma ReturnsAfterAll(s: S.Session, todo: seq<Notice>, es: seq<Event>)
    requires CanFail(s, todo) && Run(Fail(s, todo), es).Some? && Run(Fail(s, todo), es).value.main.Succeeded?
    ensures var r := Run(Fail(s, todo), es).value;
      && r.stdin.phase.SourceDone? && r.stdout.state.phase.SinkDone? && r.stderr.state.phase.SinkDone?
      && r.window.WindowEnded? && r.receiver.ReceiverEnded? && r.sender.SenderEnded?
  {
    assert Inv(Run(Fail(s, todo), es).value) by {
      assert Inv(Fail(s, todo)) by {
        G.ReachableHasInv(s);
        FailHasInv(s, todo);
      }
      RunIsBounded(Fail(s, todo), es);
    }
  }

  // ------------------------------------------------------- the window task

  lemma StepKeepsWindow(s: Failing, e: Event, r: Failing)
    requires Step(s, e) == Some(r) && (s.window.WindowEnded? ==> !s.main.AwaitingStatus?)
    ensures r.window.WindowEnded? ==> !r.main.AwaitingStatus?
  {
  }

  lemma {:induction false} RunKeepsWindow(s: Failing, es: seq<Event>)
    requires Run(s, es).Some? && (s.window.WindowEnded? ==> !s.main.AwaitingStatus?)
    ensures var r := Run(s, es).value; r.window.WindowEnded? ==> !r.main.AwaitingStatus?
    decreases |es|
  {
    if es == [] {
    } else {
      StepKeepsWindow(s, es[0], Step(s, es[0]).value);
      RunKeepsWindow(Step(s, es[0]).value, es[1..]);
    }
  }

  /** After a failure, too, the window-change task ends only after the status or the failure was reported. */
  lemma WindowEndsAfterReport(s: S.Session, todo: seq<Notice>, es: seq<Event>)
    requires CanFail(s, todo) && s.pty && Run(Fail(s, todo), es).Some?
    ensures var r := Run(Fail(s, todo), es).value; r.window.WindowEnded? ==> !r.main.AwaitingStatus?
  {
    G.WindowEndsAfterStatus(s);
    RunKeepsWindow(Fail(s, todo), es);
  }

  // ------------------------------------------------------------------ outputs

  predicate Owing(s: Failing, id: StdId, target: seq<Byte>) { Owes(Sink(s, id), target) }

  lemma NoticeOwes(s: Failing, r: Failing, id: StdId, target: seq<Byte>)
    requires Inv(s) && DoNotice(s) == Some(r) && Owing(s, id, target)
    ensures Owing(r, id, target)
  {
    if |Sink(s, id).outbox| < 1 { SinkIsTold(Sink(s, id), target); }
  }

  lemma StepOwes(s: Failing, e: Event, r: Failing, id: StdId, target: seq<Byte>)
    requires Inv(s) && Step(s, e) == Some(r) && Owing(s, id, target) && !id.Stdin?
    ensures Owing(r, id, target)
  {
    match e {
      case SinkEvent(j, i) => if j == id { SinkTaskOwes(Sink(s, id), i, Sink(r, id), target); }
      case SendNotice => NoticeOwes(s, r, id, target);
      case _ =>
    }
  }

  lemma {:induction false} RunOwes(s: Failing, es: seq<Event>, id: StdId, target: seq<Byte>)
    requires Inv(s) && Run(s, es).Some? && Owing(s, id, target) && !id.Stdin?
    ensures Owing(Run(s, es).value, id, target)
    decreases |es|
  {
    if es == [] {
    } else {
      var r := Step(s, es[0]).value;
      StepKeepsInv(s, es[0], r);
      StepOwes(s, es[0], r, id, target);
      RunOwes(r, es[1..], id, target);
    }
  }

  // ------------------------------------------------------ from a session state

  /** What `RecvRouter::shutdown` sends on the client: every registered sink and source is told, in any order. */
  predicate Complete(todo: seq<Notice>) {
    && ToSource in todo && ToSink(Stdout) in todo && ToSink(Stderr) in todo
    && forall i :: 0 <= i < |todo| ==> todo[i] != ToSink(Stdin)
  }

  /** The client's half of a session in which its connection has just failed. */
  function Fail(s: S.Session, todo: seq<Notice>): Failing {
    var out := s.pipes[S.ToServer];
    Failing(
      SourceOf(s, Stdin), SinkOf(s, Stdout), SinkOf(s, Stderr), s.window,
      |out.queue|,
      match out.sender
      case Draining => Draining(out.hand.Some?)
      case SenderEnded => SenderEnded
      case _ => Finishing,
      if s.pipes[S.ToClient].receiver.Open? then ShuttingTasksDown(todo) else ReceiverEnded,
      if s.taken && s.slot.Some? then R.Status(s.slot.value) else R.Unsent,
      match s.client
      case AwaitingStatus => AwaitingStatus
      case JoiningStdio(status) => JoiningStdio(status)
      case JoiningLoops(status) => JoiningLoops(status)
      case ClientReturned(status) => Succeeded(status))
  }

  /**
   * A session that the connection can fail in, and an order in which a receiver loop that is still reading tells the
   * tasks.
   */
  ghost predicate CanFail(s: S.Session, todo: seq<Notice>) {
    G.IsReachable(s) && (s.pipes[S.ToClient].receiver.Open? ==> Complete(todo))
  }

  /** A receiver loop that has ended has taken the status, and all tasks it fed have ended. */
  lemma FinishedLeavesNothing(s: S.Session)
    requires I.Inv(s) && s.pipes[S.ToClient].receiver.Ended?
    ensures s.taken && !S.ClientStdio(s)
  {
    assert I.FinishedLast(s.pipes[S.ToClient]) && M.Flow(s.pipes[S.ToClient]) == [];
    assert !S.ServerHandles(s) && I.ExitSent(s);
    assert I.StatusFlow(s);
    I.ClientTasksEnded(s);
  }

  lemma FailHasInv(s: S.Session, todo: seq<Notice>)
    requires I.Inv(s) && (s.pipes[S.ToClient].receiver.Open? ==> Complete(todo))
    ensures Inv(Fail(s, todo))
    ensures Fail(s, todo).report.Status? <==> s.taken
  {
    forall id: StdId ensures SourceFine(SourceOf(s, id)) && SinkFine(SinkOf(s, id)) {
      assert P.Inv(M.Project(s, id));
      TasksAreFine(s, id);
    }
    assert I.FinishedLast(s.pipes[S.ToClient]) && I.StatusFields(s);
    if s.pipes[S.ToClient].receiver.Ended? { FinishedLeavesNothing(s); }
  }

  /** What the client is to write of an output after the failure. */
  function Target(s: S.Session, id: StdId): seq<Byte> {
    if s.streams[id].ends.snk.closed then s.streams[id].ends.read else SinkOf(s, id).written + Due(SinkOf(s, id))
  }

  lemma FailOwes(s: S.Session, todo: seq<Notice>, id: StdId)
    requires I.Inv(s) && !id.Stdin?
    ensures Owing(Fail(s, todo), id, Target(s, id))
  {
    assert P.Inv(M.Project(s, id));
  }

  /** No `Data` of the output is under way: what the server's source has read has reached the sink's channel. */
  predicate HandedOver(s: S.Session, id: StdId) {
    !s.streams[id].ends.src.Sending? && NoData(M.SourceMsgs(M.Flow(s.pipes[S.ToClient]), id))
  }

  /** Among the source messages under way only the first can be a `Data`. */
  lemma OnlyFirstIsData(t: P.Link, k: nat)
    requires P.InvFlow(t) && k < |t.fwd| && t.fwd[k].Data?
    ensures k == 0 && P.Carried(t) == t.fwd[0].bytes
  {
  }

  lemma PrefixOfFour<T>(w: seq<T>, a: seq<T>, c: seq<T>, r: seq<T>)
    ensures w + (a + c) <= w + a + c + r && w + (a + []) <= w + a + c + r
    ensures w + (a + c) == w + a + c + r <==> r == []
    ensures w + (a + []) == w + a + c + r <==> c == [] && r == []
  {
    assert w + (a + c) == w + a + c;
    assert a + [] == a;
    assert |w + a + c + r| == |w + a| + |c| + |r|;
  }

  /** The client is to write everything that was read exactly if everything is handed over; otherwise less. */
  lemma TargetIsAll(s: S.Session, id: StdId)
    requires P.Inv(M.Project(s, id)) && !id.Stdin? && !s.streams[id].ends.snk.closed
    ensures Target(s, id) <= s.streams[id].ends.read
    ensures Target(s, id) == s.streams[id].ends.read <==> HandedOver(s, id)
  {
    var t, st := M.Project(s, id), s.streams[id];
    PrefixOfFour(st.ends.written, P.AtSink(t), P.Carried(t), P.AtSource(t));
    HandedOverMeans(s, id);
  }

  /** Everything is handed over if nothing is left at the source, and what is in flight lies in the sink's channel. */
  lemma HandedOverMeans(s: S.Session, id: StdId)
    requires P.Inv(M.Project(s, id)) && !id.Stdin?
    ensures var t, c := M.Project(s, id), InChannel(s.streams[id].outbox);
      && (c == P.Carried(t) || c == [])
      && (HandedOver(s, id) <==> P.AtSource(t) == [] && c == P.Carried(t))
  {
    var t, outbox := M.Project(s, id), s.streams[id].outbox;
    var ms := M.SourceMsgs(M.Flow(s.pipes[S.ToClient]), id);
    assert t.fwd == outbox + ms;
    if outbox == [] {
      assert ms == t.fwd;
      NoDataCarried(t);
    } else {
      NoDataBehind(t, outbox, ms);
    }
  }

  predicate NoData(ms: seq<SourceAction>) { forall k :: 0 <= k < |ms| ==> !ms[k].Data? }

  lemma NoDataCarried(t: P.Link)
    requires P.InvFlow(t) && P.InvBytes(t)
    ensures NoData(t.fwd) <==> P.Carried(t) == []
  {
    if !NoData(t.fwd) {
      var k :| 0 <= k < |t.fwd| && t.fwd[k].Data?;
      OnlyFirstIsData(t, k);
    }
  }

  lemma NoDataBehind(t: P.Link, outbox: seq<SourceAction>, ms: seq<SourceAction>)
    requires P.InvFlow(t) && t.fwd == outbox + ms && outbox != []
    ensures NoData(ms) && InChannel(outbox) == P.Carried(t)
  {
    assert t.fwd[0] == outbox[0];
    forall k | 0 <= k < |ms| ensures !ms[k].Data? {
      assert ms[k] == t.fwd[|outbox| + k];
      if ms[k].Data? { OnlyFirstIsData(t, |outbox| + k); }
    }
  }

  // ---------------------------------------------------------------- theorems

  predicate IsClosed(s: Failing, id: StdId) { Sink(s, id).state.closed }

  /**
   * From every state a session can be in when the client's connection fails, and whatever order the tasks are told in:
   * every run is bounded by the state and its window-change signals, and a run that cannot go on has returned, with the
   * status if that had been reported when the connection failed, and with the failure otherwise.
   */
  lemma FailureEndsEverything(s: S.Session, todo: seq<Notice>, es: seq<Event>)
    requires CanFail(s, todo) && Run(Fail(s, todo), es).Some?
    ensures |es| <= Measure(Fail(s, todo)) + SIGNAL_COST * Signals(es)
    ensures var r := Run(Fail(s, todo), es).value;
      !CanMove(r) ==> if s.taken then r.main.Succeeded? && s.child == Some(r.main.status) else r.main.Failed?
  {
    assert I.Inv(s) by { G.ReachableHasInv(s); }
    FailHasInv(s, todo);
    RunIsBounded(Fail(s, todo), es);
    RunKeepsReport(Fail(s, todo), es);
    var r := Run(Fail(s, todo), es).value;
    if !CanMove(r) { StuckIsFinal(r); }
  }

  /** A reported status stays reported, and nothing is reported as a status after the failure. */
  lemma {:induction false} RunKeepsReport(s: Failing, es: seq<Event>)
    requires Run(s, es).Some?
    ensures var r := Run(s, es).value;
      if s.report.Status? then r.report == s.report else !r.report.Status?
    decreases |es|
  {
    if es == [] {
    } else {
      RunKeepsReport(Step(s, es[0]).value, es[1..]);
    }
  }

  /**
   * A client that returns a status after a failure returns the child's, and has written of each output what had reached
   * its sink's channel when the connection failed, or a first part of it if its pipe broke.
   */
  lemma SuccessMeans(s: S.Session, todo: seq<Notice>, es: seq<Event>, id: StdId)
    requires CanFail(s, todo) && Run(Fail(s, todo), es).Some? && !id.Stdin?
    requires Run(Fail(s, todo), es).value.main.Succeeded?
    ensures var r := Run(Fail(s, todo), es).value;
      && s.taken && s.child == Some(r.main.status)
      && Sink(r, id).written <= s.streams[id].ends.read
      && (!IsClosed(r, id) ==> Sink(r, id).written == Target(s, id))
      && (!IsClosed(r, id) ==> (Sink(r, id).written == s.streams[id].ends.read <==> HandedOver(s, id)))
  {
    assert I.Inv(s) by { G.ReachableHasInv(s); }
    FailHasInv(s, todo);
    RunIsBounded(Fail(s, todo), es);
    RunKeepsReport(Fail(s, todo), es);
    FailOwes(s, todo, id);
    RunOwes(Fail(s, todo), es, id, Target(s, id));
    RunKeepsClosed(Fail(s, todo), es, id);
    assert P.Inv(M.Project(s, id));
    if !s.streams[id].ends.snk.closed { TargetIsAll(s, id); }
    DoneOwesNothing(Run(Fail(s, todo), es).value, id, Target(s, id));
  }

  lemma DoneOwesNothing(r: Failing, id: StdId, target: seq<Byte>)
    requires Inv(r) && r.main.Succeeded? && !id.Stdin? && Owing(r, id, target)
    ensures Sink(r, id).written <= target && (!IsClosed(r, id) ==> Sink(r, id).written == target)
  {
  }

  lemma {:induction false} RunKeepsClosed(s: Failing, es: seq<Event>, id: StdId)
    requires Run(s, es).Some?
    ensures IsClosed(s, id) ==> IsClosed(Run(s, es).value, id)
    decreases |es|
  {
    if es == [] {
    } else {
      RunKeepsClosed(Step(s, es[0]).value, es[1..], id);
    }
  }

  // --------------------------------------------- success without the whole output

  lemma AutonomousKeepsOpen(s: Failing, e: Event, r: Failing, id: StdId)
    requires Autonomous(e) && Step(s, e) == Some(r)
    ensures IsClosed(r, id) == IsClosed(s, id)
  {
  }

  /** With writes that succeed a client comes to rest, without any pipe breaking on the way. */
  lemma {:induction false} RunToRest(s: Failing) returns (es: seq<Event>)
    requires Inv(s)
    ensures Run(s, es).Some? && !CanMove(Run(s, es).value)
    ensures forall id :: IsClosed(Run(s, es).value, id) == IsClosed(s, id)
    decreases Measure(s)
  {
    if !CanMove(s) {
      es := [];
    } else {
      var e :| Autonomous(e) && Step(s, e).Some?;
      var r := Step(s, e).value;
      StepKeepsInv(s, e, r);
      StepPays(s, e, r);
      forall id ensures IsClosed(r, id) == IsClosed(s, id) { AutonomousKeepsOpen(s, e, r, id); }
      var rest := RunToRest(r);
      es := [e] + rest;
      assert es[1..] == rest;
    }
  }

  /**
   * Whatever runs, a client that returns a status and whose pipe has not broken has written everything that was read.
   */
  ghost predicate AlwaysWhole(s: S.Session, todo: seq<Notice>, id: StdId) {
    forall es :: Run(Fail(s, todo), es).Some? ==>
      var r := Run(Fail(s, todo), es).value;
      r.main.Succeeded? && !IsClosed(r, id) ==> Sink(r, id).written == s.streams[id].ends.read
  }

  /**
   * After a failure, success means the whole of an output exactly if no status had been reported, so that there is no
   * success, or the output's pipe was broken already, or all of it had been handed over.
   */
  lemma SuccessIsWholeExactly(s: S.Session, todo: seq<Notice>, id: StdId)
    requires CanFail(s, todo) && !id.Stdin?
    ensures AlwaysWhole(s, todo, id) <==> !s.taken || s.streams[id].ends.snk.closed || HandedOver(s, id)
  {
    if !s.taken || s.streams[id].ends.snk.closed || HandedOver(s, id) {
      forall es | Run(Fail(s, todo), es).Some?
        ensures var r := Run(Fail(s, todo), es).value;
          r.main.Succeeded? && !IsClosed(r, id) ==> Sink(r, id).written == s.streams[id].ends.read
      {
        var r := Run(Fail(s, todo), es).value;
        RunKeepsClosed(Fail(s, todo), es, id);
        if r.main.Succeeded? { SuccessMeans(s, todo, es, id); }
      }
    } else {
      var es := SucceedingRun(s, todo, id);
      SuccessMeans(s, todo, es, id);
    }
  }

  lemma SucceedingRun(s: S.Session, todo: seq<Notice>, id: StdId) returns (es: seq<Event>)
    requires CanFail(s, todo) && s.taken && !s.streams[id].ends.snk.closed && !id.Stdin?
    ensures Run(Fail(s, todo), es).Some?
    ensures var r := Run(Fail(s, todo), es).value; r.main.Succeeded? && !IsClosed(r, id)
  {
    assert Inv(Fail(s, todo)) by {
      G.ReachableHasInv(s);
      FailHasInv(s, todo);
    }
    es := RunToRest(Fail(s, todo));
    FailureEndsEverything(s, todo, es);
  }

  // One message passing through an otherwise empty direction.
  lemma PassQueue(s: S.Session, d: S.Direction, m: Message, rest: seq<Message>)
    requires s.pipes[d] == S.EMPTY_PIPE.(queue := [m] + rest)
    ensures S.DoTake(s, d) == Some(S.WithPipe(s, d, S.EMPTY_PIPE.(queue := rest, hand := Some(m))))
  {
    assert ([m] + rest)[1..] == rest;
  }

  lemma PassHand(s: S.Session, d: S.Direction, m: Message, rest: seq<Message>)
    requires s.wireCap >= 1 && s.pipes[d] == S.EMPTY_PIPE.(queue := rest, hand := Some(m))
    ensures S.DoTransmit(s, d) == Some(S.WithPipe(s, d, S.EMPTY_PIPE.(queue := rest, wire := [m])))
  {
    assert [] + [m] == [m];
  }

  lemma PassWire(s: S.Session, d: S.Direction, m: Message, rest: seq<Message>)
    requires s.pipes[d] == S.EMPTY_PIPE.(queue := rest, wire := [m])
    ensures S.DoFetch(s, d) == Some(S.WithPipe(s, d, S.EMPTY_PIPE.(queue := rest, held := Some(m))))
  {
    assert [m][1..] == [];
  }

  /**
   * A session whose server's stdout source is about to send a byte, with `queue` and `held` under way to the client.
   */
  predicate Stage(s: S.Session, server: S.ServerMain, queue: seq<Message>, held: Option<Message>,
                  inbox: seq<SinkAction>)
  {
    && s.wireCap >= 1 && s.server == server && !s.taken && s.client.AwaitingStatus?
    && s.pipes[S.ToClient] == S.EMPTY_PIPE.(queue := queue, held := held)
    && s.streams[Stdout].ends.src == Sending([0]) && !s.streams[Stdout].ends.snk.closed
    && s.streams[Stdin].ends.src.Idle? && s.streams[Stdin].inbox == inbox
  }

  lemma StageReads(wireCap: nat) returns (r: S.Session)
    requires wireCap >= 1
    ensures S.Step(S.Init(false, wireCap), S.TaskStep(Stdout, SrcRead([0]))) == Some(r)
    ensures Stage(r, S.Waiting, [], None, [])
  {
    var s := S.Init(false, wireCap);
    r := S.WithStream(s, Stdout, S.BLANK.(ends := FRESH.(src := Sending([0]), read := [] + [0])));
    assert S.RunTask(s, Stdout, SrcRead([0])) == Some(r);
  }

  lemma StageConcludes(s: S.Session, c: ExitStatus) returns (r: S.Session)
    requires Stage(s, S.Waiting, [], None, [])
    ensures S.Run(s, [S.ChildExit(c), S.MainSend, S.MainSend]) == Some(r)
    ensures Stage(r, S.Joining, [FromSink(Stdin, SinkClosed)] + [Exit(c)], None, [])
  {
    var s1 := S.DoChildExit(s, c).value;
    var s2 := S.DoMainSend(s1).value;
    r := S.DoMainSend(s2).value;
    assert [] + [FromSink(Stdin, SinkClosed)] == [FromSink(Stdin, SinkClosed)];
    S.ThreeSteps(s, S.ChildExit(c), s1, S.MainSend, s2, S.MainSend, r);
  }

  lemma PassRun(s: S.Session, d: S.Direction, m: Message, rest: seq<Message>)
    requires s.wireCap >= 1 && s.pipes[d] == S.EMPTY_PIPE.(queue := [m] + rest)
    ensures S.Run(s, [S.Take(d), S.Transmit(d), S.Fetch(d)])
         == Some(S.WithPipe(s, d, S.EMPTY_PIPE.(queue := rest, held := Some(m))))
  {
    var s1 := S.WithPipe(s, d, S.EMPTY_PIPE.(queue := rest, hand := Some(m)));
    var s2 := S.WithPipe(s1, d, S.EMPTY_PIPE.(queue := rest, wire := [m]));
    var s3 := S.WithPipe(s2, d, S.EMPTY_PIPE.(queue := rest, held := Some(m)));
    PassQueue(s, d, m, rest);
    PassHand(s1, d, m, rest);
    PassWire(s2, d, m, rest);
    S.ThreeSteps(s, S.Take(d), s1, S.Transmit(d), s2, S.Fetch(d), s3);
    assert s3.pipes == S.WithPipe(s, d, S.EMPTY_PIPE.(queue := rest, held := Some(m))).pipes;
  }

  lemma StagePasses(s: S.Session, m: Message, rest: seq<Message>, inbox: seq<SinkAction>) returns (r: S.Session)
    requires Stage(s, S.Joining, [m] + rest, None, inbox) && G.IsReachable(s)
    ensures Stage(r, S.Joining, rest, Some(m), inbox) && G.IsReachable(r)
  {
    r := S.WithPipe(s, S.ToClient, S.EMPTY_PIPE.(queue := rest, held := Some(m)));
    PassRun(s, S.ToClient, m, rest);
    G.ReachableRun(s, [S.Take(S.ToClient), S.Transmit(S.ToClient), S.Fetch(S.ToClient)], r);
  }

  lemma StageRoutesReply(s: S.Session, queue: seq<Message>) returns (r: S.Session)
    requires Stage(s, S.Joining, queue, Some(FromSink(Stdin, SinkClosed)), []) && G.IsReachable(s)
    ensures Stage(r, S.Joining, queue, None, [SinkClosed]) && G.IsReachable(r)
  {
    ReplyIsTaken(s, queue);
    r := S.Step(s, S.Route(S.ToClient)).value;
    G.ReachableStep(s, S.Route(S.ToClient), r);
  }

  lemma ReplyIsTaken(s: S.Session, queue: seq<Message>)
    requires Stage(s, S.Joining, queue, Some(FromSink(Stdin, SinkClosed)), [])
    ensures var r := S.Step(s, S.Route(S.ToClient)); r.Some? && Stage(r.value, S.Joining, queue, None, [SinkClosed])
  {
    var s0 := S.WithPipe(s, S.ToClient, s.pipes[S.ToClient].(held := None));
    assert S.Step(s, S.Route(S.ToClient)) == S.HandleSink(s0, S.ToClient, Stdin, SinkClosed);
    assert [] + [SinkClosed] == [SinkClosed];
  }

  lemma StageRoutesExit(s: S.Session, c: ExitStatus, inbox: seq<SinkAction>) returns (r: S.Session)
    requires Stage(s, S.Joining, [], Some(Exit(c)), inbox) && G.IsReachable(s)
    ensures G.IsReachable(r) && r.taken && r.pipes[S.ToClient].receiver.Open?
    ensures r.streams[Stdout].ends.src == Sending([0]) && !r.streams[Stdout].ends.snk.closed
  {
    ExitIsTaken(s, c, inbox);
    r := S.Step(s, S.Route(S.ToClient)).value;
    G.ReachableStep(s, S.Route(S.ToClient), r);
  }

  lemma ExitIsTaken(s: S.Session, c: ExitStatus, inbox: seq<SinkAction>)
    requires Stage(s, S.Joining, [], Some(Exit(c)), inbox)
    ensures var r := S.Step(s, S.Route(S.ToClient));
      r.Some? && r.value.taken && r.value.pipes[S.ToClient].receiver.Open? && r.value.streams == s.streams
  {
  }

  /**
   * The exit status can overtake the output: a session in which it was reported while a byte that the server has read
   * from the child's stdout is still at the server.
   */
  lemma ExitOvertakes(wireCap: nat, c: ExitStatus) returns (s: S.Session)
    requires wireCap >= 1
    ensures G.IsReachable(s) && s.taken && s.pipes[S.ToClient].receiver.Open?
    ensures !s.streams[Stdout].ends.snk.closed && !HandedOver(s, Stdout)
  {
    var s4 := ReplyRouted(wireCap, c);
    var s5 := StagePasses(s4, Exit(c), [], [SinkClosed]);
    s := StageRoutesExit(s5, c, [SinkClosed]);
  }

  lemma ReplyRouted(wireCap: nat, c: ExitStatus) returns (s: S.Session)
    requires wireCap >= 1
    ensures Stage(s, S.Joining, [Exit(c)] + [], None, [SinkClosed]) && G.IsReachable(s)
  {
    var s3 := ReplyPassed(wireCap, c);
    s := StageRoutesReply(s3, [Exit(c)] + []);
  }

  lemma ReplyPassed(wireCap: nat, c: ExitStatus) returns (s: S.Session)
    requires wireCap >= 1
    ensures Stage(s, S.Joining, [Exit(c)] + [], Some(FromSink(Stdin, SinkClosed)), []) && G.IsReachable(s)
  {
    var s2 := ExitQueued(wireCap, c);
    assert [Exit(c)] == [Exit(c)] + [];
    s := StagePasses(s2, FromSink(Stdin, SinkClosed), [Exit(c)] + [], []);
  }

  lemma ExitQueued(wireCap: nat, c: ExitStatus) returns (r: S.Session)
    requires wireCap >= 1
    ensures Stage(r, S.Joining, [FromSink(Stdin, SinkClosed)] + [Exit(c)], None, []) && G.IsReachable(r)
  {
    var s := StageReads(wireCap);
    assert G.IsReachable(s) by {
      G.InitIsReachable(false, wireCap);
      G.ReachableStep(S.Init(false, wireCap), S.TaskStep(Stdout, SrcRead([0])), s);
    }
    r := StageConcludes(s, c);
    G.ReachableRun(s, [S.ChildExit(c), S.MainSend, S.MainSend], r);
  }

  const ALL := [ToSink(Stdout), ToSink(Stderr), ToSource]

  lemma AllIsComplete()
    ensures Complete(ALL)
  {
    assert ALL[0] == ToSink(Stdout) && ALL[1] == ToSink(Stderr) && ALL[2] == ToSource;
  }

  /** The client then returns the status although it has written less than was read, and no pipe has broken. */
  lemma SuccessWithoutTheOutput(wireCap: nat, c: ExitStatus) returns (s: S.Session, es: seq<Event>)
    requires wireCap >= 1
    ensures CanFail(s, ALL) && Run(Fail(s, ALL), es).Some?
    ensures var r := Run(Fail(s, ALL), es).value;
      r.main.Succeeded? && !IsClosed(r, Stdout) && r.stdout.written != s.streams[Stdout].ends.read
  {
    s := ExitOvertakes(wireCap, c);
    assert CanFail(s, ALL) by { AllIsComplete(); }
    es := SucceedingRun(s, ALL, Stdout);
    SuccessMeans(s, ALL, es, Stdout);
  }
}
