/**
 * The server after its connection failed: a receiver loop that is still reading shuts every task down, reports,
 * notifies and ends; one that has ended on `Finished` before learns of nothing. Without port forwarding.
 */
module ServerFailure {
  import opened Protocol
  import opened Endpoints
  import opened FailingTasks
  import S = Session
  import M = Multiplexing
  import I = SessionInvariant
  import G = Guarantees
  import P = StreamProtocol
  import R = Progress
  import T = Termination

  // ------------------------------------------------------------------- state

  /** One message of `RecvRouter::shutdown`: `SourceClosed` to stdin's sink or `SinkClosed` to a source. */
  datatype Notice = ToSink | ToSource(id: StdId)

  datatype Receiver =
    | ShuttingTasksDown(todo: seq<Notice>)  // `recv_router.shutdown`
    | Reporting                             // `kill_error_tx.send`
    | Notifying                             // `finish_notify.notify_one`
    | ReceiverEnded
    | EndedBefore                           // on the client's `Finished`, before the connection failed

  datatype Sender = Draining(busy: bool) | AwaitingNotify | Finishing | SenderEnded

  datatype Main = Selecting | Injecting | Exiting | Joining | Returned

  datatype Failing = Failing(
    stdin: SinkTask, stdout: SourceTask, stderr: SourceTask,
    queue: nat,          // messages in the outbound queue
    sender: Sender, receiver: Receiver, main: Main,
    reports: nat,        // messages in the kill-report channel (capacity one)
    permit: bool)

  datatype Event =
    | SourceEvent(id: StdId, input: SourceInput)
    | SinkEvent(io: SinkInput)
    | TakeMessage | WriteReturns | QueueDrained | Notified | FinishedReturns
    | SendNotice | Report | Notify
    | ChildExited | Kill | MainSends | Join

  predicate Over(r: Receiver) { r.ReceiverEnded? || r.EndedBefore? }

  function Source(s: Failing, id: StdId): SourceTask { if id.Stdout? then s.stdout else s.stderr }

  function WithSource(s: Failing, id: StdId, t: SourceTask): Failing {
    if id.Stdout? then s.(stdout := t) else s.(stderr := t)
  }

  // ------------------------------------------------------------------- steps

  /** A task that sends puts its message on the outbound queue, when that has room. */
  function Send(s: Failing, sends: bool): Option<Failing> {
    if !sends then Some(s) else if s.queue < QUEUE_CAPACITY then Some(s.(queue := s.queue + 1)) else None
  }

  function SourceMoves(s: Failing, id: StdId, i: SourceInput): Option<Failing> {
    if id.Stdin? then None
    else
      match SourceTaskStep(Source(s, id), i)
      case None => None
      case Some(t) => Send(WithSource(s, id, t), i.Sent?)
  }

  function SinkMoves(s: Failing, i: SinkInput): Option<Failing> {
    match SinkTaskStep(s.stdin, i)
    case None => None
    case Some(t) => Send(s.(stdin := t), Sends(i))
  }

  predicate Handles(s: Failing) {
    || s.main.Selecting? || s.main.Injecting? || s.main.Exiting?
    || !s.stdin.state.phase.SinkDone? || !s.stdout.phase.SourceDone? || !s.stderr.phase.SourceDone?
  }

  predicate TasksDone(s: Failing) {
    s.stdin.state.phase.SinkDone? && s.stdout.phase.SourceDone? && s.stderr.phase.SourceDone?
  }

  /** Sends the next notice; waits while the channel is full; an ended task is passed over. */
  function DoNotice(s: Failing): Option<Failing> {
    match s.receiver
    case ShuttingTasksDown(todo) =>
      if |todo| == 0 then Some(s.(receiver := Reporting))
      else
        var r := s.(receiver := ShuttingTasksDown(todo[1..]));
        if todo[0].ToSink? then
          if s.stdin.state.phase.SinkDone? then Some(r)
          else if |s.stdin.outbox| < 1 then Some(r.(stdin := TellSink(s.stdin)))
          else None
        else
          var id := todo[0].id;
          var t := Source(s, id);
          if t.phase.SourceDone? then Some(r)
          else if |t.inbox| < 1 then Some(WithSource(r, id, TellSource(t)))
          else None
    case _ => None
  }

  function Step(s: Failing, e: Event): Option<Failing> {
    match e
    case SourceEvent(id, i) => SourceMoves(s, id, i)
    case SinkEvent(i) => SinkMoves(s, i)
    case TakeMessage =>
      if s.sender == Draining(false) && s.queue > 0 then Some(s.(sender := Draining(true), queue := s.queue - 1))
      else None
    case WriteReturns => if s.sender == Draining(true) then Some(s.(sender := Draining(false))) else None
    case QueueDrained =>
      if s.sender == Draining(false) && s.queue == 0 && !Handles(s) then Some(s.(sender := AwaitingNotify)) else None
    case Notified =>
      if s.sender.AwaitingNotify? && s.permit then Some(s.(sender := Finishing, permit := false)) else None
    case FinishedReturns => if s.sender.Finishing? then Some(s.(sender := SenderEnded)) else None
    case SendNotice => DoNotice(s)
    case Report =>
      if s.receiver.Reporting? && s.reports < 1 then Some(s.(receiver := Notifying, reports := s.reports + 1)) else None
    case Notify => if s.receiver.Notifying? then Some(s.(receiver := ReceiverEnded, permit := true)) else None
    case ChildExited => if s.main.Selecting? then Some(s.(main := Injecting)) else None
    case Kill =>
      if s.main.Selecting? && s.reports > 0 then Some(s.(main := Joining, reports := s.reports - 1)) else None
    case MainSends =>
      if s.queue >= QUEUE_CAPACITY then None
      else if s.main.Injecting? then Some(s.(main := Exiting, queue := s.queue + 1))
      else if s.main.Exiting? then Some(s.(main := Joining, queue := s.queue + 1))
      else None
    case Join =>
      if s.main.Joining? && Over(s.receiver) && s.sender.SenderEnded? && TasksDone(s)
      then Some(s.(main := Returned)) else None
  }

  function Run(s: Failing, es: seq<Event>): Option<Failing>
    decreases |es|
  {
    if es == [] then Some(s)
    else match Step(s, es[0])
      case None => None
      case Some(r) => Run(r, es[1..])
  }

  // --------------------------------------------------------------- invariant

  predicate Pending(s: Failing, n: Notice) { s.receiver.ShuttingTasksDown? && n in s.receiver.todo }

  /** A source is fine, and its `SinkClosed` is still to come, in its channel, or already obeyed. */
  predicate SourceOk(s: Failing, id: StdId) {
    SourceFine(Source(s, id)) && (Pending(s, ToSource(id)) || SourceTold(Source(s, id)))
  }

  predicate SinkOk(s: Failing) { SinkFine(s.stdin) && (Pending(s, ToSink) || SinkTold(s.stdin)) }

  predicate Loops(s: Failing) {
    && s.queue <= QUEUE_CAPACITY
    && (s.receiver.ShuttingTasksDown? || s.receiver.Reporting? ==> s.reports == 0)
    && s.reports <= 1
    && (s.main.Selecting? && (s.receiver.Notifying? || s.receiver.ReceiverEnded?) ==> s.reports == 1)
    && (s.receiver.EndedBefore? ==> s.reports == 0)
    && (Over(s.receiver) <==> s.permit || s.sender.Finishing? || s.sender.SenderEnded?)
    && (s.sender.Finishing? || s.sender.SenderEnded? ==> !s.permit)
    && (!s.sender.Draining? ==> s.queue == 0 && !Handles(s))
    && (s.main.Returned? ==> Over(s.receiver) && s.sender.SenderEnded? && TasksDone(s))
    && (s.receiver.ShuttingTasksDown? ==>
        forall i :: 0 <= i < |s.receiver.todo| ==> s.receiver.todo[i] != ToSource(Stdin))
  }

  predicate Inv(s: Failing) { SourceOk(s, Stdout) && SourceOk(s, Stderr) && SinkOk(s) && Loops(s) }

  lemma SourceKeeps(s: Failing, id: StdId, i: SourceInput, r: Failing)
    requires Inv(s) && SourceMoves(s, id, i) == Some(r)
    ensures Inv(r)
  {
    SourceTaskPays(Source(s, id), i, Source(r, id));
  }

  lemma SinkKeeps(s: Failing, i: SinkInput, r: Failing)
    requires Inv(s) && SinkMoves(s, i) == Some(r)
    ensures Inv(r)
  {
    SinkTaskPays(s.stdin, i, r.stdin);
  }

  lemma NoticeKeeps(s: Failing, r: Failing)
    requires Inv(s) && DoNotice(s) == Some(r)
    ensures Inv(r)
  {
    var todo := s.receiver.todo;
    if todo != [] {
      assert todo == [todo[0]] + todo[1..];
      assert forall n: Notice :: n in todo ==> n == todo[0] || n in todo[1..];
      if todo[0].ToSink? { SinkNoticeKeeps(s, r); } else { SourceNoticeKeeps(s, r); }
    }
  }

  lemma SinkNoticeKeeps(s: Failing, r: Failing)
    requires Inv(s) && DoNotice(s) == Some(r) && s.receiver.todo != [] && s.receiver.todo[0].ToSink?
    requires forall n: Notice :: n in s.receiver.todo ==> n == s.receiver.todo[0] || n in s.receiver.todo[1..]
    ensures Inv(r)
  {
  }

  lemma SourceNoticeKeeps(s: Failing, r: Failing)
    requires Inv(s) && DoNotice(s) == Some(r) && s.receiver.todo != [] && s.receiver.todo[0].ToSource?
    requires forall n: Notice :: n in s.receiver.todo ==> n == s.receiver.todo[0] || n in s.receiver.todo[1..]
    ensures Inv(r)
  {
  }

  lemma LoopKeeps(s: Failing, e: Event, r: Failing)
    requires Inv(s) && Step(s, e) == Some(r) && !e.SourceEvent? && !e.SinkEvent? && !e.SendNotice?
    ensures Inv(r)
  {
    match e {
      case TakeMessage =>
      case WriteReturns =>
      case QueueDrained =>
      case Notified =>
      case FinishedReturns =>
      case Report =>
      case Notify =>
      case ChildExited =>
      case Kill =>
      case MainSends =>
      case Join =>
    }
  }

  lemma StepKeepsInv(s: Failing, e: Event, r: Failing)
    requires Inv(s) && Step(s, e) == Some(r)
    ensures Inv(r)
  {
    match e {
      case SourceEvent(id, i) => SourceKeeps(s, id, i, r);
      case SinkEvent(i) => SinkKeeps(s, i, r);
      case SendNotice => NoticeKeeps(s, r);
      case _ => LoopKeeps(s, e, r);
    }
  }

  // ---------------------------------------------------------------- progress

  /** Events that need nothing but that writes return: no read from the child, no exit of the child. */
  predicate Autonomous(e: Event) {
    match e
    case SourceEvent(_, i) => !i.Read? && !i.ReadEnd?
    case ChildExited => false
    case _ => true
  }

  ghost predicate CanMove(s: Failing) { exists e :: Autonomous(e) && Step(s, e).Some? }

  predicate Final(s: Failing) {
    s.main.Returned? && TasksDone(s) && Over(s.receiver) && s.sender.SenderEnded?
  }

  lemma Blocked(s: Failing, e: Event)
    requires !CanMove(s) && Autonomous(e)
    ensures Step(s, e).None?
  {
  }

  /** Writes return, so the outbound queue cannot stay full. */
  lemma QueueHasRoom(s: Failing)
    requires Inv(s) && !CanMove(s)
    ensures s.queue == 0 && s.sender != Draining(true)
  {
    Blocked(s, WriteReturns);
    Blocked(s, TakeMessage);
  }

  lemma SourceAtRest(s: Failing, id: StdId)
    requires Inv(s) && !CanMove(s) && s.queue == 0 && !id.Stdin?
    ensures var t := Source(s, id);
      t.phase.SourceDone? || ((t.phase.Idle? || t.phase.Awaiting?) && t.inbox == [])
  {
    Blocked(s, SourceEvent(id, SourceNext(Source(s, id))));
    SourceRests(Source(s, id));
  }

  lemma SinkAtRest(s: Failing)
    requires Inv(s) && !CanMove(s) && s.queue == 0
    ensures s.stdin.state.phase.SinkDone? || (s.stdin.state.phase.Receiving? && s.stdin.outbox == [])
  {
    Blocked(s, SinkEvent(SinkNext(s.stdin)));
    SinkRests(s.stdin);
  }

  lemma ReceiverRests(s: Failing)
    requires Inv(s) && !CanMove(s) && s.queue == 0
    ensures Over(s.receiver)
  {
    SinkAtRest(s);
    SourceAtRest(s, Stdout);
    SourceAtRest(s, Stderr);
    Blocked(s, SendNotice);
    Blocked(s, Report);
    Blocked(s, Notify);
  }

  /** The main task waits for its child, and nobody is left to tell it that the connection is gone. */
  predicate Unaware(s: Failing) { s.receiver.EndedBefore? && s.main.Selecting? }

  lemma StuckIsFinal(s: Failing)
    requires Inv(s) && !CanMove(s) && !Unaware(s)
    ensures Final(s)
  {
    QueueHasRoom(s);
    ReceiverRests(s);
    SinkAtRest(s);
    SourceAtRest(s, Stdout);
    SourceAtRest(s, Stderr);
    Blocked(s, Kill);
    Blocked(s, MainSends);
    Blocked(s, QueueDrained);
    Blocked(s, Notified);
    Blocked(s, FinishedReturns);
    Blocked(s, Join);
  }

  // ------------------------------------------------------------- termination

  function ReceiverWeight(r: Receiver): nat {
    match r
    case ShuttingTasksDown(todo) => 3 + 3 * |todo|
    case Reporting => 2
    case Notifying => 1
    case ReceiverEnded => 0
    case EndedBefore => 0
  }

  function SenderWeight(s: Sender): nat {
    match s
    case Draining(busy) => if busy then 5 else 3
    case AwaitingNotify => 2
    case Finishing => 1
    case SenderEnded => 0
  }

  function MainWeight(m: Main): nat {
    match m
    case Selecting => 10
    case Injecting => 9
    case Exiting => 5
    case Joining => 1
    case Returned => 0
  }

  function Measure(s: Failing): nat {
    SinkWeight(s.stdin) + SourceWeight(s.stdout) + SourceWeight(s.stderr) + MESSAGE * s.queue
    + ReceiverWeight(s.receiver) + SenderWeight(s.sender) + MainWeight(s.main)
  }

  lemma SourceDecreases(s: Failing, id: StdId, i: SourceInput, r: Failing)
    requires Inv(s) && SourceMoves(s, id, i) == Some(r)
    ensures Measure(r) < Measure(s)
  {
    SourceTaskPays(Source(s, id), i, Source(r, id));
  }

  lemma SinkDecreases(s: Failing, i: SinkInput, r: Failing)
    requires Inv(s) && SinkMoves(s, i) == Some(r)
    ensures Measure(r) < Measure(s)
  {
    SinkTaskPays(s.stdin, i, r.stdin);
  }

  lemma NoticeDecreases(s: Failing, r: Failing)
    requires Inv(s) && DoNotice(s) == Some(r)
    ensures Measure(r) < Measure(s)
  {
    if |s.stdin.outbox| < 1 { SinkIsTold(s.stdin, []); }
  }

  /** Every step, reads of the still running child included, brings the server closer to its end. */
  lemma StepDecreases(s: Failing, e: Event, r: Failing)
    requires Inv(s) && Step(s, e) == Some(r)
    ensures Measure(r) < Measure(s)
  {
    match e {
      case SourceEvent(id, i) => SourceDecreases(s, id, i, r);
      case SinkEvent(i) => SinkDecreases(s, i, r);
      case SendNotice => NoticeDecreases(s, r);
      case _ =>
    }
  }

  lemma {:induction false} RunIsBounded(s: Failing, es: seq<Event>)
    requires Inv(s) && Run(s, es).Some?
    ensures Inv(Run(s, es).value) && |es| + Measure(Run(s, es).value) <= Measure(s)
    decreases |es|
  {
    if es == [] {
    } else {
      var r := Step(s, es[0]).value;
      StepKeepsInv(s, es[0], r);
      StepDecreases(s, es[0], r);
      RunIsBounded(r, es[1..]);
    }
  }

  // ------------------------------------------------------ from a session state

  /** What `RecvRouter::shutdown` sends: every registered sink and source is told, in any order. */
  predicate Complete(todo: seq<Notice>, pty: bool) {
    && ToSink in todo && ToSource(Stdout) in todo && (pty || ToSource(Stderr) in todo)
    && forall i :: 0 <= i < |todo| ==> todo[i] != ToSource(Stdin)
  }

  /**
   * The server's half of a session in which its connection has just failed: the receiver loop starts telling the tasks,
   * if it is still reading.
   */
  function Fail(s: S.Session, todo: seq<Notice>): Failing {
    var out := s.pipes[S.ToClient];
    Failing(
      SinkOf(s, Stdin), SourceOf(s, Stdout), SourceOf(s, Stderr),
      |out.queue|,
      match out.sender
      case Draining => Draining(out.hand.Some?)
      case AwaitingNotify => AwaitingNotify
      case Finishing => Finishing
      case SenderEnded => SenderEnded,
      if s.pipes[S.ToServer].receiver.Open? then ShuttingTasksDown(todo) else EndedBefore,
      match s.server
      case Waiting => Selecting
      case Injecting(_) => Injecting
      case Exiting(_) => Exiting
      case Joining => Joining
      case ServerReturned => Returned,
      0, s.permit)
  }

  /**
   * A session that the connection can fail in, and an order in which a receiver loop that is still reading tells the
   * tasks.
   */
  ghost predicate CanFail(s: S.Session, todo: seq<Notice>) {
    G.IsReachable(s) && (s.pipes[S.ToServer].receiver.Open? ==> Complete(todo, s.pty))
  }

  /**
   * After the client's `Finished` the server's sources have ended, and its sink has ended or is told that stdin has.
   */
  lemma FinishedLeavesNothing(s: S.Session)
    requires I.Inv(s) && s.pipes[S.ToServer].receiver.Ended?
    ensures s.streams[Stdout].ends.src.SourceDone? && s.streams[Stderr].ends.src.SourceDone?
    ensures P.Stopping(s.streams[Stdin].ends.snk.phase) || SourceClosed in s.streams[Stdin].outbox
  {
    assert I.FinishedLast(s.pipes[S.ToServer]) && !S.ClientStdio(s);
    assert P.Inv(M.Project(s, Stdin)) && P.Inv(M.Project(s, Stdout)) && P.Inv(M.Project(s, Stderr));
    var t := M.Project(s, Stdin);
    assert t.fwd == s.streams[Stdin].outbox;
    if t.fwd != [] { assert t.fwd[|t.fwd| - 1] in t.fwd; }
  }

  lemma FailHasInv(s: S.Session, todo: seq<Notice>)
    requires I.Inv(s) && (s.pipes[S.ToServer].receiver.Open? ==> Complete(todo, s.pty))
    ensures Inv(Fail(s, todo))
  {
    StdioIsFine(s);
    LoopsAreConsistent(s, todo);
    if s.pipes[S.ToServer].receiver.Ended? { FinishedLeavesNothing(s); }
  }

  lemma LoopsAreConsistent(s: S.Session, todo: seq<Notice>)
    requires I.Inv(s) && (s.pipes[S.ToServer].receiver.Open? ==> Complete(todo, s.pty))
    ensures Loops(Fail(s, todo))
  {
    assert I.FinishedLast(s.pipes[S.ToServer]);
  }

  lemma StdioIsFine(s: S.Session)
    requires I.Channels(s) && I.Links(s)
    ensures forall id: StdId :: SourceFine(SourceOf(s, id)) && SinkFine(SinkOf(s, id))
  {
    forall id: StdId ensures SourceFine(SourceOf(s, id)) && SinkFine(SinkOf(s, id)) {
      assert P.Inv(M.Project(s, id));
      TasksAreFine(s, id);
    }
  }

  /** A receiver loop that had ended stays so, and a main task that has left the select does not come back to it. */
  lemma AwarenessStays(s: Failing, e: Event, r: Failing)
    requires Step(s, e) == Some(r)
    ensures r.receiver.EndedBefore? <==> s.receiver.EndedBefore?
    ensures r.main.Selecting? ==> s.main.Selecting?
    ensures s.main.Selecting? && !r.main.Selecting? ==> e.ChildExited? || e.Kill?
  {
  }

  lemma {:induction false} RunKeepsAwareness(s: Failing, es: seq<Event>)
    requires Run(s, es).Some?
    ensures var r := Run(s, es).value;
      && (r.receiver.EndedBefore? <==> s.receiver.EndedBefore?)
      && (r.main.Selecting? ==> s.main.Selecting?)
    decreases |es|
  {
    if es == [] {
    } else {
      AwarenessStays(s, es[0], Step(s, es[0]).value);
      RunKeepsAwareness(Step(s, es[0]).value, es[1..]);
    }
  }

  /**
   * From every state a session can be in when the server's connection fails, and whatever order the tasks are told in:
   * every run is bounded, and a run that cannot go on has ended every stdio task and both loops, with the kill report
   * never in the way and the notify permit never lost, unless the receiver loop had ended before and the child still
   * runs.
   */
  lemma FailureEndsEverything(s: S.Session, todo: seq<Notice>, es: seq<Event>)
    requires CanFail(s, todo) && Run(Fail(s, todo), es).Some?
    ensures |es| <= Measure(Fail(s, todo))
    ensures var r := Run(Fail(s, todo), es).value; !CanMove(r) ==> (Final(r) <==> !Unaware(r))
    ensures Unaware(Run(Fail(s, todo), es).value) ==> !s.pipes[S.ToServer].receiver.Open? && s.server.Waiting?
  {
    G.ReachableHasInv(s);
    FailHasInv(s, todo);
    RunIsBounded(Fail(s, todo), es);
    RunKeepsAwareness(Fail(s, todo), es);
    var r := Run(Fail(s, todo), es).value;
    if !CanMove(r) && !Unaware(r) { StuckIsFinal(r); }
  }

  // ------------------------------------------------------- as in the session

  /** What an event of the server's tasks in a session is on a failing server; nothing for the receiver loop's. */
  function Counterpart(s: S.Session, e: S.Event): Option<Event> {
    match e
    case TaskStep(id, ev) =>
      if id.Stdin? && !P.BySource(ev) then Some(SinkEvent(SinkInputOf(s.streams[id], ev)))
      else if !id.Stdin? && P.BySource(ev) then Some(SourceEvent(id, SourceInputOf(s.streams[id], ev)))
      else None
    case Take(d) => if d.ToClient? then Some(TakeMessage) else None
    case Transmit(d) =>
      if d.ToServer? then None
      else if s.pipes[d].sender.Finishing? then Some(FinishedReturns)
      else Some(WriteReturns)
    case Drained(d) => if d.ToClient? then Some(QueueDrained) else None
    case Notified => Some(Notified)
    case ChildExit(_) => Some(ChildExited)
    case MainSend => Some(MainSends)
    case ServerJoin => Some(Join)
    case _ => None
  }

  lemma SourceAlike(s: S.Session, todo: seq<Notice>, id: StdId, ev: TaskEvent, r: S.Session)
    requires S.RunTask(s, id, ev) == Some(r) && !id.Stdin? && P.BySource(ev)
    ensures Step(Fail(s, todo), SourceEvent(id, SourceInputOf(s.streams[id], ev))) == Some(Fail(r, todo))
  {
    SourceStepsAlike(s, id, ev, r);
  }

  lemma SinkAlike(s: S.Session, todo: seq<Notice>, ev: TaskEvent, r: S.Session)
    requires S.RunTask(s, Stdin, ev) == Some(r) && !P.BySource(ev)
    ensures Step(Fail(s, todo), SinkEvent(SinkInputOf(s.streams[Stdin], ev))) == Some(Fail(r, todo))
  {
    SinkStepsAlike(s, Stdin, ev, r);
  }

  lemma LoopAlike(s: S.Session, todo: seq<Notice>, e: S.Event, r: S.Session)
    requires I.Stages(s) && S.Step(s, e) == Some(r)
    requires ((e.Take? || e.Transmit? || e.Drained?) && e.d.ToClient?) || e.Notified?
    ensures Step(Fail(s, todo), Counterpart(s, e).value) == Some(Fail(r, todo))
  {
    assert I.HandFits(s.pipes[S.ToClient]);
    assert r == s.(pipes := s.pipes[S.ToClient := r.pipes[S.ToClient]], permit := r.permit);
  }

  lemma MainSendAlike(s: S.Session, todo: seq<Notice>, r: S.Session)
    requires S.DoMainSend(s) == Some(r)
    ensures Step(Fail(s, todo), MainSends) == Some(Fail(r, todo))
  {
    var m := if s.server.Injecting? then FromSink(Stdin, SinkClosed) else Exit(s.server.status);
    var q := s.pipes[S.ToClient];
    assert S.Enqueue(s, S.ToClient, [m]) == Some(S.WithPipe(s, S.ToClient, q.(queue := q.queue + [m])));
  }

  lemma MainAlike(s: S.Session, todo: seq<Notice>, e: S.Event, r: S.Session)
    requires S.Step(s, e) == Some(r) && (e.ChildExit? || e.ServerJoin?)
    ensures Step(Fail(s, todo), Counterpart(s, e).value) == Some(Fail(r, todo))
  {
  }

  /** Until it learns of the failure, a server does what it does in a session: its tasks, sender loop and main task. */
  lemma StepsAlike(s: S.Session, todo: seq<Notice>, e: S.Event, r: S.Session)
    requires G.IsReachable(s) && S.Step(s, e) == Some(r) && Counterpart(s, e).Some?
    ensures Step(Fail(s, todo), Counterpart(s, e).value) == Some(Fail(r, todo))
  {
    if e.TaskStep? {
      if e.id.Stdin? { SinkAlike(s, todo, e.ev, r); } else { SourceAlike(s, todo, e.id, e.ev, r); }
    } else if e.MainSend? {
      MainSendAlike(s, todo, r);
    } else if e.ChildExit? || e.ServerJoin? {
      MainAlike(s, todo, e, r);
    } else {
      assert I.Stages(s) by { G.ReachableHasInv(s); }
      LoopAlike(s, todo, e, r);
    }
  }

  // --------------------------------------------------- the main task's select

  /** The main task has left its select. */
  lemma {:induction false} AfterSelect(s: Failing, es: seq<Event>)
    requires !s.main.Selecting? && Run(s, es).Some?
    ensures ChildExited !in es && Kill !in es
    ensures s.main.Joining? || s.main.Returned? ==> MainSends !in es
    decreases |es|
  {
    if es == [] {
    } else {
      AfterSelect(Step(s, es[0]).value, es[1..]);
      assert es == [es[0]] + es[1..];
    }
  }

  /**
   * The main task leaves its select once: because the child ended, after which it sends its messages, or because of a
   * kill report, after which it sends nothing.
   */
  lemma {:induction false} SelectsOnce(s: Failing, es: seq<Event>)
    requires s.main.Selecting? && Run(s, es).Some?
    ensures ChildExited in es ==> Kill !in es
    ensures MainSends in es ==> ChildExited in es
    ensures Run(s, es).value.main.Selecting? <==> ChildExited !in es && Kill !in es
    decreases |es|
  {
    if es == [] {
    } else {
      var r := Step(s, es[0]).value;
      assert es == [es[0]] + es[1..];
      if r.main.Selecting? {
        SelectsOnce(r, es[1..]);
      } else {
        AfterSelect(r, es[1..]);
        StaysOut(r, es[1..]);
      }
    }
  }

  lemma {:induction false} StaysOut(s: Failing, es: seq<Event>)
    requires !s.main.Selecting? && Run(s, es).Some?
    ensures !Run(s, es).value.main.Selecting?
    decreases |es|
  {
    if es == [] {
    } else {
      StaysOut(Step(s, es[0]).value, es[1..]);
    }
  }

  /** A report exists only when every task has been told. */
  lemma KillComesLast(s: Failing)
    requires Inv(s) && Step(s, Kill).Some?
    ensures SinkTold(s.stdin) && SourceTold(s.stdout) && SourceTold(s.stderr)
  {
  }

  // ------------------------------------------------- the failure nobody notices

  /** An unaware server runs until nothing can move, without learning of the failure. */
  lemma {:induction false} UnawareRun(s: Failing) returns (es: seq<Event>)
    requires Inv(s) && Unaware(s)
    ensures Run(s, es).Some? && !CanMove(Run(s, es).value) && Unaware(Run(s, es).value)
    decreases Measure(s)
  {
    if !CanMove(s) {
      es := [];
    } else {
      var e :| Autonomous(e) && Step(s, e).Some?;
      var r := Step(s, e).value;
      StepKeepsInv(s, e, r);
      StepDecreases(s, e, r);
      AwarenessStays(s, e, r);
      var rest := UnawareRun(r);
      es := [e] + rest;
      assert es[1..] == rest;
    }
  }

  /** Whatever runs, it ends everything. */
  ghost predicate AlwaysEnds(s: Failing) {
    forall es :: Run(s, es).Some? && !CanMove(Run(s, es).value) ==> Final(Run(s, es).value)
  }

  /** A failure ends everything exactly if the receiver loop is still reading or the main task has left its select. */
  lemma EndsExactly(s: S.Session, todo: seq<Notice>)
    requires CanFail(s, todo)
    ensures AlwaysEnds(Fail(s, todo)) <==> s.pipes[S.ToServer].receiver.Open? || !s.server.Waiting?
  {
    var f := Fail(s, todo);
    if s.pipes[S.ToServer].receiver.Open? || !s.server.Waiting? {
      forall es | Run(f, es).Some? && !CanMove(Run(f, es).value) ensures Final(Run(f, es).value) {
        FailureEndsEverything(s, todo, es);
      }
    } else {
      assert Inv(f) by {
        G.ReachableHasInv(s);
        FailHasInv(s, todo);
      }
      var es := UnawareRun(f);
      assert !Final(Run(f, es).value);
    }
  }

  /** A session before its child's exit, without a pseudo-terminal, whose client has met the end of its stdin. */
  ghost predicate StdinOver(s: S.Session, wireCap: nat) {
    I.Inv(s) && s.server.Waiting? && !s.pty && s.wireCap == wireCap && !P.Running(s.streams[Stdin].ends.src)
  }

  lemma StoppedStays(t: P.Link, seen: seq<P.LinkEvent>, u: P.Link)
    requires !P.Running(t.ends.src) && |seen| <= 1 && P.Run(t, seen) == Some(u)
    ensures !P.Running(u.ends.src)
  {
    if |seen| == 1 { P.RunOne(t, seen[0]); }
  }

  lemma StepKeepsStdinOver(s: S.Session, e: S.Event, r: S.Session, wireCap: nat)
    requires StdinOver(s, wireCap) && R.Autonomous(e) && S.Step(s, e) == Some(r)
    ensures StdinOver(r, wireCap)
  {
    assert I.Inv(r) by { I.StepKeepsInv(s, e, r); }
    assert I.Frame(s, e, r) by {
      I.StepLosesNothing(s, e);
      I.FrameHolds(s, e, r);
    }
    StepKeepsStopped(s, e, r);
  }

  lemma SeenStaysStopped(s: S.Session, e: S.Event, r: S.Session)
    requires G.Sees(s, e, r, Stdin) && !P.Running(s.streams[Stdin].ends.src)
    ensures !P.Running(r.streams[Stdin].ends.src)
  {
    StoppedStays(M.Project(s, Stdin), M.Seen(s, e, Stdin), M.Project(r, Stdin));
  }

  lemma StepKeepsStopped(s: S.Session, e: S.Event, r: S.Session)
    requires I.Inv(s) && !P.Running(s.streams[Stdin].ends.src) && S.Step(s, e) == Some(r)
    ensures !P.Running(r.streams[Stdin].ends.src)
  {
    assert G.Sees(s, e, r, Stdin) by { G.StepIsSeen(s, e, r, Stdin); }
    SeenStaysStopped(s, e, r);
  }

  lemma {:induction false} RunKeepsStdinOver(s: S.Session, es: seq<S.Event>, wireCap: nat)
    requires StdinOver(s, wireCap) && T.AllAutonomous(es) && S.Run(s, es).Some?
    ensures StdinOver(S.Run(s, es).value, wireCap)
    decreases |es|
  {
    if es == [] {
    } else {
      var r := S.Step(s, es[0]).value;
      StepKeepsStdinOver(s, es[0], r, wireCap);
      RunKeepsStdinOver(r, es[1..], wireCap);
    }
  }

  lemma StdinEnds(wireCap: nat) returns (r: S.Session)
    ensures S.Step(S.Init(false, wireCap), S.TaskStep(Stdin, SrcEnd)) == Some(r) && StdinOver(r, wireCap)
  {
    var s := S.Init(false, wireCap);
    r := S.WithStream(s, Stdin, S.BLANK.(ends := FRESH.(src := Closing)));
    assert S.RunTask(s, Stdin, SrcEnd) == Some(r);
    assert I.Inv(r) by {
      I.InitHasInv(false, wireCap);
      I.StepKeepsInv(s, S.TaskStep(Stdin, SrcEnd), r);
    }
  }

  /**
   * The client's stdin and the child's outputs end while the child runs on: the client says `Finished`, the server's
   * receiver loop ends, and when the connection fails then, nothing on the server can move although nothing has
   * returned.
   */
  lemma NobodyNotices(wireCap: nat) returns (s: S.Session)
    requires wireCap >= 1
    ensures G.IsReachable(s) && s.pipes[S.ToServer].receiver.Ended? && s.server.Waiting? && !S.ServerStdio(s)
    ensures !CanMove(Fail(s, [])) && !Final(Fail(s, []))
  {
    var r := StdinEnds(wireCap);
    var es := T.RunToRest(r);
    RunKeepsStdinOver(r, es, wireCap);
    s := S.Run(r, es).value;
    S.RunFirst(S.Init(false, wireCap), S.TaskStep(Stdin, SrcEnd), r, es);
    assert S.Run(S.Init(false, wireCap), [S.TaskStep(Stdin, SrcEnd)] + es) == Some(s);
    R.RestWithoutExit(s);
    NothingMoves(s);
  }

  lemma NothingMoves(s: S.Session)
    requires s.pipes[S.ToServer].receiver.Ended? && s.server.Waiting? && !S.ServerStdio(s)
    requires var p := s.pipes[S.ToClient]; p.sender.Draining? && p.hand.None? && p.queue == []
    ensures !CanMove(Fail(s, [])) && !Final(Fail(s, []))
  {
    var f := Fail(s, []);
    forall e | Autonomous(e) ensures Step(f, e).None? {
      match e {
        case SourceEvent(_, _) =>
        case SinkEvent(_) =>
        case _ =>
      }
    }
  }

  /** The receiver loop never waits to report: the capacity-one channel is empty until it does. */
  lemma ReportNeverBlocks(s: Failing)
    requires Inv(s) && s.receiver.Reporting?
    ensures Step(s, Report).Some?
  {
  }
}
