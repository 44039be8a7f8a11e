/**
 * A session that shares its queues, connection and receiver loops with any other traffic: listeners, connecters and
 * forwarded connections put messages of their own on both outbound queues, and both receiver loops route them.
 */
module SharedSession {
  import opened Protocol
  import opened Endpoints
  import opened Session
  import S = Session
  import G = Guarantees
  import I = SessionInvariant
  import M = Multiplexing

  /** A session and the number of queue handles that the other tasks hold on the client and on the server. */
  datatype Shared = Shared(s: Session, client: nat, server: nat)

  datatype Traffic =
    | Own(e: Event)                     // a step of the session itself
    | Send(d: Direction, tag: nat)      // another task sends a message
    | HandOver(d: Direction)            // a receiver loop hands such a message over
    | Clone(d: Direction)               // another task starts
    | Drop(d: Direction)                // another task ends

  function Handles(x: Shared, d: Direction): nat { if d.ToServer? then x.client else x.server }

  function WithHandles(x: Shared, d: Direction, n: nat): Shared {
    if d.ToServer? then x.(client := n) else x.(server := n)
  }

  function DoOwn(x: Shared, e: Event): Option<Shared> {
    if e.Drained? && Handles(x, e.d) > 0 then None
    else
      match S.Step(x.s, e)
      case None => None
      case Some(r) => Some(x.(s := r))
  }

  function DoSend(x: Shared, d: Direction, tag: nat): Option<Shared> {
    if Handles(x, d) == 0 then None
    else
      match Enqueue(x.s, d, [Forwarded(tag)])
      case None => None
      case Some(r) => Some(x.(s := r))
  }

  /** Other tasks' messages are routed without an error; how long that takes is up to the schedule. */
  function DoHandOver(x: Shared, d: Direction): Option<Shared> {
    var p := x.s.pipes[d];
    if p.receiver.Open? && p.held.Some? && p.held.value.Forwarded?
    then Some(x.(s := WithPipe(x.s, d, p.(held := None))))
    else None
  }

  function Step(x: Shared, e: Traffic): Option<Shared> {
    match e
    case Own(ev) => DoOwn(x, ev)
    case Send(d, tag) => DoSend(x, d, tag)
    case HandOver(d) => DoHandOver(x, d)
    case Clone(d) => if Handles(x, d) > 0 then Some(WithHandles(x, d, Handles(x, d) + 1)) else None
    case Drop(d) => if Handles(x, d) > 0 then Some(WithHandles(x, d, Handles(x, d) - 1)) else None
  }

  function Run(x: Shared, es: seq<Traffic>): Option<Shared>
    decreases |es|
  {
    if es == [] then Some(x)
    else match Step(x, es[0])
      case None => None
      case Some(y) => Run(y, es[1..])
  }

  // ----------------------------------------------------------------- erasure

  /** The session's own messages. */
  function Kept(ms: seq<Message>): seq<Message> {
    if ms == [] then [] else (if ms[0].Forwarded? then [] else [ms[0]]) + Kept(ms[1..])
  }

  function KeptOne(o: Option<Message>): Option<Message> { if o.Some? && o.value.Forwarded? then None else o }

  function ErasePipe(p: Pipe): Pipe {
    p.(queue := Kept(p.queue), hand := KeptOne(p.hand), wire := Kept(p.wire), held := KeptOne(p.held))
  }

  /** The session without the other traffic. */
  function Erase(s: Session): Session { s.(pipes := map d: Direction :: ErasePipe(s.pipes[d])) }

  lemma {:induction false} KeptConcat(a: seq<Message>, b: seq<Message>)
    ensures Kept(a + b) == Kept(a) + Kept(b)
  {
    if a == [] {
      assert a + b == b;
    } else {
      assert (a + b)[0] == a[0] && (a + b)[1..] == a[1..] + b;
      KeptConcat(a[1..], b);
    }
  }

  lemma {:induction false} KeptIsShorter(ms: seq<Message>)
    ensures |Kept(ms)| <= |ms|
  {
    if ms == [] {
    } else {
      KeptIsShorter(ms[1..]);
    }
  }

  lemma KeptSingle(m: Message)
    ensures Kept([m]) == if m.Forwarded? then [] else [m]
  {
    assert [m][1..] == [];
  }

  lemma KeptLast(ms: seq<Message>, m: Message)
    ensures Kept(ms + [m]) == if m.Forwarded? then Kept(ms) else Kept(ms) + [m]
  {
    KeptConcat(ms, [m]);
    KeptSingle(m);
  }

  lemma EraseWithPipe(s: Session, d: Direction, p: Pipe)
    ensures Erase(WithPipe(s, d, p)) == WithPipe(Erase(s), d, ErasePipe(p))
  {
    assert Erase(WithPipe(s, d, p)).pipes == WithPipe(Erase(s), d, ErasePipe(p)).pipes;
  }

  /** A message put on the queue with other traffic would also have found room without it. */
  lemma EnqueueErases(s: Session, d: Direction, m: Message)
    requires Enqueue(s, d, [m]).Some?
    ensures var r := Erase(Enqueue(s, d, [m]).value);
      if m.Forwarded? then r == Erase(s) else Enqueue(Erase(s), d, [m]) == Some(r)
  {
    var p := s.pipes[d];
    KeptLast(p.queue, m);
    KeptIsShorter(p.queue);
    if m.Forwarded? {
      SamePipe(s, d, p.(queue := p.queue + [m]));
    } else {
      EraseWithPipe(s, d, p.(queue := p.queue + [m]));
    }
  }

  /** Replacing a pipe by one that looks the same without the other traffic. */
  lemma SamePipe(s: Session, d: Direction, p: Pipe)
    requires ErasePipe(p) == ErasePipe(s.pipes[d])
    ensures Erase(WithPipe(s, d, p)) == Erase(s)
  {
    assert Erase(WithPipe(s, d, p)).pipes == Erase(s).pipes;
  }

  // ------------------------------------------------------- one lemma an event

  /** `r` is `s` without the other traffic, or what the session's event `e` makes of it. */
  predicate Erases(s: Session, e: Event, r: Session) {
    Erase(r) == Erase(s) || S.Step(Erase(s), e) == Some(Erase(r))
  }

  lemma TakeErases(s: Session, d: Direction, r: Session)
    requires DoTake(s, d) == Some(r)
    ensures Erase(r) == Erase(s) || DoTake(Erase(s), d) == Some(Erase(r))
  {
    var p := s.pipes[d];
    var q := p.(hand := Some(p.queue[0]), queue := p.queue[1..]);
    KeptFirst(p.queue);
    if p.queue[0].Forwarded? {
      SamePipe(s, d, q);
    } else {
      EraseWithPipe(s, d, q);
    }
  }

  lemma KeptFirst(ms: seq<Message>)
    requires |ms| > 0
    ensures if ms[0].Forwarded? then Kept(ms) == Kept(ms[1..])
      else Kept(ms) != [] && Kept(ms)[0] == ms[0] && Kept(ms)[1..] == Kept(ms[1..])
  {
    assert [] + Kept(ms[1..]) == Kept(ms[1..]);
    assert ([ms[0]] + Kept(ms[1..]))[1..] == Kept(ms[1..]);
  }

  /** A sender loop that holds another task's message is still draining its queue. */
  predicate HandInv(s: Session) {
    forall d: Direction :: s.pipes[d].hand.Some? && s.pipes[d].hand.value.Forwarded? ==> s.pipes[d].sender.Draining?
  }

  lemma TransmitErases(s: Session, d: Direction, r: Session)
    requires HandInv(s) && DoTransmit(s, d) == Some(r)
    ensures Erase(r) == Erase(s) || DoTransmit(Erase(s), d) == Some(Erase(r))
  {
    if s.pipes[d].hand.value.Forwarded? {
      KeptLast(s.pipes[d].wire, s.pipes[d].hand.value);
      SamePipe(s, d, r.pipes[d]);
      assert r == WithPipe(s, d, r.pipes[d]);
    } else {
      OwnTransmitErases(s, d, r);
    }
  }

  lemma OwnTransmitErases(s: Session, d: Direction, r: Session)
    requires DoTransmit(s, d) == Some(r) && !s.pipes[d].hand.value.Forwarded?
    ensures DoTransmit(Erase(s), d) == Some(Erase(r))
  {
    var p := s.pipes[d];
    var q := p.(hand := None, wire := p.wire + [p.hand.value],
                sender := if p.sender.Finishing? then SenderEnded else p.sender);
    EraseWithPipe(s, d, q);
    KeptLast(p.wire, p.hand.value);
    assert |Kept(p.wire)| <= |p.wire| by { KeptIsShorter(p.wire); }
    assert Erase(s).pipes[d] == ErasePipe(p) && Erase(s).wireCap == s.wireCap;
    assert ErasePipe(q) == ErasePipe(p).(hand := None, wire := Kept(p.wire) + [p.hand.value], sender := q.sender);
  }

  lemma DrainedErases(s: Session, d: Direction, r: Session)
    requires DoDrained(s, d) == Some(r)
    ensures DoDrained(Erase(s), d) == Some(Erase(r))
  {
    var p := s.pipes[d];
    if d.ToServer? {
      assert ClientStdio(Erase(s)) == ClientStdio(s);
      EraseWithPipe(s, d, p.(sender := Finishing, hand := Some(Finished)));
    } else {
      assert ServerHandles(Erase(s)) == ServerHandles(s);
      EraseWithPipe(s, d, p.(sender := AwaitingNotify));
    }
  }

  lemma NotifiedErases(s: Session, r: Session)
    requires DoNotified(s) == Some(r)
    ensures DoNotified(Erase(s)) == Some(Erase(r))
  {
    EraseWithPipe(s, ToClient, r.pipes[ToClient]);
  }

  lemma FetchErases(s: Session, d: Direction, r: Session)
    requires DoFetch(s, d) == Some(r)
    ensures Erase(r) == Erase(s) || DoFetch(Erase(s), d) == Some(Erase(r))
  {
    var p := s.pipes[d];
    var q := p.(held := Some(p.wire[0]), wire := p.wire[1..]);
    KeptFirst(p.wire);
    if p.wire[0].Forwarded? {
      SamePipe(s, d, q);
    } else {
      EraseWithPipe(s, d, q);
    }
  }

  lemma EraseWithStream(s: Session, id: StdId, st: Stream)
    ensures Erase(WithStream(s, id, st)) == WithStream(Erase(s), id, st)
  {
  }

  lemma CrashErases(s: Session, d: Direction)
    ensures Erase(Crash(s, d)) == Crash(Erase(s), d)
  {
    EraseWithPipe(s, d, s.pipes[d].(receiver := Crashed));
  }

  lemma SourceErases(s: Session, d: Direction, id: StdId, a: SourceAction, r: Session)
    requires HandleSource(s, d, id, a) == Some(r)
    ensures HandleSource(Erase(s), d, id, a) == Some(Erase(r))
  {
    CrashErases(s, d);
    EraseWithStream(s, id, s.streams[id].(outbox := s.streams[id].outbox + [a]));
  }

  lemma SinkErases(s: Session, d: Direction, id: StdId, a: SinkAction, r: Session)
    requires HandleSink(s, d, id, a) == Some(r)
    ensures HandleSink(Erase(s), d, id, a) == Some(Erase(r))
  {
    CrashErases(s, d);
    EraseWithStream(s, id, s.streams[id].(inbox := s.streams[id].inbox + [a]));
  }

  lemma ControlErases(s: Session, d: Direction, m: Message, r: Session)
    requires HandleControl(s, d, m) == Some(r)
    ensures HandleControl(Erase(s), d, m) == Some(Erase(r))
  {
    if m.Finished? {
      EraseWithPipe(s, d, s.pipes[d].(receiver := Ended));
    } else if m.Exit? {
      CrashErases(s, d);
    }
  }

  lemma HandleErases(s: Session, d: Direction, m: Message, r: Session)
    requires Handle(s, d, m) == Some(r)
    ensures Handle(Erase(s), d, m) == Some(Erase(r))
  {
    match m {
      case FromSource(id, a) => SourceErases(s, d, id, a, r);
      case FromSink(id, a) => SinkErases(s, d, id, a, r);
      case _ => ControlErases(s, d, m, r);
    }
  }

  lemma RouteErases(s: Session, d: Direction, r: Session)
    requires DoRoute(s, d) == Some(r)
    ensures DoRoute(Erase(s), d) == Some(Erase(r))
  {
    var p := s.pipes[d];
    HandleErases(WithPipe(s, d, p.(held := None)), d, p.held.value, r);
    EraseWithPipe(s, d, p.(held := None));
  }

  lemma EnqueueSomeErases(s: Session, d: Direction, ms: seq<Message>)
    requires |ms| <= 1 && (|ms| == 1 ==> !ms[0].Forwarded?) && Enqueue(s, d, ms).Some?
    ensures Enqueue(Erase(s), d, ms) == Some(Erase(Enqueue(s, d, ms).value))
  {
    if |ms| == 1 {
      assert ms == [ms[0]];
      EnqueueErases(s, d, ms[0]);
    }
  }

  lemma TaskErases(s: Session, id: StdId, ev: TaskEvent, r: Session)
    requires RunTask(s, id, ev) == Some(r)
    ensures RunTask(Erase(s), id, ev) == Some(Erase(r))
  {
    var st := s.streams[id];
    var m := Act(st.ends, ev, st.inbox, st.outbox).value;
    var s1 := WithStream(s, id, AfterMove(st, m));
    var s2 := Enqueue(s1, Forward(id), Upward(id, m.up)).value;
    EraseWithStream(s, id, AfterMove(st, m));
    assert Enqueue(Erase(s1), Forward(id), Upward(id, m.up)) == Some(Erase(s2)) by {
      EnqueueSomeErases(s1, Forward(id), Upward(id, m.up));
    }
    assert Enqueue(Erase(s2), Backward(id), Downward(id, m.down)) == Some(Erase(r)) by {
      EnqueueSomeErases(s2, Backward(id), Downward(id, m.down));
    }
  }

  lemma MainErases(s: Session, r: Session)
    requires DoMainSend(s) == Some(r)
    ensures DoMainSend(Erase(s)) == Some(Erase(r))
  {
    var m := if s.server.Injecting? then FromSink(Stdin, SinkClosed) else Exit(s.server.status);
    var q := Enqueue(s, ToClient, [m]).value;
    assert Enqueue(Erase(s), ToClient, [m]) == Some(Erase(q)) by { EnqueueErases(s, ToClient, m); }
    if s.server.Injecting? { InjectedErases(q); }
  }

  lemma InjectedErases(s: Session)
    ensures Erase(Injected(s)) == Injected(Erase(s))
  {
    EraseWithStream(s, Stdin, Injected(s).streams[Stdin]);
  }

  lemma SizeErases(s: Session, r: Session)
    requires DoSendSize(s) == Some(r)
    ensures DoSendSize(Erase(s)) == Some(Erase(r))
  {
    EnqueueErases(s, ToServer, WindowSizeChange(s.window.width, s.window.height));
  }

  lemma JoinErases(s: Session, e: Event, r: Session)
    requires (e.ChildExit? || e.ServerJoin? || e.StatusArrives? || e.StdioJoined? || e.LoopsJoined?)
    requires S.Step(s, e) == Some(r)
    ensures S.Step(Erase(s), e) == Some(Erase(r))
  {
    if e.ChildExit? {
      assert DoChildExit(Erase(s), e.status) == Some(Erase(r));
    } else if e.ServerJoin? {
      ServerJoinErases(s, r);
    } else {
      ClientMainErases(s, e, r);
    }
  }

  lemma ServerJoinErases(s: Session, r: Session)
    requires DoServerJoin(s) == Some(r)
    ensures DoServerJoin(Erase(s)) == Some(Erase(r))
  {
  }

  lemma ClientMainErases(s: Session, e: Event, r: Session)
    requires DoClientMain(s, e) == Some(r)
    ensures DoClientMain(Erase(s), e) == Some(Erase(r))
  {
    assert r == s.(client := r.client);
    EraseWithClient(s, r.client);
    if s.client.JoiningStdio? {
      assert ClientStdio(Erase(s)) == ClientStdio(s);
    }
  }

  lemma EraseWithClient(s: Session, c: ClientMain)
    ensures Erase(s.(client := c)) == Erase(s).(client := c)
  {
  }

  lemma WindowErases(s: Session, e: Event, r: Session)
    requires DoWindow(s, e) == Some(r)
    ensures DoWindow(Erase(s), e) == Some(Erase(r))
  {
  }

  lemma LossErases(s: Session, e: Event, r: Session)
    requires Loses(e) && S.Step(s, e) == Some(r)
    ensures S.Step(Erase(s), e) == Some(Erase(r))
  {
    EraseWithStream(s, e.id, r.streams[e.id]);
  }

  lemma LocalErases(s: Session, e: Event, r: Session)
    requires M.Local(e) && S.Step(s, e) == Some(r)
    ensures S.Step(Erase(s), e) == Some(Erase(r))
  {
    if e.SizeChanged? || e.SizeUnknown? || e.WindowStop? { WindowErases(s, e, r); } else { JoinErases(s, e, r); }
  }

  /**
   * Without the other traffic a step of the session is that step, or nothing where a loop moved another task's
   * message.
   */
  lemma OwnErases(s: Session, e: Event, r: Session)
    requires HandInv(s) && S.Step(s, e) == Some(r)
    ensures Erases(s, e, r)
  {
    if M.Local(e) {
      LocalErases(s, e, r);
    } else if Loses(e) {
      LossErases(s, e, r);
    } else {
      match e {
        case TaskStep(id, ev) => TaskErases(s, id, ev, r);
        case Take(d) => TakeErases(s, d, r);
        case Transmit(d) => TransmitErases(s, d, r);
        case Drained(d) => DrainedErases(s, d, r);
        case Notified => NotifiedErases(s, r);
        case Fetch(d) => FetchErases(s, d, r);
        case Route(d) => RouteErases(s, d, r);
        case MainSend => MainErases(s, r);
        case SendSize => SizeErases(s, r);
      }
    }
  }

  // ----------------------------------------------------------------- runs

  lemma OwnKeepsHands(s: Session, e: Event, r: Session)
    requires HandInv(s) && S.Step(s, e) == Some(r)
    ensures HandInv(r)
  {
    if Loses(e) {
      assert r.pipes == s.pipes;
    } else {
      forall d: Direction
        ensures r.pipes[d].hand.Some? && r.pipes[d].hand.value.Forwarded? ==> r.pipes[d].sender.Draining?
      {
        I.StageMoves(s, e, r, d);
        I.PipeFrameHolds(s, e, r, d);
      }
    }
  }

  lemma StepKeepsHands(x: Shared, e: Traffic, y: Shared)
    requires HandInv(x.s) && Step(x, e) == Some(y)
    ensures HandInv(y.s)
  {
    if e.Own? { OwnKeepsHands(x.s, e.e, y.s); }
  }

  /** One step with other traffic is at most one step of the session without it. */
  lemma StepErases(x: Shared, e: Traffic, y: Shared)
    requires HandInv(x.s) && Step(x, e) == Some(y)
    ensures Erase(y.s) == Erase(x.s) || (e.Own? && S.Step(Erase(x.s), e.e) == Some(Erase(y.s)))
  {
    match e {
      case Own(ev) => OwnErases(x.s, ev, y.s);
      case Send(d, tag) => EnqueueErases(x.s, d, Forwarded(tag));
      case HandOver(d) => SamePipe(x.s, d, x.s.pipes[d].(held := None));
      case Clone(_) =>
      case Drop(_) =>
    }
  }

  /** Whatever else shares queues, connection and loops, the session runs as it would alone. */
  lemma {:induction false} RunErases(x: Shared, es: seq<Traffic>) returns (fs: seq<Event>)
    requires HandInv(x.s) && Run(x, es).Some?
    ensures S.Run(Erase(x.s), fs) == Some(Erase(Run(x, es).value.s))
    decreases |es|
  {
    if es == [] {
      fs := [];
    } else {
      var y := Step(x, es[0]).value;
      StepErases(x, es[0], y);
      StepKeepsHands(x, es[0], y);
      fs := RunErases(y, es[1..]);
      if Erase(y.s) != Erase(x.s) {
        RunFirst(Erase(x.s), es[0].e, Erase(y.s), fs);
        fs := [es[0].e] + fs;
      }
    }
  }

  // ------------------------------------------------------------ the other side

  /** No message of another task follows `Finished`. */
  predicate NoneBehind(ms: seq<Message>) {
    forall i, j :: 0 <= i < j < |ms| && ms[i].Finished? ==> !ms[j].Forwarded?
  }

  /** A sender loop that has found its queue deserted leaves nobody with a handle, and `Finished` comes last. */
  predicate Tidy(x: Shared, d: Direction) {
    var p := x.s.pipes[d];
    && (!p.sender.Draining? ==> Handles(x, d) == 0 && p.queue == [])
    && NoneBehind(M.Flow(p))
    && (p.receiver.Ended? ==> M.Flow(p) == [])
  }

  /** What the session's own invariant says of direction `d`, the other traffic left out. */
  predicate OwnStages(s: Session, d: Direction) {
    var p := s.pipes[d];
    && (p.sender.Draining? || p.sender.AwaitingNotify? ==> I.NoFinished(Kept(M.Flow(p))) && p.receiver.Open?)
    && (p.receiver.Ended? ==> Kept(M.Flow(p)) == [])
    && (!p.sender.Draining? ==> I.Deserted(s, d))
  }

  lemma {:induction false} KeptFlow(p: Pipe)
    ensures Kept(M.Flow(p)) == M.Flow(ErasePipe(p))
  {
    KeptConcat(M.Opt(p.held) + p.wire + M.Opt(p.hand), p.queue);
    KeptConcat(M.Opt(p.held) + p.wire, M.Opt(p.hand));
    KeptConcat(M.Opt(p.held), p.wire);
    KeptOpt(p.held);
    KeptOpt(p.hand);
  }

  lemma KeptOpt(o: Option<Message>)
    ensures Kept(M.Opt(o)) == M.Opt(KeptOne(o))
  {
    if o.Some? { KeptSingle(o.value); }
  }

  lemma StagesAreOwn(s: Session, d: Direction)
    requires I.Stages(Erase(s))
    ensures OwnStages(s, d)
  {
    KeptFlow(s.pipes[d]);
    assert I.FinishedLast(Erase(s).pipes[d]);
    if !s.pipes[d].sender.Draining? { assert I.Deserted(Erase(s), d); }
  }

  /** Messages none of which is another task's. */
  lemma {:induction false} AllKept(ms: seq<Message>)
    requires forall i :: 0 <= i < |ms| ==> !ms[i].Forwarded?
    ensures Kept(ms) == ms
  {
    if ms == [] {
    } else {
      AllKept(ms[1..]);
    }
  }

  lemma {:induction false} NoFinishedAtAll(ms: seq<Message>)
    requires I.NoFinished(Kept(ms))
    ensures I.NoFinished(ms)
  {
    if ms == [] {
    } else {
      assert I.NoFinished(Kept(ms[1..])) by {
        if !ms[0].Forwarded? { assert Kept(ms)[1..] == Kept(ms[1..]); }
        forall i | 0 <= i < |Kept(ms[1..])| ensures Kept(ms[1..])[i] != Finished {
          assert Kept(ms[1..])[i] == if ms[0].Forwarded? then Kept(ms)[i] else Kept(ms)[i + 1];
        }
      }
      NoFinishedAtAll(ms[1..]);
      assert ms[0] != Finished by { if !ms[0].Forwarded? { assert Kept(ms)[0] == ms[0]; } }
      assert forall i :: 0 < i < |ms| ==> ms[i] == ms[1..][i - 1];
    }
  }

  lemma PushedIsOwn(s: Session, e: Event, d: Direction)
    ensures forall i :: 0 <= i < |I.Pushed(s, e, d)| ==> !I.Pushed(s, e, d)[i].Forwarded?
  {
  }

  lemma TailNoneBehind(m: Message, g: seq<Message>)
    requires NoneBehind([m] + g)
    ensures NoneBehind(g) && (m.Finished? ==> forall i :: 0 <= i < |g| ==> !g[i].Forwarded?)
  {
    forall i | 0 <= i < |g| ensures ([m] + g)[i + 1] == g[i] {}
    forall i, j | 0 <= i < j < |g| && g[i].Finished? ensures !g[j].Forwarded? {
      assert ([m] + g)[i + 1] == g[i] && ([m] + g)[j + 1] == g[j];
    }
    if m.Finished? {
      forall i | 0 <= i < |g| ensures !g[i].Forwarded? { assert ([m] + g)[0] == m && ([m] + g)[i + 1] == g[i]; }
    }
  }

  lemma LongerNoneBehind(f: seq<Message>, x: seq<Message>)
    requires NoneBehind(f) && forall i :: 0 <= i < |x| ==> !x[i].Forwarded?
    ensures NoneBehind(f + x)
  {
  }

  lemma LastNoneBehind(f: seq<Message>, m: Message)
    requires I.NoFinished(f)
    ensures NoneBehind(f + [m])
  {
  }

  /** A receiver loop of the session takes the oldest message. */
  lemma RouteTidy(x: Shared, d: Direction, y: Shared)
    requires Tidy(x, d) && OwnStages(y.s, d) && DoRoute(x.s, d) == Some(y.s) && y == x.(s := y.s)
    requires I.FlowEffect(x.s, Route(d), y.s, d) && I.StageMove(x.s, Route(d), y.s, d)
    requires y.s.pipes[d].queue == x.s.pipes[d].queue && y.s.pipes[d].sender == x.s.pipes[d].sender
    ensures Tidy(y, d)
  {
    var m, g := x.s.pipes[d].held.value, M.Flow(y.s.pipes[d]);
    TailNoneBehind(m, g);
    if y.s.pipes[d].receiver.Ended? { AllKept(g); }
  }

  /** Any other step of the session adds at most messages of its own. */
  lemma PushTidy(x: Shared, e: Event, d: Direction, y: Shared)
    requires Tidy(x, d) && OwnStages(x.s, d) && OwnStages(y.s, d) && Step(x, Own(e)) == Some(y)
    requires e != Route(d) && !Loses(e)
    requires I.FlowEffect(x.s, e, y.s, d) && I.StageMove(x.s, e, y.s, d) && I.QueueMove(x.s, e, y.s, d)
    requires I.PipeFrame(e, d, x.s.pipes[d], y.s.pipes[d])
    ensures Tidy(y, d)
  {
    var p, q, f, a := x.s.pipes[d], y.s.pipes[d], M.Flow(x.s.pipes[d]), I.Pushed(x.s, e, d);
    PushedIsOwn(x.s, e, d);
    LongerNoneBehind(f, a);
    if q.receiver.Ended? {
      assert f + a == a;
      AllKept(a);
    }
    if !p.sender.Draining? && !e.Drained? && !e.Notified? { I.DesertedPushesNothing(x.s, e, d); }
  }

  lemma OwnTidy(x: Shared, e: Event, d: Direction, y: Shared)
    requires Tidy(x, ToClient) && Tidy(x, d) && OwnStages(x.s, d) && OwnStages(y.s, d)
    requires Step(x, Own(e)) == Some(y) && !Loses(e)
    ensures Tidy(y, d)
  {
    I.FlowStep(x.s, e, y.s, d);
    I.StageMoves(x.s, e, y.s, d);
    I.PipeFrameHolds(x.s, e, y.s, d);
    if e == Route(d) {
      I.RouteQueue(x.s, d, y.s, d);
      RouteTidy(x, d, y);
    } else {
      I.QueueMoves(x.s, e, y.s, d);
      PushTidy(x, e, d, y);
    }
  }

  lemma SendTidy(x: Shared, j: Direction, tag: nat, d: Direction, y: Shared)
    requires Tidy(x, d) && OwnStages(x.s, d) && DoSend(x, j, tag) == Some(y)
    ensures Tidy(y, d)
  {
    var p := x.s.pipes[j];
    assert y.s == WithPipe(x.s, j, p.(queue := p.queue + [Forwarded(tag)]));
    if d == j {
      assert M.Flow(y.s.pipes[d]) == M.Flow(p) + [Forwarded(tag)];
      NoFinishedAtAll(M.Flow(p));
      LastNoneBehind(M.Flow(p), Forwarded(tag));
    }
  }

  lemma HandOverTidy(x: Shared, j: Direction, d: Direction, y: Shared)
    requires Tidy(x, d) && DoHandOver(x, j) == Some(y)
    ensures Tidy(y, d)
  {
    var p := x.s.pipes[j];
    if d == j {
      assert M.Flow(p) == [p.held.value] + M.Flow(y.s.pipes[d]);
      TailNoneBehind(p.held.value, M.Flow(y.s.pipes[d]));
    }
  }

  lemma StepTidy(x: Shared, e: Traffic, d: Direction, y: Shared)
    requires Tidy(x, ToClient) && Tidy(x, d) && OwnStages(x.s, d) && OwnStages(y.s, d)
    requires Step(x, e) == Some(y) && (e.Own? ==> !Loses(e.e))
    ensures Tidy(y, d)
  {
    match e {
      case Own(ev) => OwnTidy(x, ev, d, y);
      case Send(j, tag) => SendTidy(x, j, tag, d, y);
      case HandOver(j) => HandOverTidy(x, j, d, y);
      case Clone(_) =>
      case Drop(_) =>
    }
  }

  lemma OwnLosesNothing(x: Shared, e: Event)
    requires I.Inv(Erase(x.s)) && Loses(e)
    ensures Step(x, Own(e)).None?
  {
    I.NothingLost(Erase(x.s), e);
    if S.Step(x.s, e).Some? { LossErases(x.s, e, S.Step(x.s, e).value); }
  }

  lemma EraseKeepsInv(x: Shared, e: Traffic, y: Shared)
    requires HandInv(x.s) && I.Inv(Erase(x.s)) && Step(x, e) == Some(y)
    ensures HandInv(y.s) && I.Inv(Erase(y.s))
  {
    StepErases(x, e, y);
    StepKeepsHands(x, e, y);
    if Erase(y.s) != Erase(x.s) { I.StepKeepsInv(Erase(x.s), e.e, Erase(y.s)); }
  }

  ghost predicate SharedInv(x: Shared) {
    HandInv(x.s) && I.Inv(Erase(x.s)) && Tidy(x, ToServer) && Tidy(x, ToClient)
  }

  lemma StepKeepsSharedInv(x: Shared, e: Traffic, y: Shared)
    requires SharedInv(x) && Step(x, e) == Some(y)
    ensures SharedInv(y)
  {
    EraseKeepsInv(x, e, y);
    if e.Own? && Loses(e.e) { OwnLosesNothing(x, e.e); }
    StagesAreOwn(x.s, ToServer);
    StagesAreOwn(y.s, ToServer);
    StagesAreOwn(x.s, ToClient);
    StagesAreOwn(y.s, ToClient);
    StepTidy(x, e, ToServer, y);
    StepTidy(x, e, ToClient, y);
  }

  lemma {:induction false} RunKeepsSharedInv(x: Shared, es: seq<Traffic>)
    requires SharedInv(x) && Run(x, es).Some?
    ensures SharedInv(Run(x, es).value)
    decreases |es|
  {
    if es == [] {
    } else {
      StepKeepsSharedInv(x, es[0], Step(x, es[0]).value);
      RunKeepsSharedInv(Step(x, es[0]).value, es[1..]);
    }
  }

  // ---------------------------------------------------------------- theorems

  /** A state some run reaches in which no forwarded data is early; any number of handles may be held at the start. */
  ghost predicate IsReachable(x: Shared) {
    exists pty: bool, wireCap: nat, client: nat, server: nat, es: seq<Traffic> ::
      Run(Shared(Init(pty, wireCap), client, server), es) == Some(x)
  }

  lemma InitErases(pty: bool, wireCap: nat)
    ensures Erase(Init(pty, wireCap)) == Init(pty, wireCap) && HandInv(Init(pty, wireCap))
  {
    KeptSingle(FromSource(Stderr, SourceClosed));
    assert Erase(Init(pty, wireCap)).pipes == Init(pty, wireCap).pipes;
  }

  lemma ErasedIsReachable(x: Shared)
    requires IsReachable(x)
    ensures G.IsReachable(Erase(x.s))
  {
    var pty: bool, wireCap: nat, client: nat, server: nat, es: seq<Traffic> :|
      Run(Shared(Init(pty, wireCap), client, server), es) == Some(x);
    InitErases(pty, wireCap);
    var fs := RunErases(Shared(Init(pty, wireCap), client, server), es);
    assert S.Run(Init(pty, wireCap), fs) == Some(Erase(x.s));
  }

  /** The client's `serve` keeps its promise whatever else goes over the connection. */
  lemma EndToEnd(x: Shared)
    requires IsReachable(x) && x.s.client.ClientReturned?
    ensures x.s.child == Some(x.s.client.status)
    ensures G.Delivered(x.s.streams[Stdout].ends) && G.Delivered(x.s.streams[Stderr].ends)
  {
    ErasedIsReachable(x);
    G.EndToEnd(Erase(x.s));
  }

  /** At every moment each output is a prefix of its input, at most one packet behind while its sink is open. */
  lemma AlwaysPrefix(x: Shared, id: StdId)
    requires IsReachable(x)
    ensures var e := x.s.streams[id].ends;
      && e.written <= e.read
      && (!e.snk.closed ==> |e.read| <= |e.written| + MAX_STREAM_PACKET_SIZE)
  {
    ErasedIsReachable(x);
    G.AlwaysPrefix(Erase(x.s), id);
  }

  /**
   * No stdio task panics or finds its channel gone, and no receiver loop leaves on a stdio message or a second
   * `Exit`.
   */
  lemma NothingFails(x: Shared)
    requires IsReachable(x)
    ensures forall id: StdId :: G.NoFailure(x.s.streams[id].ends)
    ensures !x.s.pipes[ToServer].receiver.Crashed? && !x.s.pipes[ToClient].receiver.Crashed?
    ensures forall e: Event :: Loses(e) ==> S.Step(x.s, e).None?
  {
    ErasedIsReachable(x);
    G.NothingFails(Erase(x.s));
    forall id: StdId ensures G.NoFailure(x.s.streams[id].ends) {
      assert G.NoFailure(Erase(x.s).streams[id].ends);
    }
    forall e: Event | Loses(e) ensures S.Step(x.s, e).None? {
      if S.Step(x.s, e).Some? { LossErases(x.s, e, S.Step(x.s, e).value); }
    }
  }

  lemma ReachableSharedInv(x: Shared)
    requires IsReachable(x)
    ensures SharedInv(x)
  {
    var pty: bool, wireCap: nat, client: nat, server: nat, es: seq<Traffic> :|
      Run(Shared(Init(pty, wireCap), client, server), es) == Some(x);
    InitErases(pty, wireCap);
    I.InitHasInv(pty, wireCap);
    I.InitFlows(pty, wireCap);
    RunKeepsSharedInv(Shared(Init(pty, wireCap), client, server), es);
  }

  /**
   * When the client has read `Finished`, all stdio tasks and the window-change task have ended on both sides, no other
   * task holds a handle of either queue, and nothing of anybody's is under way.
   */
  lemma FinishedHandshake(x: Shared)
    requires IsReachable(x) && x.s.pipes[ToClient].receiver.Ended?
    ensures G.AllTasksEnded(x.s)
    ensures x.client == 0 && x.server == 0
    ensures M.Flow(x.s.pipes[ToServer]) == [] && M.Flow(x.s.pipes[ToClient]) == []
  {
    ErasedIsReachable(x);
    G.FinishedHandshake(Erase(x.s));
    assert G.Spent(Erase(x.s).pipes[ToServer]) && G.Spent(Erase(x.s).pipes[ToClient]);
    ReachableSharedInv(x);
  }
}
