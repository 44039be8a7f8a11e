/** What the invariant means to the two users of a session. */
module Guarantees {
  import opened Protocol
  import opened Endpoints
  import opened Session
  import opened Multiplexing
  import opened SessionInvariant
  import P = StreamProtocol

  /** A state some failure-free run of a session reaches. */
  ghost predicate IsReachable(s: Session) {
    exists pty: bool, wireCap: nat, es: seq<Event> ::
      Run(Init(pty, wireCap), es) == Some(s)
  }

  lemma InitIsReachable(pty: bool, wireCap: nat)
    ensures IsReachable(Init(pty, wireCap))
  {
    assert Run(Init(pty, wireCap), []) == Some(Init(pty, wireCap));
  }

  lemma ReachableRun(s: Session, fs: seq<Event>, r: Session)
    requires IsReachable(s) && Run(s, fs) == Some(r)
    ensures IsReachable(r)
  {
    var pty: bool, wireCap: nat, es: seq<Event> :| Run(Init(pty, wireCap), es) == Some(s);
    RunConcat(Init(pty, wireCap), es, fs);
  }

  lemma ReachableStep(s: Session, e: Event, r: Session)
    requires IsReachable(s) && Step(s, e) == Some(r)
    ensures IsReachable(r)
  {
    RunFirst(s, e, r, []);
    assert [e] + [] == [e];
    ReachableRun(s, [e], r);
  }

  lemma ReachableHasInv(s: Session)
    requires IsReachable(s)
    ensures Inv(s)
  {
    var pty: bool, wireCap: nat, es: seq<Event> :| Run(Init(pty, wireCap), es) == Some(s);
    Reachable(pty, wireCap, es);
  }

  // ---------------------------------------------------------------- delivery

  /** Exactly the bytes read, or a prefix of them if this sink's writer broke. */
  predicate Delivered(e: Ends) {
    e.src.SourceDone? && e.snk.phase.SinkDone? && if e.snk.closed then e.written <= e.read else e.written == e.read
  }

  lemma ReturnMeansDelivered(s: Session)
    requires Inv(s) && s.client.ClientReturned?
    ensures s.child == Some(s.client.status)
    ensures Delivered(s.streams[Stdout].ends) && Delivered(s.streams[Stderr].ends)
  {
    assert P.Inv(Project(s, Stdout)) && P.Inv(Project(s, Stderr));
  }

  /** When the client's `serve` returns, the status is the child's and both outputs are delivered. */
  lemma EndToEnd(s: Session)
    requires IsReachable(s) && s.client.ClientReturned?
    ensures s.child == Some(s.client.status)
    ensures Delivered(s.streams[Stdout].ends) && Delivered(s.streams[Stderr].ends)
  {
    ReachableHasInv(s);
    ReturnMeansDelivered(s);
  }

  /**
   * At every moment each stream's output is a prefix of its input, at most one packet behind while its sink is open.
   */
  lemma AlwaysPrefix(s: Session, id: StdId)
    requires IsReachable(s)
    ensures var e := s.streams[id].ends;
      && e.written <= e.read
      && (!e.snk.closed ==> |e.read| <= |e.written| + MAX_STREAM_PACKET_SIZE)
  {
    ReachableHasInv(s);
    P.BytesMeaning(Project(s, id));
  }

  // ------------------------------------------------------------------ safety

  predicate NoFailure(e: Ends) { !e.src.Panicked? && !e.src.SourceFailed? && !e.snk.phase.SinkFailed? }

  /**
   * No task panics or finds its channel gone, and no receiver loop leaves on a routing error. A sink fails only on an
   * unexpected write error, which a session does not have.
   */
  lemma NothingFails(s: Session)
    requires IsReachable(s)
    ensures forall id: StdId :: NoFailure(s.streams[id].ends)
    ensures !s.pipes[ToServer].receiver.Crashed? && !s.pipes[ToClient].receiver.Crashed?
    ensures forall e: Event :: Loses(e) ==> Step(s, e).None?
    ensures !s.pipes[ToClient].receiver.Open? ==>
      && s.streams[Stdin].ends.src.SourceDone?
      && s.streams[Stdout].ends.snk.phase.SinkDone? && s.streams[Stderr].ends.snk.phase.SinkDone?
    ensures s.server.ServerReturned? ==>
      && s.streams[Stdin].ends.snk.phase.SinkDone?
      && s.streams[Stdout].ends.src.SourceDone? && s.streams[Stderr].ends.src.SourceDone?
  {
    ReachableHasInv(s);
    ChannelsOutliveTasks(s);
    forall id: StdId ensures NoFailure(s.streams[id].ends) {
      assert P.Inv(Project(s, id));
    }
    forall e: Event | Loses(e) ensures Step(s, e).None? {
      NothingLost(s, e);
    }
  }

  /** A loop that drops a router does so after all tasks that it feeds have ended. */
  lemma ChannelsOutliveTasks(s: Session)
    requires Stages(s) && Joined(s) && !s.pipes[ToClient].receiver.Crashed?
    ensures !s.pipes[ToClient].receiver.Open? ==> !ClientStdio(s)
    ensures s.server.ServerReturned? ==> !ServerHandles(s)
  {
    if !s.pipes[ToClient].receiver.Open? { ClientTasksEnded(s); }
    if s.server.ServerReturned? { ServerTasksEnded(s); }
  }

  lemma ReachableTyped(s: Session)
    requires IsReachable(s)
    ensures Links(s) && Typed(s)
  {
    ReachableHasInv(s);
  }

  /** A routed source action finds its sink registered and alive, and is appended to its channel. */
  lemma SourceActionArrives(s: Session, d: Direction, r: Session)
    requires IsReachable(s) && DoRoute(s, d) == Some(r)
    requires s.pipes[d].held.Some? && s.pipes[d].held.value.FromSource?
    ensures var m := s.pipes[d].held.value;
      && HasSink(d, m.sid) && !s.streams[m.sid].ends.snk.phase.SinkDone?
      && r.streams == s.streams[m.sid := s.streams[m.sid].(outbox := s.streams[m.sid].outbox + [m.source])]
  {
    assert HasSink(d, s.pipes[d].held.value.sid) && !s.streams[s.pipes[d].held.value.sid].ends.snk.phase.SinkDone? by {
      ReachableTyped(s);
      SourceActionFindsSink(s, d);
    }
    RoutedSource(s, d, r);
  }

  lemma RoutedSource(s: Session, d: Direction, r: Session)
    requires DoRoute(s, d) == Some(r) && s.pipes[d].held.Some? && s.pipes[d].held.value.FromSource?
    requires var id := s.pipes[d].held.value.sid; HasSink(d, id) && !s.streams[id].ends.snk.phase.SinkDone?
    ensures var m := s.pipes[d].held.value;
      r.streams == s.streams[m.sid := s.streams[m.sid].(outbox := s.streams[m.sid].outbox + [m.source])]
  {
    var m := s.pipes[d].held.value;
    assert HandleSource(WithPipe(s, d, s.pipes[d].(held := None)), d, m.sid, m.source) == Some(r);
  }

  lemma RoutedReply(s: Session, d: Direction, r: Session)
    requires DoRoute(s, d) == Some(r) && s.pipes[d].held.Some? && s.pipes[d].held.value.FromSink?
    requires HasSource(d, s.pipes[d].held.value.kid, s.pty)
    ensures var m := s.pipes[d].held.value;
      r.streams == if s.streams[m.kid].ends.src.SourceDone? then s.streams
                   else s.streams[m.kid := s.streams[m.kid].(inbox := s.streams[m.kid].inbox + [m.sink])]
  {
    var m := s.pipes[d].held.value;
    assert HandleSink(WithPipe(s, d, s.pipes[d].(held := None)), d, m.kid, m.sink) == Some(r);
  }

  /** A reply that reached a receiver loop belongs to a source of this side. */
  lemma ReplyFindsSource(s: Session, d: Direction)
    requires Typed(s) && s.pipes[d].held.Some? && s.pipes[d].held.value.FromSink?
    ensures HasSource(d, s.pipes[d].held.value.kid, s.pty)
  {
    HeadIsUnderWay(s, d);
    assert Belongs(Flow(s.pipes[d])[0], d, s.pty);
  }

  /** A routed reply finds its source registered; if that source has finished, the reply changes nothing. */
  lemma ReplyArrives(s: Session, d: Direction, r: Session)
    requires IsReachable(s) && DoRoute(s, d) == Some(r)
    requires s.pipes[d].held.Some? && s.pipes[d].held.value.FromSink?
    ensures var m := s.pipes[d].held.value;
      && HasSource(d, m.kid, s.pty)
      && r.streams == if s.streams[m.kid].ends.src.SourceDone? then s.streams
                      else s.streams[m.kid := s.streams[m.kid].(inbox := s.streams[m.kid].inbox + [m.sink])]
  {
    assert HasSource(d, s.pipes[d].held.value.kid, s.pty) by {
      ReachableTyped(s);
      ReplyFindsSource(s, d);
    }
    RoutedReply(s, d, r);
  }

  /** `Exit` is received at most once: once the one-shot sender is used, no further `Exit` is under way or to come. */
  lemma ExitAtMostOnce(s: Session)
    requires IsReachable(s) && s.taken
    ensures ExitSent(s) && forall i :: 0 <= i < |Flow(s.pipes[ToClient])| ==> !Flow(s.pipes[ToClient])[i].Exit?
  {
    ReachableHasInv(s);
    NoExits(Flow(s.pipes[ToClient]));
  }

  lemma {:induction false} NoExits(ms: seq<Message>)
    ensures Exits(ms) == [] <==> forall i :: 0 <= i < |ms| ==> !ms[i].Exit?
  {
    if ms == [] {
    } else {
      NoExits(ms[1..]);
      assert forall i :: 0 < i < |ms| ==> ms[i] == ms[1..][i - 1];
      assert forall i :: 0 <= i < |ms| - 1 ==> ms[1..][i] == ms[i + 1];
    }
  }

  /** Event number `i` is the main task's sending of stdin's `SinkClosed`. */
  predicate Injects(ss: seq<Session>, es: seq<Event>, i: nat) {
    i < |es| && i < |ss| && es[i] == MainSend && ss[i].server.Injecting?
  }

  /** Event number `k` is the sending of a `Data` by stdin's source. */
  predicate StdinSends(ss: seq<Session>, es: seq<Event>, k: nat) {
    k < |es| && k < |ss| && es[k] == TaskStep(Stdin, SrcSend) && ss[k].streams[Stdin].ends.src.Sending?
  }

  /** Event `e` between `s` and `r` is what stream `id` sees of it. */
  predicate Sees(s: Session, e: Event, r: Session, id: StdId) {
    P.Run(Project(s, id), Seen(s, e, id)) == Some(Project(r, id))
  }

  lemma StepIsSeen(s: Session, e: Event, r: Session, id: StdId)
    requires Inv(s) && Step(s, e) == Some(r)
    ensures Sees(s, e, r, id)
  {
    assert !Loses(e) by { StepLosesNothing(s, e); }
    assert e.Route? ==> !r.pipes[e.d].receiver.Crashed? by {
      if e.Route? { NeverCrashes(s, e.d, r); }
    }
    StepProjects(s, e, r, id);
  }

  /** What a step of the session does to the counters of stdin. */
  predicate Counted(s: Session, e: Event, r: Session) {
    var x, y := s.streams[Stdin].ends, r.streams[Stdin].ends;
    && x.foreign <= y.foreign && x.late <= y.late
    && (e == MainSend && s.server.Injecting? ==> y.foreign > 0)
    && (e == TaskStep(Stdin, SrcSend) && x.src.Sending? && x.foreign > 0 ==> y.late == x.late + 1)
  }

  lemma SeenIsCounted(s: Session, e: Event, r: Session)
    requires Sees(s, e, r, Stdin)
    ensures Counted(s, e, r)
  {
    var seen := Seen(s, e, Stdin);
    if |seen| == 1 {
      P.RunOne(Project(s, Stdin), seen[0]);
      P.Counters(Project(s, Stdin), seen[0], Project(r, Stdin));
    }
  }

  lemma StepIsCounted(s: Session, e: Event, r: Session)
    requires IsReachable(s) && Step(s, e) == Some(r)
    ensures Counted(s, e, r)
  {
    assert Sees(s, e, r, Stdin) by {
      ReachableHasInv(s);
      StepIsSeen(s, e, r, Stdin);
    }
    SeenIsCounted(s, e, r);
  }

  /** `ss` are the states of a run of a session from its beginning. */
  predicate IsSession(ss: seq<Session>, es: seq<Event>) {
    IsTrace(ss, es) && ss[0] == Init(ss[0].pty, ss[0].wireCap)
  }

  lemma SessionIsReachable(ss: seq<Session>, es: seq<Event>, k: nat)
    requires IsSession(ss, es) && k <= |es|
    ensures IsReachable(ss[k])
  {
    TraceIsRun(ss, es, k);
    assert Run(Init(ss[0].pty, ss[0].wireCap), es[..k]) == Some(ss[k]);
  }

  lemma EventIsCounted(ss: seq<Session>, es: seq<Event>, k: nat)
    requires IsSession(ss, es) && k < |es|
    ensures Counted(ss[k], es[k], ss[k + 1])
  {
    assert IsReachable(ss[k]) by { SessionIsReachable(ss, es, k); }
    TraceStep(ss, es, k);
    StepIsCounted(ss[k], es[k], ss[k + 1]);
  }

  lemma {:induction false} CountersGrow(ss: seq<Session>, es: seq<Event>, j: nat, k: nat)
    requires IsSession(ss, es) && j <= k <= |es|
    ensures var x, y := ss[j].streams[Stdin].ends, ss[k].streams[Stdin].ends; x.foreign <= y.foreign && x.late <= y.late
    decreases k - j
  {
    if j == k {
    } else {
      CountersGrow(ss, es, j, k - 1);
      EventIsCounted(ss, es, k - 1);
    }
  }

  lemma LateAt(ss: seq<Session>, es: seq<Event>, k: nat)
    requires IsSession(ss, es)
    ensures k < |es| ==> ss[k + 1].streams[Stdin].ends.late <= 1
  {
    if k < |es| {
      SessionIsReachable(ss, es, k + 1);
      InjectedOnce(ss[k + 1]);
    }
  }

  /** In every run of a session stdin's source sends at most one `Data` after the main task sent `SinkClosed`. */
  lemma StdinStopsAfterOne(ss: seq<Session>, es: seq<Event>, i: nat, j: nat, k: nat)
    requires IsSession(ss, es) && i < j < k && Injects(ss, es, i)
    ensures !StdinSends(ss, es, j) || !StdinSends(ss, es, k)
  {
    LateAt(ss, es, k);
    if StdinSends(ss, es, j) && StdinSends(ss, es, k) {
      EventIsCounted(ss, es, i);
      CountersGrow(ss, es, i + 1, j);
      EventIsCounted(ss, es, j);
      CountersGrow(ss, es, j + 1, k);
      EventIsCounted(ss, es, k);
    }
  }

  /** What the two kinds of events put on the way. */
  predicate Sent(s: Session, e: Event, r: Session) {
    && (e == MainSend && s.server.Injecting? ==>
         Flow(r.pipes[ToClient]) == Flow(s.pipes[ToClient]) + [FromSink(Stdin, SinkClosed)])
    && (e == TaskStep(Stdin, SrcSend) && s.streams[Stdin].ends.src.Sending? ==>
         Flow(r.pipes[ToServer])
         == Flow(s.pipes[ToServer]) + [FromSource(Stdin, Data(s.streams[Stdin].ends.src.bytes))])
  }

  lemma WhatIsSent(s: Session, e: Event, r: Session)
    requires IsReachable(s) && Step(s, e) == Some(r)
    ensures Sent(s, e, r)
  {
    assert Stages(s) && !Loses(e) by {
      ReachableHasInv(s);
      StepLosesNothing(s, e);
    }
    FlowIsSent(s, e, r);
  }

  lemma FlowIsSent(s: Session, e: Event, r: Session)
    requires Stages(s) && Step(s, e) == Some(r) && !Loses(e)
    ensures Sent(s, e, r)
  {
    if e.MainSend? { FlowStep(s, e, r, ToClient); }
    if e.TaskStep? { FlowStep(s, e, r, ToServer); }
  }

  /** The main task has sent stdin's `SinkClosed` once when it comes to send `Exit`. */
  lemma InjectedOnce(s: Session)
    requires IsReachable(s)
    ensures s.streams[Stdin].ends.late <= 1
    ensures ExitSent(s) || s.server.Exiting? ==> s.streams[Stdin].ends.foreign == 1
  {
    ReachableHasInv(s);
    assert P.Inv(Project(s, Stdin));
  }

  /** The window-change task ends only after the exit status has arrived. */
  lemma WindowEndsAfterStatus(s: Session)
    requires IsReachable(s)
    ensures s.pty && s.window.WindowEnded? ==> !s.client.AwaitingStatus?
  {
    ReachableHasInv(s);
  }

  /** A receiver loop never waits for a sink that is inside `write_all`. */
  lemma NoHeadOfLineBlocking(s: Session, d: Direction)
    requires IsReachable(s) && s.pipes[d].receiver.Open? && s.pipes[d].held.Some?
    requires s.pipes[d].held.value.FromSource?
    requires s.streams[s.pipes[d].held.value.sid].ends.snk.phase.Writing?
    ensures Step(s, Route(d)).Some?
  {
    var id := s.pipes[d].held.value.sid;
    assert HasSink(d, id) && s.streams[id].outbox == [] by {
      ReachableTyped(s);
      SourceActionFindsSink(s, d);
      assert P.Inv(Project(s, id));
      WriterHasRoom(s, d);
    }
  }

  lemma WriterHasRoom(s: Session, d: Direction)
    requires s.pipes[d].held.Some? && s.pipes[d].held.value.FromSource? && d == Forward(s.pipes[d].held.value.sid)
    requires P.InvFlow(Project(s, s.pipes[d].held.value.sid))
    requires s.streams[s.pipes[d].held.value.sid].ends.snk.phase.Writing?
    ensures s.streams[s.pipes[d].held.value.sid].outbox == []
  {
    var m, f := s.pipes[d].held.value, Flow(s.pipes[d]);
    HeadIsUnderWay(s, d);
    assert SourceMsgs(f, m.sid) == [m.source] + SourceMsgs(f[1..], m.sid);
    assert |Project(s, m.sid).fwd| <= 1;
  }

  // --------------------------------------------------------------- handshake

  /** `Finished` can only be the youngest message of its direction. */
  lemma FinishedIsLastMessage(s: Session, d: Direction, i: nat)
    requires IsReachable(s) && i < |Flow(s.pipes[d])| && Flow(s.pipes[d])[i] == Finished
    ensures i == |Flow(s.pipes[d])| - 1 && Closed(s.pipes[d])
  {
    assert FinishedLast(s.pipes[d]) by { ReachableHasInv(s); }
    FinishedIsLast(s.pipes[d], i);
  }

  lemma FinishedIsLast(p: Pipe, i: nat)
    requires FinishedLast(p) && i < |Flow(p)| && Flow(p)[i] == Finished
    ensures i == |Flow(p)| - 1 && Closed(p)
  {
    var f := Flow(p);
    assert forall k :: 0 <= k < |f| - 1 ==> f[..|f| - 1][k] == f[k];
  }

  /** The server only says `Finished` after it has read the client's. */
  lemma ServerFinishesSecond(s: Session)
    requires IsReachable(s) && Closed(s.pipes[ToClient])
    ensures s.pipes[ToServer].receiver.Ended? && Flow(s.pipes[ToServer]) == [] && !ServerHandles(s)
  {
    ReachableHasInv(s);
  }

  predicate AllTasksEnded(s: Session) {
    && (forall id: StdId :: s.streams[id].ends.src.SourceDone? && s.streams[id].ends.snk.phase.SinkDone?)
    && s.window.WindowEnded? && ExitSent(s)
  }

  /**
   * When the client has read `Finished`, every holder of an outbound handle has ended and both directions are empty.
   */
  lemma FinishedHandshake(s: Session)
    requires IsReachable(s) && s.pipes[ToClient].receiver.Ended?
    ensures AllTasksEnded(s)
    ensures forall d: Direction :: Spent(s.pipes[d])
  {
    ReachableHasInv(s);
    var c, v := s.pipes[ToServer], s.pipes[ToClient];
    assert Closed(v) && Flow(v) == [];
    assert Closed(c) && Flow(c) == [];
    forall id: StdId ensures s.streams[id].ends.src.SourceDone? && s.streams[id].ends.snk.phase.SinkDone? {
      match id { case Stdin => case Stdout => case Stderr => }
    }
    EmptyFlow(c);
    EmptyFlow(v);
    forall d: Direction ensures Spent(s.pipes[d]) {
      match d { case ToServer => case ToClient => }
    }
  }

  /** Nothing is or ever will be under way in this direction. */
  predicate Spent(p: Pipe) { p.queue == [] && p.wire == [] && p.sender.SenderEnded? && p.receiver.Ended? }

  lemma EmptyFlow(p: Pipe)
    requires Flow(p) == []
    ensures p.held.None? && p.wire == [] && p.hand.None? && p.queue == []
  {
    assert |Flow(p)| == |Opt(p.held)| + |p.wire| + |Opt(p.hand)| + |p.queue|;
  }

  // ---------------------------------------------------------------- capacity

  function FinishedCount(ms: seq<Message>): nat {
    if ms == [] then 0 else (if ms[0].Finished? then 1 else 0) + FinishedCount(ms[1..])
  }

  lemma {:induction false} FinishedCountConcat(a: seq<Message>, b: seq<Message>)
    ensures FinishedCount(a + b) == FinishedCount(a) + FinishedCount(b)
  {
    if a == [] {
      assert a + b == b;
    } else {
      assert (a + b)[1..] == a[1..] + b;
      FinishedCountConcat(a[1..], b);
    }
  }

  lemma {:induction false} NoneFinished(ms: seq<Message>)
    requires NoFinished(ms)
    ensures FinishedCount(ms) == 0
  {
    if ms == [] {
    } else {
      assert NoFinished(ms[1..]) by { assert forall i :: 0 <= i < |ms| - 1 ==> ms[1..][i] == ms[i + 1]; }
      NoneFinished(ms[1..]);
    }
  }

  lemma AtMostOneFinished(p: Pipe)
    requires FinishedLast(p)
    ensures FinishedCount(Flow(p)) <= 1
  {
    var f := Flow(p);
    if f != [] && f[|f| - 1] == Finished && NoFinished(f[..|f| - 1]) {
      assert f == f[..|f| - 1] + [Finished];
      FinishedCountConcat(f[..|f| - 1], [Finished]);
      NoneFinished(f[..|f| - 1]);
    } else {
      NoneFinished(f);
    }
  }

  /** Every message towards the client belongs to one stream, or is `Exit` or `Finished`. */
  lemma {:induction false} ClientPartition(ms: seq<Message>, pty: bool)
    requires AllBelong(ms, ToClient, pty)
    ensures |ms| == |SinkMsgs(ms, Stdin)| + |SourceMsgs(ms, Stdout)| + |SourceMsgs(ms, Stderr)|
                    + |Exits(ms)| + FinishedCount(ms)
  {
    if ms == [] {
    } else {
      assert ms == [ms[0]] + ms[1..];
      AllBelongTail(ms[0], ms[1..], ToClient, pty);
      ClientPartition(ms[1..], pty);
    }
  }

  /** Stdin's replies and the two outputs never take more than four and two places of the direction to the client. */
  lemma StreamShares(s: Session)
    requires Links(s) && Foreign(s)
    ensures var f := Flow(s.pipes[ToClient]);
      |SinkMsgs(f, Stdin)| <= 4 && |SourceMsgs(f, Stdout)| <= 2 && |SourceMsgs(f, Stderr)| <= 2
  {
    forall id: StdId ensures |Project(s, id).fwd| <= 2 && |Project(s, id).back| <= 3 + s.streams[id].ends.foreign {
      assert P.Inv(Project(s, id));
      P.InFlightMeaning(Project(s, id));
    }
    assert |Project(s, Stdin).back| <= 4 && |Project(s, Stdout).fwd| <= 2 && |Project(s, Stderr).fwd| <= 2;
  }

  /** The server's 128-slot outbound queue never holds more than ten messages, so no server task ever waits for room. */
  lemma ServerQueueNeverFills(s: Session)
    requires Inv(s)
    ensures |Flow(s.pipes[ToClient])| <= 10
    ensures |s.pipes[ToClient].queue| <= 10 < QUEUE_CAPACITY
  {
    var f := Flow(s.pipes[ToClient]);
    ClientPartition(f, s.pty);
    AtMostOneFinished(s.pipes[ToClient]);
    StreamShares(s);
    assert |Exits(f)| <= 1;
  }
}
