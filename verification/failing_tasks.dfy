/**
 * Sources and sinks of a process whose connection has failed: only what already lies in their channels reaches them.
 */
module FailingTasks {
  import opened Protocol
  import opened Endpoints
  import S = Session
  import M = Multiplexing
  import I = SessionInvariant
  import P = StreamProtocol

  /** A source and its receive channel (capacity one). */
  datatype SourceTask = SourceTask(phase: SourcePhase, inbox: seq<SinkAction>)

  /** A sink, its receive channel, and what its writer has accepted so far. */
  datatype SinkTask = SinkTask(state: SinkState, outbox: seq<SourceAction>, written: seq<Byte>)

  /**
   * A source after its await returned `i`; None when that cannot happen. The sending half of its channel is never
   * dropped before it ends.
   */
  function SourceTaskStep(t: SourceTask, i: SourceInput): Option<SourceTask> {
    match SourceStep(t.phase, i)
    case None => None
    case Some(p) =>
      match i
      case Reply(a) => if |t.inbox| > 0 && t.inbox[0] == a then Some(SourceTask(p, t.inbox[1..])) else None
      case ReplyGone => None
      case _ => Some(t.(phase := p))
  }

  function SinkTaskStep(t: SinkTask, i: SinkInput): Option<SinkTask> {
    match SinkStep(t.state, i)
    case None => None
    case Some(k) =>
      match i
      case Got(a) =>
        if |t.outbox| > 0 && t.outbox[0] == a then Some(t.(state := k, outbox := t.outbox[1..])) else None
      case GotGone => None
      case IoError(_) => None
      case WriteOk => Some(t.(state := k, written := t.written + t.state.phase.bytes))
      case WriteBroken(n) => Some(t.(state := k, written := t.written + t.state.phase.bytes[..n]))
      case _ => Some(t.(state := k))
  }

  /** The awaits of a sink that put a message on the outbound queue. */
  predicate Sends(i: SinkInput) { i.AckSent? || i.ClosedSent? }

  // --------------------------------------------------------------- invariants

  predicate SourceFine(t: SourceTask) {
    && !t.phase.Panicked? && !t.phase.SourceFailed?
    && |t.inbox| <= 1
    && (t.phase.Idle? || t.phase.Sending? ==> Ack !in t.inbox)
  }

  /** The source has met its `SinkClosed` or will. */
  predicate SourceTold(t: SourceTask) { SinkClosed in t.inbox || t.phase.Closing? || t.phase.SourceDone? }

  predicate SinkFine(t: SinkTask) {
    var k := t.state.phase;
    && !k.SinkFailed?
    && |t.outbox| <= 1
    && (k.Writing? || k.SendingAck? || k.Flushing? ==> !t.state.closed)
    && (k.SendingClosed? ==> t.state.closed)
    && (P.Stopping(k) ==> InChannel(t.outbox) == [])
  }

  /** The sink has met its `SourceClosed` or will. */
  predicate SinkTold(t: SinkTask) { SourceClosed in t.outbox || P.Stopping(t.state.phase) }

  /** What lies in a sink's channel. */
  function InChannel(s: seq<SourceAction>): seq<Byte> { if |s| > 0 && s[0].Data? then s[0].bytes else [] }

  /** What the sink still has to write. */
  function Due(t: SinkTask): seq<Byte> {
    (if t.state.phase.Writing? then t.state.phase.bytes else []) + InChannel(t.outbox)
  }

  /** The sink is to write `target` in all, and a first part of it if its writer breaks. */
  predicate Owes(t: SinkTask, target: seq<Byte>) {
    if t.state.closed then t.written <= target else t.written + Due(t) == target
  }

  // ------------------------------------------------------------------ weights

  function SourceWeight(t: SourceTask): nat {
    var rank := match t.phase
      case Idle => 10
      case Sending(_) => 9
      case Awaiting => if Ack in t.inbox then 9 else 5
      case Closing => 4
      case _ => 0;
    rank + 2 * |t.inbox|
  }

  function OutboxWeight(s: seq<SourceAction>): nat {
    if s == [] then 0 else (if s[0].Data? then 11 else 1) + OutboxWeight(s[1..])
  }

  function SinkWeight(t: SinkTask): nat {
    var rank := match t.state.phase
      case Writing(_) => 12
      case SendingAck => 11
      case Flushing => 7
      case SendingClosed => 6
      case Receiving => 2
      case ShuttingDown => 1
      case _ => 0;
    rank + OutboxWeight(t.outbox)
  }

  /** The weight of one message on the outbound queue. */
  const MESSAGE := 3

  /** Every await of a source, a read included, brings it closer to its end; a message pays for its way. */
  lemma SourceTaskPays(t: SourceTask, i: SourceInput, u: SourceTask)
    requires SourceFine(t) && SourceTaskStep(t, i) == Some(u)
    ensures SourceFine(u) && (SourceTold(t) ==> SourceTold(u))
    ensures SourceWeight(u) + (if i.Sent? then MESSAGE else 0) < SourceWeight(t)
  {
    assert t.inbox == [] || t.inbox == [t.inbox[0]];
    match i {
      case Read(_) =>
      case ReadEnd =>
      case Sent =>
      case Reply(_) =>
    }
  }

  lemma SinkTaskPays(t: SinkTask, i: SinkInput, u: SinkTask)
    requires SinkFine(t) && SinkTaskStep(t, i) == Some(u)
    ensures SinkFine(u) && (SinkTold(t) ==> SinkTold(u))
    ensures SinkWeight(u) + (if Sends(i) then MESSAGE else 0) < SinkWeight(t)
  {
    assert t.outbox == [] || t.outbox == [t.outbox[0]];
    match i {
      case Got(_) =>
      case _ =>
    }
  }

  /** A sink goes on owing what it owes. */
  lemma SinkTaskOwes(t: SinkTask, i: SinkInput, u: SinkTask, target: seq<Byte>)
    requires SinkFine(t) && Owes(t, target) && SinkTaskStep(t, i) == Some(u)
    ensures Owes(u, target)
  {
    assert t.outbox == [] || t.outbox == [t.outbox[0]];
    match i {
      case Got(_) =>
      case WriteOk => assert (t.written + t.state.phase.bytes) + InChannel(t.outbox) == t.written + Due(t);
      case WriteBroken(n) => assert t.state.phase.bytes[..n] <= t.state.phase.bytes;
      case _ =>
    }
  }

  // ------------------------------------------------------------------ notices

  function TellSource(t: SourceTask): SourceTask { t.(inbox := t.inbox + [SinkClosed]) }

  function TellSink(t: SinkTask): SinkTask { t.(outbox := t.outbox + [SourceClosed]) }

  lemma SinkIsTold(t: SinkTask, target: seq<Byte>)
    requires SinkFine(t) && |t.outbox| < 1
    ensures SinkFine(TellSink(t)) && SinkTold(TellSink(t))
    ensures SinkWeight(TellSink(t)) <= SinkWeight(t) + 1
    ensures Owes(t, target) ==> Owes(TellSink(t), target)
  {
    assert TellSink(t).outbox == [SourceClosed];
    assert OutboxWeight([SourceClosed]) == 1 + OutboxWeight([]);
  }

  // --------------------------------------------------------------------- rest

  /** The await of a source that needs neither a read nor an end of file. */
  function SourceNext(t: SourceTask): SourceInput {
    if |t.inbox| > 0 && !t.phase.Sending? && !t.phase.Closing? then Reply(t.inbox[0]) else Sent
  }

  lemma SourceRests(t: SourceTask)
    requires SourceFine(t) && SourceTaskStep(t, SourceNext(t)).None?
    ensures t.phase.SourceDone? || ((t.phase.Idle? || t.phase.Awaiting?) && t.inbox == [])
  {
  }

  /** The await of a sink that does not depend on its channel, or the next message of that. */
  function SinkNext(t: SinkTask): SinkInput {
    match t.state.phase
    case Receiving => if |t.outbox| > 0 then Got(t.outbox[0]) else GotGone
    case Writing(_) => WriteOk
    case SendingAck => AckSent
    case Flushing => FlushOk
    case SendingClosed => ClosedSent
    case _ => ShutdownDone
  }

  lemma SinkRests(t: SinkTask)
    requires SinkFine(t) && SinkTaskStep(t, SinkNext(t)).None?
    ensures t.state.phase.SinkDone? || (t.state.phase.Receiving? && t.outbox == [])
  {
  }

  // ------------------------------------------------------ from a session state

  function SourceOf(s: S.Session, id: StdId): SourceTask { SourceTask(s.streams[id].ends.src, s.streams[id].inbox) }

  function SinkOf(s: S.Session, id: StdId): SinkTask {
    SinkTask(s.streams[id].ends.snk, s.streams[id].outbox, s.streams[id].ends.written)
  }

  lemma TasksAreFine(s: S.Session, id: StdId)
    requires I.Channels(s) && P.Inv(M.Project(s, id))
    ensures SourceFine(SourceOf(s, id)) && SinkFine(SinkOf(s, id))
  {
    var t, inbox := M.Project(s, id), s.streams[id].inbox;
    if t.ends.src.Idle? || t.ends.src.Sending? {
      P.CountIn(t.back, Ack);
      assert inbox == t.back[..|inbox|];
    }
  }

  // ------------------------------------------------------- as in the session

  /** What the await of a source returns in the session's event `ev`. */
  function SourceInputOf(st: S.Stream, ev: TaskEvent): SourceInput {
    match ev
    case SrcRead(b) => Read(b)
    case SrcEnd => ReadEnd
    case SrcRecv => if st.inbox == [] then ReplyGone else Reply(st.inbox[0])
    case _ => Sent
  }

  function SinkInputOf(st: S.Stream, ev: TaskEvent): SinkInput {
    match ev
    case SnkRecv => if st.outbox == [] then GotGone else Got(st.outbox[0])
    case SnkWrite => WriteOk
    case SnkBreak(n) => WriteBroken(n)
    case SnkSend => if st.ends.snk.phase.SendingAck? then AckSent else ClosedSent
    case SnkFlush => FlushOk
    case SnkFlushBreak => FlushBroken
    case _ => ShutdownDone
  }

  /** Nothing but the queue of direction `d` and stream `id` has changed, and the queue has grown by `n` messages. */
  predicate OnlyQueued(s: S.Session, r: S.Session, id: StdId, d: S.Direction, n: nat) {
    && r == s.(streams := s.streams[id := r.streams[id]], pipes := s.pipes[d := r.pipes[d]])
    && r.pipes[d] == s.pipes[d].(queue := r.pipes[d].queue)
    && |r.pipes[d].queue| == |s.pipes[d].queue| + n
    && (n > 0 ==> |s.pipes[d].queue| < QUEUE_CAPACITY)
  }

  /** A source whose connection has failed steps as in the session. */
  lemma SourceStepsAlike(s: S.Session, id: StdId, ev: TaskEvent, r: S.Session)
    requires S.RunTask(s, id, ev) == Some(r) && P.BySource(ev)
    ensures var i := SourceInputOf(s.streams[id], ev);
      && SourceTaskStep(SourceOf(s, id), i) == Some(SourceOf(r, id))
      && OnlyQueued(s, r, id, S.Forward(id), if i.Sent? then 1 else 0)
  {
    var m := SourceMove(s, id, ev, r);
    assert r.pipes == S.Enqueue(S.WithStream(s, id, S.AfterMove(s.streams[id], m)), S.Forward(id),
                                S.Upward(id, m.up)).value.pipes;
  }

  lemma SourceMove(s: S.Session, id: StdId, ev: TaskEvent, r: S.Session) returns (m: Move)
    requires S.RunTask(s, id, ev) == Some(r) && P.BySource(ev)
    ensures var st := s.streams[id];
      Act(st.ends, ev, st.inbox, st.outbox) == Some(m) && m.fromInbox <= |st.inbox| && m.fromOutbox == 0
    ensures m.down == [] && |m.up| == if SourceInputOf(s.streams[id], ev).Sent? then 1 else 0
    ensures S.Enqueue(S.WithStream(s, id, S.AfterMove(s.streams[id], m)), S.Forward(id), S.Upward(id, m.up)) == Some(r)
  {
    var st := s.streams[id];
    m := Act(st.ends, ev, st.inbox, st.outbox).value;
  }

  lemma SinkTaskAlike(st: S.Stream, ev: TaskEvent, m: Move)
    requires Act(st.ends, ev, st.inbox, st.outbox) == Some(m) && !P.BySource(ev)
    ensures m.fromInbox <= |st.inbox| && m.fromOutbox <= |st.outbox|
    ensures var u := S.AfterMove(st, m);
      SinkTaskStep(SinkTask(st.ends.snk, st.outbox, st.ends.written), SinkInputOf(st, ev))
      == Some(SinkTask(u.ends.snk, u.outbox, u.ends.written))
  {
  }

  lemma SinkStepsAlike(s: S.Session, id: StdId, ev: TaskEvent, r: S.Session)
    requires S.RunTask(s, id, ev) == Some(r) && !P.BySource(ev)
    ensures var i := SinkInputOf(s.streams[id], ev);
      && SinkTaskStep(SinkOf(s, id), i) == Some(SinkOf(r, id))
      && OnlyQueued(s, r, id, S.Backward(id), if Sends(i) then 1 else 0)
  {
    var m := SinkMove(s, id, ev, r);
    SinkTaskAlike(s.streams[id], ev, m);
    assert r.streams[id] == S.AfterMove(s.streams[id], m);
    assert r.pipes == S.Enqueue(S.WithStream(s, id, S.AfterMove(s.streams[id], m)), S.Backward(id),
                                S.Downward(id, m.down)).value.pipes;
  }

  lemma SinkMove(s: S.Session, id: StdId, ev: TaskEvent, r: S.Session) returns (m: Move)
    requires S.RunTask(s, id, ev) == Some(r) && !P.BySource(ev)
    ensures var st := s.streams[id];
      Act(st.ends, ev, st.inbox, st.outbox) == Some(m) && m.fromInbox == 0 && m.fromOutbox <= |st.outbox|
    ensures m.up == [] && |m.down| == if Sends(SinkInputOf(s.streams[id], ev)) then 1 else 0
    ensures S.Enqueue(S.WithStream(s, id, S.AfterMove(s.streams[id], m)), S.Backward(id), S.Downward(id, m.down))
         == Some(r)
  {
    var st := s.streams[id];
    m := Act(st.ends, ev, st.inbox, st.outbox).value;
  }
}
