/**
 * The stop-and-wait protocol of one stream: a source, a sink, and the two channels between them.
 * `fwd` and `back` hold everything sent and not yet consumed, wherever it is on its way.
 */
module StreamProtocol {
  import opened Protocol
  import opened Endpoints
  import Traces

  datatype Link = Link(ends: Ends, fwd: seq<SourceAction>, back: seq<SinkAction>)

  datatype LinkEvent =
    | Task(ev: TaskEvent)
    | Inject            // the server's main task sends `SinkClosed` on the sink's behalf
    | Drop(i: nat)      // a late reply is discarded because the source has finished

  function Injected(t: Link): Link {
    t.(ends := t.ends.(foreign := t.ends.foreign + 1), back := t.back + [SinkClosed])
  }

  function Step(t: Link, e: LinkEvent): Option<Link> {
    match e
    case Task(ev) => (
      match Act(t.ends, ev, t.back, t.fwd)
      case None => None
      case Some(m) =>
        Some(Link(m.ends, Advance(t.fwd, m.fromOutbox, m.up), Advance(t.back, m.fromInbox, m.down))))
    case Inject =>
      Some(Injected(t))
    case Drop(i) =>
      if t.ends.src.SourceDone? && i < |t.back| then Some(t.(back := t.back[..i] + t.back[i + 1..])) else None
  }

  function Run(t: Link, es: seq<LinkEvent>): Option<Link>
    decreases |es|
  {
    if es == [] then Some(t)
    else match Step(t, es[0])
      case None => None
      case Some(u) => Run(u, es[1..])
  }

  lemma RunOne(t: Link, e: LinkEvent)
    ensures Run(t, [e]) == Step(t, e)
  {
    if Step(t, e).Some? { assert [e][1..] == []; }
  }

  lemma StepTask(t: Link, ev: TaskEvent, m: Move)
    requires Act(t.ends, ev, t.back, t.fwd) == Some(m)
    ensures Step(t, Task(ev))
         == Some(Link(m.ends, Advance(t.fwd, m.fromOutbox, m.up), Advance(t.back, m.fromInbox, m.down)))
  {
  }

  lemma RunDrop(t: Link, i: nat)
    requires t.ends.src.SourceDone? && i < |t.back|
    ensures Run(t, [Drop(i)]) == Some(t.(back := t.back[..i] + t.back[i + 1..]))
  {
    RunOne(t, Drop(i));
  }

  lemma RunInject(t: Link)
    ensures Run(t, [Inject]) == Some(Injected(t))
  {
    RunOne(t, Inject);
  }

  lemma {:induction false} RunConcat(t: Link, es: seq<LinkEvent>, fs: seq<LinkEvent>)
    requires Run(t, es).Some?
    ensures Run(t, es + fs) == Run(Run(t, es).value, fs)
    decreases |es|
  {
    if es == [] {
      assert es + fs == fs;
    } else {
      assert (es + fs)[1..] == es[1..] + fs;
      RunConcat(Step(t, es[0]).value, es[1..], fs);
    }
  }

  const START := Link(FRESH, [], [])

  // ---------------------------------------------------------------- counting

  function Count(s: seq<SinkAction>, a: SinkAction): nat {
    if s == [] then 0 else (if s[0] == a then 1 else 0) + Count(s[1..], a)
  }

  lemma {:induction false} CountConcat(s: seq<SinkAction>, t: seq<SinkAction>, a: SinkAction)
    ensures Count(s + t, a) == Count(s, a) + Count(t, a)
  {
    if s == [] {
      assert s + t == t;
    } else {
      assert (s + t)[1..] == s[1..] + t;
      CountConcat(s[1..], t, a);
    }
  }

  lemma {:induction false} CountIn(s: seq<SinkAction>, a: SinkAction)
    ensures a in s <==> Count(s, a) > 0
  {
    if s == [] {
    } else {
      CountIn(s[1..], a);
      assert a in s <==> s[0] == a || a in s[1..];
    }
  }

  lemma {:induction false} CountTotal(s: seq<SinkAction>)
    ensures |s| == Count(s, Ack) + Count(s, SinkClosed)
  {
    if s == [] {
    } else {
      CountTotal(s[1..]);
    }
  }

  lemma CountRemove(s: seq<SinkAction>, i: nat, a: SinkAction)
    requires i < |s|
    ensures Count(s[..i] + s[i + 1..], a) == Count(s, a) - (if s[i] == a then 1 else 0)
  {
    assert s == s[..i] + ([s[i]] + s[i + 1..]);
    CountConcat(s[..i], [s[i]] + s[i + 1..], a);
    CountConcat([s[i]], s[i + 1..], a);
    CountConcat(s[..i], s[i + 1..], a);
  }

  // --------------------------------------------------------------- invariant

  function B(b: bool): nat { if b then 1 else 0 }

  predicate DataAhead(fwd: seq<SourceAction>) { fwd != [] && fwd[0].Data? }

  /** The sink has taken a `Data` it is still going to acknowledge. */
  predicate Owes(k: SinkPhase) { k.Writing? || k.SendingAck? }

  /** Number of `Data` messages that are unanswered or whose `Ack` is under way. */
  function Outstanding(t: Link): nat {
    B(DataAhead(t.fwd)) + B(Owes(t.ends.snk.phase)) + Count(t.back, Ack)
  }

  /** The four possible contents of the forward direction. */
  predicate InFlightShape(t: Link) {
    || t.fwd == []
    || (|t.fwd| == 1 && (t.fwd[0].SourceClosed? ==> t.ends.src.SourceDone?))
    || (|t.fwd| == 2 && t.fwd[0].Data? && t.fwd[1] == SourceClosed && t.ends.src.SourceDone?)
  }

  predicate Stopping(k: SinkPhase) { k.ShuttingDown? || k.SinkDone? }

  predicate InvFlow(t: Link) {
    var p, k := t.ends.src, t.ends.snk.phase;
    && !p.Panicked? && !p.SourceFailed? && !k.SinkFailed?
    && InFlightShape(t)
    && Outstanding(t) <= 1
    && (p.Idle? || p.Sending? ==> Outstanding(t) == 0)
    && (Stopping(k) ==> p.SourceDone? && t.fwd == [])
    && (p.SourceDone? && !Stopping(k) ==> t.fwd != [] && t.fwd[|t.fwd| - 1] == SourceClosed)
    && (p.Awaiting? ==> Outstanding(t) > 0 || Count(t.back, SinkClosed) > 0 || k.SendingClosed?)
  }

  function Carried(t: Link): seq<Byte> { if DataAhead(t.fwd) then t.fwd[0].bytes else [] }
  function AtSource(t: Link): seq<Byte> { if t.ends.src.Sending? then t.ends.src.bytes else [] }
  function AtSink(t: Link): seq<Byte> { if t.ends.snk.phase.Writing? then t.ends.snk.phase.bytes else [] }

  predicate InvBytes(t: Link) {
    && |Carried(t)| <= MAX_STREAM_PACKET_SIZE
    && |AtSource(t)| <= MAX_STREAM_PACKET_SIZE
    && |AtSink(t)| <= MAX_STREAM_PACKET_SIZE
    && (!t.ends.snk.closed ==> t.ends.read == t.ends.written + AtSink(t) + Carried(t) + AtSource(t))
    && t.ends.written <= t.ends.read
    && (DataAhead(t.fwd) ==> Carried(t) != []) && (t.ends.src.Sending? ==> AtSource(t) != [])
  }

  /** The source may still send a `Data` before it sees the sink's `SinkClosed`. */
  predicate MaySend(t: Link) {
    var p := t.ends.src;
    p.Idle? || p.Sending? || (p.Awaiting? && Count(t.back, Ack) > 0)
  }

  /** The source may still send a `Data` before it sees the injected `SinkClosed`. */
  predicate MaySendLate(t: Link) {
    var p := t.ends.src;
    p.Idle? || p.Sending? || (p.Awaiting? && t.back != [] && t.back[0] == Ack)
  }

  predicate Running(p: SourcePhase) { p.Idle? || p.Sending? || p.Awaiting? }

  predicate InvClosed(t: Link) {
    var e, k := t.ends, t.ends.snk.phase;
    && (k.Writing? || k.SendingAck? || k.Flushing? ==> !e.snk.closed)
    && (k.SendingClosed? ==> e.snk.closed)
    && (!e.snk.closed ==> e.emitted == 0)
    && (e.snk.closed ==> e.emitted + B(k.SendingClosed?) + B(DataAhead(t.fwd)) + B(MaySend(t)) <= 2)
    && Count(t.back, SinkClosed) <= e.emitted + e.foreign
    && (e.foreign > 0 && Running(e.src) ==> Count(t.back, SinkClosed) > 0)
    && (e.foreign == 0 ==> e.late == 0)
    && (e.foreign > 0 ==> e.late + B(MaySendLate(t)) <= 1)
    && (e.sent == 0 ==>
         !DataAhead(t.fwd) && (k.Receiving? || Stopping(k)) && !e.snk.closed && Count(t.back, Ack) == 0
         && !e.src.Awaiting?)
  }

  predicate Inv(t: Link) { InvFlow(t) && InvBytes(t) && InvClosed(t) }

  /** How the counts of the backward channel change in a step. */
  lemma BackAfter(back: seq<SinkAction>, taken: nat, added: seq<SinkAction>)
    requires taken <= 1 && taken <= |back| && |added| <= 1
    ensures forall a :: Count(Advance(back, taken, added), a)
                     == Count(back, a) - B(taken == 1 && back[0] == a) + B(|added| == 1 && added[0] == a)
  {
    forall a
      ensures Count(Advance(back, taken, added), a)
           == Count(back, a) - B(taken == 1 && back[0] == a) + B(|added| == 1 && added[0] == a)
    {
      CountConcat(back[taken..], added, a);
      if |added| == 1 { assert added == [added[0]]; }
    }
  }

  predicate BySource(ev: TaskEvent) { ev.SrcRead? || ev.SrcEnd? || ev.SrcSend? || ev.SrcRecv? }

  lemma SourceKeepsFlow(t: Link, ev: TaskEvent)
    requires Inv(t) && BySource(ev) && Step(t, Task(ev)).Some?
    ensures InvFlow(Step(t, Task(ev)).value)
  {
    var m := Act(t.ends, ev, t.back, t.fwd).value;
    BackAfter(t.back, m.fromInbox, m.down);
    match ev {
      case SrcRead(_) =>
      case SrcEnd =>
      case SrcSend =>
      case SrcRecv =>
    }
  }

  lemma SourceKeepsBytes(t: Link, ev: TaskEvent)
    requires Inv(t) && BySource(ev) && Step(t, Task(ev)).Some?
    ensures InvBytes(Step(t, Task(ev)).value)
  {
    match ev {
      case SrcRead(_) =>
      case SrcEnd =>
      case SrcSend => SendKeepsBytes(t);
      case SrcRecv =>
    }
  }

  /** The packet moves from the source's hands to the flow. */
  lemma SendKeepsBytes(t: Link)
    requires Inv(t) && Step(t, Task(SrcSend)).Some?
    ensures InvBytes(Step(t, Task(SrcSend)).value)
  {
    if t.ends.src.Sending? {
      assert t.fwd == [] && Step(t, Task(SrcSend)).value.fwd == [Data(t.ends.src.bytes)];
    }
  }

  lemma SourceKeepsClosed(t: Link, ev: TaskEvent)
    requires Inv(t) && BySource(ev) && Step(t, Task(ev)).Some?
    ensures InvClosed(Step(t, Task(ev)).value)
  {
    var m := Act(t.ends, ev, t.back, t.fwd).value;
    BackAfter(t.back, m.fromInbox, m.down);
    match ev {
      case SrcRead(_) =>
      case SrcEnd =>
      case SrcSend =>
      case SrcRecv =>
    }
  }

  lemma SinkRecvKeepsFlow(t: Link)
    requires Inv(t) && Step(t, Task(SnkRecv)).Some?
    ensures InvFlow(Step(t, Task(SnkRecv)).value)
  {
    var m := Act(t.ends, SnkRecv, t.back, t.fwd).value;
    BackAfter(t.back, m.fromInbox, m.down);
  }

  lemma SinkSendKeepsFlow(t: Link)
    requires Inv(t) && Step(t, Task(SnkSend)).Some?
    ensures InvFlow(Step(t, Task(SnkSend)).value)
  {
    var m := Act(t.ends, SnkSend, t.back, t.fwd).value;
    BackAfter(t.back, m.fromInbox, m.down);
  }

  lemma SinkTalkKeepsFlow(t: Link, ev: TaskEvent)
    requires Inv(t) && (ev.SnkRecv? || ev.SnkSend?) && Step(t, Task(ev)).Some?
    ensures InvFlow(Step(t, Task(ev)).value)
  {
    if ev.SnkRecv? { SinkRecvKeepsFlow(t); } else { SinkSendKeepsFlow(t); }
  }

  lemma SinkWorkKeepsFlow(t: Link, ev: TaskEvent)
    requires Inv(t) && !BySource(ev) && !ev.SnkRecv? && !ev.SnkSend? && Step(t, Task(ev)).Some?
    ensures InvFlow(Step(t, Task(ev)).value)
  {
    match ev {
      case SnkWrite =>
      case SnkBreak(_) =>
      case SnkFlush =>
      case SnkFlushBreak =>
      case SnkShutdown =>
    }
  }

  lemma SinkKeepsBytes(t: Link, ev: TaskEvent)
    requires Inv(t) && !BySource(ev) && Step(t, Task(ev)).Some?
    ensures InvBytes(Step(t, Task(ev)).value)
  {
    if ev.SnkRecv? || ev.SnkWrite? || ev.SnkBreak? { WritingKeepsBytes(t, ev); }
  }

  lemma WritingKeepsBytes(t: Link, ev: TaskEvent)
    requires Inv(t) && (ev.SnkRecv? || ev.SnkWrite? || ev.SnkBreak?) && Step(t, Task(ev)).Some?
    ensures InvBytes(Step(t, Task(ev)).value)
  {
    match ev {
      case SnkRecv =>
      case SnkWrite =>
      case SnkBreak(_) =>
    }
  }

  lemma SinkRecvKeepsClosed(t: Link)
    requires Inv(t) && Step(t, Task(SnkRecv)).Some?
    ensures InvClosed(Step(t, Task(SnkRecv)).value)
  {
    var m := Act(t.ends, SnkRecv, t.back, t.fwd).value;
    BackAfter(t.back, m.fromInbox, m.down);
  }

  lemma SinkSendKeepsClosed(t: Link)
    requires Inv(t) && Step(t, Task(SnkSend)).Some?
    ensures InvClosed(Step(t, Task(SnkSend)).value)
  {
    var m := Act(t.ends, SnkSend, t.back, t.fwd).value;
    BackAfter(t.back, m.fromInbox, m.down);
  }

  lemma SinkTalkKeepsClosed(t: Link, ev: TaskEvent)
    requires Inv(t) && (ev.SnkRecv? || ev.SnkSend?) && Step(t, Task(ev)).Some?
    ensures InvClosed(Step(t, Task(ev)).value)
  {
    if ev.SnkRecv? { SinkRecvKeepsClosed(t); } else { SinkSendKeepsClosed(t); }
  }

  lemma SinkWorkKeepsClosed(t: Link, ev: TaskEvent)
    requires Inv(t) && !BySource(ev) && !ev.SnkRecv? && !ev.SnkSend? && Step(t, Task(ev)).Some?
    ensures InvClosed(Step(t, Task(ev)).value)
  {
    match ev {
      case SnkWrite =>
      case SnkBreak(_) =>
      case SnkFlush =>
      case SnkFlushBreak =>
      case SnkShutdown =>
    }
  }

  /** So do the main task's `SinkClosed` and the loss of a late reply. */
  lemma {:induction false} OtherKeepsInv(t: Link, e: LinkEvent)
    requires Inv(t) && !e.Task? && Step(t, e).Some?
    ensures Inv(Step(t, e).value)
  {
    if e.Inject? {
      BackAfter(t.back, 0, [SinkClosed]);
    } else {
      CountRemove(t.back, e.i, Ack);
      CountRemove(t.back, e.i, SinkClosed);
    }
  }

  lemma {:induction false} StepKeepsInv(t: Link, e: LinkEvent)
    requires Inv(t) && Step(t, e).Some?
    ensures Inv(Step(t, e).value)
  {
    if e.Task? {
      if BySource(e.ev) {
        SourceKeepsFlow(t, e.ev);
        SourceKeepsBytes(t, e.ev);
        SourceKeepsClosed(t, e.ev);
      } else {
        SinkKeepsBytes(t, e.ev);
        if e.ev.SnkRecv? || e.ev.SnkSend? {
          SinkTalkKeepsFlow(t, e.ev);
          SinkTalkKeepsClosed(t, e.ev);
        } else {
          SinkWorkKeepsFlow(t, e.ev);
          SinkWorkKeepsClosed(t, e.ev);
        }
      }
    } else {
      OtherKeepsInv(t, e);
    }
  }

  lemma {:induction false} RunKeepsInv(t: Link, es: seq<LinkEvent>)
    requires Inv(t) && Run(t, es).Some?
    ensures Inv(Run(t, es).value)
    decreases |es|
  {
    if es == [] {
    } else {
      StepKeepsInv(t, es[0]);
      RunKeepsInv(Step(t, es[0]).value, es[1..]);
    }
  }

  // ---------------------------------------------------------------- theorems

  /** The `panic!` on an `Ack` in the idle state is unreachable. */
  lemma NeverPanics(es: seq<LinkEvent>)
    requires Run(START, es).Some?
    ensures !Run(START, es).value.ends.src.Panicked?
  {
    RunKeepsInv(START, es);
  }

  /** What Inv means for the bytes: a prefix, lagging by at most one packet, and equal once an unclosed sink stops. */
  lemma BytesMeaning(t: Link)
    requires Inv(t)
    ensures t.ends.written <= t.ends.read
    ensures !t.ends.snk.closed ==> |t.ends.read| <= |t.ends.written| + MAX_STREAM_PACKET_SIZE
    ensures !t.ends.snk.closed && Stopping(t.ends.snk.phase) ==> t.ends.written == t.ends.read
  {
  }

  lemma PrefixAndLag(es: seq<LinkEvent>)
    requires Run(START, es).Some?
    ensures var e := Run(START, es).value.ends;
      && e.written <= e.read
      && (!e.snk.closed ==> |e.read| <= |e.written| + MAX_STREAM_PACKET_SIZE)
      && (!e.snk.closed && Stopping(e.snk.phase) ==> e.written == e.read)
  {
    RunKeepsInv(START, es);
    BytesMeaning(Run(START, es).value);
  }

  /** A sink whose source ended without a `Data` has nothing to answer. */
  lemma NothingToAnswer(t: Link)
    requires Inv(t) && t.ends.src.SourceDone? && t.ends.sent == 0
    ensures var k := t.ends.snk.phase; !k.SendingAck? && !k.SendingClosed?
  {
  }

  /** How much can be in flight in either direction. */
  lemma InFlightMeaning(t: Link)
    requires Inv(t)
    ensures || t.fwd == [] || t.fwd == [SourceClosed]
            || (exists b :: t.fwd == [Data(b)] || t.fwd == [Data(b), SourceClosed])
    ensures t.ends.emitted <= 2
    ensures |t.back| <= 3 + t.ends.foreign
  {
    CountTotal(t.back);
    if DataAhead(t.fwd) {
      var b := t.fwd[0].bytes;
      assert t.fwd == [Data(b)] || t.fwd == [Data(b), SourceClosed];
    } else if t.fwd != [] {
      assert t.fwd == [SourceClosed];
    }
  }

  lemma InFlightBound(es: seq<LinkEvent>)
    requires Run(START, es).Some?
    ensures var t := Run(START, es).value;
      && (|| t.fwd == [] || t.fwd == [SourceClosed]
          || (exists b :: t.fwd == [Data(b)] || t.fwd == [Data(b), SourceClosed]))
      && t.ends.emitted <= 2
      && |t.back| <= 3 + t.ends.foreign
  {
    RunKeepsInv(START, es);
    InFlightMeaning(Run(START, es).value);
  }

  predicate Next(t: Link, e: LinkEvent, u: Link) { Step(t, e) == Some(u) }

  /** `ts` are the states a run of `es` goes through. */
  predicate IsTrace(ts: seq<Link>, es: seq<LinkEvent>) { Traces.IsTrace(Next, ts, es) }

  /** Event number `k` of such a run leads from state number `k` to the next. */
  lemma TraceStep(ts: seq<Link>, es: seq<LinkEvent>, k: nat)
    requires IsTrace(ts, es) && k < |es|
    ensures Step(ts[k], es[k]) == Some(ts[k + 1])
  {
    assert Traces.StepAt(Next, ts, es, k);
  }

  lemma {:induction false} LaterTrace(t: Link, es: seq<LinkEvent>) returns (rest: seq<Link>)
    requires es != [] && Run(t, es).Some?
    ensures IsTrace([t] + rest, [es[0]] + es[1..]) && |rest| == |es| && rest[|es| - 1] == Run(t, es).value
    decreases |es|, 0
  {
    rest := RunHasTrace(Step(t, es[0]).value, es[1..]);
    Traces.OneStepEarlier(Next, t, es[0], rest, es[1..]);
  }

  /** Every run goes through such states. */
  lemma {:induction false} RunHasTrace(t: Link, es: seq<LinkEvent>) returns (ts: seq<Link>)
    requires Run(t, es).Some?
    ensures IsTrace(ts, es) && ts[0] == t && ts[|es|] == Run(t, es).value
    decreases |es|, 1
  {
    if es == [] {
      ts := [t];
    } else {
      var rest := LaterTrace(t, es);
      assert [es[0]] + es[1..] == es;
      ts := [t] + rest;
    }
  }

  /** Event number `k` is the source's sending of a `Data`. */
  predicate SendsData(ts: seq<Link>, es: seq<LinkEvent>, k: nat) {
    k < |es| && k < |ts| && es[k] == Task(SrcSend) && ts[k].ends.src.Sending?
  }

  /** Event number `k` is the sink's sending of a `SinkClosed`. */
  predicate SendsClosed(ts: seq<Link>, es: seq<LinkEvent>, k: nat) {
    k < |es| && k < |ts| && es[k] == Task(SnkSend) && ts[k].ends.snk.phase.SendingClosed?
  }

  /** What the counters count. */
  lemma Counters(t: Link, e: LinkEvent, u: Link)
    requires Step(t, e) == Some(u)
    ensures t.ends.foreign <= u.ends.foreign && t.ends.late <= u.ends.late && t.ends.emitted <= u.ends.emitted
    ensures e.Inject? ==> u.ends.foreign > 0 && u.back == t.back + [SinkClosed]
    ensures e == Task(SnkSend) && t.ends.snk.phase.SendingClosed? ==>
      u.ends.emitted == t.ends.emitted + 1 && u.back == t.back + [SinkClosed]
    ensures e == Task(SrcSend) && t.ends.src.Sending? ==>
      && u.fwd == t.fwd + [Data(t.ends.src.bytes)]
      && (t.ends.foreign > 0 ==> u.ends.late == t.ends.late + 1)
  {
  }

  lemma CountersAt(ts: seq<Link>, es: seq<LinkEvent>, k: nat)
    requires IsTrace(ts, es) && k < |es|
    ensures var x, y := ts[k].ends, ts[k + 1].ends;
      && x.foreign <= y.foreign && x.late <= y.late && x.emitted <= y.emitted
      && (es[k] == Inject ==> y.foreign > 0)
      && (SendsClosed(ts, es, k) ==> y.emitted == x.emitted + 1)
      && (SendsData(ts, es, k) && x.foreign > 0 ==> y.late == x.late + 1)
  {
    TraceStep(ts, es, k);
    Counters(ts[k], es[k], ts[k + 1]);
  }

  lemma {:induction false} CountersGrow(ts: seq<Link>, es: seq<LinkEvent>, j: nat, k: nat)
    requires IsTrace(ts, es) && j <= k <= |es|
    ensures var x, y := ts[j].ends, ts[k].ends;
      x.foreign <= y.foreign && x.late <= y.late && x.emitted <= y.emitted
    decreases k - j
  {
    if j == k {
    } else {
      CountersGrow(ts, es, j, k - 1);
      CountersAt(ts, es, k - 1);
    }
  }

  lemma {:induction false} TraceKeepsInv(ts: seq<Link>, es: seq<LinkEvent>, k: nat)
    requires IsTrace(ts, es) && Inv(ts[0]) && k <= |es|
    ensures Inv(ts[k])
  {
    if k == 0 {
    } else {
      assert Inv(ts[k - 1]) by { TraceKeepsInv(ts, es, k - 1); }
      TraceStep(ts, es, k - 1);
      StepKeepsInv(ts[k - 1], es[k - 1]);
    }
  }

  /** In every run at most one `Data` is sent after an injected `SinkClosed`. */
  lemma AtMostOneLateData(ts: seq<Link>, es: seq<LinkEvent>, i: nat, j: nat, k: nat)
    requires IsTrace(ts, es) && ts[0] == START && i < j < k < |es| && es[i] == Inject
    ensures !SendsData(ts, es, j) || !SendsData(ts, es, k)
  {
    TraceKeepsInv(ts, es, k + 1);
    if SendsData(ts, es, j) && SendsData(ts, es, k) {
      CountersAt(ts, es, i);
      CountersGrow(ts, es, i + 1, j);
      CountersAt(ts, es, j);
      CountersGrow(ts, es, j + 1, k);
      CountersAt(ts, es, k);
    }
  }

  /** What such events put on their way. */
  lemma SendingSends(ts: seq<Link>, es: seq<LinkEvent>, k: nat)
    requires IsTrace(ts, es) && ts[0] == START && k < |es|
    ensures SendsData(ts, es, k) ==>
      exists b: seq<Byte> :: 1 <= |b| <= MAX_STREAM_PACKET_SIZE && ts[k + 1].fwd == ts[k].fwd + [Data(b)]
    ensures SendsClosed(ts, es, k) || es[k] == Inject ==> ts[k + 1].back == ts[k].back + [SinkClosed]
  {
    TraceStep(ts, es, k);
    Counters(ts[k], es[k], ts[k + 1]);
    if SendsData(ts, es, k) {
      var b := ts[k].ends.src.bytes;
      assert 1 <= |b| <= MAX_STREAM_PACKET_SIZE by { TraceKeepsInv(ts, es, k); }
      assert ts[k + 1].fwd == ts[k].fwd + [Data(b)];
    }
  }

  /** In every run a sink sends `SinkClosed` at most twice. */
  lemma AtMostTwoClosed(ts: seq<Link>, es: seq<LinkEvent>, i: nat, j: nat, k: nat)
    requires IsTrace(ts, es) && ts[0] == START && i < j < k < |es|
    ensures !SendsClosed(ts, es, i) || !SendsClosed(ts, es, j) || !SendsClosed(ts, es, k)
  {
    TraceKeepsInv(ts, es, k + 1);
    InFlightMeaning(ts[k + 1]);
    if SendsClosed(ts, es, i) && SendsClosed(ts, es, j) && SendsClosed(ts, es, k) {
      CountersAt(ts, es, i);
      CountersGrow(ts, es, i + 1, j);
      CountersAt(ts, es, j);
      CountersGrow(ts, es, j + 1, k);
      CountersAt(ts, es, k);
    }
  }

  // ------------------------------------------------------- bytes, from events

  /** What the source's reads returned. */
  function Input(es: seq<LinkEvent>): seq<Byte> {
    if es == [] then [] else (if es[0].Task? && es[0].ev.SrcRead? then es[0].ev.data else []) + Input(es[1..])
  }

  /** What the sink's writer accepts in event `e`. */
  function Accepted(t: Link, e: LinkEvent): seq<Byte> {
    var k := t.ends.snk.phase;
    if !e.Task? || !k.Writing? then []
    else
      match e.ev
      case SnkWrite => k.bytes
      case SnkBreak(n) => if n < |k.bytes| then k.bytes[..n] else []
      case _ => []
  }

  /** What the sink's writer accepted. */
  function Output(t: Link, es: seq<LinkEvent>): seq<Byte>
    requires Run(t, es).Some?
    decreases |es|
  {
    if es == [] then [] else Accepted(t, es[0]) + Output(Step(t, es[0]).value, es[1..])
  }

  /** The sink's pipe breaks, in a write or in a flush. */
  predicate Breaks(e: LinkEvent) { e.Task? && (e.ev.SnkBreak? || e.ev.SnkFlushBreak?) }

  lemma StepBytes(t: Link, e: LinkEvent, u: Link)
    requires Step(t, e) == Some(u)
    ensures u.ends.read == t.ends.read + Input([e])
    ensures u.ends.written == t.ends.written + Accepted(t, e)
    ensures u.ends.snk.closed ==> t.ends.snk.closed || Breaks(e)
  {
    assert t.ends.read + [] == t.ends.read && t.ends.written + [] == t.ends.written;
    assert Input([e]) == (if e.Task? && e.ev.SrcRead? then e.ev.data else []) + Input([]);
  }

  lemma Append<T>(x: seq<T>, a: seq<T>, b: seq<T>, y: seq<T>)
    requires y == (x + a) + b
    ensures y == x + (a + b)
  {
  }

  lemma {:induction false} RunBytes(t: Link, es: seq<LinkEvent>)
    requires Run(t, es).Some?
    ensures var u := Run(t, es).value;
      u.ends.read == t.ends.read + Input(es) && u.ends.written == t.ends.written + Output(t, es)
    decreases |es|
  {
    if es == [] {
      assert t.ends.read + [] == t.ends.read && t.ends.written + [] == t.ends.written;
    } else {
      var u, end := Step(t, es[0]).value, Run(t, es).value;
      StepBytes(t, es[0], u);
      RunBytes(u, es[1..]);
      assert Input([es[0]]) + Input(es[1..]) == Input(es) by { FirstInput(es); }
      Append(t.ends.read, Input([es[0]]), Input(es[1..]), end.ends.read);
      Append(t.ends.written, Accepted(t, es[0]), Output(u, es[1..]), end.ends.written);
    }
  }

  lemma FirstInput(es: seq<LinkEvent>)
    requires es != []
    ensures Input(es) == Input([es[0]]) + Input(es[1..])
  {
    assert [es[0]][1..] == [];
  }

  lemma {:induction false} ClosedByBreak(t: Link, es: seq<LinkEvent>)
    requires Run(t, es).Some? && forall k :: 0 <= k < |es| ==> !Breaks(es[k])
    ensures Run(t, es).value.ends.snk.closed ==> t.ends.snk.closed
    decreases |es|
  {
    if es == [] {
    } else {
      StepBytes(t, es[0], Step(t, es[0]).value);
      assert forall k :: 0 <= k < |es[1..]| ==> es[1..][k] == es[k + 1];
      ClosedByBreak(Step(t, es[0]).value, es[1..]);
    }
  }

  /**
   * The writer accepts what the reads returned, in order: a prefix of it, one packet less at most if no pipe broke, and
   * all of it once the sink then stops.
   */
  lemma WritesWhatWasRead(es: seq<LinkEvent>)
    requires Run(START, es).Some?
    ensures Output(START, es) <= Input(es)
    ensures (forall k :: 0 <= k < |es| ==> !Breaks(es[k])) ==>
      && |Input(es)| <= |Output(START, es)| + MAX_STREAM_PACKET_SIZE
      && (Stopping(Run(START, es).value.ends.snk.phase) ==> Output(START, es) == Input(es))
  {
    RunBytes(START, es);
    assert [] + Input(es) == Input(es) && [] + Output(START, es) == Output(START, es);
    PrefixAndLag(es);
    if forall k :: 0 <= k < |es| ==> !Breaks(es[k]) { ClosedByBreak(START, es); }
  }

  // ------------------------------------------------------------- other bounds

  /** A sink inside `write_all` has at most one more message waiting for it, so a channel of capacity one suffices. */
  lemma StuckWriteHoldsAtMostOne(es: seq<LinkEvent>)
    requires Run(START, es).Some?
    ensures var t := Run(START, es).value; t.ends.snk.phase.Writing? ==> |t.fwd| <= 1
  {
    RunKeepsInv(START, es);
  }

  /** Once the sink has seen a broken pipe it never writes again and answers each further `Data` with `SinkClosed`. */
  lemma ClosedIsSticky(t: Link, e: LinkEvent)
    requires t.ends.snk.closed && Step(t, e).Some?
    requires Inv(t)
    ensures var u := Step(t, e).value;
      && u.ends.snk.closed && u.ends.written == t.ends.written
      && (e == Task(SnkRecv) && DataAhead(t.fwd) ==> u.ends.snk.phase.SendingClosed?)
  {
  }
}
