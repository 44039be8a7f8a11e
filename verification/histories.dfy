/** What the users of a session can say of a whole run, told from its events alone. */
module Histories {
  import opened Protocol
  import opened Endpoints
  import opened Session
  import opened Multiplexing
  import opened Guarantees
  import I = SessionInvariant
  import P = StreamProtocol

  // ------------------------------------------------------------------ status

  lemma ChildSteps(s: Session, e: Event, r: Session)
    requires IsReachable(s) && Step(s, e) == Some(r)
    ensures if e.ChildExit? then s.child.None? && r.child == Some(e.status) else r.child == s.child
  {
    ReachableHasInv(s);
    I.StepLosesNothing(s, e);
    I.FrameHolds(s, e, r);
  }

  lemma ChildStepsAt(ss: seq<Session>, es: seq<Event>, k: nat)
    requires IsSession(ss, es) && k < |es|
    ensures if es[k].ChildExit? then ss[k].child.None? && ss[k + 1].child == Some(es[k].status)
            else ss[k + 1].child == ss[k].child
  {
    SessionIsReachable(ss, es, k);
    TraceStep(ss, es, k);
    ChildSteps(ss[k], es[k], ss[k + 1]);
  }

  /** The status of a child that has ended does not change. */
  lemma {:induction false} ChildSince(ss: seq<Session>, es: seq<Event>, i: nat, k: nat)
    requires IsSession(ss, es) && i < k <= |es| && es[i].ChildExit?
    ensures ss[k].child == Some(es[i].status)
    decreases k
  {
    ChildStepsAt(ss, es, k - 1);
    if i < k - 1 { ChildSince(ss, es, i, k - 1); }
  }

  lemma {:induction false} ChildBefore(ss: seq<Session>, es: seq<Event>, k: nat) returns (i: nat)
    requires IsSession(ss, es) && k <= |es| && ss[k].child.Some?
    ensures i < k && es[i] == ChildExit(ss[k].child.value)
    decreases k
  {
    ChildStepsAt(ss, es, k - 1);
    if es[k - 1].ChildExit? {
      i := k - 1;
    } else {
      i := ChildBefore(ss, es, k - 1);
    }
  }

  lemma ChildEndsOnce(ss: seq<Session>, es: seq<Event>, i: nat, k: nat)
    requires IsSession(ss, es) && i < k < |es| && es[i].ChildExit?
    ensures !es[k].ChildExit?
  {
    ChildSince(ss, es, i, k);
    ChildStepsAt(ss, es, k);
  }

  lemma KnownIsChilds(s: Session)
    requires IsReachable(s) && !s.client.AwaitingStatus?
    ensures s.child == Some(s.client.status)
  {
    ReachableHasInv(s);
  }

  /**
   * The status a client knows, and so the one it returns, is that of the one event in which the child ended, and there
   * is no status without such an event.
   */
  lemma StatusIsTheChilds(ss: seq<Session>, es: seq<Event>)
    requires IsSession(ss, es) && !ss[|es|].client.AwaitingStatus?
    ensures exists i :: 0 <= i < |es| && es[i] == ChildExit(ss[|es|].client.status)
    ensures forall i :: 0 <= i < |es| && es[i].ChildExit? ==> es[i].status == ss[|es|].client.status
  {
    SessionIsReachable(ss, es, |es|);
    KnownIsChilds(ss[|es|]);
    var i := ChildBefore(ss, es, |es|);
    assert es[i] == ChildExit(ss[|es|].client.status);
    forall k | 0 <= k < |es| && es[k].ChildExit? ensures es[k].status == ss[|es|].client.status {
      ChildSince(ss, es, k, |es|);
    }
  }

  // ------------------------------------------------------------------- bytes

  /** What a stream's reads returned in the first `n` events. */
  function Input(es: seq<Event>, id: StdId, n: nat): seq<Byte>
    requires n <= |es|
  {
    if n == 0 then [] else Input(es, id, n - 1) + Got(es[n - 1], id)
  }

  function Got(e: Event, id: StdId): seq<Byte> { if e.TaskStep? && e.id == id && e.ev.SrcRead? then e.ev.data else [] }

  /** What a stream's writer accepts in event `e`. */
  function Accepted(s: Session, e: Event, id: StdId): seq<Byte> {
    var k := s.streams[id].ends.snk.phase;
    if !e.TaskStep? || e.id != id || !k.Writing? then []
    else
      match e.ev
      case SnkWrite => k.bytes
      case SnkBreak(n) => if n < |k.bytes| then k.bytes[..n] else []
      case _ => []
  }

  function Output(ss: seq<Session>, es: seq<Event>, id: StdId, n: nat): seq<Byte>
    requires n <= |es| && |ss| == |es| + 1
  {
    if n == 0 then [] else Output(ss, es, id, n - 1) + Accepted(ss[n - 1], es[n - 1], id)
  }

  /** A stream's pipe breaks, in a write or in a flush. */
  predicate Breaks(e: Event, id: StdId) { e.TaskStep? && e.id == id && (e.ev.SnkBreak? || e.ev.SnkFlushBreak?) }

  /** What event `e` adds to the histories of stream `id`. */
  predicate Recorded(s: Session, e: Event, r: Session, id: StdId) {
    var x, y := s.streams[id].ends, r.streams[id].ends;
    && y.read == x.read + Got(e, id)
    && y.written == x.written + Accepted(s, e, id)
    && (y.snk.closed ==> x.snk.closed || Breaks(e, id))
  }

  lemma SeenIsRecorded(s: Session, e: Event, r: Session, id: StdId)
    requires Sees(s, e, r, id)
    ensures Recorded(s, e, r, id)
  {
    var seen, x := Seen(s, e, id), s.streams[id].ends;
    assert x.read + [] == x.read && x.written + [] == x.written;
    if |seen| == 1 {
      P.RunOne(Project(s, id), seen[0]);
      P.StepBytes(Project(s, id), seen[0], Project(r, id));
      assert P.Input([seen[0]]) == Got(e, id) by { assert [seen[0]][1..] == [] && Got(e, id) + [] == Got(e, id); }
    }
  }

  lemma RecordedAt(ss: seq<Session>, es: seq<Event>, id: StdId, k: nat)
    requires IsSession(ss, es) && k < |es|
    ensures Recorded(ss[k], es[k], ss[k + 1], id)
  {
    TraceStep(ss, es, k);
    assert Sees(ss[k], es[k], ss[k + 1], id) by {
      SessionIsReachable(ss, es, k);
      ReachableHasInv(ss[k]);
      StepIsSeen(ss[k], es[k], ss[k + 1], id);
    }
    SeenIsRecorded(ss[k], es[k], ss[k + 1], id);
  }

  /** The histories of a session are what its events did. */
  lemma {:induction false} HistoriesAreEvents(ss: seq<Session>, es: seq<Event>, id: StdId, n: nat)
    requires IsSession(ss, es) && n <= |es|
    ensures ss[n].streams[id].ends.read == Input(es, id, n)
    ensures ss[n].streams[id].ends.written == Output(ss, es, id, n)
    ensures ss[n].streams[id].ends.snk.closed ==> exists k :: 0 <= k < n && Breaks(es[k], id)
  {
    if n == 0 {
    } else {
      HistoriesAreEvents(ss, es, id, n - 1);
      RecordedAt(ss, es, id, n - 1);
    }
  }

  /**
   * When the client has returned, the writer of either output has accepted what the server's reads returned, in order:
   * all of it if that pipe never broke. At any time it is a prefix of it.
   */
  lemma WholeRun(ss: seq<Session>, es: seq<Event>, id: StdId)
    requires IsSession(ss, es)
    ensures Output(ss, es, id, |es|) <= Input(es, id, |es|)
    ensures ss[|es|].client.ClientReturned? && !id.Stdin? && (forall k :: 0 <= k < |es| ==> !Breaks(es[k], id)) ==>
      Output(ss, es, id, |es|) == Input(es, id, |es|)
  {
    SessionIsReachable(ss, es, |es|);
    HistoriesAreEvents(ss, es, id, |es|);
    AlwaysPrefix(ss[|es|], id);
    if ss[|es|].client.ClientReturned? { EndToEnd(ss[|es|]); }
  }

  // ------------------------------------------------------------ window sizes

  function SizesIn(ms: seq<Message>): seq<(nat, nat)> {
    if ms == [] then [] else (if ms[0].WindowSizeChange? then [(ms[0].width, ms[0].height)] else []) + SizesIn(ms[1..])
  }

  lemma {:induction false} SizesConcat(a: seq<Message>, b: seq<Message>)
    ensures SizesIn(a + b) == SizesIn(a) + SizesIn(b)
  {
    if a == [] {
      assert a + b == b;
    } else {
      assert (a + b)[0] == a[0] && (a + b)[1..] == a[1..] + b;
      SizesConcat(a[1..], b);
    }
  }

  /** The size event `e` signals to the client. */
  function Signal(e: Event): seq<(nat, nat)> { if e.SizeChanged? then [(e.width, e.height)] else [] }

  /** The size that the server's receiver loop takes in event `e`. */
  function Taken(s: Session, e: Event): seq<(nat, nat)> {
    var held := s.pipes[ToServer].held;
    if e == Route(ToServer) && held.Some? && held.value.WindowSizeChange? then [(held.value.width, held.value.height)]
    else []
  }

  /** Sizes the client knows of and the server does not. */
  function UnderWay(s: Session): seq<(nat, nat)> {
    SizesIn(Flow(s.pipes[ToServer])) + if s.window.SendingSize? then [(s.window.width, s.window.height)] else []
  }

  function Signals(es: seq<Event>, n: nat): seq<(nat, nat)>
    requires n <= |es|
  {
    if n == 0 then [] else Signals(es, n - 1) + Signal(es[n - 1])
  }

  function AllTaken(ss: seq<Session>, es: seq<Event>, n: nat): seq<(nat, nat)>
    requires n <= |es| && |ss| == |es| + 1
  {
    if n == 0 then [] else AllTaken(ss, es, n - 1) + Taken(ss[n - 1], es[n - 1])
  }

  predicate SizesKept(s: Session, e: Event, r: Session) { UnderWay(s) + Signal(e) == Taken(s, e) + UnderWay(r) }

  lemma WindowSteps(s: Session, e: Event, r: Session)
    requires Step(s, e) == Some(r) && !Loses(e)
    ensures e.SizeChanged? ==> s.window.Listening? && r.window == SendingSize(e.width, e.height)
    ensures e.SendSize? ==> s.window.SendingSize? && r.window.Listening?
    ensures e.WindowStop? ==> s.window.Listening? && r.window.WindowEnded?
    ensures !e.SizeChanged? && !e.SendSize? && !e.WindowStop? ==> r.window == s.window
  {
    I.FrameHolds(s, e, r);
  }

  lemma PushedSizes(s: Session, e: Event)
    ensures SizesIn(I.Pushed(s, e, ToServer))
         == if e.SendSize? && s.window.SendingSize? then [(s.window.width, s.window.height)] else []
  {
    var x := I.Pushed(s, e, ToServer);
    if |x| == 1 { assert x[1..] == []; }
  }

  lemma StepKeepsSizes(s: Session, e: Event, r: Session)
    requires I.Stages(s) && Step(s, e) == Some(r) && !Loses(e)
    ensures SizesKept(s, e, r)
  {
    assert I.FlowEffect(s, e, r, ToServer) by { I.FlowStep(s, e, r, ToServer); }
    WindowSteps(s, e, r);
    if e == Route(ToServer) { RouteKeepsSizes(s, r); } else { PushKeepsSizes(s, e, r); }
  }

  lemma RouteKeepsSizes(s: Session, r: Session)
    requires I.FlowEffect(s, Route(ToServer), r, ToServer) && r.window == s.window
    ensures SizesKept(s, Route(ToServer), r)
  {
    var m := s.pipes[ToServer].held.value;
    SizesConcat([m], Flow(r.pipes[ToServer]));
    assert SizesIn([m]) == Taken(s, Route(ToServer));
    assert UnderWay(s) + [] == UnderWay(s);
  }

  lemma PushKeepsSizes(s: Session, e: Event, r: Session)
    requires I.FlowEffect(s, e, r, ToServer) && e != Route(ToServer)
    requires e.SizeChanged? ==> s.window.Listening? && r.window == SendingSize(e.width, e.height)
    requires e.SendSize? ==> s.window.SendingSize? && r.window.Listening?
    requires e.WindowStop? ==> s.window.Listening? && r.window.WindowEnded?
    requires !e.SizeChanged? && !e.SendSize? && !e.WindowStop? ==> r.window == s.window
    ensures SizesKept(s, e, r)
  {
    SizesConcat(Flow(s.pipes[ToServer]), I.Pushed(s, e, ToServer));
    PushedSizes(s, e);
    assert [] + UnderWay(r) == UnderWay(r);
    assert UnderWay(s) + [] == UnderWay(s);
  }

  lemma SizesKeptAt(ss: seq<Session>, es: seq<Event>, k: nat)
    requires IsSession(ss, es) && k < |es|
    ensures SizesKept(ss[k], es[k], ss[k + 1])
  {
    TraceStep(ss, es, k);
    assert I.Stages(ss[k]) && !Loses(es[k]) by {
      SessionIsReachable(ss, es, k);
      ReachableHasInv(ss[k]);
      I.StepLosesNothing(ss[k], es[k]);
    }
    StepKeepsSizes(ss[k], es[k], ss[k + 1]);
  }

  predicate Conserved(ss: seq<Session>, es: seq<Event>, n: nat) {
    && n <= |es| && |ss| == |es| + 1
    && Signals(es, n) == AllTaken(ss, es, n) + UnderWay(ss[n])
  }

  lemma ConservedAtFirst(ss: seq<Session>, es: seq<Event>)
    requires IsSession(ss, es)
    ensures Conserved(ss, es, 0)
  {
    I.InitFlows(ss[0].pty, ss[0].wireCap);
    assert UnderWay(ss[0]) == [];
  }

  lemma ConservedNext(ss: seq<Session>, es: seq<Event>, n: nat)
    requires IsSession(ss, es) && n < |es| && Conserved(ss, es, n)
    ensures Conserved(ss, es, n + 1)
  {
    SizesKeptAt(ss, es, n);
    Carried(Signals(es, n), AllTaken(ss, es, n), UnderWay(ss[n]), Signal(es[n]), Taken(ss[n], es[n]),
            UnderWay(ss[n + 1]));
  }

  /**
   * No size is lost, changed, made up or overtaken: what was signalled is what the server took and what is under way.
   */
  lemma {:induction false} SizesAreConserved(ss: seq<Session>, es: seq<Event>, n: nat)
    requires IsSession(ss, es) && n <= |es|
    ensures Conserved(ss, es, n)
  {
    if n == 0 {
      ConservedAtFirst(ss, es);
    } else {
      SizesAreConserved(ss, es, n - 1);
      ConservedNext(ss, es, n - 1);
    }
  }

  lemma Carried<T>(s: seq<T>, a: seq<T>, u: seq<T>, x: seq<T>, y: seq<T>, v: seq<T>)
    requires s == a + u && u + x == y + v
    ensures s + x == (a + y) + v
  {
    assert s + x == a + (u + x);
    assert (a + y) + v == a + (y + v);
  }

  /**
   * The server takes the sizes signalled to the client, in order, and all of them by the time it has read `Finished`.
   */
  lemma SizesArrive(ss: seq<Session>, es: seq<Event>)
    requires IsSession(ss, es)
    ensures AllTaken(ss, es, |es|) <= Signals(es, |es|)
    ensures ss[|es|].pipes[ToServer].receiver.Ended? ==> AllTaken(ss, es, |es|) == Signals(es, |es|)
  {
    SizesAreConserved(ss, es, |es|);
    if ss[|es|].pipes[ToServer].receiver.Ended? {
      assert I.Stages(ss[|es|]) by {
        SessionIsReachable(ss, es, |es|);
        ReachableHasInv(ss[|es|]);
      }
      assert I.FinishedLast(ss[|es|].pipes[ToServer]);
      assert SizesIn([]) == [] && UnderWay(ss[|es|]) == [];
    }
  }
}
