/** The receiver loops of both sides. */
module ReceiverTask {
  import opened Protocol
  import opened RecvRouter
  import S = Session
  import I = SessionInvariant
  import SF = ServerFailure

  datatype ClientAction = Stream(action: StreamAction) | WindowSizeChange(width: nat, height: nat) | Finished

  datatype ServerAction = Stream(action: StreamAction) | Exit(status: ExitStatus) | Finished

  /** How far a receiver loop got. */
  datatype End =
    | Waiting        // nothing more has arrived
    | Ended          // `Finished` arrived
    | ShutDown       // receiving failed, or the sender task reported a failure
    | RoutingFailed  // left through `?`: a message could not be routed, or a second `Exit` arrived

  /** What the select of a loop returns: a message, or nothing where it returned an error. */
  type Arrivals<M> = seq<Option<M>>

  /** All but the last of the arrivals a loop looked at were messages. */
  predicate Prefix<M>(arrivals: Arrivals<M>, handled: nat, end: End) {
    && handled <= |arrivals|
    && (forall k :: 0 <= k < handled ==> arrivals[k].Some?)
    && (end.Waiting? <==> handled == |arrivals|)
    && (end.ShutDown? ==> arrivals[handled] == None)
  }

  /** How many of the first `n` arrivals `picks` selects. */
  function Count<M>(picks: Option<M> -> bool, a: Arrivals<M>, n: nat): nat
    requires n <= |a|
  {
    if n == 0 then 0 else Count(picks, a, n - 1) + if picks(a[n - 1]) then 1 else 0
  }

  // -------------------------------------------------------------- the server

  /** What the tasks of the server are sent by the first `n` arrivals. */
  function ServerActions(a: Arrivals<ClientAction>, n: nat): seq<StreamAction>
    requires n <= |a|
  {
    if n == 0 then []
    else
      var last := a[n - 1];
      ServerActions(a, n - 1) + if last.Some? && last.value.Stream? then [last.value.action] else []
  }

  predicate IsAction(m: Option<ClientAction>) { m.Some? && m.value.Stream? }

  /** Every stream action among the arrivals, in order, and nothing else. */
  lemma {:induction false} ServerActionsMeaning(a: Arrivals<ClientAction>, n: nat)
    requires n <= |a|
    ensures |ServerActions(a, n)| == Count(IsAction, a, n)
    ensures forall k :: 0 <= k < n && IsAction(a[k]) ==>
      Count(IsAction, a, k) < Count(IsAction, a, n) && ServerActions(a, n)[Count(IsAction, a, k)] == a[k].value.action
  {
    if n == 0 {
    } else {
      ServerActionsMeaning(a, n - 1);
    }
  }

  predicate IsSize(m: Option<ClientAction>) { m.Some? && m.value.WindowSizeChange? }

  /** The sizes given to a terminal are those of the first `n` arrivals, each at its place. */
  predicate AllSizes(sizes: seq<(nat, nat)>, a: Arrivals<ClientAction>, n: nat) {
    && n <= |a|
    && |sizes| == Count(IsSize, a, n)
    && forall k :: 0 <= k < n && IsSize(a[k]) ==>
        Count(IsSize, a, k) < |sizes| && sizes[Count(IsSize, a, k)] == (a[k].value.width, a[k].value.height)
  }

  /** A message that does not end the loop. */
  predicate GoesOn(m: Option<ClientAction>) { m.Some? && !m.value.Finished? }

  class ServerReceiver {
    const router: Router
    const pty: bool

    constructor (router: Router, pty: bool)
      ensures this.router == router && this.pty == pty
    {
      this.router, this.pty := router, pty;
    }

    /**
     * The loop of `handle` over `arrivals`: every task of the process is fed its part of the messages handled,
     * in order, and the loop ends at the first `Finished`, error or message it cannot route.
     */
    method Receive(arrivals: Arrivals<ClientAction>) returns (end: End, handled: nat, sizes: seq<(nat, nat)>)
      requires router.Valid()
      modifies router.Repr()
      ensures router.Valid() && unchanged(router)
      ensures handled <= |arrivals|
      ensures forall k :: 0 <= k < handled ==> GoesOn(arrivals[k])
      ensures end.Waiting? <==> handled == |arrivals|
      ensures end.Ended? ==> arrivals[handled] == Some(ClientAction.Finished)
      ensures end.ShutDown? ==> arrivals[handled] == None
      ensures end.RoutingFailed? ==>
        && arrivals[handled].Some? && arrivals[handled].value.Stream?
        && Unroutable(router.Entries(), arrivals[handled].value.action)
      ensures Fed(old(router.Entries()), router.Entries(), ServerActions(arrivals, handled))
      ensures if pty then AllSizes(sizes, arrivals, handled) else sizes == []
    {
      ghost var before := router.Entries();
      FedNothing(before);
      ghost var now, done: seq<StreamAction> := before, [];
      handled, sizes := 0, [];
      while handled < |arrivals|
        invariant handled <= |arrivals| && router.Valid() && unchanged(router)
        invariant forall k :: 0 <= k < handled ==> GoesOn(arrivals[k])
        invariant now == router.Entries() && done == ServerActions(arrivals, handled) && Fed(before, now, done)
        invariant if pty then AllSizes(sizes, arrivals, handled) else sizes == []
      {
        if arrivals[handled].None? {
          return ShutDown, handled, sizes;
        }
        match arrivals[handled].value {
          case Stream(action) =>
            var ok := router.RouteNext(action, before, done);
            now := router.Entries();
            if !ok {
              return RoutingFailed, handled, sizes;
            }
            done := done + [action];
          case WindowSizeChange(width, height) =>
            if pty {
              sizes := sizes + [(width, height)];
            }
          case Finished =>
            return Ended, handled, sizes;
        }
        handled := handled + 1;
      }
      return Waiting, handled, sizes;
    }

    /**
     * `handle`: after a failure all tasks are shut down and the child's end is requested once; then, as after
     * `Finished`, the sender is notified. A loop that cannot route a message does neither.
     * `heard` is what the tasks were fed before a shutdown.
     */
    method Handle(arrivals: Arrivals<ClientAction>)
      returns (end: End, handled: nat, sizes: seq<(nat, nat)>, killReports: nat, permits: nat,
               sinks: seq<StreamId>, sources: seq<StreamId>, ghost heard: View)
      requires router.Valid()
      modifies router, router.Repr()
      ensures router.Valid() && Prefix(arrivals, handled, end)
      ensures Fed(old(router.Entries()), heard, ServerActions(arrivals, handled))
      ensures !end.ShutDown? ==> router.Entries() == heard && sinks == [] && sources == []
      ensures end.ShutDown? ==>
        && router.sinkTx == map[] && router.sourceTx == map[] && router.connecterTx == map[]
        && router.listenerTx == old(router.listenerTx)
        && IsListing(sinks, old(router.sinkTx).Keys) && IsListing(sources, old(router.sourceTx).Keys)
        && TookEach(heard.sinks, Mailboxes(old(router.sinkTx)), [SourceClosed])
        && TookEach(heard.sources, Mailboxes(old(router.sourceTx)), [SinkClosed])
      ensures if pty then AllSizes(sizes, arrivals, handled) else sizes == []
      ensures permits == if end.Ended? || end.ShutDown? then 1 else 0
      ensures killReports == if end.ShutDown? then 1 else 0
    {
      killReports, permits, sinks, sources := 0, 0, [], [];
      end, handled, sizes := Receive(arrivals);
      heard := router.Entries();
      if end.ShutDown? {
        sinks, sources := router.Shutdown();
        killReports := killReports + 1;
      }
      if end.Ended? || end.ShutDown? {
        permits := permits + 1;
      }
    }
  }

  // -------------------------------------------------------------- the client

  /** What the tasks of the client are sent by the first `n` arrivals. */
  function ClientActions(a: Arrivals<ServerAction>, n: nat): seq<StreamAction>
    requires n <= |a|
  {
    if n == 0 then []
    else
      var last := a[n - 1];
      ClientActions(a, n - 1) + if last.Some? && last.value.Stream? then [last.value.action] else []
  }

  predicate IsReply(m: Option<ServerAction>) { m.Some? && m.value.Stream? }

  lemma {:induction false} ClientActionsMeaning(a: Arrivals<ServerAction>, n: nat)
    requires n <= |a|
    ensures |ClientActions(a, n)| == Count(IsReply, a, n)
    ensures forall k :: 0 <= k < n && IsReply(a[k]) ==>
      Count(IsReply, a, k) < Count(IsReply, a, n) && ClientActions(a, n)[Count(IsReply, a, k)] == a[k].value.action
  {
    if n == 0 {
    } else {
      ClientActionsMeaning(a, n - 1);
    }
  }

  /** The first `n` arrivals contain no exit status, or one, namely `exits`. */
  predicate AllExits(exits: seq<ExitStatus>, a: Arrivals<ServerAction>, n: nat) {
    && n <= |a| && |exits| <= 1
    && (forall k :: 0 <= k < n && a[k].Some? && a[k].value.Exit? ==> exits == [a[k].value.status])
    && (exits != [] ==> exists k :: 0 <= k < n && a[k] == Some(ServerAction.Exit(exits[0])))
  }

  predicate Continues(m: Option<ServerAction>) { m.Some? && !m.value.Finished? }

  /** What the client's main task is told on the exit-status channel. */
  datatype Report = Unsent | Status(status: ExitStatus) | Failure

  class ClientReceiver {
    const router: Router

    constructor (router: Router)
      ensures this.router == router
    {
      this.router := router;
    }

    /** The loop of `handle`; `exits` are the statuses handled. `mainWaits`: the exit-status channel has a receiver. */
    method Receive(arrivals: Arrivals<ServerAction>, mainWaits: bool)
      returns (end: End, handled: nat, exits: seq<ExitStatus>)
      requires router.Valid()
      modifies router.Repr()
      ensures router.Valid() && unchanged(router)
      ensures handled <= |arrivals|
      ensures forall k :: 0 <= k < handled ==> Continues(arrivals[k])
      ensures end.Waiting? <==> handled == |arrivals|
      ensures end.Ended? ==> arrivals[handled] == Some(ServerAction.Finished)
      ensures end.ShutDown? ==> arrivals[handled] == None
      ensures end.RoutingFailed? ==>
        && arrivals[handled].Some?
        && if arrivals[handled].value.Stream? then Unroutable(router.Entries(), arrivals[handled].value.action)
           else arrivals[handled].value.Exit? && (exits != [] || !mainWaits)
      ensures Fed(old(router.Entries()), router.Entries(), ClientActions(arrivals, handled))
      ensures AllExits(exits, arrivals, handled) && (!mainWaits ==> exits == [])
    {
      ghost var before := router.Entries();
      FedNothing(before);
      ghost var now, done: seq<StreamAction> := before, [];
      handled, exits := 0, [];
      while handled < |arrivals|
        invariant handled <= |arrivals| && router.Valid() && unchanged(router)
        invariant forall k :: 0 <= k < handled ==> Continues(arrivals[k])
        invariant now == router.Entries() && done == ClientActions(arrivals, handled) && Fed(before, now, done)
        invariant AllExits(exits, arrivals, handled) && (!mainWaits ==> exits == [])
      {
        if arrivals[handled].None? {
          return ShutDown, handled, exits;
        }
        match arrivals[handled].value {
          case Stream(action) =>
            var ok := router.RouteNext(action, before, done);
            now := router.Entries();
            if !ok {
              return RoutingFailed, handled, exits;
            }
            done := done + [action];
          case Exit(status) =>
            if exits != [] || !mainWaits {
              return RoutingFailed, handled, exits;
            }
            exits := [status];
          case Finished =>
            return Ended, handled, exits;
        }
        handled := handled + 1;
      }
      return Waiting, handled, exits;
    }

    /**
     * `handle`: the first `Exit` is reported, and a failure after that is not; otherwise a failure is. Nothing is
     * reported where the main task does not wait for it. After a failure all tasks are shut down.
     */
    method Handle(arrivals: Arrivals<ServerAction>, mainWaits: bool)
      returns (end: End, handled: nat, report: Report,
               sinks: seq<StreamId>, sources: seq<StreamId>, ghost heard: View)
      requires router.Valid()
      modifies router, router.Repr()
      ensures router.Valid() && Prefix(arrivals, handled, end)
      ensures Fed(old(router.Entries()), heard, ClientActions(arrivals, handled))
      ensures !end.ShutDown? ==> router.Entries() == heard && sinks == [] && sources == []
      ensures end.ShutDown? ==>
        && router.sinkTx == map[] && router.sourceTx == map[] && router.connecterTx == map[]
        && router.listenerTx == old(router.listenerTx)
        && IsListing(sinks, old(router.sinkTx).Keys) && IsListing(sources, old(router.sourceTx).Keys)
        && TookEach(heard.sinks, Mailboxes(old(router.sinkTx)), [SourceClosed])
        && TookEach(heard.sources, Mailboxes(old(router.sourceTx)), [SinkClosed])
      ensures forall k :: 0 <= k < handled && arrivals[k].value.Exit? ==> report == Status(arrivals[k].value.status)
      ensures (forall k :: 0 <= k < handled ==> !arrivals[k].value.Exit?) ==>
        report == if end.ShutDown? && mainWaits then Failure else Unsent
    {
      var exits;
      sinks, sources := [], [];
      end, handled, exits := Receive(arrivals, mainWaits);
      report := if exits != [] then Status(exits[0]) else Unsent;
      heard := router.Entries();
      if end.ShutDown? {
        sinks, sources := router.Shutdown();
        if report.Unsent? && mainWaits {
          report := Failure;
        }
      }
    }
  }

  // ------------------------------------------------ against the state machines

  /** A channel of a router is a task's channel in a session: the same undelivered messages while the task is alive. */
  predicate Mirrors<T(==)>(m: Mailbox<T>, channel: seq<T>, alive: bool) {
    && m.capacity == 1 && m.received <= |m.sent|
    && m.open == alive
    && (alive ==> m.sent[m.received..] == channel)
  }

  predicate MirrorsSink(v: View, id: StdId, st: S.Stream) {
    Std(id) in v.sinks && Mirrors(v.sinks[Std(id)], st.outbox, !st.ends.snk.phase.SinkDone?)
  }

  predicate MirrorsSource(v: View, id: StdId, st: S.Stream) {
    Std(id) in v.sources && Mirrors(v.sources[Std(id)], st.inbox, !st.ends.src.SourceDone?)
  }

  /**
   * The router at the receiving end of direction `d` holds the channels of that end's stdio tasks, as the session has
   * them.
   */
  predicate Reflects(v: View, s: S.Session, d: S.Direction) { forall id: StdId :: MirrorsAt(v, s, d, id) }

  predicate MirrorsAt(v: View, s: S.Session, d: S.Direction, id: StdId) {
    && (if S.HasSink(d, id) then MirrorsSink(v, id, s.streams[id]) else Std(id) !in v.sinks)
    && (if S.HasSource(d, id, s.pty) then MirrorsSource(v, id, s.streams[id]) else Std(id) !in v.sources)
  }

  predicate IsStdio(m: Message) { m.FromSource? || m.FromSink? }

  function ActionOf(m: Message): StreamAction
    requires IsStdio(m)
  {
    if m.FromSource? then Source(Std(m.sid), m.source) else Sink(Std(m.kid), m.sink)
  }

  /** Sending to a mirrored channel: it takes the message if its task is alive, and is left alone otherwise. */
  lemma MirroredSend<K(!new), T>(m: map<K, Mailbox<T>>, n: map<K, Mailbox<T>>, key: K, message: T, r: Routed,
                                 channel: seq<T>, alive: bool)
    requires Posted(m, n, key, message, r) && key in m
    requires Mirrors(m[key], channel, alive) && (alive ==> channel == [])
    ensures r.Delivered? <==> alive
    ensures Mirrors(n[key], if alive then [message] else channel, alive)
  {
    if alive {
      assert |m[key].sent| == m[key].received;
      assert n[key].sent[n[key].received..] == [message];
    }
  }

  /** Stream `j` and its entries are untouched. */
  predicate Untouched(v: View, w: View, s: S.Session, t: S.Session, j: StdId) {
    && t.pty == s.pty && t.streams[j] == s.streams[j]
    && (Std(j) in w.sinks <==> Std(j) in v.sinks) && (Std(j) in v.sinks ==> w.sinks[Std(j)] == v.sinks[Std(j)])
    && (Std(j) in w.sources <==> Std(j) in v.sources)
    && (Std(j) in v.sources ==> w.sources[Std(j)] == v.sources[Std(j)])
  }

  lemma UntouchedMirrors(v: View, w: View, s: S.Session, t: S.Session, d: S.Direction, id: StdId)
    requires Reflects(v, s, d) && MirrorsAt(w, t, d, id)
    requires forall j: StdId :: j != id ==> Untouched(v, w, s, t, j)
    ensures Reflects(w, t, d)
  {
    forall j: StdId ensures MirrorsAt(w, t, d, j) {
      assert MirrorsAt(v, s, d, j);
      assert j != id ==> Untouched(v, w, s, t, j);
    }
  }

  lemma SourceAtSink(v: View, w: View, s: S.Session, d: S.Direction, id: StdId, a: SourceAction, r: Routed,
                     t: S.Session)
    requires MirrorsAt(v, s, d, id) && S.HandleSource(s, d, id, a) == Some(t) && s.pipes[d].receiver.Open?
    requires Routes(v, w, Source(Std(id), a), r)
    ensures t.pipes[d].receiver.Crashed? <==> r.NotFound? || r.Gone?
    ensures MirrorsAt(w, t, d, id)
  {
    var st := s.streams[id];
    if S.HasSink(d, id) { MirroredSend(v.sinks, w.sinks, Std(id), a, r, st.outbox, !st.ends.snk.phase.SinkDone?); }
  }

  lemma SourceElsewhere(v: View, w: View, s: S.Session, d: S.Direction, id: StdId, a: SourceAction, r: Routed,
                        t: S.Session)
    requires S.HandleSource(s, d, id, a) == Some(t) && Routes(v, w, Source(Std(id), a), r)
    ensures forall j: StdId :: j != id ==> Untouched(v, w, s, t, j)
  {
  }

  lemma SinkAtSource(v: View, w: View, s: S.Session, d: S.Direction, id: StdId, a: SinkAction, r: Routed, t: S.Session)
    requires MirrorsAt(v, s, d, id) && S.HandleSink(s, d, id, a) == Some(t) && s.pipes[d].receiver.Open?
    requires Routes(v, w, Sink(Std(id), a), r)
    ensures t.pipes[d].receiver.Crashed? <==> r.NotFound? || r.Gone?
    ensures r.Dropped? ==> t == s
    ensures MirrorsAt(w, t, d, id)
  {
    var st := s.streams[id];
    if S.HasSource(d, id, s.pty) {
      MirroredSend(v.sources, w.sources, Std(id), a, r, st.inbox, !st.ends.src.SourceDone?);
    }
  }

  lemma SinkElsewhere(v: View, w: View, s: S.Session, d: S.Direction, id: StdId, a: SinkAction, r: Routed, t: S.Session)
    requires S.HandleSink(s, d, id, a) == Some(t) && Routes(v, w, Sink(Std(id), a), r)
    ensures forall j: StdId :: j != id ==> Untouched(v, w, s, t, j)
  {
  }

  lemma UnhandedReflects(v: View, s: S.Session, d: S.Direction)
    requires Reflects(v, s, d)
    ensures Reflects(v, S.WithPipe(s, d, s.pipes[d].(held := None)), d)
  {
    forall id: StdId ensures MirrorsAt(v, S.WithPipe(s, d, s.pipes[d].(held := None)), d, id) {
      assert MirrorsAt(v, s, d, id);
    }
  }

  /**
   * Where the session's receiver loop routes a stdio message, a router with the same channels does the same: it fails
   * exactly where the loop crashes, drops a late reply without changing any stream, and has the same channels
   * afterwards.
   */
  lemma RoutedAsSession(v: View, w: View, s: S.Session, d: S.Direction, r: Routed, t: S.Session)
    requires Reflects(v, s, d) && S.DoRoute(s, d) == Some(t)
    requires s.pipes[d].held.Some? && IsStdio(s.pipes[d].held.value)
    requires Routes(v, w, ActionOf(s.pipes[d].held.value), r)
    ensures t.pipes[d].receiver.Crashed? <==> r.NotFound? || r.Gone?
    ensures r.Dropped? ==> t.streams == s.streams
    ensures Reflects(w, t, d)
  {
    var m := s.pipes[d].held.value;
    var s0 := S.WithPipe(s, d, s.pipes[d].(held := None));
    UnhandedReflects(v, s, d);
    match m {
      case FromSource(id, a) =>
        assert MirrorsAt(v, s0, d, id);
        SourceAtSink(v, w, s0, d, id, a, r, t);
        SourceElsewhere(v, w, s0, d, id, a, r, t);
        UntouchedMirrors(v, w, s0, t, d, id);
      case FromSink(id, a) =>
        assert MirrorsAt(v, s0, d, id);
        SinkAtSource(v, w, s0, d, id, a, r, t);
        SinkElsewhere(v, w, s0, d, id, a, r, t);
        UntouchedMirrors(v, w, s0, t, d, id);
    }
  }

  function AddressedSink(v: View, m: Message): Option<Mailbox<SourceAction>> {
    if m.FromSource? && Std(m.sid) in v.sinks then Some(v.sinks[Std(m.sid)]) else None
  }

  function AddressedSource(v: View, m: Message): Option<Mailbox<SinkAction>> {
    if m.FromSink? && Std(m.kid) in v.sources then Some(v.sources[Std(m.kid)]) else None
  }

  predicate Full<T>(m: Option<Mailbox<T>>) { m.Some? && m.value.open && !HasRoom(m.value) }

  /**
   * The session's receiver loop waits exactly where the router's send would wait: for a full channel of a live task.
   */
  lemma WaitsAsSession(v: View, s: S.Session, d: S.Direction)
    requires Reflects(v, s, d) && s.pipes[d].receiver.Open?
    requires s.pipes[d].held.Some? && IsStdio(s.pipes[d].held.value)
    ensures var m := s.pipes[d].held.value;
      S.DoRoute(s, d).None? <==> Full(AddressedSink(v, m)) || Full(AddressedSource(v, m))
  {
    var m := s.pipes[d].held.value;
    assert MirrorsAt(v, s, d, if m.FromSource? then m.sid else m.kid);
  }

  /**
   * An `Exit` that arrives is taken by the session as by the loop that has handled `exits`: the first one, and no
   * other.
   */
  lemma ExitAsSession(s: S.Session, exits: seq<ExitStatus>, status: ExitStatus)
    requires I.StatusFields(s) && (s.taken <==> exits != [])
    requires s.pipes[S.ToClient].receiver.Open? && s.pipes[S.ToClient].held == Some(Message.Exit(status))
    ensures var t := S.DoRoute(s, S.ToClient);
      && t.Some?
      && if exits != [] then t.value.pipes[S.ToClient].receiver.Crashed?
         else t.value.taken && t.value.slot == Some(status) && t.value.pipes[S.ToClient].receiver.Open?
  {
  }

  /** `Finished` ends the session's loop as it ends this one; on the server the sender's permit is given. */
  lemma FinishedAsSession(s: S.Session, d: S.Direction)
    requires s.pipes[d].receiver.Open? && s.pipes[d].held == Some(Message.Finished)
    ensures var t := S.DoRoute(s, d);
      && t.Some? && t.value.pipes[d].receiver.Ended? && t.value.streams == s.streams
      && t.value.permit == (s.permit || d.ToServer?)
  {
  }

  /** The entries of a server without port forwarding. */
  predicate ServerStdio(sinks: set<StreamId>, sources: set<StreamId>, pty: bool) {
    sinks == {Std(Stdin)} && sources == if pty then {Std(Stdout)} else {Std(Stdout), Std(Stderr)}
  }

  function SinkNotices(told: seq<StreamId>): seq<SF.Notice> {
    seq(|told|, i => SF.ToSink)
  }

  function SourceNotices(told: seq<StreamId>): seq<SF.Notice>
    requires forall i :: 0 <= i < |told| ==> told[i].Std?
  {
    seq(|told|, i requires 0 <= i < |told| => SF.ToSource(told[i].std))
  }

  /**
   * In whatever order the maps are drained, `shutdown` tells every task of the server: what the failure machine
   * starts from.
   */
  lemma ShutdownIsComplete(sinks: seq<StreamId>, sources: seq<StreamId>, s: set<StreamId>, t: set<StreamId>, pty: bool)
    requires ServerStdio(s, t, pty) && IsListing(sinks, s) && IsListing(sources, t)
    ensures (forall i :: 0 <= i < |sources| ==> sources[i].Std?)
      && SF.Complete(SinkNotices(sinks) + SourceNotices(sources), pty)
  {
    assert Std(Stdin) in s && Std(Stdout) in t && (pty || Std(Stderr) in t);
    var told := SinkNotices(sinks) + SourceNotices(sources);
    assert told[0] == SF.ToSink;
    var i :| 0 <= i < |sources| && sources[i] == Std(Stdout);
    assert told[|sinks| + i] == SF.ToSource(Stdout);
    if !pty {
      var j :| 0 <= j < |sources| && sources[j] == Std(Stderr);
      assert told[|sinks| + j] == SF.ToSource(Stderr);
    }
  }
}
