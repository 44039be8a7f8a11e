/**
 * The streams of forwarded connections: every established connection carries one stream in either direction, between
 * the tasks both sides registered for it, over the same connection as the connect handshake.
 */
module ForwardedStreams {
  import opened Protocol
  import opened Endpoints
  import F = Forwarding
  import S = Session
  import M = Multiplexing
  import P = StreamProtocol

  // ------------------------------------------------------------------- state

  /** One stream of a forwarded connection, to the server or to the client. */
  datatype Lane = Lane(port: nat, conn: nat, toServer: bool)

  datatype Item = OfSource(lane: Lane, source: SourceAction) | OfSink(lane: Lane, sink: SinkAction)

  /** The net of `Forwarding`, the contents of its stream messages under way, oldest first, and all streams. */
  datatype Net = Net(
    base: F.Net, up: seq<Item>, down: seq<Item>,
    streams: map<Lane, S.Stream>,
    lost: bool)   // a receiver loop has met a sink that had ended

  function At(n: Net, l: Lane): S.Stream { if l in n.streams then n.streams[l] else S.BLANK }

  datatype Event =
    | AtPort(port: nat, ev: F.PortEvent)
    | TaskStep(lane: Lane, task: TaskEvent)
    | ServerRoutes
    | ClientRoutes

  /** The task that takes the event runs on the client. */
  predicate OnClient(l: Lane, ev: TaskEvent) { P.BySource(ev) == l.toServer }

  /** That side has registered the connection. */
  predicate Registered(n: Net, l: Lane, client: bool) {
    && l.port < |n.base.ports|
    && l.conn in if client then n.base.ports[l.port].clientStreams else n.base.ports[l.port].serverStreams
  }

  function ItemsOf(l: Lane, m: Move): seq<Item> {
    if |m.up| > 0 then [OfSource(l, m.up[0])] else if |m.down| > 0 then [OfSink(l, m.down[0])] else []
  }

  function SendEvent(l: Lane, client: bool): F.Event {
    if client then F.ClientSends(l.port, l.conn) else F.ServerSends(l.port, l.conn)
  }

  /** A side sends the message of a task, if there is one. */
  function Push(n: Net, l: Lane, client: bool, items: seq<Item>): Option<Net> {
    if |items| == 0 then Some(n)
    else
      match F.Step(n.base, SendEvent(l, client))
      case None => None
      case Some(b) =>
        if client then Some(n.(base := b, up := n.up + items)) else Some(n.(base := b, down := n.down + items))
  }

  function DoTask(n: Net, l: Lane, ev: TaskEvent): Option<Net> {
    var st := At(n, l);
    if !Registered(n, l, OnClient(l, ev)) then None
    else
      match Act(st.ends, ev, st.inbox, st.outbox)
      case None => None
      case Some(m) => Push(n.(streams := n.streams[l := S.AfterMove(st, m)]), l, OnClient(l, ev), ItemsOf(l, m))
  }

  /**
   * A receiver loop hands a message over; None while the channel is full, and a reply to an ended source is dropped.
   */
  function Deliver(n: Net, i: Item): Option<Net> {
    var st := At(n, i.lane);
    match i
    case OfSource(l, a) =>
      if st.ends.snk.phase.SinkDone? then Some(n.(lost := true))
      else if |st.outbox| >= 1 then None
      else Some(n.(streams := n.streams[l := st.(outbox := st.outbox + [a])]))
    case OfSink(l, a) =>
      if st.ends.src.SourceDone? then Some(n)
      else if |st.inbox| >= 1 then None
      else Some(n.(streams := n.streams[l := st.(inbox := st.inbox + [a])]))
  }

  function DoServerRoutes(n: Net): Option<Net> {
    match F.Step(n.base, F.ServerRoutes)
    case None => None
    case Some(b) =>
      if n.base.up[0].Action? || !b.fault.NoFault? || n.up == [] then Some(n.(base := b))
      else Deliver(n.(base := b, up := n.up[1..]), n.up[0])
  }

  function DoClientRoutes(n: Net): Option<Net> {
    match F.Step(n.base, F.ClientRoutes)
    case None => None
    case Some(b) =>
      if n.base.down[0].Answer? || !b.fault.NoFault? || n.down == [] then Some(n.(base := b))
      else Deliver(n.(base := b, down := n.down[1..]), n.down[0])
  }

  function Step(n: Net, e: Event): Option<Net> {
    if n.lost || !n.base.fault.NoFault? then None
    else
      match e
      case AtPort(i, ev) => (
        match F.Step(n.base, F.AtPort(i, ev))
        case None => None
        case Some(b) => Some(n.(base := b)))
      case TaskStep(l, ev) => DoTask(n, l, ev)
      case ServerRoutes => DoServerRoutes(n)
      case ClientRoutes => DoClientRoutes(n)
  }

  function Run(n: Net, es: seq<Event>): Option<Net>
    decreases |es|
  {
    if es == [] then Some(n)
    else match Step(n, es[0])
      case None => None
      case Some(r) => Run(r, es[1..])
  }

  function Init(ports: nat): Net { Net(F.Init(ports), [], [], map[], false) }

  // --------------------------------------------------------- one stream's view

  function Sources(items: seq<Item>, l: Lane): seq<SourceAction> {
    if items == [] then []
    else (if items[0].OfSource? && items[0].lane == l then [items[0].source] else []) + Sources(items[1..], l)
  }

  function Sinks(items: seq<Item>, l: Lane): seq<SinkAction> {
    if items == [] then []
    else (if items[0].OfSink? && items[0].lane == l then [items[0].sink] else []) + Sinks(items[1..], l)
  }

  /** The messages on the way from a lane's source to its sink, and back. */
  function There(n: Net, l: Lane): seq<Item> { if l.toServer then n.up else n.down }
  function Back(n: Net, l: Lane): seq<Item> { if l.toServer then n.down else n.up }

  function LinkOf(n: Net, l: Lane): P.Link {
    var st := At(n, l);
    P.Link(st.ends, st.outbox + Sources(There(n, l), l), st.inbox + Sinks(Back(n, l), l))
  }

  lemma {:induction false} ItemsConcat(a: seq<Item>, b: seq<Item>, l: Lane)
    ensures Sources(a + b, l) == Sources(a, l) + Sources(b, l)
    ensures Sinks(a + b, l) == Sinks(a, l) + Sinks(b, l)
  {
    if a == [] {
      assert a + b == b;
    } else {
      assert (a + b)[0] == a[0] && (a + b)[1..] == a[1..] + b;
      ItemsConcat(a[1..], b, l);
    }
  }

  /** The connections the stream messages of a direction are about. */
  function UpConns(up: seq<F.Up>): seq<(nat, nat)> {
    if up == [] then [] else (if up[0].ClientStream? then [(up[0].port, up[0].conn)] else []) + UpConns(up[1..])
  }

  function DownConns(down: seq<F.Down>): seq<(nat, nat)> {
    if down == [] then []
    else (if down[0].ServerStream? then [(down[0].port, down[0].conn)] else []) + DownConns(down[1..])
  }

  function Conns(items: seq<Item>): seq<(nat, nat)> {
    seq(|items|, i requires 0 <= i < |items| => (items[i].lane.port, items[i].lane.conn))
  }

  lemma {:induction false} UpConnsConcat(a: seq<F.Up>, b: seq<F.Up>)
    ensures UpConns(a + b) == UpConns(a) + UpConns(b)
  {
    if a == [] {
      assert a + b == b;
    } else {
      assert (a + b)[0] == a[0] && (a + b)[1..] == a[1..] + b;
      UpConnsConcat(a[1..], b);
    }
  }

  lemma {:induction false} DownConnsConcat(a: seq<F.Down>, b: seq<F.Down>)
    ensures DownConns(a + b) == DownConns(a) + DownConns(b)
  {
    if a == [] {
      assert a + b == b;
    } else {
      assert (a + b)[0] == a[0] && (a + b)[1..] == a[1..] + b;
      DownConnsConcat(a[1..], b);
    }
  }

  /** The net's stream messages and their contents are about the same connections, in the same order. */
  predicate Aligned(n: Net) { UpConns(n.base.up) == Conns(n.up) && DownConns(n.base.down) == Conns(n.down) }

  /** A message goes the right way: a source action to its sink, a reply back to its source. */
  predicate RightWay(i: Item, up: bool) { i.OfSource? <==> (i.lane.toServer == up) }

  predicate Directed(n: Net) {
    && (forall i :: 0 <= i < |n.up| ==> RightWay(n.up[i], true))
    && (forall i :: 0 <= i < |n.down| ==> RightWay(n.down[i], false))
  }

  ghost predicate Inv(n: Net) {
    F.Inv(n.base) && !n.lost && Aligned(n) && Directed(n) && forall l: Lane :: P.Inv(LinkOf(n, l))
  }

  lemma InitHasInv(ports: nat)
    ensures Inv(Init(ports))
  {
    F.InitHasInv(ports);
  }

  // ---------------------------------------------------------------- task steps

  /** A task event sends at most one message, from the side the task is on. */
  lemma OneMessage(e: Ends, ev: TaskEvent, inbox: seq<SinkAction>, outbox: seq<SourceAction>, m: Move)
    requires Act(e, ev, inbox, outbox) == Some(m)
    ensures |m.up| <= 1 && |m.down| <= 1 && (m.up == [] || m.down == [])
    ensures if P.BySource(ev) then m.down == [] else m.up == []
  {
  }

  lemma ItemsView(l: Lane, m: Move, k: Lane)
    requires |m.up| <= 1 && |m.down| <= 1 && (m.up == [] || m.down == [])
    ensures Sources(ItemsOf(l, m), k) == if k == l then m.up else []
    ensures Sinks(ItemsOf(l, m), k) == if k == l then m.down else []
  {
    var items := ItemsOf(l, m);
    if |items| > 0 { assert items[1..] == []; }
    if |m.up| == 1 { assert m.up == [m.up[0]]; }
    if |m.down| == 1 { assert m.down == [m.down[0]]; }
  }

  /** What pushing changes: the items at the young end of one direction. */
  lemma PushView(n: Net, l: Lane, client: bool, items: seq<Item>, r: Net, k: Lane)
    requires Push(n, l, client, items) == Some(r)
    ensures Sources(r.up, k) == Sources(n.up, k) + (if client then Sources(items, k) else [])
    ensures Sinks(r.up, k) == Sinks(n.up, k) + (if client then Sinks(items, k) else [])
    ensures Sources(r.down, k) == Sources(n.down, k) + (if client then [] else Sources(items, k))
    ensures Sinks(r.down, k) == Sinks(n.down, k) + (if client then [] else Sinks(items, k))
    ensures r.streams == n.streams && r.lost == n.lost
  {
    ItemsConcat(n.up, items, k);
    ItemsConcat(n.down, items, k);
    assert items == [] ==> Sources(items, k) == [] && Sinks(items, k) == [];
  }

  lemma OwnLink(n: Net, l: Lane, ev: TaskEvent, r: Net)
    requires DoTask(n, l, ev) == Some(r)
    ensures P.Step(LinkOf(n, l), P.Task(ev)) == Some(LinkOf(r, l))
  {
    var st, t := At(n, l), LinkOf(n, l);
    var m := Act(st.ends, ev, st.inbox, st.outbox).value;
    OneMessage(st.ends, ev, st.inbox, st.outbox, m);
    ItemsView(l, m, l);
    PushView(n.(streams := n.streams[l := S.AfterMove(st, m)]), l, OnClient(l, ev), ItemsOf(l, m), r, l);
    var x, y := Sources(There(n, l), l), Sinks(Back(n, l), l);
    assert Sources(There(r, l), l) == x + m.up && Sinks(Back(r, l), l) == y + m.down;
    M.ActSeesOnlyHeads(st.ends, ev, st.inbox, st.outbox, y, x);
    M.AdvanceSplits(st.outbox, x, m.fromOutbox, m.up);
    M.AdvanceSplits(st.inbox, y, m.fromInbox, m.down);
    P.StepTask(t, ev, m);
  }

  lemma OtherLink(n: Net, l: Lane, ev: TaskEvent, r: Net, k: Lane)
    requires DoTask(n, l, ev) == Some(r) && k != l
    ensures LinkOf(r, k) == LinkOf(n, k)
  {
    var st := At(n, l);
    var m := Act(st.ends, ev, st.inbox, st.outbox).value;
    OneMessage(st.ends, ev, st.inbox, st.outbox, m);
    ItemsView(l, m, k);
    PushView(n.(streams := n.streams[l := S.AfterMove(st, m)]), l, OnClient(l, ev), ItemsOf(l, m), r, k);
    var i := ItemsOf(l, m);
    NothingAdded(Sources(n.up, k), Sinks(n.up, k), Sources(n.down, k), Sinks(n.down, k));
    assert Sources(i, k) == [] && Sinks(i, k) == [];
    assert At(r, k) == At(n, k);
  }

  lemma NothingAdded(a: seq<SourceAction>, b: seq<SinkAction>, c: seq<SourceAction>, d: seq<SinkAction>)
    ensures a + [] == a && b + [] == b && c + [] == c && d + [] == d
  {
  }

  lemma PushKeepsBase(n: Net, l: Lane, client: bool, items: seq<Item>, r: Net)
    requires F.Inv(n.base) && Aligned(n) && Push(n, l, client, items) == Some(r)
    requires |items| <= 1 && (|items| == 1 ==> items[0].lane == l)
    ensures F.Inv(r.base) && Aligned(r)
  {
    if |items| == 1 {
      F.StepKeepsInv(n.base, SendEvent(l, client), r.base);
      assert Conns(n.up + items) == Conns(n.up) + Conns(items);
      assert Conns(n.down + items) == Conns(n.down) + Conns(items);
      assert Conns(items) == [(l.port, l.conn)];
      if client {
        UpConnsConcat(n.base.up, [F.ClientStream(l.port, l.conn)]);
        assert UpConns([F.ClientStream(l.port, l.conn)]) == [(l.port, l.conn)] + UpConns([]);
      } else {
        DownConnsConcat(n.base.down, [F.ServerStream(l.port, l.conn)]);
        assert DownConns([F.ServerStream(l.port, l.conn)]) == [(l.port, l.conn)] + DownConns([]);
      }
    }
  }

  lemma PushKeepsDirected(n: Net, l: Lane, client: bool, items: seq<Item>, r: Net)
    requires Directed(n) && Push(n, l, client, items) == Some(r)
    requires forall i :: 0 <= i < |items| ==> RightWay(items[i], client)
    ensures Directed(r)
  {
  }

  lemma TaskSendsRightWay(l: Lane, e: Ends, ev: TaskEvent, inbox: seq<SinkAction>, outbox: seq<SourceAction>, m: Move)
    requires Act(e, ev, inbox, outbox) == Some(m)
    ensures forall i :: 0 <= i < |ItemsOf(l, m)| ==> RightWay(ItemsOf(l, m)[i], OnClient(l, ev))
  {
    OneMessage(e, ev, inbox, outbox, m);
  }

  lemma TaskKeepsInv(n: Net, l: Lane, ev: TaskEvent, r: Net)
    requires Inv(n) && DoTask(n, l, ev) == Some(r)
    ensures Inv(r)
  {
    var st := At(n, l);
    var m := Act(st.ends, ev, st.inbox, st.outbox).value;
    PushKeepsBase(n.(streams := n.streams[l := S.AfterMove(st, m)]), l, OnClient(l, ev), ItemsOf(l, m), r);
    TaskSendsRightWay(l, st.ends, ev, st.inbox, st.outbox, m);
    PushKeepsDirected(n.(streams := n.streams[l := S.AfterMove(st, m)]), l, OnClient(l, ev), ItemsOf(l, m), r);
    forall k: Lane ensures P.Inv(LinkOf(r, k)) {
      assert P.Inv(LinkOf(n, k));
      if k == l {
        OwnLink(n, l, ev, r);
        P.StepKeepsInv(LinkOf(n, l), P.Task(ev));
      } else {
        OtherLink(n, l, ev, r, k);
      }
    }
  }

  // -------------------------------------------------------------- other events

  lemma AtPortConns(n: F.Net, i: nat, ev: F.PortEvent, b: F.Net)
    requires F.Step(n, F.AtPort(i, ev)) == Some(b)
    ensures UpConns(b.up) == UpConns(n.up) && DownConns(b.down) == DownConns(n.down)
  {
    var m := F.PortStep(n.ports[i], ev).value;
    UpConnsConcat(n.up, F.Actions(i, m.up));
    DownConnsConcat(n.down, F.Answers(i, m.down));
    assert UpConns(F.Actions(i, m.up)) == [] && DownConns(F.Answers(i, m.down)) == [];
    assert UpConns(n.up) + [] == UpConns(n.up) && DownConns(n.down) + [] == DownConns(n.down);
  }

  lemma AtPortKeepsInv(n: Net, i: nat, ev: F.PortEvent, b: F.Net)
    requires Inv(n) && F.Step(n.base, F.AtPort(i, ev)) == Some(b)
    ensures Inv(n.(base := b))
  {
    assert F.Inv(b) by { F.StepKeepsInv(n.base, F.AtPort(i, ev), b); }
    AtPortConns(n.base, i, ev, b);
    SameLinks(n, n.(base := b));
  }

  /** The oldest message of a direction, seen from a stream. */
  lemma Oldest(items: seq<Item>, l: Lane)
    requires items != []
    ensures Sources(items, l)
         == (if items[0].OfSource? && items[0].lane == l then [items[0].source] else []) + Sources(items[1..], l)
    ensures Sinks(items, l)
         == (if items[0].OfSink? && items[0].lane == l then [items[0].sink] else []) + Sinks(items[1..], l)
  {
  }

  /** `n` without the oldest message of the direction to the server, or to the client. */
  function Popped(n: Net, up: bool): Net
    requires if up then n.up != [] else n.down != []
  {
    if up then n.(up := n.up[1..]) else n.(down := n.down[1..])
  }

  function Head(n: Net, up: bool): Item
    requires if up then n.up != [] else n.down != []
  {
    if up then n.up[0] else n.down[0]
  }

  lemma OtherDelivered(n: Net, up: bool, r: Net, k: Lane)
    requires if up then n.up != [] else n.down != []
    requires Head(n, up).lane != k && Deliver(Popped(n, up), Head(n, up)) == Some(r)
    ensures LinkOf(r, k) == LinkOf(n, k)
  {
    Oldest(if up then n.up else n.down, k);
    DeliverKeepsItems(n, up, r);
    assert At(r, k) == At(n, k);
    assert Sources(There(n, k), k) == Sources(There(r, k), k) && Sinks(Back(n, k), k) == Sinks(Back(r, k), k);
  }

  /** Handing a source action over leaves its stream's view alone. */
  lemma ActionDelivered(n: Net, up: bool, r: Net)
    requires if up then n.up != [] else n.down != []
    requires RightWay(Head(n, up), up) && Head(n, up).OfSource?
    requires Deliver(Popped(n, up), Head(n, up)) == Some(r) && !r.lost
    ensures LinkOf(r, Head(n, up).lane) == LinkOf(n, Head(n, up).lane)
  {
    var i := Head(n, up);
    Oldest(if up then n.up else n.down, i.lane);
    M.HandMiddle(At(n, i.lane).outbox, i.source, Sources(There(r, i.lane), i.lane));
  }

  /** So does handing a reply over, but that a late one disappears. */
  lemma ReplyDelivered(n: Net, up: bool, r: Net)
    requires if up then n.up != [] else n.down != []
    requires RightWay(Head(n, up), up) && Head(n, up).OfSink?
    requires Deliver(Popped(n, up), Head(n, up)) == Some(r)
    ensures var l := Head(n, up).lane; var t, j := LinkOf(n, l), |At(n, l).inbox|;
      if At(n, l).ends.src.SourceDone? then
        j < |t.back| && LinkOf(r, l) == t.(back := t.back[..j] + t.back[j + 1..])
      else LinkOf(r, l) == t
  {
    var i := Head(n, up);
    Oldest(if up then n.up else n.down, i.lane);
    M.HandMiddle(At(n, i.lane).inbox, i.sink, Sinks(Back(r, i.lane), i.lane));
  }

  /** The sink a source action is for has not ended. */
  lemma SinkIsThere(n: Net, up: bool)
    requires if up then n.up != [] else n.down != []
    requires P.Inv(LinkOf(n, Head(n, up).lane)) && RightWay(Head(n, up), up) && Head(n, up).OfSource?
    ensures !At(n, Head(n, up).lane).ends.snk.phase.SinkDone?
  {
    var l := Head(n, up).lane;
    Oldest(if up then n.up else n.down, l);
    assert LinkOf(n, l).fwd != [];
  }

  lemma LateReplyKeepsInv(t: P.Link, j: nat)
    requires P.Inv(t) && t.ends.src.SourceDone? && j < |t.back|
    ensures P.Inv(t.(back := t.back[..j] + t.back[j + 1..]))
  {
    assert P.Step(t, P.Drop(j)) == Some(t.(back := t.back[..j] + t.back[j + 1..]));
    P.StepKeepsInv(t, P.Drop(j));
  }

  lemma DeliverKeepsLinks(n: Net, up: bool, r: Net)
    requires if up then n.up != [] else n.down != []
    requires !n.lost && forall l: Lane :: P.Inv(LinkOf(n, l))
    requires RightWay(Head(n, up), up) && Deliver(Popped(n, up), Head(n, up)) == Some(r)
    ensures !r.lost && forall l: Lane :: P.Inv(LinkOf(r, l))
  {
    var i := Head(n, up);
    assert P.Inv(LinkOf(n, i.lane));
    if i.OfSource? { SinkIsThere(n, up); }
    forall k: Lane ensures P.Inv(LinkOf(r, k)) {
      assert P.Inv(LinkOf(n, k));
      if i.lane != k {
        OtherDelivered(n, up, r, k);
      } else if i.OfSource? {
        ActionDelivered(n, up, r);
      } else {
        ReplyDelivered(n, up, r);
        if At(n, k).ends.src.SourceDone? { LateReplyKeepsInv(LinkOf(n, k), |At(n, k).inbox|); }
      }
    }
  }

  // ------------------------------------------------------------------ routing

  lemma BaseUp(n: F.Net, b: F.Net)
    requires F.Inv(n) && F.Step(n, F.ServerRoutes) == Some(b)
    ensures n.up != [] && F.Inv(b) && b.up == n.up[1..] && b.down == n.down
    ensures UpConns(n.up) == (if n.up[0].ClientStream? then [(n.up[0].port, n.up[0].conn)] else []) + UpConns(b.up)
  {
    F.StepKeepsInv(n, F.ServerRoutes, b);
  }

  lemma BaseDown(n: F.Net, b: F.Net)
    requires F.Inv(n) && F.Step(n, F.ClientRoutes) == Some(b)
    ensures n.down != [] && (F.Inv(b) || b.fault.ClientReceiverFailed?) && b.down == n.down[1..] && b.up == n.up
    ensures DownConns(n.down)
         == (if n.down[0].ServerStream? then [(n.down[0].port, n.down[0].conn)] else []) + DownConns(b.down)
  {
    F.StepKeepsInv(n, F.ClientRoutes, b);
  }

  /** Taking a stream message off the front of a direction takes its contents off, too. */
  lemma Shifted(c: (nat, nat), rest: seq<(nat, nat)>, items: seq<Item>)
    requires [c] + rest == Conns(items)
    ensures items != [] && rest == Conns(items[1..])
  {
    assert |items| == |[c] + rest|;
    assert forall i :: 0 <= i < |rest| ==> rest[i] == ([c] + rest)[i + 1];
  }

  lemma SameLinks(n: Net, r: Net)
    requires r == n.(base := r.base) && forall l: Lane :: P.Inv(LinkOf(n, l))
    ensures forall l: Lane :: P.Inv(LinkOf(r, l))
  {
    forall l: Lane ensures P.Inv(LinkOf(r, l)) { assert P.Inv(LinkOf(n, l)); }
  }

  lemma DeliverKeepsItems(n: Net, up: bool, r: Net)
    requires if up then n.up != [] else n.down != []
    requires Deliver(Popped(n, up), Head(n, up)) == Some(r)
    ensures r.base == n.base && r.up == Popped(n, up).up && r.down == Popped(n, up).down
  {
  }

  lemma TailDirected(n: Net, up: bool)
    requires Directed(n) && if up then n.up != [] else n.down != []
    ensures RightWay(Head(n, up), up) && Directed(Popped(n, up))
  {
    assert forall i :: 0 <= i < |n.up| - 1 ==> n.up[1..][i] == n.up[i + 1];
    assert forall i :: 0 <= i < |n.down| - 1 ==> n.down[1..][i] == n.down[i + 1];
  }

  /** Handing the oldest message of a direction over, when the base has let it go. */
  lemma HandOverKeepsInv(n: Net, up: bool, r: Net)
    requires if up then n.up != [] else n.down != []
    requires F.Inv(n.base) && !n.lost && Directed(n) && Aligned(Popped(n, up)) && forall l: Lane :: P.Inv(LinkOf(n, l))
    requires Deliver(Popped(n, up), Head(n, up)) == Some(r)
    ensures Inv(r)
  {
    TailDirected(n, up);
    DeliverKeepsItems(n, up, r);
    DeliverKeepsLinks(n, up, r);
  }

  lemma ServerRoutesKeepInv(n: Net, r: Net)
    requires Inv(n) && DoServerRoutes(n) == Some(r)
    ensures Inv(r)
  {
    var b := F.Step(n.base, F.ServerRoutes).value;
    BaseUp(n.base, b);
    var n' := n.(base := b);
    SameLinks(n, n');
    if n.base.up[0].ClientStream? {
      Shifted((n.base.up[0].port, n.base.up[0].conn), UpConns(b.up), n.up);
      HandOverKeepsInv(n', true, r);
    } else {
      assert [] + UpConns(b.up) == UpConns(b.up);
    }
  }

  /** The client's receiver loop fails on early data, which leaves all streams as they were, or keeps the invariant. */
  lemma ClientRoutesKeepInv(n: Net, r: Net)
    requires Inv(n) && DoClientRoutes(n) == Some(r)
    ensures Inv(r) || (r == n.(base := r.base) && r.base.fault.ClientReceiverFailed?)
  {
    var b := F.Step(n.base, F.ClientRoutes).value;
    BaseDown(n.base, b);
    var n' := n.(base := b);
    SameLinks(n, n');
    if b.fault.NoFault? {
      if n.base.down[0].ServerStream? {
        Shifted((n.base.down[0].port, n.base.down[0].conn), DownConns(b.down), n.down);
        HandOverKeepsInv(n', false, r);
      } else {
        assert [] + DownConns(b.down) == DownConns(b.down);
      }
    }
  }

  /**
   * What holds in every run: no sink is missed, only early data can make a receiver loop fail, and every stream is
   * sound.
   */
  ghost predicate Sound(n: Net) {
    && !n.lost && (n.base.fault.NoFault? || n.base.fault.ClientReceiverFailed?)
    && forall l: Lane :: P.Inv(LinkOf(n, l))
  }

  lemma StepKeepsInv(n: Net, e: Event, r: Net)
    requires Inv(n) && Step(n, e) == Some(r)
    ensures Inv(r) || (Sound(r) && r.base.fault.ClientReceiverFailed?)
  {
    match e {
      case AtPort(i, ev) => AtPortKeepsInv(n, i, ev, r.base);
      case TaskStep(l, ev) => TaskKeepsInv(n, l, ev, r);
      case ServerRoutes => ServerRoutesKeepInv(n, r);
      case ClientRoutes =>
        ClientRoutesKeepInv(n, r);
        if !Inv(r) { SameLinks(n, r); }
    }
  }

  lemma Stopped(n: Net, es: seq<Event>)
    requires n.base.fault.ClientReceiverFailed? && Run(n, es).Some?
    ensures Run(n, es) == Some(n)
  {
  }

  lemma {:induction false} RunIsSound(n: Net, es: seq<Event>)
    requires Inv(n) && Run(n, es).Some?
    ensures Sound(Run(n, es).value)
    decreases |es|
  {
    if es == [] {
    } else {
      var r := Step(n, es[0]).value;
      StepKeepsInv(n, es[0], r);
      if Inv(r) {
        RunIsSound(r, es[1..]);
      } else {
        Stopped(r, es[1..]);
      }
    }
  }

  // ---------------------------------------------------------------- theorems

  /**
   * For any number of ports and connections and in every run: no router assertion fires, the server's receiver loop
   * never fails, and the client's fails at most on data that is early; neither ever meets a sink that has ended.
   */
  lemma ServerNeverFails(ports: nat, es: seq<Event>)
    requires Run(Init(ports), es).Some?
    ensures var r := Run(Init(ports), es).value;
      !r.lost && (r.base.fault.NoFault? || r.base.fault.ClientReceiverFailed?)
    ensures var r := Run(Init(ports), es).value;
      r.base.fault.NoFault? ==>
        && (r.up != [] && r.up[0].OfSource? ==> !At(r, r.up[0].lane).ends.snk.phase.SinkDone?)
        && (r.down != [] && r.down[0].OfSource? ==> !At(r, r.down[0].lane).ends.snk.phase.SinkDone?)
  {
    InitHasInv(ports);
    RunIsSound(Init(ports), es);
    var r := Run(Init(ports), es).value;
    if r.base.fault.NoFault? {
      RunKeepsInv(Init(ports), es);
      if r.up != [] && r.up[0].OfSource? { HeadFindsSink(r, true); }
      if r.down != [] && r.down[0].OfSource? { HeadFindsSink(r, false); }
    }
  }

  lemma HeadFindsSink(n: Net, up: bool)
    requires Inv(n) && if up then n.up != [] else n.down != []
    requires Head(n, up).OfSource?
    ensures !At(n, Head(n, up).lane).ends.snk.phase.SinkDone?
  {
    TailDirected(n, up);
    assert P.Inv(LinkOf(n, Head(n, up).lane));
    SinkIsThere(n, up);
  }

  lemma {:induction false} RunKeepsInv(n: Net, es: seq<Event>)
    requires Inv(n) && Run(n, es).Some? && Run(n, es).value.base.fault.NoFault?
    ensures Inv(Run(n, es).value)
    decreases |es|
  {
    if es == [] {
    } else {
      var r := Step(n, es[0]).value;
      StepKeepsInv(n, es[0], r);
      if Inv(r) {
        RunKeepsInv(r, es[1..]);
      } else {
        Stopped(r, es[1..]);
      }
    }
  }

  /**
   * Both streams of every forwarded connection keep the promises of the stdio streams: the source never panics, the
   * sink writes a prefix of what was read, at most one packet behind while it is open, and all of it once it stops
   * unclosed.
   */
  lemma ForwardedBytes(ports: nat, es: seq<Event>, l: Lane)
    requires Run(Init(ports), es).Some?
    ensures var e := At(Run(Init(ports), es).value, l).ends;
      && !e.src.Panicked?
      && e.written <= e.read
      && (!e.snk.closed ==> |e.read| <= |e.written| + MAX_STREAM_PACKET_SIZE)
      && (!e.snk.closed && P.Stopping(e.snk.phase) ==> e.written == e.read)
  {
    InitHasInv(ports);
    RunIsSound(Init(ports), es);
    var r := Run(Init(ports), es).value;
    assert P.Inv(LinkOf(r, l));
    P.BytesMeaning(LinkOf(r, l));
  }
}
