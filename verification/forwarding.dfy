/**
 * Local port forwarding: the listener tasks of the client, the connecter tasks of the server and the
 * connect handshake between them, for any number of ports and connections.
 */
module Forwarding {
  import opened Protocol

  // ------------------------------------------------------------------- state

  datatype ListenerAction = Connect(conn: nat) | ListenerClosed

  /** Where `listener::Task::handle` is suspended. */
  datatype Listener =
    | Accepting(next: nat)         // in `accept`, with the id of the next connection
    | SendingConnect(conn: nat)
    | AwaitingResponse(conn: nat)
    | SendingClosed
    | ListenerDone

  /** A connect task spawned by the connecter. */
  datatype ConnectTask = Connecting | Responding(ok: bool) | Responded(ok: bool)

  datatype Response = Response(conn: nat, ok: bool)

  /** Everything both sides hold for one forwarded port. */
  datatype Port = Port(
    listener: Listener,
    waiters: set<nat>,             // keys of the client's `listener_tx_map`
    slot: seq<bool>,               // the response channel of the waiting connection (capacity one)
    clientStreams: set<nat>,       // connections whose source and sink the client has registered
    running: bool,                 // the connecter task is in its receive loop
    inbox: seq<ListenerAction>,    // its channel (capacity 128)
    tasks: map<nat, ConnectTask>,
    serverStreams: set<nat>)       // connections whose source and sink the server has registered

  const CONNECTER_CAPACITY := 128

  const NEW_PORT := Port(Accepting(0), {}, [], {}, true, [], map[], {})

  datatype PortEvent =
    | Accept | AcceptFailed | TaskEnd | SendConnect | TakeResponse | SendListenerClosed
    | ConnecterRecv | Connected(conn: nat, ok: bool) | Respond(conn: nat)

  /** The effect of a port event: the port, the actions and responses it sends, and whether every router assert held. */
  datatype PortMove = PortMove(port: Port, up: seq<ListenerAction>, down: seq<Response>, asserts: bool)

  /** One run of a task of a port from an await point to the next; None when it cannot run. */
  function PortStep(p: Port, e: PortEvent): Option<PortMove> {
    match e
    case Accept =>
      if !p.listener.Accepting? then None
      else // insert_listener_tx
        var c := p.listener.next;
        var q := p.(listener := SendingConnect(c), waiters := p.waiters + {c}, slot := []);
        Some(PortMove(q, [], [], c !in p.waiters))
    case AcceptFailed =>
      if p.listener.Accepting? then Some(PortMove(p.(listener := Accepting(p.listener.next + 1)), [], [], true))
      else None
    case TaskEnd =>
      if p.listener.Accepting? then Some(PortMove(p.(listener := SendingClosed), [], [], true)) else None
    case SendConnect =>
      if p.listener.SendingConnect? then
        Some(PortMove(p.(listener := AwaitingResponse(p.listener.conn)), [Connect(p.listener.conn)], [], true))
      else None
    case TakeResponse =>
      if !p.listener.AwaitingResponse? || p.slot == [] then None
      else // remove_listener_tx, then insert_source_tx and insert_sink_tx on success
        var c := p.listener.conn;
        Some(PortMove(
          p.(listener := Accepting(c + 1), waiters := p.waiters - {c}, slot := [],
             clientStreams := if p.slot[0] then p.clientStreams + {c} else p.clientStreams),
          [], [], c in p.waiters && (p.slot[0] ==> c !in p.clientStreams)))
    case SendListenerClosed =>
      if p.listener.SendingClosed? then Some(PortMove(p.(listener := ListenerDone), [ListenerClosed], [], true))
      else None
    case ConnecterRecv =>
      if !p.running || p.inbox == [] then None
      else if p.inbox[0].ListenerClosed? then Some(PortMove(p.(running := false, inbox := []), [], [], true))
      else
        var c := p.inbox[0].conn;
        Some(PortMove(p.(inbox := p.inbox[1..], tasks := p.tasks[c := Connecting]), [], [], c !in p.tasks))
    case Connected(c, ok) =>
      if c in p.tasks && p.tasks[c].Connecting? then
        Some(PortMove(p.(tasks := p.tasks[c := Responding(ok)]), [], [], true))
      else None
    case Respond(c) =>
      if c in p.tasks && p.tasks[c].Responding? then // insert_source_tx and insert_sink_tx on success
        var ok := p.tasks[c].ok;
        Some(PortMove(
          p.(tasks := p.tasks[c := Responded(ok)],
             serverStreams := if ok then p.serverStreams + {c} else p.serverStreams),
          [], [Response(c, ok)], ok ==> c !in p.serverStreams))
      else None
  }

  /** A message from client to server, or from server to client, about port `port`. */
  datatype Up = Action(port: nat, action: ListenerAction) | ClientStream(port: nat, conn: nat)
  datatype Down = Answer(port: nat, response: Response) | ServerStream(port: nat, conn: nat)

  datatype Fault = NoFault | AssertFailed | ServerReceiverFailed | ClientReceiverFailed

  /** All ports, and the two directions of the connection with everything under way in them. */
  datatype Net = Net(ports: seq<Port>, up: seq<Up>, down: seq<Down>, fault: Fault)

  datatype Event =
    | AtPort(port: nat, ev: PortEvent)
    | ClientSends(port: nat, conn: nat)   // a registered forwarding task of the client sends a message
    | ServerSends(port: nat, conn: nat)
    | ServerRoutes                        // the server's receiver loop handles the oldest message
    | ClientRoutes

  function Actions(p: nat, s: seq<ListenerAction>): seq<Up> {
    if |s| == 0 then [] else [Action(p, s[0])]
  }

  function Answers(p: nat, s: seq<Response>): seq<Down> {
    if |s| == 0 then [] else [Answer(p, s[0])]
  }

  function ServerHandles(n: Net, m: Up): Option<Net> {
    if m.port >= |n.ports| then Some(n.(fault := ServerReceiverFailed)) else
    var p := n.ports[m.port];
    match m
    case Action(_, a) =>
      if !p.running then Some(n.(fault := ServerReceiverFailed))
      else if |p.inbox| >= CONNECTER_CAPACITY then None
      else Some(n.(ports := n.ports[m.port := p.(inbox := p.inbox + [a])]))
    case ClientStream(_, c) =>
      if c in p.serverStreams then Some(n) else Some(n.(fault := ServerReceiverFailed))
  }

  /** The task holding the receiving end of connection `c`'s response channel is still there. */
  predicate Waits(l: Listener, c: nat) { l == SendingConnect(c) || l == AwaitingResponse(c) }

  function ClientHandles(n: Net, m: Down): Option<Net> {
    if m.port >= |n.ports| then Some(n.(fault := ClientReceiverFailed)) else
    var p := n.ports[m.port];
    match m
    case Answer(_, r) =>
      if r.conn !in p.waiters || !Waits(p.listener, r.conn) then Some(n.(fault := ClientReceiverFailed))
      else if |p.slot| >= 1 then None
      else Some(n.(ports := n.ports[m.port := p.(slot := p.slot + [r.ok])]))
    case ServerStream(_, c) =>
      if c in p.clientStreams then Some(n) else Some(n.(fault := ClientReceiverFailed))
  }

  function Step(n: Net, e: Event): Option<Net> {
    if !n.fault.NoFault? then None else
    match e
    case AtPort(i, ev) =>
      if i >= |n.ports| then None else (
        match PortStep(n.ports[i], ev)
        case None => None
        case Some(m) =>
          Some(n.(ports := n.ports[i := m.port], up := n.up + Actions(i, m.up), down := n.down + Answers(i, m.down),
                  fault := if m.asserts then NoFault else AssertFailed)))
    case ClientSends(i, c) =>
      if i < |n.ports| && c in n.ports[i].clientStreams then Some(n.(up := n.up + [ClientStream(i, c)])) else None
    case ServerSends(i, c) =>
      if i < |n.ports| && c in n.ports[i].serverStreams then Some(n.(down := n.down + [ServerStream(i, c)])) else None
    case ServerRoutes => if n.up == [] then None else ServerHandles(n.(up := n.up[1..]), n.up[0])
    case ClientRoutes => if n.down == [] then None else ClientHandles(n.(down := n.down[1..]), n.down[0])
  }

  function Run(n: Net, es: seq<Event>): Option<Net>
    decreases |es|
  {
    if es == [] then Some(n)
    else match Step(n, es[0])
      case None => None
      case Some(r) => Run(r, es[1..])
  }

  /** The router's assertions: an id that is registered is new, and one that is removed is there. */
  lemma AssertsExactly(p: Port, e: PortEvent)
    requires PortStep(p, e).Some?
    ensures PortStep(p, e).value.asserts <==>
      match e
      case Accept => p.listener.next !in p.waiters
      case TakeResponse => p.listener.conn in p.waiters && (p.slot[0] ==> p.listener.conn !in p.clientStreams)
      case ConnecterRecv => p.inbox[0].Connect? ==> p.inbox[0].conn !in p.tasks
      case Respond(c) => p.tasks[c].ok ==> c !in p.serverStreams
      case _ => true
  {
  }

  /** A receiver loop fails exactly where it finds no entry for its oldest message, or one whose task has ended. */
  lemma FaultsExactly(n: Net, e: Event, r: Net)
    requires Step(n, e) == Some(r)
    ensures r.fault.ServerReceiverFailed? <==>
      && e.ServerRoutes?
      && (n.up[0].port < |n.ports| ==>
           var p := n.ports[n.up[0].port];
           if n.up[0].Action? then !p.running else n.up[0].conn !in p.serverStreams)
    ensures r.fault.ClientReceiverFailed? <==>
      && e.ClientRoutes?
      && (n.down[0].port < |n.ports| ==>
           var p := n.ports[n.down[0].port];
           if n.down[0].ServerStream? then n.down[0].conn !in p.clientStreams
           else n.down[0].response.conn !in p.waiters || !Waits(p.listener, n.down[0].response.conn))
    ensures r.fault.AssertFailed? <==> e.AtPort? && !PortStep(n.ports[e.port], e.ev).value.asserts
  {
  }

  function Init(ports: nat): Net { Net(seq(ports, i => NEW_PORT), [], [], NoFault) }

  // ------------------------------------------------ one port's view of the net

  function ActionsOf(up: seq<Up>, i: nat): seq<ListenerAction> {
    if up == [] then []
    else (if up[0].Action? && up[0].port == i then [up[0].action] else []) + ActionsOf(up[1..], i)
  }

  function ResponsesOf(down: seq<Down>, i: nat): seq<Response> {
    if down == [] then []
    else (if down[0].Answer? && down[0].port == i then [down[0].response] else []) + ResponsesOf(down[1..], i)
  }

  lemma {:induction false} ActionsConcat(a: seq<Up>, b: seq<Up>, i: nat)
    ensures ActionsOf(a + b, i) == ActionsOf(a, i) + ActionsOf(b, i)
  {
    if a == [] {
      assert a + b == b;
    } else {
      assert (a + b)[1..] == a[1..] + b;
      ActionsConcat(a[1..], b, i);
    }
  }

  lemma {:induction false} ResponsesConcat(a: seq<Down>, b: seq<Down>, i: nat)
    ensures ResponsesOf(a + b, i) == ResponsesOf(a, i) + ResponsesOf(b, i)
  {
    if a == [] {
      assert a + b == b;
    } else {
      assert (a + b)[1..] == a[1..] + b;
      ResponsesConcat(a[1..], b, i);
    }
  }

  // --------------------------------------------------------------- invariant

  predicate Active(t: ConnectTask) { !t.Responded? }

  ghost predicate NoneActive(p: Port) { forall c :: c in p.tasks ==> !Active(p.tasks[c]) }

  /** The connection `c` is asked for, being connected, or answered: exactly one of the three. */
  ghost predicate InProgress(p: Port, asks: seq<ListenerAction>, answers: seq<Response>, c: nat) {
    var asking := p.inbox + asks;
    || (asking == [Connect(c)] && c !in p.tasks && NoneActive(p) && p.slot == [] && answers == [])
    || (asking == [] && c in p.tasks && Active(p.tasks[c]) && p.slot == [] && answers == []
        && (forall d :: d in p.tasks && d != c ==> !Active(p.tasks[d])))
    || (asking == [] && c in p.tasks && p.tasks[c].Responded? && NoneActive(p)
        && ((p.slot == [] && answers == [Response(c, p.tasks[c].ok)])
            || (p.slot == [p.tasks[c].ok] && answers == [])))
  }

  ghost predicate Quiet(p: Port, asks: seq<ListenerAction>, answers: seq<Response>) {
    p.inbox == [] && asks == [] && NoneActive(p) && p.slot == [] && answers == []
  }

  /** No id from `c` on has been used yet. */
  ghost predicate Unused(p: Port, c: nat) {
    forall d :: d >= c ==> d !in p.tasks && d !in p.clientStreams && d !in p.serverStreams
  }

  ghost predicate PortInv(p: Port, asks: seq<ListenerAction>, answers: seq<Response>) {
    && (match p.listener
        case Accepting(c) => Quiet(p, asks, answers) && p.waiters == {} && Unused(p, c) && p.running
        case SendingConnect(c) => Quiet(p, asks, answers) && p.waiters == {c} && Unused(p, c) && p.running
        case AwaitingResponse(c) =>
          InProgress(p, asks, answers, c) && p.waiters == {c} && Unused(p, c + 1) && c !in p.clientStreams && p.running
        case SendingClosed => Quiet(p, asks, answers) && p.waiters == {} && p.running
        case ListenerDone =>
          NoneActive(p) && p.slot == [] && answers == [] && p.waiters == {}
          && (if p.running then p.inbox + asks == [ListenerClosed] else p.inbox + asks == []))
    && (forall c :: c in p.serverStreams <==> c in p.tasks && p.tasks[c] == Responded(true))
    && p.clientStreams <= p.serverStreams
    && (p.serverStreams - p.clientStreams <=
        if p.listener.AwaitingResponse? then {p.listener.conn} else {})
  }

  /** A port event keeps its port's invariant and trips no router assert. */
  lemma PortStepKeepsInv(p: Port, asks: seq<ListenerAction>, answers: seq<Response>, e: PortEvent)
    requires PortInv(p, asks, answers) && PortStep(p, e).Some?
    ensures var m := PortStep(p, e).value; m.asserts && PortInv(m.port, asks + m.up, answers + m.down)
  {
    if e.ConnecterRecv? || e.Connected? || e.Respond? {
      ServerStepKeepsInv(p, asks, answers, e);
    } else {
      ListenerStepKeepsInv(p, asks, answers, e);
    }
  }

  lemma ListenerStepKeepsInv(p: Port, asks: seq<ListenerAction>, answers: seq<Response>, e: PortEvent)
    requires PortInv(p, asks, answers) && PortStep(p, e).Some?
    requires !e.ConnecterRecv? && !e.Connected? && !e.Respond?
    ensures var m := PortStep(p, e).value; m.asserts && PortInv(m.port, asks + m.up, answers + m.down)
  {
    match e {
      case Accept =>
      case AcceptFailed =>
      case TaskEnd =>
      case SendConnect =>
      case TakeResponse =>
      case SendListenerClosed =>
    }
  }

  lemma ServerStepKeepsInv(p: Port, asks: seq<ListenerAction>, answers: seq<Response>, e: PortEvent)
    requires PortInv(p, asks, answers) && PortStep(p, e).Some?
    requires e.ConnecterRecv? || e.Connected? || e.Respond?
    ensures var m := PortStep(p, e).value; m.asserts && PortInv(m.port, asks + m.up, answers + m.down)
  {
    match e {
      case ConnecterRecv =>
        assert (p.inbox + asks)[0] == p.inbox[0];
        assert p.inbox == [p.inbox[0]] && asks == [];
      case Connected(_, _) =>
      case Respond(_) =>
    }
  }

  /** What the messages of registered forwarding tasks may assume. */
  predicate StreamsInv(n: Net) {
    && (forall k :: 0 <= k < |n.up| ==>
         n.up[k].port < |n.ports| && (n.up[k].ClientStream? ==> n.up[k].conn in n.ports[n.up[k].port].clientStreams))
    && (forall k :: 0 <= k < |n.down| ==>
         && n.down[k].port < |n.ports|
         && (n.down[k].ServerStream? ==> n.down[k].conn in n.ports[n.down[k].port].serverStreams))
  }

  predicate SameConnection(a: Down, m: Down) {
    a.Answer? && m.ServerStream? && a.port == m.port && a.response.conn == m.conn
  }

  /** A connection's response is ahead of everything its server tasks send. */
  predicate AnswerFirst(down: seq<Down>) {
    forall j, k | 0 <= j < |down| && 0 <= k < |down| && SameConnection(down[j], down[k]) :: j < k
  }

  ghost predicate Inv(n: Net) {
    && n.fault.NoFault?
    && (forall i :: 0 <= i < |n.ports| ==> PortInv(n.ports[i], ActionsOf(n.up, i), ResponsesOf(n.down, i)))
    && StreamsInv(n)
    && AnswerFirst(n.down)
  }

  lemma InitHasInv(ports: nat)
    ensures Inv(Init(ports))
  {
  }

  lemma ActionsView(i: nat, up: seq<ListenerAction>, j: nat)
    requires |up| <= 1
    ensures ActionsOf(Actions(i, up), j) == if j == i then up else []
  {
    if |up| == 1 {
      assert up == [up[0]];
      assert Actions(i, up)[1..] == [];
    }
  }

  lemma ResponsesView(i: nat, down: seq<Response>, j: nat)
    requires |down| <= 1
    ensures ResponsesOf(Answers(i, down), j) == if j == i then down else []
  {
    if |down| == 1 {
      assert down == [down[0]];
      assert Answers(i, down)[1..] == [];
    }
  }

  /** What a port event adds to each port's view. */
  lemma PushedViews(n: Net, i: nat, m: PortMove, j: nat)
    requires |m.up| <= 1 && |m.down| <= 1
    ensures ActionsOf(n.up + Actions(i, m.up), j) == ActionsOf(n.up, j) + (if j == i then m.up else [])
    ensures ResponsesOf(n.down + Answers(i, m.down), j) == ResponsesOf(n.down, j) + (if j == i then m.down else [])
  {
    ActionsConcat(n.up, Actions(i, m.up), j);
    ResponsesConcat(n.down, Answers(i, m.down), j);
    ActionsView(i, m.up, j);
    ResponsesView(i, m.down, j);
  }

  lemma PortsKeepInv(n: Net, i: nat, ev: PortEvent, j: nat)
    requires Inv(n) && i < |n.ports| && j < |n.ports| && PortStep(n.ports[i], ev).Some?
    ensures var m := PortStep(n.ports[i], ev).value;
      && m.asserts
      && PortInv(if j == i then m.port else n.ports[j],
                 ActionsOf(n.up + Actions(i, m.up), j), ResponsesOf(n.down + Answers(i, m.down), j))
  {
    var m := PortStep(n.ports[i], ev).value;
    PortSendsOne(n.ports[i], ev);
    PushedViews(n, i, m, j);
    assert PortInv(n.ports[j], ActionsOf(n.up, j), ResponsesOf(n.down, j));
    PortStepKeepsInv(n.ports[i], ActionsOf(n.up, i), ResponsesOf(n.down, i), ev);
    assert j != i ==> ActionsOf(n.up, j) + [] == ActionsOf(n.up, j);
    assert j != i ==> ResponsesOf(n.down, j) + [] == ResponsesOf(n.down, j);
  }

  lemma PortSendsOne(p: Port, ev: PortEvent)
    requires PortStep(p, ev).Some?
    ensures var m := PortStep(p, ev).value;
      && |m.up| <= 1 && |m.down| <= 1
      && p.clientStreams <= m.port.clientStreams && p.serverStreams <= m.port.serverStreams
      && (m.down != [] ==>
           ev.Respond? && m.down[0].conn == ev.conn && ev.conn in p.tasks && p.tasks[ev.conn].Responding?)
  {
  }

  lemma AtPortStreams(n: Net, i: nat, ev: PortEvent, r: Net)
    requires Inv(n) && Step(n, AtPort(i, ev)) == Some(r)
    ensures StreamsInv(r) && AnswerFirst(r.down)
  {
    var m := PortStep(n.ports[i], ev).value;
    assert PortInv(n.ports[i], ActionsOf(n.up, i), ResponsesOf(n.down, i));
    PortSendsOne(n.ports[i], ev);
    AtPortAnswers(n, i, ev, m);
  }

  /** A connection is answered before its server tasks exist. */
  lemma AtPortAnswers(n: Net, i: nat, ev: PortEvent, m: PortMove)
    requires Inv(n) && i < |n.ports| && PortStep(n.ports[i], ev) == Some(m)
    ensures AnswerFirst(n.down + Answers(i, m.down))
  {
    assert PortInv(n.ports[i], ActionsOf(n.up, i), ResponsesOf(n.down, i));
  }

  lemma AtPortKeepsInv(n: Net, i: nat, ev: PortEvent, r: Net)
    requires Inv(n) && Step(n, AtPort(i, ev)) == Some(r)
    ensures Inv(r)
  {
    PortsKeepInv(n, i, ev, i);
    forall j | 0 <= j < |r.ports| ensures PortInv(r.ports[j], ActionsOf(r.up, j), ResponsesOf(r.down, j)) {
      PortsKeepInv(n, i, ev, j);
    }
    AtPortStreams(n, i, ev, r);
  }

  lemma ClientSendKeepsInv(n: Net, i: nat, c: nat, r: Net)
    requires Inv(n) && Step(n, ClientSends(i, c)) == Some(r)
    ensures Inv(r)
  {
    forall j | 0 <= j < |r.ports| ensures PortInv(r.ports[j], ActionsOf(r.up, j), ResponsesOf(r.down, j)) {
      ActionsConcat(n.up, [ClientStream(i, c)], j);
      assert ActionsOf([ClientStream(i, c)], j) == [];
      assert ActionsOf(n.up, j) + [] == ActionsOf(n.up, j);
    }
  }

  lemma ServerSendKeepsInv(n: Net, i: nat, c: nat, r: Net)
    requires Inv(n) && Step(n, ServerSends(i, c)) == Some(r)
    ensures Inv(r)
  {
    ServerSendStreams(n, i, c);
    forall j | 0 <= j < |r.ports| ensures PortInv(r.ports[j], ActionsOf(r.up, j), ResponsesOf(r.down, j)) {
      ServerSendUnseen(n.down, i, c, j);
      assert PortInv(n.ports[j], ActionsOf(n.up, j), ResponsesOf(n.down, j));
    }
  }

  lemma ServerSendUnseen(down: seq<Down>, i: nat, c: nat, j: nat)
    ensures ResponsesOf(down + [ServerStream(i, c)], j) == ResponsesOf(down, j)
  {
    ResponsesConcat(down, [ServerStream(i, c)], j);
    assert ResponsesOf([ServerStream(i, c)], j) == [];
    assert ResponsesOf(down, j) + [] == ResponsesOf(down, j);
  }

  lemma ServerSendStreams(n: Net, i: nat, c: nat)
    requires StreamsInv(n) && AnswerFirst(n.down) && i < |n.ports| && c in n.ports[i].serverStreams
    ensures var down := n.down + [ServerStream(i, c)]; StreamsInv(n.(down := down)) && AnswerFirst(down)
  {
  }

  lemma ReceiveAction(p: Port, asks: seq<ListenerAction>, answers: seq<Response>)
    requires PortInv(p, asks, answers) && asks != []
    ensures p.running && p.inbox == [] && PortInv(p.(inbox := p.inbox + [asks[0]]), asks[1..], answers)
  {
    assert |p.inbox + asks| == 1;
    assert asks == [asks[0]];
    assert (p.inbox + [asks[0]]) + asks[1..] == p.inbox + asks;
  }

  lemma ReceiveAnswer(p: Port, asks: seq<ListenerAction>, answers: seq<Response>)
    requires PortInv(p, asks, answers) && answers != []
    ensures p.listener == AwaitingResponse(answers[0].conn) && answers[0].conn in p.waiters && p.slot == []
    ensures PortInv(p.(slot := p.slot + [answers[0].ok]), asks, answers[1..])
  {
  }

  lemma TailStreams(n: Net)
    requires StreamsInv(n)
    ensures n.up != [] ==> StreamsInv(n.(up := n.up[1..]))
    ensures n.down != [] ==> StreamsInv(n.(down := n.down[1..]))
  {
    if n.up != [] { assert forall k :: 0 <= k < |n.up| - 1 ==> n.up[1..][k] == n.up[k + 1]; }
    if n.down != [] { assert forall k :: 0 <= k < |n.down| - 1 ==> n.down[1..][k] == n.down[k + 1]; }
  }

  lemma TailAnswerFirst(down: seq<Down>)
    requires AnswerFirst(down) && down != []
    ensures AnswerFirst(down[1..])
  {
    var t := down[1..];
    forall j, k | 0 <= j < |t| && 0 <= k < |t| && SameConnection(t[j], t[k]) ensures j < k {
      assert t[j] == down[j + 1] && t[k] == down[k + 1];
    }
  }

  predicate SameStreams(p: Port, q: Port) { q.clientStreams == p.clientStreams && q.serverStreams == p.serverStreams }

  lemma PortChangeKeepsStreams(n: Net, i: nat, q: Port)
    requires StreamsInv(n) && i < |n.ports| && SameStreams(n.ports[i], q)
    ensures StreamsInv(n.(ports := n.ports[i := q]))
  {
  }

  lemma OldestAction(up: seq<Up>, i: nat)
    requires up != []
    ensures ActionsOf(up, i)
         == (if up[0].Action? && up[0].port == i then [up[0].action] else []) + ActionsOf(up[1..], i)
  {
  }

  /** An action reaches its connecter, which is there and has room. */
  lemma ActionRouted(n: Net, r: Net)
    requires Inv(n) && Step(n, ServerRoutes) == Some(r) && n.up[0].Action?
    ensures Inv(r)
  {
    var m, i := n.up[0], n.up[0].port;
    var p := n.ports[i];
    assert PortInv(p, ActionsOf(n.up, i), ResponsesOf(n.down, i));
    OldestAction(n.up, i);
    ReceiveAction(p, ActionsOf(n.up, i), ResponsesOf(n.down, i));
    var q := p.(inbox := p.inbox + [m.action]);
    assert r == n.(up := n.up[1..], ports := n.ports[i := q]);
    assert StreamsInv(r) by {
      TailStreams(n);
      PortChangeKeepsStreams(n.(up := n.up[1..]), i, q);
    }
    forall j | 0 <= j < |r.ports| ensures PortInv(r.ports[j], ActionsOf(r.up, j), ResponsesOf(r.down, j)) {
      assert PortInv(n.ports[j], ActionsOf(n.up, j), ResponsesOf(n.down, j));
      if j != i { ActionUnseen(n.up, j); }
    }
  }

  lemma ActionUnseen(up: seq<Up>, j: nat)
    requires up != [] && !(up[0].Action? && up[0].port == j)
    ensures ActionsOf(up[1..], j) == ActionsOf(up, j)
  {
  }

  /** A stream message finds its connection registered. */
  lemma StreamRouted(n: Net, r: Net)
    requires Inv(n) && Step(n, ServerRoutes) == Some(r) && n.up[0].ClientStream?
    ensures Inv(r)
  {
    var m, i := n.up[0], n.up[0].port;
    assert PortInv(n.ports[i], ActionsOf(n.up, i), ResponsesOf(n.down, i));
    assert m.conn in n.ports[i].clientStreams && m.conn in n.ports[i].serverStreams;
    assert r == n.(up := n.up[1..]);
    TailStreams(n);
    forall j | 0 <= j < |r.ports| ensures PortInv(r.ports[j], ActionsOf(r.up, j), ResponsesOf(r.down, j)) {
      assert PortInv(n.ports[j], ActionsOf(n.up, j), ResponsesOf(n.down, j));
      ActionUnseen(n.up, j);
    }
  }

  /** The server's receiver loop never fails: connecters are there, and streams are registered before they are used. */
  lemma ServerRouteKeepsInv(n: Net, r: Net)
    requires Inv(n) && Step(n, ServerRoutes) == Some(r)
    ensures Inv(r)
  {
    if n.up[0].Action? { ActionRouted(n, r); } else { StreamRouted(n, r); }
  }

  /** The client's receiver loop finds the waiter of every response. */
  lemma ClientAnswerKeepsInv(n: Net, r: Net)
    requires Inv(n) && Step(n, ClientRoutes) == Some(r) && n.down[0].Answer?
    ensures Inv(r)
  {
    var m := n.down[0];
    var i := m.port;
    var p := n.ports[i];
    var asks, answers := ActionsOf(n.up, i), ResponsesOf(n.down, i);
    TailStreams(n);
    TailAnswerFirst(n.down);
    assert PortInv(p, asks, answers);
    assert answers == [m.response] + ResponsesOf(n.down[1..], i);
    ReceiveAnswer(p, asks, answers);
    var q := p.(slot := p.slot + [m.response.ok]);
    PortChangeKeepsStreams(n.(down := n.down[1..]), i, q);
    assert r == n.(down := n.down[1..], ports := n.ports[i := q]);
    forall j | 0 <= j < |r.ports| ensures PortInv(r.ports[j], ActionsOf(r.up, j), ResponsesOf(r.down, j)) {
      assert PortInv(n.ports[j], ActionsOf(n.up, j), ResponsesOf(n.down, j));
    }
  }

  lemma ClientStreamKeepsInv(n: Net, r: Net)
    requires Inv(n) && Step(n, ClientRoutes) == Some(r) && n.down[0].ServerStream?
    ensures if n.down[0].conn in n.ports[n.down[0].port].clientStreams then Inv(r) else r.fault.ClientReceiverFailed?
  {
    TailStreams(n);
    TailAnswerFirst(n.down);
    if n.down[0].conn in n.ports[n.down[0].port].clientStreams {
      assert r == n.(down := n.down[1..]);
      forall j | 0 <= j < |r.ports| ensures PortInv(r.ports[j], ActionsOf(r.up, j), ResponsesOf(r.down, j)) {
        assert PortInv(n.ports[j], ActionsOf(n.up, j), ResponsesOf(n.down, j));
      }
    }
  }

  /**
   * Every step keeps the invariant, except the client's receiver loop meeting a stream its client has not registered
   * yet.
   */
  lemma StepKeepsInv(n: Net, e: Event, r: Net)
    requires Inv(n) && Step(n, e) == Some(r)
    ensures Inv(r) || (e.ClientRoutes? && r.fault.ClientReceiverFailed?)
  {
    match e {
      case AtPort(i, ev) => AtPortKeepsInv(n, i, ev, r);
      case ClientSends(i, c) => ClientSendKeepsInv(n, i, c, r);
      case ServerSends(i, c) => ServerSendKeepsInv(n, i, c, r);
      case ServerRoutes => ServerRouteKeepsInv(n, r);
      case ClientRoutes => if n.down[0].Answer? { ClientAnswerKeepsInv(n, r); } else { ClientStreamKeepsInv(n, r); }
    }
  }

  lemma {:induction false} RunKeepsInv(n: Net, es: seq<Event>)
    requires Inv(n) && Run(n, es).Some?
    ensures Inv(Run(n, es).value) || Run(n, es).value.fault.ClientReceiverFailed?
    decreases |es|
  {
    if es == [] {
    } else {
      var r := Step(n, es[0]).value;
      StepKeepsInv(n, es[0], r);
      if Inv(r) { RunKeepsInv(r, es[1..]); }
    }
  }

  // ---------------------------------------------------------------- theorems

  /** For any number of ports and connections, no router assert fires and the server's receiver loop never fails. */
  lemma AssertsNeverFire(ports: nat, es: seq<Event>)
    requires Run(Init(ports), es).Some?
    ensures var f := Run(Init(ports), es).value.fault; f.NoFault? || f.ClientReceiverFailed?
  {
    InitHasInv(ports);
    RunKeepsInv(Init(ports), es);
  }

  /** Connect tasks of a port that have not answered yet. */
  function Busy(p: Port): set<nat> { set c | c in p.tasks && Active(p.tasks[c]) }

  /**
   * The requests under way, the busy connect tasks and the answers under way or delivered are together exactly the one
   * connection the listener waits for; the answer is that connection's and says what its connect task found.
   */
  ghost predicate OneOutstanding(p: Port, asks: seq<ListenerAction>, answers: seq<Response>) {
    if p.listener.AwaitingResponse? then
      var c := p.listener.conn;
      || (asks == [Connect(c)] && Busy(p) == {} && answers == [] && p.slot == [])
      || (asks == [] && Busy(p) == {c} && answers == [] && p.slot == [])
      || (asks == [] && Busy(p) == {} && c in p.tasks && p.tasks[c].Responded?
          && ((answers == [Response(c, p.tasks[c].ok)] && p.slot == [])
              || (answers == [] && p.slot == [p.tasks[c].ok])))
    else
      && Busy(p) == {} && answers == [] && p.slot == []
      && (asks == [] || (asks == [ListenerClosed] && p.listener.ListenerDone?))
  }

  lemma OnePerPort(p: Port, asks: seq<ListenerAction>, answers: seq<Response>)
    requires PortInv(p, asks, answers)
    ensures OneOutstanding(p, p.inbox + asks, answers)
  {
    var busy := Busy(p);
    if p.listener.AwaitingResponse? && p.listener.conn in busy {
      assert busy == {p.listener.conn};
    } else {
      assert busy == {};
    }
  }

  // ------------------------------------------- what the connects have found

  /** The connect task of connection `c` has found `ok`. */
  predicate Says(p: Port, c: nat, ok: bool) {
    c in p.tasks && !p.tasks[c].Connecting? && p.tasks[c].ok == ok
  }

  /** The tasks of all ports have found exactly what the events in `past` say. */
  ghost predicate Found(n: Net, past: seq<Event>) {
    forall i: nat, c: nat, ok: bool :: i < |n.ports| ==>
      (Says(n.ports[i], c, ok) <==> AtPort(i, Connected(c, ok)) in past)
  }

  lemma PortFinds(p: Port, asks: seq<ListenerAction>, answers: seq<Response>, ev: PortEvent, c: nat, ok: bool)
    requires PortInv(p, asks, answers) && PortStep(p, ev).Some?
    ensures Says(PortStep(p, ev).value.port, c, ok) <==> Says(p, c, ok) || ev == Connected(c, ok)
  {
    if ev.ConnecterRecv? { assert (p.inbox + asks)[0] == p.inbox[0]; }
  }

  /** Handling a message changes no connect task. */
  lemma RoutingFindsNothing(n: Net, e: Event, r: Net, i: nat)
    requires Step(n, e) == Some(r) && !e.AtPort? && i < |n.ports|
    ensures |r.ports| == |n.ports| && r.ports[i].tasks == n.ports[i].tasks
  {
  }

  lemma StepFinds(n: Net, e: Event, r: Net, past: seq<Event>)
    requires Inv(n) && Step(n, e) == Some(r) && Found(n, past)
    ensures Found(r, past + [e])
  {
    forall i: nat, c: nat, ok: bool | i < |r.ports|
      ensures Says(r.ports[i], c, ok) <==> AtPort(i, Connected(c, ok)) in past + [e]
    {
      if e.AtPort? {
        assert Says(n.ports[i], c, ok) <==> AtPort(i, Connected(c, ok)) in past;
        if e.port == i {
          assert PortInv(n.ports[i], ActionsOf(n.up, i), ResponsesOf(n.down, i));
          PortFinds(n.ports[i], ActionsOf(n.up, i), ResponsesOf(n.down, i), e.ev, c, ok);
        }
      } else {
        PortsStay(n, e, r);
        RoutingFindsNothing(n, e, r, i);
        assert Says(n.ports[i], c, ok) <==> AtPort(i, Connected(c, ok)) in past;
      }
    }
  }

  lemma PortsStay(n: Net, e: Event, r: Net)
    requires Step(n, e) == Some(r)
    ensures |r.ports| == |n.ports|
  {
  }

  /** What holds of the ports in every run, the client's receiver loop failing included. */
  ghost predicate PortsInv(n: Net) {
    forall i :: 0 <= i < |n.ports| ==> PortInv(n.ports[i], ActionsOf(n.up, i), ResponsesOf(n.down, i))
  }

  lemma StepKeepsPorts(n: Net, e: Event, r: Net)
    requires Inv(n) && Step(n, e) == Some(r)
    ensures PortsInv(r)
  {
    StepKeepsInv(n, e, r);
    if !Inv(r) {
      assert n.down[0].ServerStream? && r == n.(down := n.down[1..], fault := r.fault) by {
        if n.down[0].Answer? { ClientAnswerKeepsInv(n, r); }
      }
      forall j | 0 <= j < |r.ports| ensures PortInv(r.ports[j], ActionsOf(r.up, j), ResponsesOf(r.down, j)) {
        assert PortInv(n.ports[j], ActionsOf(n.up, j), ResponsesOf(n.down, j));
      }
    }
  }

  lemma PastGrows(past: seq<Event>, es: seq<Event>)
    requires es != []
    ensures (past + [es[0]]) + es[1..] == past + es
  {
  }

  lemma {:induction false} RunFinds(n: Net, es: seq<Event>, past: seq<Event>)
    requires Inv(n) && Run(n, es).Some? && Found(n, past)
    ensures Found(Run(n, es).value, past + es) && PortsInv(Run(n, es).value)
    decreases |es|
  {
    if es == [] {
      assert past + es == past;
    } else {
      var r := Step(n, es[0]).value;
      StepFinds(n, es[0], r, past);
      StepKeepsPorts(n, es[0], r);
      StepKeepsInv(n, es[0], r);
      PastGrows(past, es);
      if Inv(r) {
        RunFinds(r, es[1..], past + [es[0]]);
      } else {
        assert es[1..] == [];
      }
    }
  }

  lemma InitFinds(ports: nat, es: seq<Event>)
    requires Run(Init(ports), es).Some?
    ensures Found(Run(Init(ports), es).value, es) && PortsInv(Run(Init(ports), es).value)
  {
    InitHasInv(ports);
    assert Found(Init(ports), []);
    RunFinds(Init(ports), es, []);
    assert [] + es == es;
  }

  lemma {:induction false} AnswerIsListed(down: seq<Down>, k: nat)
    requires k < |down| && down[k].Answer?
    ensures down[k].response in ResponsesOf(down, down[k].port)
  {
    if k == 0 {
      assert ResponsesOf(down, down[0].port)[0] == down[0].response;
    } else {
      AnswerIsListed(down[1..], k - 1);
    }
  }

  /** In the run `es` the connect for connection `c` of port `i` has found `ok`, and not the opposite. */
  predicate HasFound(es: seq<Event>, i: nat, c: nat, ok: bool) {
    AtPort(i, Connected(c, ok)) in es && AtPort(i, Connected(c, !ok)) !in es
  }

  lemma FoundOnce(n: Net, es: seq<Event>, i: nat, c: nat, ok: bool)
    requires Found(n, es) && i < |n.ports| && Says(n.ports[i], c, ok)
    ensures HasFound(es, i, c, ok)
  {
    assert !Says(n.ports[i], c, !ok);
  }

  /**
   * In every run: an answer under way, or in the channel of the listener that waits for it, says what the connect
   * found, and only connections whose connect succeeded have tasks on either side.
   */
  lemma AnswersSayWhatWasFound(ports: nat, es: seq<Event>, i: nat)
    requires Run(Init(ports), es).Some? && i < |Run(Init(ports), es).value.ports|
    ensures var n := Run(Init(ports), es).value; var p := n.ports[i];
      && (forall k :: 0 <= k < |n.down| && n.down[k].Answer? && n.down[k].port == i ==>
           HasFound(es, i, n.down[k].response.conn, n.down[k].response.ok))
      && (p.slot != [] ==> p.listener.AwaitingResponse? && HasFound(es, i, p.listener.conn, p.slot[0]))
      && (forall c: nat :: c in p.serverStreams || c in p.clientStreams ==> HasFound(es, i, c, true))
  {
    InitFinds(ports, es);
    var n := Run(Init(ports), es).value;
    var p, answers := n.ports[i], ResponsesOf(n.down, i);
    assert PortInv(p, ActionsOf(n.up, i), answers);
    forall k | 0 <= k < |n.down| && n.down[k].Answer? && n.down[k].port == i
      ensures HasFound(es, i, n.down[k].response.conn, n.down[k].response.ok)
    {
      AnswerIsListed(n.down, k);
      FoundOnce(n, es, i, n.down[k].response.conn, n.down[k].response.ok);
    }
    if p.slot != [] { FoundOnce(n, es, i, p.listener.conn, p.slot[0]); }
    forall c: nat | c in p.serverStreams || c in p.clientStreams ensures HasFound(es, i, c, true) {
      FoundOnce(n, es, i, c, true);
    }
  }

  /** Per port at most one `Connect` is unanswered, and it gets one answer, its own. */
  lemma OneConnectAtATime(ports: nat, es: seq<Event>, i: nat)
    requires Run(Init(ports), es).Some? && i < |Run(Init(ports), es).value.ports|
    ensures var n := Run(Init(ports), es).value; var p := n.ports[i];
      OneOutstanding(p, p.inbox + ActionsOf(n.up, i), ResponsesOf(n.down, i))
  {
    InitFinds(ports, es);
    var n := Run(Init(ports), es).value;
    OnePerPort(n.ports[i], ActionsOf(n.up, i), ResponsesOf(n.down, i));
  }

  /** In every run, the ids that tasks register are new, and the one that a listener forgets is registered. */
  lemma IdsAreFresh(ports: nat, es: seq<Event>, i: nat)
    requires Run(Init(ports), es).Some? && i < |Run(Init(ports), es).value.ports|
    ensures var p := Run(Init(ports), es).value.ports[i];
      && (p.listener.Accepting? ==> p.listener.next !in p.waiters)
      && (p.listener.AwaitingResponse? ==> p.listener.conn in p.waiters && p.listener.conn !in p.clientStreams)
      && (p.running && p.inbox != [] && p.inbox[0].Connect? ==> p.inbox[0].conn !in p.tasks)
      && (forall c: nat :: c in p.tasks && p.tasks[c] == Responding(true) ==> c !in p.serverStreams)
  {
    InitFinds(ports, es);
    var n := Run(Init(ports), es).value;
    var p := n.ports[i];
    assert PortInv(p, ActionsOf(n.up, i), ResponsesOf(n.down, i));
    if p.inbox != [] { assert (p.inbox + ActionsOf(n.up, i))[0] == p.inbox[0]; }
  }

  /** An action that reaches the server finds its connecter, running and with room in its channel. */
  lemma ActionFindsConnecter(n: Net)
    requires Inv(n) && n.up != [] && n.up[0].Action?
    ensures n.up[0].port < |n.ports| && n.ports[n.up[0].port].running && n.ports[n.up[0].port].inbox == []
  {
    var i := n.up[0].port;
    OldestAction(n.up, i);
    assert PortInv(n.ports[i], ActionsOf(n.up, i), ResponsesOf(n.down, i));
    ReceiveAction(n.ports[i], ActionsOf(n.up, i), ResponsesOf(n.down, i));
  }

  /** A stream message from the client finds its server task: the server registers before the client can send. */
  lemma ServerRegistersFirst(ports: nat, es: seq<Event>, k: nat)
    requires Run(Init(ports), es).Some? && Run(Init(ports), es).value.fault.NoFault?
    requires var n := Run(Init(ports), es).value; k < |n.up| && n.up[k].ClientStream?
    ensures var n := Run(Init(ports), es).value;
      n.up[k].port < |n.ports| && n.up[k].conn in n.ports[n.up[k].port].serverStreams
  {
    InitHasInv(ports);
    RunKeepsInv(Init(ports), es);
    var n := Run(Init(ports), es).value;
    var i := n.up[k].port;
    assert PortInv(n.ports[i], ActionsOf(n.up, i), ResponsesOf(n.down, i));
    assert n.up[k].conn in n.ports[i].clientStreams;
  }

  /** A response that reaches the client finds its waiter registered, waiting, and with room for it. */
  lemma ResponseFindsWaiter(n: Net)
    requires Inv(n) && n.down != [] && n.down[0].Answer?
    ensures var i, a := n.down[0].port, n.down[0].response;
      && i < |n.ports|
      && n.ports[i].listener == AwaitingResponse(a.conn) && n.ports[i].waiters == {a.conn} && n.ports[i].slot == []
      && Step(n, ClientRoutes)
         == Some(n.(ports := n.ports[i := n.ports[i].(slot := [a.ok])], down := n.down[1..]))
  {
    var i := n.down[0].port;
    var answers := ResponsesOf(n.down, i);
    assert answers[0] == n.down[0].response;
    assert PortInv(n.ports[i], ActionsOf(n.up, i), answers);
    ReceiveAnswer(n.ports[i], ActionsOf(n.up, i), answers);
    assert [] + [answers[0].ok] == [answers[0].ok];
  }

  // ------------------------------------------- the direction that can go wrong

  lemma RunFrom(n: Net, es: seq<Event>, k: nat, r: Net)
    requires k < |es| && Step(n, es[k]) == Some(r)
    ensures Run(n, es[k..]) == Run(r, es[k + 1..])
  {
    assert es[k..][0] == es[k] && es[k..][1..] == es[k + 1..];
  }

  lemma OnlyPort(p: Port, up: seq<Up>, down: seq<Down>, ev: PortEvent, m: PortMove)
    requires PortStep(p, ev) == Some(m) && m.asserts
    ensures Step(Net([p], up, down, NoFault), AtPort(0, ev))
         == Some(Net([m.port], up + Actions(0, m.up), down + Answers(0, m.down), NoFault))
  {
    assert [p][0 := m.port] == [m.port];
  }

  lemma SendNothing()
    ensures [] + Actions(0, []) == [] && [] + Answers(0, []) == []
  {
  }

  // The states of a port whose first connection is made.
  const OPENED := NEW_PORT.(listener := SendingConnect(0), waiters := {} + {0}, slot := [])
  const ASKED := OPENED.(listener := AwaitingResponse(0))
  const RECEIVED := ASKED.(inbox := [] + [Connect(0)])
  const DIALLING := RECEIVED.(inbox := RECEIVED.inbox[1..], tasks := map[][0 := Connecting])
  const CONNECTED := DIALLING.(tasks := DIALLING.tasks[0 := Responding(true)])
  const ANSWERED := CONNECTED.(tasks := CONNECTED.tasks[0 := Responded(true)], serverStreams := {} + {0})
  const NOTIFIED := ANSWERED.(slot := [] + [true])

  function Lone(p: Port, up: seq<Up>, down: seq<Down>): Net { Net([p], up, down, NoFault) }

  lemma {:induction false} AskRun(es: seq<Event>)
    requires |es| >= 3 && es[0] == AtPort(0, Accept) && es[1] == AtPort(0, SendConnect) && es[2] == ServerRoutes
    ensures Run(Lone(NEW_PORT, [], []), es) == Run(Lone(RECEIVED, [], []), es[3..])
  {
    var ask := Action(0, Connect(0));
    SendNothing();
    assert [] + Actions(0, [Connect(0)]) == [ask];
    OnlyPort(NEW_PORT, [], [], Accept, PortMove(OPENED, [], [], true));
    OnlyPort(OPENED, [], [], SendConnect, PortMove(ASKED, [Connect(0)], [], true));
    assert [ASKED][0 := RECEIVED] == [RECEIVED] && [ask][1..] == [];
    assert ServerHandles(Lone(ASKED, [], []), ask) == Some(Lone(RECEIVED, [], []));
    RunFrom(Lone(NEW_PORT, [], []), es, 0, Lone(OPENED, [], []));
    RunFrom(Lone(OPENED, [], []), es, 1, Lone(ASKED, [ask], []));
    RunFrom(Lone(ASKED, [ask], []), es, 2, Lone(RECEIVED, [], []));
    assert es[0..] == es;
  }

  lemma {:induction false} HandshakeRun(es: seq<Event>)
    requires |es| >= 5 && es[0] == AtPort(0, Accept) && es[1] == AtPort(0, SendConnect) && es[2] == ServerRoutes
    requires es[3] == AtPort(0, ConnecterRecv) && es[4] == AtPort(0, Connected(0, true))
    ensures Run(Lone(NEW_PORT, [], []), es) == Run(Lone(CONNECTED, [], []), es[5..])
  {
    AskRun(es);
    SendNothing();
    OnlyPort(RECEIVED, [], [], ConnecterRecv, PortMove(DIALLING, [], [], true));
    OnlyPort(DIALLING, [], [], Connected(0, true), PortMove(CONNECTED, [], [], true));
    RunFrom(Lone(RECEIVED, [], []), es, 3, Lone(DIALLING, [], []));
    RunFrom(Lone(DIALLING, [], []), es, 4, Lone(CONNECTED, [], []));
  }

  lemma {:induction false} AnswerRun(es: seq<Event>)
    requires |es| >= 2 && es[0] == AtPort(0, Respond(0)) && es[1] == ServerSends(0, 0)
    ensures Run(Lone(CONNECTED, [], []), es)
         == Run(Lone(ANSWERED, [], [Answer(0, Response(0, true)), ServerStream(0, 0)]), es[2..])
  {
    var answer, data := Answer(0, Response(0, true)), ServerStream(0, 0);
    SendNothing();
    assert [] + Answers(0, [Response(0, true)]) == [answer];
    assert [answer] + [data] == [answer, data];
    OnlyPort(CONNECTED, [], [], Respond(0), PortMove(ANSWERED, [], [Response(0, true)], true));
    RunFrom(Lone(CONNECTED, [], []), es, 0, Lone(ANSWERED, [], [answer]));
    RunFrom(Lone(ANSWERED, [], [answer]), es, 1, Lone(ANSWERED, [], [answer, data]));
    assert es[0..] == es;
  }

  lemma {:induction false} EarlyRun(es: seq<Event>)
    requires |es| == 4 && es[0] == AtPort(0, Respond(0)) && es[1] == ServerSends(0, 0)
    requires es[2] == ClientRoutes && es[3] == ClientRoutes
    ensures Run(Lone(CONNECTED, [], []), es) == Some(Lone(NOTIFIED, [], []).(fault := ClientReceiverFailed))
  {
    var answer, data := Answer(0, Response(0, true)), ServerStream(0, 0);
    AnswerRun(es);
    assert [ANSWERED][0 := NOTIFIED] == [NOTIFIED];
    assert [answer, data][1..] == [data] && [data][1..] == [];
    assert ClientHandles(Lone(ANSWERED, [], [data]), answer) == Some(Lone(NOTIFIED, [], [data]));
    assert ClientHandles(Lone(NOTIFIED, [], []), data) == Some(Lone(NOTIFIED, [], []).(fault := ClientReceiverFailed));
    RunFrom(Lone(ANSWERED, [], [answer, data]), es, 2, Lone(NOTIFIED, [], [data]));
    RunFrom(Lone(NOTIFIED, [], [data]), es, 3, Lone(NOTIFIED, [], []).(fault := ClientReceiverFailed));
    assert es[4..] == [];
  }

  /** The server's first data can overtake the client's listener task: the client's receiver loop then fails. */
  lemma EarlyDataBreaksClient()
    ensures exists es :: Run(Init(1), es).Some? && Run(Init(1), es).value.fault.ClientReceiverFailed?
  {
    var first := [AtPort(0, Accept), AtPort(0, SendConnect), ServerRoutes, AtPort(0, ConnecterRecv),
                  AtPort(0, Connected(0, true))];
    var last := [AtPort(0, Respond(0)), ServerSends(0, 0), ClientRoutes, ClientRoutes];
    assert (first + last)[5..] == last;
    assert Init(1) == Lone(NEW_PORT, [], []);
    HandshakeRun(first + last);
    EarlyRun(last);
  }

  lemma ResponseUnderWay(down: seq<Down>, i: nat)
    requires ResponsesOf(down, i) != []
    ensures exists j ::
      0 <= j < |down| && down[j].Answer? && down[j].port == i && down[j].response == ResponsesOf(down, i)[0]
  {
    if down[0].Answer? && down[0].port == i {
      assert down[0].response == ResponsesOf(down, i)[0];
    } else {
      ResponseUnderWay(down[1..], i);
      var j :| 0 <= j < |down[1..]| && down[1..][j].Answer? && down[1..][j].port == i
               && down[1..][j].response == ResponsesOf(down[1..], i)[0];
      assert down[j + 1] == down[1..][j];
    }
  }

  /**
   * Exactly when it goes wrong: the oldest message is data of a connection whose response already lies in
   * its channel while the listener task has not run since. In every other state the message is delivered.
   */
  lemma EarlyDataExactly(n: Net, r: Net)
    requires Inv(n) && Step(n, ClientRoutes) == Some(r) && n.down[0].ServerStream?
    ensures r.fault.ClientReceiverFailed? <==>
      n.ports[n.down[0].port].listener == AwaitingResponse(n.down[0].conn)
    ensures r.fault.ClientReceiverFailed? ==> n.ports[n.down[0].port].slot == [true]
  {
    var m := n.down[0];
    var p := n.ports[m.port];
    var answers := ResponsesOf(n.down, m.port);
    assert PortInv(p, ActionsOf(n.up, m.port), answers);
    if m.conn !in p.clientStreams {
      assert m.conn in p.serverStreams - p.clientStreams;
      if answers != [] {
        ResponseUnderWay(n.down, m.port);
        var j :| 0 <= j < |n.down| && n.down[j].Answer? && n.down[j].port == m.port && n.down[j].response == answers[0];
        assert SameConnection(n.down[j], n.down[0]);
      }
    }
  }
}
