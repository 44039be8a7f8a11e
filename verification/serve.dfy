/** How both `serve` functions set a session up, and how the server's main task ends it. */
module Serve {
  import opened Protocol
  import opened Endpoints
  import opened RecvRouter
  import F = Forwarding
  import S = Session
  import G = Guarantees
  import H = Histories

  // --------------------------------------------------------- port forwarding

  /** Pairs the items with port ids, counting from 0. */
  method Numbered<T>(items: seq<T>) returns (r: seq<(nat, T)>)
    ensures |r| == |items| && forall i :: 0 <= i < |items| ==> r[i] == (i, items[i])
  {
    r := [];
    var port: nat := 0;
    for i := 0 to |items|
      invariant port == i == |r|
      invariant forall j :: 0 <= j < i ==> r[j] == (j, items[j])
    {
      r := r + [(port, items[i])];
      port := port + 1;
    }
  }

  /**
   * `prepare_local_forwarding` of the client: listens on the local addresses, in order, until one cannot be listened
   * on.
   */
  method ListenAll<L, R, K>(specifiers: seq<(L, R)>, listen: L -> Option<K>) returns (r: Option<(seq<K>, seq<R>)>)
    ensures r.None? <==> exists i :: 0 <= i < |specifiers| && listen(specifiers[i].0).None?
    ensures r.Some? ==>
      && |r.value.0| == |r.value.1| == |specifiers|
      && forall i :: 0 <= i < |specifiers| ==>
        Some(r.value.0[i]) == listen(specifiers[i].0) && r.value.1[i] == specifiers[i].1
  {
    var local, remote := [], [];
    for i := 0 to |specifiers|
      invariant |local| == |remote| == i
      invariant forall j :: 0 <= j < i ==> Some(local[j]) == listen(specifiers[j].0) && remote[j] == specifiers[j].1
    {
      var listener := listen(specifiers[i].0);
      if listener.None? {
        return None;
      }
      local := local + [listener.value];
      remote := remote + [specifiers[i].1];
    }
    return Some((local, remote));
  }

  /** `prepare_local_forwarding` of the server: parses the requested addresses. */
  method ParseAll<R, A>(requested: seq<R>, parse: R -> Option<A>) returns (r: Option<seq<A>>)
    ensures r.None? <==> exists i :: 0 <= i < |requested| && parse(requested[i]).None?
    ensures r.Some? ==>
      |r.value| == |requested| && forall i :: 0 <= i < |requested| ==> Some(r.value[i]) == parse(requested[i])
  {
    var addrs := [];
    for i := 0 to |requested|
      invariant |addrs| == i
      invariant forall j :: 0 <= j < i ==> Some(addrs[j]) == parse(requested[j])
    {
      var addr := parse(requested[i]);
      if addr.None? {
        return None;
      }
      addrs := addrs + [addr.value];
    }
    return Some(addrs);
  }

  /**
   * The two processes number the ports independently, and agree: port `i` listens where specifier `i` says and
   * connects where specifier `i` says.
   */
  method ForwardPorts<L, R, K, A>(specifiers: seq<(L, R)>, listen: L -> Option<K>, parse: R -> Option<A>)
    returns (listeners: seq<(nat, K)>, connecters: seq<(nat, A)>, ok: bool)
    ensures ok <==> forall i :: 0 <= i < |specifiers| ==> listen(specifiers[i].0).Some? && parse(specifiers[i].1).Some?
    ensures ok ==>
      && |listeners| == |connecters| == |specifiers|
      && forall i :: 0 <= i < |specifiers| ==>
        && listeners[i].0 == i && Some(listeners[i].1) == listen(specifiers[i].0)
        && connecters[i].0 == i && Some(connecters[i].1) == parse(specifiers[i].1)
    ensures !ok ==> listeners == [] && connecters == []
  {
    var prepared := ListenAll(specifiers, listen);
    if prepared.None? {
      return [], [], false;
    }
    var addrs := ParseAll(prepared.value.1, parse);
    if addrs.None? {
      return [], [], false;
    }
    listeners := Numbered(prepared.value.0);
    connecters := Numbered(addrs.value);
    return listeners, connecters, true;
  }

  // ------------------------------------------------------------------ set-up

  /** What `wait` says about a child that ended: an exit code, or else the signal that killed it. */
  datatype WaitStatus = Exited(code: int) | Killed(signal: int)

  /**
   * `sink::Task::new`: a new channel of capacity one, registered under `id`; the result says whether the id was free.
   */
  method NewSink(router: Router, id: StreamId) returns (isNew: bool)
    requires router.Valid()
    modifies router
    ensures router.Valid() && isNew == (id !in old(router.sinkTx))
    ensures id in router.sinkTx && router.sinkTx == old(router.sinkTx)[id := router.sinkTx[id]]
    ensures fresh(router.sinkTx[id]) && router.sinkTx[id].Box() == Mailbox([], 0, 1, true)
    ensures router.sourceTx == old(router.sourceTx) && router.connecterTx == old(router.connecterTx)
      && router.listenerTx == old(router.listenerTx)
  {
    var tx := new Channel<SourceAction>(1);
    isNew := router.InsertSinkTx(id, tx);
  }

  /** `source::Task::new`. */
  method NewSource(router: Router, id: StreamId) returns (isNew: bool)
    requires router.Valid()
    modifies router
    ensures router.Valid() && isNew == (id !in old(router.sourceTx))
    ensures id in router.sourceTx && router.sourceTx == old(router.sourceTx)[id := router.sourceTx[id]]
    ensures fresh(router.sourceTx[id]) && router.sourceTx[id].Box() == Mailbox([], 0, 1, true)
    ensures router.sinkTx == old(router.sinkTx) && router.connecterTx == old(router.connecterTx)
      && router.listenerTx == old(router.listenerTx)
  {
    var tx := new Channel<SinkAction>(1);
    isNew := router.InsertSourceTx(id, tx);
  }

  /** `connecter::Task::new`, with a channel of capacity 128. */
  method NewConnecter(router: Router, port: nat) returns (isNew: bool)
    requires router.Valid()
    modifies router
    ensures router.Valid() && isNew == (port !in old(router.connecterTx))
    ensures port in router.connecterTx
    ensures router.connecterTx == old(router.connecterTx)[port := router.connecterTx[port]]
    ensures fresh(router.connecterTx[port])
      && router.connecterTx[port].Box() == Mailbox([], 0, F.CONNECTER_CAPACITY, true)
    ensures router.sinkTx == old(router.sinkTx) && router.sourceTx == old(router.sourceTx)
      && router.listenerTx == old(router.listenerTx)
  {
    var tx := new Channel<F.ListenerAction>(F.CONNECTER_CAPACITY);
    isNew := router.InsertConnecterTx(port, tx);
  }

  // ----------------------------------------------------------- queue handles

  /** Who holds a sending handle of an outbound queue. */
  datatype Holder =
    | Main
    | StdioTask(id: StdId)
    | WindowTask
    | PortTask(port: nat)     // a connecter or a listener
    | SetUpLoop(port: nat)    // the body of the loop that starts the connecters, for a moment

  /** An outbound queue and the handles of it that exist; it ends when there are none. */
  class MessageQueue {
    var messages: seq<Message>
    var holders: set<Holder>

    constructor ()
      ensures messages == [] && holders == {Main}
    {
      messages, holders := [], {Main};
    }

    method Clone(holder: Holder)
      requires holder !in holders
      modifies this`holders
      ensures holders == old(holders) + {holder}
    {
      holders := holders + {holder};
    }

    method Drop(holder: Holder)
      requires holder in holders
      modifies this`holders
      ensures holders == old(holders) - {holder}
    {
      holders := holders - {holder};
    }

    method Send(message: Message)
      requires holders != {} && |messages| < QUEUE_CAPACITY
      modifies this`messages
      ensures messages == old(messages) + [message]
    {
      messages := messages + [message];
    }
  }

  function PortHolders(ports: nat): set<Holder> { set port: nat | port < ports :: PortTask(port) }

  /**
   * One round of the loop that starts the connecters: the task keeps the handle cloned for it, the loop's own clone
   * goes.
   */
  method StartConnecter(router: Router, queue: MessageQueue, port: nat) returns (isNew: bool)
    requires router.Valid() && PortTask(port) !in queue.holders && SetUpLoop(port) !in queue.holders
    modifies router, queue`holders
    ensures router.Valid() && isNew == (port !in old(router.connecterTx))
    ensures router.connecterTx.Keys == old(router.connecterTx.Keys) + {port}
    ensures router.sinkTx == old(router.sinkTx) && router.sourceTx == old(router.sourceTx)
      && router.listenerTx == old(router.listenerTx)
    ensures queue.holders == old(queue.holders) + {PortTask(port)}
  {
    queue.Clone(SetUpLoop(port));
    queue.Clone(PortTask(port));
    isNew := NewConnecter(router, port);
    queue.Drop(SetUpLoop(port));
  }

  method NewConnecters(router: Router, queue: MessageQueue, ports: nat) returns (asserted: bool)
    requires router.Valid() && forall h <- queue.holders :: !h.PortTask? && !h.SetUpLoop?
    modifies router, queue`holders
    ensures router.Valid() && (old(router.connecterTx) == map[] ==> asserted)
    ensures forall port: nat :: port in router.connecterTx <==> port < ports || port in old(router.connecterTx)
    ensures router.sinkTx == old(router.sinkTx) && router.sourceTx == old(router.sourceTx)
      && router.listenerTx == old(router.listenerTx)
    ensures queue.holders == old(queue.holders) + PortHolders(ports)
  {
    asserted := true;
    for port := 0 to ports
      invariant router.Valid() && (old(router.connecterTx) == map[] ==> asserted)
      invariant forall p: nat :: p in router.connecterTx <==> p < port || p in old(router.connecterTx)
      invariant router.sinkTx == old(router.sinkTx) && router.sourceTx == old(router.sourceTx)
        && router.listenerTx == old(router.listenerTx)
      invariant queue.holders == old(queue.holders) + PortHolders(port)
    {
      var isNew := StartConnecter(router, queue, port);
      asserted := asserted && isNew;
    }
  }

  /** The loop that starts the listeners. */
  method NewListeners(queue: MessageQueue, ports: nat)
    requires forall h <- queue.holders :: !h.PortTask?
    modifies queue`holders
    ensures queue.holders == old(queue.holders) + PortHolders(ports)
  {
    for port := 0 to ports
      invariant queue.holders == old(queue.holders) + PortHolders(port)
    {
      queue.Clone(PortTask(port));
    }
  }

  /** The pipes of the child that exist: a pseudo-terminal has no separate stderr. */
  datatype Stdio = Stdio(stdin: bool, stdout: bool, stderr: bool)

  const ALL_STDIO := Stdio(true, true, true)

  function BindStdio(pty: bool): Stdio { Stdio(true, true, !pty) }

  function Announced(pipes: Stdio): seq<Message> {
    (if pipes.stdin then [] else [FromSink(Stdin, SinkClosed)])
    + (if pipes.stdout then [] else [FromSource(Stdout, SourceClosed)])
    + (if pipes.stderr then [] else [FromSource(Stderr, SourceClosed)])
  }

  /** The handles of the stdio tasks that exist. */
  function StdioHolders(pipes: Stdio): set<Holder> {
    (if pipes.stdin then {StdioTask(Stdin)} else {}) + (if pipes.stdout then {StdioTask(Stdout)} else {})
    + (if pipes.stderr then {StdioTask(Stderr)} else {})
  }

  /**
   * A sink task with a handle of the queue, or the announcement that the stream has ended if there is no pipe for it.
   */
  method StartSink(id: StdId, present: bool, router: Router, queue: MessageQueue) returns (isNew: bool)
    requires router.Valid() && StdioTask(id) !in queue.holders
    requires !present ==> queue.holders != {} && |queue.messages| < QUEUE_CAPACITY
    modifies router, queue
    ensures router.Valid() && isNew == (present ==> Std(id) !in old(router.sinkTx))
    ensures router.sinkTx.Keys == old(router.sinkTx.Keys) + if present then {Std(id)} else {}
    ensures router.sourceTx == old(router.sourceTx) && router.connecterTx == old(router.connecterTx)
      && router.listenerTx == old(router.listenerTx)
    ensures queue.holders == old(queue.holders) + if present then {StdioTask(id)} else {}
    ensures queue.messages == old(queue.messages) + if present then [] else [FromSink(id, SinkClosed)]
  {
    isNew := true;
    if present {
      queue.Clone(StdioTask(id));
      isNew := NewSink(router, Std(id));
    } else {
      queue.Send(FromSink(id, SinkClosed));
    }
  }

  /**
   * A source task with a handle of the queue, or the announcement that the stream has ended if there is no pipe for
   * it.
   */
  method StartSource(id: StdId, present: bool, router: Router, queue: MessageQueue) returns (isNew: bool)
    requires router.Valid() && StdioTask(id) !in queue.holders
    requires !present ==> queue.holders != {} && |queue.messages| < QUEUE_CAPACITY
    modifies router, queue
    ensures router.Valid() && isNew == (present ==> Std(id) !in old(router.sourceTx))
    ensures router.sourceTx.Keys == old(router.sourceTx.Keys) + if present then {Std(id)} else {}
    ensures router.sinkTx == old(router.sinkTx) && router.connecterTx == old(router.connecterTx)
      && router.listenerTx == old(router.listenerTx)
    ensures queue.holders == old(queue.holders) + if present then {StdioTask(id)} else {}
    ensures queue.messages == old(queue.messages) + if present then [] else [FromSource(id, SourceClosed)]
  {
    isNew := true;
    if present {
      queue.Clone(StdioTask(id));
      isNew := NewSource(router, Std(id));
    } else {
      queue.Send(FromSource(id, SourceClosed));
    }
  }

  lemma Joined(m: set<Holder>, a: set<Holder>, b: set<Holder>, c: set<Holder>)
    ensures m + a + b + c == m + (a + b + c)
  {
  }

  lemma InOrder(a: seq<Message>, b: seq<Message>, c: seq<Message>)
    ensures [] + a + b + c == a + b + c
  {
    assert [] + a == a;
  }

  method StartOutputs(pipes: Stdio, router: Router, queue: MessageQueue) returns (asserted: bool)
    requires router.Valid() && router.sourceTx == map[]
    requires StdioTask(Stdout) !in queue.holders && StdioTask(Stderr) !in queue.holders
    requires queue.holders != {} && |queue.messages| <= 1
    modifies router, queue
    ensures router.Valid() && asserted
    ensures router.sourceTx.Keys
         == (if pipes.stdout then {Std(Stdout)} else {}) + (if pipes.stderr then {Std(Stderr)} else {})
    ensures router.sinkTx == old(router.sinkTx) && router.connecterTx == old(router.connecterTx)
      && router.listenerTx == old(router.listenerTx)
    ensures queue.messages == old(queue.messages) + (if pipes.stdout then [] else [FromSource(Stdout, SourceClosed)])
      + (if pipes.stderr then [] else [FromSource(Stderr, SourceClosed)])
    ensures queue.holders == old(queue.holders) + (if pipes.stdout then {StdioTask(Stdout)} else {})
      + (if pipes.stderr then {StdioTask(Stderr)} else {})
  {
    var stdout := StartSource(Stdout, pipes.stdout, router, queue);
    var stderr := StartSource(Stderr, pipes.stderr, router, queue);
    asserted := stdout && stderr;
  }

  /** A task for each pipe of the child, and the end announced of each missing one. */
  method StartStdio(pipes: Stdio, router: Router, queue: MessageQueue) returns (asserted: bool)
    requires router.Valid() && router.sinkTx == map[] && router.sourceTx == map[]
    requires queue.messages == [] && queue.holders == {Main}
    modifies router, queue
    ensures router.Valid() && asserted
    ensures router.sinkTx.Keys == if pipes.stdin then {Std(Stdin)} else {}
    ensures router.sourceTx.Keys
         == (if pipes.stdout then {Std(Stdout)} else {}) + (if pipes.stderr then {Std(Stderr)} else {})
    ensures router.connecterTx == old(router.connecterTx) && router.listenerTx == old(router.listenerTx)
    ensures queue.messages == Announced(pipes)
    ensures queue.holders == {Main} + StdioHolders(pipes)
  {
    var sink := StartSink(Stdin, pipes.stdin, router, queue);
    var sources := StartOutputs(pipes, router, queue);
    asserted := sink && sources;
    Joined({Main}, if pipes.stdin then {StdioTask(Stdin)} else {}, if pipes.stdout then {StdioTask(Stdout)} else {},
           if pipes.stderr then {StdioTask(Stderr)} else {});
    InOrder(if pipes.stdin then [] else [FromSink(Stdin, SinkClosed)],
            if pipes.stdout then [] else [FromSource(Stdout, SourceClosed)],
            if pipes.stderr then [] else [FromSource(Stderr, SourceClosed)]);
  }

  /**
   * The set-up of the server's `serve`: the stdio tasks, then a connecter for each forwarded port. No assertion of the
   * router fires; the main task and every task it spawned hold a handle of the queue, and nobody else does.
   */
  method ServeServer(pipes: Stdio, ports: nat)
    returns (router: Router, queue: MessageQueue, asserted: bool)
    ensures asserted && fresh(router) && router.Valid() && fresh(queue)
    ensures router.sinkTx.Keys == if pipes.stdin then {Std(Stdin)} else {}
    ensures router.sourceTx.Keys
         == (if pipes.stdout then {Std(Stdout)} else {}) + (if pipes.stderr then {Std(Stderr)} else {})
    ensures forall port: nat :: port in router.connecterTx <==> port < ports
    ensures router.listenerTx == map[]
    ensures queue.messages == Announced(pipes)
    ensures queue.holders == {Main} + StdioHolders(pipes) + PortHolders(ports)
  {
    router := new Router();
    queue := new MessageQueue();
    asserted := StartStdio(pipes, router, queue);
    var isNew := NewConnecters(router, queue, ports);
    asserted := asserted && isNew;
  }

  /** What a server announces, and who is left with a handle: every missing pipe, and every task there is. */
  lemma SetUpMeaning(pipes: Stdio, ports: nat)
    ensures var ms, holders := Announced(pipes), {Main} + StdioHolders(pipes) + PortHolders(ports);
      && (forall m :: m in ms <==>
           || (m == FromSink(Stdin, SinkClosed) && !pipes.stdin)
           || (m == FromSource(Stdout, SourceClosed) && !pipes.stdout)
           || (m == FromSource(Stderr, SourceClosed) && !pipes.stderr))
      && (forall i, j :: 0 <= i < j < |ms| ==> ms[i] != ms[j])
      && (forall h :: h in holders <==>
           match h
           case Main => true
           case StdioTask(id) => if id.Stdin? then pipes.stdin else if id.Stdout? then pipes.stdout else pipes.stderr
           case PortTask(port) => port < ports
           case _ => false)
  {
  }

  method StartClientStdio(router: Router, queue: MessageQueue) returns (asserted: bool)
    requires router.Valid() && router.sinkTx == map[] && router.sourceTx == map[] && queue.holders == {Main}
    modifies router, queue
    ensures router.Valid() && asserted
    ensures router.sourceTx.Keys == {Std(Stdin)} && router.sinkTx.Keys == {Std(Stdout), Std(Stderr)}
    ensures router.connecterTx == old(router.connecterTx) && router.listenerTx == old(router.listenerTx)
    ensures queue.messages == old(queue.messages) && queue.holders == {Main} + StdioHolders(ALL_STDIO)
  {
    var source := StartSource(Stdin, true, router, queue);
    var sink := StartSink(Stdout, true, router, queue);
    var sink' := StartSink(Stderr, true, router, queue);
    asserted := source && sink && sink';
  }

  /** The window-change task, if there is a pseudo-terminal, and the listeners. */
  method StartOthers(queue: MessageQueue, pty: bool, ports: nat)
    requires forall h <- queue.holders :: !h.WindowTask? && !h.PortTask?
    modifies queue`holders
    ensures queue.holders == old(queue.holders) + (if pty then {WindowTask} else {}) + PortHolders(ports)
  {
    if pty {
      queue.Clone(WindowTask);
    }
    NewListeners(queue, ports);
  }

  /** The set-up of the client's `serve`; its main task drops its own handle at the end. */
  method ServeClient(pty: bool, ports: nat)
    returns (router: Router, queue: MessageQueue, asserted: bool)
    ensures asserted && fresh(router) && router.Valid() && fresh(queue)
    ensures router.sourceTx.Keys == {Std(Stdin)} && router.sinkTx.Keys == {Std(Stdout), Std(Stderr)}
    ensures router.connecterTx == map[] && router.listenerTx == map[]
    ensures queue.messages == []
    ensures queue.holders == StdioHolders(ALL_STDIO) + (if pty then {WindowTask} else {}) + PortHolders(ports)
  {
    router := new Router();
    queue := new MessageQueue();
    asserted := StartClientStdio(router, queue);
    StartOthers(queue, pty, ports);
    queue.Drop(Main);
    WithoutMain(StdioHolders(ALL_STDIO), if pty then {WindowTask} else {}, PortHolders(ports));
  }

  lemma WithoutMain(a: set<Holder>, b: set<Holder>, c: set<Holder>)
    requires Main !in a && Main !in b && Main !in c
    ensures {Main} + a + b + c - {Main} == a + b + c
  {
  }

  // ----------------------------------------------------------- as the session

  /** The handles of the server's outbound queue in a session. */
  predicate ServerHolds(s: S.Session, h: Holder) {
    match h
    case Main => s.server.Waiting? || s.server.Injecting? || s.server.Exiting?
    case StdioTask(id) =>
      if id.Stdin? then !s.streams[id].ends.snk.phase.SinkDone? else !s.streams[id].ends.src.SourceDone?
    case _ => false
  }

  predicate ClientHolds(s: S.Session, h: Holder) {
    match h
    case StdioTask(id) =>
      if id.Stdin? then !s.streams[id].ends.src.SourceDone? else !s.streams[id].ends.snk.phase.SinkDone?
    case WindowTask => !s.window.WindowEnded?
    case _ => false
  }

  /** The conditions under which a session's sender loops find their queues deserted are that no handle exists. */
  lemma HandlesAreHolders(s: S.Session)
    ensures S.ServerHandles(s) <==> exists h :: ServerHolds(s, h)
    ensures S.ClientStdio(s) <==> exists h :: ClientHolds(s, h)
  {
    assert ServerHolds(s, Main) || !(s.server.Waiting? || s.server.Injecting? || s.server.Exiting?);
    forall id: StdId
      ensures ServerHolds(s, StdioTask(id)) ==> S.ServerHandles(s)
      ensures ClientHolds(s, StdioTask(id)) ==> S.ClientStdio(s)
    {
      match id { case Stdin => case Stdout => case Stderr => }
    }
    assert ServerHolds(s, StdioTask(Stdin)) <==> !s.streams[Stdin].ends.snk.phase.SinkDone?;
    assert ServerHolds(s, StdioTask(Stdout)) <==> !s.streams[Stdout].ends.src.SourceDone?;
    assert ServerHolds(s, StdioTask(Stderr)) <==> !s.streams[Stderr].ends.src.SourceDone?;
    assert ClientHolds(s, StdioTask(Stdin)) <==> !s.streams[Stdin].ends.src.SourceDone?;
    assert ClientHolds(s, StdioTask(Stdout)) <==> !s.streams[Stdout].ends.snk.phase.SinkDone?;
    assert ClientHolds(s, StdioTask(Stderr)) <==> !s.streams[Stderr].ends.snk.phase.SinkDone?;
    assert ClientHolds(s, WindowTask) <==> !s.window.WindowEnded?;
  }

  /**
   * Set-up without forwarded ports leaves the two processes in the session's initial state: the same messages queued,
   * the same tasks registered, and the same handles of either queue.
   */
  lemma SetUpIsInit(pty: bool, wireCap: nat, h: Holder)
    ensures var s, pipes := S.Init(pty, wireCap), BindStdio(pty);
      && s.pipes[S.ToClient].queue == Announced(pipes) && s.pipes[S.ToServer].queue == []
      && (ServerHolds(s, h) <==> h in {Main} + StdioHolders(pipes))
      && (ClientHolds(s, h) <==> h in StdioHolders(ALL_STDIO) || (h.WindowTask? && pty))
      && (forall id :: S.HasSink(S.ToServer, id) <==> id == Stdin && pipes.stdin)
      && (forall id ::
           S.HasSource(S.ToServer, id, pty) <==> (id == Stdout && pipes.stdout) || (id == Stderr && pipes.stderr))
      && (forall id :: S.HasSource(S.ToClient, id, pty) <==> id == Stdin)
      && (forall id :: S.HasSink(S.ToClient, id) <==> id == Stdout || id == Stderr)
  {
  }

  // ------------------------------------------------------------- the child ends

  function Status(w: WaitStatus): ExitStatus {
    match w
    case Exited(c) => Code(c)
    case Killed(n) => Signal(n)
  }

  /** The server's queue and its handles are those of a session. */
  ghost predicate InStep(queue: MessageQueue, s: S.Session)
    reads queue
  {
    queue.messages == s.pipes[S.ToClient].queue && forall h :: h in queue.holders <==> ServerHolds(s, h)
  }

  /**
   * The server's select and the drop of its handle. When the child ended, queue and handles end as after the session's
   * three main-task steps; when its end was requested after a failure, the handle goes and nothing is sent.
   */
  method Conclude(child: Option<WaitStatus>, queue: MessageQueue, ghost s: S.Session)
    requires InStep(queue, s) && s.server.Waiting? && |queue.messages| + 2 <= QUEUE_CAPACITY
    modifies queue
    ensures child.Some? ==>
      var r := S.Run(s, [S.ChildExit(Status(child.value)), S.MainSend, S.MainSend]);
      r.Some? && InStep(queue, r.value)
    ensures child.Some? ==>
      queue.messages == old(queue.messages) + [FromSink(Stdin, SinkClosed), Exit(
        match child.value case Exited(c) => Code(c) case Killed(n) => ExitStatus.Signal(n))]
    ensures child.Some? ==> queue.holders == old(queue.holders) - {Main}
    ensures child.None? ==> queue.messages == old(queue.messages) && queue.holders == old(queue.holders) - {Main}
  {
    assert ServerHolds(s, Main);
    if child.Some? {
      ConcludesAsSession(s, child.value);
      var status := if child.value.Exited? then Code(child.value.code) else ExitStatus.Signal(child.value.signal);
      queue.Send(FromSink(Stdin, SinkClosed));
      queue.Send(Exit(status));
    }
    queue.Drop(Main);
  }

  /** The client returns the code its child exited with, or the signal that killed it, and nothing else. */
  lemma ExitCodeArrives(ss: seq<S.Session>, es: seq<S.Event>, w: WaitStatus)
    requires G.IsSession(ss, es) && S.ChildExit(Status(w)) in es && ss[|es|].client.ClientReturned?
    ensures w.Exited? ==> ss[|es|].client.status == Code(w.code)
    ensures w.Killed? ==> ss[|es|].client.status == ExitStatus.Signal(w.signal)
  {
    H.StatusIsTheChilds(ss, es);
  }

  /** What the main task of the session does when the child ends, with nothing else in between. */
  lemma ConcludesAsSession(s: S.Session, w: WaitStatus)
    requires s.server.Waiting? && |s.pipes[S.ToClient].queue| + 2 <= QUEUE_CAPACITY
    ensures var r := S.Run(s, [S.ChildExit(Status(w)), S.MainSend, S.MainSend]);
      && r.Some?
      && r.value.server.Joining?
      && r.value.child == Some(match w case Exited(c) => Code(c) case Killed(n) => ExitStatus.Signal(n))
      && r.value.pipes[S.ToClient].queue
         == s.pipes[S.ToClient].queue + [FromSink(Stdin, SinkClosed), Exit(
           match w case Exited(c) => Code(c) case Killed(n) => ExitStatus.Signal(n))]
      && r.value.streams[Stdin].ends.foreign == s.streams[Stdin].ends.foreign + 1
      && forall h :: ServerHolds(r.value, h) <==> ServerHolds(s, h) && !h.Main?
  {
    var status := Status(w);
    var s1 := S.DoChildExit(s, status).value;
    var s2 := S.DoMainSend(s1).value;
    var s3 := S.DoMainSend(s2).value;
    InjectsAndGoesOn(s1, status);
    ExitsAndLetsGo(s2, status);
    S.ThreeSteps(s, S.ChildExit(status), s1, S.MainSend, s2, S.MainSend, s3);
  }

  lemma InjectsAndGoesOn(s: S.Session, status: ExitStatus)
    requires s.server == S.Injecting(status) && |s.pipes[S.ToClient].queue| < QUEUE_CAPACITY
    ensures var r := S.DoMainSend(s);
      && r.Some? && r.value.server == S.Exiting(status)
      && r.value.pipes[S.ToClient].queue == s.pipes[S.ToClient].queue + [FromSink(Stdin, SinkClosed)]
      && forall h :: ServerHolds(r.value, h) <==> ServerHolds(s, h)
  {
  }

  lemma ExitsAndLetsGo(s: S.Session, status: ExitStatus)
    requires s.server == S.Exiting(status) && |s.pipes[S.ToClient].queue| < QUEUE_CAPACITY
    ensures var r := S.DoMainSend(s);
      && r.Some? && r.value.server.Joining?
      && r.value.pipes[S.ToClient].queue == s.pipes[S.ToClient].queue + [Exit(status)]
      && forall h :: ServerHolds(r.value, h) <==> ServerHolds(s, h) && !h.Main?
  {
  }
}
