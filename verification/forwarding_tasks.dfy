/** The listener and connecter tasks as loops over a router, against the port machine of `Forwarding`. */
module ForwardingTasks {
  import opened RecvRouter
  import opened Protocol
  import V = Serve
  import F = Forwarding

  /** What becomes of one round of the accept loop; `connect_remote` can fail in three ways. */
  datatype Attempt =
    | NotAccepted
    | NotSent        // the outbound queue is closed
    | NotAnswered    // the response channel closes
    | Refused
    | Established

  predicate IsAsked(a: Attempt) { !a.NotAccepted? && !a.NotSent? }

  /** The outbound queue was open in all rounds before round `n`. */
  predicate IsOpen(attempts: seq<Attempt>, n: nat) {
    forall k :: 0 <= k < n && k < |attempts| ==> !attempts[k].NotSent?
  }

  /** What becomes of the rounds given that a closed queue stays closed: nothing can be sent in any later round. */
  function Settled(attempts: seq<Attempt>): (r: seq<Attempt>)
    ensures |r| == |attempts|
  {
    seq(|attempts|, i requires 0 <= i < |attempts| =>
      if IsOpen(attempts, i) || attempts[i].NotAccepted? then attempts[i] else NotSent)
  }

  lemma SettledAt(attempts: seq<Attempt>, n: nat)
    requires n < |attempts|
    ensures IsOpen(attempts, n + 1) == (IsOpen(attempts, n) && !attempts[n].NotSent?)
    ensures Settled(attempts)[n]
         == if attempts[n].NotAccepted? || IsOpen(attempts, n + 1) then attempts[n] else NotSent
  {
  }

  /** The client's router agrees with the port machine about port `port`. */
  ghost predicate Reflects(router: Router, port: nat, p: F.Port)
    reads router
  {
    && (forall c: nat :: c in p.waiters <==> Forward(port, c) in router.listenerTx)
    && (forall c: nat :: c in p.clientStreams <==> Forward(port, c) in router.sinkTx)
    && (forall c: nat :: c in p.clientStreams <==> Forward(port, c) in router.sourceTx)
  }

  /**
   * The events of the listener in one round. A round in which nothing is asked counts like one without a connection,
   * and one without an answer like a refusal.
   */
  function Round(p: F.Port, a: Attempt): F.Port
    requires p.listener.Accepting?
  {
    if !IsAsked(a) then F.PortStep(p, F.AcceptFailed).value.port
    else
      var asked := F.PortStep(F.PortStep(p, F.Accept).value.port, F.SendConnect).value.port;
      F.PortStep(asked.(slot := [a.Established?]), F.TakeResponse).value.port
  }

  function Rounds(p: F.Port, attempts: seq<Attempt>): (q: F.Port)
    requires p.listener.Accepting?
    ensures q.listener == F.Accepting(p.listener.next + |attempts|)
  {
    if attempts == [] then p else Round(Rounds(p, attempts[..|attempts| - 1]), attempts[|attempts| - 1])
  }

  /** The connections asked for: the rounds in which one was accepted, under their numbers. */
  function Asked(attempts: seq<Attempt>): seq<F.ListenerAction> {
    if attempts == [] then []
    else
      var n := |attempts| - 1;
      Asked(attempts[..n]) + if IsAsked(attempts[n]) then [F.Connect(n)] else []
  }

  lemma AskedNext(attempts: seq<Attempt>, n: nat)
    requires n < |attempts|
    ensures var a := Asked(attempts[..n]);
      Asked(attempts[..n + 1]) == if IsAsked(attempts[n]) then a + [F.Connect(n)] else a
  {
    assert attempts[..n + 1][..n] == attempts[..n];
  }

  predicate IsEstablished(attempts: seq<Attempt>, c: nat) { c < |attempts| && attempts[c].Established? }

  /** Between rounds nobody waits for a response, and exactly the established connections have their tasks. */
  lemma {:induction false} RoundsMeaning(attempts: seq<Attempt>)
    ensures var q := Rounds(F.NEW_PORT, attempts);
      && q == F.NEW_PORT.(listener := F.Accepting(|attempts|), clientStreams := q.clientStreams)
      && forall c: nat :: c in q.clientStreams <==> IsEstablished(attempts, c)
  {
    if attempts == [] {
    } else {
      var n := |attempts| - 1;
      RoundsMeaning(attempts[..n]);
      forall c: nat ensures c in Rounds(F.NEW_PORT, attempts).clientStreams <==> IsEstablished(attempts, c) {
        assert IsEstablished(attempts[..n], c) <==> c < n && IsEstablished(attempts, c);
      }
    }
  }

  function ResponseOf(a: Attempt): Option<ConnecterAction> {
    match a
    case Refused => Some(ConnectResponse(false))
    case Established => Some(ConnectResponse(true))
    case _ => None
  }

  /** A new channel of capacity one for the response to connection `id`. */
  method NewWaiter(router: Router, id: StreamId) returns (tx: Channel<ConnecterAction>, isNew: bool)
    requires router.Valid()
    modifies router
    ensures router.Valid() && isNew == (id !in old(router.listenerTx))
    ensures fresh(tx) && tx.Box() == Mailbox([], 0, 1, true)
    ensures router.listenerTx == old(router.listenerTx)[id := tx] && router.connecterTx == old(router.connecterTx)
    ensures router.sinkTx == old(router.sinkTx) && router.sourceTx == old(router.sourceTx)
  {
    tx := new Channel(1);
    isNew := router.InsertListenerTx(id, tx);
  }

  /** The receiver loop routes a response by its id, and the listener, waiting on `tx`, receives what arrives there. */
  method Answer(router: Router, id: StreamId, tx: Channel<ConnecterAction>, response: ConnecterAction)
    returns (got: Option<ConnecterAction>)
    requires router.Valid() && id in router.listenerTx && router.listenerTx[id] == tx
    requires tx.Box() == Mailbox([], 0, 1, true)
    modifies tx
    ensures router.Valid() && unchanged(router) && got == Some(response)
  {
    var routed := router.SendConnecterAction(id, response);
    assert tx.sent == [] + [response];
    got := tx.Receive();
  }

  /**
   * `connect_remote` between registering the response channel and forgetting it. If the outbound queue is open,
   * `Connect` is sent, and a response, if one comes, is routed by its id; it finds the channel, which hands it to the
   * listener.
   */
  method ConnectRemote(router: Router, port: nat, conn: nat, open: bool, response: Option<ConnecterAction>)
    returns (sent: seq<F.ListenerAction>, got: Option<ConnecterAction>, asserted: bool)
    requires router.Valid() && Forward(port, conn) !in router.listenerTx
    modifies router
    ensures router.Valid() && asserted
    ensures sent == (if open then [F.Connect(conn)] else []) && got == if open then response else None
    ensures router.listenerTx == old(router.listenerTx) && router.connecterTx == old(router.connecterTx)
    ensures router.sinkTx == old(router.sinkTx) && router.sourceTx == old(router.sourceTx)
  {
    var id := Forward(port, conn);
    var tx, isNew := NewWaiter(router, id);
    sent, got := [], None;
    if open {
      sent := [F.Connect(conn)];
      if response.Some? {
        got := Answer(router, id, tx, response.value);
      }
    }
    var found := router.RemoveListenerTx(id);
    asserted := isNew && found;
  }

  /** Registering the source and the sink of a connection, on either side. */
  method Establish(router: Router, id: StreamId) returns (asserted: bool)
    requires router.Valid()
    modifies router
    ensures router.Valid() && asserted == (id !in old(router.sourceTx) && id !in old(router.sinkTx))
    ensures router.sourceTx.Keys == old(router.sourceTx.Keys) + {id}
    ensures router.sinkTx.Keys == old(router.sinkTx.Keys) + {id}
    ensures router.connecterTx == old(router.connecterTx) && router.listenerTx == old(router.listenerTx)
  {
    var isNew := V.NewSource(router, id);
    asserted := V.NewSink(router, id);
    asserted := asserted && isNew;
  }

  /** What the rounds before `conn` leave in the client's router. */
  ghost predicate Registered(router: Router, port: nat, attempts: seq<Attempt>, conn: nat)
    reads router
  {
    && (forall c: nat :: Forward(port, c) !in router.listenerTx)
    && (forall c: nat :: Forward(port, c) in router.sinkTx <==> c < conn && IsEstablished(attempts, c))
    && (forall c: nat :: Forward(port, c) in router.sourceTx <==> c < conn && IsEstablished(attempts, c))
  }

  lemma RegisteredReflects(router: Router, port: nat, attempts: seq<Attempt>)
    requires Registered(router, port, attempts, |attempts|)
    ensures Reflects(router, port, Rounds(F.NEW_PORT, attempts))
  {
    RoundsMeaning(attempts);
  }

  /**
   * What follows an accept in round `conn`: asking for the connection and, if it is established, starting its tasks.
   */
  method HandleConnection(router: Router, port: nat, conn: nat, attempt: Attempt, ghost attempts: seq<Attempt>)
    returns (sent: seq<F.ListenerAction>, asserted: bool)
    requires router.Valid() && Registered(router, port, attempts, conn)
    requires conn < |attempts| && attempt == attempts[conn] && !attempt.NotAccepted?
    modifies router
    ensures router.Valid() && asserted && Registered(router, port, attempts, conn + 1)
    ensures sent == if IsAsked(attempt) then [F.Connect(conn)] else []
  {
    var response;
    sent, response, asserted := ConnectRemote(router, port, conn, !attempt.NotSent?, ResponseOf(attempt));
    if response == Some(ConnectResponse(true)) {
      var ok := Establish(router, Forward(port, conn));
      asserted := asserted && ok;
    }
  }

  /**
   * `listener::Task::handle`: one round for each of `attempts`, and the end once the task-end signal came, where the
   * send fails if the queue has closed in a round or closes just then. A response channel is registered before
   * `Connect` is sent and removed after the response; the loop leaves the router as the port machine says, and none of
   * the router's assertions fires.
   */
  method Listen(router: Router, port: nat, attempts: seq<Attempt>, taskEnd: bool, closesThen: bool)
    returns (sent: seq<F.ListenerAction>, asserted: bool, failed: bool)
    requires router.Valid() && Reflects(router, port, F.NEW_PORT)
    modifies router
    ensures router.Valid() && asserted
    ensures Reflects(router, port, Rounds(F.NEW_PORT, Settled(attempts)))
    ensures failed == (taskEnd && (closesThen || !IsOpen(attempts, |attempts|)))
    ensures sent == Asked(Settled(attempts)) + if taskEnd && !failed then [F.ListenerClosed] else []
  {
    ghost var settled := Settled(attempts);
    sent, asserted, failed := [], true, false;
    var open := true;
    for conn := 0 to |attempts|
      invariant router.Valid() && asserted && Registered(router, port, settled, conn)
      invariant open == IsOpen(attempts, conn)
      invariant sent == Asked(settled[..conn])
    {
      AskedNext(settled, conn);
      SettledAt(attempts, conn);
      if attempts[conn].NotAccepted? {
        continue;
      }
      open := open && !attempts[conn].NotSent?;
      var attempt := if open then attempts[conn] else NotSent;
      assert attempt == settled[conn];
      var request, ok := HandleConnection(router, port, conn, attempt, settled);
      sent, asserted := sent + request, asserted && ok;
    }
    assert settled[..|attempts|] == settled;
    RegisteredReflects(router, port, settled);
    if taskEnd {
      failed := !open || closesThen;
      if !failed {
        sent := sent + [F.ListenerClosed];
      }
    }
  }

  /** A request for a connection that was accepted. */
  predicate IsRequest(attempts: seq<Attempt>, a: F.ListenerAction) {
    a.Connect? && a.conn < |attempts| && IsAsked(attempts[a.conn])
  }

  lemma {:induction false} RequestAt(attempts: seq<Attempt>, k: nat)
    requires k < |Asked(attempts)|
    ensures IsRequest(attempts, Asked(attempts)[k])
  {
    var n := |attempts| - 1;
    AskedNext(attempts, n);
    assert attempts[..n + 1] == attempts;
    if k < |Asked(attempts[..n])| {
      RequestAt(attempts[..n], k);
      var c := Asked(attempts)[k].conn;
      assert attempts[..n][c] == attempts[c];
    }
  }

  lemma {:induction false} InOrder(attempts: seq<Attempt>, j: nat, k: nat)
    requires j < k < |Asked(attempts)| && Asked(attempts)[j].Connect? && Asked(attempts)[k].Connect?
    ensures Asked(attempts)[j].conn < Asked(attempts)[k].conn
  {
    var n := |attempts| - 1;
    AskedNext(attempts, n);
    assert attempts[..n + 1] == attempts;
    if k < |Asked(attempts[..n])| { InOrder(attempts[..n], j, k); } else { RequestAt(attempts[..n], j); }
  }

  lemma {:induction false} AcceptedIsAsked(attempts: seq<Attempt>, c: nat)
    requires c < |attempts| && IsAsked(attempts[c])
    ensures F.Connect(c) in Asked(attempts)
  {
    var n := |attempts| - 1;
    AskedNext(attempts, n);
    assert attempts[..n + 1] == attempts;
    if c < n {
      assert attempts[..n][c] == attempts[c];
      AcceptedIsAsked(attempts[..n], c);
    }
  }

  /** Each connection is asked for at most once, in increasing order, and each accepted one is asked for. */
  lemma AskedOnce(attempts: seq<Attempt>)
    ensures var a := Asked(attempts);
      && (forall k :: 0 <= k < |a| ==> IsRequest(attempts, a[k]))
      && (forall j, k :: 0 <= j < k < |a| ==> a[j].Connect? && a[k].Connect? && a[j].conn < a[k].conn)
      && (forall c: nat :: c < |attempts| && IsAsked(attempts[c]) ==> F.Connect(c) in a)
  {
    var a := Asked(attempts);
    forall k | 0 <= k < |a| ensures IsRequest(attempts, a[k]) { RequestAt(attempts, k); }
    forall j, k | 0 <= j < k < |a| ensures a[j].Connect? && a[k].Connect? && a[j].conn < a[k].conn {
      RequestAt(attempts, j);
      RequestAt(attempts, k);
      InOrder(attempts, j, k);
    }
    forall c: nat | c < |attempts| && IsAsked(attempts[c]) ensures F.Connect(c) in a { AcceptedIsAsked(attempts, c); }
  }

  // ------------------------------------------------------------ the connecter

  /** The connect tasks that a connecter spawns: one for each `Connect` before the first `ListenerClosed`. */
  function Spawns(actions: seq<F.ListenerAction>): seq<nat> {
    if actions == [] || actions[0].ListenerClosed? then [] else [actions[0].conn] + Spawns(actions[1..])
  }

  /** `connecter::Task::handle`; the result says whether the loop is over. */
  method Serve(actions: seq<F.ListenerAction>) returns (spawned: seq<nat>, over: bool)
    ensures spawned == Spawns(actions) && over == (F.ListenerClosed in actions)
  {
    spawned, over := [], false;
    var i := 0;
    assert [] + Spawns(actions) == Spawns(actions) && actions[0..] == actions;
    while i < |actions| && !over
      invariant 0 <= i <= |actions|
      invariant Spawns(actions) == if over then spawned else spawned + Spawns(actions[i..])
      invariant over == (F.ListenerClosed in actions[..i])
    {
      SpawnsNext(actions, i, spawned);
      match actions[i] {
        case Connect(conn) =>
          spawned := spawned + [conn];
        case ListenerClosed =>
          over := true;
      }
      i := i + 1;
    }
    if !over { assert actions[..i] == actions && actions[i..] == [] && spawned + [] == spawned; }
  }

  /** Handling the action number `i` after `spawned` tasks were spawned. */
  lemma SpawnsNext(actions: seq<F.ListenerAction>, i: nat, spawned: seq<nat>)
    requires i < |actions|
    ensures actions[..i + 1] == actions[..i] + [actions[i]]
    ensures spawned + Spawns(actions[i..])
         == if actions[i].Connect? then (spawned + [actions[i].conn]) + Spawns(actions[i + 1..]) else spawned
  {
    assert actions[i..][0] == actions[i] && actions[i..][1..] == actions[i + 1..];
    if actions[i].Connect? {
      var rest := Spawns(actions[i + 1..]);
      assert spawned + ([actions[i].conn] + rest) == (spawned + [actions[i].conn]) + rest;
    } else {
      assert spawned + [] == spawned;
    }
  }

  /** A connecter fed by one listener spawns a task for every accepted connection, and is over when the listener is. */
  lemma EveryConnectIsServed(attempts: seq<Attempt>, rest: seq<F.ListenerAction>, taskEnd: bool)
    requires rest == if taskEnd then [F.ListenerClosed] else []
    ensures var a, spawned := Asked(attempts), Spawns(Asked(attempts) + rest);
      |spawned| == |a| && forall k :: 0 <= k < |a| ==> a[k] == F.Connect(spawned[k])
  {
    var a := Asked(attempts);
    forall k | 0 <= k < |a| ensures a[k].Connect? { RequestAt(attempts, k); }
    SpawnsAll(a, rest);
  }

  lemma {:induction false} SpawnsAll(a: seq<F.ListenerAction>, rest: seq<F.ListenerAction>)
    requires forall k :: 0 <= k < |a| ==> a[k].Connect?
    requires rest == [] || rest == [F.ListenerClosed]
    ensures var spawned := Spawns(a + rest);
      |spawned| == |a| && forall k :: 0 <= k < |a| ==> a[k] == F.Connect(spawned[k])
  {
    if a == [] {
      assert a + rest == rest;
    } else {
      assert (a + rest)[0] == a[0] && (a + rest)[1..] == a[1..] + rest;
      SpawnsAll(a[1..], rest);
    }
  }

  /** The server's router agrees with the port machine about port `port`. */
  ghost predicate Mirrors(router: Router, port: nat, p: F.Port)
    reads router
  {
    && (forall c: nat :: c in p.serverStreams <==> Forward(port, c) in router.sinkTx)
    && (forall c: nat :: c in p.serverStreams <==> Forward(port, c) in router.sourceTx)
  }

  /** A connect task from its result on: the response goes out first, then, on success, the tasks are registered. */
  method Respond(router: Router, port: nat, conn: nat, ok: bool, ghost p: F.Port)
    returns (response: F.Response, asserted: bool)
    requires router.Valid() && Mirrors(router, port, p)
    requires conn in p.tasks && p.tasks[conn] == F.Responding(ok)
    modifies router
    ensures router.Valid() && response == F.Response(conn, ok)
    ensures Forward(port, conn) in router.sinkTx <==> ok || Forward(port, conn) in old(router.sinkTx)
    ensures Forward(port, conn) in router.sourceTx <==> ok || Forward(port, conn) in old(router.sourceTx)
    ensures var m := F.PortStep(p, F.Respond(conn)).value;
      Mirrors(router, port, m.port) && [response] == m.down && asserted == m.asserts
  {
    response, asserted := F.Response(conn, ok), true;
    if ok {
      asserted := Establish(router, Forward(port, conn));
    }
  }
}
