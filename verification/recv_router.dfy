/** `RecvRouter`: the maps from ids to the channels of one process's tasks, and what passes through them. */
module RecvRouter {
  import opened Protocol
  import F = Forwarding

  datatype StreamId = Std(std: StdId) | Forward(port: nat, conn: nat)

  datatype ConnecterAction = ConnectResponse(ok: bool)

  datatype StreamAction =
    | Source(id: StreamId, source: SourceAction)
    | Sink(id: StreamId, sink: SinkAction)
    | Listener(port: nat, listener: F.ListenerAction)
    | Connecter(id: StreamId, connecter: ConnecterAction)

  // ---------------------------------------------------------------- channels

  /** What has been put into a channel, how much of it was taken out, its capacity, and whether its receiver exists. */
  datatype Mailbox<T> = Mailbox(sent: seq<T>, received: nat, capacity: nat, open: bool)

  predicate HasRoom<T>(m: Mailbox<T>) { |m.sent| < m.received + m.capacity }

  /** A bounded channel: everything ever put in, how much of it was taken out, and whether its receiver exists. */
  class Channel<T> {
    const capacity: nat
    var sent: seq<T>
    var received: nat
    var open: bool

    predicate Valid() reads this { 0 < capacity && received <= |sent| <= received + capacity }

    function Box(): Mailbox<T> reads this { Mailbox(sent, received, capacity, open) }

    constructor (capacity: nat)
      requires 0 < capacity
      ensures Valid() && this.capacity == capacity && sent == [] && received == 0 && open
    {
      this.capacity, sent, received, open := capacity, [], 0, true;
    }

    /** `recv`, when there is a message or the senders are gone. */
    method Receive() returns (message: Option<T>)
      requires Valid()
      modifies this`received
      ensures Valid()
      ensures message == if old(received) < |sent| then Some(sent[old(received)]) else None
      ensures received == if message.Some? then old(received) + 1 else old(received)
    {
      if received == |sent| {
        return None;
      }
      message := Some(sent[received]);
      received := received + 1;
    }

    /** `send(..).await`: while the channel is full its receiver either takes a message or goes away. */
    method Send(message: T) returns (ok: bool)
      requires Valid()
      modifies this
      ensures Valid()
      ensures ok == open && (open ==> old(open))
      ensures sent == if ok then old(sent) + [message] else old(sent)
      ensures old(HasRoom(Box()) || !open) ==> ok == old(open) && received == old(received)
    {
      if open && |sent| == received + capacity {
        var leaves: bool := *;
        if leaves {
          open := false;
        } else {
          received := received + 1;
        }
      }
      if open {
        sent := sent + [message];
      }
      return open;
    }
  }

  // -------------------------------------------------------- what a task is fed

  function ForSink(id: StreamId): StreamAction -> seq<SourceAction> {
    (a: StreamAction) => if a.Source? && a.id == id then [a.source] else []
  }

  function ForSource(id: StreamId): StreamAction -> seq<SinkAction> {
    (a: StreamAction) => if a.Sink? && a.id == id then [a.sink] else []
  }

  function ForConnecter(port: nat): StreamAction -> seq<F.ListenerAction> {
    (a: StreamAction) => if a.Listener? && a.port == port then [a.listener] else []
  }

  function ForListener(id: StreamId): StreamAction -> seq<ConnecterAction> {
    (a: StreamAction) => if a.Connecter? && a.id == id then [a.connecter] else []
  }

  /** The part of `actions` that `pick` selects, in order. */
  function Feed<T>(pick: StreamAction -> seq<T>, actions: seq<StreamAction>): seq<T> {
    if actions == [] then [] else Feed(pick, actions[..|actions| - 1]) + pick(actions[|actions| - 1])
  }

  /** The channel took in `more`, all of it if its receiver still exists and otherwise perhaps only a first part. */
  predicate Took<T(==)>(before: Mailbox<T>, after: Mailbox<T>, more: seq<T>) {
    && before.sent <= after.sent <= before.sent + more
    && (after.open ==> before.open && after.sent == before.sent + more)
  }

  /** The channel took in all of `more`. */
  predicate TookAll<T(==)>(before: Mailbox<T>, after: Mailbox<T>, more: seq<T>) {
    after.sent == before.sent + more && (after.open ==> before.open)
  }

  /** The channels registered in a router. */
  datatype View = View(
    sinks: map<StreamId, Mailbox<SourceAction>>,
    sources: map<StreamId, Mailbox<SinkAction>>,
    connecters: map<nat, Mailbox<F.ListenerAction>>,
    listeners: map<StreamId, Mailbox<ConnecterAction>>)

  /**
   * Between `v` and `w` each task was fed its part of `actions` and nothing else; only a source that has ended misses
   * some.
   */
  ghost predicate Fed(v: View, w: View, actions: seq<StreamAction>) {
    && v.sinks.Keys == w.sinks.Keys && v.sources.Keys == w.sources.Keys
    && v.connecters.Keys == w.connecters.Keys && v.listeners.Keys == w.listeners.Keys
    && (forall id :: id in w.sinks ==> TookAll(v.sinks[id], w.sinks[id], Feed(ForSink(id), actions)))
    && (forall id :: id in w.sources ==> Took(v.sources[id], w.sources[id], Feed(ForSource(id), actions)))
    && (forall port :: port in w.connecters ==>
         TookAll(v.connecters[port], w.connecters[port], Feed(ForConnecter(port), actions)))
    && (forall id :: id in w.listeners ==> TookAll(v.listeners[id], w.listeners[id], Feed(ForListener(id), actions)))
  }

  lemma FeedLast<T>(pick: StreamAction -> seq<T>, actions: seq<StreamAction>, a: StreamAction)
    ensures Feed(pick, actions + [a]) == Feed(pick, actions) + pick(a)
  {
    assert (actions + [a])[..|actions|] == actions;
  }

  lemma TookMore<T>(u: Mailbox<T>, v: Mailbox<T>, w: Mailbox<T>, x: seq<T>, y: seq<T>)
    ensures TookAll(u, v, x) && TookAll(v, w, y) ==> TookAll(u, w, x + y)
    ensures Took(u, v, x) && Took(v, w, y) && (!v.open ==> w.sent == v.sent) ==> Took(u, w, x + y)
  {
    assert u.sent + (x + y) == (u.sent + x) + y;
  }

  /** Feeding one action after the others. */
  lemma FedMore(u: View, v: View, w: View, actions: seq<StreamAction>, a: StreamAction)
    requires Fed(u, v, actions) && Fed(v, w, [a])
    requires forall id :: id in v.sources && !v.sources[id].open ==> w.sources[id].sent == v.sources[id].sent
    ensures Fed(u, w, actions + [a])
  {
    forall id | id in w.sinks ensures TookAll(u.sinks[id], w.sinks[id], Feed(ForSink(id), actions + [a])) {
      FeedOne(ForSink(id), actions, a);
      TookMore(u.sinks[id], v.sinks[id], w.sinks[id], Feed(ForSink(id), actions), Feed(ForSink(id), [a]));
    }
    forall id | id in w.sources ensures Took(u.sources[id], w.sources[id], Feed(ForSource(id), actions + [a])) {
      FeedOne(ForSource(id), actions, a);
      TookMore(u.sources[id], v.sources[id], w.sources[id], Feed(ForSource(id), actions), Feed(ForSource(id), [a]));
    }
    forall port | port in w.connecters
      ensures TookAll(u.connecters[port], w.connecters[port], Feed(ForConnecter(port), actions + [a]))
    {
      FeedOne(ForConnecter(port), actions, a);
      TookMore(u.connecters[port], v.connecters[port], w.connecters[port],
               Feed(ForConnecter(port), actions), Feed(ForConnecter(port), [a]));
    }
    forall id | id in w.listeners
      ensures TookAll(u.listeners[id], w.listeners[id], Feed(ForListener(id), actions + [a]))
    {
      FeedOne(ForListener(id), actions, a);
      TookMore(u.listeners[id], v.listeners[id], w.listeners[id],
               Feed(ForListener(id), actions), Feed(ForListener(id), [a]));
    }
  }

  lemma FeedOne<T>(pick: StreamAction -> seq<T>, actions: seq<StreamAction>, a: StreamAction)
    ensures Feed(pick, [a]) == pick(a)
    ensures Feed(pick, actions + [a]) == Feed(pick, actions) + Feed(pick, [a])
  {
    FeedLast(pick, actions, a);
    assert [a][..0] == [];
    assert Feed(pick, [a]) == [] + pick(a);
  }

  /** The entries of one map: working channels, no two of them the same. */
  ghost predicate Table<K, T>(m: map<K, Channel<T>>) reads set k | k in m :: m[k] {
    && (forall k :: k in m ==> m[k].Valid())
    && (forall j, k :: j in m && k in m && j != k ==> m[j] != m[k])
  }

  ghost function Mailboxes<K, T>(m: map<K, Channel<T>>): map<K, Mailbox<T>> reads set k | k in m :: m[k] {
    map k | k in m :: m[k].Box()
  }

  /** `v` lists the entries of `m`, in some order. */
  ghost predicate Lists<K, T>(v: seq<(K, Channel<T>)>, m: map<K, Channel<T>>) {
    && (forall i :: 0 <= i < |v| ==> v[i].0 in m && m[v[i].0] == v[i].1)
    && (forall i, j :: 0 <= i < j < |v| ==> v[i].0 != v[j].0)
    && (forall k :: k in m ==> exists i :: 0 <= i < |v| && v[i].0 == k)
  }

  datatype Routed = Delivered | Dropped | NotFound | Gone

  /** What sending `message` to the channel of `key` changes. */
  ghost predicate Posted<K(!new), T>(m: map<K, Mailbox<T>>, n: map<K, Mailbox<T>>, key: K, message: T, r: Routed) {
    && n.Keys == m.Keys
    && (r.NotFound? <==> key !in m)
    && (forall k :: k in m && k != key ==> n[k] == m[k])
    && (key in m ==>
         && (n[key].open ==> m[key].open)
         && (r.Delivered? <==> n[key].open)
         && (HasRoom(m[key]) || !m[key].open ==> n[key].open == m[key].open && n[key].received == m[key].received)
         && n[key].capacity == m[key].capacity
         && n[key].sent == if r.Delivered? then m[key].sent + [message] else m[key].sent)
  }

  function Handled(a: StreamAction, r: Routed): seq<StreamAction> {
    if r.Delivered? || r.Dropped? then [a] else []
  }

  lemma FeedAtMostOne<T>(pick: StreamAction -> seq<T>, a: StreamAction)
    ensures Feed(pick, []) == [] && Feed(pick, [a]) == pick(a)
  {
    FeedLast(pick, [], a);
    assert [] + [a] == [a] && [] + pick(a) == pick(a);
  }

  /** What routing `a` changes: one entry of one map, which took `a` in or has lost its receiver. */
  ghost predicate Routes(v: View, w: View, a: StreamAction, r: Routed) {
    match a
    case Source(id, x) => w == v.(sinks := w.sinks) && Posted(v.sinks, w.sinks, id, x, r) && !r.Dropped?
    case Sink(id, x) => w == v.(sources := w.sources) && Posted(v.sources, w.sources, id, x, r) && !r.Gone?
    case Listener(port, x) =>
      w == v.(connecters := w.connecters) && Posted(v.connecters, w.connecters, port, x, r) && !r.Dropped?
    case Connecter(id, x) =>
      w == v.(listeners := w.listeners) && Posted(v.listeners, w.listeners, id, x, r) && !r.Dropped?
  }

  lemma Kept<T>(m: Mailbox<T>)
    ensures TookAll(m, m, []) && Took(m, m, [])
  {
    assert m.sent + [] == m.sent;
  }

  lemma PostedIsTook<K(!new), T>(m: map<K, Mailbox<T>>, n: map<K, Mailbox<T>>, key: K, message: T, r: Routed, k: K)
    requires Posted(m, n, key, message, r) && k in m
    ensures !r.Dropped? ==> TookAll(m[k], n[k], if k == key && r.Delivered? then [message] else [])
    ensures Took(m[k], n[k], if k == key && (r.Delivered? || r.Dropped?) then [message] else [])
  {
    Kept(m[k]);
  }

  /** Routing feeds the addressed task and no other. */
  lemma RoutingFeeds(v: View, w: View, a: StreamAction, r: Routed)
    requires Routes(v, w, a, r)
    ensures Fed(v, w, Handled(a, r))
  {
    forall k | k in w.sinks ensures TookAll(v.sinks[k], w.sinks[k], Feed(ForSink(k), Handled(a, r))) {
      FeedAtMostOne(ForSink(k), a);
      Kept(v.sinks[k]);
      if a.Source? { PostedIsTook(v.sinks, w.sinks, a.id, a.source, r, k); }
    }
    forall k | k in w.sources ensures Took(v.sources[k], w.sources[k], Feed(ForSource(k), Handled(a, r))) {
      FeedAtMostOne(ForSource(k), a);
      Kept(v.sources[k]);
      if a.Sink? { PostedIsTook(v.sources, w.sources, a.id, a.sink, r, k); }
    }
    forall k | k in w.connecters
      ensures TookAll(v.connecters[k], w.connecters[k], Feed(ForConnecter(k), Handled(a, r)))
    {
      FeedAtMostOne(ForConnecter(k), a);
      Kept(v.connecters[k]);
      if a.Listener? { PostedIsTook(v.connecters, w.connecters, a.port, a.listener, r, k); }
    }
    forall k | k in w.listeners ensures TookAll(v.listeners[k], w.listeners[k], Feed(ForListener(k), Handled(a, r))) {
      FeedAtMostOne(ForListener(k), a);
      Kept(v.listeners[k]);
      if a.Connecter? { PostedIsTook(v.listeners, w.listeners, a.id, a.connecter, r, k); }
    }
  }

  lemma FedNothing(v: View)
    ensures Fed(v, v, [])
  {
    forall k | k in v.sinks ensures TookAll(v.sinks[k], v.sinks[k], Feed(ForSink(k), [])) { Kept(v.sinks[k]); }
    forall k | k in v.sources ensures Took(v.sources[k], v.sources[k], Feed(ForSource(k), [])) { Kept(v.sources[k]); }
    forall k | k in v.connecters ensures TookAll(v.connecters[k], v.connecters[k], Feed(ForConnecter(k), [])) {
      Kept(v.connecters[k]);
    }
    forall k | k in v.listeners ensures TookAll(v.listeners[k], v.listeners[k], Feed(ForListener(k), [])) {
      Kept(v.listeners[k]);
    }
  }

  /** Routing one action after others were routed. */
  lemma FedThenRouted(u: View, v: View, w: View, actions: seq<StreamAction>, a: StreamAction, r: Routed)
    requires Fed(u, v, actions) && Routes(v, w, a, r)
    ensures Fed(u, w, actions + Handled(a, r))
    ensures r.NotFound? || r.Gone? <==> Unroutable(w, a)
  {
    RoutingFeeds(v, w, a, r);
    if Handled(a, r) == [a] {
      FedMore(u, v, w, actions, a);
    } else {
      assert actions + [] == actions;
      FedNothingMore(u, v, w, actions);
    }
  }

  /** Any sequence of routed actions: afterwards each task has been fed exactly its part of them, in order. */
  lemma {:induction false} RoutedInSequence(views: seq<View>, actions: seq<StreamAction>, results: seq<Routed>)
    requires |views| == |actions| + 1 && |results| == |actions|
    requires forall i :: 0 <= i < |actions| ==>
      Routes(views[i], views[i + 1], actions[i], results[i]) && (results[i].Delivered? || results[i].Dropped?)
    ensures Fed(views[0], views[|actions|], actions)
  {
    if actions == [] {
      FedNothing(views[0]);
    } else {
      var n := |actions| - 1;
      assert Fed(views[0], views[n], actions[..n]) by { RoutedInSequence(views[..n + 1], actions[..n], results[..n]); }
      FedThenRouted(views[0], views[n], views[n + 1], actions[..n], actions[n], results[n]);
      assert actions[..n] + Handled(actions[n], results[n]) == actions;
    }
  }

  lemma FedNothingMore(u: View, v: View, w: View, actions: seq<StreamAction>)
    requires Fed(u, v, actions) && Fed(v, w, [])
    ensures Fed(u, w, actions)
  {
    forall k | k in w.sinks ensures TookAll(u.sinks[k], w.sinks[k], Feed(ForSink(k), actions)) {
      assert v.sinks[k].sent + [] == v.sinks[k].sent;
    }
    forall k | k in w.sources ensures Took(u.sources[k], w.sources[k], Feed(ForSource(k), actions)) {
      assert v.sources[k].sent + [] == v.sources[k].sent;
    }
    forall k | k in w.connecters ensures TookAll(u.connecters[k], w.connecters[k], Feed(ForConnecter(k), actions)) {
      assert v.connecters[k].sent + [] == v.connecters[k].sent;
    }
    forall k | k in w.listeners ensures TookAll(u.listeners[k], w.listeners[k], Feed(ForListener(k), actions)) {
      assert v.listeners[k].sent + [] == v.listeners[k].sent;
    }
  }

  // --------------------------------------------------- what being fed means

  /** Both actions are for the same task's channel. */
  predicate SameChannel(a: StreamAction, b: StreamAction) {
    match a
    case Source(id, _) => b.Source? && b.id == id
    case Sink(id, _) => b.Sink? && b.id == id
    case Listener(port, _) => b.Listener? && b.port == port
    case Connecter(id, _) => b.Connecter? && b.id == id
  }

  /** How many of the first `n` actions are for the channel of `a`. */
  function Before(actions: seq<StreamAction>, n: nat, a: StreamAction): nat
    requires n <= |actions|
  {
    if n == 0 then 0 else Before(actions, n - 1, a) + if SameChannel(a, actions[n - 1]) then 1 else 0
  }

  lemma {:induction false} FeedAt<T>(pick: StreamAction -> seq<T>, actions: seq<StreamAction>, k: nat)
    requires k < |actions|
    ensures Feed(pick, actions[..k]) + pick(actions[k]) <= Feed(pick, actions)
    decreases |actions|
  {
    var n := |actions| - 1;
    if k < n {
      FeedAt(pick, actions[..n], k);
      assert actions[..n][..k] == actions[..k];
    }
  }

  lemma {:induction false} FeedLength<T>(pick: StreamAction -> seq<T>, actions: seq<StreamAction>, n: nat,
                                         a: StreamAction)
    requires n <= |actions| && forall b :: |pick(b)| == if SameChannel(a, b) then 1 else 0
    ensures |Feed(pick, actions[..n])| == Before(actions, n, a)
  {
    if n == 0 {
      assert actions[..0] == [];
    } else {
      FeedLength(pick, actions, n - 1, a);
      assert actions[..n][..n - 1] == actions[..n - 1];
    }
  }

  /** The messages a channel took in between are `n` in number, and number `i` of them is `x`. */
  predicate Holds<T(==)>(before: Mailbox<T>, after: Mailbox<T>, n: nat, i: nat, x: T) {
    && |after.sent| == |before.sent| + n
    && i < n && after.sent[|before.sent| + i] == x
  }

  lemma FedHolds<T>(pick: StreamAction -> seq<T>, actions: seq<StreamAction>, k: nat, x: T,
                    u: Mailbox<T>, w: Mailbox<T>)
    requires k < |actions| && pick(actions[k]) == [x] && w.sent == u.sent + Feed(pick, actions)
    requires forall b :: |pick(b)| == if SameChannel(actions[k], b) then 1 else 0
    ensures Holds(u, w, Before(actions, |actions|, actions[k]), Before(actions, k, actions[k]), x)
  {
    FeedAt(pick, actions, k);
    FeedLength(pick, actions, k, actions[k]);
    FeedLength(pick, actions, |actions|, actions[k]);
    assert actions[..|actions|] == actions;
  }

  /**
   * A task that was fed `actions` has taken in, after what it had before, exactly those that are for it, each at the
   * place given by how many came before it.
   */
  lemma FedMeaning(u: View, w: View, actions: seq<StreamAction>, k: nat)
    requires Fed(u, w, actions) && k < |actions|
    ensures var n, i := Before(actions, |actions|, actions[k]), Before(actions, k, actions[k]);
      match actions[k]
      case Source(id, x) => id in w.sinks ==> Holds(u.sinks[id], w.sinks[id], n, i, x)
      case Sink(id, x) => id in w.sources && w.sources[id].open ==> Holds(u.sources[id], w.sources[id], n, i, x)
      case Listener(port, x) => port in w.connecters ==> Holds(u.connecters[port], w.connecters[port], n, i, x)
      case Connecter(id, x) => id in w.listeners ==> Holds(u.listeners[id], w.listeners[id], n, i, x)
  {
    match actions[k] {
      case Source(id, x) =>
        if id in w.sinks { FedHolds(ForSink(id), actions, k, x, u.sinks[id], w.sinks[id]); }
      case Sink(id, x) =>
        if id in w.sources && w.sources[id].open {
          FedHolds(ForSource(id), actions, k, x, u.sources[id], w.sources[id]);
        }
      case Listener(port, x) =>
        if port in w.connecters { FedHolds(ForConnecter(port), actions, k, x, u.connecters[port], w.connecters[port]); }
      case Connecter(id, x) =>
        if id in w.listeners { FedHolds(ForListener(id), actions, k, x, u.listeners[id], w.listeners[id]); }
    }
  }

  /** Looks a channel up and sends to it. */
  method SendTo<K(==,!new), T>(m: map<K, Channel<T>>, key: K, message: T) returns (r: Routed)
    requires Table(m)
    modifies if key in m then {m[key]} else {}
    ensures Table(m)
    ensures r == if key !in m then NotFound else if m[key].open then Delivered else Gone
    ensures Posted(old(Mailboxes(m)), Mailboxes(m), key, message, r)
  {
    if key !in m {
      return NotFound;
    }
    var ok := m[key].Send(message);
    r := if ok then Delivered else Gone;
  }

  /** Takes all entries out of a map, in whatever order the map yields them. */
  method Drain<K(==), T>(m: map<K, Channel<T>>) returns (v: seq<(K, Channel<T>)>)
    ensures Lists(v, m)
  {
    v := [];
    var left := m.Keys;
    while left != {}
      invariant left <= m.Keys
      invariant forall i :: 0 <= i < |v| ==> v[i].0 in m && m[v[i].0] == v[i].1 && v[i].0 !in left
      invariant forall i, j :: 0 <= i < j < |v| ==> v[i].0 != v[j].0
      invariant forall k :: k in m && k !in left ==> exists i :: 0 <= i < |v| && v[i].0 == k
    {
      var key :| key in left;
      ghost var was := v;
      v, left := v + [(key, m[key])], left - {key};
      assert v[|was|].0 == key;
      forall k | k in m && k !in left ensures exists i :: 0 <= i < |v| && v[i].0 == k {
        if k != key {
          var i :| 0 <= i < |was| && was[i].0 == k;
          assert v[i].0 == k;
        }
      }
    }
  }

  method TellOne<K, T>(key: K, channel: Channel<T>, ghost m: map<K, Channel<T>>, message: T)
    requires Table(m) && key in m && m[key] == channel
    modifies channel
    ensures Table(m)
    ensures Took(old(channel.Box()), channel.Box(), [message])
    ensures Mailboxes(m) == old(Mailboxes(m))[key := channel.Box()]
  {
    var ok := channel.Send(message);
    assert forall k :: k in m && k != key ==> unchanged(m[k]);
  }

  /** Sends `message` to every channel of a drained map; a channel whose receiver is gone is skipped. */
  method TellAll<K(==), T>(v: seq<(K, Channel<T>)>, ghost m: map<K, Channel<T>>, message: T) returns (told: seq<K>)
    requires Table(m) && Lists(v, m)
    modifies set k | k in m :: m[k]
    ensures Table(m)
    ensures TookEach(old(Mailboxes(m)), Mailboxes(m), [message])
    ensures IsListing(told, m.Keys)
  {
    told := [];
    ghost var before, now := Mailboxes(m), Mailboxes(m);
    var i := 0;
    while i < |v|
      invariant 0 <= i <= |v| && |told| == i && Table(m) && now == Mailboxes(m)
      invariant forall j :: 0 <= j < i ==> told[j] == v[j].0
      invariant ToldUpTo(v, before, now, i, message)
    {
      TellOne(v[i].0, v[i].1, m, message);
      assert ToldUpTo(v, before, now[v[i].0 := v[i].1.Box()], i + 1, message) by {
        ToldNext(v, m, before, now, i, v[i].1.Box(), message);
      }
      now := Mailboxes(m);
      told := told + [v[i].0];
      i := i + 1;
    }
    assert IsListing(told, m.Keys) by { ToldEach(v, m, told); }
    assert TookEach(before, now, [message]) by { ToldAll(v, m, before, now, message); }
  }

  /** The first `i` of the listed entries have been told. */
  predicate ToldUpTo<K, T(==)>(v: seq<(K, Channel<T>)>, before: map<K, Mailbox<T>>, now: map<K, Mailbox<T>>,
                               i: nat, message: T)
  {
    && now.Keys == before.Keys && (forall j :: 0 <= j < |v| ==> v[j].0 in before)
    && (forall j :: 0 <= j < i <= |v| ==> Took(before[v[j].0], now[v[j].0], [message]))
    && (forall j :: i <= j < |v| ==> now[v[j].0] == before[v[j].0])
  }

  lemma ToldNext<K, T>(v: seq<(K, Channel<T>)>, m: map<K, Channel<T>>, before: map<K, Mailbox<T>>,
                       now: map<K, Mailbox<T>>, i: nat, box: Mailbox<T>, message: T)
    requires Lists(v, m) && ToldUpTo(v, before, now, i, message) && i < |v| && Took(now[v[i].0], box, [message])
    ensures ToldUpTo(v, before, now[v[i].0 := box], i + 1, message)
  {
  }

  /** A map of which every listed entry was told has been told everywhere. */
  lemma ToldAll<K, T>(v: seq<(K, Channel<T>)>, m: map<K, Channel<T>>,
                      before: map<K, Mailbox<T>>, after: map<K, Mailbox<T>>, message: T)
    requires Lists(v, m) && before.Keys == m.Keys && ToldUpTo(v, before, after, |v|, message)
    ensures TookEach(before, after, [message])
  {
    forall k | k in m ensures Took(before[k], after[k], [message]) {
      var j :| 0 <= j < |v| && v[j].0 == k;
    }
  }

  lemma ToldEach<K, T>(v: seq<(K, Channel<T>)>, m: map<K, Channel<T>>, told: seq<K>)
    requires Lists(v, m) && |told| == |v| && forall j :: 0 <= j < |v| ==> told[j] == v[j].0
    ensures IsListing(told, m.Keys)
  {
    forall k | k in m ensures k in told {
      var j :| 0 <= j < |v| && v[j].0 == k;
      assert told[j] == k;
    }
  }

  method TellTasks(sinkTxMap: seq<(StreamId, Channel<SourceAction>)>, sourceTxMap: seq<(StreamId, Channel<SinkAction>)>,
                   ghost m: map<StreamId, Channel<SourceAction>>, ghost n: map<StreamId, Channel<SinkAction>>)
    returns (sinks: seq<StreamId>, sources: seq<StreamId>)
    requires Table(m) && Lists(sinkTxMap, m) && Table(n) && Lists(sourceTxMap, n)
    modifies (set k | k in m :: m[k]), (set k | k in n :: n[k])
    ensures Table(m) && Table(n)
    ensures IsListing(sinks, m.Keys) && IsListing(sources, n.Keys)
    ensures TookEach(old(Mailboxes(m)), Mailboxes(m), [SourceClosed])
    ensures TookEach(old(Mailboxes(n)), Mailboxes(n), [SinkClosed])
  {
    sinks := TellAll(sinkTxMap, m, SourceClosed);
    assert forall id :: id in n ==> unchanged(n[id]);
    label Told:
    sources := TellAll(sourceTxMap, n, SinkClosed);
    assert forall id :: id in m ==> unchanged@Told(m[id]);
  }

  predicate TookEach<K, T(==)>(before: map<K, Mailbox<T>>, after: map<K, Mailbox<T>>, more: seq<T>) {
    before.Keys == after.Keys && forall k <- before :: Took(before[k], after[k], more)
  }

  /** `s` holds every element of `keys` exactly once. */
  predicate IsListing<K(==)>(s: seq<K>, keys: set<K>) {
    && (forall i :: 0 <= i < |s| ==> s[i] in keys)
    && (forall i, j :: 0 <= i < j < |s| ==> s[i] != s[j])
    && (forall k :: k in keys ==> k in s)
  }

  /** No task is registered for `a`, or the one that is has gone although it may not; a source may. */
  predicate Unroutable(v: View, a: StreamAction) {
    match a
    case Source(id, _) => id !in v.sinks || !v.sinks[id].open
    case Sink(id, _) => id !in v.sources
    case Listener(port, _) => port !in v.connecters || !v.connecters[port].open
    case Connecter(id, _) => id !in v.listeners || !v.listeners[id].open
  }

  class Router {
    var sinkTx: map<StreamId, Channel<SourceAction>>
    var sourceTx: map<StreamId, Channel<SinkAction>>
    var connecterTx: map<nat, Channel<F.ListenerAction>>
    var listenerTx: map<StreamId, Channel<ConnecterAction>>

    ghost function Repr(): set<object> reads this {
      (set id | id in sinkTx :: sinkTx[id] as object) + (set id | id in sourceTx :: sourceTx[id] as object)
      + (set port | port in connecterTx :: connecterTx[port] as object)
      + (set id | id in listenerTx :: listenerTx[id] as object)
    }

    ghost predicate Valid() reads this, Repr() {
      Table(sinkTx) && Table(sourceTx) && Table(connecterTx) && Table(listenerTx)
    }

    ghost function Entries(): View reads this, Repr() {
      View(Mailboxes(sinkTx), Mailboxes(sourceTx), Mailboxes(connecterTx), Mailboxes(listenerTx))
    }

    constructor ()
      ensures Valid() && sinkTx == map[] && sourceTx == map[] && connecterTx == map[] && listenerTx == map[]
    {
      sinkTx, sourceTx, connecterTx, listenerTx := map[], map[], map[], map[];
    }

    /** The result says whether the assertion holds that the id is new. */
    method InsertSinkTx(id: StreamId, tx: Channel<SourceAction>) returns (isNew: bool)
      requires Valid() && tx.Valid() && tx !in sinkTx.Values
      modifies this
      ensures Valid() && isNew == (id !in old(sinkTx)) && sinkTx == old(sinkTx)[id := tx]
      ensures sourceTx == old(sourceTx) && connecterTx == old(connecterTx) && listenerTx == old(listenerTx)
    {
      isNew := id !in sinkTx;
      sinkTx := sinkTx[id := tx];
    }

    method InsertSourceTx(id: StreamId, tx: Channel<SinkAction>) returns (isNew: bool)
      requires Valid() && tx.Valid() && tx !in sourceTx.Values
      modifies this
      ensures Valid() && isNew == (id !in old(sourceTx)) && sourceTx == old(sourceTx)[id := tx]
      ensures sinkTx == old(sinkTx) && connecterTx == old(connecterTx) && listenerTx == old(listenerTx)
    {
      isNew := id !in sourceTx;
      sourceTx := sourceTx[id := tx];
    }

    method InsertConnecterTx(port: nat, tx: Channel<F.ListenerAction>) returns (isNew: bool)
      requires Valid() && tx.Valid() && tx !in connecterTx.Values
      modifies this
      ensures Valid() && isNew == (port !in old(connecterTx)) && connecterTx == old(connecterTx)[port := tx]
      ensures sinkTx == old(sinkTx) && sourceTx == old(sourceTx) && listenerTx == old(listenerTx)
    {
      isNew := port !in connecterTx;
      connecterTx := connecterTx[port := tx];
    }

    method InsertListenerTx(id: StreamId, tx: Channel<ConnecterAction>) returns (isNew: bool)
      requires Valid() && tx.Valid() && tx !in listenerTx.Values
      modifies this
      ensures Valid() && isNew == (id !in old(listenerTx)) && listenerTx == old(listenerTx)[id := tx]
      ensures sinkTx == old(sinkTx) && sourceTx == old(sourceTx) && connecterTx == old(connecterTx)
    {
      isNew := id !in listenerTx;
      listenerTx := listenerTx[id := tx];
    }

    /** The result says whether the assertion holds that the entry was there. */
    method RemoveListenerTx(id: StreamId) returns (found: bool)
      requires Valid()
      modifies this
      ensures Valid() && found == (id in old(listenerTx)) && listenerTx == old(listenerTx) - {id}
      ensures sinkTx == old(sinkTx) && sourceTx == old(sourceTx) && connecterTx == old(connecterTx)
    {
      found := id in listenerTx;
      listenerTx := listenerTx - {id};
    }

    method SendSourceAction(id: StreamId, action: SourceAction) returns (r: Routed)
      requires Valid()
      modifies if id in sinkTx then {sinkTx[id]} else {}
      ensures Valid()
      ensures Routes(old(Entries()), Entries(), Source(id, action), r)
    {
      r := SendTo(sinkTx, id, action);
      assert forall k :: k in sourceTx ==> unchanged(sourceTx[k]);
      assert forall k :: k in connecterTx ==> unchanged(connecterTx[k]);
      assert forall k :: k in listenerTx ==> unchanged(listenerTx[k]);
    }

    /** A reply may come after its source ended; that is no error. */
    method SendSinkAction(id: StreamId, action: SinkAction) returns (r: Routed)
      requires Valid()
      modifies if id in sourceTx then {sourceTx[id]} else {}
      ensures Valid()
      ensures Routes(old(Entries()), Entries(), Sink(id, action), r)
    {
      r := SendTo(sourceTx, id, action);
      assert forall k :: k in sinkTx ==> unchanged(sinkTx[k]);
      assert forall k :: k in connecterTx ==> unchanged(connecterTx[k]);
      assert forall k :: k in listenerTx ==> unchanged(listenerTx[k]);
      if r.Gone? {
        r := Dropped;
      }
    }

    method SendListenerAction(port: nat, action: F.ListenerAction) returns (r: Routed)
      requires Valid()
      modifies if port in connecterTx then {connecterTx[port]} else {}
      ensures Valid()
      ensures Routes(old(Entries()), Entries(), Listener(port, action), r)
    {
      r := SendTo(connecterTx, port, action);
      assert forall k :: k in sinkTx ==> unchanged(sinkTx[k]);
      assert forall k :: k in sourceTx ==> unchanged(sourceTx[k]);
      assert forall k :: k in listenerTx ==> unchanged(listenerTx[k]);
    }

    method SendConnecterAction(id: StreamId, action: ConnecterAction) returns (r: Routed)
      requires Valid()
      modifies if id in listenerTx then {listenerTx[id]} else {}
      ensures Valid()
      ensures Routes(old(Entries()), Entries(), Connecter(id, action), r)
    {
      r := SendTo(listenerTx, id, action);
      assert forall k :: k in sinkTx ==> unchanged(sinkTx[k]);
      assert forall k :: k in sourceTx ==> unchanged(sourceTx[k]);
      assert forall k :: k in connecterTx ==> unchanged(connecterTx[k]);
    }

    method SendStreamAction(action: StreamAction) returns (r: Routed)
      requires Valid()
      modifies Repr()
      ensures Valid() && unchanged(this)
      ensures Routes(old(Entries()), Entries(), action, r)
    {
      match action {
        case Source(id, a) => r := SendSourceAction(id, a);
        case Sink(id, a) => r := SendSinkAction(id, a);
        case Listener(port, a) => r := SendListenerAction(port, a);
        case Connecter(id, a) => r := SendConnecterAction(id, a);
      }
    }

    /** Routes `action` after `done` was routed since the entries were `before`. */
    method RouteNext(action: StreamAction, ghost before: View, ghost done: seq<StreamAction>) returns (ok: bool)
      requires Valid() && Fed(before, Entries(), done)
      modifies Repr()
      ensures Valid() && unchanged(this)
      ensures if ok then Fed(before, Entries(), done + [action])
              else Fed(before, Entries(), done) && Unroutable(Entries(), action)
    {
      ghost var here := Entries();
      var r := SendStreamAction(action);
      FedThenRouted(before, here, Entries(), done, action, r);
      assert done + [] == done;
      return !(r.NotFound? || r.Gone?);
    }

    method TakeAll()
      returns (sinkTxMap: seq<(StreamId, Channel<SourceAction>)>, sourceTxMap: seq<(StreamId, Channel<SinkAction>)>)
      modifies this
      ensures Lists(sinkTxMap, old(sinkTx)) && Lists(sourceTxMap, old(sourceTx))
      ensures sinkTx == map[] && sourceTx == map[] && connecterTx == map[] && listenerTx == old(listenerTx)
    {
      sinkTxMap := Drain(sinkTx);
      sourceTxMap := Drain(sourceTx);
      sinkTx, sourceTx, connecterTx := map[], map[], map[];
    }

    /**
     * `shutdown`: forgets all sinks, sources and connecters, then tells every sink and after them every source that
     * its other side closed. Connecters are told nothing, and listeners that wait for a response stay registered:
     * the channels of neither are touched.
     */
    method Shutdown() returns (sinks: seq<StreamId>, sources: seq<StreamId>)
      requires Valid()
      modifies this, (set id | id in sinkTx :: sinkTx[id]), (set id | id in sourceTx :: sourceTx[id])
      ensures Valid()
      ensures sinkTx == map[] && sourceTx == map[] && connecterTx == map[]
      ensures listenerTx == old(listenerTx)
      ensures IsListing(sinks, old(sinkTx).Keys) && IsListing(sources, old(sourceTx).Keys)
      ensures TookEach(old(Mailboxes(sinkTx)), Mailboxes(old(sinkTx)), [SourceClosed])
      ensures TookEach(old(Mailboxes(sourceTx)), Mailboxes(old(sourceTx)), [SinkClosed])
    {
      ghost var m, n := sinkTx, sourceTx;
      ghost var was := (Mailboxes(m), Mailboxes(n));
      var sinkTxMap, sourceTxMap := TakeAll();
      assert was == (Mailboxes(m), Mailboxes(n));
      sinks, sources := TellTasks(sinkTxMap, sourceTxMap, m, n);
      assert forall id :: id in listenerTx ==> unchanged(listenerTx[id]);
    }
  }
}
