/** The window-change task's loop, and the same signals in a session. */
module WindowTask {
  import opened Protocol
  import opened Session

  /** What a window-change signal leads to: the terminal's size, or nothing where it cannot be asked for. */
  type Size = Option<(nat, nat)>

  function Sizes(signals: seq<Size>): seq<Message> {
    if signals == [] then []
    else
      var n := |signals| - 1;
      Sizes(signals[..n])
      + if signals[n].Some? then [WindowSizeChange(signals[n].value.0, signals[n].value.1)] else []
  }

  /** How many of the first `n` signals lead to a known size. */
  function Known(signals: seq<Size>, n: nat): nat
    requires n <= |signals|
  {
    if n == 0 then 0 else Known(signals, n - 1) + if signals[n - 1].Some? then 1 else 0
  }

  /** A message for each known size and no other, each at its place. */
  lemma {:induction false} SizesMeaning(signals: seq<Size>)
    ensures |Sizes(signals)| == Known(signals, |signals|)
    ensures forall k :: 0 <= k < |signals| && signals[k].Some? ==>
      && Known(signals, k) < |Sizes(signals)|
      && Sizes(signals)[Known(signals, k)] == WindowSizeChange(signals[k].value.0, signals[k].value.1)
  {
    if signals == [] {
    } else {
      var n, first := |signals| - 1, signals[..|signals| - 1];
      SizesMeaning(first);
      KnownOfFirst(signals, n, n);
      forall k | 0 <= k < n && signals[k].Some?
        ensures Known(signals, k) < |Sizes(first)|
        ensures Sizes(first)[Known(signals, k)] == WindowSizeChange(signals[k].value.0, signals[k].value.1)
      {
        KnownOfFirst(signals, n, k);
        assert first[k] == signals[k];
      }
    }
  }

  lemma {:induction false} KnownOfFirst(signals: seq<Size>, m: nat, n: nat)
    requires n <= m <= |signals|
    ensures Known(signals[..m], n) == Known(signals, n)
  {
    if n == 0 {
    } else {
      KnownOfFirst(signals, m, n - 1);
    }
  }

  class Task {
    var sent: seq<Message>

    constructor ()
      ensures sent == []
    {
      sent := [];
    }

    /**
     * `handle`: a message for each signal whose size is known, until the task-end signal; the result says whether it
     * came.
     */
    method Handle(signals: seq<Size>, taskEnd: bool) returns (over: bool)
      modifies this
      ensures sent == old(sent) + Sizes(signals) && over == taskEnd
    {
      for i := 0 to |signals|
        invariant sent == old(sent) + Sizes(signals[..i])
      {
        assert signals[..i + 1][..i] == signals[..i];
        if signals[i].None? {
          continue;
        }
        sent := sent + [WindowSizeChange(signals[i].value.0, signals[i].value.1)];
      }
      assert signals[..|signals|] == signals;
      over := taskEnd;
    }
  }

  /** The events of one signal in a session. */
  function Events(signal: Size): seq<Event> {
    match signal
    case None => [SizeUnknown]
    case Some(size) => [SizeChanged(size.0, size.1), SendSize]
  }

  function AllEvents(signals: seq<Size>): seq<Event> {
    if signals == [] then [] else Events(signals[0]) + AllEvents(signals[1..])
  }

  function AfterSignals(s: Session, signals: seq<Size>): Session {
    var p := s.pipes[ToServer];
    WithPipe(s, ToServer, p.(queue := p.queue + Sizes(signals)))
  }

  lemma UnknownSize(s: Session)
    requires s.window.Listening?
    ensures Step(s, SizeUnknown) == Some(AfterSignals(s, [None]))
  {
    var p := s.pipes[ToServer];
    assert Sizes([None]) == [] && p.queue + [] == p.queue;
    assert s.pipes[ToServer := p] == s.pipes;
  }

  function Sending(s: Session, size: (nat, nat)): Session { s.(window := SendingSize(size.0, size.1)) }

  lemma KnownSize(s: Session, size: (nat, nat))
    requires s.window.Listening? && |s.pipes[ToServer].queue| < QUEUE_CAPACITY
    ensures Step(s, SizeChanged(size.0, size.1)) == Some(Sending(s, size))
    ensures Step(Sending(s, size), SendSize) == Some(AfterSignals(s, [Some(size)]))
  {
    var p, u, m := s.pipes[ToServer], Sending(s, size), WindowSizeChange(size.0, size.1);
    assert Sizes([Some(size)]) == [] + [m] == [m];
    assert Enqueue(u, ToServer, [m]) == Some(WithPipe(u, ToServer, p.(queue := p.queue + [m])));
  }

  lemma OneSignal(s: Session, signal: Size, rest: seq<Event>)
    requires s.window.Listening? && |s.pipes[ToServer].queue| < QUEUE_CAPACITY
    ensures Run(s, Events(signal) + rest) == Run(AfterSignals(s, [signal]), rest)
  {
    var t := AfterSignals(s, [signal]);
    match signal {
      case None =>
        UnknownSize(s);
        RunFirst(s, SizeUnknown, t, rest);
      case Some(size) =>
        KnownSize(s, size);
        assert Events(signal) + rest == [SizeChanged(size.0, size.1)] + ([SendSize] + rest);
        RunFirst(s, SizeChanged(size.0, size.1), Sending(s, size), [SendSize] + rest);
        RunFirst(Sending(s, size), SendSize, t, rest);
    }
  }

  lemma ThenSignals(s: Session, signal: Size, rest: seq<Size>)
    ensures AfterSignals(AfterSignals(s, [signal]), rest) == AfterSignals(s, [signal] + rest)
  {
    var p := s.pipes[ToServer];
    SizesConcat([signal], rest);
    assert p.queue + (Sizes([signal]) + Sizes(rest)) == (p.queue + Sizes([signal])) + Sizes(rest);
    assert AfterSignals(AfterSignals(s, [signal]), rest).pipes == AfterSignals(s, [signal] + rest).pipes;
  }

  lemma {:induction false} SizesConcat(a: seq<Size>, b: seq<Size>)
    ensures Sizes(a + b) == Sizes(a) + Sizes(b)
  {
    if b == [] {
      assert a + b == a;
    } else {
      var n := |b| - 1;
      assert (a + b)[..|a| + n] == a + b[..n];
      SizesConcat(a, b[..n]);
    }
  }

  /**
   * A session's window-change task sends what the loop sends and is back where it was, having touched nothing but the
   * queue.
   */
  lemma {:induction false} SessionSendsSizes(s: Session, signals: seq<Size>)
    requires s.window.Listening?
    requires |s.pipes[ToServer].queue| + |signals| <= QUEUE_CAPACITY
    ensures Run(s, AllEvents(signals)) == Some(AfterSignals(s, signals))
    decreases |signals|
  {
    var p := s.pipes[ToServer];
    if signals == [] {
      assert p.queue + [] == p.queue && s.pipes[ToServer := p] == s.pipes;
      assert AfterSignals(s, signals) == s;
    } else {
      OneSignal(s, signals[0], AllEvents(signals[1..]));
      var t := AfterSignals(s, [signals[0]]);
      assert |Sizes([signals[0]])| <= 1;
      SessionSendsSizes(t, signals[1..]);
      ThenSignals(s, signals[0], signals[1..]);
      assert signals == [signals[0]] + signals[1..];
    }
  }
}
