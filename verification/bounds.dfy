/**
 * Exactly when the number of steps a session can still make is bounded by its state, whatever the schedule, while its
 * output pipes are at end of file.
 */
module Bounds {
  import opened Protocol
  import opened Endpoints
  import opened Session
  import opened Multiplexing
  import opened SessionInvariant
  import opened Guarantees
  import opened Progress
  import opened Termination
  import P = StreamProtocol

  /** A run that reads on stdin only, and in which window-change signals arrive only if `signals`. */
  predicate Restricted(es: seq<Event>, signals: bool) {
    forall i :: 0 <= i < |es| ==> (IsRead(es[i]) ==> es[i].id.Stdin?) && (IsSignal(es[i]) ==> signals)
  }

  ghost predicate BoundedBy(s: Session, signals: bool, n: nat) {
    forall es :: Restricted(es, signals) && Run(s, es).Some? ==> |es| <= n
  }

  /** One bound holds for all runs from `s`. */
  ghost predicate HasBound(s: Session, signals: bool) { exists n: nat :: BoundedBy(s, signals, n) }

  /** Stdin's `SinkClosed` is injected, its sink has met a broken pipe, or its source has stopped reading. */
  predicate Ending(e: Ends) { e.foreign > 0 || e.snk.closed || !P.Running(e.src) }

  function StdinEnds(s: Session): Ends { s.streams[Stdin].ends }

  lemma RestrictedFirst(es: seq<Event>, signals: bool)
    requires es != []
    ensures Restricted(es, signals) <==> Restricted([es[0]], signals) && Restricted(es[1..], signals)
  {
    assert forall i :: 0 <= i < |es| - 1 ==> es[1..][i] == es[i + 1];
    if Restricted([es[0]], signals) { assert [es[0]][0] == es[0]; }
  }

  /** Putting a step in front of a run. */
  lemma Prepend(s: Session, e: Event, r: Session, rest: seq<Event>, signals: bool)
    requires Step(s, e) == Some(r) && Restricted([e], signals) && Restricted(rest, signals)
    ensures Run(s, [e] + rest) == Run(r, rest) && Restricted([e] + rest, signals)
  {
    RunFirst(s, e, r, rest);
    assert ([e] + rest)[0] == e && ([e] + rest)[1..] == rest;
    RestrictedFirst([e] + rest, signals);
  }

  // ------------------------------------------------------- a state that is ending

  /** The source may read once more before it meets a `SinkClosed`. */
  predicate MayRead(t: P.Link) {
    t.ends.src.Idle? || (t.ends.src.Awaiting? && t.back != [] && t.back[0] == Ack)
  }

  /** An ending stream keeps ending; a read uses up the last permission to read, and nothing gives it back. */
  lemma ReadsRunOut(t: P.Link, e: P.LinkEvent)
    requires P.InvFlow(t) && P.InvClosed(t) && Ending(t.ends) && P.Step(t, e).Some?
    ensures var u := P.Step(t, e).value;
      && Ending(u.ends)
      && (MayRead(u) ==> MayRead(t))
      && (e.Task? && e.ev.SrcRead? ==> MayRead(t) && !MayRead(u))
  {
    if e.Task? {
      match e.ev {
        case SrcRead(_) =>
        case SrcEnd =>
        case SrcSend =>
        case SrcRecv =>
        case SnkRecv =>
        case SnkWrite =>
        case SnkBreak(_) =>
        case SnkSend =>
        case SnkFlush =>
        case SnkFlushBreak =>
        case SnkShutdown =>
      }
    }
  }

  lemma LinkReads(t: P.Link, seen: seq<P.LinkEvent>, u: P.Link)
    requires P.Inv(t) && Ending(t.ends) && |seen| <= 1 && P.Run(t, seen) == Some(u)
    ensures Ending(u.ends)
    ensures MayRead(u) ==> MayRead(t)
    ensures |seen| == 1 && seen[0].Task? && seen[0].ev.SrcRead? ==> MayRead(t) && !MayRead(u)
  {
    if |seen| == 1 {
      assert seen[1..] == [];
      ReadsRunOut(t, seen[0]);
    }
  }

  function Allowance(s: Session): nat { if MayRead(Project(s, Stdin)) then 1 else 0 }

  function Input(e: Event): nat { if IsInput(e) then 1 else 0 }

  /** Stdin sees at most one two-party event in a step, and sees its reads. */
  lemma SeenOne(s: Session, e: Event)
    ensures |Seen(s, e, Stdin)| <= 1
    ensures IsRead(e) && e.id.Stdin? ==> Seen(s, e, Stdin) == [P.Task(e.ev)]
  {
  }

  lemma StepReads(s: Session, e: Event, r: Session)
    requires Inv(s) && Ending(StdinEnds(s)) && Step(s, e) == Some(r)
    ensures Ending(StdinEnds(r))
    ensures MayRead(Project(r, Stdin)) ==> MayRead(Project(s, Stdin))
    ensures IsRead(e) && e.id.Stdin? ==> MayRead(Project(s, Stdin)) && !MayRead(Project(r, Stdin))
  {
    StepLosesNothing(s, e);
    if e.Route? { NeverCrashes(s, e.d, r); }
    StepProjects(s, e, r, Stdin);
    SeenOne(s, e);
    assert P.Inv(Project(s, Stdin));
    LinkReads(Project(s, Stdin), Seen(s, e, Stdin), Project(r, Stdin));
  }

  /** A session whose stdin is ending, and to which no signals come any more. */
  ghost predicate Winding(s: Session, signals: bool) {
    Inv(s) && Ending(StdinEnds(s)) && (signals ==> s.window.WindowEnded?)
  }

  lemma SignalNeedsTask(s: Session, e: Event)
    requires Step(s, e).Some?
    ensures IsSignal(e) ==> s.window.Listening?
  {
  }

  lemma WindowStays(s: Session, e: Event, r: Session)
    requires Inv(s) && Step(s, e) == Some(r) && s.window.WindowEnded?
    ensures r.window.WindowEnded? && !IsSignal(e)
  {
    assert r.window.WindowEnded? by {
      StepLosesNothing(s, e);
      FrameHolds(s, e, r);
    }
    SignalNeedsTask(s, e);
  }

  lemma StepUsesAllowance(s: Session, signals: bool, e: Event, r: Session)
    requires Winding(s, signals) && Restricted([e], signals) && Step(s, e) == Some(r)
    ensures Winding(r, signals) && Input(e) + Allowance(r) <= Allowance(s)
  {
    assert [e][0] == e;
    StepReads(s, e, r);
    StepKeepsInv(s, e, r);
    if s.window.WindowEnded? { WindowStays(s, e, r); }
  }

  /** At most one more input comes. */
  lemma {:induction false} AtMostOneInput(s: Session, signals: bool, es: seq<Event>)
    requires Winding(s, signals) && Restricted(es, signals) && Run(s, es).Some?
    ensures Inputs(es) <= Allowance(s)
    decreases |es|
  {
    if es == [] {
    } else {
      RestrictedFirst(es, signals);
      var r := Step(s, es[0]).value;
      StepUsesAllowance(s, signals, es[0], r);
      AtMostOneInput(r, signals, es[1..]);
    }
  }

  lemma WindingRunIsBounded(s: Session, signals: bool, es: seq<Event>)
    requires Winding(s, signals) && Restricted(es, signals) && Run(s, es).Some?
    ensures |es| <= Measure(s) + INPUT_COST
  {
    AtMostOneInput(s, signals, es);
    RunIsBounded(s, es);
  }

  lemma WindingIsBounded(s: Session, signals: bool)
    requires Winding(s, signals)
    ensures BoundedBy(s, signals, Measure(s) + INPUT_COST)
  {
    forall es | Restricted(es, signals) && Run(s, es).Some? ensures |es| <= Measure(s) + INPUT_COST {
      WindingRunIsBounded(s, signals, es);
    }
  }

  // ------------------------------------------------------------ stdin for ever

  /** While stdin is not ending, an idle source can read and any other task of the session can be waited for. */
  lemma NotStuck(s: Session)
    requires Inv(s) && s.wireCap >= 1 && !Ending(StdinEnds(s)) && !StdinEnds(s).src.Idle?
    ensures !Stuck(s, true)
  {
    if Stuck(s, true) {
      ServerQueueNeverFills(s);
      ServerRests(s, true);
      RestIsReceptive(s);
      DirectionEmpty(s, true, ToServer);
      EmptyFlow(s.pipes[ToServer]);
      ClientRests(s, true);
      RestIsReceptive(s);
      DirectionEmpty(s, true, ToClient);
      AwaitingIsAnswered(s);
    }
  }

  lemma AwaitingIsAnswered(s: Session)
    requires P.Inv(Project(s, Stdin)) && SinkRests(s.streams[Stdin]) && SourceRests(Stdin, s.streams[Stdin])
    requires Flow(s.pipes[ToServer]) == [] && Flow(s.pipes[ToClient]) == []
    ensures !StdinEnds(s).src.Awaiting?
  {
    var t := Project(s, Stdin);
    assert t.back == s.streams[Stdin].inbox && t.fwd == s.streams[Stdin].outbox;
  }

  /** Nothing but an end of file, a broken pipe or the injection ends a stream. */
  lemma LinkGoesOn(t: P.Link, e: P.LinkEvent)
    requires P.Inv(t) && !Ending(t.ends) && P.Step(t, e).Some?
    requires e.Task? && !e.ev.SrcEnd? && !e.ev.SnkBreak? && !e.ev.SnkFlushBreak?
    ensures !Ending(P.Step(t, e).value.ends)
  {
    P.CountIn(t.back, SinkClosed);
    if e.ev.SrcRecv? { assert t.back[0] in t.back; }
  }

  /** What keeps stdin from ending: a calm event, or a read. */
  predicate GoesOn(e: Event) {
    Calm(e) && (e.TaskStep? && e.id.Stdin? ==> !e.ev.SrcEnd?) && !e.ChildExit?
  }

  lemma StepGoesOn(s: Session, e: Event, r: Session)
    requires Inv(s) && !Ending(StdinEnds(s)) && GoesOn(e) && Step(s, e) == Some(r)
    ensures !Ending(StdinEnds(r))
  {
    StepLosesNothing(s, e);
    if e.Route? { NeverCrashes(s, e.d, r); }
    StepProjects(s, e, r, Stdin);
    assert P.Inv(Project(s, Stdin));
    if e.TaskStep? && e.id.Stdin? {
      assert Seen(s, e, Stdin) == [P.Task(e.ev)];
      P.RunOne(Project(s, Stdin), P.Task(e.ev));
      LinkGoesOn(Project(s, Stdin), P.Task(e.ev));
    } else {
      assert Seen(s, e, Stdin) == [];
    }
  }

  lemma AnEventThatGoesOn(s: Session) returns (e: Event)
    requires Inv(s) && s.wireCap >= 1 && !Ending(StdinEnds(s))
    ensures Step(s, e).Some? && Restricted([e], false) && GoesOn(e)
  {
    if StdinEnds(s).src.Idle? {
      e := TaskStep(Stdin, SrcRead([0]));
      assert Act(StdinEnds(s), SrcRead([0]), s.streams[Stdin].inbox, s.streams[Stdin].outbox).Some?;
    } else {
      NotStuck(s);
      e :| Autonomous(e) && Calm(e) && Step(s, e).Some?;
    }
  }

  /** Some step that keeps stdin from ending can always be taken. */
  lemma SomeStepGoesOn(s: Session) returns (e: Event, r: Session)
    requires Inv(s) && s.wireCap >= 1 && !Ending(StdinEnds(s))
    ensures Step(s, e) == Some(r) && Restricted([e], false)
    ensures Inv(r) && r.wireCap == s.wireCap && !Ending(StdinEnds(r))
  {
    e := AnEventThatGoesOn(s);
    r := Step(s, e).value;
    assert !Ending(StdinEnds(r)) by { StepGoesOn(s, e, r); }
    assert Inv(r) by { StepKeepsInv(s, e, r); }
    assert r.wireCap == s.wireCap by {
      StepLosesNothing(s, e);
      FrameHolds(s, e, r);
    }
  }

  /** Until stdin is ending there are runs of any length: it is read again and again. */
  lemma {:induction false} StdinForEver(s: Session, n: nat) returns (es: seq<Event>)
    requires Inv(s) && s.wireCap >= 1 && !Ending(StdinEnds(s))
    ensures |es| == n && Restricted(es, false) && Run(s, es).Some?
    decreases n
  {
    if n == 0 {
      es := [];
    } else {
      var e, r := SomeStepGoesOn(s);
      var rest := StdinForEver(r, n - 1);
      Prepend(s, e, r, rest, false);
      es := [e] + rest;
    }
  }

  // ---------------------------------------------------------- signals for ever

  lemma {:induction false} SignalsForEver(s: Session, n: nat) returns (es: seq<Event>)
    requires s.window.Listening?
    ensures |es| == n && Restricted(es, true) && Run(s, es).Some?
  {
    if n == 0 {
      es := [];
    } else {
      var rest := SignalsForEver(s, n - 1);
      Prepend(s, SizeUnknown, s, rest, true);
      es := [SizeUnknown] + rest;
    }
  }

  lemma SizeIsSentFirst(s: Session, e: Event, r: Session)
    requires Step(s, e) == Some(r) && s.window.SendingSize?
    ensures !r.window.WindowEnded?
  {
    if Loses(e) {
      assert r.window == s.window;
    } else {
      FrameHolds(s, e, r);
      if e.SendSize? { assert r.window.Listening?; }
    }
  }

  /**
   * A run that ends the window-change task passes through a state in which that task listens; from there, signals can
   * come for ever.
   */
  lemma {:induction false} ListensOnTheWay(s: Session, es: seq<Event>, n: nat) returns (fs: seq<Event>)
    requires Run(s, es).Some? && Restricted(es, true)
    requires !s.window.WindowEnded? && Run(s, es).value.window.WindowEnded?
    ensures |fs| >= n && Restricted(fs, true) && Run(s, fs).Some?
    decreases |es|
  {
    if s.window.Listening? {
      fs := SignalsForEver(s, n);
    } else {
      var r := Step(s, es[0]).value;
      SizeIsSentFirst(s, es[0], r);
      RestrictedFirst(es, true);
      var rest := ListensOnTheWay(r, es[1..], n);
      Prepend(s, es[0], r, rest, true);
      fs := [es[0]] + rest;
    }
  }

  /** However a session has gone, it has a run to its end in which nothing is read. */
  lemma RunToEnd(s: Session) returns (es: seq<Event>)
    requires Inv(s) && s.wireCap >= 1
    ensures Restricted(es, true) && Run(s, es).Some? && Run(s, es).value.window.WindowEnded?
  {
    if s.server.Waiting? {
      var r := Exited(s, Code(0));
      ExitStep(s, Code(0));
      StepKeepsInv(s, ChildExit(Code(0)), r);
      var rest := RunToEndAfterExit(r);
      Prepend(s, ChildExit(Code(0)), r, rest, true);
      es := [ChildExit(Code(0))] + rest;
    } else {
      es := RunToEndAfterExit(s);
    }
  }

  lemma RunToEndAfterExit(s: Session) returns (es: seq<Event>)
    requires Inv(s) && s.wireCap >= 1 && !s.server.Waiting?
    ensures Restricted(es, true) && Run(s, es).Some? && Run(s, es).value.window.WindowEnded?
  {
    es := CanFinish(s);
    assert Joined(Run(s, es).value) by { StaysExited(s, es); }
  }

  lemma WindowForEver(s: Session, n: nat) returns (es: seq<Event>)
    requires Inv(s) && s.wireCap >= 1 && !s.window.WindowEnded?
    ensures |es| >= n && Restricted(es, true) && Run(s, es).Some?
  {
    var end := RunToEnd(s);
    es := ListensOnTheWay(s, end, n);
  }

  // ---------------------------------------------------------------- theorems

  /**
   * With the outputs at end of file, one bound holds for all runs from a state exactly if stdin is ending and, where
   * window-change signals may come, the window-change task has ended.
   */
  lemma BoundExactly(s: Session, signals: bool)
    requires IsReachable(s) && s.wireCap >= 1
    ensures HasBound(s, signals) <==> Ending(StdinEnds(s)) && (signals ==> s.window.WindowEnded?)
  {
    assert Inv(s) by { ReachableHasInv(s); }
    if Ending(StdinEnds(s)) && (signals ==> s.window.WindowEnded?) {
      WindingIsBounded(s, signals);
    } else if HasBound(s, signals) {
      var n: nat :| BoundedBy(s, signals, n);
      var es := LongerRun(s, signals, n + 1);
      assert false;
    }
  }

  lemma LongerRun(s: Session, signals: bool, n: nat) returns (es: seq<Event>)
    requires Inv(s) && s.wireCap >= 1 && !(Ending(StdinEnds(s)) && (signals ==> s.window.WindowEnded?))
    ensures |es| >= n && Restricted(es, signals) && Run(s, es).Some?
  {
    if !Ending(StdinEnds(s)) {
      es := StdinForEver(s, n);
    } else {
      es := WindowForEver(s, n);
    }
  }

  /**
   * The child's exit alone bounds nothing: right after it in a new session, stdin can still be read any number of
   * times.
   */
  lemma ExitAloneBoundsNothing(pty: bool, wireCap: nat, status: ExitStatus)
    requires wireCap >= 1
    ensures var s := Exited(Init(pty, wireCap), status);
      IsReachable(s) && !s.server.Waiting? && !HasBound(s, false)
  {
    var s := Init(pty, wireCap);
    var r := Exited(s, status);
    ExitStep(s, status);
    RunFirst(s, ChildExit(status), r, []);
    assert [ChildExit(status)] + [] == [ChildExit(status)];
    assert Run(Init(pty, wireCap), [ChildExit(status)]) == Some(r);
    assert !Ending(StdinEnds(r));
    BoundExactly(r, false);
  }

  /** The server's main task never has to wait for room when the child has exited: both its sends can happen at once. */
  lemma MainNeverWaits(s: Session)
    requires IsReachable(s) && (s.server.Injecting? || s.server.Exiting?)
    ensures Step(s, MainSend).Some?
  {
    QueueIsShort(s);
    MainHasRoom(s);
  }

  lemma QueueIsShort(s: Session)
    requires IsReachable(s)
    ensures |s.pipes[ToClient].queue| <= 10
  {
    ReachableHasInv(s);
    ServerQueueNeverFills(s);
  }

  lemma MainHasRoom(s: Session)
    requires |s.pipes[ToClient].queue| <= 10 && (s.server.Injecting? || s.server.Exiting?)
    ensures DoMainSend(s).Some?
  {
  }

  lemma InjectionEnds(s: Session, r: Session, signals: bool)
    requires Inv(s) && s.server.Injecting? && (signals ==> s.window.WindowEnded?)
    requires DoMainSend(s) == Some(r)
    ensures Winding(r, signals) && Measure(r) < Measure(s)
  {
    assert Inv(r) by { StepKeepsInv(s, MainSend, r); }
    assert Measure(r) < Measure(s) by { MainDecreases(s, r); }
    assert r.window == s.window && StdinEnds(r).foreign > 0 by { InjectionCounts(s, r); }
  }

  lemma InjectionCounts(s: Session, r: Session)
    requires DoMainSend(s) == Some(r) && s.server.Injecting?
    ensures r.window == s.window && StdinEnds(r).foreign == StdinEnds(s).foreign + 1
  {
    MainStreams(s, r);
  }

  lemma FirstInjects(s: Session, signals: bool, es: seq<Event>)
    requires Inv(s) && s.server.Injecting? && (signals ==> s.window.WindowEnded?)
    requires es != [] && es[0] == MainSend && Restricted(es[1..], signals) && Run(s, es).Some?
    ensures |es| <= Measure(s) + INPUT_COST
  {
    var r := DoMainSend(s).value;
    assert Step(s, es[0]) == Some(r);
    InjectionEnds(s, r, signals);
    WindingRunIsBounded(r, signals, es[1..]);
  }

  /** If it does not yield before the first of them, the run is bounded from the child's exit on. */
  lemma PromptRunIsBounded(s: Session, signals: bool, es: seq<Event>)
    requires IsReachable(s) && s.server.Injecting? && (signals ==> s.window.WindowEnded?)
    requires es != [] && es[0].MainSend? && Restricted(es, signals) && Run(s, es).Some?
    ensures |es| <= Measure(s) + INPUT_COST
  {
    assert Inv(s) by { ReachableHasInv(s); }
    RestrictedFirst(es, signals);
    FirstInjects(s, signals, es);
  }
}
