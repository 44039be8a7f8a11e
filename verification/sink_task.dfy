/** The sink task's loop, written as the program writes it, against the await-to-await machine of `Endpoints`. */
module SinkTask {
  import opened Protocol
  import opened Endpoints

  /** What the await that returns `i` sent. */
  function Sends(i: SinkInput): seq<SinkAction> {
    if i.AckSent? then [Ack] else if i.ClosedSent? then [SinkClosed] else []
  }

  /** What the writer accepted in the await that returns `i`. */
  function Accepts(s: SinkState, i: SinkInput): seq<Byte> {
    if !s.phase.Writing? then []
    else
      match i
      case WriteOk => s.phase.bytes
      case WriteBroken(n) => if n < |s.phase.bytes| then s.phase.bytes[..n] else []
      case IoError(n) => if n < |s.phase.bytes| then s.phase.bytes[..n] else []
      case _ => []
  }

  /** Where a run of the task ends, the messages it sent and the bytes its writer accepted. */
  datatype Behaviour = Behaviour(end: SinkState, sent: seq<SinkAction>, written: seq<Byte>)

  /** What a task in state `s` does when its awaits return `inputs`, one after the other; None when they cannot. */
  function Behave(s: SinkState, inputs: seq<SinkInput>): Option<Behaviour>
    decreases |inputs|
  {
    if inputs == [] then Some(Behaviour(s, [], []))
    else
      match SinkStep(s, inputs[0])
      case None => None
      case Some(q) =>
        match Behave(q, inputs[1..])
        case None => None
        case Some(b) => Some(Behaviour(b.end, Sends(inputs[0]) + b.sent, Accepts(s, inputs[0]) + b.written))
  }

  const START := SinkState(Receiving, false)

  /** A run that has done `now` and goes on from state `s` with `rest` does `whole` in all. */
  predicate OnTrack(whole: Behaviour, now: Behaviour, rest: seq<SinkInput>) {
    && Behave(now.end, rest).Some?
    && var b := Behave(now.end, rest).value;
       whole == Behaviour(b.end, now.sent + b.sent, now.written + b.written)
  }

  /** What has been done when one more await returned. */
  function After(now: Behaviour, i: SinkInput): Behaviour
    requires SinkStep(now.end, i).Some?
  {
    Behaviour(SinkStep(now.end, i).value, now.sent + Sends(i), now.written + Accepts(now.end, i))
  }

  lemma NextAwait(whole: Behaviour, now: Behaviour, inputs: seq<SinkInput>, i: nat)
    requires i < |inputs| && OnTrack(whole, now, inputs[i..])
    ensures SinkStep(now.end, inputs[i]).Some?
    ensures OnTrack(whole, After(now, inputs[i]), inputs[i + 1..])
  {
    assert inputs[i..][0] == inputs[i] && inputs[i..][1..] == inputs[i + 1..];
    var b := Behave(SinkStep(now.end, inputs[i]).value, inputs[i + 1..]).value;
    assert (now.sent + Sends(inputs[i])) + b.sent == now.sent + (Sends(inputs[i]) + b.sent);
    assert (now.written + Accepts(now.end, inputs[i])) + b.written
        == now.written + (Accepts(now.end, inputs[i]) + b.written);
  }

  /** The receive at the head of the loop. */
  lemma NextMessage(whole: Behaviour, now: Behaviour, inputs: seq<SinkInput>, i: nat)
    requires i < |inputs| && OnTrack(whole, now, inputs[i..]) && now.end.phase.Receiving?
    ensures inputs[i].Got? || inputs[i].GotGone?
    ensures OnTrack(whole, now.(end := Received(now.end.closed, inputs[i])), inputs[i + 1..])
  {
    NextAwait(whole, now, inputs, i);
    assert After(now, inputs[i]) == now.(end := Received(now.end.closed, inputs[i])) by {
      assert now.sent + [] == now.sent && now.written + [] == now.written;
    }
  }

  function Received(closed: bool, i: SinkInput): SinkState {
    if !i.Got? || i.action.SourceClosed? then SinkState(ShuttingDown, closed)
    else if closed then SinkState(SendingClosed, true)
    else SinkState(Writing(i.action.bytes), false)
  }

  /** The shutdown at the end. */
  lemma LastAwait(whole: Behaviour, now: Behaviour, inputs: seq<SinkInput>, i: nat)
    requires i < |inputs| && OnTrack(whole, now, inputs[i..]) && now.end.phase.ShuttingDown?
    ensures whole == now.(end := now.end.(phase := SinkDone))
  {
    NextAwait(whole, now, inputs, i);
    Arrived(whole, After(now, inputs[i]), inputs[i + 1..]);
    assert now.sent + [] == now.sent && now.written + [] == now.written;
  }

  /** Where the awaits end the task is suspended or has finished. */
  lemma Arrived(whole: Behaviour, now: Behaviour, rest: seq<SinkInput>)
    requires OnTrack(whole, now, rest)
    requires rest == [] || now.end.phase.SinkDone? || now.end.phase.SinkFailed?
    ensures whole == now
  {
    assert now.sent + [] == now.sent && now.written + [] == now.written;
  }

  /** How an operation under `do_if_not_closed` ended; it may still be under way. */
  datatype Outcome = Fine | Fault | Pending

  /** The await the task is at after `do_if_not_closed` ended with `r`. */
  function Resumed(r: Outcome, phase: SinkPhase, isClosed: bool): SinkPhase {
    if r.Pending? then phase
    else if r.Fault? then SinkFailed
    else if isClosed then SendingClosed
    else if phase.Writing? then SendingAck
    else Receiving
  }

  /** The await the task is at after sending the reply of `phase` ended with `r`. */
  function Replied(r: Outcome, phase: SinkPhase): SinkPhase {
    if r.Pending? then phase else if phase.SendingAck? then Flushing else Receiving
  }

  class Task {
    var isClosed: bool
    var sent: seq<SinkAction>
    var written: seq<Byte>

    constructor ()
      ensures !isClosed && sent == [] && written == []
    {
      isClosed, sent, written := false, [], [];
    }

    /** What the task has done when it is suspended in `phase`. */
    function At(phase: SinkPhase): Behaviour reads this { Behaviour(SinkState(phase, isClosed), sent, written) }

    /**
     * `do_if_not_closed` around the write or flush of `phase`, whose await is number `i`: nothing happens once
     * the sink is closed, a broken pipe closes it for good, any other error is passed on.
     */
    method DoIfNotClosed(phase: SinkPhase, inputs: seq<SinkInput>, i: nat, ghost whole: Behaviour)
      returns (r: Outcome, next: nat)
      requires phase.Writing? || phase.Flushing?
      requires i <= |inputs| && OnTrack(whole, At(if isClosed then SendingClosed else phase), inputs[i..])
      modifies this
      ensures sent == old(sent)
      ensures old(isClosed) || i == |inputs| ==> isClosed == old(isClosed) && written == old(written) && next == i
      ensures old(isClosed) ==> r == Fine
      ensures !old(isClosed) && i == |inputs| ==> r == Pending
      ensures !old(isClosed) && i < |inputs| ==>
        && next == i + 1
        && written == old(written) + Accepts(SinkState(phase, false), inputs[i])
        && r == (if inputs[i].IoError? then Fault else Fine)
        && isClosed == (inputs[i].WriteBroken? || inputs[i].FlushBroken?)
      ensures i <= next <= |inputs| && OnTrack(whole, At(Resumed(r, phase, isClosed)), inputs[next..])
    {
      if isClosed {
        return Fine, i;
      }
      if i == |inputs| {
        return Pending, i;
      }
      NextAwait(whole, At(phase), inputs, i);
      assert sent + [] == sent;
      match inputs[i] {
        case WriteOk =>
          written := written + phase.bytes;
          r := Fine;
        case WriteBroken(n) =>
          written := written + phase.bytes[..n];
          isClosed := true;
          r := Fine;
        case IoError(n) =>
          written := written + if phase.Writing? then phase.bytes[..n] else [];
          r := Fault;
        case FlushOk =>
          written := written + [];
          r := Fine;
        case FlushBroken =>
          written := written + [];
          isClosed := true;
          r := Fine;
      }
      next := i + 1;
    }

    /** `tx.send` of the reply of `phase`, whose await is number `i`. */
    method Send(phase: SinkPhase, inputs: seq<SinkInput>, i: nat, ghost whole: Behaviour)
      returns (r: Outcome, next: nat)
      requires phase == if isClosed then SendingClosed else SendingAck
      requires i <= |inputs| && OnTrack(whole, At(phase), inputs[i..])
      modifies this
      ensures isClosed == old(isClosed) && written == old(written)
      ensures r == (if i == |inputs| then Pending else Fine) && next == if i == |inputs| then i else i + 1
      ensures sent == if i == |inputs| then old(sent) else old(sent) + [if isClosed then SinkClosed else Ack]
      ensures i <= next <= |inputs| && OnTrack(whole, At(Replied(r, phase)), inputs[next..])
    {
      if i == |inputs| {
        return Pending, i;
      }
      NextAwait(whole, At(phase), inputs, i);
      assert written + [] == written;
      sent := sent + [if phase.SendingAck? then Ack else SinkClosed];
      return Fine, i + 1;
    }

    /** `handle`: `inputs` are the results of its awaits in order; the task is left at the await that has none yet. */
    method Handle(inputs: seq<SinkInput>) returns (state: SinkState)
      requires !isClosed && sent == [] && written == []
      requires Behave(START, inputs).Some?
      modifies this
      ensures Some(Behaviour(state, sent, written)) == Behave(START, inputs)
    {
      ghost var whole := Behave(START, inputs).value;
      var i: nat := 0;
      assert inputs[0..] == inputs && [] + whole.sent == whole.sent && [] + whole.written == whole.written;
      while true
        invariant i <= |inputs| && OnTrack(whole, At(Receiving), inputs[i..])
        decreases |inputs| - i
      {
        if i == |inputs| {
          Arrived(whole, At(Receiving), inputs[i..]);
          return SinkState(Receiving, isClosed);
        }
        NextMessage(whole, At(Receiving), inputs, i);
        var message := inputs[i];
        i := i + 1;
        if message.GotGone? || message.action.SourceClosed? {
          break;
        }
        var r;
        r, i := DoIfNotClosed(Writing(message.action.bytes), inputs, i, whole);
        if !r.Fine? {
          var phase := if r.Pending? then Writing(message.action.bytes) else SinkFailed;
          Arrived(whole, At(phase), inputs[i..]);
          return SinkState(phase, isClosed);
        }
        if !isClosed {
          r, i := Send(SendingAck, inputs, i, whole);
          if r.Pending? {
            Arrived(whole, At(SendingAck), inputs[i..]);
            return SinkState(SendingAck, isClosed);
          }
        }
        r, i := DoIfNotClosed(Flushing, inputs, i, whole);
        if !r.Fine? {
          var phase := if r.Pending? then Flushing else SinkFailed;
          Arrived(whole, At(phase), inputs[i..]);
          return SinkState(phase, isClosed);
        }
        if isClosed {
          r, i := Send(SendingClosed, inputs, i, whole);
          if r.Pending? {
            Arrived(whole, At(SendingClosed), inputs[i..]);
            return SinkState(SendingClosed, isClosed);
          }
        }
      }
      if i == |inputs| {
        Arrived(whole, At(ShuttingDown), inputs[i..]);
        return SinkState(ShuttingDown, isClosed);
      }
      LastAwait(whole, At(ShuttingDown), inputs, i);
      return SinkState(SinkDone, isClosed);
    }
  }

  // ---------------------------------------------------------------- theorems

  /**
   * The sink of a session sends and writes exactly what the loop does, but for unexpected errors, which a session
   * does not have.
   */
  lemma SessionSinkDoes(e: Ends, i: SinkInput)
    requires SinkMoves(e, i).Some? && !i.IoError?
    ensures var m := SinkMoves(e, i).value;
      && m.ends.snk == SinkStep(e.snk, i).value
      && m.down == Sends(i) && m.up == []
      && m.ends.written == e.written + Accepts(e.snk, i)
  {
    assert e.written + [] == e.written;
  }

  /** The states a run can reach: the flag agrees with what the task is doing. */
  predicate Sound(s: SinkState) {
    && (s.phase.Writing? || s.phase.SendingAck? || s.phase.Flushing? ==> !s.closed)
    && (s.phase.SendingClosed? ==> s.closed)
  }

  /** Replies certainly still to come for the packet in progress. */
  function Owed(s: SinkState): nat {
    if s.phase.Writing? || s.phase.SendingAck? || s.phase.SendingClosed? then 1 else 0
  }

  function DataCount(inputs: seq<SinkInput>): nat {
    if inputs == [] then 0 else (if inputs[0].Got? && inputs[0].action.Data? then 1 else 0) + DataCount(inputs[1..])
  }

  function FlushBreaks(inputs: seq<SinkInput>): nat {
    if inputs == [] then 0 else (if inputs[0].FlushBroken? then 1 else 0) + FlushBreaks(inputs[1..])
  }

  /** One await: what it owes, gets and sends. */
  lemma StepReplies(s: SinkState, i: SinkInput)
    requires SinkStep(s, i).Some? && Sound(s)
    ensures var q := SinkStep(s, i).value;
      && (!q.phase.SinkFailed? ==>
           && Sound(q)
           && |Sends(i)| + Owed(q)
              == Owed(s) + (if i.Got? && i.action.Data? then 1 else 0) + (if i.FlushBroken? then 1 else 0))
      && (s.closed ==> q.closed && !i.FlushBroken? && !i.AckSent?)
      && (i.FlushBroken? ==> q.closed)
      && (i.ClosedSent? ==> s.closed)
  {
  }

  /** Nothing but `SinkClosed` follows a `SinkClosed`. */
  predicate ClosedLast(sent: seq<SinkAction>) {
    forall j, k :: 0 <= j < k < |sent| && sent[j].SinkClosed? ==> sent[k].SinkClosed?
  }

  lemma ClosedLastGrows(a: seq<SinkAction>, rest: seq<SinkAction>)
    requires ClosedLast(rest) && |a| <= 1 && (a == [SinkClosed] ==> Ack !in rest)
    ensures ClosedLast(a + rest)
  {
    forall j, k | 0 <= j < k < |a + rest| && (a + rest)[j].SinkClosed? ensures (a + rest)[k].SinkClosed? {
      assert (a + rest)[k] == rest[k - |a|];
      if j < |a| { assert rest[k - |a|] in rest; } else { assert (a + rest)[j] == rest[j - |a|]; }
    }
  }

  /**
   * Each `Data` gets one reply, and one more if its flush broke, which happens at most once in the sink's life;
   * after a `SinkClosed` there is no `Ack` any more.
   */
  lemma {:induction false} Replies(s: SinkState, inputs: seq<SinkInput>)
    requires Behave(s, inputs).Some? && Sound(s) && !Behave(s, inputs).value.end.phase.SinkFailed?
    ensures var Behaviour(end, sent, _) := Behave(s, inputs).value;
      && Sound(end)
      && |sent| + Owed(end) == Owed(s) + DataCount(inputs) + FlushBreaks(inputs)
      && FlushBreaks(inputs) <= (if s.closed then 0 else 1)
      && (s.closed ==> end.closed && Ack !in sent)
      && (!end.closed ==> SinkClosed !in sent)
      && ClosedLast(sent)
    decreases |inputs|
  {
    if inputs == [] {
    } else {
      var q := SinkStep(s, inputs[0]).value;
      StepReplies(s, inputs[0]);
      Replies(q, inputs[1..]);
      ClosedLastGrows(Sends(inputs[0]), Behave(q, inputs[1..]).value.sent);
    }
  }

  function BytesGot(inputs: seq<SinkInput>): seq<Byte> {
    if inputs == [] then []
    else (if inputs[0].Got? && inputs[0].action.Data? then inputs[0].action.bytes else []) + BytesGot(inputs[1..])
  }

  function Unwritten(s: SinkState): seq<Byte> { if s.phase.Writing? then s.phase.bytes else [] }

  predicate Failing(s: SinkState) { s.closed || s.phase.SinkFailed? }

  /** A closed or failed sink writes nothing more. */
  lemma {:induction false} ClosedWritesNothing(s: SinkState, inputs: seq<SinkInput>)
    requires Behave(s, inputs).Some? && Sound(s) && Failing(s)
    ensures Behave(s, inputs).value.written == [] && Failing(Behave(s, inputs).value.end)
    decreases |inputs|
  {
    if inputs == [] {
    } else {
      ClosedWritesNothing(SinkStep(s, inputs[0]).value, inputs[1..]);
    }
  }

  /** The bytes one await accepts: what it received or still had to write, up to what is unwritten after it. */
  lemma StepWrites(s: SinkState, i: SinkInput)
    requires SinkStep(s, i).Some? && Sound(s) && !Failing(s)
    ensures var q, x := SinkStep(s, i).value, if i.Got? && i.action.Data? then i.action.bytes else [];
      && (Failing(q) ==> x == [] && Accepts(s, i) <= Unwritten(s))
      && (!Failing(q) ==> Sound(q) && Unwritten(s) + x == Accepts(s, i) + Unwritten(q))
  {
  }

  /**
   * The writer accepts what was received, in order: all but the packet in progress, or a prefix once the sink closed
   * or failed.
   */
  lemma {:induction false} WritesWhatItGot(s: SinkState, inputs: seq<SinkInput>)
    requires Behave(s, inputs).Some? && Sound(s) && !Failing(s)
    ensures var Behaviour(end, _, written) := Behave(s, inputs).value;
      var got := Unwritten(s) + BytesGot(inputs);
      && written <= got
      && (!Failing(end) ==> got == written + Unwritten(end))
    decreases |inputs|
  {
    if inputs == [] {
      assert Unwritten(s) + [] == [] + Unwritten(s);
    } else {
      var i, q := inputs[0], SinkStep(s, inputs[0]).value;
      var x := if i.Got? && i.action.Data? then i.action.bytes else [];
      var tail := Behave(q, inputs[1..]).value;
      StepWrites(s, i);
      if Failing(q) {
        ClosedWritesNothing(q, inputs[1..]);
        assert Accepts(s, i) + [] == Accepts(s, i);
        PrefixExtends(Accepts(s, i), Unwritten(s), BytesGot(inputs));
      } else {
        WritesWhatItGot(q, inputs[1..]);
        Regroup(Unwritten(s), x, BytesGot(inputs[1..]), Accepts(s, i), Unwritten(q), tail.written, Unwritten(tail.end));
      }
    }
  }

  lemma PrefixExtends<T>(a: seq<T>, b: seq<T>, c: seq<T>)
    requires a <= b
    ensures a <= b + c
  {
  }

  lemma Regroup<T>(u: seq<T>, x: seq<T>, r: seq<T>, y: seq<T>, v: seq<T>, w: seq<T>, z: seq<T>)
    requires u + x == y + v && w <= v + r
    ensures y + w <= u + (x + r)
    ensures v + r == w + z ==> u + (x + r) == (y + w) + z
  {
    assert u + (x + r) == (u + x) + r == y + (v + r);
    assert y + (w + z) == (y + w) + z;
  }
}
