/** The source task's loop, written as the program writes it, against the await-to-await machine of `Endpoints`. */
module SourceTask {
  import opened Protocol
  import opened Endpoints

  /** The phase reached when the awaits return `inputs`, one after the other. */
  function RunSource(p: SourcePhase, inputs: seq<SourceInput>): Option<SourcePhase>
    decreases |inputs|
  {
    if inputs == [] then Some(p)
    else match SourceStep(p, inputs[0])
      case None => None
      case Some(q) => RunSource(q, inputs[1..])
  }

  /** The messages sent on the way. */
  function SourceSends(p: SourcePhase, inputs: seq<SourceInput>): seq<SourceAction>
    decreases |inputs|
  {
    if inputs == [] then []
    else
      match SourceStep(p, inputs[0])
      case None => []
      case Some(q) => Sends(p, inputs[0]) + SourceSends(q, inputs[1..])
  }

  /** What the await that returns `i` sent. */
  function Sends(p: SourcePhase, i: SourceInput): seq<SourceAction> {
    if !i.Sent? then [] else if p.Sending? then [Data(p.bytes)] else [SourceClosed]
  }

  /** A task at phase `p` with the awaits from `i` on still to return has sent `sent` beyond `before` as it should. */
  predicate OnTrack(before: seq<SourceAction>, inputs: seq<SourceInput>, sent: seq<SourceAction>,
                    p: SourcePhase, i: nat)
  {
    && i <= |inputs|
    && RunSource(Idle, inputs).Some?
    && RunSource(Idle, inputs) == RunSource(p, inputs[i..])
    && before + SourceSends(Idle, inputs) == sent + SourceSends(p, inputs[i..])
  }

  lemma NextAwait(before: seq<SourceAction>, inputs: seq<SourceInput>, sent: seq<SourceAction>, p: SourcePhase, i: nat)
    requires OnTrack(before, inputs, sent, p, i) && i < |inputs|
    ensures SourceStep(p, inputs[i]).Some?
    ensures OnTrack(before, inputs, sent + Sends(p, inputs[i]), SourceStep(p, inputs[i]).value, i + 1)
    ensures Sends(p, inputs[i]) == [] ==> OnTrack(before, inputs, sent, SourceStep(p, inputs[i]).value, i + 1)
  {
    assert inputs[i..][0] == inputs[i] && inputs[i..][1..] == inputs[i + 1..];
    var q := SourceStep(p, inputs[i]).value;
    assert (sent + Sends(p, inputs[i])) + SourceSends(q, inputs[i + 1..])
        == sent + (Sends(p, inputs[i]) + SourceSends(q, inputs[i + 1..]));
    assert sent + [] == sent;
  }

  /** Where the awaits end the task is suspended or has finished. */
  lemma Arrived(before: seq<SourceAction>, inputs: seq<SourceInput>, sent: seq<SourceAction>, p: SourcePhase, i: nat)
    requires OnTrack(before, inputs, sent, p, i)
    requires i == |inputs| || p.SourceDone? || p.SourceFailed? || p.Panicked?
    ensures Some(p) == RunSource(Idle, inputs) && sent == before + SourceSends(Idle, inputs)
  {
    if i < |inputs| { NextAwait(before, inputs, sent, p, i); }
    assert inputs[i..] == [];
    assert sent + [] == sent;
  }

  class Task {
    const buf: array<Byte>        // one packet, reused for every read
    var sent: seq<SourceAction>

    constructor ()
      ensures fresh(buf) && buf.Length == MAX_STREAM_PACKET_SIZE && sent == []
    {
      buf := new Byte[MAX_STREAM_PACKET_SIZE](_ => 0);
      sent := [];
    }

    /** `read` fills the front of the buffer; what an earlier, longer read left behind it stays there. */
    method Read(data: seq<Byte>) returns (size: nat)
      requires |data| <= buf.Length
      modifies buf
      ensures size == |data| && buf[..size] == data
      ensures buf[size..] == old(buf[size..])
    {
      size := |data|;
      forall k | 0 <= k < size {
        buf[k] := data[k];
      }
    }

    /**
     * `handle`: `inputs` are the results of its awaits in order; the task is left at the await that has none yet.
     * The reused buffer never leaks stale bytes into a message: what is sent is what the machine sends.
     */
    method Handle(inputs: seq<SourceInput>) returns (phase: SourcePhase)
      requires buf.Length == MAX_STREAM_PACKET_SIZE
      requires RunSource(Idle, inputs).Some?
      modifies this, buf
      ensures Some(phase) == RunSource(Idle, inputs)
      ensures sent == old(sent) + SourceSends(Idle, inputs)
    {
      ghost var before := sent;
      var i: nat := 0;
      assert inputs[0..] == inputs;
      while true
        invariant OnTrack(before, inputs, sent, Idle, i)
        invariant before == old(sent)
        decreases |inputs| - i
      {
        if i == |inputs| {
          Arrived(before, inputs, sent, Idle, i);
          return Idle;
        }
        NextAwait(before, inputs, sent, Idle, i);
        var input := inputs[i];
        i := i + 1;
        match input {
          case Read(data) =>
            var size := Read(data);
            if i == |inputs| {
              Arrived(before, inputs, sent, Sending(data), i);
              return Sending(data);
            }
            NextAwait(before, inputs, sent, Sending(data), i);
            sent := sent + [Data(buf[..size])];
            i := i + 1;
            if i == |inputs| {
              Arrived(before, inputs, sent, Awaiting, i);
              return Awaiting;
            }
            NextAwait(before, inputs, sent, Awaiting, i);
            input := inputs[i];
            i := i + 1;
            match input {
              case ReplyGone =>
                Arrived(before, inputs, sent, SourceFailed, i);
                return SourceFailed;
              case Reply(action) =>
                if action.SinkClosed? {
                  break;
                }
            }
          case ReadEnd =>
            break;
          case Reply(action) =>
            if action.Ack? {
              Arrived(before, inputs, sent, Panicked, i);
              return Panicked;
            }
            break;
          case ReplyGone =>
            Arrived(before, inputs, sent, SourceFailed, i);
            return SourceFailed;
        }
      }
      if i == |inputs| {
        Arrived(before, inputs, sent, Closing, i);
        return Closing;
      }
      NextAwait(before, inputs, sent, Closing, i);
      sent := sent + [SourceClosed];
      Arrived(before, inputs, sent, SourceDone, i + 1);
      return SourceDone;
    }
  }

  // ---------------------------------------------------------------- theorems

  /** The source of a session sends exactly what the loop sends. */
  lemma SessionSourceSends(e: Ends, i: SourceInput)
    requires SourceMoves(e, i).Some?
    ensures SourceMoves(e, i).value.ends.src == SourceStep(e.src, i).value
    ensures SourceMoves(e, i).value.up == Sends(e.src, i) && SourceMoves(e, i).value.down == []
  {
  }

  predicate IsData(a: SourceAction) { a.Data? }

  /** Every byte read, in order. */
  function BytesRead(inputs: seq<SourceInput>): seq<Byte> {
    if inputs == [] then [] else (if inputs[0].Read? then inputs[0].data else []) + BytesRead(inputs[1..])
  }

  function BytesSent(actions: seq<SourceAction>): seq<Byte> {
    if actions == [] then [] else (if actions[0].Data? then actions[0].bytes else []) + BytesSent(actions[1..])
  }

  function Unsent(p: SourcePhase): seq<Byte> { if p.Sending? then p.bytes else [] }

  lemma {:induction false} BytesSentConcat(a: seq<SourceAction>, b: seq<SourceAction>)
    ensures BytesSent(a + b) == BytesSent(a) + BytesSent(b)
  {
    if a == [] {
      assert a + b == b;
    } else {
      assert (a + b)[1..] == a[1..] + b;
      BytesSentConcat(a[1..], b);
    }
  }

  /** The source sends the bytes it read, in order, holding back at most the packet it is just sending. */
  lemma {:induction false} SendsWhatItRead(p: SourcePhase, inputs: seq<SourceInput>)
    requires RunSource(p, inputs).Some?
    ensures Unsent(p) + BytesRead(inputs)
         == BytesSent(SourceSends(p, inputs)) + Unsent(RunSource(p, inputs).value)
    decreases |inputs|
  {
    if inputs == [] {
      assert Unsent(p) + [] == [] + Unsent(p);
    } else {
      var q, end := SourceStep(p, inputs[0]).value, RunSource(p, inputs).value;
      var x := if inputs[0].Read? then inputs[0].data else [];
      SendsWhatItRead(q, inputs[1..]);
      BytesSentConcat(Sends(p, inputs[0]), SourceSends(q, inputs[1..]));
      assert BytesSent(Sends(p, inputs[0])) == if inputs[0].Sent? then Unsent(p) else [];
      Regroup(Unsent(p), x, BytesSent(Sends(p, inputs[0])), Unsent(q), BytesRead(inputs[1..]),
              BytesSent(SourceSends(q, inputs[1..])), Unsent(end));
    }
  }

  lemma Regroup<T>(u: seq<T>, x: seq<T>, y: seq<T>, v: seq<T>, r: seq<T>, s: seq<T>, w: seq<T>)
    requires u + x == y + v && v + r == s + w
    ensures u + (x + r) == (y + s) + w
  {
    assert u + (x + r) == (u + x) + r;
    assert (y + v) + r == y + (v + r);
    assert y + (s + w) == (y + s) + w;
  }

  /** `SourceClosed` is sent once, last, and exactly by a task that ran to its end. */
  lemma {:induction false} ClosedIsLast(p: SourcePhase, inputs: seq<SourceInput>)
    requires RunSource(p, inputs).Some? && !p.SourceDone?
    ensures var s := SourceSends(p, inputs);
      if RunSource(p, inputs).value.SourceDone? then
        s != [] && s[|s| - 1] == SourceClosed && forall k :: 0 <= k < |s| - 1 ==> IsData(s[k])
      else forall k :: 0 <= k < |s| ==> IsData(s[k])
    decreases |inputs|
  {
    if inputs == [] {
    } else {
      var q := SourceStep(p, inputs[0]).value;
      if q.SourceDone? {
        assert inputs[1..] == [];
      } else {
        ClosedIsLast(q, inputs[1..]);
      }
    }
  }
}
