/** The sender loops of both sides: fail once, then drain. */
module SenderTask {
  import opened Protocol
  import opened Framing

  // ---------------------------------------------------------- what writes do

  /**
   * What successive writes to a connection do: None accepts all bytes, Some(k) accepts at most `k` bytes and
   * fails; a flush is a write of nothing. After the listed ones every write succeeds, so a connection may
   * well recover after a failure.
   */
  type Outcomes = seq<Option<nat>>

  datatype Attempt = Attempt(ok: bool, bytes: seq<Byte>, rest: Outcomes)

  function Min(a: nat, b: nat): nat { if a <= b then a else b }

  function Write(o: Outcomes, bytes: seq<Byte>): Attempt {
    if o == [] then Attempt(true, bytes, [])
    else if o[0].None? then Attempt(true, bytes, o[1..])
    else Attempt(false, bytes[..Min(o[0].value, |bytes|)], o[1..])
  }

  /** One `send_message`: the size check, the size, the body and the flush, up to the first failure. */
  function Send(o: Outcomes, body: seq<Byte>): Attempt {
    if |body| > MESSAGE_SIZE_LIMIT then Attempt(false, [], o)
    else
      var a := Write(o, U32(|body|));
      if !a.ok then a
      else
        var b := Write(a.rest, body);
        if !b.ok then b.(bytes := a.bytes + b.bytes)
        else
          var c := Write(b.rest, []);
          c.(bytes := a.bytes + b.bytes)
  }

  /**
   * The whole life of a sender loop: the bytes on the wire, the messages sent without an error, and whether one
   * failed.
   */
  datatype Delivery = Delivery(wire: seq<Byte>, done: nat, failed: bool)

  function Deliver(o: Outcomes, bodies: seq<seq<Byte>>): Delivery
    decreases |bodies|
  {
    if bodies == [] then Delivery([], 0, false)
    else
      var a := Send(o, bodies[0]);
      if !a.ok then Delivery(a.bytes, 0, true)
      else
        var d := Deliver(a.rest, bodies[1..]);
        Delivery(a.bytes + d.wire, 1 + d.done, d.failed)
  }

  // ------------------------------------------------------------------- tasks

  /** The writing half of a connection. */
  class Connection {
    var written: seq<Byte>
    var outcomes: Outcomes

    method WriteAll(bytes: seq<Byte>) returns (ok: bool)
      modifies this
      ensures var a := Write(old(outcomes), bytes);
        ok == a.ok && written == old(written) + a.bytes && outcomes == a.rest
    {
      if |outcomes| == 0 {
        written := written + bytes;
        return true;
      }
      var o := outcomes[0];
      outcomes := outcomes[1..];
      match o {
        case None =>
          written := written + bytes;
          return true;
        case Some(k) =>
          written := written + bytes[..Min(k, |bytes|)];
          return false;
      }
    }

    /** `send_message`, given the serialized message. */
    method SendMessage(body: seq<Byte>) returns (ok: bool)
      modifies this
      ensures var a := Send(old(outcomes), body);
        ok == a.ok && written == old(written) + a.bytes && outcomes == a.rest
      ensures |body| > MESSAGE_SIZE_LIMIT ==> !ok && written == old(written) && outcomes == old(outcomes)
      ensures ok <==>
        |body| <= MESSAGE_SIZE_LIMIT && forall k :: 0 <= k < 3 && k < |old(outcomes)| ==> old(outcomes)[k].None?
      ensures |body| <= MESSAGE_SIZE_LIMIT ==> old(written) <= written <= old(written) + Frame(body)
      ensures ok ==> written == old(written) + Frame(body) && outcomes == old(outcomes)[Min(3, |old(outcomes)|)..]
    {
      SendMeaning(outcomes, body);
      if |body| > MESSAGE_SIZE_LIMIT {
        return false;
      }
      ok := WriteAll(U32(|body|));
      if !ok {
        return;
      }
      ok := WriteAll(body);
      if !ok {
        return;
      }
      ok := WriteAll([]);
    }
  }

  /** A sender task: the messages queued for it, the connection, and what it reported to the receiver task. */
  class Sender {
    var queue: seq<seq<Byte>>
    const connection: Connection
    var failed: bool
    var reports: nat

    constructor (queue: seq<seq<Byte>>, connection: Connection)
      ensures this.queue == queue && this.connection == connection && !failed && reports == 0
    {
      this.queue, this.connection, this.failed, this.reports := queue, connection, false, 0;
    }

    /** `do_if_not_failed` around `send_message`: a failure is reported once and remembered. */
    method SendIfNotFailed(body: seq<Byte>)
      modifies this, connection
      ensures queue == old(queue)
      ensures old(failed) ==>
        failed && reports == old(reports) && connection.written == old(connection.written)
        && connection.outcomes == old(connection.outcomes)
      ensures !old(failed) ==> var a := Send(old(connection.outcomes), body);
        && failed == !a.ok && reports == (if a.ok then old(reports) else old(reports) + 1)
        && connection.written == old(connection.written) + a.bytes && connection.outcomes == a.rest
    {
      if failed {
        return;
      }
      var ok := connection.SendMessage(body);
      if !ok {
        reports := reports + 1;
        failed := true;
      }
    }

    /** `handle`: sends every queued message and then `last`, which the server does after the notify permit came. */
    method Handle(last: seq<Byte>)
      requires !failed && reports == 0
      modifies this, connection
      ensures queue == []
      ensures var d := Deliver(old(connection.outcomes), old(queue) + [last]);
        && connection.written == old(connection.written) + d.wire
        && failed == d.failed && reports == if d.failed then 1 else 0
    {
      ghost var all := old(queue) + [last];
      ghost var o := connection.outcomes;
      ghost var taken: nat := 0;
      while |queue| > 0
        invariant taken + |queue| == |old(queue)| && queue == old(queue)[taken..]
        invariant reports == if failed then 1 else 0
        invariant Progressed(o, all, taken, old(connection.written), connection.written, connection.outcomes, failed)
      {
        var body := queue[0];
        queue := queue[1..];
        ghost var now, rest, stopped := connection.written, connection.outcomes, failed;
        assert body == all[taken];
        SendIfNotFailed(body);
        OneSent(o, all, taken, old(connection.written), now, rest, stopped);
        taken := taken + 1;
      }
      ghost var now, rest, stopped := connection.written, connection.outcomes, failed;
      SendIfNotFailed(last);
      OneSent(o, all, taken, old(connection.written), now, rest, stopped);
      AllSent(o, all, old(connection.written), connection.written, connection.outcomes, failed);
    }
  }

  /** A loop invariant: what is written so far and what is still to be delivered make up the whole delivery. */
  predicate Progressed(o: Outcomes, all: seq<seq<Byte>>, taken: nat, before: seq<Byte>, now: seq<Byte>,
                       rest: Outcomes, failed: bool)
  {
    && taken <= |all|
    && var d := Deliver(o, all);
       if failed then d.failed && now == before + d.wire
       else
         var e := Deliver(rest, all[taken..]);
         before + d.wire == now + e.wire && d.failed == e.failed && d.done == taken + e.done
  }

  /** Delivering one message more. */
  lemma OneSent(o: Outcomes, all: seq<seq<Byte>>, taken: nat, before: seq<Byte>, now: seq<Byte>,
                rest: Outcomes, failed: bool)
    requires taken < |all| && Progressed(o, all, taken, before, now, rest, failed)
    ensures var a := Send(rest, all[taken]);
      if failed then Progressed(o, all, taken + 1, before, now, rest, true)
      else Progressed(o, all, taken + 1, before, now + a.bytes, a.rest, !a.ok)
  {
    if !failed {
      var a := Send(rest, all[taken]);
      assert all[taken..][0] == all[taken] && all[taken..][1..] == all[taken + 1..];
      if a.ok {
        var e := Deliver(a.rest, all[taken + 1..]);
        assert now + (a.bytes + e.wire) == (now + a.bytes) + e.wire;
      }
    }
  }

  lemma AllSent(o: Outcomes, all: seq<seq<Byte>>, before: seq<Byte>, now: seq<Byte>, rest: Outcomes, failed: bool)
    requires Progressed(o, all, |all|, before, now, rest, failed)
    ensures var d := Deliver(o, all); now == before + d.wire && failed == d.failed
  {
    if !failed { assert all[|all|..] == [] && now + [] == now; }
  }

  // ---------------------------------------------------------------- theorems

  /**
   * Both ends enforce the same limit: a receiver refuses a size exactly if no sender sends a message of that size
   * over a connection on which every write succeeds, and such a message is refused before anything is written.
   */
  lemma SameLimit(body: seq<Byte>, rest: seq<Byte>, o: Outcomes)
    requires |body| < U32_RANGE
    ensures Parse(U32(|body|) + rest) == Bad(TooLarge) <==> !Send([], body).ok
    ensures !Send([], body).ok ==> Send(o, body) == Attempt(false, [], o)
  {
    assert (U32(|body|) + rest)[..4] == U32(|body|);
    U32RoundTrip(|body|);
  }

  /** Frames of a prefix of the messages and, after a failure, at most the one frame it hit, possibly cut short. */
  predicate Transcript(wire: seq<Byte>, bodies: seq<seq<Byte>>, done: nat, failed: bool) {
    && done <= |bodies| && AllFit(bodies[..done])
    && if !failed then done == |bodies| && wire == Frames(bodies[..done])
       else
         && done < |bodies|
         && if |bodies[done]| > MESSAGE_SIZE_LIMIT then wire == Frames(bodies[..done])
            else
              && Frames(bodies[..done]) <= wire
              && wire[|Frames(bodies[..done])|..] <= Frame(bodies[done])
  }

  lemma SendMeaning(o: Outcomes, body: seq<Byte>)
    ensures var a := Send(o, body);
      if |body| > MESSAGE_SIZE_LIMIT then !a.ok && a.bytes == []
      else
        && a.bytes <= Frame(body) && (a.ok ==> a.bytes == Frame(body) && a.rest == o[Min(3, |o|)..])
        && (a.ok <==> forall k :: 0 <= k < 3 && k < |o| ==> o[k].None?)
  {
    if |o| > 0 && o[0].None? {
      assert o[1..] != [] ==> o[1..][0] == o[1];
      assert |o| > 2 ==> o[1..][1..] == o[2..] && o[2..][0] == o[2] && o[2..][1..] == o[3..];
    }
  }

  /** Whatever the writes do, the wire is a transcript: nothing follows the first failure. */
  lemma {:induction false} DeliverIsTranscript(o: Outcomes, bodies: seq<seq<Byte>>)
    ensures var d := Deliver(o, bodies); Transcript(d.wire, bodies, d.done, d.failed)
    decreases |bodies|
  {
    if bodies == [] {
    } else {
      var a, d := Send(o, bodies[0]), Deliver(o, bodies);
      SendMeaning(o, bodies[0]);
      if a.ok {
        var e := Deliver(a.rest, bodies[1..]);
        DeliverIsTranscript(a.rest, bodies[1..]);
        assert bodies[..d.done] == [bodies[0]] + bodies[1..][..e.done];
        FramesConcat([bodies[0]], bodies[1..][..e.done]);
        assert Frames([bodies[0]]) == Frame(bodies[0]) + Frames([]);
        if d.failed && |bodies[d.done]| <= MESSAGE_SIZE_LIMIT {
          TranscriptTail(Frame(bodies[0]), e.wire, Frames(bodies[1..][..e.done]));
        }
      } else {
        assert bodies[..0] == [] && a.bytes[0..] == a.bytes;
      }
    }
  }

  lemma TranscriptTail(f: seq<Byte>, wire: seq<Byte>, sent: seq<Byte>)
    requires sent <= wire
    ensures f + sent <= f + wire && (f + wire)[|f + sent|..] == wire[|sent|..]
  {
  }

  /** Serialized messages of which only those that were sent need to fit. */
  lemma EncodePrefix<M>(c: Codec<M>, ms: seq<M>, n: nat)
    requires n <= |ms|
    ensures EncodeAll(c, ms[..n]) == EncodeAll(c, ms)[..n]
  {
  }

  lemma FramesAppend(bodies: seq<seq<Byte>>, done: nat)
    requires done < |bodies| && AllFit(bodies[..done]) && |bodies[done]| <= MESSAGE_SIZE_LIMIT
    ensures AllFit(bodies[..done + 1]) && Frames(bodies[..done + 1]) == Frames(bodies[..done]) + Frame(bodies[done])
  {
    assert bodies[..done + 1] == bodies[..done] + [bodies[done]];
    FramesConcat(bodies[..done], [bodies[done]]);
    assert Frames([bodies[done]]) == Frame(bodies[done]) + Frames([]);
  }

  /**
   * What the other side reads, however the writes went: a prefix of the queued messages, all of them unless a write
   * failed.
   */
  lemma ReceiverReadsPrefix<M(!new)>(c: Codec<M>, ms: seq<M>, o: Outcomes)
    requires Faithful(c)
    ensures var d := Deliver(o, EncodeAll(c, ms));
      var r := ReadAll(c, d.wire);
      && r.messages <= ms
      && d.done <= |r.messages| <= d.done + 1
      && (!d.failed ==> r.messages == ms)
  {
    var bodies := EncodeAll(c, ms);
    var d := Deliver(o, bodies);
    DeliverIsTranscript(o, bodies);
    var n := if d.failed && |bodies[d.done]| <= MESSAGE_SIZE_LIMIT then d.done + 1 else d.done;
    if n == d.done + 1 {
      FramesAppend(bodies, d.done);
      CutInto(d.wire, Frames(bodies[..d.done]), Frame(bodies[d.done]));
    }
    EncodePrefix(c, ms, n);
    assert d.wire == Frames(bodies[..n])[..|d.wire|];
    TruncatedStream(c, ms[..n], |d.wire|);
    CompleteCount(bodies, d.done, n, |d.wire|);
    if !d.failed { assert ms[..n] == ms; }
  }

  lemma CutInto(wire: seq<Byte>, sent: seq<Byte>, next: seq<Byte>)
    requires sent <= wire && wire[|sent|..] <= next
    ensures wire <= sent + next
  {
    assert wire == sent + wire[|sent|..];
  }

  lemma {:induction false} CompleteCount(bodies: seq<seq<Byte>>, done: nat, n: nat, k: nat)
    requires done <= n <= |bodies| && n <= done + 1 && AllFit(bodies[..n])
    requires |Frames(bodies[..done])| <= k <= |Frames(bodies[..n])|
    ensures done <= Complete(bodies[..n], k) <= n
  {
    if done == 0 {
    } else {
      assert bodies[..n][0] == bodies[0] && bodies[..done][0] == bodies[0];
      assert bodies[..n][1..] == bodies[1..][..n - 1] && bodies[..done][1..] == bodies[1..][..done - 1];
      CompleteCount(bodies[1..], done - 1, n - 1, k - 4 - |bodies[0]|);
    }
  }
}
