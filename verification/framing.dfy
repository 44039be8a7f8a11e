/** Length-prefixed framing: what `send_message` puts on the connection and what `recv_message` makes of it. */
module Framing {
  import opened Protocol

  /** A serialization. Nothing is assumed of it but what `Faithful` says. */
  datatype Codec<!M> = Codec(encode: M -> seq<Byte>, decode: seq<Byte> -> Option<M>)

  ghost predicate Faithful<M(!new)>(c: Codec<M>) { forall m :: c.decode(c.encode(m)) == Some(m) }

  // --------------------------------------------------------------- big endian

  const U32_RANGE := 0x1_0000_0000

  function U32(n: nat): seq<Byte>
    requires n < U32_RANGE
  {
    [n / 0x100 / 0x100 / 0x100, n / 0x100 / 0x100 % 0x100, n / 0x100 % 0x100, n % 0x100]
  }

  function FromU32(b: seq<Byte>): (n: nat)
    requires |b| == 4
    ensures n < U32_RANGE
  {
    var b0: int, b1: int, b2: int, b3: int := b[0], b[1], b[2], b[3];
    ((b0 * 0x100 + b1) * 0x100 + b2) * 0x100 + b3
  }

  lemma U32RoundTrip(n: nat)
    requires n < U32_RANGE
    ensures FromU32(U32(n)) == n
  {
    var h := n / 0x100;
    var t := h / 0x100;
    assert n == h * 0x100 + n % 0x100;
    assert h == t * 0x100 + h % 0x100;
    assert t == t / 0x100 * 0x100 + t % 0x100;
  }

  /** The number that the first four bytes of `b` denote, the most significant one first. */
  function BigEndian(b: seq<Byte>): nat
    requires |b| >= 4
  {
    b[0] as int * 0x100_0000 + b[1] as int * 0x1_0000 + b[2] as int * 0x100 + b[3] as int
  }

  /** Sizes go over the connection in network byte order. */
  lemma U32IsBigEndian(n: nat, b: seq<Byte>)
    ensures n < U32_RANGE ==>
      && |U32(n)| == 4
      && n == U32(n)[0] as int * 0x100_0000 + U32(n)[1] as int * 0x1_0000 + U32(n)[2] as int * 0x100 + U32(n)[3] as int
    ensures |b| == 4 ==>
      FromU32(b) == b[0] as int * 0x100_0000 + b[1] as int * 0x1_0000 + b[2] as int * 0x100 + b[3] as int
  {
    if n < U32_RANGE { U32RoundTrip(n); }
  }

  // ------------------------------------------------------------------- frames

  function Frame(body: seq<Byte>): seq<Byte>
    requires |body| <= MESSAGE_SIZE_LIMIT
  {
    U32(|body|) + body
  }

  /** A frame is the length of its body, in network byte order, and the body. */
  lemma FrameBytes(body: seq<Byte>)
    requires |body| <= MESSAGE_SIZE_LIMIT
    ensures var f := Frame(body); |f| == 4 + |body| && BigEndian(f) == |body| && f[4..] == body
  {
    U32IsBigEndian(|body|, []);
  }

  predicate AllFit(bodies: seq<seq<Byte>>) { forall i :: 0 <= i < |bodies| ==> |bodies[i]| <= MESSAGE_SIZE_LIMIT }

  function Frames(bodies: seq<seq<Byte>>): seq<Byte>
    requires AllFit(bodies)
  {
    if bodies == [] then [] else Frame(bodies[0]) + Frames(bodies[1..])
  }

  function EncodeAll<M>(c: Codec<M>, ms: seq<M>): (r: seq<seq<Byte>>)
    ensures |r| == |ms|
  {
    seq(|ms|, i requires 0 <= i < |ms| => c.encode(ms[i]))
  }

  datatype ReadError = SizeMissing | TooLarge | BodyMissing | Undecodable

  datatype Parsed = Body(body: seq<Byte>, rest: seq<Byte>) | Bad(error: ReadError)

  /** What reading one frame from a byte stream yields. */
  function Parse(s: seq<Byte>): Parsed {
    if |s| < 4 then Bad(SizeMissing)
    else
      var size := FromU32(s[..4]);
      if size > MESSAGE_SIZE_LIMIT then Bad(TooLarge)
      else if |s| < 4 + size then Bad(BodyMissing)
      else Body(s[4..4 + size], s[4 + size..])
  }

  datatype Received<M> = Received(messages: seq<M>, error: ReadError)

  /** Everything a receiver loop reads from a byte stream until its first error. */
  function ReadAll<M>(c: Codec<M>, s: seq<Byte>): Received<M>
    decreases |s|
  {
    match Parse(s)
    case Bad(e) => Received([], e)
    case Body(b, rest) =>
      match c.decode(b)
      case None => Received([], Undecodable)
      case Some(m) =>
        var r := ReadAll(c, rest);
        Received([m] + r.messages, r.error)
  }

  lemma ParseFrame(body: seq<Byte>, rest: seq<Byte>)
    requires |body| <= MESSAGE_SIZE_LIMIT
    ensures Parse(Frame(body) + rest) == Body(body, rest)
  {
    var s := Frame(body) + rest;
    assert s[..4] == U32(|body|);
    U32RoundTrip(|body|);
    assert s[4..4 + |body|] == body && s[4 + |body|..] == rest;
  }

  /** A frame cut short is an error, never another message. */
  lemma ParseCutFrame(body: seq<Byte>, k: nat)
    requires |body| <= MESSAGE_SIZE_LIMIT && k < 4 + |body|
    ensures Parse(Frame(body)[..k]) == Bad(if k < 4 then SizeMissing else BodyMissing)
  {
    var s := Frame(body)[..k];
    if k >= 4 {
      assert s[..4] == U32(|body|);
      U32RoundTrip(|body|);
    }
  }

  lemma {:induction false} FramesConcat(a: seq<seq<Byte>>, b: seq<seq<Byte>>)
    requires AllFit(a) && AllFit(b)
    ensures AllFit(a + b) && Frames(a + b) == Frames(a) + Frames(b)
  {
    if a == [] {
      assert a + b == b;
    } else {
      assert (a + b)[0] == a[0] && (a + b)[1..] == a[1..] + b;
      FramesConcat(a[1..], b);
      assert Frame(a[0]) + (Frames(a[1..]) + Frames(b)) == (Frame(a[0]) + Frames(a[1..])) + Frames(b);
    }
  }

  lemma ReadFrame<M(!new)>(c: Codec<M>, m: M, rest: seq<Byte>)
    requires Faithful(c) && |c.encode(m)| <= MESSAGE_SIZE_LIMIT
    ensures var r := ReadAll(c, rest); ReadAll(c, Frame(c.encode(m)) + rest) == Received([m] + r.messages, r.error)
  {
    ParseFrame(c.encode(m), rest);
  }

  lemma EncodeTail<M>(c: Codec<M>, ms: seq<M>)
    requires ms != []
    ensures EncodeAll(c, ms)[0] == c.encode(ms[0]) && EncodeAll(c, ms)[1..] == EncodeAll(c, ms[1..])
  {
  }

  /** The number of complete frames among the first `k` bytes. */
  function Complete(bodies: seq<seq<Byte>>, k: nat): (n: nat)
    requires AllFit(bodies)
    ensures n <= |bodies|
  {
    if bodies == [] || k < 4 + |bodies[0]| then 0 else 1 + Complete(bodies[1..], k - 4 - |bodies[0]|)
  }

  /** The bytes left over after those. */
  function Leftover(bodies: seq<seq<Byte>>, k: nat): (n: nat)
    requires AllFit(bodies) && k <= |Frames(bodies)|
  {
    if bodies == [] || k < 4 + |bodies[0]| then k else Leftover(bodies[1..], k - 4 - |bodies[0]|)
  }

  lemma FrameCut(bodies: seq<seq<Byte>>, k: nat)
    requires AllFit(bodies) && bodies != [] && k <= |Frames(bodies)|
    ensures var f, tail := Frame(bodies[0]), Frames(bodies[1..]);
      Frames(bodies)[..k] == if k < |f| then f[..k] else f + tail[..k - |f|]
  {
  }

  /** What a receiver reads from the first `k` bytes of the frames of `ms`. */
  ghost predicate Truncated<M>(c: Codec<M>, ms: seq<M>, bodies: seq<seq<Byte>>, k: nat)
    requires AllFit(bodies) && k <= |Frames(bodies)| && |bodies| == |ms|
  {
    var r := ReadAll(c, Frames(bodies)[..k]);
    && r.messages == ms[..Complete(bodies, k)]
    && r.error == if Leftover(bodies, k) < 4 then SizeMissing else BodyMissing
  }

  lemma CutInFirst<M>(c: Codec<M>, ms: seq<M>, bodies: seq<seq<Byte>>, k: nat)
    requires AllFit(bodies) && bodies != [] && |bodies| == |ms| && k < 4 + |bodies[0]| && k <= |Frames(bodies)|
    ensures Truncated(c, ms, bodies, k)
  {
    assert Frames(bodies)[..k] == Frame(bodies[0])[..k] by { FrameCut(bodies, k); }
    ParseCutFrame(bodies[0], k);
    assert ms[..0] == [];
  }

  lemma CountsLater(bodies: seq<seq<Byte>>, k: nat)
    requires AllFit(bodies) && bodies != [] && 4 + |bodies[0]| <= k <= |Frames(bodies)|
    ensures var rest, k' := bodies[1..], k - 4 - |bodies[0]|;
      && k' <= |Frames(rest)|
      && Complete(bodies, k) == 1 + Complete(rest, k') && Leftover(bodies, k) == Leftover(rest, k')
  {
  }

  lemma ReadsLater<M(!new)>(c: Codec<M>, m: M, bodies: seq<seq<Byte>>, k: nat)
    requires Faithful(c) && AllFit(bodies) && bodies != [] && bodies[0] == c.encode(m)
    requires 4 + |bodies[0]| <= k <= |Frames(bodies)|
    ensures var tail := Frames(bodies[1..])[..k - 4 - |bodies[0]|];
      ReadAll(c, Frames(bodies)[..k]) == Received([m] + ReadAll(c, tail).messages, ReadAll(c, tail).error)
  {
    FrameCut(bodies, k);
    ReadFrame(c, m, Frames(bodies[1..])[..k - 4 - |bodies[0]|]);
  }

  lemma CutLater<M(!new)>(c: Codec<M>, ms: seq<M>, bodies: seq<seq<Byte>>, k: nat)
    requires Faithful(c) && AllFit(bodies) && ms != [] && |bodies| == |ms| && bodies[0] == c.encode(ms[0])
    requires 4 + |bodies[0]| <= k <= |Frames(bodies)|
    requires Truncated(c, ms[1..], bodies[1..], k - 4 - |bodies[0]|)
    ensures Truncated(c, ms, bodies, k)
  {
    CountsLater(bodies, k);
    ReadsLater(c, ms[0], bodies, k);
    FirstAndRest(ms, Complete(bodies[1..], k - 4 - |bodies[0]|));
  }

  lemma FirstAndRest<M>(ms: seq<M>, n: nat)
    requires n < |ms|
    ensures ms[..1 + n] == [ms[0]] + ms[1..][..n]
  {
  }

  /** A truncated stream yields exactly the complete messages and then an error. */
  lemma {:induction false} TruncatedStream<M(!new)>(c: Codec<M>, ms: seq<M>, k: nat)
    requires Faithful(c) && AllFit(EncodeAll(c, ms)) && k <= |Frames(EncodeAll(c, ms))|
    ensures var r := ReadAll(c, Frames(EncodeAll(c, ms))[..k]);
      && r.messages == ms[..Complete(EncodeAll(c, ms), k)]
      && r.error == if Leftover(EncodeAll(c, ms), k) < 4 then SizeMissing else BodyMissing
  {
    var bodies := EncodeAll(c, ms);
    if ms == [] {
      assert bodies == [];
      assert Frames([])[..k] == [] && ms[..0] == [];
    } else {
      EncodeTail(c, ms);
      if k < 4 + |bodies[0]| {
        CutInFirst(c, ms, bodies, k);
      } else {
        TruncatedStream(c, ms[1..], k - 4 - |bodies[0]|);
        CutLater(c, ms, bodies, k);
      }
    }
  }

  lemma {:induction false} WholeStream(bodies: seq<seq<Byte>>)
    requires AllFit(bodies)
    ensures Complete(bodies, |Frames(bodies)|) == |bodies| && Leftover(bodies, |Frames(bodies)|) == 0
  {
    if bodies == [] {
    } else {
      WholeStream(bodies[1..]);
    }
  }

  /** Decoding the frames of any accepted message list returns that list, and then finds the end of the stream. */
  lemma RoundTrip<M(!new)>(c: Codec<M>, ms: seq<M>)
    requires Faithful(c) && AllFit(EncodeAll(c, ms))
    ensures ReadAll(c, Frames(EncodeAll(c, ms))) == Received(ms, SizeMissing)
  {
    var s := Frames(EncodeAll(c, ms));
    WholeStream(EncodeAll(c, ms));
    TruncatedStream(c, ms, |s|);
    assert s[..|s|] == s && ms[..|ms|] == ms;
  }

  // ---------------------------------------------------------------- receiving

  function Flat(chunks: seq<seq<Byte>>): seq<Byte> {
    if chunks == [] then [] else chunks[0] + Flat(chunks[1..])
  }

  /** The reading half of a connection: the chunks successive reads return, then end of file. */
  class Reader {
    var chunks: seq<seq<Byte>>

    ghost predicate Valid() reads this { forall i :: 0 <= i < |chunks| ==> chunks[i] != [] }

    function Rest(): seq<Byte> reads this { Flat(chunks) }

    /** `read`: at most `max` bytes of the next chunk, or nothing at end of file. */
    method Read(max: nat) returns (bytes: seq<Byte>)
      requires Valid() && max > 0
      modifies this
      ensures Valid() && |bytes| <= max
      ensures old(Rest()) == bytes + Rest()
      ensures bytes == [] <==> old(Rest()) == []
    {
      if |chunks| == 0 {
        bytes := [];
        return;
      }
      var c := chunks[0];
      if |c| <= max {
        bytes, chunks := c, chunks[1..];
      } else {
        bytes, chunks := c[..max], [c[max..]] + chunks[1..];
        assert chunks[1..] == old(chunks)[1..];
      }
    }

    /** `read_exact`: fills a buffer of `n` bytes however the bytes are chunked, or fails at end of file. */
    method ReadExact(n: nat) returns (r: Option<seq<Byte>>)
      requires Valid()
      modifies this
      ensures Valid()
      ensures n <= |old(Rest())| ==> r == Some(old(Rest())[..n]) && Rest() == old(Rest())[n..]
      ensures n > |old(Rest())| ==> r == None && Rest() == []
    {
      var got: seq<Byte> := [];
      while |got| < n
        invariant Valid() && |got| <= n
        invariant old(Rest()) == got + Rest()
      {
        var bytes := Read(n - |got|);
        if bytes == [] {
          return None;
        }
        got := got + bytes;
      }
      return Some(got);
    }

    /** `recv_message`, up to deserialization. */
    method RecvBody() returns (r: Parsed)
      requires Valid()
      modifies this
      ensures Valid()
      ensures r == match Parse(old(Rest())) case Bad(e) => Bad(e) case Body(b, _) => Body(b, Rest())
      ensures r.Body? ==> Rest() == Parse(old(Rest())).rest
      ensures |old(Rest())| < 4 ==> r == Bad(SizeMissing)
      ensures |old(Rest())| >= 4 ==>
        var n := BigEndian(old(Rest()));
        if n > MESSAGE_SIZE_LIMIT then r == Bad(TooLarge) && Rest() == old(Rest())[4..]
        else if |old(Rest())| < 4 + n then r == Bad(BodyMissing)
        else r == Body(old(Rest())[4..4 + n], old(Rest())[4 + n..])
    {
      ghost var s := Rest();
      var size := ReadExact(4);
      if size.None? {
        return Bad(SizeMissing);
      }
      U32IsBigEndian(0, size.value);
      var n := FromU32(size.value);
      if n > MESSAGE_SIZE_LIMIT {
        return Bad(TooLarge);
      }
      var body := ReadExact(n);
      if body.None? {
        return Bad(BodyMissing);
      }
      assert s[4..][..n] == s[4..4 + n] && s[4..][n..] == s[4 + n..];
      return Body(body.value, Rest());
    }

    /** A receiver loop reading messages until the first error: the chunking does not matter. */
    method ReceiveAll<M>(c: Codec<M>) returns (messages: seq<M>, error: ReadError)
      requires Valid()
      modifies this
      ensures Valid()
      ensures Received(messages, error) == ReadAll(c, old(Rest()))
    {
      messages := [];
      while true
        invariant Valid()
        // Each iteration starts on a frame boundary.
        invariant ReadAll(c, old(Rest())).messages == messages + ReadAll(c, Rest()).messages
        invariant ReadAll(c, old(Rest())).error == ReadAll(c, Rest()).error
        decreases |Rest()|
      {
        ghost var here := ReadAll(c, Rest());
        var r := RecvBody();
        if r.Bad? {
          assert here == Received([], r.error);
          return messages, r.error;
        }
        var m := c.decode(r.body);
        if m.None? {
          assert here == Received([], Undecodable);
          return messages, Undecodable;
        }
        ghost var next := ReadAll(c, Rest());
        assert here == Received([m.value] + next.messages, next.error);
        assert messages + here.messages == (messages + [m.value]) + next.messages;
        messages := messages + [m.value];
      }
    }
  }
}
