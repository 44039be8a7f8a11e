/** The source and sink tasks as machines whose states are their await points. */
module Endpoints {
  import opened Protocol

  /** Where `source::Task::handle` is suspended. */
  datatype SourcePhase =
    | Idle                        // in `select!`, racing `read` against `rx.recv`
    | Sending(bytes: seq<Byte>)   // in `tx.send(Data)`
    | Awaiting                    // in `rx.recv` for the reply to its `Data`
    | Closing                     // in `tx.send(SourceClosed)`
    | SourceDone
    | SourceFailed                // its reply channel disappeared
    | Panicked                    // an `Ack` arrived while idle

  datatype SourceInput =
    | Read(data: seq<Byte>)       // `read` returned bytes
    | ReadEnd                     // `read` returned end of file or an error
    | Sent                        // `tx.send` returned
    | Reply(action: SinkAction)   // `rx.recv` returned a reply
    | ReplyGone                   // `rx.recv` returned nothing

  /** One run of the source task from an await point to the next; None when the input cannot occur there. */
  function SourceStep(p: SourcePhase, i: SourceInput): Option<SourcePhase> {
    match i
    case Read(b) => if p.Idle? && 1 <= |b| <= MAX_STREAM_PACKET_SIZE then Some(Sending(b)) else None
    case ReadEnd => if p.Idle? then Some(Closing) else None
    case Sent => if p.Sending? then Some(Awaiting) else if p.Closing? then Some(SourceDone) else None
    case ReplyGone => if p.Idle? || p.Awaiting? then Some(SourceFailed) else None
    case Reply(a) =>
      if p.Idle? then Some(if a.Ack? then Panicked else Closing)
      else if p.Awaiting? then Some(if a.Ack? then Idle else Closing)
      else None
  }

  /** Where `sink::Task::handle` is suspended. */
  datatype SinkPhase =
    | Receiving                   // in `rx.recv`
    | Writing(bytes: seq<Byte>)   // in `writer.write_all`
    | SendingAck                  // in `tx.send(Ack)`
    | Flushing                    // in `writer.flush`
    | SendingClosed               // in `tx.send(SinkClosed)`
    | ShuttingDown                // in `writer.shutdown`
    | SinkDone
    | SinkFailed                  // an I/O error other than a broken pipe

  datatype SinkState = SinkState(phase: SinkPhase, closed: bool)

  datatype SinkInput =
    | Got(action: SourceAction)   // `rx.recv` returned an action
    | GotGone                     // `rx.recv` returned nothing
    | WriteOk
    | WriteBroken(count: nat)     // broken pipe after `count` bytes
    | IoError(count: nat)         // any other error of `write_all` (after `count` bytes) or of `flush`
    | AckSent
    | ClosedSent
    | FlushOk
    | FlushBroken
    | ShutdownDone

  /** One run of the sink task from an await point to the next; None when the input cannot occur there. */
  function SinkStep(s: SinkState, i: SinkInput): Option<SinkState> {
    var k := s.phase;
    match i
    case Got(a) =>
      if !k.Receiving? then None
      else if a.SourceClosed? then Some(s.(phase := ShuttingDown))
      else if s.closed then Some(s.(phase := SendingClosed))
      else Some(s.(phase := Writing(a.bytes)))
    case GotGone => if k.Receiving? then Some(s.(phase := ShuttingDown)) else None
    case WriteOk => if k.Writing? then Some(s.(phase := SendingAck)) else None
    case WriteBroken(n) => if k.Writing? && n < |k.bytes| then Some(SinkState(SendingClosed, true)) else None
    case IoError(n) =>
      if (k.Writing? && n < |k.bytes|) || k.Flushing? then Some(s.(phase := SinkFailed)) else None
    case AckSent => if k.SendingAck? then Some(s.(phase := Flushing)) else None
    case FlushOk => if k.Flushing? then Some(s.(phase := Receiving)) else None
    case FlushBroken => if k.Flushing? then Some(SinkState(SendingClosed, true)) else None
    case ClosedSent => if k.SendingClosed? then Some(s.(phase := Receiving)) else None
    case ShutdownDone => if k.ShuttingDown? then Some(s.(phase := SinkDone)) else None
  }

  /** Both ends of one stream, with the histories the theorems speak about. */
  datatype Ends = Ends(
    src: SourcePhase,
    snk: SinkState,
    read: seq<Byte>,      // every byte the source has read
    written: seq<Byte>,   // every byte the sink's writer has accepted
    sent: nat,            // `Data` messages sent
    emitted: nat,         // `SinkClosed` messages sent by the sink
    foreign: nat,         // `SinkClosed` messages sent on the sink's behalf by the server's main task
    late: nat             // `Data` messages sent after the first of those
  )

  const FRESH := Ends(Idle, SinkState(Receiving, false), [], [], 0, 0, 0, 0)

  /** What one of the two tasks does next. */
  datatype TaskEvent =
    | SrcRead(data: seq<Byte>) | SrcEnd | SrcSend | SrcRecv
    | SnkRecv | SnkWrite | SnkBreak(count: nat) | SnkSend | SnkFlush | SnkFlushBreak | SnkShutdown

  /** The effect of a task event: new ends, messages taken from either channel, messages sent. */
  datatype Move = Move(ends: Ends, fromInbox: nat, fromOutbox: nat, up: seq<SourceAction>, down: seq<SinkAction>)

  /** A channel's content after `taken` messages left its front and `added` were appended. */
  function Advance<T>(s: seq<T>, taken: nat, added: seq<T>): seq<T>
    requires taken <= |s|
  {
    var rest := if taken == 0 then s else s[taken..];
    if |added| == 0 then rest else rest + added
  }

  function SourceMoves(e: Ends, i: SourceInput): Option<Move> {
    match SourceStep(e.src, i)
    case None => None
    case Some(p) =>
      match i
      case Read(b) => Some(Move(e.(src := p, read := e.read + b), 0, 0, [], []))
      case Reply(_) => Some(Move(e.(src := p), 1, 0, [], []))
      case Sent =>
        if e.src.Sending? then
          Some(Move(e.(src := p, sent := e.sent + 1, late := if e.foreign > 0 then e.late + 1 else e.late),
                    0, 0, [Data(e.src.bytes)], []))
        else
          Some(Move(e.(src := p), 0, 0, [SourceClosed], []))
      case _ => Some(Move(e.(src := p), 0, 0, [], []))
  }

  function SinkMoves(e: Ends, i: SinkInput): Option<Move> {
    match SinkStep(e.snk, i)
    case None => None
    case Some(k) =>
      match i
      case Got(_) => Some(Move(e.(snk := k), 0, 1, [], []))
      case WriteOk => Some(Move(e.(snk := k, written := e.written + e.snk.phase.bytes), 0, 0, [], []))
      case WriteBroken(n) => Some(Move(e.(snk := k, written := e.written + e.snk.phase.bytes[..n]), 0, 0, [], []))
      case AckSent => Some(Move(e.(snk := k), 0, 0, [], [Ack]))
      case ClosedSent => Some(Move(e.(snk := k, emitted := e.emitted + 1), 0, 0, [], [SinkClosed]))
      case _ => Some(Move(e.(snk := k), 0, 0, [], []))
  }

  /**
   * A failure-free event of either task, given what lies in the source's channel (`inbox`)
   * and in the sink's channel (`outbox`). None when the event cannot occur.
   */
  function Act(e: Ends, ev: TaskEvent, inbox: seq<SinkAction>, outbox: seq<SourceAction>): (r: Option<Move>)
    ensures r.Some? ==>
      && r.value.fromInbox <= 1 && r.value.fromInbox <= |inbox|
      && r.value.fromOutbox <= 1 && r.value.fromOutbox <= |outbox|
      && |r.value.up| <= 1 && |r.value.down| <= 1
  {
    match ev
    case SrcRead(b) => SourceMoves(e, Read(b))
    case SrcEnd => SourceMoves(e, ReadEnd)
    case SrcSend => SourceMoves(e, Sent)
    case SrcRecv => if inbox == [] then None else SourceMoves(e, Reply(inbox[0]))
    case SnkRecv => if outbox == [] then None else SinkMoves(e, Got(outbox[0]))
    case SnkWrite => SinkMoves(e, WriteOk)
    case SnkBreak(n) => SinkMoves(e, WriteBroken(n))
    case SnkSend => SinkMoves(e, if e.snk.phase.SendingAck? then AckSent else ClosedSent)
    case SnkFlush => SinkMoves(e, FlushOk)
    case SnkFlushBreak => SinkMoves(e, FlushBroken)
    case SnkShutdown => SinkMoves(e, ShutdownDone)
  }
}
