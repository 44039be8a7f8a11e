/** The messages exchanged by client and server, and the protocol's constants. */
module Protocol {
  datatype Option<+T> = None | Some(value: T)

  type Byte = b: int | 0 <= b < 256

  /** Upper bound on the payload of one `Data` message. */
  const MAX_STREAM_PACKET_SIZE := 4096

  /** Upper bound on one serialized message (1 MiB), enforced by both ends. */
  const MESSAGE_SIZE_LIMIT := 1024 * 1024

  /** Capacity of each side's outbound message queue. */
  const QUEUE_CAPACITY := 128

  /** The three standard streams. */
  datatype StdId = Stdin | Stdout | Stderr

  datatype SourceAction = Data(bytes: seq<Byte>) | SourceClosed

  datatype SinkAction = Ack | SinkClosed

  datatype ExitStatus = Code(code: int) | Signal(signal: int)

  /** `ServerAction` and `ClientAction` in one type; `SessionInvariant.Belongs` says which may travel which way. */
  datatype Message =
    | FromSource(sid: StdId, source: SourceAction)
    | FromSink(kid: StdId, sink: SinkAction)
    | WindowSizeChange(width: nat, height: nat)
    | Exit(status: ExitStatus)
    | Finished
    | Forwarded(tag: nat)   // any message of a listener, a connecter or a forwarded connection
}
