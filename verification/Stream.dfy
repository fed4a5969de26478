/** The state that a stream endpoint protects with its mutex, wait group and channels (internal/stream/stream.go),
    and the effect of each section on it. */
module Stream {
  import opened Options

  type RequestId = string
  type Payload = string
  type Error = string

  /** `acks` are the registered ack channels, `acked` those that have been closed; `received` is everything ever put
      into the receive channel; `done` says that the stream context is done. */
  datatype Base = Base(
    closed: bool,
    err: Option<Error>,
    pending: nat,
    acks: set<RequestId>,
    acked: set<RequestId>,
    received: seq<Payload>,
    recvClosed: bool,
    done: bool)

  function NewBase(acks: set<RequestId>): Base {
    Base(false, None, 0, acks, {}, [], false, false)
  }

  /** `addPending`: counts the caller unless the stream is closed; returns the error of a closed stream. */
  function AddPending(b: Base): Base {
    if b.closed then b else b.(pending := b.pending + 1)
  }

  /** `setClosed`: the first caller wins and records its cause. */
  function SetClosed(b: Base, cause: Error): Base {
    if b.closed then b else b.(closed := true, err := Some(cause))
  }

  /** `pending.Done()`. */
  function Done(b: Base): Base
    requires b.pending > 0
  {
    b.(pending := b.pending - 1)
  }

  /** The non-blocking send of `Recv`; `room` says that the channel can take a message. */
  function Deliver(b: Base, v: Payload, room: bool): Base
    requires !b.recvClosed
  {
    if room then b.(received := b.received + [v]) else b
  }
}
