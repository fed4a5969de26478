/** Every interleaving of the goroutines on one stream endpoint: concurrent `Send` calls, concurrent local `Close`
    calls, and `HandleStream` calls, which the endpoint loops run one at a time. */
module StreamEndpoint {
  import opened Options
  import opened Stream

  type Tid = string

  const MALFORMED := "malformed request"
  const TIMED_OUT := "request timed out"

  /** Messages between endpoints; a body that does not decode is `None`. */
  datatype Wire =
    | Data(id: RequestId, body: Option<Payload>)
    | Ack(id: RequestId)
    | Close(cause: Error)

  /** A `Send` call.  `result` is what it is going to return: no error, or one. */
  datatype Sender =
    | Registering(id: RequestId, body: Option<Payload>)
    | Publishing(id: RequestId, body: Option<Payload>)
    | Waiting(id: RequestId)
    | Unregistering(id: RequestId, result: Option<Error>)
    | Releasing(id: RequestId, result: Option<Error>)

  /** What the winner of `setClosed` has still to do; a local close first announces itself and waits. */
  datatype Cleanup =
    | Announcing
    | Draining
    | ClosingAdapter
    | Cancelling
    | ClosingRecv

  datatype Handler =
    | Idle
    | ClosingAck(id: RequestId)
    | Decoding(id: RequestId, body: Option<Payload>)
    | Delivering(id: RequestId, value: Payload)
    | Acking(id: RequestId)
    | ReleasingPending
    | Closing(step: Cleanup)
  {
    /** The handler is counted in the wait group. */
    predicate Pends() {
      Decoding? || Delivering? || Acking? || ReleasingPending?
    }
  }

  /** What `Send` returned, and for which request. */
  datatype Outcome = Outcome(id: RequestId, result: Option<Error>)

  /** Histories: `inbox` is everything handled and `out` everything handed to the adapter; `bodies` holds the payload
      of each request sent from here, `delivered` that of each request put into the receive channel. */
  datatype Log = Log(
    inbox: set<Wire>,
    out: set<Wire>,
    bodies: map<RequestId, Option<Payload>>,
    outcomes: map<Tid, Outcome>,
    delivered: map<RequestId, Payload>)

  /** `torndown` lists the teardown actions performed.  `orphaned`: the context was done before the stream was
      closed; `byPeer`: the peer closed the stream; `drained`: a local close has waited. */
  datatype Life = Life(torndown: seq<Cleanup>, orphaned: bool, byPeer: bool, drained: bool)

  datatype Endpoint = Endpoint(
    base: Base,
    senders: map<Tid, Sender>,
    closers: map<Tid, Cleanup>,
    handler: Handler,
    log: Log,
    life: Life)

  function New(acks: set<RequestId>): Endpoint {
    Endpoint(NewBase(acks), map[], map[], Idle, Log({}, {}, map[], map[], map[]), Life([], false, false, false))
  }

  datatype SendStep = FailSerialize | Register | Publish(ok: bool, sent: bool) | SeeAck | Expire | Unregister | Release

  datatype HandleStep =
    | ReceiveAck(id: RequestId)
    | ReceiveData(id: RequestId, body: Option<Payload>)
    | ReceiveClose(cause: Error)
    | Decode
    | Put(room: bool)
    | SendAck(sent: bool)
    | Release
    | FinishAck
    | Clean

  datatype Label =
    | StartSend(t: Tid, id: RequestId, body: Option<Payload>)
    | Send(t: Tid, step: SendStep)
    | Handle(h: HandleStep)
    | StartClose(t: Tid, cause: Error)
    | Clean(t: Tid, sent: bool)
    | ParentDone

  predicate Fresh(e: Endpoint, t: Tid) {
    t !in e.senders && t !in e.closers && t !in e.log.outcomes
  }

  /** Request ids are never reused. */
  predicate FreshId(e: Endpoint, id: RequestId) {
    id !in e.log.bodies && id !in e.base.acks && id !in e.base.acked && e.handler != ClosingAck(id)
  }

  predicate SendEnabled(e: Endpoint, t: Tid, step: SendStep) {
    t in e.senders &&
    match step
    case FailSerialize => e.senders[t].Registering?
    case Register => e.senders[t].Registering?
    case Publish(ok, sent) => e.senders[t].Publishing? && (ok ==> sent)
    case SeeAck => e.senders[t].Waiting? && e.senders[t].id in e.base.acked
    case Expire => e.senders[t].Waiting?
    case Unregister => e.senders[t].Unregistering?
    case Release => e.senders[t].Releasing? && e.base.pending > 0
  }

  /** What an expired `Send` returns: the error of the stream when its context is done, a timeout otherwise. */
  function Expired(b: Base): Option<Error> {
    if b.done then b.err else Some(TIMED_OUT)
  }

  function SendNext(e: Endpoint, t: Tid, step: SendStep): Endpoint
    requires SendEnabled(e, t, step)
  {
    var x := e.senders[t];
    match step
    case FailSerialize => e.(senders := e.senders[t := Releasing(x.id, Some(MALFORMED))])
    case Register =>
      e.(base := e.base.(acks := e.base.acks + {x.id}), senders := e.senders[t := Publishing(x.id, x.body)])
    case Publish(ok, sent) =>
      e.(log := if sent then e.log.(out := e.log.out + {Data(x.id, x.body)}) else e.log,
         senders := e.senders[t := if ok then Waiting(x.id) else Unregistering(x.id, Some("internal"))])
    case SeeAck => e.(senders := e.senders[t := Unregistering(x.id, None)])
    case Expire => e.(senders := e.senders[t := Unregistering(x.id, Expired(e.base))])
    case Unregister =>
      e.(base := e.base.(acks := e.base.acks - {x.id}), senders := e.senders[t := Releasing(x.id, x.result)])
    case Release =>
      e.(base := Done(e.base), senders := e.senders - {t},
         log := e.log.(outcomes := e.log.outcomes[t := Outcome(x.id, x.result)]))
  }

  /** `pending.Wait` returns when nobody is counted; a channel must be open to be closed. */
  predicate CanClean(b: Base, c: Cleanup) {
    (c.Draining? ==> b.pending == 0) && (c.ClosingRecv? ==> !b.recvClosed)
  }

  function AfterClean(c: Cleanup): Option<Cleanup> {
    match c
    case Announcing => Some(Draining)
    case Draining => Some(ClosingAdapter)
    case ClosingAdapter => Some(Cancelling)
    case Cancelling => Some(ClosingRecv)
    case ClosingRecv => None
  }

  /** The effect of one cleanup action on the stream, and its record. */
  function Perform(b: Base, c: Cleanup): Base {
    if c.Cancelling? then b.(done := true) else if c.ClosingRecv? then b.(recvClosed := true) else b
  }

  function Recorded(f: Life, c: Cleanup): Life {
    if c.Announcing? then f else if c.Draining? then f.(drained := true) else f.(torndown := f.torndown + [c])
  }

  predicate HandleEnabled(e: Endpoint, h: HandleStep) {
    match h
    case ReceiveAck(_) => e.handler.Idle?
    case ReceiveData(_, _) => e.handler.Idle?
    case ReceiveClose(_) => e.handler.Idle?
    case Decode => e.handler.Decoding?
    case Put(_) => e.handler.Delivering? && !e.base.recvClosed
    case SendAck(_) => e.handler.Acking?
    case Release => e.handler.ReleasingPending? && e.base.pending > 0
    case FinishAck => e.handler.ClosingAck? && e.handler.id !in e.base.acked
    case Clean => e.handler.Closing? && CanClean(e.base, e.handler.step)
  }

  function Heard(g: Log, w: Wire): Log {
    g.(inbox := g.inbox + {w})
  }

  /** A message that does not decode also makes the handler start a local `Close`, which is a `StartClose` step. */
  function HandleNext(e: Endpoint, h: HandleStep): Endpoint
    requires HandleEnabled(e, h)
  {
    match h
    case ReceiveAck(id) =>
      e.(base := e.base.(acks := e.base.acks - {id}),
         handler := if id in e.base.acks then ClosingAck(id) else Idle,
         log := Heard(e.log, Ack(id)))
    case ReceiveData(id, body) =>
      e.(base := AddPending(e.base),
         handler := if e.base.closed then Idle else Decoding(id, body),
         log := Heard(e.log, Data(id, body)))
    case ReceiveClose(cause) =>
      e.(base := SetClosed(e.base, cause),
         handler := if e.base.closed then Idle else Closing(ClosingAdapter),
         log := Heard(e.log, Close(cause)),
         life := if e.base.closed then e.life else e.life.(byPeer := true))
    case Decode =>
      e.(handler := if e.handler.body.None? then ReleasingPending else Delivering(e.handler.id, e.handler.body.value))
    case Put(room) =>
      e.(base := Deliver(e.base, e.handler.value, room),
         handler := if room then Acking(e.handler.id) else ReleasingPending,
         log := if room then e.log.(delivered := e.log.delivered[e.handler.id := e.handler.value]) else e.log)
    case SendAck(sent) =>
      e.(log := if sent then e.log.(out := e.log.out + {Ack(e.handler.id)}) else e.log, handler := ReleasingPending)
    case Release => e.(base := Done(e.base), handler := Idle)
    case FinishAck => e.(base := e.base.(acked := e.base.acked + {e.handler.id}), handler := Idle)
    case Clean =>
      var c := e.handler.step;
      var next := AfterClean(c);
      e.(base := Perform(e.base, c),
         life := Recorded(e.life, c),
         handler := if next.None? then Idle else Closing(next.value))
  }

  predicate Enabled(e: Endpoint, l: Label) {
    match l
    case StartSend(t, id, _) => Fresh(e, t) && FreshId(e, id)
    case Send(t, step) => SendEnabled(e, t, step)
    case Handle(h) => HandleEnabled(e, h)
    case StartClose(t, _) => Fresh(e, t)
    case Clean(t, _) => t in e.closers && CanClean(e.base, e.closers[t])
    case ParentDone => true
  }

  function Next(e: Endpoint, l: Label): Endpoint
    requires Enabled(e, l)
  {
    match l
    case StartSend(t, id, body) =>
      var log := e.log.(bodies := e.log.bodies[id := body]);
      if e.base.closed then e.(log := log.(outcomes := log.outcomes[t := Outcome(id, e.base.err)]))
      else e.(base := AddPending(e.base), senders := e.senders[t := Registering(id, body)], log := log)
    case Send(t, step) => SendNext(e, t, step)
    case Handle(h) => HandleNext(e, h)
    case StartClose(t, cause) =>
      if e.base.closed then e
      else e.(base := SetClosed(e.base, cause), closers := e.closers[t := Announcing])
    case Clean(t, sent) =>
      var c := e.closers[t];
      var next := AfterClean(c);
      e.(base := Perform(e.base, c),
         life := Recorded(e.life, c),
         closers := if next.None? then e.closers - {t} else e.closers[t := next.value],
         log := if c.Announcing? && sent && e.base.err.Some? then e.log.(out := e.log.out + {Close(e.base.err.value)})
                else e.log)
    case ParentDone =>
      e.(base := e.base.(done := true), life := e.life.(orphaned := e.life.orphaned || !e.base.closed))
  }
}
