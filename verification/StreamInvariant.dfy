/** What every step of a stream endpoint keeps. */
module StreamInvariant {
  import opened Options
  import opened Stream
  import opened StreamEndpoint

  const TEARDOWN: seq<Cleanup> := [ClosingAdapter, Cancelling, ClosingRecv]

  /** How much of the teardown lies behind an action. */
  function Progress(c: Cleanup): nat {
    match c
    case Cancelling => 1
    case ClosingRecv => 2
    case _ => 0
  }

  /** One winner of `setClosed` tears the stream down: a closer, the handler, or somebody who has finished. */
  ghost predicate OneWinner(e: Endpoint) {
    && (e.base.closed <==> e.base.err.Some?)
    && (e.base.recvClosed <==> |e.life.torndown| == 3)
    && |e.life.torndown| <= 3 && e.life.torndown == TEARDOWN[..|e.life.torndown|]
    && (!e.base.closed ==> e.closers.Keys == {} && !e.handler.Closing? && e.life.torndown == [])
    && (forall t | t in e.closers :: !e.handler.Closing? && Progress(e.closers[t]) == |e.life.torndown|)
    && (forall t, u | t in e.closers && u in e.closers :: t == u)
    && (e.handler.Closing? ==> e.closers.Keys == {})
    && (e.handler.Closing? ==> Progress(e.handler.step) == |e.life.torndown|)
    && (e.handler.Closing? ==> !e.handler.step.Announcing? && !e.handler.step.Draining?)
    && (e.base.closed && !e.handler.Closing? && e.closers.Keys == {} ==> |e.life.torndown| == 3)
  }

  /** The wait group counts the `Send` calls and the handler; nobody is counted once a local close has waited, and
      the handler of a stream that the peer closed does not deliver. */
  ghost predicate Counted(e: Endpoint) {
    && e.base.pending == |e.senders| + (if e.handler.Pends() then 1 else 0)
    && (e.life.drained ==> e.base.closed && e.base.pending == 0)
    && (e.life.byPeer ==> e.base.closed && e.closers.Keys == {} && !e.handler.Pends())
    && (forall t | t in e.closers && !e.closers[t].Announcing? && !e.closers[t].Draining? :: e.life.drained)
    && (e.handler.Closing? ==> e.life.byPeer)
    && (e.life.torndown != [] ==> e.life.byPeer || e.life.drained)
  }

  /** A registered ack channel is open, and belongs to one request. */
  ghost predicate AcksOpen(e: Endpoint) {
    && e.base.acks !! e.base.acked
    && (e.handler.ClosingAck? ==> e.handler.id !in e.base.acks && e.handler.id !in e.base.acked)
    && (forall t | t in e.senders :: e.senders[t].id in e.log.bodies)
    && (forall t, u | t in e.senders && u in e.senders && e.senders[t].id == e.senders[u].id :: t == u)
    && (forall t | t in e.senders && e.senders[t].Registering? ::
          && e.senders[t].id !in e.base.acks && e.senders[t].id !in e.base.acked
          && e.handler != ClosingAck(e.senders[t].id))
  }

  /** A success is reported for an acked request only, unless the context was done before the stream was closed. */
  ghost predicate Justified(e: Endpoint, id: RequestId, result: Option<Error>) {
    result.None? ==> id in e.base.acked || e.life.orphaned
  }

  ghost predicate Reported(e: Endpoint) {
    && (e.base.done && e.base.err.None? ==> e.life.orphaned)
    && (forall t | t in e.senders && (e.senders[t].Unregistering? || e.senders[t].Releasing?) ::
          Justified(e, e.senders[t].id, e.senders[t].result))
    && (forall t | t in e.log.outcomes :: Justified(e, e.log.outcomes[t].id, e.log.outcomes[t].result))
  }

  /** Where acks come from, and what an ack sent from here means. */
  ghost predicate Sourced(e: Endpoint) {
    && (forall id | id in e.base.acked || e.handler == ClosingAck(id) :: Ack(id) in e.log.inbox)
    && (forall id, body | Data(id, body) in e.log.out :: id in e.log.bodies && e.log.bodies[id] == body)
    && (forall t | t in e.senders && (e.senders[t].Registering? || e.senders[t].Publishing?) ::
          e.senders[t].id in e.log.bodies && e.log.bodies[e.senders[t].id] == e.senders[t].body)
    && (forall id | Ack(id) in e.log.out || e.handler == Acking(id) :: id in e.log.delivered)
    && (forall id | id in e.log.delivered ::
          Data(id, Some(e.log.delivered[id])) in e.log.inbox && e.log.delivered[id] in e.base.received)
    && (e.handler.Decoding? ==> Data(e.handler.id, e.handler.body) in e.log.inbox)
    && (e.handler.Delivering? ==> Data(e.handler.id, Some(e.handler.value)) in e.log.inbox)
  }

  ghost predicate Invariant(e: Endpoint) {
    OneWinner(e) && Counted(e) && AcksOpen(e) && Reported(e) && Sourced(e)
  }

  lemma SendOneWinner(e: Endpoint, t: Tid, step: SendStep)
    requires OneWinner(e) && Counted(e) && SendEnabled(e, t, step)
    ensures OneWinner(SendNext(e, t, step))
  {
  }

  lemma HandleOneWinner(e: Endpoint, h: HandleStep)
    requires OneWinner(e) && Counted(e) && HandleEnabled(e, h)
    ensures OneWinner(HandleNext(e, h))
  {
  }

  lemma OtherOneWinner(e: Endpoint, l: Label)
    requires OneWinner(e) && Counted(e) && !l.Send? && !l.Handle? && Enabled(e, l)
    ensures OneWinner(Next(e, l))
  {
  }

  lemma SendCounted(e: Endpoint, t: Tid, step: SendStep)
    requires OneWinner(e) && Counted(e) && SendEnabled(e, t, step)
    ensures Counted(SendNext(e, t, step))
  {
  }

  lemma HandleCounted(e: Endpoint, h: HandleStep)
    requires OneWinner(e) && Counted(e) && HandleEnabled(e, h)
    ensures Counted(HandleNext(e, h))
  {
  }

  lemma OtherCounted(e: Endpoint, l: Label)
    requires OneWinner(e) && Counted(e) && !l.Send? && !l.Handle? && Enabled(e, l)
    ensures Counted(Next(e, l))
  {
  }

  lemma SendAcksOpen(e: Endpoint, t: Tid, step: SendStep)
    requires AcksOpen(e) && SendEnabled(e, t, step)
    ensures AcksOpen(SendNext(e, t, step))
  {
  }

  lemma HandleAcksOpen(e: Endpoint, h: HandleStep)
    requires AcksOpen(e) && HandleEnabled(e, h)
    ensures AcksOpen(HandleNext(e, h))
  {
  }

  lemma OtherAcksOpen(e: Endpoint, l: Label)
    requires AcksOpen(e) && !l.Send? && !l.Handle? && Enabled(e, l)
    ensures AcksOpen(Next(e, l))
  {
  }

  lemma SendReported(e: Endpoint, t: Tid, step: SendStep)
    requires OneWinner(e) && Reported(e) && SendEnabled(e, t, step)
    ensures Reported(SendNext(e, t, step))
  {
  }

  lemma HandleReported(e: Endpoint, h: HandleStep)
    requires OneWinner(e) && Reported(e) && HandleEnabled(e, h)
    ensures Reported(HandleNext(e, h))
  {
  }

  lemma OtherReported(e: Endpoint, l: Label)
    requires OneWinner(e) && Reported(e) && !l.Send? && !l.Handle? && Enabled(e, l)
    ensures Reported(Next(e, l))
  {
  }

  lemma SendSourced(e: Endpoint, t: Tid, step: SendStep)
    requires AcksOpen(e) && Sourced(e) && SendEnabled(e, t, step)
    ensures Sourced(SendNext(e, t, step))
  {
  }

  lemma HandleSourced(e: Endpoint, h: HandleStep)
    requires AcksOpen(e) && Sourced(e) && HandleEnabled(e, h)
    ensures Sourced(HandleNext(e, h))
  {
  }

  lemma OtherSourced(e: Endpoint, l: Label)
    requires AcksOpen(e) && Sourced(e) && !l.Send? && !l.Handle? && Enabled(e, l)
    ensures Sourced(Next(e, l))
  {
  }
}
