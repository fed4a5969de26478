/** The sections of internal/stream/stream.go as methods on the fields of `streamBase`.  Every method is one section of
    `Send`, `Close` or `HandleStream`, and is shown to be a step of `StreamEndpoint`. */
module StreamBase {
  import opened Options
  import opened Stream
  import opened StreamEndpoint
  import opened StreamInvariant

  const ERR_SLOW_CONSUMER := "slow consumer"

  class StreamBase {
    var closed: bool
    var err: Option<Error>
    var pending: nat
    var acks: set<RequestId>
    var acked: set<RequestId>
    var received: seq<Payload>
    var recvClosed: bool
    var done: bool

    /** The fields are this endpoint's part of the protocol state. */
    ghost predicate Represents(e: Endpoint)
      reads this
    {
      e.base == Base(closed, err, pending, acks, acked, received, recvClosed, done)
    }

    constructor (acks: set<RequestId>)
      ensures Represents(New(acks))
    {
      closed, err, pending, this.acks, acked := false, None, 0, acks, {};
      received, recvClosed, done := [], false, false;
    }

    /** `addPending`, for a message to send or a message received: the caller goes on exactly when it gets no error. */
    method AddPending(ghost e: Endpoint, ghost l: Label) returns (r: Option<Error>)
      requires Represents(e) && OneWinner(e) && Enabled(e, l)
      requires l.StartSend? || (l.Handle? && l.h.ReceiveData?)
      modifies this`pending
      ensures Represents(Next(e, l))
      ensures l.StartSend? ==> (r.None? <==> l.t in Next(e, l).senders)
      ensures l.StartSend? && r.Some? ==> Next(e, l).log.outcomes[l.t] == Outcome(l.id, r)
      ensures l.Handle? ==> (r.None? <==> Next(e, l).handler.Decoding?)
    {
      if !closed {
        pending := pending + 1;
      }
      r := err;
    }

    /** `setClosed`, for a local close or one received: the caller tears the stream down exactly when it gets no
        error. */
    method SetClosed(ghost e: Endpoint, ghost l: Label, cause: Error) returns (r: Option<Error>)
      requires Represents(e) && OneWinner(e) && Enabled(e, l)
      requires l == Handle(ReceiveClose(cause)) || (l.StartClose? && l.cause == cause)
      modifies this`closed, this`err
      ensures Represents(Next(e, l))
      ensures l.StartClose? ==> (r.None? <==> l.t in Next(e, l).closers)
      ensures l.Handle? ==> (r.None? <==> Next(e, l).handler.Closing?)
      ensures r.Some? ==> r == e.base.err == Next(e, l).base.err
    {
      if closed {
        return err;
      }
      closed := true;
      err := Some(cause);
      r := None;
    }

    /** `pending.Done`, at the end of `Send` or of a message. */
    method DonePending(ghost e: Endpoint, ghost l: Label)
      requires Represents(e) && Enabled(e, l)
      requires (l.Send? && l.step.Release?) || l == Handle(HandleStep.Release)
      modifies this`pending
      ensures Represents(Next(e, l))
    {
      pending := pending - 1;
    }

    method RegisterAck(ghost e: Endpoint, ghost t: Tid, id: RequestId)
      requires Represents(e) && Enabled(e, Send(t, Register)) && e.senders[t].id == id
      modifies this`acks
      ensures Represents(Next(e, Send(t, Register)))
    {
      acks := acks + {id};
    }

    /** The deferred removal of `Send`, and the lookup and removal for an incoming ack: the handler closes an ack
        channel exactly when it found one. */
    method TakeAck(ghost e: Endpoint, ghost l: Label, id: RequestId) returns (ok: bool)
      requires Represents(e) && Enabled(e, l)
      requires l == Handle(ReceiveAck(id)) || (l.Send? && l.step.Unregister? && e.senders[l.t].id == id)
      modifies this`acks
      ensures Represents(Next(e, l))
      ensures l.Handle? ==> (ok <==> Next(e, l).handler == ClosingAck(id))
    {
      ok := id in acks;
      acks := acks - {id};
    }

    method CloseAck(ghost e: Endpoint, id: RequestId)
      requires Represents(e) && Enabled(e, Handle(FinishAck)) && e.handler == ClosingAck(id)
      modifies this`acked
      ensures Represents(Next(e, Handle(FinishAck)))
    {
      acked := acked + {id};
    }

    /** `Recv`: the message is acknowledged exactly when the channel took it. */
    method Recv(ghost e: Endpoint, v: Payload, room: bool) returns (r: Option<Error>)
      requires Represents(e) && Enabled(e, Handle(Put(room))) && e.handler.value == v
      modifies this`received
      ensures Represents(Next(e, Handle(Put(room))))
      ensures r == if room then None else Some(ERR_SLOW_CONSUMER)
      ensures r.None? <==> Next(e, Handle(Put(room))).handler.Acking?
    {
      if room {
        received := received + [v];
        r := None;
      } else {
        r := Some(ERR_SLOW_CONSUMER);
      }
    }

    /** One action of the teardown, by a local close or by the handler. */
    method Clean(ghost e: Endpoint, ghost l: Label, c: Cleanup)
      requires Represents(e) && Enabled(e, l)
      requires (l.Clean? && c == e.closers[l.t]) || (l == Handle(HandleStep.Clean) && c == e.handler.step)
      modifies this`done, this`recvClosed
      ensures Represents(Next(e, l))
    {
      match c {
        case Cancelling => done := true;
        case ClosingRecv => recvClosed := true;
        case _ =>
      }
    }
  }
}
