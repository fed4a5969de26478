/** The other half of soundness: on an open stream a message can be sent, received and acknowledged, and `Send` then
    reports success. */
module StreamRoundTrip {
  import opened Options
  import opened Stream
  import opened StreamEndpoint
  import opened StreamTheorems

  /** A run from `ps` leads on to `p`. */
  ghost predicate Continues(ps: seq<Pair>, ls: seq<PairLabel>, qs: seq<Pair>, ms: seq<PairLabel>, p: Pair) {
    IsPairRun(qs, ms) && ps <= qs && ls <= ms && qs[|ms|] == p
  }

  lemma Extend(ps: seq<Pair>, ls: seq<PairLabel>, qs: seq<Pair>, ms: seq<PairLabel>, p: Pair, l: PairLabel)
    returns (qs': seq<Pair>, ms': seq<PairLabel>)
    requires Continues(ps, ls, qs, ms, p) && PairEnabled(p, l)
    ensures Continues(ps, ls, qs', ms', PairNext(p, l))
  {
    qs', ms' := qs + [PairNext(p, l)], ms + [l];
    assert qs'[0] == qs[0];
  }

  /** `Send` on the left, up to its wait for the ack. */
  lemma SendPhase(ps: seq<Pair>, ls: seq<PairLabel>, p: Pair, t: Tid, id: RequestId, body: Payload)
    returns (qs: seq<Pair>, ms: seq<PairLabel>, e: Endpoint)
    requires IsPairRun(ps, ls) && ps[|ls|] == p && !p.left.base.closed && Fresh(p.left, t) && FreshId(p.left, id)
    ensures Continues(ps, ls, qs, ms, Pair(e, p.right))
    ensures t in e.senders && e.senders[t] == Waiting(id) && id in e.base.acks && Data(id, Some(body)) in e.log.out
    ensures e.handler == p.left.handler && e.base.pending > 0
  {
    qs, ms := Extend(ps, ls, ps, ls, p, Left(StartSend(t, id, Some(body))));
    var p1 := PairNext(p, Left(StartSend(t, id, Some(body))));
    qs, ms := Extend(ps, ls, qs, ms, p1, Left(Send(t, Register)));
    var p2 := PairNext(p1, Left(Send(t, Register)));
    qs, ms := Extend(ps, ls, qs, ms, p2, Left(Send(t, Publish(true, true))));
    e := Next(p2.left, Send(t, Publish(true, true)));
  }

  /** The right endpoint receives the message and acknowledges it. */
  lemma ReceivePhase(ps: seq<Pair>, ls: seq<PairLabel>, qs: seq<Pair>, ms: seq<PairLabel>, p: Pair, id: RequestId,
                     body: Payload)
    returns (qs': seq<Pair>, ms': seq<PairLabel>, e: Endpoint)
    requires Continues(ps, ls, qs, ms, p) && Data(id, Some(body)) in p.left.log.out
    requires p.right.handler.Idle? && !p.right.base.closed && !p.right.base.recvClosed
    ensures Continues(ps, ls, qs', ms', Pair(p.left, e))
    ensures e.base.received == p.right.base.received + [body] && Ack(id) in e.log.out
  {
    qs', ms' := Extend(ps, ls, qs, ms, p, Right(Handle(ReceiveData(id, Some(body)))));
    var p1 := PairNext(p, Right(Handle(ReceiveData(id, Some(body)))));
    qs', ms' := Extend(ps, ls, qs', ms', p1, Right(Handle(Decode)));
    var p2 := PairNext(p1, Right(Handle(Decode)));
    qs', ms' := Extend(ps, ls, qs', ms', p2, Right(Handle(Put(true))));
    var p3 := PairNext(p2, Right(Handle(Put(true))));
    qs', ms' := Extend(ps, ls, qs', ms', p3, Right(Handle(SendAck(true))));
    e := Next(p3.right, Handle(SendAck(true)));
  }

  /** The ack comes back. */
  lemma AckPhase(ps: seq<Pair>, ls: seq<PairLabel>, qs: seq<Pair>, ms: seq<PairLabel>, p: Pair, id: RequestId)
    returns (qs': seq<Pair>, ms': seq<PairLabel>, e: Endpoint)
    requires Continues(ps, ls, qs, ms, p) && Ack(id) in p.right.log.out && p.left.handler.Idle?
    requires id in p.left.base.acks && id !in p.left.base.acked
    ensures Continues(ps, ls, qs', ms', Pair(e, p.right))
    ensures e.senders == p.left.senders && e.base.pending == p.left.base.pending && id in e.base.acked
  {
    qs', ms' := Extend(ps, ls, qs, ms, p, Left(Handle(ReceiveAck(id))));
    var p1 := PairNext(p, Left(Handle(ReceiveAck(id))));
    qs', ms' := Extend(ps, ls, qs', ms', p1, Left(Handle(FinishAck)));
    e := Next(p1.left, Handle(FinishAck));
  }

  /** `Send` sees it and returns. */
  lemma ReturnPhase(ps: seq<Pair>, ls: seq<PairLabel>, qs: seq<Pair>, ms: seq<PairLabel>, p: Pair, t: Tid,
                    id: RequestId)
    returns (qs': seq<Pair>, ms': seq<PairLabel>, e: Endpoint)
    requires Continues(ps, ls, qs, ms, p) && p.left.base.pending > 0
    requires t in p.left.senders && p.left.senders[t] == Waiting(id) && id in p.left.base.acked
    ensures Continues(ps, ls, qs', ms', Pair(e, p.right))
    ensures t in e.log.outcomes && e.log.outcomes[t] == Outcome(id, None)
  {
    qs', ms' := Extend(ps, ls, qs, ms, p, Left(Send(t, SeeAck)));
    var p1 := PairNext(p, Left(Send(t, SeeAck)));
    qs', ms' := Extend(ps, ls, qs', ms', p1, Left(Send(t, Unregister)));
    var p2 := PairNext(p1, Left(Send(t, Unregister)));
    qs', ms' := Extend(ps, ls, qs', ms', p2, Left(Send(t, SendStep.Release)));
    e := Next(p2.left, Send(t, SendStep.Release));
  }

  /** From every reachable state in which both ends are open and no message is being handled, every message can be sent:
      the run goes on to a state in which the peer has it, after all it had before, and `Send` has reported success. */
  lemma SendCanSucceed(ps: seq<Pair>, ls: seq<PairLabel>, t: Tid, id: RequestId, body: Payload)
    requires IsPairRun(ps, ls)
    requires var p := ps[|ls|];
      && !p.left.base.closed && Fresh(p.left, t) && FreshId(p.left, id) && p.left.handler.Idle?
      && !p.right.base.closed && p.right.handler.Idle?
    ensures exists qs: seq<Pair>, ms: seq<PairLabel>, q: Pair ::
      && Continues(ps, ls, qs, ms, q)
      && q.right.base.received == ps[|ls|].right.base.received + [body]
      && t in q.left.log.outcomes && q.left.log.outcomes[t] == Outcome(id, None)
  {
    var p := ps[|ls|];
    PairEverywhere(ps, ls, |ls|);
    var qs, ms, x := SendPhase(ps, ls, p, t, id, body);
    var y: Endpoint;
    qs, ms, y := ReceivePhase(ps, ls, qs, ms, Pair(x, p.right), id, body);
    PairEverywhere(qs, ms, |ms|);
    qs, ms, x := AckPhase(ps, ls, qs, ms, Pair(x, y), id);
    qs, ms, x := ReturnPhase(ps, ls, qs, ms, Pair(x, y), t, id);
    assert Continues(ps, ls, qs, ms, Pair(x, y));
  }

  /** From every reachable state in which both ends are open and the peer handles nothing, a local close can reach the
      peer: both streams are then closed with the cause that the caller gave. */
  lemma CloseCanReach(ps: seq<Pair>, ls: seq<PairLabel>, t: Tid, cause: Error)
    requires IsPairRun(ps, ls)
    requires var p := ps[|ls|]; !p.left.base.closed && Fresh(p.left, t) && !p.right.base.closed && p.right.handler.Idle?
    ensures exists qs: seq<Pair>, ms: seq<PairLabel>, q: Pair ::
      && Continues(ps, ls, qs, ms, q)
      && q.left.base.closed && q.left.base.err == Some(cause)
      && q.right.base.closed && q.right.base.err == Some(cause) && q.right.life.byPeer
  {
    var p := ps[|ls|];
    PairEverywhere(ps, ls, |ls|);
    var qs, ms := Extend(ps, ls, ps, ls, p, Left(StartClose(t, cause)));
    var p1 := PairNext(p, Left(StartClose(t, cause)));
    qs, ms := Extend(ps, ls, qs, ms, p1, Left(Label.Clean(t, true)));
    var p2 := PairNext(p1, Left(Label.Clean(t, true)));
    qs, ms := Extend(ps, ls, qs, ms, p2, Right(Handle(ReceiveClose(cause))));
  }
}
