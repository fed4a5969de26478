/** What holds of a stream in every reachable state of one endpoint, and of two endpoints joined by a network that
    loses, delays, duplicates and reorders. */
module StreamTheorems {
  import opened Options
  import opened Stream
  import opened StreamEndpoint
  import opened StreamInvariant

  lemma EveryStep(e: Endpoint, l: Label)
    requires Invariant(e) && Enabled(e, l)
    ensures Invariant(Next(e, l))
  {
    match l
    case Send(t, step) =>
      SendOneWinner(e, t, step);
      SendCounted(e, t, step);
      SendAcksOpen(e, t, step);
      SendReported(e, t, step);
      SendSourced(e, t, step);
    case Handle(h) =>
      HandleOneWinner(e, h);
      HandleCounted(e, h);
      HandleAcksOpen(e, h);
      HandleReported(e, h);
      HandleSourced(e, h);
    case _ =>
      OtherOneWinner(e, l);
      OtherCounted(e, l);
      OtherAcksOpen(e, l);
      OtherReported(e, l);
      OtherSourced(e, l);
  }

  // ---- one endpoint

  ghost predicate IsRun(es: seq<Endpoint>, ls: seq<Label>) {
    && |es| == |ls| + 1
    && (exists acks :: es[0] == New(acks))
    && forall i | 0 <= i < |ls| :: Enabled(es[i], ls[i]) && es[i + 1] == Next(es[i], ls[i])
  }

  lemma {:induction false} Everywhere(es: seq<Endpoint>, ls: seq<Label>, i: nat)
    requires IsRun(es, ls) && i <= |ls|
    ensures Invariant(es[i])
  {
    if i > 0 {
      Everywhere(es, ls, i - 1);
      EveryStep(es[i - 1], ls[i - 1]);
    }
  }

  /** The adapter is closed, the context cancelled and the receive channel closed in this order and once each, however
      many local closes race with the peer's; and the stream has an error exactly when it is closed. */
  lemma TornDownOnce(es: seq<Endpoint>, ls: seq<Label>, i: nat)
    requires IsRun(es, ls) && i <= |ls|
    ensures es[i].life.torndown <= [ClosingAdapter, Cancelling, ClosingRecv]
    ensures es[i].base.closed <==> es[i].base.err.Some?
    ensures es[i].base.recvClosed <==> es[i].life.torndown == [ClosingAdapter, Cancelling, ClosingRecv]
  {
    Everywhere(es, ls, i);
  }

  /** Whoever is about to write to the receive channel finds it open; whoever is about to close it, or to close an
      ack channel, closes it for the first time. */
  lemma NoPanic(es: seq<Endpoint>, ls: seq<Label>, i: nat, t: Tid, room: bool, sent: bool)
    requires IsRun(es, ls) && i <= |ls|
    ensures es[i].handler.Delivering? ==> Enabled(es[i], Handle(Put(room)))
    ensures es[i].handler.ClosingAck? ==> Enabled(es[i], Handle(FinishAck))
    ensures es[i].handler.Closing? ==> Enabled(es[i], Handle(HandleStep.Clean))
    ensures es[i].handler.ReleasingPending? ==> Enabled(es[i], Handle(HandleStep.Release))
    ensures t in es[i].closers && !es[i].closers[t].Draining? ==> Enabled(es[i], Label.Clean(t, sent))
    ensures t in es[i].senders && es[i].senders[t].Releasing? ==> Enabled(es[i], Send(t, SendStep.Release))
  {
    Everywhere(es, ls, i);
  }

  lemma DrainedKept(e: Endpoint, l: Label)
    requires e.life.drained && Enabled(e, l)
    ensures Next(e, l).life.drained
  {
  }

  lemma DrainedNext(es: seq<Endpoint>, ls: seq<Label>, k: nat)
    requires IsRun(es, ls) && k < |ls| && es[k].life.drained
    ensures es[k + 1].life.drained
  {
    DrainedKept(es[k], ls[k]);
  }

  ghost predicate Passed(es: seq<Endpoint>, k: nat) {
    k + 1 < |es| && es[k].life.drained ==> es[k + 1].life.drained
  }

  lemma {:induction false} StaysDrained(es: seq<Endpoint>, i: nat, j: nat)
    requires i <= j < |es| && es[i].life.drained && forall k: nat :: Passed(es, k)
    ensures es[j].life.drained
    decreases j
  {
    if i < j {
      StaysDrained(es, i, j - 1);
      assert Passed(es, j - 1);
    }
  }

  lemma DrainedIsZero(e: Endpoint)
    requires Counted(e) && e.life.drained
    ensures e.base.pending == 0
  {
  }

  /** Once a local close has waited, nobody is counted any more, for ever. */
  lemma DrainedForEver(es: seq<Endpoint>, ls: seq<Label>, i: nat, j: nat)
    requires IsRun(es, ls) && i <= j <= |ls| && es[i].life.drained
    ensures es[j].life.drained && es[j].base.pending == 0
  {
    forall k: nat ensures Passed(es, k) {
      if k + 1 < |es| && es[k].life.drained {
        DrainedNext(es, ls, k);
      }
    }
    StaysDrained(es, i, j);
    Everywhere(es, ls, j);
    DrainedIsZero(es[j]);
  }

  /** `Send` reports success only for a request that was acked, unless the context was done before the close. */
  lemma SuccessIsAcked(es: seq<Endpoint>, ls: seq<Label>, i: nat, t: Tid)
    requires IsRun(es, ls) && i <= |ls| && t in es[i].log.outcomes
    requires es[i].log.outcomes[t].result.None? && !es[i].life.orphaned
    ensures Ack(es[i].log.outcomes[t].id) in es[i].log.inbox
  {
    Everywhere(es, ls, i);
  }

  /** A `Send` that gives up waiting reports success exactly when its context is done and the stream is not closed. */
  lemma GivingUpSucceeds(es: seq<Endpoint>, ls: seq<Label>, i: nat, t: Tid)
    requires IsRun(es, ls) && i <= |ls| && Enabled(es[i], Send(t, Expire))
    ensures var e := Next(es[i], Send(t, Expire));
      e.senders[t].result.None? <==> es[i].base.done && !es[i].base.closed
  {
    Everywhere(es, ls, i);
  }

  /** Some `Send` returned success, and nothing was ever received. */
  ghost predicate SucceededUnacked(e: Endpoint) {
    e.log.inbox == {} && exists t :: t in e.log.outcomes && e.log.outcomes[t].result.None?
  }

  /** Such a run: the parent context is cancelled while a `Send` waits. */
  lemma UnackedSuccess()
    ensures exists es: seq<Endpoint>, ls: seq<Label> :: IsRun(es, ls) && SucceededUnacked(es[|ls|])
  {
    var e0 := New({});
    var es, ls := Extend([e0], [], StartSend("t", "r", Some("hello")));
    es, ls := Extend(es, ls, Send("t", Register));
    es, ls := Extend(es, ls, Send("t", Publish(true, true)));
    es, ls := Extend(es, ls, ParentDone);
    es, ls := Extend(es, ls, Send("t", Expire));
    es, ls := Extend(es, ls, Send("t", Unregister));
    es, ls := Extend(es, ls, Send("t", SendStep.Release));
    assert "t" in es[|ls|].log.outcomes;
  }

  lemma Extend(es: seq<Endpoint>, ls: seq<Label>, l: Label) returns (es': seq<Endpoint>, ls': seq<Label>)
    requires IsRun(es, ls) && Enabled(es[|ls|], l)
    ensures IsRun(es', ls') && |ls'| == |ls| + 1 && es'[|ls'|] == Next(es[|ls|], l)
  {
    es', ls' := es + [Next(es[|ls|], l)], ls + [l];
    assert es'[0] == es[0];
  }

  // ---- two endpoints

  datatype Pair = Pair(left: Endpoint, right: Endpoint)

  datatype PairLabel = Left(l: Label) | Right(l: Label)

  /** The network delivers nothing that was not sent. */
  predicate Delivers(l: Label, out: set<Wire>) {
    match l
    case Handle(ReceiveAck(id)) => Ack(id) in out
    case Handle(ReceiveData(id, body)) => Data(id, body) in out
    case Handle(ReceiveClose(cause)) => Close(cause) in out
    case _ => true
  }

  predicate PairEnabled(p: Pair, l: PairLabel) {
    if l.Left? then Enabled(p.left, l.l) && Delivers(l.l, p.right.log.out)
    else Enabled(p.right, l.l) && Delivers(l.l, p.left.log.out)
  }

  function PairNext(p: Pair, l: PairLabel): Pair
    requires PairEnabled(p, l)
  {
    if l.Left? then p.(left := Next(p.left, l.l)) else p.(right := Next(p.right, l.l))
  }

  ghost predicate IsPairRun(ps: seq<Pair>, ls: seq<PairLabel>) {
    && |ps| == |ls| + 1
    && (exists acks :: ps[0] == Pair(New(acks), New({})))
    && forall i | 0 <= i < |ls| :: PairEnabled(ps[i], ls[i]) && ps[i + 1] == PairNext(ps[i], ls[i])
  }

  ghost predicate PairInvariant(p: Pair) {
    && Invariant(p.left) && Invariant(p.right)
    && p.left.log.inbox <= p.right.log.out
    && p.right.log.inbox <= p.left.log.out
  }

  /** What a step handles was delivered; what was sent stays sent. */
  lemma LogGrows(e: Endpoint, l: Label, peer: set<Wire>)
    requires Enabled(e, l) && Delivers(l, peer) && e.log.inbox <= peer
    ensures Next(e, l).log.inbox <= peer
    ensures e.log.out <= Next(e, l).log.out
  {
    match l
    case Send(t, step) =>
    case Handle(h) => HandleLogGrows(e, h, peer);
    case _ =>
  }

  lemma HandleLogGrows(e: Endpoint, h: HandleStep, peer: set<Wire>)
    requires HandleEnabled(e, h) && Delivers(Handle(h), peer) && e.log.inbox <= peer
    ensures HandleNext(e, h).log.inbox <= peer
    ensures e.log.out <= HandleNext(e, h).log.out
  {
  }

  lemma PairStep(p: Pair, l: PairLabel)
    requires PairInvariant(p) && PairEnabled(p, l)
    ensures PairInvariant(PairNext(p, l))
  {
    if l.Left? {
      EveryStep(p.left, l.l);
      LogGrows(p.left, l.l, p.right.log.out);
    } else {
      EveryStep(p.right, l.l);
      LogGrows(p.right, l.l, p.left.log.out);
    }
  }

  lemma Initially(acks: set<RequestId>)
    ensures Invariant(New(acks))
  {
  }

  lemma {:induction false} PairEverywhere(ps: seq<Pair>, ls: seq<PairLabel>, i: nat)
    requires IsPairRun(ps, ls) && i <= |ls|
    ensures PairInvariant(ps[i])
  {
    if i == 0 {
      var acks :| ps[0] == Pair(New(acks), New({}));
      Initially(acks);
      Initially({});
    } else {
      PairEverywhere(ps, ls, i - 1);
      var p, l := ps[i - 1], ls[i - 1];
      PairStep(p, l);
    }
  }

  /** An acknowledged send is sound end to end: when `Send` reports success and no context was cancelled from outside,
      the peer has put that very payload into its receive channel. */
  lemma SuccessIsReceived(ps: seq<Pair>, ls: seq<PairLabel>, i: nat, t: Tid)
    requires IsPairRun(ps, ls) && i <= |ls|
    ensures var x, y := ps[i].left, ps[i].right;
      t in x.log.outcomes && x.log.outcomes[t].result.None? && !x.life.orphaned ==>
        Arrived(x, y, x.log.outcomes[t].id)
    ensures var x, y := ps[i].right, ps[i].left;
      t in x.log.outcomes && x.log.outcomes[t].result.None? && !x.life.orphaned ==>
        Arrived(x, y, x.log.outcomes[t].id)
  {
    PairEverywhere(ps, ls, i);
    var p := ps[i];
    AckedArrived(p.left, p.right, t);
    AckedArrived(p.right, p.left, t);
  }

  /** The payload that `x` sent under `id` went into the receive channel of `y`. */
  ghost predicate Arrived(x: Endpoint, y: Endpoint, id: RequestId) {
    && id in x.log.bodies && x.log.bodies[id].Some?
    && id in y.log.delivered && y.log.delivered[id] == x.log.bodies[id].value
    && x.log.bodies[id].value in y.base.received
  }

  lemma AckedArrived(x: Endpoint, y: Endpoint, t: Tid)
    requires Invariant(x) && Invariant(y) && x.log.inbox <= y.log.out && y.log.inbox <= x.log.out
    ensures t in x.log.outcomes && x.log.outcomes[t].result.None? && !x.life.orphaned ==>
      Arrived(x, y, x.log.outcomes[t].id)
  {
    if t in x.log.outcomes && x.log.outcomes[t].result.None? && !x.life.orphaned {
      var id := x.log.outcomes[t].id;
      assert Ack(id) in x.log.inbox;
      assert Data(id, Some(y.log.delivered[id])) in y.log.inbox;
    }
  }
}
