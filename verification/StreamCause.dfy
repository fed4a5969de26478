/** Errors on a stream: the cause of the first close is the error of the stream, goes to the peer, and is what later
    calls get; and what `Send` returns in each case. */
module StreamCause {
  import opened Options
  import opened Stream
  import opened StreamEndpoint
  import opened StreamInvariant
  import opened StreamTheorems

  /** The cause of the first close in a run, local or received. */
  function FirstCause(ls: seq<Label>): Option<Error> {
    if ls == [] then None
    else
      var before, l := FirstCause(ls[..|ls| - 1]), ls[|ls| - 1];
      if before.Some? then before
      else if l.StartClose? then Some(l.cause)
      else if l.Handle? && l.h.ReceiveClose? then Some(l.h.cause)
      else None
  }

  /** The error of a stream changes once: a stream without one takes the cause of a close. */
  lemma ErrorStep(e: Endpoint, l: Label)
    requires OneWinner(e) && Enabled(e, l)
    ensures Next(e, l).base.err ==
      if e.base.err.Some? then e.base.err
      else if l.StartClose? then Some(l.cause)
      else if l.Handle? && l.h.ReceiveClose? then Some(l.h.cause)
      else None
  {
    match l
    case Send(t, step) =>
    case Handle(h) => HandleError(e, h);
    case _ =>
  }

  lemma HandleError(e: Endpoint, h: HandleStep)
    requires OneWinner(e) && HandleEnabled(e, h)
    ensures HandleNext(e, h).base.err == if e.base.err.None? && h.ReceiveClose? then Some(h.cause) else e.base.err
  {
  }

  /** In every run the error of the stream is the cause of the first close. */
  lemma {:induction false} ErrorIsFirstCause(es: seq<Endpoint>, ls: seq<Label>, i: nat)
    requires IsRun(es, ls) && i <= |ls|
    ensures es[i].base.err == FirstCause(ls[..i])
    ensures es[i].base.closed <==> FirstCause(ls[..i]).Some?
  {
    Everywhere(es, ls, i);
    if i > 0 {
      ErrorIsFirstCause(es, ls, i - 1);
      Everywhere(es, ls, i - 1);
      ErrorStep(es[i - 1], ls[i - 1]);
      assert ls[..i][..i - 1] == ls[..i - 1];
    }
  }

  /** A `Send` on a closed stream is refused with the cause of the first close. */
  lemma RefusedWithCause(es: seq<Endpoint>, ls: seq<Label>, i: nat, t: Tid, id: RequestId, body: Option<Payload>)
    requires IsRun(es, ls) && i <= |ls| && Enabled(es[i], StartSend(t, id, body)) && es[i].base.closed
    ensures var log := Next(es[i], StartSend(t, id, body)).log;
      t in log.outcomes && log.outcomes[t] == Outcome(id, FirstCause(ls[..i]))
  {
    ErrorIsFirstCause(es, ls, i);
  }

  // ---- what goes to the peer

  /** A close message that was sent carries the error of the stream; a stream that the peer closed has the error of a
      close message that was received. */
  ghost predicate Caused(e: Endpoint) {
    && (forall c | Close(c) in e.log.out :: e.base.err == Some(c))
    && (e.life.byPeer ==> e.base.err.Some? && Close(e.base.err.value) in e.log.inbox)
  }

  lemma CausedKept(e: Endpoint, l: Label)
    requires OneWinner(e) && Counted(e) && Caused(e) && Enabled(e, l)
    ensures Caused(Next(e, l))
  {
    match l
    case Send(t, step) => SendCaused(e, t, step);
    case Handle(h) => HandleCaused(e, h);
    case _ =>
  }

  lemma SendCaused(e: Endpoint, t: Tid, step: SendStep)
    requires Caused(e) && SendEnabled(e, t, step)
    ensures Caused(SendNext(e, t, step))
  {
  }

  lemma HandleCaused(e: Endpoint, h: HandleStep)
    requires OneWinner(e) && Caused(e) && HandleEnabled(e, h)
    ensures Caused(HandleNext(e, h))
  {
  }

  lemma {:induction false} CausedEverywhere(ps: seq<Pair>, ls: seq<PairLabel>, i: nat)
    requires IsPairRun(ps, ls) && i <= |ls|
    ensures Caused(ps[i].left) && Caused(ps[i].right)
  {
    if i > 0 {
      CausedEverywhere(ps, ls, i - 1);
      PairEverywhere(ps, ls, i - 1);
      if ls[i - 1].Left? {
        CausedKept(ps[i - 1].left, ls[i - 1].l);
      } else {
        CausedKept(ps[i - 1].right, ls[i - 1].l);
      }
    }
  }

  /** In every run of two endpoints, one that was closed by its peer has its peer's error. */
  lemma ClosedByPeer(ps: seq<Pair>, ls: seq<PairLabel>, i: nat)
    requires IsPairRun(ps, ls) && i <= |ls|
    ensures ps[i].left.life.byPeer ==> ps[i].left.base.err.Some? && ps[i].left.base.err == ps[i].right.base.err
    ensures ps[i].right.life.byPeer ==> ps[i].right.base.err.Some? && ps[i].right.base.err == ps[i].left.base.err
  {
    PairEverywhere(ps, ls, i);
    CausedEverywhere(ps, ls, i);
  }

  /** Every close message on the network carries the cause with which its sender was first closed. */
  lemma {:induction false} SentCause(es: seq<Endpoint>, ls: seq<Label>, i: nat, c: Error)
    requires IsRun(es, ls) && i <= |ls| && Close(c) in es[i].log.out
    ensures FirstCause(ls[..i]) == Some(c)
  {
    CausedAlong(es, ls, i);
    ErrorIsFirstCause(es, ls, i);
  }

  lemma {:induction false} CausedAlong(es: seq<Endpoint>, ls: seq<Label>, i: nat)
    requires IsRun(es, ls) && i <= |ls|
    ensures Caused(es[i])
  {
    if i > 0 {
      CausedAlong(es, ls, i - 1);
      Everywhere(es, ls, i - 1);
      CausedKept(es[i - 1], ls[i - 1]);
    }
  }

  // ---- what `Send` returns

  /** Step `l` settles what the `Send` of goroutine `t` returns. */
  predicate Settles(e: Endpoint, l: Label, t: Tid, result: Option<Error>) {
    match l
    case StartSend(u, _, _) => u == t && e.base.closed && result == e.base.err
    case Send(u, FailSerialize) => u == t && result == Some(MALFORMED)
    case Send(u, Publish(ok, _)) => u == t && !ok && result == Some("internal")
    case Send(u, SeeAck) => u == t && result == None
    case Send(u, Expire) => u == t && result == if e.base.done then e.base.err else Some(TIMED_OUT)
    case _ => false
  }

  ghost predicate Settled(es: seq<Endpoint>, ls: seq<Label>, i: nat, t: Tid, result: Option<Error>)
    requires |es| == |ls| + 1 && i <= |ls|
  {
    exists j: nat :: j < i && Settles(es[j], ls[j], t, result)
  }

  /** What `Send` of goroutine `t` returned or is going to return. */
  ghost predicate Returns(e: Endpoint, t: Tid, result: Option<Error>) {
    || (t in e.senders && (e.senders[t].Unregistering? || e.senders[t].Releasing?) && e.senders[t].result == result)
    || (t in e.log.outcomes && e.log.outcomes[t].result == result)
  }

  lemma ReturnsStep(e: Endpoint, l: Label, t: Tid, result: Option<Error>)
    requires Enabled(e, l) && Returns(Next(e, l), t, result)
    ensures Returns(e, t, result) || Settles(e, l, t, result)
  {
    match l
    case Send(u, step) => SendReturns(e, u, step, t, result);
    case Handle(h) => HandleReturns(e, h, t, result);
    case _ =>
  }

  lemma SendReturns(e: Endpoint, u: Tid, step: SendStep, t: Tid, result: Option<Error>)
    requires SendEnabled(e, u, step) && Returns(SendNext(e, u, step), t, result)
    ensures Returns(e, t, result) || Settles(e, Send(u, step), t, result)
  {
  }

  lemma HandleReturns(e: Endpoint, h: HandleStep, t: Tid, result: Option<Error>)
    requires HandleEnabled(e, h) && Returns(HandleNext(e, h), t, result)
    ensures Returns(e, t, result)
  {
  }

  /** What `Send` returned was settled by one of its steps: the error of a closed stream, a malformed message, a failed
      publication, an ack, or the end of its wait. */
  lemma {:induction false} ResultIsSettled(es: seq<Endpoint>, ls: seq<Label>, i: nat, t: Tid, result: Option<Error>)
    requires IsRun(es, ls) && i <= |ls| && Returns(es[i], t, result)
    ensures Settled(es, ls, i, t, result)
  {
    if i > 0 {
      ReturnsStep(es[i - 1], ls[i - 1], t, result);
      if Returns(es[i - 1], t, result) {
        ResultIsSettled(es, ls, i - 1, t, result);
      }
    }
  }

  // ---- no ack channel is left behind

  /** A registered ack channel was there from the start or belongs to a `Send` under way. */
  ghost predicate Registered(e: Endpoint, acks: set<RequestId>, id: RequestId) {
    id in acks ||
    exists t :: t in e.senders && !e.senders[t].Registering? && !e.senders[t].Releasing? && e.senders[t].id == id
  }

  lemma RegisteredStep(e: Endpoint, l: Label, acks: set<RequestId>, id: RequestId)
    requires Enabled(e, l) && id in Next(e, l).base.acks && (id in e.base.acks ==> Registered(e, acks, id))
    ensures Registered(Next(e, l), acks, id)
  {
    match l
    case Send(t, step) => SendRegistered(e, t, step, acks, id);
    case Handle(h) => HandleRegistered(e, h, acks, id);
    case _ =>
      if id !in acks {
        var t :| t in e.senders && !e.senders[t].Registering? && !e.senders[t].Releasing? && e.senders[t].id == id;
        assert t in Next(e, l).senders;
      }
  }

  lemma SendRegistered(e: Endpoint, t: Tid, step: SendStep, acks: set<RequestId>, id: RequestId)
    requires SendEnabled(e, t, step) && id in SendNext(e, t, step).base.acks
    requires id in e.base.acks ==> Registered(e, acks, id)
    ensures Registered(SendNext(e, t, step), acks, id)
  {
    var e' := SendNext(e, t, step);
    if id !in acks {
      if id !in e.base.acks {
        assert t in e'.senders && e'.senders[t].id == id;
      } else {
        var u :| u in e.senders && !e.senders[u].Registering? && !e.senders[u].Releasing? && e.senders[u].id == id;
        assert u in e'.senders && e'.senders[u].id == id;
      }
    }
  }

  lemma HandleRegistered(e: Endpoint, h: HandleStep, acks: set<RequestId>, id: RequestId)
    requires HandleEnabled(e, h) && id in HandleNext(e, h).base.acks
    requires id in e.base.acks ==> Registered(e, acks, id)
    ensures Registered(HandleNext(e, h), acks, id)
  {
    assert id in e.base.acks && HandleNext(e, h).senders == e.senders;
  }

  lemma {:induction false} AcksBelong(es: seq<Endpoint>, ls: seq<Label>, i: nat, acks: set<RequestId>, id: RequestId)
    requires IsRun(es, ls) && es[0] == New(acks) && i <= |ls| && id in es[i].base.acks
    ensures Registered(es[i], acks, id)
  {
    if i > 0 {
      if id in es[i - 1].base.acks {
        AcksBelong(es, ls, i - 1, acks, id);
      }
      RegisteredStep(es[i - 1], ls[i - 1], acks, id);
    }
  }

  /** When every `Send` has returned, no ack channel is registered but those that the stream began with. */
  lemma NoAckLeaks(es: seq<Endpoint>, ls: seq<Label>, i: nat, acks: set<RequestId>)
    requires IsRun(es, ls) && es[0] == New(acks) && i <= |ls| && es[i].senders.Keys == {}
    ensures es[i].base.acks <= acks
  {
    forall id | id in es[i].base.acks ensures id in acks {
      AcksBelong(es, ls, i, acks, id);
      assert forall t :: t !in es[i].senders.Keys;
    }
  }

  // ---- every `Send` returns once

  /** Step `l` makes the `Send` of goroutine `t` return. */
  predicate Finishes(e: Endpoint, l: Label, t: Tid) {
    || (l.StartSend? && l.t == t && e.base.closed)
    || l == Send(t, SendStep.Release)
  }

  lemma OutcomeStep(e: Endpoint, l: Label, t: Tid)
    requires Enabled(e, l)
    ensures t in Next(e, l).log.outcomes <==> t in e.log.outcomes || Finishes(e, l, t)
    ensures t in e.log.outcomes && !Finishes(e, l, t) ==> Next(e, l).log.outcomes[t] == e.log.outcomes[t]
  {
    match l
    case Send(u, step) => SendOutcome(e, u, step, t);
    case Handle(h) => HandleOutcome(e, h);
    case _ =>
  }

  lemma SendOutcome(e: Endpoint, u: Tid, step: SendStep, t: Tid)
    requires SendEnabled(e, u, step)
    ensures SendNext(e, u, step).log.outcomes ==
      if step.Release? then e.log.outcomes[u := Outcome(e.senders[u].id, e.senders[u].result)] else e.log.outcomes
  {
  }

  lemma HandleOutcome(e: Endpoint, h: HandleStep)
    requires HandleEnabled(e, h)
    ensures HandleNext(e, h).log.outcomes == e.log.outcomes
  {
  }

  /** A `Send` has an outcome exactly when some step made it return. */
  lemma {:induction false} OutcomeIff(es: seq<Endpoint>, ls: seq<Label>, i: nat, t: Tid)
    requires IsRun(es, ls) && i <= |ls|
    ensures t in es[i].log.outcomes <==> exists j: nat :: j < i && Finishes(es[j], ls[j], t)
  {
    if i > 0 {
      OutcomeIff(es, ls, i - 1, t);
      OutcomeStep(es[i - 1], ls[i - 1], t);
    }
  }

  // ---- no ack channel is lost

  /** Step `l` registers, or removes, the ack channel of request `id`. */
  predicate Registers(e: Endpoint, l: Label, id: RequestId) {
    l.Send? && l.step.Register? && l.t in e.senders && e.senders[l.t].id == id
  }

  predicate Drops(e: Endpoint, l: Label, id: RequestId) {
    || l == Handle(ReceiveAck(id))
    || (l.Send? && l.step.Unregister? && l.t in e.senders && e.senders[l.t].id == id)
  }

  lemma AckStep(e: Endpoint, l: Label, id: RequestId)
    requires Enabled(e, l)
    ensures id in Next(e, l).base.acks <==> Registers(e, l, id) || (id in e.base.acks && !Drops(e, l, id))
  {
    match l
    case Send(t, step) =>
    case Handle(h) => HandleAckStep(e, h, id);
    case _ =>
  }

  lemma HandleAckStep(e: Endpoint, h: HandleStep, id: RequestId)
    requires HandleEnabled(e, h)
    ensures id in HandleNext(e, h).base.acks <==> id in e.base.acks && h != ReceiveAck(id)
  {
  }

  /** The ack channel of request `id` is registered, being closed, or closed. */
  predicate Reachable(e: Endpoint, id: RequestId) {
    id in e.base.acks || id in e.base.acked || e.handler == ClosingAck(id)
  }

  predicate Awaits(e: Endpoint, t: Tid) {
    t in e.senders && (e.senders[t].Publishing? || e.senders[t].Waiting?)
  }

  lemma AwaitStep(e: Endpoint, l: Label, t: Tid)
    requires AcksOpen(e) && Enabled(e, l) && Awaits(Next(e, l), t)
    requires Awaits(e, t) ==> Reachable(e, e.senders[t].id)
    ensures Reachable(Next(e, l), Next(e, l).senders[t].id)
  {
    match l
    case Send(u, step) => SendAwait(e, u, step, t);
    case Handle(h) => HandleAwait(e, h, t);
    case _ =>
  }

  lemma SendAwait(e: Endpoint, u: Tid, step: SendStep, t: Tid)
    requires AcksOpen(e) && SendEnabled(e, u, step) && Awaits(SendNext(e, u, step), t)
    requires Awaits(e, t) ==> Reachable(e, e.senders[t].id)
    ensures Reachable(SendNext(e, u, step), SendNext(e, u, step).senders[t].id)
  {
  }

  lemma HandleAwait(e: Endpoint, h: HandleStep, t: Tid)
    requires HandleEnabled(e, h) && Awaits(HandleNext(e, h), t)
    requires Awaits(e, t) ==> Reachable(e, e.senders[t].id)
    ensures Reachable(HandleNext(e, h), HandleNext(e, h).senders[t].id)
  {
  }

  /** While a `Send` waits, an ack for it finds its channel. */
  ghost predicate Served(e: Endpoint, t: Tid) {
    Awaits(e, t) ==> Reachable(e, e.senders[t].id)
  }

  lemma ServedNext(es: seq<Endpoint>, ls: seq<Label>, k: nat, t: Tid)
    requires IsRun(es, ls) && k < |ls| && Served(es[k], t)
    ensures Served(es[k + 1], t)
  {
    AcksOpenAt(es, ls, k);
    if Awaits(es[k + 1], t) {
      AwaitStep(es[k], ls[k], t);
    }
  }

  lemma AcksOpenAt(es: seq<Endpoint>, ls: seq<Label>, k: nat)
    requires IsRun(es, ls) && k <= |ls|
    ensures AcksOpen(es[k])
  {
    Everywhere(es, ls, k);
  }

  /** In every run the ack channel of a waiting `Send` is registered until an ack has taken it. */
  lemma {:induction false} NoAckLost(es: seq<Endpoint>, ls: seq<Label>, i: nat, t: Tid)
    requires IsRun(es, ls) && i <= |ls|
    ensures Served(es[i], t)
  {
    if i > 0 {
      NoAckLost(es, ls, i - 1, t);
      ServedNext(es, ls, i - 1, t);
    }
  }

  // ---- how a stream ended

  /** Step `l` cancels the parent context of an open stream. */
  predicate Orphans(e: Endpoint, l: Label) {
    l.ParentDone? && !e.base.closed
  }

  /** Step `l` is the peer's close of an open stream. */
  predicate ClosesFromPeer(e: Endpoint, l: Label) {
    l.Handle? && l.h.ReceiveClose? && !e.base.closed
  }

  lemma EndStep(e: Endpoint, l: Label)
    requires Enabled(e, l)
    ensures Next(e, l).life.orphaned <==> e.life.orphaned || Orphans(e, l)
    ensures Next(e, l).life.byPeer <==> e.life.byPeer || ClosesFromPeer(e, l)
  {
    match l
    case Send(t, step) =>
    case Handle(h) => HandleEnd(e, h);
    case _ =>
  }

  lemma HandleEnd(e: Endpoint, h: HandleStep)
    requires HandleEnabled(e, h)
    ensures HandleNext(e, h).life.orphaned == e.life.orphaned
    ensures HandleNext(e, h).life.byPeer <==> e.life.byPeer || (h.ReceiveClose? && !e.base.closed)
  {
  }

  /** A stream is orphaned exactly when its parent context was cancelled while it was open, and closed by the peer
      exactly when a close message came while it was open. */
  lemma {:induction false} EndIff(es: seq<Endpoint>, ls: seq<Label>, i: nat)
    requires IsRun(es, ls) && i <= |ls|
    ensures es[i].life.orphaned <==> exists j: nat :: j < i && Orphans(es[j], ls[j])
    ensures es[i].life.byPeer <==> exists j: nat :: j < i && ClosesFromPeer(es[j], ls[j])
  {
    if i > 0 {
      EndIff(es, ls, i - 1);
      EndStep(es[i - 1], ls[i - 1]);
    }
  }
}
