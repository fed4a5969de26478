/** Nothing on a stream endpoint goes on for ever or gets stuck: every `Send` returns, every handler finishes, and a
    stream that is closed is torn down completely. */
module StreamProgress {
  import opened Options
  import opened Stream
  import opened StreamEndpoint
  import opened StreamInvariant
  import opened StreamTheorems

  /** Steps the endpoint takes by itself, as opposed to calls, messages that arrive, and the parent context. */
  predicate Internal(l: Label) {
    match l
    case Send(_, _) => true
    case Handle(h) => !h.ReceiveAck? && !h.ReceiveData? && !h.ReceiveClose?
    case Clean(_, _) => true
    case _ => false
  }

  function SenderWork(x: Sender): nat {
    match x
    case Registering(_, _) => 5
    case Publishing(_, _) => 4
    case Waiting(_) => 3
    case Unregistering(_, _) => 2
    case Releasing(_, _) => 1
  }

  function CleanupWork(c: Cleanup): nat {
    match c
    case Announcing => 5
    case Draining => 4
    case ClosingAdapter => 3
    case Cancelling => 2
    case ClosingRecv => 1
  }

  function HandlerWork(h: Handler): nat {
    match h
    case Idle => 0
    case ClosingAck(_) => 1
    case Decoding(_, _) => 4
    case Delivering(_, _) => 3
    case Acking(_) => 2
    case ReleasingPending => 1
    case Closing(step) => CleanupWork(step)
  }

  ghost function Sum(m: map<Tid, nat>): nat {
    if m.Keys == {} then 0
    else
      var t :| t in m.Keys;
      m[t] + Sum(m - {t})
  }

  lemma {:induction false} SumSplit(m: map<Tid, nat>, t: Tid)
    requires t in m
    ensures Sum(m) == m[t] + Sum(m - {t})
    decreases |m|
  {
    var u :| u in m.Keys && Sum(m) == m[u] + Sum(m - {u});
    if u != t {
      SumSplit(m - {u}, t);
      SumSplit(m - {t}, u);
      assert m - {u} - {t} == m - {t} - {u};
    }
  }

  lemma SumSet(m: map<Tid, nat>, t: Tid, n: nat)
    requires t in m
    ensures Sum(m[t := n]) == Sum(m) - m[t] + n
  {
    SumSplit(m, t);
    SumSplit(m[t := n], t);
    assert m[t := n] - {t} == m - {t};
  }

  function Senders(m: map<Tid, Sender>): map<Tid, nat> {
    map t | t in m :: SenderWork(m[t])
  }

  function Closers(m: map<Tid, Cleanup>): map<Tid, nat> {
    map t | t in m :: CleanupWork(m[t])
  }

  ghost function Work(e: Endpoint): nat {
    Sum(Senders(e.senders)) + Sum(Closers(e.closers)) + HandlerWork(e.handler)
  }

  lemma SenderWorks(senders: map<Tid, Sender>, t: Tid, x: Option<Sender>)
    requires t in senders && (x.Some? ==> SenderWork(x.value) < SenderWork(senders[t]))
    ensures Sum(Senders(if x.Some? then senders[t := x.value] else senders - {t})) < Sum(Senders(senders))
  {
    if x.Some? {
      assert Senders(senders[t := x.value]) == Senders(senders)[t := SenderWork(x.value)];
      SumSet(Senders(senders), t, SenderWork(x.value));
    } else {
      assert Senders(senders - {t}) == Senders(senders) - {t};
      SumSplit(Senders(senders), t);
    }
  }

  lemma CloserWorks(closers: map<Tid, Cleanup>, t: Tid, x: Option<Cleanup>)
    requires t in closers && (x.Some? ==> CleanupWork(x.value) < CleanupWork(closers[t]))
    ensures Sum(Closers(if x.Some? then closers[t := x.value] else closers - {t})) < Sum(Closers(closers))
  {
    if x.Some? {
      assert Closers(closers[t := x.value]) == Closers(closers)[t := CleanupWork(x.value)];
      SumSet(Closers(closers), t, CleanupWork(x.value));
    } else {
      assert Closers(closers - {t}) == Closers(closers) - {t};
      SumSplit(Closers(closers), t);
    }
  }

  lemma SendWorks(e: Endpoint, t: Tid, step: SendStep)
    requires SendEnabled(e, t, step)
    ensures Work(SendNext(e, t, step)) < Work(e)
  {
    var e' := SendNext(e, t, step);
    SenderWorks(e.senders, t, if step.Release? then None else Some(e'.senders[t]));
  }

  lemma HandleWorks(e: Endpoint, h: HandleStep)
    requires Internal(Handle(h)) && HandleEnabled(e, h)
    ensures Work(HandleNext(e, h)) < Work(e)
  {
  }

  /** Every internal step consumes some of a finite amount of work. */
  lemma InternalWorks(e: Endpoint, l: Label)
    requires Internal(l) && Enabled(e, l)
    ensures Work(Next(e, l)) < Work(e)
  {
    match l
    case Send(t, step) => SendWorks(e, t, step);
    case Handle(h) => HandleWorks(e, h);
    case Clean(t, sent) => CloserWorks(e.closers, t, AfterClean(e.closers[t]));
  }

  ghost predicate Undisturbed(ls: seq<Label>, k: nat) {
    forall i | k <= i < |ls| :: Internal(ls[i])
  }

  lemma {:induction false} RunBounded(es: seq<Endpoint>, ls: seq<Label>, k: nat)
    requires IsRun(es, ls) && k <= |ls| && Undisturbed(ls, k)
    ensures |ls| - k <= Work(es[k])
    decreases |ls| - k
  {
    if k < |ls| {
      InternalWorks(es[k], ls[k]);
      RunBounded(es, ls, k + 1);
    }
  }

  ghost predicate Stuck(e: Endpoint) {
    forall l | Internal(l) :: !Enabled(e, l)
  }

  function SenderMove(x: Sender): SendStep {
    match x
    case Registering(_, _) => Register
    case Publishing(_, _) => Publish(true, true)
    case Waiting(_) => Expire
    case Unregistering(_, _) => Unregister
    case Releasing(_, _) => SendStep.Release
  }

  lemma SendersCanMove(e: Endpoint, t: Tid)
    requires Counted(e) && t in e.senders
    ensures Enabled(e, Send(t, SenderMove(e.senders[t])))
  {
    assert t in e.senders.Keys && |e.senders.Keys| == |e.senders|;
  }

  function HandlerMove(h: Handler): HandleStep {
    match h
    case Idle => FinishAck
    case ClosingAck(_) => FinishAck
    case Decoding(_, _) => Decode
    case Delivering(_, _) => Put(true)
    case Acking(_) => SendAck(true)
    case ReleasingPending => HandleStep.Release
    case Closing(_) => HandleStep.Clean
  }

  lemma HandlerCanMove(e: Endpoint)
    requires OneWinner(e) && Counted(e) && AcksOpen(e) && !e.handler.Idle?
    ensures Enabled(e, Handle(HandlerMove(e.handler)))
  {
  }

  lemma CloserCanMove(e: Endpoint, t: Tid)
    requires OneWinner(e) && e.base.pending == 0 && t in e.closers
    ensures Enabled(e, Label.Clean(t, true))
  {
  }

  /** Where the endpoint cannot move, every `Send` has returned, the handler is idle, nobody is counted, and the stream
      is open or torn down to the end. */
  lemma StuckIsDone(es: seq<Endpoint>, ls: seq<Label>, i: nat)
    requires IsRun(es, ls) && i <= |ls| && Stuck(es[i])
    ensures es[i].senders.Keys == {} && es[i].closers.Keys == {} && es[i].handler.Idle? && es[i].base.pending == 0
    ensures es[i].base.closed ==> es[i].life.torndown == TEARDOWN && es[i].base.recvClosed && es[i].base.done
  {
    Everywhere(es, ls, i);
    var e := es[i];
    if t :| t in e.senders.Keys {
      SendersCanMove(e, t);
      assert false;
    }
    if !e.handler.Idle? {
      HandlerCanMove(e);
      assert false;
    }
    assert |e.senders.Keys| == |e.senders|;
    if t :| t in e.closers.Keys {
      CloserCanMove(e, t);
      assert false;
    }
    CancelledEverywhere(es, ls, i);
  }

  /** A stream whose teardown has passed the cancellation has a context that is done. */
  lemma {:induction false} CancelledEverywhere(es: seq<Endpoint>, ls: seq<Label>, i: nat)
    requires IsRun(es, ls) && i <= |ls|
    ensures Cancelling in es[i].life.torndown ==> es[i].base.done
  {
    if i > 0 {
      CancelledEverywhere(es, ls, i - 1);
      CancelledStep(es[i - 1], ls[i - 1]);
    }
  }

  lemma CancelledStep(e: Endpoint, l: Label)
    requires (Cancelling in e.life.torndown ==> e.base.done) && Enabled(e, l)
    ensures Cancelling in Next(e, l).life.torndown ==> Next(e, l).base.done
  {
    match l
    case Send(t, step) => SendLife(e, t, step);
    case Handle(h) => HandleLife(e, h);
    case _ =>
  }

  lemma SendLife(e: Endpoint, t: Tid, step: SendStep)
    requires SendEnabled(e, t, step)
    ensures SendNext(e, t, step).life == e.life && SendNext(e, t, step).base.done == e.base.done
  {
  }

  lemma HandleLife(e: Endpoint, h: HandleStep)
    requires (Cancelling in e.life.torndown ==> e.base.done) && HandleEnabled(e, h)
    ensures Cancelling in HandleNext(e, h).life.torndown ==> HandleNext(e, h).base.done
  {
  }

  /** Left alone from position `k` on, the endpoint takes at most `Work(es[k])` steps, and where it cannot take another
      one everything is finished. */
  lemma FinishesWithin(es: seq<Endpoint>, ls: seq<Label>, k: nat)
    requires IsRun(es, ls) && k <= |ls| && Undisturbed(ls, k)
    ensures |ls| - k <= Work(es[k])
    ensures Stuck(es[|ls|]) ==> var z := es[|ls|];
      z.senders.Keys == {} && z.closers.Keys == {} && z.handler.Idle? && (z.base.closed ==> z.life.torndown == TEARDOWN)
  {
    RunBounded(es, ls, k);
    if Stuck(es[|ls|]) {
      StuckIsDone(es, ls, |ls|);
    }
  }
}
