/** What holds in every reachable state of the Redis bus. */
module RedisTheorems {
  import opened RedisBus
  import opened RedisSystem
  import opened RedisOwnership
  import opened RedisOrder
  import opened RedisReconcile
  import opened RedisProgress

  ghost predicate Invariant(s: System) {
    && Owned(s)
    && RequestPending(s)
    && Woken(s)
    && (forall c :: OrderedAt(s, c) && ReconciledAt(s, c) && BrokerAt(s, c))
    && (forall c, queue :: FilledAt(s, c, queue))
  }

  lemma Initially()
    ensures Invariant(INIT)
  {
  }

  lemma EveryStep(s: System, l: Label)
    requires Invariant(s) && Enabled(s, l)
    ensures Invariant(Next(s, l))
  {
    OwnedKept(s, l);
    RequestKept(s, l);
    WokenKept(s, l);
    forall c ensures OrderedAt(Next(s, l), c) && ReconciledAt(Next(s, l), c) && BrokerAt(Next(s, l), c) {
      OrderedKept(s, l, c);
      ReconciledKept(s, l, c);
      BrokerKept(s, l, c);
    }
    forall c, queue ensures FilledAt(Next(s, l), c, queue) {
      FilledKept(s, l, c, queue);
    }
  }

  lemma {:induction false} Everywhere(ss: seq<System>, ls: seq<Label>, i: nat)
    requires IsRun(ss, ls) && Invariant(ss[0]) && i <= |ls|
    ensures Invariant(ss[i])
  {
    if i > 0 {
      Everywhere(ss, ls, i - 1);
      EveryStep(ss[i - 1], ls[i - 1]);
    }
  }

  lemma ReachableInvariant(s: System)
    requires Reachable(s)
    ensures Invariant(s)
  {
    var ss, ls :| IsRun(ss, ls) && ss[0] == INIT && ss[|ls|] == s;
    Initially();
    Everywhere(ss, ls, |ls|);
  }

  /** On every channel the messages handed to the broker are a prefix of those pushed, in push order. */
  lemma PublishOrder(s: System, c: Channel)
    requires Reachable(s)
    ensures Hist(s.handed, c) <= Hist(s.pushed, c)
  {
    ReachableInvariant(s);
    assert OrderedAt(s, c);
    if exists t :: SendingOn(s, t, c) {
      var t :| SendingOn(s, t, c);
      OwnerAttached(s, t);
    }
  }

  /** A queue that is attached has exactly one owner; a queue that is not has none. */
  lemma ExactlyOneOwner(s: System, c: Channel, q: QueueId)
    requires Reachable(s)
    ensures Owners(s, c, q) == if c in s.pubs.publishOps && s.pubs.publishOps[c] == q then 1 else 0
  {
    ReachableInvariant(s);
  }

  /** A channel that is neither dirty nor in flight is recorded exactly when it has a subscriber. */
  lemma Reconciled(s: System, c: Channel)
    requires Reachable(s) && c !in s.subs.dirty
    requires c !in InFlightSub(s.worker) && c !in InFlightUnsub(s.worker)
    ensures c in s.subs.current <==> c in s.subs.subs || c in s.subs.queues
  {
    ReachableInvariant(s);
    assert ReconciledAt(s, c);
  }

  /** Whoever takes `r.mu` finds every index in range: publishing never meets a missing queue, and a message that
      arrives on a queue channel has somebody to go to. */
  lemma NothingOutOfRange(s: System, t: Tid, c: Channel, b: Payload)
    requires Reachable(s) && s.mu.Free?
    ensures t !in s.threads ==> Enabled(s, CallPublish(t, c, b))
    ensures Enabled(s, Receive(c))
    ensures forall queue :: c in s.subs.Lists(queue) ==> s.subs.Lists(queue)[c].subs != []
  {
    ReachableInvariant(s);
    forall queue ensures c in s.subs.Lists(queue) ==> s.subs.Lists(queue)[c].subs != [] {
      assert FilledAt(s, c, queue);
    }
    assert c in s.subs.queues ==> c in s.subs.Lists(true);
  }

  /** No goroutine of the bus can move, even with a working broker. */
  ghost predicate Stuck(s: System) {
    forall l :: Internal(l) && !Failing(l) ==> !Enabled(s, l)
  }

  /** What a goroutine, the holder of `r.mu` and the write worker do next. */
  function ThreadMove(s: System, t: Tid): Label
    requires t in s.threads
  {
    match s.threads[t]
    case Publishing(_, _) => PushExec(t)
    case Signalling => SignalExec(t)
    case Checking(_, _) => Check(t)
    case Emptying(_, _) => PopMessage(t)
    case Sending(_, _, _) => Send(t)
  }

  lemma ThreadCanMove(s: System, t: Tid)
    requires Owned(s) && s.mu.Free? && t in s.threads
    ensures Enabled(s, ThreadMove(s, t))
  {
    if !s.threads[t].Signalling? {
      OwnerAttached(s, t);
    }
  }

  function HolderMove(s: System): Label {
    match s.mu
    case Pushing(_) => PushReconcile
    case Notifying(_) => SignalReconcile
    case _ => Append
  }

  lemma HolderCanMove(s: System)
    requires (forall c, queue :: FilledAt(s, c, queue)) && !s.mu.Free?
    ensures Enabled(s, HolderMove(s))
  {
    if s.mu.Appending? {
      assert FilledAt(s, s.mu.last.channel, s.mu.last.queue);
    }
  }

  function WorkerMove(s: System): Label {
    match s.worker
    case Waiting => Wake
    case Draining =>
      if s.writes.ops == [] then Sleep else if s.writes.ops[0].Reconcile? then PopReconcile else PopExec("exec")
    case Planning => DoPlan
    case Subscribing(sub, _) => CallBrokerSubscribe(true, sub)
    case Unsubscribing(_, unsub, _) => CallBrokerUnsubscribe(true, unsub)
    case Committing(_, _, _, _) => DoCommit
  }

  lemma WorkerCanMove(s: System)
    requires s.mu.Free? && s.threads.Keys == {} && (!s.worker.Waiting? || s.writes.wakeup)
    ensures Enabled(s, WorkerMove(s))
  {
  }

  lemma StuckIsIdle(s: System)
    requires Invariant(s) && Stuck(s)
    ensures s.mu.Free? && s.threads.Keys == {} && s.worker.Waiting? && !s.writes.wakeup
  {
    if !s.mu.Free? {
      HolderCanMove(s);
      assert false;
    }
    if t :| t in s.threads.Keys {
      ThreadCanMove(s, t);
      assert false;
    }
    if !s.worker.Waiting? || s.writes.wakeup {
      WorkerCanMove(s);
      assert false;
    }
  }

  lemma NoOwners(s: System, c: Channel, q: QueueId)
    requires s.threads.Keys == {} && s.writes.ops == []
    ensures Owners(s, c, q) == 0
  {
  }

  /** Where the bus stops by itself, nothing was forgotten: every message published was handed to the broker, in
      order, and the recorded subscriptions are the desired ones.  The broker agrees about a channel exactly when the
      channel is not torn. */
  lemma StuckIsDone(s: System, c: Channel)
    requires Reachable(s) && Stuck(s)
    ensures Hist(s.handed, c) == Hist(s.pushed, c)
    ensures c in s.subs.current <==> s.subs.Desired(c)
    ensures c in s.torn <==> ((c in s.broker) != s.subs.Desired(c))
  {
    ReachableInvariant(s);
    StuckIsIdle(s);
    assert forall t :: t in s.threads ==> t in s.threads.Keys;
    assert s.writes.ops == [] && s.subs.dirty == {};
    assert forall d | d in s.pubs.publishOps :: Owners(s, d, s.pubs.publishOps[d]) == 1;
    forall d, q ensures Owners(s, d, q) == 0 {
      NoOwners(s, d, q);
    }
    assert OrderedAt(s, c) && ReconciledAt(s, c) && BrokerAt(s, c);
  }

  /** Left to itself from position `k` on with a broker whose calls succeed, the bus takes at most `Work(ss[k])`
      steps; where it cannot take another one, every message published is handed over, and every subscription is
      recorded and, unless torn before, in place at the broker. */
  lemma DrainsWithin(ss: seq<System>, ls: seq<Label>, k: nat, c: Channel)
    requires IsRun(ss, ls) && ss[0] == INIT && k <= |ls| && Undisturbed(ls, k)
    ensures |ls| - k <= Work(ss[k])
    ensures Stuck(ss[|ls|]) ==>
      var z := ss[|ls|];
      && Hist(z.handed, c) == Hist(ss[k].pushed, c)
      && (c in z.subs.current <==> z.subs.Desired(c))
      && ((c in z.broker <==> z.subs.Desired(c)) <==> !TornBy(ls, c))
  {
    RunBounded(ss, ls, k);
    assert Reachable(ss[|ls|]);
    if Stuck(ss[|ls|]) {
      StuckIsDone(ss[|ls|], c);
      RestAgreesIff(ss, ls, c);
      PushedUnchanged(ss, ls, k, |ls|);
    }
  }

  /** Only `Publish` adds to the history of a channel. */
  lemma {:induction false} PushedUnchanged(ss: seq<System>, ls: seq<Label>, k: nat, i: nat)
    requires IsRun(ss, ls) && k <= i <= |ls| && Undisturbed(ls, k)
    ensures ss[i].pushed == ss[k].pushed
    decreases i
  {
    if i > k {
      PushedUnchanged(ss, ls, k, i - 1);
    }
  }

  /** The last broker call of a run that took effect on `c` was reported as failed. */
  predicate TornBy(ls: seq<Label>, c: Channel) {
    if ls == [] then false
    else
      var l := ls[|ls| - 1];
      if (l.CallBrokerSubscribe? || l.CallBrokerUnsubscribe?) && c in l.applied then !l.ok
      else TornBy(ls[..|ls| - 1], c)
  }

  lemma TornStep(s: System, l: Label, c: Channel)
    requires Enabled(s, l)
    ensures c in Next(s, l).torn <==>
      if (l.CallBrokerSubscribe? || l.CallBrokerUnsubscribe?) && c in l.applied then !l.ok else c in s.torn
  {
    if !l.CallBrokerSubscribe? && !l.CallBrokerUnsubscribe? && !l.DoPlan? && !l.DoCommit? {
      BelievedElsewhere(s, l);
    }
  }

  /** Which channels are torn can be read off the labels. */
  lemma {:induction false} TornReads(ss: seq<System>, ls: seq<Label>, i: nat, c: Channel)
    requires IsRun(ss, ls) && ss[0] == INIT && i <= |ls|
    ensures c in ss[i].torn <==> TornBy(ls[..i], c)
  {
    if i > 0 {
      TornReads(ss, ls, i - 1, c);
      TornStep(ss[i - 1], ls[i - 1], c);
      assert ls[..i][..i - 1] == ls[..i - 1];
    }
  }

  /** Where a run comes to rest, the broker delivers a channel that is desired, and no other, exactly when the last
      call that took effect on it was reported as successful, or no call ever took effect on it. */
  lemma RestAgreesIff(ss: seq<System>, ls: seq<Label>, c: Channel)
    requires IsRun(ss, ls) && ss[0] == INIT && Stuck(ss[|ls|])
    ensures var z := ss[|ls|]; (c in z.broker <==> z.subs.Desired(c)) <==> !TornBy(ls, c)
  {
    assert Reachable(ss[|ls|]);
    StuckIsDone(ss[|ls|], c);
    TornReads(ss, ls, |ls|, c);
    assert ls[..|ls|] == ls;
  }

  /** In particular nothing is torn when every failed call has no effect. */
  lemma NothingTorn(ss: seq<System>, ls: seq<Label>, i: nat)
    requires IsRun(ss, ls) && ss[0] == INIT && i <= |ls|
    requires forall l | l in ls && Failing(l) :: l.applied == {}
    ensures ss[i].torn == {}
  {
    forall c ensures c !in ss[i].torn {
      TornReads(ss, ls, i, c);
      NoTear(ls[..i], c);
    }
  }

  lemma {:induction false} NoTear(ls: seq<Label>, c: Channel)
    requires forall l | l in ls && Failing(l) :: l.applied == {}
    ensures !TornBy(ls, c)
  {
    if ls != [] {
      NoTear(ls[..|ls| - 1], c);
      assert ls[|ls| - 1] in ls;
    }
  }
}
