/** The reconciler of the Redis bus: `current` follows what is desired, and the broker follows `current`. */
module RedisReconcile {
  import opened Options
  import opened RedisBus
  import opened RedisSystem

  /** The channels whose subscription, or whose cancellation, is under way outside `r.mu`. */
  function InFlightSub(w: Worker): set<Channel> {
    if w.Subscribing? || w.Unsubscribing? || w.Committing? then w.sub else {}
  }

  function InFlightUnsub(w: Worker): set<Channel> {
    if w.Subscribing? || w.Unsubscribing? || w.Committing? then w.unsub else {}
  }

  /** A channel that is neither dirty nor in flight is current exactly when it is desired; a channel in flight was
      planned from what is still true of it, unless it became dirty again. */
  ghost predicate ReconciledAt(s: System, c: Channel) {
    && (c in InFlightSub(s.worker) ==> c !in s.subs.current && (c !in s.subs.dirty ==> s.subs.Desired(c)))
    && (c in InFlightUnsub(s.worker) ==> c in s.subs.current && (c !in s.subs.dirty ==> !s.subs.Desired(c)))
    && (c !in s.subs.dirty && c !in InFlightSub(s.worker) && c !in InFlightUnsub(s.worker) ==>
          (c in s.subs.current <==> s.subs.Desired(c)))
  }

  /** Steps that change the subscription lists. */
  predicate OnLists(l: Label) {
    l.CallSubscribe? || l.CallUnsubscribe? || l.Append? || l.Receive?
  }

  /** `x'` agrees with `x` about channel `c`, or has marked it dirty. */
  ghost predicate Agrees(x: Subscriptions, x': Subscriptions, c: Channel) {
    && x'.current == x.current
    && (c in x.dirty ==> c in x'.dirty)
    && (c in x'.dirty || (x'.Desired(c) <==> x.Desired(c)))
  }

  lemma OpenAgrees(x: Subscriptions, c: Channel, queue: bool, d: Channel)
    ensures Agrees(x, OpenList(x, c, queue), d)
  {
  }

  lemma AppendAgrees(x: Subscriptions, c: Channel, queue: bool, sub: SubId, d: Channel)
    requires c in x.Lists(queue)
    ensures Agrees(x, AppendSub(x, c, queue, sub), d)
  {
  }

  lemma RemoveAgrees(x: Subscriptions, c: Channel, queue: bool, sub: SubId, d: Channel)
    ensures Agrees(x, Remove(x, c, queue, sub), d)
  {
  }

  lemma OtherSteps(s: System, l: Label)
    requires !OnLists(l) && !l.DoPlan? && !l.DoCommit? && Enabled(s, l)
    ensures Next(s, l).subs == s.subs
    ensures InFlightSub(Next(s, l).worker) == InFlightSub(s.worker)
    ensures InFlightUnsub(Next(s, l).worker) == InFlightUnsub(s.worker)
  {
  }

  lemma ListStepsReconciled(s: System, l: Label, c: Channel)
    requires OnLists(l) && ReconciledAt(s, c) && Enabled(s, l)
    ensures ReconciledAt(Next(s, l), c)
  {
    match l
    case CallSubscribe(d, queue, sub) =>
      OpenAgrees(s.subs, d, queue, c);
      if d in s.subs.Lists(queue) {
        AppendAgrees(s.subs, d, queue, sub, c);
      }
    case CallUnsubscribe(d, queue, sub) => RemoveAgrees(s.subs, d, queue, sub, c);
    case Append => AppendAgrees(s.subs, s.mu.last.channel, s.mu.last.queue, s.mu.last.sub, c);
    case Receive(d) =>
  }

  lemma ReplanReconciled(s: System, x: Subscriptions, c: Channel)
    requires c !in x.dirty ==> (c in x.current <==> x.Desired(c))
    ensures ReconciledAt(Replan(s, x), c)
  {
  }

  lemma CommitAgrees(s: System, c: Channel)
    requires s.worker.Committing? && ReconciledAt(s, c)
    ensures var x := Commit(s.subs, s.worker.sub, s.worker.unsub, s.worker.subOk, s.worker.unsubOk);
      c !in x.dirty ==> (c in x.current <==> x.Desired(c))
  {
  }

  lemma ReconciledKept(s: System, l: Label, c: Channel)
    requires ReconciledAt(s, c) && Enabled(s, l)
    ensures ReconciledAt(Next(s, l), c)
  {
    if OnLists(l) {
      ListStepsReconciled(s, l, c);
    } else if l.DoPlan? {
      ReplanReconciled(s, s.subs, c);
    } else if l.DoCommit? {
      CommitAgrees(s, c);
      ReplanReconciled(s, Commit(s.subs, s.worker.sub, s.worker.unsub, s.worker.subOk, s.worker.unsubOk), c);
    } else {
      OtherSteps(s, l);
    }
  }

  /** Where the worker knows the broker to be, given what it has recorded. */
  function Believed(s: System): set<Channel> {
    match s.worker
    case Unsubscribing(sub, _, true) => s.subs.current + sub
    case Committing(sub, unsub, subOk, unsubOk) =>
      s.subs.current + (if subOk then sub else {}) - (if unsubOk then unsub else {})
    case _ => s.subs.current
  }

  /** The broker and the worker's record disagree about a channel exactly when it is torn. */
  ghost predicate BrokerAt(s: System, c: Channel) {
    c in s.torn <==> ((c in s.broker) != (c in Believed(s)))
  }

  predicate AtBroker(l: Label) {
    l.CallBrokerSubscribe? || l.CallBrokerUnsubscribe? || l.DoCommit? || l.DoPlan?
  }

  lemma BelievedElsewhere(s: System, l: Label)
    requires !AtBroker(l) && Enabled(s, l)
    ensures var s' := Next(s, l); Believed(s') == Believed(s) && s'.broker == s.broker && s'.torn == s.torn
  {
    if !OnLists(l) {
      OtherSteps(s, l);
    }
  }

  lemma BrokerKept(s: System, l: Label, c: Channel)
    requires ReconciledAt(s, c) && BrokerAt(s, c) && Enabled(s, l)
    ensures BrokerAt(Next(s, l), c)
  {
    if !AtBroker(l) {
      BelievedElsewhere(s, l);
    }
  }

  predicate Reconciling(w: Worker) {
    !w.Waiting? && !w.Draining?
  }

  /** Dirty channels are going to be looked at. */
  ghost predicate RequestPending(s: System) {
    s.subs.dirty != {} ==> s.mu.Pushing? || Reconcile in s.writes.ops || Reconciling(s.worker)
  }

  lemma RequestKept(s: System, l: Label)
    requires RequestPending(s) && Enabled(s, l)
    ensures RequestPending(Next(s, l))
  {
  }

  ghost predicate Signaller(s: System, t: Tid) {
    t in s.threads && s.threads[t].Signalling?
  }

  /** No lost wakeup. */
  ghost predicate Woken(s: System) {
    s.writes.ops != [] ==> s.writes.wakeup || !s.worker.Waiting? || s.mu.Notifying? || exists t :: Signaller(s, t)
  }

  lemma WokenKept(s: System, l: Label)
    requires Woken(s) && Enabled(s, l)
    ensures Woken(Next(s, l))
  {
    var s' := Next(s, l);
    if l.PushExec? {
      assert Signaller(s', l.t);
    } else if !l.SignalExec? && exists t :: Signaller(s, t) {
      var t :| Signaller(s, t);
      assert Signaller(s', t);
    }
  }

  /** The list that the holder of `r.mu` has mapped and not yet filled. */
  function Unfilled(mu: Holder): Option<Pending> {
    match mu
    case Free => None
    case Pushing(p) => p
    case Notifying(p) => p
    case Appending(p) => Some(p)
  }

  /** A mapped list has a subscriber, unless it is the one being opened; that one is mapped. */
  ghost predicate FilledAt(s: System, c: Channel, queue: bool) {
    var u := Unfilled(s.mu);
    var opening := u.Some? && u.value.channel == c && u.value.queue == queue;
    && (c in s.subs.Lists(queue) && s.subs.Lists(queue)[c].subs == [] ==> opening)
    && (opening ==> c in s.subs.Lists(queue))
  }

  lemma RemoveFilled(x: Subscriptions, c: Channel, queue: bool, sub: SubId, d: Channel, queue': bool)
    requires d in x.Lists(queue') ==> x.Lists(queue')[d].subs != []
    ensures var x' := Remove(x, c, queue, sub); d in x'.Lists(queue') ==> x'.Lists(queue')[d].subs != []
  {
  }

  /** Steps that map a list or fill the one being opened. */
  lemma OpeningFilled(s: System, l: Label, c: Channel, queue: bool)
    requires (l.CallSubscribe? || l.Append?) && FilledAt(s, c, queue) && Enabled(s, l)
    ensures FilledAt(Next(s, l), c, queue)
  {
  }

  lemma OthersFilled(s: System, l: Label, c: Channel, queue: bool)
    requires !OnLists(l) && !l.DoPlan? && !l.DoCommit? && FilledAt(s, c, queue) && Enabled(s, l)
    ensures FilledAt(Next(s, l), c, queue)
  {
    OtherSteps(s, l);
  }

  lemma FilledKept(s: System, l: Label, c: Channel, queue: bool)
    requires FilledAt(s, c, queue) && Enabled(s, l)
    ensures FilledAt(Next(s, l), c, queue)
  {
    if l.CallSubscribe? || l.Append? {
      OpeningFilled(s, l, c, queue);
    } else if l.CallUnsubscribe? {
      RemoveFilled(s.subs, l.channel, l.queue, l.sub, c, queue);
    } else if !l.Receive? && !l.DoPlan? && !l.DoCommit? {
      OthersFilled(s, l, c, queue);
    }
  }
}
