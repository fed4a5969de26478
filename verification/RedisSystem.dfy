/** Every interleaving of the Redis bus goroutines: publishers, subscribers, the read worker, the single write
    worker and the short-lived `exec` goroutines.  One step is one critical section, one channel operation or one
    broker call. */
module RedisSystem {
  import opened Options
  import opened RedisBus

  type Tid = string

  /** Where a publisher or an `exec` goroutine is. */
  datatype Thread =
    | Publishing(channel: Channel, queue: QueueId)               // created a queue, about to push its exec op
    | Signalling                                                  // pushed it, about to signal the write worker
    | Checking(channel: Channel, queue: QueueId)                  // exec, about to test the queue under r.mu
    | Emptying(channel: Channel, queue: QueueId)                  // exec, about to pop
    | Sending(channel: Channel, queue: QueueId, message: Payload) // exec, popped, about to call the broker

  datatype Pending = Pending(channel: Channel, queue: bool, sub: SubId)

  /** Who keeps `r.mu` across several steps: `subscribe` and `unsubscribe` enqueue while holding it.  `subscribe`
      has then still to append its subscriber. */
  datatype Holder =
    | Free
    | Pushing(pending: Option<Pending>)
    | Notifying(pending: Option<Pending>)
    | Appending(last: Pending)

  /** Where the write worker is. */
  datatype Worker =
    | Waiting
    | Draining
    | Planning
    | Subscribing(sub: set<Channel>, unsub: set<Channel>)
    | Unsubscribing(sub: set<Channel>, unsub: set<Channel>, subOk: bool)
    | Committing(sub: set<Channel>, unsub: set<Channel>, subOk: bool, unsubOk: bool)

  /** `broker` is what the broker delivers; `torn` are the channels on which the last broker call that took
      effect was reported as failed; `pushed` and `handed` are the histories of each channel. */
  datatype System = System(
    writes: WriteQueue,
    pubs: Publications,
    subs: Subscriptions,
    mu: Holder,
    threads: map<Tid, Thread>,
    worker: Worker,
    broker: set<Channel>,
    torn: set<Channel>,
    pushed: map<Channel, seq<Payload>>,
    handed: map<Channel, seq<Payload>>)

  const INIT :=
    System(WriteQueue([], false), Publications(map[], []), Subscriptions(map[], map[], {}, {}),
           Free, map[], Waiting, {}, {}, map[], map[])

  datatype Label =
    // from outside
    | CallPublish(t: Tid, channel: Channel, message: Payload)
    | CallSubscribe(channel: Channel, queue: bool, sub: SubId)
    | CallUnsubscribe(channel: Channel, queue: bool, sub: SubId)
    | Receive(channel: Channel)
    // publishers
    | PushExec(t: Tid)
    | SignalExec(t: Tid)
    // exec goroutines
    | Check(t: Tid)
    | PopMessage(t: Tid)
    | Send(t: Tid)
    // the holder of r.mu
    | PushReconcile
    | SignalReconcile
    | Append
    // the write worker
    | Wake
    | Sleep
    | PopExec(t: Tid)
    | PopReconcile
    | DoPlan
    | CallBrokerSubscribe(ok: bool, applied: set<Channel>)
    | CallBrokerUnsubscribe(ok: bool, applied: set<Channel>)
    | DoCommit

  /** Steps the bus takes by itself, as opposed to calls and messages that arrive. */
  predicate Internal(l: Label) {
    !l.CallPublish? && !l.CallSubscribe? && !l.CallUnsubscribe? && !l.Receive?
  }

  predicate Failing(l: Label) {
    (l.CallBrokerSubscribe? || l.CallBrokerUnsubscribe?) && !l.ok
  }

  function Hist(m: map<Channel, seq<Payload>>, c: Channel): seq<Payload> {
    if c in m then m[c] else []
  }

  /** The outcome of a broker call on `cs`: skipped when there is nothing to do, complete when it succeeds, any
      part applied when it fails. */
  predicate BrokerOutcome(cs: set<Channel>, ok: bool, applied: set<Channel>) {
    applied <= cs && (cs == {} ==> ok) && (ok ==> applied == cs)
  }

  predicate At(s: System, t: Tid) {
    t in s.threads && (!s.threads[t].Signalling? ==> s.threads[t].queue < |s.pubs.arena|)
  }

  predicate Enabled(s: System, l: Label) {
    match l
    case CallPublish(t, c, _) =>
      s.mu.Free? && t !in s.threads && (c in s.pubs.publishOps ==> s.pubs.publishOps[c] < |s.pubs.arena|)
    case CallSubscribe(_, _, _) => s.mu.Free?
    case CallUnsubscribe(_, _, _) => s.mu.Free?
    case Receive(c) => s.mu.Free? && (c in s.subs.queues ==> s.subs.queues[c].subs != [])
    case PushExec(t) => At(s, t) && s.threads[t].Publishing?
    case SignalExec(t) => At(s, t) && s.threads[t].Signalling?
    case Check(t) => At(s, t) && s.threads[t].Checking? && s.mu.Free?
    case PopMessage(t) => At(s, t) && s.threads[t].Emptying?
    case Send(t) => At(s, t) && s.threads[t].Sending?
    case PushReconcile => s.mu.Pushing?
    case SignalReconcile => s.mu.Notifying?
    case Append => s.mu.Appending? && s.mu.last.channel in s.subs.Lists(s.mu.last.queue)
    case Wake => s.worker.Waiting? && s.writes.wakeup
    case Sleep => s.worker.Draining? && s.writes.ops == []
    case PopExec(t) => s.worker.Draining? && s.writes.ops != [] && s.writes.ops[0].ExecPublish? && t !in s.threads
    case PopReconcile => s.worker.Draining? && s.writes.ops != [] && s.writes.ops[0].Reconcile?
    case DoPlan => s.worker.Planning? && s.mu.Free?
    case CallBrokerSubscribe(ok, applied) => s.worker.Subscribing? && BrokerOutcome(s.worker.sub, ok, applied)
    case CallBrokerUnsubscribe(ok, applied) => s.worker.Unsubscribing? && BrokerOutcome(s.worker.unsub, ok, applied)
    case DoCommit => s.worker.Committing? && s.mu.Free?
  }

  /** The loop head of the reconciler, entered with `r.mu` held: plan and release, or finish. */
  function Replan(s: System, subs: Subscriptions): System {
    if subs.dirty == {} then s.(subs := subs, worker := Draining)
    else
      var p := MakePlan(subs);
      s.(subs := p.state, worker := Subscribing(p.subscribe, p.unsubscribe))
  }

  function Next(s: System, l: Label): System
    requires Enabled(s, l)
  {
    match l
    case CallPublish(t, c, b) =>
      var p := Publish(s.pubs, c, b);
      s.(pubs := p.pubs,
         threads := if p.created then s.threads[t := Publishing(c, p.queue)] else s.threads,
         pushed := s.pushed[c := Hist(s.pushed, c) + [b]])
    case CallSubscribe(c, queue, sub) =>
      if c in s.subs.Lists(queue) then s.(subs := AppendSub(s.subs, c, queue, sub))
      else s.(subs := OpenList(s.subs, c, queue), mu := Pushing(Some(Pending(c, queue, sub))))
    case CallUnsubscribe(c, queue, sub) =>
      s.(subs := Remove(s.subs, c, queue, sub), mu := if Empties(s.subs, c, queue, sub) then Pushing(None) else Free)
    case Receive(c) =>
      if c in s.subs.queues then
        s.(subs := s.subs.(queues := s.subs.queues[c := DispatchQueue(s.subs.queues[c])]))
      else s
    case PushExec(t) =>
      s.(writes := Push(s.writes, ExecPublish(s.threads[t].channel, s.threads[t].queue)),
         threads := s.threads[t := Signalling])
    case SignalExec(t) => s.(writes := s.writes.(wakeup := true), threads := s.threads - {t})
    case Check(t) =>
      var th := s.threads[t];
      if s.pubs.arena[th.queue] == [] then s.(pubs := Detach(s.pubs, th.channel), threads := s.threads - {t})
      else s.(threads := s.threads[t := Emptying(th.channel, th.queue)])
    case PopMessage(t) =>
      var th := s.threads[t];
      if s.pubs.arena[th.queue] == [] then s.(threads := s.threads[t := Checking(th.channel, th.queue)])
      else
        s.(pubs := PopFront(s.pubs, th.queue),
           threads := s.threads[t := Sending(th.channel, th.queue, s.pubs.arena[th.queue][0])])
    case Send(t) =>
      var th := s.threads[t];
      s.(threads := s.threads[t := Emptying(th.channel, th.queue)],
         handed := s.handed[th.channel := Hist(s.handed, th.channel) + [th.message]])
    case PushReconcile => s.(writes := Push(s.writes, Reconcile), mu := Notifying(s.mu.pending))
    case SignalReconcile =>
      s.(writes := s.writes.(wakeup := true),
         mu := if s.mu.pending.None? then Free else Appending(s.mu.pending.value))
    case Append => s.(subs := AppendSub(s.subs, s.mu.last.channel, s.mu.last.queue, s.mu.last.sub), mu := Free)
    case Wake => s.(writes := s.writes.(wakeup := false), worker := Draining)
    case Sleep => s.(worker := Waiting)
    case PopExec(t) =>
      s.(writes := s.writes.(ops := s.writes.ops[1..]),
         threads := s.threads[t := Checking(s.writes.ops[0].channel, s.writes.ops[0].queue)])
    case PopReconcile => s.(writes := s.writes.(ops := s.writes.ops[1..]), worker := Planning)
    case DoPlan => Replan(s, s.subs)
    case CallBrokerSubscribe(ok, applied) =>
      s.(broker := s.broker + applied,
         torn := if ok then s.torn - applied else s.torn + applied,
         worker := Unsubscribing(s.worker.sub, s.worker.unsub, ok))
    case CallBrokerUnsubscribe(ok, applied) =>
      s.(broker := s.broker - applied,
         torn := if ok then s.torn - applied else s.torn + applied,
         worker := Committing(s.worker.sub, s.worker.unsub, s.worker.subOk, ok))
    case DoCommit =>
      Replan(s, Commit(s.subs, s.worker.sub, s.worker.unsub, s.worker.subOk, s.worker.unsubOk))
  }

  /** A finite run: states and the labels between them. */
  ghost predicate IsRun(ss: seq<System>, ls: seq<Label>) {
    && |ss| == |ls| + 1
    && forall i | 0 <= i < |ls| :: Enabled(ss[i], ls[i]) && ss[i + 1] == Next(ss[i], ls[i])
  }

  ghost predicate Reachable(s: System) {
    exists ss, ls :: IsRun(ss, ls) && ss[0] == INIT && ss[|ls|] == s
  }
}
