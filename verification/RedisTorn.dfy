/** Why `RedisTheorems.StuckIsDone` speaks of channels that are not torn: a broker call may fail after it took effect,
    and the reconciler then believes what it had recorded before. */
module RedisTorn {
  import opened RedisBus
  import opened RedisSystem
  import opened RedisTheorems

  /** A state in which only the subscriptions and the broker matter. */
  function Quiet(x: Subscriptions, worker: Worker, wakeup: bool, broker: set<Channel>, torn: set<Channel>): System {
    System(WriteQueue([], wakeup), Publications(map[], []), x, Free, map[], worker, broker, torn, map[], map[])
  }

  function Lists(sub: SubId): map<Channel, SubList> {
    map["c" := SubList([sub], 0)]
  }

  ghost predicate RunTo(ss: seq<System>, ls: seq<Label>, s: System) {
    IsRun(ss, ls) && ss[0] == INIT && ss[|ls|] == s
  }

  lemma Extend(ss: seq<System>, ls: seq<Label>, s: System, l: Label) returns (ss': seq<System>, ls': seq<Label>)
    requires RunTo(ss, ls, s) && Enabled(s, l)
    ensures RunTo(ss', ls', Next(s, l))
  {
    ss', ls' := ss + [Next(s, l)], ls + [l];
  }

  /** Subscribing to `c` while the write worker is at `w`. */
  lemma SubscribeC(ss: seq<System>, ls: seq<Label>, current: set<Channel>, w: Worker, wakeup: bool,
                   broker: set<Channel>, torn: set<Channel>, sub: SubId)
    returns (ss': seq<System>, ls': seq<Label>)
    requires RunTo(ss, ls, Quiet(Subscriptions(map[], map[], {}, current), w, wakeup, broker, torn))
    ensures RunTo(ss', ls', Quiet(Subscriptions(Lists(sub), map[], {"c"}, current), w, true, broker, torn)
      .(writes := WriteQueue([Reconcile], true)))
  {
    var s := Quiet(Subscriptions(map[], map[], {}, current), w, wakeup, broker, torn);
    ss', ls' := Extend(ss, ls, s, CallSubscribe("c", false, sub));
    var s1 := Next(s, CallSubscribe("c", false, sub));
    ss', ls' := Extend(ss', ls', s1, PushReconcile);
    var s2 := Next(s1, PushReconcile);
    ss', ls' := Extend(ss', ls', s2, SignalReconcile);
    var s3 := Next(s2, SignalReconcile);
    ss', ls' := Extend(ss', ls', s3, Append);
    assert [] + [sub] == [sub];
  }

  /** The write worker takes a reconcile op and plans. */
  lemma PopAndPlan(ss: seq<System>, ls: seq<Label>, x: Subscriptions, wakeup: bool,
                   broker: set<Channel>, torn: set<Channel>)
    returns (ss': seq<System>, ls': seq<Label>)
    requires RunTo(ss, ls, Quiet(x, Draining, wakeup, broker, torn).(writes := WriteQueue([Reconcile], wakeup)))
    ensures RunTo(ss', ls', Replan(Quiet(x, Planning, wakeup, broker, torn), x))
  {
    var s := Quiet(x, Draining, wakeup, broker, torn).(writes := WriteQueue([Reconcile], wakeup));
    ss', ls' := Extend(ss, ls, s, PopReconcile);
    ss', ls' := Extend(ss', ls', Quiet(x, Planning, wakeup, broker, torn), DoPlan);
  }

  /** It makes its two broker calls, the first of which succeeds. */
  lemma CallBroker(ss: seq<System>, ls: seq<Label>, x: Subscriptions, sub: set<Channel>, unsub: set<Channel>,
                   wakeup: bool, broker: set<Channel>, torn: set<Channel>, ok: bool)
    returns (ss': seq<System>, ls': seq<Label>)
    requires RunTo(ss, ls, Quiet(x, Subscribing(sub, unsub), wakeup, broker, torn)) && (unsub == {} ==> ok)
    ensures RunTo(ss', ls', Quiet(x, Committing(sub, unsub, true, ok), wakeup, broker + sub - unsub,
                                  if ok then torn - sub - unsub else torn - sub + unsub))
  {
    var s := Quiet(x, Subscribing(sub, unsub), wakeup, broker, torn);
    ss', ls' := Extend(ss, ls, s, CallBrokerSubscribe(true, sub));
    var s1 := Quiet(x, Unsubscribing(sub, unsub, true), wakeup, broker + sub, torn - sub);
    ss', ls' := Extend(ss', ls', s1, CallBrokerUnsubscribe(ok, unsub));
  }

  /** It records the outcome, with nothing left to do. */
  lemma Finish(ss: seq<System>, ls: seq<Label>, s: System, x: Subscriptions)
    returns (ss': seq<System>, ls': seq<Label>)
    requires RunTo(ss, ls, s) && Enabled(s, DoCommit)
    requires x == Commit(s.subs, s.worker.sub, s.worker.unsub, s.worker.subOk, s.worker.unsubOk) && x.dirty == {}
    ensures RunTo(ss', ls', s.(subs := x, worker := Draining))
  {
    ss', ls' := Extend(ss, ls, s, DoCommit);
  }

  /** `c` is subscribed and the broker knows. */
  lemma Subscribed() returns (ss: seq<System>, ls: seq<Label>)
    ensures RunTo(ss, ls, Quiet(Subscriptions(Lists(1), map[], {}, {"c"}), Draining, false, {"c"}, {}))
  {
    ss, ls := SubscribeC([INIT], [], {}, Waiting, false, {}, {}, 1);
    var x := Subscriptions(Lists(1), map[], {"c"}, {});
    ss, ls := Extend(ss, ls, ss[|ls|], Wake);
    ss, ls := PopAndPlan(ss, ls, x, false, {}, {});
    assert MakePlan(x).subscribe == {"c"} && MakePlan(x).unsubscribe == {};
    ss, ls := CallBroker(ss, ls, x.(dirty := {}), {"c"}, {}, false, {}, {}, true);
    ss, ls := Finish(ss, ls, ss[|ls|], Subscriptions(Lists(1), map[], {}, {"c"}));
  }

  /** Its subscriber leaves. */
  lemma UnsubscribeC(ss: seq<System>, ls: seq<Label>) returns (ss': seq<System>, ls': seq<Label>)
    requires RunTo(ss, ls, Quiet(Subscriptions(Lists(1), map[], {}, {"c"}), Draining, false, {"c"}, {}))
    ensures RunTo(ss', ls', Quiet(Subscriptions(map[], map[], {"c"}, {"c"}), Draining, true, {"c"}, {})
      .(writes := WriteQueue([Reconcile], true)))
  {
    var x := Subscriptions(Lists(1), map[], {}, {"c"});
    var s := Quiet(x, Draining, false, {"c"}, {});
    ss', ls' := Extend(ss, ls, s, CallUnsubscribe("c", false, 1));
    assert Remove(x, "c", false, 1) == Subscriptions(map[], map[], {"c"}, {"c"});
    var s1 := Next(s, CallUnsubscribe("c", false, 1));
    ss', ls' := Extend(ss', ls', s1, PushReconcile);
    ss', ls' := Extend(ss', ls', Next(s1, PushReconcile), SignalReconcile);
  }

  /** The broker reports a failure after it has cancelled the subscription. */
  lemma Cancelled() returns (ss: seq<System>, ls: seq<Label>)
    ensures RunTo(ss, ls, Quiet(Subscriptions(map[], map[], {}, {"c"}), Committing({}, {"c"}, true, false), true, {},
                                {"c"}))
  {
    ss, ls := Subscribed();
    ss, ls := UnsubscribeC(ss, ls);
    var x := Subscriptions(map[], map[], {"c"}, {"c"});
    ss, ls := PopAndPlan(ss, ls, x, true, {"c"}, {});
    assert MakePlan(x).subscribe == {} && MakePlan(x).unsubscribe == {"c"};
    ss, ls := CallBroker(ss, ls, x.(dirty := {}), {}, {"c"}, true, {"c"}, {}, false);
    assert {"c"} + {} - {"c"} == {};
  }

  /** A new subscriber comes before the reconciler takes note of the failure; it then finds nothing to do. */
  lemma Overtaken() returns (ss: seq<System>, ls: seq<Label>)
    ensures RunTo(ss, ls, Quiet(Subscriptions(Lists(2), map[], {}, {"c"}), Draining, true, {}, {"c"})
      .(writes := WriteQueue([Reconcile], true)))
  {
    ss, ls := Cancelled();
    ss, ls := SubscribeC(ss, ls, {"c"}, Committing({}, {"c"}, true, false), true, {}, {"c"}, 2);
    var s := ss[|ls|];
    ss, ls := Extend(ss, ls, s, DoCommit);
    assert Commit(s.subs, {}, {"c"}, true, false) == s.subs;
    assert MakePlan(s.subs).subscribe == {} && MakePlan(s.subs).unsubscribe == {};
    var s1 := Next(s, DoCommit);
    ss, ls := Extend(ss, ls, s1, CallBrokerSubscribe(true, {}));
    var s2 := Next(s1, CallBrokerSubscribe(true, {}));
    ss, ls := Extend(ss, ls, s2, CallBrokerUnsubscribe(true, {}));
    ss, ls := Finish(ss, ls, ss[|ls|], Subscriptions(Lists(2), map[], {}, {"c"}));
  }

  const DEAF := Quiet(Subscriptions(Lists(2), map[], {}, {"c"}), Waiting, false, {}, {"c"})

  lemma Deaf() returns (ss: seq<System>, ls: seq<Label>)
    ensures RunTo(ss, ls, DEAF)
  {
    ss, ls := Overtaken();
    var x := Subscriptions(Lists(2), map[], {}, {"c"});
    ss, ls := PopAndPlan(ss, ls, x, true, {}, {"c"});
    ss, ls := Extend(ss, ls, Quiet(x, Draining, true, {}, {"c"}), Sleep);
    ss, ls := Extend(ss, ls, Quiet(x, Waiting, true, {}, {"c"}), Wake);
    ss, ls := Extend(ss, ls, Quiet(x, Draining, false, {}, {"c"}), Sleep);
  }

  /** The bus can come to rest with a subscriber whose channel the broker does not deliver. */
  lemma TornReachable()
    ensures exists s :: Reachable(s) && Stuck(s) && "c" in s.torn && s.subs.Desired("c") && "c" !in s.broker
  {
    var ss, ls := Deaf();
    assert Reachable(DEAF) && Stuck(DEAF);
  }
}
