/** Who is subscribed on the Redis bus, read off the labels of a run, and who gets a message. */
module RedisRoster {
  import opened Options
  import opened RedisBus
  import opened RedisSystem
  import opened RedisReconcile
  import opened RedisTheorems

  /** How often `sub` is subscribed: every `subscribe` counts, and every `unsubscribe` that finds it. */
  function Memberships(ls: seq<Label>, c: Channel, queue: bool, sub: SubId): nat {
    if ls == [] then 0
    else
      var n := Memberships(ls[..|ls| - 1], c, queue, sub);
      if ls[|ls| - 1] == CallSubscribe(c, queue, sub) then n + 1
      else if ls[|ls| - 1] == CallUnsubscribe(c, queue, sub) && n > 0 then n - 1
      else n
  }

  /** The subscribers of a channel in the order in which they came; one that leaves takes its earliest entry. */
  function Roster(ls: seq<Label>, c: Channel, queue: bool): seq<SubId> {
    if ls == [] then [] else RosterNext(Roster(ls[..|ls| - 1], c, queue), ls[|ls| - 1], c, queue)
  }

  function Without(s: seq<SubId>, x: SubId): seq<SubId> {
    if s == [] then [] else if s[0] == x then s[1..] else [s[0]] + Without(s[1..], x)
  }

  lemma {:induction false} WithoutCounts(s: seq<SubId>, x: SubId)
    ensures multiset(Without(s, x)) == multiset(s) - multiset{x}
  {
    if s != [] {
      assert s == [s[0]] + s[1..];
      if s[0] != x {
        WithoutCounts(s[1..], x);
      }
    }
  }

  /** The roster holds every subscriber as often as it is subscribed. */
  lemma {:induction false} RosterCounts(ls: seq<Label>, c: Channel, queue: bool, sub: SubId)
    ensures multiset(Roster(ls, c, queue))[sub] == Memberships(ls, c, queue, sub)
  {
    if ls != [] {
      RosterCounts(ls[..|ls| - 1], c, queue, sub);
      CountsNext(Roster(ls[..|ls| - 1], c, queue), ls[|ls| - 1], c, queue, sub);
    }
  }

  /** The roster after a step. */
  function RosterNext(before: seq<SubId>, l: Label, c: Channel, queue: bool): seq<SubId> {
    match l
    case CallSubscribe(d, q, sub) => if d == c && q == queue then before + [sub] else before
    case CallUnsubscribe(d, q, sub) => if d == c && q == queue then Without(before, sub) else before
    case _ => before
  }

  lemma CountsNext(before: seq<SubId>, l: Label, c: Channel, queue: bool, sub: SubId)
    ensures var n := multiset(before)[sub];
      multiset(RosterNext(before, l, c, queue))[sub] ==
      if l == CallSubscribe(c, queue, sub) then n + 1
      else if l == CallUnsubscribe(c, queue, sub) && n > 0 then n - 1
      else n
  {
    if l.CallUnsubscribe? {
      WithoutCounts(before, l.sub);
    }
  }

  // ---- the lists

  /** The list of a channel; there is none when it is not mapped. */
  function ListOf(x: Subscriptions, c: Channel, queue: bool): seq<SubId> {
    if c in x.Lists(queue) then x.Lists(queue)[c].subs else []
  }

  /** The subscriber that `subscribe` has still to append. */
  function Coming(mu: Holder, c: Channel, queue: bool): seq<SubId> {
    var u := Unfilled(mu);
    if u.Some? && u.value.channel == c && u.value.queue == queue then [u.value.sub] else []
  }

  lemma {:induction false} WithoutIs(s: seq<SubId>, x: SubId)
    ensures var i := IndexOf(s, x); Without(s, x) == if i == -1 then s else s[..i] + s[i + 1..]
  {
    if s != [] && s[0] != x {
      WithoutIs(s[1..], x);
      var i := IndexOf(s[1..], x);
      if i >= 0 {
        assert s[..i + 1] + s[i + 2..] == [s[0]] + (s[1..][..i] + s[1..][i + 1..]);
      } else {
        assert [s[0]] + s[1..] == s;
      }
    }
  }

  lemma RemoveHere(x: Subscriptions, c: Channel, queue: bool, sub: SubId)
    ensures ListOf(Remove(x, c, queue, sub), c, queue) == Without(ListOf(x, c, queue), sub)
  {
    WithoutIs(ListOf(x, c, queue), sub);
  }

  lemma RemoveElsewhere(x: Subscriptions, d: Channel, q: bool, sub: SubId, c: Channel, queue: bool)
    requires c != d || queue != q
    ensures ListOf(Remove(x, d, q, sub), c, queue) == ListOf(x, c, queue)
  {
  }

  lemma RemoveList(x: Subscriptions, d: Channel, q: bool, sub: SubId, c: Channel, queue: bool)
    ensures ListOf(Remove(x, d, q, sub), c, queue) ==
      if c == d && queue == q then Without(ListOf(x, c, queue), sub) else ListOf(x, c, queue)
  {
    if c == d && queue == q {
      RemoveHere(x, c, queue, sub);
    } else {
      RemoveElsewhere(x, d, q, sub, c, queue);
    }
  }

  /** A step changes the list and the coming subscriber as its label says. */
  lemma ListStep(s: System, l: Label, c: Channel, queue: bool)
    requires Enabled(s, l)
    ensures ListOf(Next(s, l).subs, c, queue) + Coming(Next(s, l).mu, c, queue) ==
      RosterNext(ListOf(s.subs, c, queue) + Coming(s.mu, c, queue), l, c, queue)
  {
    if l.CallSubscribe? {
      SubscribeStep(s, l, c, queue);
    } else if l.CallUnsubscribe? {
      UnsubscribeStep(s, l, c, queue);
    } else if l.Append? {
      AppendStep(s, c, queue);
    } else {
      ListsStay(s, l, c, queue);
      HolderStays(s, l);
    }
  }

  lemma ListsStay(s: System, l: Label, c: Channel, queue: bool)
    requires !l.CallSubscribe? && !l.CallUnsubscribe? && !l.Append? && Enabled(s, l)
    ensures ListOf(Next(s, l).subs, c, queue) == ListOf(s.subs, c, queue)
  {
    if !l.Receive? && !l.DoPlan? && !l.DoCommit? {
      OtherSteps(s, l);
    }
  }

  lemma HolderStays(s: System, l: Label)
    requires !l.CallSubscribe? && !l.CallUnsubscribe? && !l.Append? && Enabled(s, l)
    ensures Unfilled(Next(s, l).mu) == Unfilled(s.mu)
  {
  }

  /** `subscribe` on a mapped channel appends at once; on one that is not mapped the subscriber is still to come. */
  lemma SubscribeStep(s: System, l: Label, c: Channel, queue: bool)
    requires l.CallSubscribe? && Enabled(s, l)
    ensures var before, s' := ListOf(s.subs, c, queue) + Coming(s.mu, c, queue), Next(s, l);
      ListOf(s'.subs, c, queue) + Coming(s'.mu, c, queue) ==
      if l.channel == c && l.queue == queue then before + [l.sub] else before
  {
    if l.channel in s.subs.Lists(l.queue) {
      AppendList(s.subs, l.channel, l.queue, l.sub, c, queue);
    } else {
      OpenedList(s.subs, l.channel, l.queue, c, queue);
    }
    assert ListOf(s.subs, c, queue) + [] == ListOf(s.subs, c, queue);
  }

  lemma AppendList(x: Subscriptions, d: Channel, q: bool, sub: SubId, c: Channel, queue: bool)
    requires d in x.Lists(q)
    ensures ListOf(AppendSub(x, d, q, sub), c, queue) ==
      if c == d && queue == q then ListOf(x, c, queue) + [sub] else ListOf(x, c, queue)
  {
  }

  lemma OpenedList(x: Subscriptions, d: Channel, q: bool, c: Channel, queue: bool)
    requires d !in x.Lists(q)
    ensures ListOf(OpenList(x, d, q), c, queue) == ListOf(x, c, queue)
  {
  }

  lemma UnsubscribeStep(s: System, l: Label, c: Channel, queue: bool)
    requires l.CallUnsubscribe? && Enabled(s, l)
    ensures var before, s' := ListOf(s.subs, c, queue) + Coming(s.mu, c, queue), Next(s, l);
      ListOf(s'.subs, c, queue) + Coming(s'.mu, c, queue) ==
      if l.channel == c && l.queue == queue then Without(before, l.sub) else before
  {
    RemoveList(s.subs, l.channel, l.queue, l.sub, c, queue);
    assert ListOf(s.subs, c, queue) + [] == ListOf(s.subs, c, queue);
  }

  lemma AppendStep(s: System, c: Channel, queue: bool)
    requires Enabled(s, Append)
    ensures var s' := Next(s, Append);
      ListOf(s'.subs, c, queue) + Coming(s'.mu, c, queue) == ListOf(s.subs, c, queue) + Coming(s.mu, c, queue)
  {
  }

  /** In every run the lists hold exactly the rosters, up to the subscriber that is just being added. */
  lemma {:induction false} ListsAreRosters(ss: seq<System>, ls: seq<Label>, i: nat, c: Channel, queue: bool)
    requires IsRun(ss, ls) && ss[0] == INIT && i <= |ls|
    ensures ListOf(ss[i].subs, c, queue) + Coming(ss[i].mu, c, queue) == Roster(ls[..i], c, queue)
  {
    if i > 0 {
      ListsAreRosters(ss, ls, i - 1, c, queue);
      ListStep(ss[i - 1], ls[i - 1], c, queue);
      assert ls[..i][..i - 1] == ls[..i - 1];
    }
  }

  // ---- who gets a message

  /** Whenever `r.mu` is free, a list holds every subscriber as often as it has subscribed and not unsubscribed. */
  lemma ListsHoldMembers(ss: seq<System>, ls: seq<Label>, c: Channel, queue: bool, sub: SubId)
    requires IsRun(ss, ls) && ss[0] == INIT && ss[|ls|].mu.Free?
    ensures multiset(ListOf(ss[|ls|].subs, c, queue))[sub] == Memberships(ls, c, queue, sub)
  {
    ListsAreRosters(ss, ls, |ls|, c, queue);
    assert ls[..|ls|] == ls;
    var list := ListOf(ss[|ls|].subs, c, queue);
    assert list + [] == list;
    RosterCounts(ls, c, queue, sub);
  }

  /** A message that arrives goes to the plain subscribers that have subscribed and not unsubscribed, to each as often
      as it is subscribed, and to one of the queue subscribers, if there is any. */
  lemma ReceiversAreMembers(ss: seq<System>, ls: seq<Label>, c: Channel, sub: SubId)
    requires IsRun(ss, ls) && ss[0] == INIT && ss[|ls|].mu.Free?
    ensures c in ss[|ls|].subs.queues ==> ss[|ls|].subs.queues[c].subs != []
    ensures var x := ss[|ls|].subs;
      && multiset(PlainReceivers(x, c))[sub] == Memberships(ls, c, false, sub)
      && (sub in QueueReceiver(x, c) ==> Memberships(ls, c, true, sub) > 0)
      && (Memberships(ls, c, true, sub) > 0 ==> |QueueReceiver(x, c)| == 1)
  {
    var x := ss[|ls|].subs;
    assert Reachable(ss[|ls|]);
    NothingOutOfRange(ss[|ls|], "", c, "");
    assert x.Lists(true) == x.queues;
    ListsHoldMembers(ss, ls, c, false, sub);
    ListsHoldMembers(ss, ls, c, true, sub);
    assert PlainReceivers(x, c) == ListOf(x, c, false);
    assert sub in ListOf(x, c, true) <==> multiset(ListOf(x, c, true))[sub] > 0;
  }

  /** Only a message that arrives moves the index of a queue that stays mapped. */
  lemma IndexMoves(s: System, l: Label, c: Channel)
    requires Enabled(s, l) && c in s.subs.queues && c in Next(s, l).subs.queues && l != Receive(c)
    ensures Next(s, l).subs.queues[c].next == s.subs.queues[c].next
  {
    if !OnLists(l) && !l.DoPlan? && !l.DoCommit? {
      OtherSteps(s, l);
    }
  }

  /** A queue list starts at its first subscriber. */
  lemma IndexStarts(s: System, c: Channel, sub: SubId)
    requires Enabled(s, CallSubscribe(c, true, sub)) && c !in s.subs.queues
    ensures c in Next(s, CallSubscribe(c, true, sub)).subs.queues
    ensures Next(s, CallSubscribe(c, true, sub)).subs.queues[c].next == 0
  {
  }

  /** A message that arrives goes to the subscriber at the index, or to the first one when the index has passed the end,
      and leaves the index behind it. */
  lemma IndexAdvances(s: System, c: Channel)
    requires Enabled(s, Receive(c)) && c in s.subs.queues
    ensures var list := s.subs.queues[c];
      var i := if list.next < |list.subs| then list.next else 0;
      && QueueReceiver(s.subs, c) == [list.subs[i]]
      && Next(s, Receive(c)).subs.queues[c] == SubList(list.subs, i + 1)
  {
  }
}
