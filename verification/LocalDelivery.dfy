/** Who gets a message that is published on the local bus, read off the labels of a run. */
module LocalDelivery {
  import opened Options
  import opened LocalList
  import opened LocalDispatch
  import opened LocalBus
  import opened LocalTheorems

  // ---- the live slots

  lemma {:induction false} LiveSubsCount(subs: Slots, x: SubId)
    ensures (forall j | 0 <= j < |subs| :: subs[j] != Some(x)) ==> multiset(LiveSubs(subs))[x] == 0
  {
    if subs != [] {
      LiveSubsCount(subs[1..], x);
    }
  }

  /** A subscriber in exactly one slot gets a broadcast once. */
  lemma {:induction false} LiveOnce(subs: Slots, i: nat, x: SubId)
    requires i < |subs| && subs[i] == Some(x)
    requires forall j | 0 <= j < |subs| && subs[j] == Some(x) :: j == i
    ensures multiset(LiveSubs(subs))[x] == 1
  {
    if i == 0 {
      LiveSubsCount(subs[1..], x);
      assert forall j | 0 <= j < |subs[1..]| :: subs[1..][j] == subs[j + 1];
    } else {
      assert forall j | 0 <= j < |subs[1..]| :: subs[1..][j] == subs[j + 1];
      LiveOnce(subs[1..], i - 1, x);
    }
  }

  // ---- membership

  /** Subscription `sub` has been made on `home` and has not unsubscribed. */
  ghost predicate Joined(ls: seq<Label>, i: nat, home: Home, sub: SubId)
    requires i <= |ls|
  {
    && (exists j: nat :: j < i && ls[j] == Subscribe(home, sub))
    && forall k: nat | k < i :: ls[k] != Unsubscribe(sub)
  }

  /** It is held in a slot of a list of `home`. */
  ghost predicate HeldAt(b: Bus, home: Home, sub: SubId) {
    && sub in b.subs && Holds(b.subs[sub])
    && b.subs[sub].list < |b.homes| && b.homes[b.subs[sub].list] == home
  }

  lemma HeldStep(b: Bus, l: Label, home: Home, sub: SubId)
    requires Invariant(b) && Enabled(b, l)
    ensures HeldAt(Next(b, l), home, sub) <==>
      l == Subscribe(home, sub) || (HeldAt(b, home, sub) && l != Unsubscribe(sub))
  {
    assert SubAt(b, sub);
  }

  lemma NotJustNow(b: Bus, l: Label, sub: SubId)
    requires Enabled(b, l) && sub !in Next(b, l).subs
    ensures sub !in b.subs && l != Unsubscribe(sub)
  {
  }

  lemma {:induction false} NotBefore(bs: seq<Bus>, ls: seq<Label>, i: nat, sub: SubId)
    requires IsRun(bs, ls) && i <= |ls| && sub !in bs[i].subs
    ensures forall k: nat | k < i :: ls[k] != Unsubscribe(sub)
  {
    if i > 0 {
      NotJustNow(bs[i - 1], ls[i - 1], sub);
      NotBefore(bs, ls, i - 1, sub);
    }
  }

  lemma JoinedNext(bs: seq<Bus>, ls: seq<Label>, i: nat, home: Home, sub: SubId)
    requires IsRun(bs, ls) && 0 < i <= |ls|
    ensures Joined(ls, i, home, sub) <==>
      ls[i - 1] == Subscribe(home, sub) || (Joined(ls, i - 1, home, sub) && ls[i - 1] != Unsubscribe(sub))
  {
    if ls[i - 1] == Subscribe(home, sub) {
      assert Enabled(bs[i - 1], ls[i - 1]);
      NotBefore(bs, ls, i - 1, sub);
    }
  }

  lemma HeldNext(bs: seq<Bus>, ls: seq<Label>, i: nat, home: Home, sub: SubId)
    requires IsRun(bs, ls) && i < |ls|
    ensures HeldAt(bs[i + 1], home, sub) <==>
      ls[i] == Subscribe(home, sub) || (HeldAt(bs[i], home, sub) && ls[i] != Unsubscribe(sub))
  {
    Everywhere(bs, ls, i);
    HeldStep(bs[i], ls[i], home, sub);
  }

  /** In every run the subscriptions held in the lists of a channel are exactly those made on it that have not
      unsubscribed. */
  lemma {:induction false} HeldIffJoined(bs: seq<Bus>, ls: seq<Label>, i: nat, home: Home, sub: SubId)
    requires IsRun(bs, ls) && i <= |ls|
    ensures HeldAt(bs[i], home, sub) <==> Joined(ls, i, home, sub)
  {
    if i > 0 {
      HeldIffJoined(bs, ls, i - 1, home, sub);
      HeldNext(bs, ls, i - 1, home, sub);
      JoinedNext(bs, ls, i, home, sub);
    }
  }

  // ---- publishing

  /** What a publisher has looked up it keeps until it dispatches. */
  lemma {:induction false} PublisherKeeps(bs: seq<Bus>, ls: seq<Label>, j: nat, i: nat, t: Tid, c: Channel)
    requires IsRun(bs, ls) && j < i <= |ls| && ls[j] == Publish(t, c)
    ensures t in bs[i].publishers
    ensures bs[i].publishers[t].plain.Some? ==> bs[i].publishers[t].plain == Lookup(bs[j], Home(c, false))
    ensures bs[i].publishers[t].queue.Some? ==> bs[i].publishers[t].queue == Lookup(bs[j], Home(c, true))
    ensures bs[i].publishers[t].plain.None? ==>
      Lookup(bs[j], Home(c, false)).None? || exists k: nat :: j < k < i && ls[k] == DispatchPlain(t)
    ensures bs[i].publishers[t].queue.None? ==>
      Lookup(bs[j], Home(c, true)).None? || exists k: nat, turn :: j < k < i && ls[k] == DispatchQueue(t, turn)
    decreases i
  {
    assert Enabled(bs[i - 1], ls[i - 1]) && bs[i] == Next(bs[i - 1], ls[i - 1]);
    if i > j + 1 {
      PublisherKeeps(bs, ls, j, i - 1, t, c);
      PublisherStep(bs[i - 1], ls[i - 1], t);
    }
  }

  lemma PublisherStep(b: Bus, l: Label, t: Tid)
    requires Enabled(b, l) && t in b.publishers
    ensures t in Next(b, l).publishers
    ensures Next(b, l).publishers[t] == b.publishers[t] || l == DispatchPlain(t) || (l.DispatchQueue? && l.t == t)
    ensures l == DispatchPlain(t) ==> Next(b, l).publishers[t] == b.publishers[t].(plain := None)
    ensures l.DispatchQueue? && l.t == t ==> Next(b, l).publishers[t] == b.publishers[t].(queue := None)
  {
  }

  /** A subscription that is held on a channel when it is looked up is in the list that is found. */
  lemma HeldInList(bs: seq<Bus>, ls: seq<Label>, j: nat, home: Home, sub: SubId)
    requires IsRun(bs, ls) && j <= |ls| && HeldAt(bs[j], home, sub)
    ensures Lookup(bs[j], home) == Some(bs[j].subs[sub].list)
  {
    Everywhere(bs, ls, j);
    var b, x := bs[j], bs[j].subs[sub];
    assert SubAt(b, sub) && ListAt(b, x.list);
    LivePositive(b.arena[x.list].subs);
  }

  /** A subscription stays in its list. */
  lemma {:induction false} ListStays(bs: seq<Bus>, ls: seq<Label>, j: nat, k: nat, sub: SubId)
    requires IsRun(bs, ls) && j <= k <= |ls| && sub in bs[j].subs
    ensures sub in bs[k].subs && bs[k].subs[sub].list == bs[j].subs[sub].list
    decreases k
  {
    if j < k {
      ListStays(bs, ls, j, k - 1, sub);
      assert Enabled(bs[k - 1], ls[k - 1]);
    }
  }

  /** A publisher dispatches to every plain subscription of its channel that was there when it looked up and is there
      when it dispatches, once to each; and to no subscription that is not there, and to none of another channel. */
  lemma PlainDelivery(bs: seq<Bus>, ls: seq<Label>, j: nat, k: nat, t: Tid, c: Channel, sub: SubId)
    requires IsRun(bs, ls) && j < k < |ls| && ls[j] == Publish(t, c) && ls[k] == DispatchPlain(t)
    ensures t in bs[k].publishers && bs[k].publishers[t].plain.Some? && bs[k].publishers[t].plain.value < |bs[k].arena|
    ensures var chosen := LiveSubs(bs[k].arena[bs[k].publishers[t].plain.value].subs);
      && (Joined(ls, j, Home(c, false), sub) && Joined(ls, k, Home(c, false), sub) ==> multiset(chosen)[sub] == 1)
      && (sub in chosen ==> Joined(ls, k, Home(c, false), sub))
  {
    PublisherKeeps(bs, ls, j, k, t, c);
    assert Enabled(bs[k], ls[k]);
    InTheList(bs, ls, j, k, bs[k].publishers[t].plain.value, Home(c, false), sub);
    var id := bs[k].publishers[t].plain.value;
    var subs := bs[k].arena[id].subs;
    var home := Home(c, false);
    if Joined(ls, j, home, sub) && Joined(ls, k, home, sub) {
      var n: nat :| n < |subs| && subs[n] == Some(sub);
      OnlySlot(bs, ls, k, id, n, sub);
      LiveOnce(subs, n, sub);
    }
    if sub in LiveSubs(subs) {
      var ks := LiveSubsAre(subs);
      var m :| 0 <= m < |LiveSubs(subs)| && LiveSubs(subs)[m] == sub;
      assert subs[ks[m]] == Some(sub);
    }
  }

  lemma OnlySlot(bs: seq<Bus>, ls: seq<Label>, k: nat, id: ListId, n: nat, sub: SubId)
    requires IsRun(bs, ls) && k <= |ls| && id < |bs[k].arena| && n < |bs[k].arena[id].subs|
    requires bs[k].arena[id].subs[n] == Some(sub)
    ensures forall m | 0 <= m < |bs[k].arena[id].subs| && bs[k].arena[id].subs[m] == Some(sub) :: m == n
  {
    SlotsOwned(bs, ls, k, id, n, sub);
    forall m: nat | m < |bs[k].arena[id].subs| && bs[k].arena[id].subs[m] == Some(sub) ensures m == n {
      SlotsOwned(bs, ls, k, id, m, sub);
    }
  }

  /** The list that was looked up at `j` holds at `k` exactly subscriptions of its channel, and all that stayed. */
  lemma InTheList(bs: seq<Bus>, ls: seq<Label>, j: nat, k: nat, id: ListId, home: Home, sub: SubId)
    requires IsRun(bs, ls) && j <= k <= |ls| && Lookup(bs[j], home) == Some(id)
    ensures id < |bs[k].arena|
    ensures Joined(ls, j, home, sub) && Joined(ls, k, home, sub) ==>
      exists n: nat :: n < |bs[k].arena[id].subs| && bs[k].arena[id].subs[n] == Some(sub)
    ensures forall n: nat | n < |bs[k].arena[id].subs| && bs[k].arena[id].subs[n] == Some(sub) ::
      Joined(ls, k, home, sub)
  {
    Everywhere(bs, ls, j);
    Everywhere(bs, ls, k);
    HomeStays(bs, ls, j, k, id);
    HeldIffJoined(bs, ls, k, home, sub);
    if Joined(ls, j, home, sub) && Joined(ls, k, home, sub) {
      HeldIffJoined(bs, ls, j, home, sub);
      HeldInList(bs, ls, j, home, sub);
      ListStays(bs, ls, j, k, sub);
      assert SubAt(bs[k], sub);
    }
    forall n: nat | n < |bs[k].arena[id].subs| && bs[k].arena[id].subs[n] == Some(sub)
      ensures Joined(ls, k, home, sub)
    {
      assert SlotAt(bs[k], id, n);
    }
  }

  lemma HomeStep(b: Bus, l: Label, id: ListId)
    requires Invariant(b) && Enabled(b, l) && id < |b.arena|
    ensures id < |Next(b, l).arena| && id < |Next(b, l).homes| && Next(b, l).homes[id] == b.homes[id]
  {
  }

  lemma {:induction false} HomeStays(bs: seq<Bus>, ls: seq<Label>, j: nat, k: nat, id: ListId)
    requires IsRun(bs, ls) && j <= k <= |ls| && id < |bs[j].arena| == |bs[j].homes|
    ensures id < |bs[k].arena| && id < |bs[k].homes| && bs[k].homes[id] == bs[j].homes[id]
    decreases k
  {
    if j < k {
      HomeStays(bs, ls, j, k - 1, id);
      Everywhere(bs, ls, k - 1);
      HomeStep(bs[k - 1], ls[k - 1], id);
    }
  }

  /** A publisher dispatches to one queue subscription of its channel that is there when it dispatches, whenever some
      queue subscription was there when it looked up and still is. */
  lemma QueueDelivery(bs: seq<Bus>, ls: seq<Label>, j: nat, k: nat, t: Tid, c: Channel, turn: Turn, sub: SubId)
    requires IsRun(bs, ls) && j < k < |ls| && ls[j] == Publish(t, c) && ls[k] == DispatchQueue(t, turn)
    ensures t in bs[k].publishers && bs[k].publishers[t].queue.Some? && bs[k].publishers[t].queue.value < |bs[k].arena|
    ensures var subs := bs[k].arena[bs[k].publishers[t].queue.value].subs;
      && (turn.Chose? ==> turn.index < |subs| && subs[turn.index].Some? &&
                          Joined(ls, k, Home(c, true), subs[turn.index].value))
      && (Joined(ls, j, Home(c, true), sub) && Joined(ls, k, Home(c, true), sub) ==> turn.Chose?)
  {
    PublisherKeeps(bs, ls, j, k, t, c);
    assert Enabled(bs[k], ls[k]);
    var id := bs[k].publishers[t].queue.value;
    var subs := bs[k].arena[id].subs;
    InTheList(bs, ls, j, k, id, Home(c, true), sub);
    if turn.Chose? {
      var n: nat :| Spin(subs, bs[k].arena[id].next, bs[k].arena[id].next, n) == turn;
      SpinChoosesLive(subs, bs[k].arena[id].next, bs[k].arena[id].next, n);
      InTheList(bs, ls, j, k, id, Home(c, true), subs[turn.index].value);
    }
    if Joined(ls, j, Home(c, true), sub) && Joined(ls, k, Home(c, true), sub) {
      assert AtQueue(bs[k], t) && HasLive(subs);
      DispatchEnds(bs, ls, k, t);
    }
  }

  lemma {:induction false} SpinChoosesLive(subs: Slots, next: nat, start: nat, n: nat)
    requires subs != [] && Spin(subs, next, start, n).Chose?
    ensures Spin(subs, next, start, n).index < |subs| && subs[Spin(subs, next, start, n).index].Some?
    decreases n
  {
    if n > 0 && Iterate(subs, next, start).Running? {
      SpinChoosesLive(subs, Iterate(subs, next, start).next, start, n - 1);
    }
  }

  /** Only a queue dispatch moves the index of a list, and a new list starts at its first slot. */
  lemma IndexMoves(b: Bus, l: Label, id: ListId)
    requires Enabled(b, l) && id < |Next(b, l).arena|
    requires !(l.DispatchQueue? && b.publishers[l.t].queue == Some(id))
    ensures Next(b, l).arena[id].next == if id < |b.arena| then b.arena[id].next else 0
  {
  }

  /** A queue dispatch leaves the index behind the slot it chose, and the slots as they are. */
  lemma IndexAdvances(b: Bus, t: Tid, turn: Turn)
    requires Enabled(b, DispatchQueue(t, turn)) && HasLive(b.arena[b.publishers[t].queue.value].subs)
    ensures var id := b.publishers[t].queue.value; var b' := Next(b, DispatchQueue(t, turn));
      turn.Chose? && id < |b'.arena| && b'.arena[id] == b.arena[id].(next := turn.index + 1)
  {
    var l := b.arena[b.publishers[t].queue.value];
    var k: nat :| Spin(l.subs, l.next, l.next, k) == turn;
    DispatchChooses(l.subs, l.next, k);
  }

  lemma ClosedStep(b: Bus, l: Label, sub: SubId)
    requires Enabled(b, l)
    ensures InPhase(Next(b, l), sub, Closed) <==> InPhase(b, sub, Closed) || l == CloseChannel(sub)
  {
  }

  /** The message channel of a subscription is closed exactly when a step has closed it, and no step closes it twice. */
  lemma {:induction false} ClosedIff(bs: seq<Bus>, ls: seq<Label>, i: nat, sub: SubId)
    requires IsRun(bs, ls) && i <= |ls|
    ensures InPhase(bs[i], sub, Closed) <==> exists j: nat :: j < i && ls[j] == CloseChannel(sub)
    ensures i < |ls| && ls[i] == CloseChannel(sub) ==> !exists j: nat :: j < i && ls[j] == CloseChannel(sub)
  {
    if i > 0 {
      ClosedIff(bs, ls, i - 1, sub);
      ClosedStep(bs[i - 1], ls[i - 1], sub);
    }
    if i < |ls| {
      assert Enabled(bs[i], ls[i]);
    }
  }
}
