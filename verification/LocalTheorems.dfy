/** What holds in every reachable state of the local bus. */
module LocalTheorems {
  import opened Options
  import opened LocalList
  import opened LocalDispatch
  import opened LocalBus

  /** A list is in its map exactly when it has a live slot, and its count is the number of live slots. */
  lemma ListsRepresent(bs: seq<Bus>, ls: seq<Label>, i: nat, id: ListId)
    requires IsRun(bs, ls) && i <= |ls| && id < |bs[i].arena|
    ensures |bs[i].homes| == |bs[i].arena|
    ensures Lookup(bs[i], bs[i].homes[id]) == Some(id) <==> HasLive(bs[i].arena[id].subs)
    ensures bs[i].arena[id].subCount == Live(bs[i].arena[id].subs)
  {
    Everywhere(bs, ls, i);
    assert ListAt(bs[i], id);
    LivePositive(bs[i].arena[id].subs);
  }

  /** A slot holds a subscription exactly while that subscription has not unsubscribed, in the slot its close callback
      captured; so a live slot never holds a closed channel, whoever still refers to its list. */
  lemma SlotsOwned(bs: seq<Bus>, ls: seq<Label>, i: nat, id: ListId, n: nat, sub: SubId)
    requires IsRun(bs, ls) && i <= |ls| && id < |bs[i].arena| && n < |bs[i].arena[id].subs|
    ensures bs[i].arena[id].subs[n] == Some(sub) <==>
      sub in bs[i].subs && bs[i].subs[sub].list == id && bs[i].subs[sub].index == n
      && !bs[i].subs[sub].phase.Unsubscribed? && !bs[i].subs[sub].phase.Closed?
  {
    Everywhere(bs, ls, i);
    assert SlotAt(bs[i], id, n) && SubAt(bs[i], sub);
  }

  /** A publisher about to dispatch to a queue list. */
  predicate AtQueue(b: Bus, t: Tid) {
    t in b.publishers && b.publishers[t].plain.None? && b.publishers[t].queue.Some?
  }

  /** A queue dispatch ends exactly when its list has a live slot or has dispatched before; while the list is in its
      map it ends, with the first live slot in cyclic order. */
  lemma DispatchEnds(bs: seq<Bus>, ls: seq<Label>, i: nat, t: Tid)
    requires IsRun(bs, ls) && i <= |ls| && AtQueue(bs[i], t)
    ensures bs[i].publishers[t].queue.value < |bs[i].arena| == |bs[i].homes|
    ensures var l := bs[i].arena[bs[i].publishers[t].queue.value];
      && ((exists turn :: Enabled(bs[i], DispatchQueue(t, turn))) <==> HasLive(l.subs) || l.next >= 1)
      && (forall turn :: Enabled(bs[i], DispatchQueue(t, turn)) && HasLive(l.subs) ==>
            turn.Chose? && FirstLive(l.subs, l.next, turn.index))
      && (Lookup(bs[i], bs[i].homes[bs[i].publishers[t].queue.value]) == Some(bs[i].publishers[t].queue.value) ==>
            HasLive(l.subs))
  {
    Everywhere(bs, ls, i);
    var id := bs[i].publishers[t].queue.value;
    var l := bs[i].arena[id];
    assert ListAt(bs[i], id);
    LivePositive(l.subs);
    HaltsIff(l.subs, l.next);
    if HasLive(l.subs) || l.next >= 1 {
      var k: nat :| !Spin(l.subs, l.next, l.next, k).Running?;
      assert Enabled(bs[i], DispatchQueue(t, Spin(l.subs, l.next, l.next, k)));
    }
    forall turn | Enabled(bs[i], DispatchQueue(t, turn)) && HasLive(l.subs)
      ensures turn.Chose? && FirstLive(l.subs, l.next, turn.index)
    {
      var k: nat :| Spin(l.subs, l.next, l.next, k) == turn;
      DispatchChooses(l.subs, l.next, k);
    }
  }

  /** Some publisher holds the lock of a queue list and loops for ever. */
  ghost predicate Hangs(b: Bus) {
    exists t :: AtQueue(b, t) && forall turn :: !Enabled(b, DispatchQueue(t, turn))
  }

  /** That can happen: the only subscriber of a queue leaves between a publisher's lookup and its first dispatch. */
  lemma HangReachable()
    ensures exists bs: seq<Bus>, ls: seq<Label> :: IsRun(bs, ls) && Hangs(bs[|ls|])
  {
    var home := Home("c", true);
    var bs, ls := Extend([INIT], [], Subscribe(home, "s"));
    assert Create(SubList([], 0, true, 0), "s") == SubList([Some("s")], 1, true, 0);
    assert bs[|ls|].arena[0] == SubList([Some("s")], 1, true, 0);
    bs, ls := Extend(bs, ls, Publish("t", "c"));
    bs, ls := Extend(bs, ls, Cancel("s"));
    bs, ls := Extend(bs, ls, Unsubscribe("s"));
    var b := bs[|ls|];
    assert b.arena[0].subs == [None];
    HaltsIff(b.arena[0].subs, 0);
    assert AtQueue(b, "t") && forall turn :: !Enabled(b, DispatchQueue("t", turn));
  }

  lemma Extend(bs: seq<Bus>, ls: seq<Label>, l: Label) returns (bs': seq<Bus>, ls': seq<Label>)
    requires IsRun(bs, ls) && Enabled(bs[|ls|], l)
    ensures IsRun(bs', ls') && |ls'| == |ls| + 1 && bs'[|ls'|] == Next(bs[|ls|], l)
  {
    bs', ls' := bs + [Next(bs[|ls|], l)], ls + [l];
  }
}
