/** Every interleaving of subscribers, publishers and closers on the local bus (internal/bus/bus_local.go).  A
    publisher reads the lists under the bus lock and dispatches to them later, when they may have left the map. */
module LocalBus {
  import opened Options
  import opened LocalList
  import opened LocalDispatch

  type Channel = string
  type Tid = string
  /** A `*localSubList`: an index into `Bus.arena`. */
  type ListId = nat

  /** The map (plain or queue) and the key under which a list is kept. */
  datatype Home = Home(channel: Channel, queue: bool)

  /** `Close` cancels, then unsubscribes, then closes the message channel. */
  datatype Phase = Open | Cancelled | Unsubscribed | Closed

  /** A subscription: its list, the slot its close callback captured, and how far `Close` has come. */
  datatype Subscription = Subscription(list: ListId, index: nat, phase: Phase)

  /** The lists a publisher has still to dispatch to. */
  datatype Publisher = Publisher(plain: Option<ListId>, queue: Option<ListId>)

  datatype Bus = Bus(
    arena: seq<SubList>,
    homes: seq<Home>,
    lists: map<Home, ListId>,
    subs: map<SubId, Subscription>,
    publishers: map<Tid, Publisher>)

  const INIT := Bus([], [], map[], map[], map[])

  datatype Label =
    | Subscribe(home: Home, sub: SubId)
    | Cancel(sub: SubId)
    | Unsubscribe(sub: SubId)
    | CloseChannel(sub: SubId)
    | Publish(t: Tid, channel: Channel)
    | DispatchPlain(t: Tid)
    | DispatchQueue(t: Tid, turn: Turn)

  /** The queue dispatch of a list comes to `turn`. */
  ghost predicate Dispatches(l: SubList, turn: Turn) {
    if l.subs == [] then turn == GaveUp(l.next)
    else !turn.Running? && exists k: nat :: Spin(l.subs, l.next, l.next, k) == turn
  }

  predicate InPhase(b: Bus, sub: SubId, phase: Phase) {
    sub in b.subs && b.subs[sub].phase == phase
  }

  ghost predicate Enabled(b: Bus, l: Label) {
    match l
    case Subscribe(home, sub) =>
      sub !in b.subs && |b.homes| == |b.arena| && (home in b.lists ==> b.lists[home] < |b.arena|)
    case Cancel(sub) => InPhase(b, sub, Open)
    case Unsubscribe(sub) =>
      InPhase(b, sub, Cancelled) && b.subs[sub].list < |b.arena| && |b.homes| == |b.arena|
      && b.subs[sub].index < |b.arena[b.subs[sub].list].subs|
    case CloseChannel(sub) => InPhase(b, sub, Unsubscribed)
    case Publish(t, c) => t !in b.publishers
    case DispatchPlain(t) => t in b.publishers && b.publishers[t].plain.Some?
    case DispatchQueue(t, turn) =>
      t in b.publishers && b.publishers[t].plain.None? && b.publishers[t].queue.Some?
      && b.publishers[t].queue.value < |b.arena| && Dispatches(b.arena[b.publishers[t].queue.value], turn)
  }

  function Lookup(b: Bus, home: Home): Option<ListId> {
    if home in b.lists then Some(b.lists[home]) else None
  }

  ghost function Next(b: Bus, l: Label): Bus
    requires Enabled(b, l)
  {
    match l
    case Subscribe(home, sub) =>
      var id := if home in b.lists then b.lists[home] else |b.arena|;
      var arena := if home in b.lists then b.arena else b.arena + [SubList([], 0, home.queue, 0)];
      Bus(arena[id := Create(arena[id], sub)],
          if home in b.lists then b.homes else b.homes + [home],
          b.lists[home := id],
          b.subs[sub := Subscription(id, FirstFree(arena[id].subs), Open)],
          b.publishers)
    case Cancel(sub) => b.(subs := b.subs[sub := b.subs[sub].(phase := Cancelled)])
    case Unsubscribe(sub) =>
      var x := b.subs[sub];
      var list := Vacate(b.arena[x.list], x.index);
      b.(arena := b.arena[x.list := list],
         lists := if list.subCount == 0 then b.lists - {b.homes[x.list]} else b.lists,
         subs := b.subs[sub := x.(phase := Unsubscribed)])
    case CloseChannel(sub) => b.(subs := b.subs[sub := b.subs[sub].(phase := Closed)])
    case Publish(t, c) =>
      b.(publishers := b.publishers[t := Publisher(Lookup(b, Home(c, false)), Lookup(b, Home(c, true)))])
    case DispatchPlain(t) => b.(publishers := b.publishers[t := b.publishers[t].(plain := None)])
    case DispatchQueue(t, turn) =>
      var id := b.publishers[t].queue.value;
      b.(arena := b.arena[id := b.arena[id].(next := turn.next)],
         publishers := b.publishers[t := b.publishers[t].(queue := None)])
  }

  ghost predicate IsRun(bs: seq<Bus>, ls: seq<Label>) {
    && |bs| == |ls| + 1 && bs[0] == INIT
    && forall i | 0 <= i < |ls| :: Enabled(bs[i], ls[i]) && bs[i + 1] == Next(bs[i], ls[i])
  }

  // ---- the invariant

  /** Keys and lists belong together. */
  ghost predicate Housed(b: Bus) {
    && |b.homes| == |b.arena|
    && (forall h | h in b.lists :: b.lists[h] < |b.arena| && b.homes[b.lists[h]] == h)
    && (forall t | t in b.publishers ::
          && (b.publishers[t].plain.Some? ==> b.publishers[t].plain.value < |b.arena|)
          && (b.publishers[t].queue.Some? ==> b.publishers[t].queue.value < |b.arena|))
  }

  /** List `id` is counted right, its index is in range, and it is in its map exactly when it has a live slot. */
  ghost predicate ListAt(b: Bus, id: ListId) {
    id < |b.arena| && id < |b.homes| ==>
      var l := b.arena[id];
      && l.subs != [] && l.subCount == Live(l.subs) && l.next <= |l.subs| && l.queue == b.homes[id].queue
      && (Lookup(b, b.homes[id]) == Some(id) <==> Live(l.subs) > 0)
  }

  /** The subscription owns a slot until it unsubscribes. */
  predicate Holds(x: Subscription) {
    x.phase.Open? || x.phase.Cancelled?
  }

  /** A live slot belongs to the subscription that captured it, whose channel is not closed. */
  ghost predicate SlotAt(b: Bus, id: ListId, i: nat) {
    id < |b.arena| && i < |b.arena[id].subs| && b.arena[id].subs[i].Some? ==>
      var sub := b.arena[id].subs[i].value;
      sub in b.subs && Holds(b.subs[sub]) && b.subs[sub].list == id && b.subs[sub].index == i
  }

  /** A subscription that has not unsubscribed owns exactly the slot it captured. */
  ghost predicate SubAt(b: Bus, sub: SubId) {
    sub in b.subs && Holds(b.subs[sub]) ==>
      var x := b.subs[sub];
      x.list < |b.arena| && x.index < |b.arena[x.list].subs| && b.arena[x.list].subs[x.index] == Some(sub)
  }

  ghost predicate Invariant(b: Bus) {
    && Housed(b)
    && (forall id :: ListAt(b, id))
    && (forall id, i :: SlotAt(b, id, i))
    && (forall sub :: SubAt(b, sub))
  }

  lemma TurnInRange(l: SubList, turn: Turn)
    requires Dispatches(l, turn) && l.next <= |l.subs|
    ensures turn.next <= |l.subs|
  {
    if l.subs != [] {
      var k: nat :| Spin(l.subs, l.next, l.next, k) == turn;
      SpinInRange(l.subs, l.next, l.next, k);
    }
  }

  lemma {:induction false} SpinInRange(subs: Slots, next: nat, start: nat, k: nat)
    requires subs != [] && next <= |subs|
    ensures Spin(subs, next, start, k).next <= |subs|
    decreases k
  {
    if k > 0 {
      var t := Iterate(subs, next, start);
      if t.Running? {
        SpinInRange(subs, t.next, start, k - 1);
      }
    }
  }

  lemma HousedKept(b: Bus, l: Label)
    requires Invariant(b) && Enabled(b, l)
    ensures Housed(Next(b, l))
  {
  }

  /** A subscriber joins a list that is in the map. */
  lemma JoinKeepsList(b: Bus, l: Label, id: ListId)
    requires l.Subscribe? && l.home in b.lists && Invariant(b) && Enabled(b, l)
    ensures ListAt(Next(b, l), id)
  {
    var n := b.lists[l.home];
    var before := b.arena[n].subs;
    var free := FirstFree(before);
    if free < |before| {
      LiveUpdate(before, free, Some(l.sub));
    } else {
      LiveAppend(before, Some(l.sub));
    }
    assert ListAt(b, n) && ListAt(b, id);
  }

  lemma JoinKeeps(b: Bus, l: Label, id: ListId, i: nat, sub: SubId)
    requires l.Subscribe? && l.home in b.lists && Invariant(b) && Enabled(b, l)
    ensures ListAt(Next(b, l), id) && SlotAt(Next(b, l), id, i) && SubAt(Next(b, l), sub)
  {
    JoinKeepsList(b, l, id);
    assert ListAt(b, id) && SlotAt(b, id, i) && SubAt(b, sub);
  }

  /** A subscriber opens a new list. */
  lemma OpenKeeps(b: Bus, l: Label, id: ListId, i: nat, sub: SubId)
    requires l.Subscribe? && l.home !in b.lists && Invariant(b) && Enabled(b, l)
    ensures ListAt(Next(b, l), id) && SlotAt(Next(b, l), id, i) && SubAt(Next(b, l), sub)
  {
    var b', n := Next(b, l), |b.arena|;
    assert b'.arena[n] == SubList([Some(l.sub)], 1, l.home.queue, 0);
    assert ListAt(b, id) && SlotAt(b, id, i) && SubAt(b, sub);
    if id < n {
      assert b'.arena[id] == b.arena[id] && b'.homes[id] == b.homes[id];
      assert b.homes[id] == l.home ==> Lookup(b, l.home) != Some(id);
    }
  }

  lemma UnsubscribeKeeps(b: Bus, l: Label, id: ListId, i: nat, sub: SubId)
    requires l.Unsubscribe? && Invariant(b) && Enabled(b, l)
    ensures ListAt(Next(b, l), id) && SlotAt(Next(b, l), id, i) && SubAt(Next(b, l), sub)
  {
    var x := b.subs[l.sub];
    assert SubAt(b, l.sub) && ListAt(b, x.list) && ListAt(b, id) && SlotAt(b, id, i) && SubAt(b, sub);
    assert SlotAt(b, x.list, x.index);
    LiveUpdate(b.arena[x.list].subs, x.index, None);
  }

  lemma OtherKeeps(b: Bus, l: Label, id: ListId, i: nat, sub: SubId)
    requires !l.Subscribe? && !l.Unsubscribe? && Invariant(b) && Enabled(b, l)
    ensures ListAt(Next(b, l), id) && SlotAt(Next(b, l), id, i) && SubAt(Next(b, l), sub)
  {
    assert ListAt(b, id) && SlotAt(b, id, i) && SubAt(b, sub);
    if l.DispatchQueue? {
      var n := b.publishers[l.t].queue.value;
      assert ListAt(b, n);
      TurnInRange(b.arena[n], l.turn);
    }
  }

  lemma StepKeeps(b: Bus, l: Label, id: ListId, i: nat, sub: SubId)
    requires Invariant(b) && Enabled(b, l)
    ensures ListAt(Next(b, l), id) && SlotAt(Next(b, l), id, i) && SubAt(Next(b, l), sub)
  {
    if l.Subscribe? && l.home in b.lists {
      JoinKeeps(b, l, id, i, sub);
    } else if l.Subscribe? {
      OpenKeeps(b, l, id, i, sub);
    } else if l.Unsubscribe? {
      UnsubscribeKeeps(b, l, id, i, sub);
    } else {
      OtherKeeps(b, l, id, i, sub);
    }
  }

  lemma EveryStep(b: Bus, l: Label)
    requires Invariant(b) && Enabled(b, l)
    ensures Invariant(Next(b, l))
  {
    HousedKept(b, l);
    forall id ensures ListAt(Next(b, l), id) {
      StepKeeps(b, l, id, 0, "");
    }
    forall id, i ensures SlotAt(Next(b, l), id, i) {
      StepKeeps(b, l, id, i, "");
    }
    forall sub ensures SubAt(Next(b, l), sub) {
      StepKeeps(b, l, 0, 0, sub);
    }
  }

  lemma {:induction false} Everywhere(bs: seq<Bus>, ls: seq<Label>, i: nat)
    requires IsRun(bs, ls) && i <= |ls|
    ensures Invariant(bs[i])
  {
    if i > 0 {
      Everywhere(bs, ls, i - 1);
      EveryStep(bs[i - 1], ls[i - 1]);
    }
  }
}
