/** The queue dispatch loop of the local bus: one iteration at a time, and what it comes to. */
module LocalDispatch {
  import opened Options
  import opened LocalList

  type Slots = seq<Option<SubId>>

  /** The loop after some iterations: still running, done with a subscriber, or done with none. */
  datatype Turn =
    | Running(next: nat)
    | Chose(index: nat, next: nat)
    | GaveUp(next: nat)

  /** One iteration, entered with `next`; the loop started at `start`. */
  function Iterate(subs: Slots, next: nat, start: nat): Turn
    requires subs != []
  {
    var i := if next >= |subs| then 0 else next;
    if subs[i].Some? then Chose(i, i + 1)
    else if i + 1 == start then GaveUp(i + 1)
    else Running(i + 1)
  }

  /** At most `k` iterations. */
  function Spin(subs: Slots, next: nat, start: nat, k: nat): Turn
    requires subs != []
    decreases k
  {
    if k == 0 then Running(next)
    else
      var t := Iterate(subs, next, start);
      if t.Running? then Spin(subs, t.next, start, k - 1) else t
  }

  /** The loop ends. */
  ghost predicate Halts(subs: Slots, next: nat)
    requires subs != []
  {
    exists k: nat :: !Spin(subs, next, next, k).Running?
  }

  /** The slot that lies `j` places after the start, around the end of the list. */
  function Around(n: nat, start: nat, j: nat): nat {
    var s := if start >= n then 0 else start;
    if s + j < n then s + j else s + j - n
  }

  /** `i` is the first live slot in cyclic order from `start`. */
  ghost predicate FirstLive(subs: Slots, start: nat, i: nat) {
    exists j: nat ::
      && j < |subs| && i == Around(|subs|, start, j) && i < |subs| && subs[i].Some?
      && forall k: nat | k < j :: Around(|subs|, start, k) < |subs| && subs[Around(|subs|, start, k)].None?
  }

  /** The loop, `j` empty slots after its start. */
  lemma {:induction false} SpinFrom(subs: Slots, start: nat, j: nat, d: nat)
    requires subs != [] && d < |subs| && j <= d
    requires forall k: nat | k < d :: subs[Around(|subs|, start, k)].None?
    requires subs[Around(|subs|, start, d)].Some?
    ensures var i := Around(|subs|, start, d);
      Spin(subs, if j == 0 then start else Around(|subs|, start, j - 1) + 1, start, d - j + 1) == Chose(i, i + 1)
    decreases d - j
  {
    if j < d {
      SpinFrom(subs, start, j + 1, d);
    }
  }

  /** With a live slot the loop ends within one turn, at the first live slot in cyclic order. */
  lemma ChoosesFirstLive(subs: Slots, start: nat, d: nat)
    requires subs != [] && d < |subs|
    requires forall k: nat | k < d :: subs[Around(|subs|, start, k)].None?
    requires subs[Around(|subs|, start, d)].Some?
    ensures Spin(subs, start, start, d + 1) == Chose(Around(|subs|, start, d), Around(|subs|, start, d) + 1)
    ensures FirstLive(subs, start, Around(|subs|, start, d))
  {
    SpinFrom(subs, start, 0, d);
  }

  /** A live slot has a first one before it. */
  lemma {:induction false} SomeFirst(subs: Slots, start: nat, j: nat) returns (d: nat)
    requires subs != [] && j < |subs|
    requires exists k: nat | k < |subs| :: subs[Around(|subs|, start, k)].Some?
    requires forall k: nat | k < j :: subs[Around(|subs|, start, k)].None?
    ensures d < |subs| && subs[Around(|subs|, start, d)].Some?
    ensures forall k: nat | k < d :: subs[Around(|subs|, start, k)].None?
    decreases |subs| - j
  {
    if subs[Around(|subs|, start, j)].Some? {
      d := j;
    } else {
      d := SomeFirst(subs, start, j + 1);
    }
  }

  /** Without a live slot the loop can only stop where it started. */
  lemma {:induction false} SpinEmpty(subs: Slots, next: nat, start: nat, k: nat)
    requires subs != [] && !HasLive(subs) && (start == 0 || start > |subs|)
    ensures Spin(subs, next, start, k).Running?
    decreases k
  {
    if k > 0 {
      var i := if next >= |subs| then 0 else next;
      assert subs[i].None?;
      SpinEmpty(subs, i + 1, start, k - 1);
    }
  }

  lemma {:induction false} SpinAround(subs: Slots, start: nat, next: nat, k: nat)
    requires subs != [] && !HasLive(subs) && 1 <= start <= |subs| && next <= |subs|
    requires k == if next < start then start - next else |subs| - next + start
    ensures Spin(subs, next, start, k) == GaveUp(start)
    decreases k
  {
    var i := if next >= |subs| then 0 else next;
    assert subs[i].None?;
    if i + 1 != start {
      SpinAround(subs, start, i + 1, k - 1);
    }
  }

  /** The loop ends exactly when some slot is live or it starts at an index from 1 to the length of the list. */
  lemma HaltsIff(subs: Slots, next: nat)
    requires subs != []
    ensures Halts(subs, next) <==> HasLive(subs) || 1 <= next <= |subs|
  {
    if HasLive(subs) {
      var i :| 0 <= i < |subs| && subs[i].Some?;
      var s := if next >= |subs| then 0 else next;
      assert i == Around(|subs|, next, if i >= s then i - s else i - s + |subs|);
      var d := SomeFirst(subs, next, 0);
      ChoosesFirstLive(subs, next, d);
      assert !Spin(subs, next, next, d + 1).Running?;
    } else if 1 <= next <= |subs| {
      SpinAround(subs, next, next, |subs|);
      assert !Spin(subs, next, next, |subs|).Running?;
    } else {
      forall k: nat ensures Spin(subs, next, next, k).Running? {
        SpinEmpty(subs, next, next, k);
      }
    }
  }

  /** More iterations do not change an end. */
  lemma {:induction false} SpinStays(subs: Slots, next: nat, start: nat, k: nat, m: nat)
    requires subs != [] && k <= m && !Spin(subs, next, start, k).Running?
    ensures Spin(subs, next, start, m) == Spin(subs, next, start, k)
    decreases k
  {
    var t := Iterate(subs, next, start);
    if t.Running? {
      SpinStays(subs, t.next, start, k - 1, m - 1);
    }
  }

  lemma {:induction false} SpinOnce(subs: Slots, next: nat, start: nat, k: nat)
    requires subs != [] && Spin(subs, next, start, k).Running?
    ensures Spin(subs, next, start, k + 1) == Iterate(subs, Spin(subs, next, start, k).next, start)
    decreases k
  {
    if k > 0 {
      SpinOnce(subs, Iterate(subs, next, start).next, start, k - 1);
    }
  }

  /** A loop over a list with a live slot never gives up, and chooses the first live slot from its start. */
  lemma DispatchChooses(subs: Slots, next: nat, k: nat)
    requires HasLive(subs) && !Spin(subs, next, next, k).Running?
    ensures var t := Spin(subs, next, next, k);
      t.Chose? && FirstLive(subs, next, t.index) && t.next == t.index + 1 <= |subs|
  {
    var i :| 0 <= i < |subs| && subs[i].Some?;
    var s := if next >= |subs| then 0 else next;
    assert i == Around(|subs|, next, if i >= s then i - s else i - s + |subs|);
    var d := SomeFirst(subs, next, 0);
    ChoosesFirstLive(subs, next, d);
    if k <= d + 1 {
      SpinStays(subs, next, next, k, d + 1);
    } else {
      SpinStays(subs, next, next, d + 1, k);
    }
  }

  /** There is only one first live slot. */
  lemma FirstLiveUnique(subs: Slots, start: nat, i: nat, i': nat)
    requires FirstLive(subs, start, i) && FirstLive(subs, start, i')
    ensures i == i'
  {
  }
}
