/** The subscriber list of internal/bus/bus_local.go as a class: its loops, on its fields. */
module LocalSubList {
  import opened Options
  import opened LocalList
  import opened LocalDispatch

  class LocalSubList {
    var subs: seq<Option<SubId>>
    var subCount: int
    var queue: bool
    var next: nat

    function State(): SubList
      reads this
    {
      SubList(subs, subCount, queue, next)
    }

    constructor (queue: bool)
      ensures State() == SubList([], 0, queue, 0)
    {
      subs, subCount, this.queue, next := [], 0, queue, 0;
    }

    /** `index` is what the close callback of the new subscriber captures. */
    method Create(sub: SubId) returns (index: nat)
      modifies this`subs, this`subCount
      ensures index == FirstFree(old(subs)) && State() == LocalList.Create(old(State()), sub)
      ensures index < |subs| && subs[index] == Some(sub)
    {
      subCount := subCount + 1;
      var added := false;
      index := 0;
      var i := 0;
      while i < |subs| && !added
        invariant 0 <= i <= |old(subs)|
        invariant !added ==> subs == old(subs) && forall k :: 0 <= k < i ==> subs[k].Some?
        invariant added ==> index == FirstFree(old(subs)) < |old(subs)| && subs == old(subs)[index := Some(sub)]
        invariant added ==> i == index
        decreases |old(subs)| - i, !added
        modifies this`subs
      {
        if subs[i].None? {
          FreeIs(subs, i);
          added := true;
          index := i;
          subs := subs[i := Some(sub)];
        } else {
          i := i + 1;
        }
      }
      if !added {
        FreeIs(subs, |subs|);
        index := |subs|;
        subs := subs + [Some(sub)];
      }
    }

    method Vacate(index: nat)
      requires index < |subs|
      modifies this`subs, this`subCount
      ensures State() == LocalList.Vacate(old(State()), index)
    {
      subs := subs[index := None];
      subCount := subCount - 1;
    }

    /** The queue branch of `dispatch`: which subscriber gets the message.  It needs what `HaltsIff` asks for. */
    method DispatchQueue() returns (chosen: Option<nat>)
      requires subs == [] || HasLive(subs) || 1 <= next <= |subs|
      modifies this`next
      ensures subs == [] ==> chosen.None? && next == old(next)
      ensures HasLive(subs) ==> chosen.Some? && FirstLive(subs, old(next), chosen.value) && next == chosen.value + 1
      ensures subs != [] && !HasLive(subs) ==> chosen.None? && next == old(next)
    {
      chosen := None;
      if |subs| == 0 {
        return;
      }
      var start := next;
      HaltsIff(subs, start);
      ghost var bound: nat :| !Spin(subs, start, start, bound).Running?;
      ghost var k: nat := 0;
      while true
        invariant Spin(subs, start, start, k) == Running(next)
        decreases bound - k
        modifies this`next
      {
        if k >= bound {
          SpinStays(subs, start, start, bound, k);
        }
        SpinOnce(subs, start, start, k);
        k := k + 1;
        if next >= |subs| {
          next := 0;
        }
        var s := subs[next];
        next := next + 1;
        if s.Some? {
          DispatchChooses(subs, start, k);
          chosen := Some(next - 1);
          return;
        }
        if next == start {
          if HasLive(subs) {
            DispatchChooses(subs, start, k);
          }
          return;
        }
      }
    }

    /** The broadcast branch of `dispatch`: everybody live gets the message, in slot order. */
    method DispatchAll() returns (chosen: seq<SubId>)
      ensures chosen == LiveSubs(subs) && exists ks :: LiveSlots(subs, ks, chosen)
    {
      chosen := [];
      for i := 0 to |subs|
        invariant chosen == LiveSubs(subs[..i])
      {
        assert subs[..i + 1] == subs[..i] + [subs[i]];
        LiveSubsAppend(subs[..i], subs[i]);
        if subs[i].Some? {
          chosen := chosen + [subs[i].value];
        }
      }
      assert subs[..|subs|] == subs;
      ghost var ks := LiveSubsAre(subs);
    }
  }

  lemma {:induction false} FreeIs(subs: seq<Option<SubId>>, i: nat)
    requires i <= |subs| && (i < |subs| ==> subs[i].None?) && forall k :: 0 <= k < i ==> subs[k].Some?
    ensures FirstFree(subs) == i
  {
    if subs != [] && i > 0 {
      FreeIs(subs[1..], i - 1);
    }
  }
}
