/** A subscriber list of the local bus (internal/bus/bus_local.go): slots that are reused, a count of the live ones,
    and a round-robin index. */
module LocalList {
  import opened Options

  type SubId = string

  datatype SubList = SubList(subs: seq<Option<SubId>>, subCount: int, queue: bool, next: nat)

  function Live(subs: seq<Option<SubId>>): nat {
    if subs == [] then 0 else (if subs[0].Some? then 1 else 0) + Live(subs[1..])
  }

  predicate HasLive(subs: seq<Option<SubId>>) {
    exists i :: 0 <= i < |subs| && subs[i].Some?
  }

  lemma {:induction false} LiveUpdate(subs: seq<Option<SubId>>, i: nat, x: Option<SubId>)
    requires i < |subs|
    ensures Live(subs[i := x]) == Live(subs) - (if subs[i].Some? then 1 else 0) + (if x.Some? then 1 else 0)
  {
    if i > 0 {
      assert subs[i := x][1..] == subs[1..][i - 1 := x];
      LiveUpdate(subs[1..], i - 1, x);
    }
  }

  lemma {:induction false} LiveAppend(subs: seq<Option<SubId>>, x: Option<SubId>)
    ensures Live(subs + [x]) == Live(subs) + (if x.Some? then 1 else 0)
  {
    if subs == [] {
      assert subs + [x] == [x];
    } else {
      assert (subs + [x])[1..] == subs[1..] + [x];
      LiveAppend(subs[1..], x);
    }
  }

  lemma {:induction false} LivePositive(subs: seq<Option<SubId>>)
    ensures Live(subs) > 0 <==> HasLive(subs)
  {
    if subs != [] {
      LivePositive(subs[1..]);
      if HasLive(subs[1..]) {
        var i :| 0 <= i < |subs[1..]| && subs[1..][i].Some?;
        assert subs[i + 1].Some?;
      }
      if HasLive(subs) && !subs[0].Some? {
        var i :| 0 <= i < |subs| && subs[i].Some?;
        assert subs[1..][i - 1].Some?;
      }
    }
  }

  /** The first empty slot, or the length of the list. */
  function FirstFree(subs: seq<Option<SubId>>): (i: nat)
    ensures i <= |subs|
    ensures i < |subs| ==> subs[i].None?
    ensures forall k :: 0 <= k < i ==> subs[k].Some?
  {
    if subs == [] || subs[0].None? then 0 else 1 + FirstFree(subs[1..])
  }

  /** The subscribers in the live slots, in slot order. */
  function LiveSubs(subs: seq<Option<SubId>>): seq<SubId> {
    if subs == [] then [] else (if subs[0].Some? then [subs[0].value] else []) + LiveSubs(subs[1..])
  }

  lemma Concat(a: seq<SubId>, b: seq<SubId>, c: seq<SubId>)
    ensures a + (b + c) == a + b + c
  {
  }

  lemma {:induction false} LiveSubsAppend(subs: seq<Option<SubId>>, x: Option<SubId>)
    ensures LiveSubs(subs + [x]) == LiveSubs(subs) + (if x.Some? then [x.value] else [])
  {
    if subs == [] {
      assert subs + [x] == [x];
    } else {
      assert (subs + [x])[1..] == subs[1..] + [x];
      LiveSubsAppend(subs[1..], x);
      Concat(if subs[0].Some? then [subs[0].value] else [], LiveSubs(subs[1..]), if x.Some? then [x.value] else []);
    }
  }

  /** `chosen` are the subscribers in the live slots, whose positions are `ks`. */
  ghost predicate LiveSlots(subs: seq<Option<SubId>>, ks: seq<nat>, chosen: seq<SubId>) {
    && |ks| == |chosen|
    && (forall i | 0 <= i < |ks| :: ks[i] < |subs| && subs[ks[i]] == Some(chosen[i]))
    && (forall i, j | 0 <= i < j < |ks| :: ks[i] < ks[j])
    && (forall k: nat | k < |subs| && subs[k].Some? :: k in ks)
  }

  lemma {:induction false} LiveSubsAre(subs: seq<Option<SubId>>) returns (ks: seq<nat>)
    ensures LiveSlots(subs, ks, LiveSubs(subs))
  {
    if subs == [] {
      ks := [];
    } else {
      var n := |subs| - 1;
      ks := LiveSubsAre(subs[..n]);
      LiveSubsAppend(subs[..n], subs[n]);
      assert subs[..n] + [subs[n]] == subs;
      if subs[n].Some? {
        ks := ks + [n];
      }
    }
  }

  /** `create`: the new subscriber takes the first empty slot, or a new one. */
  function Create(l: SubList, sub: SubId): SubList {
    var i := FirstFree(l.subs);
    l.(subs := if i < |l.subs| then l.subs[i := Some(sub)] else l.subs + [Some(sub)], subCount := l.subCount + 1)
  }

  /** The list part of `onUnsubscribe`. */
  function Vacate(l: SubList, i: nat): SubList
    requires i < |l.subs|
  {
    l.(subs := l.subs[i := None], subCount := l.subCount - 1)
  }
}
