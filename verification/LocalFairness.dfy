/** Round robin: over consecutive queue dispatches with unchanged membership every live subscriber gets its share, in
    the slot lists of the local bus and in the dense lists of the Redis bus. */
module LocalFairness {
  import opened Options
  import opened LocalList
  import opened LocalDispatch
  import RedisBus

  /** The number of live slots before `p`. */
  function Rank(subs: Slots, p: nat): nat {
    Live(if p <= |subs| then subs[..p] else subs)
  }

  lemma RankNext(subs: Slots, p: nat)
    requires p < |subs|
    ensures Rank(subs, p + 1) == Rank(subs, p) + (if subs[p].Some? then 1 else 0)
  {
    assert subs[..p + 1] == subs[..p] + [subs[p]];
    LiveAppend(subs[..p], subs[p]);
  }

  lemma {:induction false} RankMonotonic(subs: Slots, a: nat, b: nat)
    requires a <= b <= |subs|
    ensures Rank(subs, a) <= Rank(subs, b)
    ensures (forall k :: a <= k < b ==> subs[k].None?) ==> Rank(subs, a) == Rank(subs, b)
    decreases b - a
  {
    if a < b {
      RankNext(subs, b - 1);
      RankMonotonic(subs, a, b - 1);
    }
  }

  lemma RankEnds(subs: Slots)
    ensures Rank(subs, 0) == 0 && Rank(subs, |subs|) == Live(subs)
  {
    assert subs[..|subs|] == subs;
  }

  lemma RankDistinct(subs: Slots, a: nat, b: nat)
    requires a < |subs| && b < |subs| && subs[a].Some? && subs[b].Some?
    ensures Rank(subs, a) == Rank(subs, b) ==> a == b
    ensures Rank(subs, a) < Live(subs)
  {
    RankNext(subs, a);
    RankNext(subs, b);
    RankEnds(subs);
    RankMonotonic(subs, a + 1, |subs|);
    if a < b {
      RankMonotonic(subs, a + 1, b);
    } else if b < a {
      RankMonotonic(subs, b + 1, a);
    }
  }

  /** The rank of the slot that is next. */
  function Turnstile(subs: Slots, next: nat): nat {
    if Rank(subs, next) == Live(subs) then 0 else Rank(subs, next)
  }

  lemma PickRank(subs: Slots, next: nat, i: nat)
    requires FirstLive(subs, next, i)
    ensures i < |subs| && subs[i].Some? && Rank(subs, i) == Turnstile(subs, next)
  {
    var n := |subs|;
    var j: nat :| j < n && i == Around(n, next, j) && i < n && subs[i].Some?
      && forall k: nat | k < j :: Around(n, next, k) < n && subs[Around(n, next, k)].None?;
    var s := if next >= n then 0 else next;
    RankEnds(subs);
    RankDistinct(subs, i, i);
    if s + j < n {
      forall k | s <= k < i ensures subs[k].None? {
        assert Around(n, next, k - s) == k;
      }
      RankMonotonic(subs, s, i);
    } else {
      forall k | s <= k < n ensures subs[k].None? {
        assert Around(n, next, k - s) == k;
      }
      forall k | 0 <= k < i ensures subs[k].None? {
        assert Around(n, next, k + n - s) == k;
      }
      RankMonotonic(subs, s, n);
      RankMonotonic(subs, 0, i);
    }
  }

  lemma PickExists(subs: Slots, next: nat)
    requires HasLive(subs)
    ensures exists i: nat :: FirstLive(subs, next, i)
  {
    HaltsIff(subs, next);
    var k: nat :| !Spin(subs, next, next, k).Running?;
    DispatchChooses(subs, next, k);
  }

  /** The slots that `n` consecutive dispatches choose. */
  ghost function Picks(subs: Slots, next: nat, n: nat): seq<nat>
    requires HasLive(subs)
    decreases n
  {
    if n == 0 then []
    else
      PickExists(subs, next);
      var i: nat :| FirstLive(subs, next, i);
      [i] + Picks(subs, i + 1, n - 1)
  }

  function Count(s: seq<nat>, x: nat): nat {
    if s == [] then 0 else (if s[0] == x then 1 else 0) + Count(s[1..], x)
  }

  /** The rank after `r` among `m`. */
  function After(r: nat, m: nat): nat {
    if r + 1 == m then 0 else r + 1
  }

  /** How often rank `j` is met in `n` places from rank `r`. */
  function Met(r: nat, m: nat, n: nat, j: nat): nat
    decreases n
  {
    if n == 0 then 0 else (if r == j then 1 else 0) + Met(After(r, m), m, n - 1, j)
  }

  lemma {:induction false} CountIsMet(subs: Slots, next: nat, n: nat, slot: nat)
    requires slot < |subs| && subs[slot].Some? && HasLive(subs)
    ensures Count(Picks(subs, next, n), slot) == Met(Turnstile(subs, next), Live(subs), n, Rank(subs, slot))
    decreases n
  {
    if n > 0 {
      PickExists(subs, next);
      var i: nat :| FirstLive(subs, next, i) && Picks(subs, next, n) == [i] + Picks(subs, i + 1, n - 1);
      PickRank(subs, next, i);
      RankNext(subs, i);
      RankDistinct(subs, i, slot);
      CountIsMet(subs, i + 1, n - 1, slot);
      assert ([i] + Picks(subs, i + 1, n - 1))[1..] == Picks(subs, i + 1, n - 1);
    }
  }

  /** The rank `n` places after `r`, for `n <= m`. */
  function Ahead(r: nat, m: nat, n: nat): nat
    requires r < m && n <= m
  {
    if r + n < m then r + n else r + n - m
  }

  /** Fewer than `m` places meet no rank twice; `m` places meet each rank once. */
  lemma {:induction false} MetInTurn(r: nat, m: nat, n: nat, j: nat)
    requires r < m && j < m && n <= m
    ensures Met(r, m, n, j) == if Distance(r, m, j) < n then 1 else 0
    decreases n
  {
    if n > 0 {
      MetInTurn(After(r, m), m, n - 1, j);
    }
  }

  function Distance(r: nat, m: nat, j: nat): nat
    requires r < m && j < m
  {
    if j >= r then j - r else j + m - r
  }

  lemma {:induction false} MetSplit(r: nat, m: nat, n: nat, k: nat, j: nat)
    requires r < m && n <= m
    ensures Met(r, m, n + k, j) == Met(r, m, n, j) + Met(Ahead(r, m, n), m, k, j)
    decreases n
  {
    if n > 0 {
      MetSplit(After(r, m), m, n - 1, k, j);
      assert Ahead(After(r, m), m, n - 1) == Ahead(r, m, n);
    }
  }

  lemma {:induction false} MetShare(r: nat, m: nat, q: nat, rest: nat, j: nat)
    requires r < m && j < m && rest < m
    ensures q <= Met(r, m, q * m + rest, j) <= q + (if rest > 0 then 1 else 0)
    decreases q
  {
    if q == 0 {
      MetInTurn(r, m, rest, j);
    } else {
      var k := (q - 1) * m + rest;
      assert q * m + rest == m + k;
      MetSplit(r, m, m, k, j);
      MetInTurn(r, m, m, j);
      MetShare(r, m, q - 1, rest, j);
    }
  }

  /** Of `q * m + rest` dispatches to `m` live slots, each live slot gets `q`, or `q + 1` when the division does not
      come out even. */
  lemma Fair(subs: Slots, next: nat, slot: nat, q: nat, rest: nat)
    requires HasLive(subs) && slot < |subs| && subs[slot].Some? && rest < Live(subs)
    ensures var n := q * Live(subs) + rest;
      q <= Count(Picks(subs, next, n), slot) <= q + (if rest > 0 then 1 else 0)
  {
    CountIsMet(subs, next, q * Live(subs) + rest, slot);
    RankDistinct(subs, slot, slot);
    LivePositive(subs);
    assert Turnstile(subs, next) < Live(subs) by {
      if next <= |subs| {
        RankEnds(subs);
        RankMonotonic(subs, next, |subs|);
      }
    }
    MetShare(Turnstile(subs, next), Live(subs), q, rest, Rank(subs, slot));
  }

  // ---- the Redis bus

  function Dense(n: nat): (s: Slots)
    ensures |s| == n && forall i :: 0 <= i < n ==> s[i].Some?
  {
    seq(n, _ => Some(""))
  }

  /** The positions that `n` consecutive dispatches of a Redis list choose. */
  function RedisPicks(l: RedisBus.SubList, n: nat): seq<nat>
    requires l.subs != []
    decreases n
  {
    if n == 0 then [] else [RedisBus.Chosen(l)] + RedisPicks(RedisBus.DispatchQueue(l), n - 1)
  }

  lemma {:induction false} RedisIsDense(l: RedisBus.SubList, n: nat)
    requires l.subs != []
    ensures HasLive(Dense(|l.subs|)) && RedisPicks(l, n) == Picks(Dense(|l.subs|), l.next, n)
    decreases n
  {
    var subs := Dense(|l.subs|);
    assert subs[0].Some?;
    if n > 0 {
      assert Around(|subs|, l.next, 0) == RedisBus.Chosen(l);
      assert FirstLive(subs, l.next, RedisBus.Chosen(l));
      PickExists(subs, l.next);
      var i: nat :| FirstLive(subs, l.next, i) && Picks(subs, l.next, n) == [i] + Picks(subs, i + 1, n - 1);
      FirstLiveUnique(subs, l.next, i, RedisBus.Chosen(l));
      RedisIsDense(RedisBus.DispatchQueue(l), n - 1);
    }
  }

  lemma {:induction false} DenseLive(subs: Slots)
    requires forall i :: 0 <= i < |subs| ==> subs[i].Some?
    ensures Live(subs) == |subs|
  {
    if subs != [] {
      DenseLive(subs[1..]);
    }
  }

  /** Of `q * m + rest` dispatches to the `m` subscribers of a Redis list, each gets `q`, or `q + 1` when the division
      does not come out even. */
  lemma RedisFair(l: RedisBus.SubList, i: nat, q: nat, rest: nat)
    requires i < |l.subs| && rest < |l.subs|
    ensures q <= Count(RedisPicks(l, q * |l.subs| + rest), i) <= q + (if rest > 0 then 1 else 0)
  {
    RedisIsDense(l, q * |l.subs| + rest);
    DenseLive(Dense(|l.subs|));
    Fair(Dense(|l.subs|), l.next, i, q, rest);
  }
}
