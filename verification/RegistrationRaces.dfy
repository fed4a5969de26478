/** Registrations and deregistrations that overlap (pkg/server/server.go).  A registration looks under the read lock,
    makes its subscriptions, counts itself and inserts its handler under the lock, each in a step of its own; closing a
    handler takes it out of the count and then removes whatever its key maps to. */
module RegistrationRaces {
  type Tid = string
  type Hid = string

  /** `looked` and `counted` are the registrations under way, with their keys; `keys` gives the key of every handler
      ever inserted; `found` are the handlers that some close has looked up, `finishing` those that have left the count
      and are still to remove their key, `closed` those that have done both. */
  datatype Server = Server(
    shut: bool,
    handlers: map<string, Hid>,
    active: int,
    looked: map<Tid, string>,
    counted: map<Tid, string>,
    keys: map<Hid, string>,
    found: set<Hid>,
    finishing: set<Hid>,
    closed: set<Hid>)

  const EMPTY := Server(false, map[], 0, map[], map[], map[], {}, {}, {})

  datatype Label =
    | Look(t: Tid, key: string)
    | Refuse(t: Tid)            // a subscription fails
    | Count(t: Tid)
    | Insert(t: Tid, h: Hid)
    | Find(h: Hid)              // DeregisterHandler or Close reads the map
    | Uncount(h: Hid)
    | Remove(h: Hid)
    | Shut

  /** A registration that finds the server closed or the key taken does nothing more. */
  predicate Enabled(s: Server, l: Label) {
    match l
    case Look(t, key) => t !in s.looked && t !in s.counted && !s.shut && key !in s.handlers
    case Refuse(t) => t in s.looked
    case Count(t) => t in s.looked && t !in s.counted
    case Insert(t, h) => t in s.counted && h !in s.keys
    case Find(h) => h in s.keys && s.keys[h] in s.handlers && s.handlers[s.keys[h]] == h
    case Uncount(h) => h in s.found && h in s.keys && h !in s.finishing && h !in s.closed
    case Remove(h) => h in s.finishing && h in s.keys
    case Shut => true
  }

  function Next(s: Server, l: Label): Server
    requires Enabled(s, l)
  {
    match l
    case Look(t, key) => s.(looked := s.looked[t := key])
    case Refuse(t) => s.(looked := s.looked - {t})
    case Count(t) =>
      s.(active := s.active + 1, looked := s.looked - {t}, counted := s.counted[t := s.looked[t]])
    case Insert(t, h) =>
      s.(handlers := s.handlers[s.counted[t] := h], counted := s.counted - {t}, keys := s.keys[h := s.counted[t]])
    case Find(h) => s.(found := s.found + {h})
    case Uncount(h) => s.(active := s.active - 1, finishing := s.finishing + {h})
    case Remove(h) =>
      s.(handlers := s.handlers - {s.keys[h]}, finishing := s.finishing - {h}, closed := s.closed + {h})
    case Shut => s.(shut := true)
  }

  ghost predicate IsRun(ss: seq<Server>, ls: seq<Label>) {
    && |ss| == |ls| + 1 && ss[0] == EMPTY
    && forall i | 0 <= i < |ls| :: Enabled(ss[i], ls[i]) && ss[i + 1] == Next(ss[i], ls[i])
  }

  // ---- the balance

  /** An insert that meets its key already present, and so displaces a handler. */
  predicate Meets(s: Server, l: Label)
    requires Enabled(s, l)
  {
    l.Insert? && s.counted[l.t] in s.handlers
  }

  /** A removal that finds its key gone. */
  predicate Misses(s: Server, l: Label)
    requires Enabled(s, l)
  {
    l.Remove? && s.keys[l.h] !in s.handlers
  }

  ghost function Met(ss: seq<Server>, ls: seq<Label>, i: nat): nat
    requires IsRun(ss, ls) && i <= |ls|
  {
    if i == 0 then 0 else Met(ss, ls, i - 1) + if Meets(ss[i - 1], ls[i - 1]) then 1 else 0
  }

  ghost function Missed(ss: seq<Server>, ls: seq<Label>, i: nat): nat
    requires IsRun(ss, ls) && i <= |ls|
  {
    if i == 0 then 0 else Missed(ss, ls, i - 1) + if Misses(ss[i - 1], ls[i - 1]) then 1 else 0
  }

  /** By how much the count exceeds the handlers, once the goroutines between two steps are allowed for. */
  function Excess(s: Server): int {
    s.active - |s.counted| - |s.handlers| + |s.finishing|
  }

  lemma Sizes(m: map<string, string>, k: string, v: string)
    ensures |m[k := v]| == |m| + if k in m then 0 else 1
    ensures |m - {k}| == |m| - if k in m then 1 else 0
  {
    assert m[k := v].Keys == m.Keys + {k} && (m - {k}).Keys == m.Keys - {k};
    assert |m[k := v]| == |m[k := v].Keys| && |m - {k}| == |(m - {k}).Keys| && |m| == |m.Keys|;
  }

  lemma InsertBalance(s: Server, l: Label)
    requires l.Insert? && Enabled(s, l)
    ensures Excess(Next(s, l)) == Excess(s) + if Meets(s, l) then 1 else 0
  {
    Sizes(s.handlers, s.counted[l.t], l.h);
    Sizes(s.counted, l.t, l.h);
  }

  lemma RemoveBalance(s: Server, l: Label)
    requires l.Remove? && Enabled(s, l)
    ensures Excess(Next(s, l)) == Excess(s) - if Misses(s, l) then 1 else 0
  {
    Sizes(s.handlers, s.keys[l.h], l.h);
    assert |s.finishing - {l.h}| == |s.finishing| - 1;
  }

  lemma StepBalance(s: Server, l: Label)
    requires Enabled(s, l)
    ensures Excess(Next(s, l)) == Excess(s) + (if Meets(s, l) then 1 else 0) - (if Misses(s, l) then 1 else 0)
  {
    match l
    case Count(t) => Sizes(s.counted, t, s.looked[t]);
    case Insert(t, h) => InsertBalance(s, l);
    case Remove(h) => RemoveBalance(s, l);
    case _ =>
  }

  /** In every run the count exceeds the number of handlers by the inserts that met their key, less the removals that
      missed theirs. */
  lemma {:induction false} Balance(ss: seq<Server>, ls: seq<Label>, i: nat)
    requires IsRun(ss, ls) && i <= |ls|
    ensures Excess(ss[i]) == Met(ss, ls, i) - Missed(ss, ls, i)
  {
    if i > 0 {
      Balance(ss, ls, i - 1);
      StepBalance(ss[i - 1], ls[i - 1]);
    }
  }

  /** Every handler that has not been closed is mapped under its key. */
  ghost predicate Mapped(s: Server) {
    && (forall h | h in s.finishing :: h in s.keys && h !in s.closed)
    && (forall h | h in s.keys && h !in s.closed :: s.keys[h] in s.handlers && s.handlers[s.keys[h]] == h)
  }

  lemma MappedKept(s: Server, l: Label)
    requires Mapped(s) && Enabled(s, l) && !Meets(s, l) && (l.Insert? ==> l.h !in s.closed)
    ensures Mapped(Next(s, l)) && !Misses(s, l)
  {
  }

  lemma ClosedStep(s: Server, l: Label)
    requires Enabled(s, l) && forall h | h in s.closed :: h in s.keys
    ensures forall h | h in Next(s, l).closed :: h in Next(s, l).keys
  {
  }

  lemma {:induction false} ClosedKnown(ss: seq<Server>, ls: seq<Label>, i: nat)
    requires IsRun(ss, ls) && i <= |ls|
    ensures forall h | h in ss[i].closed :: h in ss[i].keys
  {
    if i > 0 {
      ClosedKnown(ss, ls, i - 1);
      ClosedStep(ss[i - 1], ls[i - 1]);
    }
  }

  /** Before any insert has met its key, every open handler is mapped and no removal has missed. */
  lemma {:induction false} NothingDisplaced(ss: seq<Server>, ls: seq<Label>, i: nat)
    requires IsRun(ss, ls) && i <= |ls| && Met(ss, ls, i) == 0
    ensures Mapped(ss[i]) && Missed(ss, ls, i) == 0
  {
    if i > 0 {
      NothingDisplaced(ss, ls, i - 1);
      ClosedKnown(ss, ls, i - 1);
      MappedKept(ss[i - 1], ls[i - 1]);
    }
  }

  /** No goroutine is between counting and inserting, or between leaving the count and removing. */
  predicate Settled(s: Server) {
    s.counted == map[] && s.finishing == {}
  }

  /** Where nobody is half-way, the count is the number of handlers exactly when as many removals missed their key as
      inserts met theirs. */
  lemma CountIff(ss: seq<Server>, ls: seq<Label>, i: nat)
    requires IsRun(ss, ls) && i <= |ls| && Settled(ss[i])
    ensures ss[i].active == |ss[i].handlers| <==> Met(ss, ls, i) == Missed(ss, ls, i)
  {
    Balance(ss, ls, i);
  }

  /** A handler that is closed is the one its key maps to: no deregistration is overtaken by another registration of
      its key. */
  ghost predicate Prompt(ss: seq<Server>, ls: seq<Label>, n: nat)
    requires IsRun(ss, ls) && n <= |ls|
  {
    forall i | 0 <= i < n && ls[i].Remove? :: ss[i].keys[ls[i].h] in ss[i].handlers
  }

  lemma {:induction false} PromptMissesNothing(ss: seq<Server>, ls: seq<Label>, i: nat)
    requires IsRun(ss, ls) && i <= |ls| && Prompt(ss, ls, i)
    ensures Missed(ss, ls, i) == 0
  {
    if i > 0 {
      PromptMissesNothing(ss, ls, i - 1);
    }
  }

  /** The count is the number of handlers whenever no insert has met its key; where no deregistration was overtaken,
      only then. */
  lemma CountExact(ss: seq<Server>, ls: seq<Label>, i: nat)
    requires IsRun(ss, ls) && i <= |ls| && Settled(ss[i])
    ensures Met(ss, ls, i) == 0 ==> ss[i].active == |ss[i].handlers|
    ensures Prompt(ss, ls, i) ==> (ss[i].active == |ss[i].handlers| <==> Met(ss, ls, i) == 0)
  {
    CountIff(ss, ls, i);
    if Met(ss, ls, i) == 0 {
      NothingDisplaced(ss, ls, i);
    }
    if Prompt(ss, ls, i) {
      PromptMissesNothing(ss, ls, i);
    }
  }

  // ---- two runs

  /** The run ends in `s`, after `met` inserts that met their key. */
  ghost predicate RunTo(ss: seq<Server>, ls: seq<Label>, s: Server, met: nat) {
    IsRun(ss, ls) && ss[|ls|] == s && Met(ss, ls, |ls|) == met
  }

  lemma {:induction false} MetPrefix(ss: seq<Server>, ls: seq<Label>, ss': seq<Server>, ls': seq<Label>, i: nat)
    requires IsRun(ss, ls) && IsRun(ss', ls') && ss <= ss' && ls <= ls' && i <= |ls|
    ensures Met(ss', ls', i) == Met(ss, ls, i)
  {
    if i > 0 {
      MetPrefix(ss, ls, ss', ls', i - 1);
    }
  }

  lemma Extend(ss: seq<Server>, ls: seq<Label>, s: Server, met: nat, l: Label)
    returns (ss': seq<Server>, ls': seq<Label>)
    requires RunTo(ss, ls, s, met) && Enabled(s, l)
    ensures RunTo(ss', ls', Next(s, l), met + if Meets(s, l) then 1 else 0)
  {
    ss', ls' := ss + [Next(s, l)], ls + [l];
    MetPrefix(ss, ls, ss', ls', |ls|);
  }

  /** Two registrations of one key look, one inserts, and the other is about to insert. */
  lemma Overlap() returns (ss: seq<Server>, ls: seq<Label>)
    ensures RunTo(ss, ls, EMPTY.(active := 2, handlers := map["k" := "h1"], keys := map["h1" := "k"],
                                 counted := map["t2" := "k"]), 0)
  {
    ss, ls := Extend([EMPTY], [], EMPTY, 0, Look("t1", "k"));
    ss, ls := Extend(ss, ls, EMPTY.(looked := map["t1" := "k"]), 0, Look("t2", "k"));
    var s := EMPTY.(looked := map["t1" := "k", "t2" := "k"]);
    ss, ls := Extend(ss, ls, s, 0, Count("t1"));
    assert s.looked - {"t1"} == map["t2" := "k"];
    s := EMPTY.(active := 1, looked := map["t2" := "k"], counted := map["t1" := "k"]);
    ss, ls := Extend(ss, ls, s, 0, Insert("t1", "h1"));
    assert s.counted - {"t1"} == map[];
    s := EMPTY.(active := 1, looked := map["t2" := "k"], handlers := map["k" := "h1"], keys := map["h1" := "k"]);
    ss, ls := Extend(ss, ls, s, 0, Count("t2"));
    assert s.looked - {"t2"} == map[];
  }

  /** A run that ends with everybody at rest and a count that is too high. */
  lemma CountTooHigh()
    ensures exists ss: seq<Server>, ls: seq<Label> ::
      IsRun(ss, ls) && Settled(ss[|ls|]) && ss[|ls|].looked == map[] && ss[|ls|].active > |ss[|ls|].handlers|
  {
    var ss, ls := Overlap();
    var s := ss[|ls|];
    ss, ls := Extend(ss, ls, s, 0, Insert("t2", "h2"));
    assert s.counted - {"t2"} == map[];
    Sizes(s.handlers, "k", "h2");
    Sizes(map[], "k", "h1");
  }

  /** The same, with a close that has found the first handler before it is displaced and one that finds the second. */
  lemma Overtaken() returns (ss: seq<Server>, ls: seq<Label>)
    ensures RunTo(ss, ls, EMPTY.(active := 2, handlers := map["k" := "h2"], keys := map["h1" := "k", "h2" := "k"],
                                 found := {"h1", "h2"}), 1)
  {
    ss, ls := Overlap();
    var s := ss[|ls|];
    ss, ls := Extend(ss, ls, s, 0, Find("h1"));
    ss, ls := Extend(ss, ls, s.(found := {"h1"}), 0, Insert("t2", "h2"));
    assert s.counted - {"t2"} == map[];
    s := EMPTY.(active := 2, handlers := map["k" := "h2"], keys := map["h1" := "k", "h2" := "k"], found := {"h1"});
    ss, ls := Extend(ss, ls, s, 1, Find("h2"));
    assert {"h1"} + {"h2"} == {"h1", "h2"};
  }

  /** Why `CountExact` needs `Prompt` for its second half: a run in which an insert met its key and the count is right
      again in the end, since the close of the first handler removed the second one from the map. */
  lemma CountRecovers()
    ensures exists ss: seq<Server>, ls: seq<Label> ::
      IsRun(ss, ls) && Settled(ss[|ls|]) && Met(ss, ls, |ls|) == 1 && ss[|ls|].active == |ss[|ls|].handlers|
  {
    var ss, ls := Overtaken();
    var s := ss[|ls|];
    ss, ls := Extend(ss, ls, s, 1, Uncount("h1"));
    s := s.(active := 1, finishing := {"h1"});
    ss, ls := Extend(ss, ls, s, 1, Remove("h1"));
    assert s.handlers - {"k"} == map[];
    s := s.(handlers := map[], finishing := {}, closed := {"h1"});
    ss, ls := Extend(ss, ls, s, 1, Uncount("h2"));
    s := s.(active := 0, finishing := {"h2"});
    ss, ls := Extend(ss, ls, s, 1, Remove("h2"));
    assert s.handlers - {"k"} == map[];
  }

  lemma {:induction false} StaysShut(ss: seq<Server>, ls: seq<Label>, i: nat, j: nat)
    requires IsRun(ss, ls) && i <= j <= |ls| && ss[i].shut
    ensures ss[j].shut
    decreases j
  {
    if i < j {
      StaysShut(ss, ls, i, j - 1);
    }
  }

  /** Once the server is shut, no registration begins any more. */
  lemma ShutRefuses(ss: seq<Server>, ls: seq<Label>, i: nat, j: nat)
    requires IsRun(ss, ls) && i < j < |ls| && ls[i].Shut?
    ensures !ls[j].Look?
  {
    assert ss[i + 1].shut;
    StaysShut(ss, ls, i + 1, j);
    assert Enabled(ss[j], ls[j]);
  }

  /** A registration is under way from its look until it is refused or inserts its handler. */
  lemma UnderWay(s: Server, l: Label, t: Tid)
    requires Enabled(s, l)
    ensures t in Next(s, l).looked <==> (l.Look? && l.t == t) || (t in s.looked && l != Refuse(t) && l != Count(t))
    ensures t in Next(s, l).counted <==> l == Count(t) || (t in s.counted && !(l.Insert? && l.t == t))
  {
  }
}
