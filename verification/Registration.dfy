/** Registering handlers, one at a time and in groups (pkg/server/server.go, pkg/server/registration.go), run without
    concurrent registration. */
module Registration {
  import opened Options

  datatype Error = ServerClosed | HandlerExists | SubscribeFailed

  /** The bus subscriptions that a handler holds. */
  datatype Handler = Handler(requests: nat, claims: Option<nat>)
  {
    function Subs(): set<nat> {
      {requests} + if claims.Some? then {claims.value} else {}
    }
  }

  /** Which of the two subscriptions of a new handler the bus refuses. */
  datatype Fault = Works | FirstFails | SecondFails

  /** A member of a group: its handler key, whether it uses claims, and how the bus behaves. */
  datatype Member = Member(key: string, claims: bool, fault: Fault)
  {
    predicate Refused() {
      fault.FirstFails? || (claims && fault.SecondFails?)
    }
  }

  /** `open` is the set of subscriptions open at the bus, `next` the next one to be made. */
  datatype Server = Server(shut: bool, handlers: map<string, Handler>, active: nat, open: set<nat>, next: nat)

  ghost predicate Held(handlers: map<string, Handler>, id: nat) {
    exists k | k in handlers :: id in handlers[k].Subs()
  }

  ghost predicate Apart(handlers: map<string, Handler>) {
    forall k, l | k in handlers && l in handlers && k != l :: handlers[k].Subs() !! handlers[l].Subs()
  }

  ghost predicate OpenAre(handlers: map<string, Handler>, open: set<nat>) {
    forall id: nat :: id in open <==> Held(handlers, id)
  }

  ghost predicate Below(open: set<nat>, next: nat) {
    forall id | id in open :: id < next
  }

  /** The count is the number of handlers, and exactly their subscriptions are open. */
  ghost predicate Valid(s: Server) {
    s.active == |s.handlers| && OpenAre(s.handlers, s.open) && Apart(s.handlers) && Below(s.open, s.next)
  }

  // ---- one handler

  predicate Accepts(s: Server, m: Member) {
    !s.shut && m.key !in s.handlers && !m.Refused()
  }

  function Made(s: Server, m: Member): Handler {
    Handler(s.next, if m.claims then Some(s.next + 1) else None)
  }

  function Insert(s: Server, m: Member): Server {
    var h := Made(s, m);
    s.(handlers := s.handlers[m.key := h], active := s.active + 1, open := s.open + h.Subs(), next := s.next + 2)
  }

  function Refusal(s: Server, m: Member): Option<Error> {
    if s.shut then Some(ServerClosed)
    else if m.key in s.handlers then Some(HandlerExists)
    else if m.Refused() then Some(SubscribeFailed)
    else None
  }

  function Remove(s: Server, key: string): Server
    requires s.active > 0 || key !in s.handlers
  {
    if key !in s.handlers then s
    else s.(handlers := s.handlers - {key}, active := s.active - 1, open := s.open - s.handlers[key].Subs())
  }

  lemma InsertOpen(handlers: map<string, Handler>, open: set<nat>, key: string, h: Handler)
    requires OpenAre(handlers, open) && Apart(handlers) && key !in handlers && h.Subs() !! open
    ensures OpenAre(handlers[key := h], open + h.Subs()) && Apart(handlers[key := h])
  {
    var after := handlers[key := h];
    forall id: nat ensures id in open + h.Subs() <==> Held(after, id) {
      assert id in h.Subs() ==> key in after && id in after[key].Subs();
      if Held(handlers, id) {
        var k :| k in handlers && id in handlers[k].Subs();
        assert k in after && id in after[k].Subs();
      }
    }
    forall k | k in handlers ensures handlers[k].Subs() !! h.Subs() {
      forall id | id in handlers[k].Subs() ensures id in open { assert Held(handlers, id); }
    }
  }

  lemma NewKey(handlers: map<string, Handler>, key: string, h: Handler)
    requires key !in handlers
    ensures |handlers[key := h]| == |handlers| + 1
  {
    assert handlers[key := h].Keys == handlers.Keys + {key};
    assert |handlers[key := h].Keys| == |handlers[key := h]| && |handlers.Keys| == |handlers|;
  }

  lemma FreshSubs(open: set<nat>, next: nat, h: Handler)
    requires Below(open, next) && h.requests == next && (h.claims.Some? ==> h.claims.value == next + 1)
    ensures h.Subs() !! open && Below(open + h.Subs(), next + 2)
  {
  }

  lemma InsertValid(s: Server, m: Member)
    requires Valid(s) && m.key !in s.handlers
    ensures Valid(Insert(s, m))
  {
    var h, t := Made(s, m), Insert(s, m);
    FreshSubs(s.open, s.next, h);
    InsertOpen(s.handlers, s.open, m.key, h);
    NewKey(s.handlers, m.key, h);
    assert t.handlers == s.handlers[m.key := h] && t.open == s.open + h.Subs() && t.next == s.next + 2;
  }

  lemma Counted(s: Server, key: string)
    requires Valid(s)
    ensures s.active > 0 || key !in s.handlers
  {
    if key in s.handlers {
      assert key in s.handlers.Keys && |s.handlers.Keys| == |s.handlers|;
    }
  }

  lemma RemoveOpen(handlers: map<string, Handler>, open: set<nat>, key: string)
    requires OpenAre(handlers, open) && Apart(handlers) && key in handlers
    ensures OpenAre(handlers - {key}, open - handlers[key].Subs()) && Apart(handlers - {key})
  {
    var after := handlers - {key};
    forall id: nat ensures id in open - handlers[key].Subs() <==> Held(after, id) {
      if id in open - handlers[key].Subs() {
        var k :| k in handlers && id in handlers[k].Subs();
        assert k in after && id in after[k].Subs();
      }
      if Held(after, id) {
        var k :| k in after && id in after[k].Subs();
        assert k in handlers && id in handlers[k].Subs();
      }
    }
  }

  lemma RemoveValid(s: Server, key: string)
    requires Valid(s) && (s.active > 0 || key !in s.handlers)
    ensures Valid(Remove(s, key))
  {
    if key in s.handlers {
      RemoveOpen(s.handlers, s.open, key);
      assert (s.handlers - {key}).Keys == s.handlers.Keys - {key};
      assert |s.handlers - {key}| == |(s.handlers - {key}).Keys| == |s.handlers.Keys| - 1;
    }
  }

  lemma SameKey(handlers: map<string, Handler>, key: string, h: Handler)
    requires key in handlers
    ensures |handlers[key := h]| == |handlers|
  {
    assert handlers[key := h].Keys == handlers.Keys;
    assert |handlers[key := h].Keys| == |handlers[key := h]| && |handlers.Keys| == |handlers|;
  }

  /** Inserting a handler keeps the count right exactly when its key is not taken. */
  lemma InsertValidIff(s: Server, m: Member)
    requires Valid(s)
    ensures Valid(Insert(s, m)) <==> m.key !in s.handlers
  {
    if m.key in s.handlers {
      SameKey(s.handlers, m.key, Made(s, m));
    } else {
      InsertValid(s, m);
    }
  }

  /** Two registrations of one key that both look before either inserts leave the count too high: the reason why
      registrations must not run concurrently.  Module `RegistrationRaces` interleaves them. */
  lemma CheckedTwice(s: Server, m: Member)
    requires Valid(s) && Accepts(s, m)
    ensures Valid(Insert(s, m)) && !Valid(Insert(Insert(s, m), m))
  {
    InsertValidIff(s, m);
    InsertValidIff(Insert(s, m), m);
  }

  // ---- groups

  function Keys(ms: seq<Member>): set<string> {
    if ms == [] then {} else Keys(ms[..|ms| - 1]) + {ms[|ms| - 1].key}
  }

  /** The handlers left after the members of a list are deregistered. */
  ghost predicate Removed(before: map<string, Handler>, ms: seq<Member>, after: map<string, Handler>) {
    after == before - Keys(ms)
  }

  /** The handlers after the members of a list are registered: only theirs are added. */
  ghost predicate Added(before: map<string, Handler>, ms: seq<Member>, after: map<string, Handler>) {
    Keys(ms) !! before.Keys && after.Keys == before.Keys + Keys(ms) && forall k | k in before :: after[k] == before[k]
  }

  /** The first `n` members can be registered when their keys are new and different and the bus refuses none of them. */
  ghost predicate Registrable(s: Server, ms: seq<Member>, n: nat)
    requires n <= |ms|
  {
    (n > 0 ==> !s.shut) &&
    (forall i | 0 <= i < n :: ms[i].key !in s.handlers && !ms[i].Refused()) &&
    forall i, j | 0 <= i < j < n :: ms[i].key != ms[j].key
  }

  /** What two servers share when only the subscription counter may differ. */
  ghost predicate Same(s: Server, t: Server) {
    t == s.(next := t.next)
  }

  lemma KeysNext(ms: seq<Member>, i: nat)
    requires i < |ms|
    ensures Keys(ms[..i + 1]) == Keys(ms[..i]) + {ms[i].key}
  {
    assert ms[..i + 1][..i] == ms[..i];
  }

  lemma {:induction false} KeysOf(ms: seq<Member>, i: nat, key: string)
    requires i <= |ms|
    ensures key in Keys(ms[..i]) <==> exists j :: 0 <= j < i && ms[j].key == key
  {
    if i > 0 {
      KeysNext(ms, i - 1);
      KeysOf(ms, i - 1, key);
    }
  }

  /** Valid servers with the same handlers have the same count and the same open subscriptions. */
  lemma HandlersDetermine(s: Server, t: Server)
    requires Valid(s) && Valid(t) && s.handlers == t.handlers && s.shut == t.shut
    ensures Same(s, t)
  {
    assert forall id: nat :: id in s.open <==> id in t.open;
    assert s.open == t.open;
  }

  /** Registering and then deregistering a list changes nothing. */
  lemma Undone(s: Server, ms: seq<Member>, t: Server, u: Server)
    requires Valid(s) && Valid(u) && s.shut == u.shut
    requires Added(s.handlers, ms, t.handlers) && Removed(t.handlers, ms, u.handlers)
    ensures Same(s, u)
  {
    assert t.handlers - Keys(ms) == s.handlers;
    HandlersDetermine(s, u);
  }

  lemma AddedNext(before: map<string, Handler>, ms: seq<Member>, i: nat, mid: map<string, Handler>, h: Handler)
    requires i < |ms| && Added(before, ms[..i], mid)
    ensures ms[i].key !in mid ==> Added(before, ms[..i + 1], mid[ms[i].key := h])
  {
    KeysNext(ms, i);
  }

  lemma RemovedNext(before: map<string, Handler>, ms: seq<Member>, i: nat, mid: map<string, Handler>)
    requires i < |ms| && Removed(before, ms[..i], mid)
    ensures Removed(before, ms[..i + 1], if ms[i].key in mid then mid - {ms[i].key} else mid)
  {
    KeysNext(ms, i);
    var keys, key := Keys(ms[..i]), ms[i].key;
    assert before - (keys + {key}) == before - keys - {key};
  }

  /** After a registrable prefix, the next member is accepted exactly when the prefix with it is registrable. */
  lemma NextAccepted(s: Server, ms: seq<Member>, i: nat, t: Server)
    requires i < |ms| && Registrable(s, ms, i) && t.shut == s.shut && t.handlers.Keys == s.handlers.Keys + Keys(ms[..i])
    ensures Accepts(t, ms[i]) <==> Registrable(s, ms, i + 1)
  {
    KeysOf(ms, i, ms[i].key);
  }

  /** The first `i` members are registered. */
  ghost predicate Progress(s: Server, ms: seq<Member>, i: nat, t: Server)
    requires i <= |ms|
  {
    t.shut == s.shut && Added(s.handlers, ms[..i], t.handlers) && Registrable(s, ms, i)
  }

  lemma ProgressNext(s: Server, ms: seq<Member>, i: nat, t: Server)
    requires i < |ms| && Progress(s, ms, i, t)
    ensures if Accepts(t, ms[i]) then Progress(s, ms, i + 1, Insert(t, ms[i])) else !Registrable(s, ms, |ms|)
  {
    NextAccepted(s, ms, i, t);
    AddedNext(s.handlers, ms, i, t.handlers, Made(t, ms[i]));
  }

  /** Member `i` is the first that cannot be registered, for the reason that the error gives. */
  ghost predicate Blames(s: Server, ms: seq<Member>, i: nat, e: Error) {
    && i < |ms| && Registrable(s, ms, i)
    && match e
       case ServerClosed => s.shut
       case HandlerExists => !s.shut && (ms[i].key in s.handlers || exists j :: 0 <= j < i && ms[j].key == ms[i].key)
       case SubscribeFailed => !s.shut && ms[i].Refused()
  }

  lemma Blamed(s: Server, ms: seq<Member>, i: nat, t: Server, e: Error)
    requires i < |ms| && Progress(s, ms, i, t) && Refusal(t, ms[i]) == Some(e)
    ensures Blames(s, ms, i, e)
  {
    KeysOf(ms, i, ms[i].key);
  }

  // ---- the code

  class RPCServer {
    var shut: bool
    var handlers: map<string, Handler>
    var active: nat
    var open: set<nat>
    var next: nat

    function State(): Server
      reads this
    {
      Server(shut, handlers, active, open, next)
    }

    constructor ()
      ensures Valid(State()) && !shut && handlers == map[]
    {
      shut, handlers, active, open, next := false, map[], 0, {}, 0;
    }

    /** Subscribes at the bus. */
    method Subscribe(fails: bool) returns (sub: Option<nat>)
      modifies this`open, this`next
      ensures next == old(next) + 1
      ensures if fails then sub == None && open == old(open)
        else sub == Some(old(next)) && open == old(open) + {old(next)}
    {
      sub := if fails then None else Some(next);
      open := if fails then open else open + {next};
      next := next + 1;
    }

    /** newRPCHandler and newStreamRPCHandler: a first subscription is closed again when the second one fails. */
    method NewHandler(m: Member) returns (h: Option<Handler>)
      requires next !in open && next + 1 !in open
      modifies this`open, this`next
      ensures h.Some? <==> !m.Refused()
      ensures h.Some? ==> h.value == Made(old(State()), m) && open == old(open) + h.value.Subs()
      ensures h.None? ==> open == old(open)
      ensures next == old(next) + 2
      // one new subscription for requests, and another one for claims when the method uses them
      ensures h.Some? ==> h.value.requests !in old(open) && (h.value.claims.Some? <==> m.claims)
      ensures h.Some? && m.claims ==> h.value.claims.value !in old(open) && h.value.claims.value != h.value.requests
    {
      var first := Subscribe(m.fault.FirstFails?);
      if first.None? {
        next := next + 1;
        return None;
      }
      var second: Option<nat> := None;
      if m.claims {
        second := Subscribe(m.fault.SecondFails?);
        if second.None? {
          open := open - {first.value};
          return None;
        }
      } else {
        next := next + 1;
      }
      h := Some(Handler(first.value, second));
    }

    /** RegisterHandler and RegisterStreamHandler. */
    method RegisterHandler(m: Member) returns (err: Option<Error>)
      requires Valid(State())
      modifies this
      ensures Valid(State()) && err == Refusal(old(State()), m)
      ensures if err.None? then State() == Insert(old(State()), m) else Same(old(State()), State())
      ensures shut == old(shut) && (err.None? <==> Accepts(old(State()), m))
      ensures err == Some(ServerClosed) <==> old(shut)
      ensures err == Some(HandlerExists) <==> !old(shut) && m.key in old(handlers)
      ensures err == Some(SubscribeFailed) <==> !old(shut) && m.key !in old(handlers) && m.Refused()
      ensures err.None? ==> m.key in handlers && (handlers[m.key].claims.Some? <==> m.claims)
    {
      if shut {
        return Some(ServerClosed);
      }
      if m.key in handlers {
        return Some(HandlerExists);
      }
      ghost var s := State();
      var h := NewHandler(m);
      if h.None? {
        return Some(SubscribeFailed);
      }
      active := active + 1;
      handlers := handlers[m.key := h.value];
      InsertValid(s, m);
      err := None;
    }

    /** DeregisterHandler: closes the handler's subscriptions and removes it. */
    method DeregisterHandler(key: string)
      requires Valid(State())
      modifies this
      ensures Valid(State()) && (old(active) > 0 || key !in old(handlers)) && State() == Remove(old(State()), key)
    {
      ghost var s := State();
      Counted(s, key);
      if key in handlers {
        open := open - handlers[key].Subs();
        active := active - 1;
        handlers := handlers - {key};
      }
      assert State() == Remove(s, key);
      RemoveValid(s, key);
    }

    /** RegistererSlice.Deregister. */
    method Deregister(ms: seq<Member>)
      requires Valid(State())
      modifies this
      ensures Valid(State()) && Removed(old(handlers), ms, handlers) && shut == old(shut)
    {
      assert old(handlers) - {} == old(handlers);
      for i := 0 to |ms|
        invariant Valid(State()) && Removed(old(handlers), ms[..i], handlers) && shut == old(shut)
      {
        RemovedNext(old(handlers), ms, i, handlers);
        DeregisterHandler(ms[i].key);
      }
      assert ms[..|ms|] == ms;
    }

    /** RegistererSlice.Register: every member is registered, or nothing has changed. */
    method Register(ms: seq<Member>) returns (err: Option<Error>)
      requires Valid(State())
      modifies this
      ensures Valid(State()) && shut == old(shut)
      ensures err.None? <==> Registrable(old(State()), ms, |ms|)
      ensures err.None? ==> Added(old(handlers), ms, handlers)
      ensures err.Some? ==> Same(old(State()), State()) && exists i :: Blames(old(State()), ms, i, err.value)
    {
      ghost var s := State();
      for i := 0 to |ms|
        invariant Valid(State()) && Progress(s, ms, i, State())
      {
        ghost var t := State();
        ProgressNext(s, ms, i, t);
        err := RegisterHandler(ms[i]);
        if err.Some? {
          Blamed(s, ms, i, t, err.value);
          Deregister(ms[..i]);
          Undone(s, ms[..i], t, State());
          return;
        }
      }
      assert ms[..|ms|] == ms;
      err := None;
    }

    /** Close: the first call removes every handler, and later registrations fail. */
    method Close()
      requires Valid(State())
      modifies this
      ensures Valid(State()) && shut
      ensures if old(shut) then State() == old(State()) else handlers == map[] && active == 0 && open == {}
    {
      if !shut {
        shut := true;
        var keys := handlers.Keys;
        while keys != {}
          invariant Valid(State()) && shut && keys == handlers.Keys
          decreases |keys|
        {
          var key :| key in keys;
          keys := keys - {key};
          DeregisterHandler(key);
        }
      }
    }
  }
}
