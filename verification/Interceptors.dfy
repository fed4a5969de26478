/** Chained interceptors: ChainServerInterceptors and ChainClientInterceptors (internal/interceptors/interceptor.go). */
module Interceptors {
  import opened Options

  type Req = string
  type Res = string

  /** What happens in a call of the chain. */
  datatype Event = Enter(position: nat, req: Req) | Handled(req: Req, res: Res) | Exit(position: nat, res: Res)
  type Log = seq<Event>

  /** An interceptor either calls its handler or returns; `act` decides from its request, the number of calls it has
      made and everything that happened so far. `limit` bounds the calls of one invocation, so that it ends. */
  datatype Action = Invoke(req: Req) | Return(res: Res)
  datatype Interceptor = Interceptor(limit: nat, act: (Req, nat, Log) -> Action, final: (Req, Log) -> Res)
  {
    function Act(req: Req, calls: nat, log: Log): Action {
      if calls < limit then act(req, calls, log) else Return(final(req, log))
    }

    /** Calls its handler at most once. */
    ghost predicate Once() {
      forall req, calls, log | calls > 0 :: Act(req, calls, log).Return?
    }
  }

  /** The handler at the end of the chain, which may keep state of its own. */
  type Handler = (Req, Log) -> Res

  /** A handler as an interceptor sees it: what is returned, and the log afterwards. */
  type Next = (Req, Log) -> (Res, Log)

  // ---- the meaning of a chain: a right fold

  function Interpret(it: Interceptor, j: nat, next: Next, req: Req, calls: nat, log: Log): (Res, Log)
    decreases it.limit - calls
  {
    match it.Act(req, calls, log)
    case Return(res) => (res, log + [Exit(j, res)])
    case Invoke(inner) => Interpret(it, j, next, req, calls + 1, next(inner, log).1)
  }

  function Wrap(it: Interceptor, j: nat, next: Next): Next {
    (req, log) => Interpret(it, j, next, req, 0, log + [Enter(j, req)])
  }

  function Base(handler: Handler): Next {
    (req, log) => (handler(req, log), log + [Handled(req, handler(req, log))])
  }

  /** The handler that the interceptor before position `j` is given. */
  function Fold(its: seq<Interceptor>, j: nat, handler: Handler): Next
    requires j <= |its|
    decreases |its| - j
  {
    if j == |its| then Base(handler) else Wrap(its[j], j, Fold(its, j + 1, handler))
  }

  // ---- the chain with its shared counter

  /** A call of `state.next` with counter `i`: the result, the counter and the log afterwards. */
  function CallNext(its: seq<Interceptor>, handler: Handler, req: Req, i: nat, log: Log): (r: (Res, nat, Log))
    requires i < |its|
    ensures i <= r.1 < |its| && (i < |its| - 1 ==> i < r.1)
    decreases |its| - 1 - i, |its|, 0
  {
    if i == |its| - 1 then
      var (res, log') := Wrap(its[i], i, Base(handler))(req, log);
      (res, i, log')
    else
      Body(its, handler, i, req, 0, i + 1, log + [Enter(i, req)])
  }

  /** The rest of interceptor `j`, which has made `calls` calls. */
  function Body(its: seq<Interceptor>, handler: Handler, j: nat, req: Req, calls: nat, i: nat, log: Log)
    : (r: (Res, nat, Log))
    requires j < i < |its|
    ensures i <= r.1 < |its|
    decreases |its| - 1 - i, |its| + 1, its[j].limit - calls
  {
    match its[j].Act(req, calls, log)
    case Return(res) => (res, i, log + [Exit(j, res)])
    case Invoke(inner) =>
      var (res, i', log') := CallNext(its, handler, inner, i, log);
      Body(its, handler, j, req, calls + 1, i', log')
  }

  // ---- counting

  function Entries(log: Log, j: nat): nat {
    if log == [] then 0
    else Entries(log[..|log| - 1], j) + match log[|log| - 1] case Enter(k, _) => (if k == j then 1 else 0) case _ => 0
  }

  lemma EntriesOne(log: Log, e: Event, j: nat)
    ensures Entries(log + [e], j) == Entries(log, j) + if e.Enter? && e.position == j then 1 else 0
  {
    assert (log + [e])[..|log|] == log;
  }

  /** `later` has at least the entries of `log`. */
  ghost predicate Grows(log: Log, later: Log) {
    forall j :: Entries(log, j) <= Entries(later, j)
  }

  lemma GrowsOne(log: Log, e: Event)
    ensures Grows(log, log + [e])
  {
    forall j ensures Entries(log, j) <= Entries(log + [e], j) { EntriesOne(log, e, j); }
  }

  ghost predicate Growing(next: Next) {
    forall req, log :: Grows(log, next(req, log).1)
  }

  lemma {:induction false} InterpretGrows(it: Interceptor, j: nat, next: Next, req: Req, calls: nat, log: Log)
    requires Growing(next)
    ensures Grows(log, Interpret(it, j, next, req, calls, log).1)
    decreases it.limit - calls
  {
    match it.Act(req, calls, log)
    case Return(res) => GrowsOne(log, Exit(j, res));
    case Invoke(inner) => InterpretGrows(it, j, next, req, calls + 1, next(inner, log).1);
  }

  lemma {:induction false} FoldGrows(its: seq<Interceptor>, j: nat, handler: Handler)
    requires j <= |its|
    ensures Growing(Fold(its, j, handler))
    decreases |its| - j
  {
    if j < |its| {
      FoldGrows(its, j + 1, handler);
    }
    forall req, log ensures Grows(log, Fold(its, j, handler)(req, log).1) {
      if j == |its| {
        GrowsOne(log, Handled(req, handler(req, log)));
      } else {
        GrowsOne(log, Enter(j, req));
        InterpretGrows(its[j], j, Fold(its, j + 1, handler), req, 0, log + [Enter(j, req)]);
      }
    }
  }

  /** Every interceptor below the counter but the last has been entered. */
  ghost predicate Entered(n: nat, i: nat, log: Log) {
    forall m | 0 <= m < i && m < n - 1 :: Entries(log, m) >= 1
  }

  /** No interceptor but the last is entered twice. */
  ghost predicate NoRepeat(n: nat, log: Log) {
    forall m | 0 <= m < n - 1 :: Entries(log, m) <= 1
  }

  /** Where nothing is entered twice, a call through the counter is a call of the fold. */
  lemma {:induction false} SameCall(its: seq<Interceptor>, handler: Handler, req: Req, i: nat, log: Log)
    requires i < |its| && Entered(|its|, i, log)
    requires NoRepeat(|its|, Fold(its, i, handler)(req, log).1)
    ensures var (res, i', log') := CallNext(its, handler, req, i, log);
      Fold(its, i, handler)(req, log) == (res, log') && Entered(|its|, i', log')
    decreases |its| - 1 - i, |its|, 0
  {
    var n := |its|;
    if i == n - 1 {
      assert Fold(its, n, handler) == Base(handler);
      FoldGrows(its, i, handler);
    } else {
      var start := log + [Enter(i, req)];
      forall m | 0 <= m < i + 1 && m < n - 1 ensures Entries(start, m) >= 1 { EntriesOne(log, Enter(i, req), m); }
      SameBody(its, handler, i, req, 0, i + 1, start);
    }
  }

  lemma {:induction false} SameBody(its: seq<Interceptor>, handler: Handler, j: nat, req: Req, calls: nat, i: nat,
                                    log: Log)
    requires j < i < |its| && Entered(|its|, i, log)
    requires NoRepeat(|its|, Interpret(its[j], j, Fold(its, j + 1, handler), req, calls, log).1)
    ensures var (res, i', log') := Body(its, handler, j, req, calls, i, log);
      Interpret(its[j], j, Fold(its, j + 1, handler), req, calls, log) == (res, log') && Entered(|its|, i', log')
    decreases |its| - 1 - i, |its| + 1, its[j].limit - calls
  {
    var next := Fold(its, j + 1, handler);
    match its[j].Act(req, calls, log)
    case Return(res) =>
      GrowsOne(log, Exit(j, res));
    case Invoke(inner) =>
      var after := next(inner, log).1;
      FoldGrows(its, j + 1, handler);
      InterpretGrows(its[j], j, next, req, calls + 1, after);
      CalledOnce(its, handler, j, inner, i, log);
      SameCall(its, handler, inner, i, log);
      var (res, i', log') := CallNext(its, handler, inner, i, log);
      SameBody(its, handler, j, req, calls + 1, i', log');
  }

  /** A call that does not repeat an entry finds the counter at the next interceptor. */
  lemma CalledOnce(its: seq<Interceptor>, handler: Handler, j: nat, req: Req, i: nat, log: Log)
    requires j < i < |its| && Entered(|its|, i, log)
    requires NoRepeat(|its|, Fold(its, j + 1, handler)(req, log).1)
    ensures i == j + 1
  {
    if i > j + 1 {
      var next, start := Fold(its, j + 2, handler), log + [Enter(j + 1, req)];
      FoldGrows(its, j + 2, handler);
      InterpretGrows(its[j + 1], j + 1, next, req, 0, start);
      EntriesOne(log, Enter(j + 1, req), j + 1);
      assert false;
    }
  }

  // ---- the counter never goes back

  ghost predicate EntersBelow(n: nat, log: Log, lo: nat, hi: nat, later: Log) {
    forall m | 0 <= m < n - 1 :: Entries(later, m) <= Entries(log, m) + if lo <= m < hi then 1 else 0
  }

  /** Through the counter only the interceptors it passes are entered, each once. */
  lemma {:induction false} CallEnters(its: seq<Interceptor>, handler: Handler, req: Req, i: nat, log: Log)
    requires i < |its|
    ensures var (res, i', log') := CallNext(its, handler, req, i, log); EntersBelow(|its|, log, i, i', log')
    decreases |its| - 1 - i, |its|, 0
  {
    var start := log + [Enter(i, req)];
    forall m ensures Entries(start, m) == Entries(log, m) + if m == i then 1 else 0 {
      EntriesOne(log, Enter(i, req), m);
    }
    if i == |its| - 1 {
      LastEnters(its[i], i, handler, req, 0, start, |its|);
    } else {
      BodyEnters(its, handler, i, req, 0, i + 1, start);
    }
  }

  lemma {:induction false} LastEnters(it: Interceptor, j: nat, handler: Handler, req: Req, calls: nat, log: Log, n: nat)
    ensures EntersBelow(n, log, 0, 0, Interpret(it, j, Base(handler), req, calls, log).1)
    decreases it.limit - calls
  {
    match it.Act(req, calls, log)
    case Return(res) =>
      forall m ensures Entries(log + [Exit(j, res)], m) == Entries(log, m) { EntriesOne(log, Exit(j, res), m); }
    case Invoke(inner) =>
      var e := Handled(inner, handler(inner, log));
      forall m ensures Entries(log + [e], m) == Entries(log, m) { EntriesOne(log, e, m); }
      LastEnters(it, j, handler, req, calls + 1, log + [e], n);
  }

  lemma {:induction false} BodyEnters(its: seq<Interceptor>, handler: Handler, j: nat, req: Req, calls: nat, i: nat,
                                      log: Log)
    requires j < i < |its|
    ensures var (res, i', log') := Body(its, handler, j, req, calls, i, log); EntersBelow(|its|, log, i, i', log')
    decreases |its| - 1 - i, |its| + 1, its[j].limit - calls
  {
    match its[j].Act(req, calls, log)
    case Return(res) =>
      forall m ensures Entries(log + [Exit(j, res)], m) == Entries(log, m) { EntriesOne(log, Exit(j, res), m); }
    case Invoke(inner) =>
      var (res, i', log') := CallNext(its, handler, inner, i, log);
      CallEnters(its, handler, inner, i, log);
      BodyEnters(its, handler, j, req, calls + 1, i', log');
  }

  // ---- main results

  /** The chain equals the fold, in result and in everything that happens, exactly when the fold enters no interceptor
      but the last twice. */
  lemma ChainEqualsFold(its: seq<Interceptor>, handler: Handler, req: Req)
    requires its != []
    ensures var (res, i, log) := CallNext(its, handler, req, 0, []);
      Fold(its, 0, handler)(req, []) == (res, log) <==> NoRepeat(|its|, Fold(its, 0, handler)(req, []).1)
  {
    if NoRepeat(|its|, Fold(its, 0, handler)(req, []).1) {
      SameCall(its, handler, req, 0, []);
    } else {
      CallEnters(its, handler, req, 0, []);
    }
  }

  /** Interceptors before the last two that call their handler at most once enter nothing twice. */
  lemma {:induction false} OnceEnters(its: seq<Interceptor>, j: nat, handler: Handler, req: Req, log: Log)
    requires j <= |its| && forall m | j <= m < |its| - 2 :: its[m].Once()
    ensures EntersBelow(|its|, log, j, |its|, Fold(its, j, handler)(req, log).1)
    decreases |its| - j, 0, 0
  {
    if j == |its| {
      var e := Handled(req, handler(req, log));
      forall m ensures Entries(log + [e], m) == Entries(log, m) { EntriesOne(log, e, m); }
    } else {
      var start := log + [Enter(j, req)];
      forall m ensures Entries(start, m) == Entries(log, m) + if m == j then 1 else 0 {
        EntriesOne(log, Enter(j, req), m);
      }
      OnceBody(its, j, handler, req, 0, start);
    }
  }

  lemma {:induction false} OnceBody(its: seq<Interceptor>, j: nat, handler: Handler, req: Req, calls: nat, log: Log)
    requires j < |its| && forall m | j <= m < |its| - 2 :: its[m].Once()
    ensures var done := Interpret(its[j], j, Fold(its, j + 1, handler), req, calls, log).1;
      EntersBelow(|its|, log, if j < |its| - 2 && calls > 0 then |its| else j + 1, |its|, done)
    decreases |its| - j - 1, 1, its[j].limit - calls
  {
    match its[j].Act(req, calls, log)
    case Return(res) =>
      forall m ensures Entries(log + [Exit(j, res)], m) == Entries(log, m) { EntriesOne(log, Exit(j, res), m); }
    case Invoke(inner) =>
      OnceEnters(its, j + 1, handler, inner, log);
      OnceBody(its, j, handler, req, calls + 1, Fold(its, j + 1, handler)(inner, log).1);
  }

  /** So a chain of interceptors that call their handler at most once is their composition; the last two may even call
      it more often. */
  lemma OnceComposes(its: seq<Interceptor>, handler: Handler, req: Req)
    requires its != [] && forall m | 0 <= m < |its| - 2 :: its[m].Once()
    ensures var (res, i, log) := CallNext(its, handler, req, 0, []); Fold(its, 0, handler)(req, []) == (res, log)
  {
    OnceEnters(its, 0, handler, req, []);
    ChainEqualsFold(its, handler, req);
  }

  /** An interceptor that tries its handler twice. */
  function Retrying(): Interceptor {
    Interceptor(2, (req, calls, log) => Invoke(req), (req, log) => "")
  }

  function Passing(): Interceptor {
    Interceptor(1, (req, calls, log) => Invoke(req), (req, log) => "")
  }

  /** A retrying interceptor in front of two others skips the second one when it retries. */
  lemma RetrySkips(handler: Handler, req: Req)
    ensures var its := [Retrying(), Passing(), Passing()];
      var (res, i, log) := CallNext(its, handler, req, 0, []); Fold(its, 0, handler)(req, []) != (res, log)
  {
    var its := [Retrying(), Passing(), Passing()];
    var next, start := Fold(its, 1, handler), [Enter(0, req)];
    var one := next(req, start).1;
    var two := next(req, one).1;
    assert [] + [Enter(0, req)] == start;
    RetryTwice(its[0], next, req, start);
    PassEnters(its, handler, req, start);
    PassEnters(its, handler, req, one);
    EntriesOne(two, Exit(0, ""), 1);
    ChainEqualsFold(its, handler, req);
  }

  lemma RetryTwice(it: Interceptor, next: Next, req: Req, log: Log)
    requires it == Retrying()
    ensures var one := next(req, log).1;
      Interpret(it, 0, next, req, 0, log) == ("", next(req, one).1 + [Exit(0, "")])
  {
    var one := next(req, log).1;
    assert Interpret(it, 0, next, req, 1, one) == Interpret(it, 0, next, req, 2, next(req, one).1);
  }

  lemma PassEnters(its: seq<Interceptor>, handler: Handler, req: Req, log: Log)
    requires its == [Retrying(), Passing(), Passing()]
    ensures Entries(Fold(its, 1, handler)(req, log).1, 1) > Entries(log, 1)
  {
    var start := log + [Enter(1, req)];
    EntriesOne(log, Enter(1, req), 1);
    FoldGrows(its, 2, handler);
    InterpretGrows(its[1], 1, Fold(its, 2, handler), req, 0, start);
  }

  // ---- what a chain computes

  /** An interceptor that changes the request on the way in and the response on the way out. */
  datatype Relay = Relay(inward: Req -> Req, outward: Res -> Res)

  /** The response in the last event. */
  function LastRes(log: Log): Res {
    if log == [] then ""
    else
      match log[|log| - 1]
      case Enter(_, _) => ""
      case Handled(_, res) => res
      case Exit(_, res) => res
  }

  function Relaying(r: Relay): Interceptor {
    Interceptor(1, (req, calls, log) => Invoke(r.inward(req)), (req, log) => r.outward(LastRes(log)))
  }

  /** The composition: every relay around the next, and the handler innermost. */
  function Through(rs: seq<Relay>, h: Req -> Res, req: Req): Res {
    if rs == [] then h(req) else rs[0].outward(Through(rs[1..], h, rs[0].inward(req)))
  }

  /** What happens on the way, from position `j` on. */
  function Trace(rs: seq<Relay>, h: Req -> Res, j: nat, req: Req): Log {
    if rs == [] then [Handled(req, h(req))]
    else [Enter(j, req)] + Trace(rs[1..], h, j + 1, rs[0].inward(req)) + [Exit(j, Through(rs, h, req))]
  }

  ghost predicate Relays(its: seq<Interceptor>, rs: seq<Relay>) {
    |its| == |rs| && forall k | 0 <= k < |its| :: its[k] == Relaying(rs[k])
  }

  function Pure(h: Req -> Res): Handler {
    (req, log) => h(req)
  }

  lemma {:induction false} TraceEnds(rs: seq<Relay>, h: Req -> Res, j: nat, req: Req, log: Log)
    ensures LastRes(log + Trace(rs, h, j, req)) == Through(rs, h, req)
  {
  }

  /** A relay calls the next handler once, with its request, and passes the response on. */
  lemma RelayOnce(it: Interceptor, r: Relay, j: nat, next: Next, req: Req, log: Log)
    requires it == Relaying(r)
    ensures var after := next(r.inward(req), log).1; var res := r.outward(LastRes(after));
      Interpret(it, j, next, req, 0, log) == (res, after + [Exit(j, res)])
  {
    var after := next(r.inward(req), log).1;
    assert Interpret(it, j, next, req, 0, log) == Interpret(it, j, next, req, 1, after);
  }

  lemma {:induction false} FoldRelays(its: seq<Interceptor>, rs: seq<Relay>, j: nat, h: Req -> Res, req: Req, log: Log)
    requires Relays(its, rs) && j <= |its|
    ensures Fold(its, j, Pure(h))(req, log) == (Through(rs[j..], h, req), log + Trace(rs[j..], h, j, req))
    decreases |its| - j
  {
    if j < |its| {
      var start, inner := log + [Enter(j, req)], rs[j].inward(req);
      assert rs[j..][1..] == rs[j + 1..];
      FoldRelays(its, rs, j + 1, h, inner, start);
      RelayOnce(its[j], rs[j], j, Fold(its, j + 1, Pure(h)), req, start);
      TraceEnds(rs[j + 1..], h, j + 1, inner, start);
      Bracket(log, Enter(j, req), Trace(rs[j + 1..], h, j + 1, inner), Exit(j, Through(rs[j..], h, req)));
    }
  }

  lemma Bracket(log: Log, first: Event, middle: Log, last: Event)
    ensures log + [first] + middle + [last] == log + ([first] + middle + [last])
  {
  }

  /** Through a chain of relays the caller gets the composition of what they do, and everything happens in order. */
  lemma ChainRelays(its: seq<Interceptor>, rs: seq<Relay>, h: Req -> Res, req: Req)
    requires its != [] && Relays(its, rs)
    ensures var (res, i, log) := CallNext(its, Pure(h), req, 0, []);
      res == Through(rs, h, req) && log == Trace(rs, h, 0, req)
  {
    OnceComposes(its, Pure(h), req);
    FoldRelays(its, rs, 0, h, req, []);
    assert rs[0..] == rs && [] + Trace(rs, h, 0, req) == Trace(rs, h, 0, req);
  }

  // ---- the code

  /** The state of one call of a chain. */
  class ServerChain {
    const its: seq<Interceptor>
    const handler: Handler
    var i: nat
    var log: Log

    constructor (its: seq<Interceptor>, handler: Handler)
      ensures this.its == its && this.handler == handler && i == 0 && log == []
    {
      this.its, this.handler, i, log := its, handler, 0, [];
    }

    /** The closure `state.next`. */
    method Next(req: Req) returns (res: Res)
      requires i < |its|
      modifies this
      ensures (res, i, log) == CallNext(its, handler, req, old(i), old(log))
      decreases |its| - 1 - i, |its|, 0
    {
      if i == |its| - 1 {
        res := RunLast(req);
      } else {
        i := i + 1;
        res := Run(i - 1, req);
      }
    }

    /** An interceptor that is given `state.next`. */
    method Run(j: nat, req: Req) returns (res: Res)
      requires j < i < |its|
      modifies this
      ensures (res, i, log) == Body(its, handler, j, req, 0, old(i), old(log) + [Enter(j, req)])
      decreases |its| - 1 - i, |its| + 1, its[j].limit
    {
      var calls := 0;
      log := log + [Enter(j, req)];
      while its[j].Act(req, calls, log).Invoke?
        invariant j < old(i) <= i < |its|
        invariant Body(its, handler, j, req, 0, old(i), old(log) + [Enter(j, req)]) ==
                  Body(its, handler, j, req, calls, i, log)
        decreases its[j].limit - calls
      {
        var inner := Next(its[j].Act(req, calls, log).req);
        calls := calls + 1;
      }
      res := its[j].Act(req, calls, log).res;
      log := log + [Exit(j, res)];
    }

    /** The last interceptor, which is given the handler. */
    method RunLast(req: Req) returns (res: Res)
      requires i < |its|
      modifies this`log
      ensures (res, log) == Wrap(its[i], i, Base(handler))(req, old(log))
      decreases |its| - 1 - i, 0, 0
    {
      var calls := 0;
      log := log + [Enter(i, req)];
      while its[i].Act(req, calls, log).Invoke?
        invariant Interpret(its[i], i, Base(handler), req, 0, old(log) + [Enter(i, req)]) ==
                  Interpret(its[i], i, Base(handler), req, calls, log)
        decreases its[i].limit - calls
      {
        var inner := its[i].Act(req, calls, log).req;
        log := log + [Handled(inner, handler(inner, log))];
        calls := calls + 1;
      }
      res := its[i].Act(req, calls, log).res;
      log := log + [Exit(i, res)];
    }
  }

  /** The interceptor made from a list, called with a request; there is none for the empty list. */
  method ChainServerInterceptors(its: seq<Interceptor>, handler: Handler, req: Req) returns (out: Option<(Res, Log)>)
    ensures out.None? <==> its == []
    ensures its != [] ==> var (res, i, log) := CallNext(its, handler, req, 0, []); out == Some((res, log))
    ensures its != [] && (forall m | 0 <= m < |its| - 2 :: its[m].Once()) ==>
              out == Some(Fold(its, 0, handler)(req, []))
  {
    if its == [] {
      return None;
    }
    var state := new ServerChain(its, handler);
    var res: Res;
    if |its| == 1 {
      res := state.RunLast(req);
    } else {
      res := state.Next(req);
    }
    out := Some((res, state.log));
    if forall m | 0 <= m < |its| - 2 :: its[m].Once() {
      OnceComposes(its, handler, req);
    }
  }

  // ---- client interceptors

  function RightFold<H>(its: seq<H -> H>, handler: H): H {
    if its == [] then handler else its[0](RightFold(its[1..], handler))
  }

  /** The handlers on the way: the last one is the one given, and each interceptor makes one of the next. */
  ghost predicate Stages<H>(its: seq<H -> H>, handler: H, hs: seq<H>) {
    |hs| == |its| + 1 && hs[|its|] == handler && forall i | 0 <= i < |its| :: hs[i] == its[i](hs[i + 1])
  }

  /** The backward loop of ChainClientInterceptors. */
  method ChainClientInterceptors<H>(its: seq<H -> H>, handler: H) returns (chained: H)
    ensures exists hs :: Stages(its, handler, hs) && chained == hs[0]
    ensures chained == RightFold(its, handler)
  {
    chained := handler;
    ghost var hs := [handler];
    var i := |its| - 1;
    while i >= 0
      invariant -1 <= i < |its| && chained == RightFold(its[i + 1..], handler)
      invariant |hs| == |its| - i && hs[0] == chained && hs[|hs| - 1] == handler
      invariant forall k | i < k < |its| :: hs[k - i - 1] == its[k](hs[k - i])
    {
      assert its[i..][1..] == its[i + 1..];
      chained := its[i](chained);
      hs := [chained] + hs;
      i := i - 1;
    }
    assert its[0..] == its;
    assert Stages(its, handler, hs);
  }

  /** The stages are determined by the interceptors, and their first one is the right fold. */
  lemma {:induction false} StagesFold<H>(its: seq<H -> H>, handler: H, hs: seq<H>)
    requires Stages(its, handler, hs)
    ensures hs[0] == RightFold(its, handler)
  {
    if its != [] {
      StagesFold(its[1..], handler, hs[1..]);
    }
  }

  /** One interceptor is applied to the handler. */
  lemma RightFoldOne<H>(it: H -> H, handler: H)
    ensures RightFold([it], handler) == it(handler)
  {
    assert [it][1..] == [];
  }

  /** Chaining two lists in turn is chaining their concatenation. */
  lemma {:induction false} RightFoldAppend<H>(a: seq<H -> H>, b: seq<H -> H>, handler: H)
    ensures RightFold(a + b, handler) == RightFold(a, RightFold(b, handler))
  {
    if a == [] {
      assert a + b == b;
    } else {
      assert (a + b)[1..] == a[1..] + b;
      RightFoldAppend(a[1..], b, handler);
    }
  }
}
