/** The Redis bus does not run for ever by itself: every internal step, other than a failing broker call, consumes
    some of a finite amount of work. */
module RedisProgress {
  import opened RedisBus
  import opened RedisSystem

  function Backlog(arena: seq<seq<Payload>>): nat {
    if arena == [] then 0 else |arena[0]| + Backlog(arena[1..])
  }

  lemma {:induction false} BacklogPop(arena: seq<seq<Payload>>, q: QueueId)
    requires q < |arena| && arena[q] != []
    ensures Backlog(arena[q := arena[q][1..]]) == Backlog(arena) - 1
  {
    var arena' := arena[q := arena[q][1..]];
    if q == 0 {
      assert arena'[1..] == arena[1..];
    } else {
      assert arena'[1..] == arena[1..][q - 1 := arena[1..][q - 1][1..]];
      BacklogPop(arena[1..], q - 1);
    }
  }

  predicate Empty(p: Publications, q: QueueId) {
    q >= |p.arena| || p.arena[q] == []
  }

  function ThreadWork(p: Publications, th: Thread): nat {
    match th
    case Publishing(_, _) => 8
    case Signalling => 3
    case Checking(_, q) => if Empty(p, q) then 1 else 3
    case Emptying(_, _) => 2
    case Sending(_, _, _) => 4
  }

  ghost function ThreadsWork(p: Publications, threads: map<Tid, Thread>): nat {
    if threads.Keys == {} then 0
    else
      var t :| t in threads.Keys;
      ThreadWork(p, threads[t]) + ThreadsWork(p, threads - {t})
  }

  lemma {:induction false} ThreadsWorkSplit(p: Publications, threads: map<Tid, Thread>, t: Tid)
    requires t in threads
    ensures ThreadsWork(p, threads) == ThreadWork(p, threads[t]) + ThreadsWork(p, threads - {t})
    decreases |threads|
  {
    var u :| u in threads.Keys && ThreadsWork(p, threads) == ThreadWork(p, threads[u]) + ThreadsWork(p, threads - {u});
    if u != t {
      ThreadsWorkSplit(p, threads - {u}, t);
      ThreadsWorkSplit(p, threads - {t}, u);
      assert threads - {u} - {t} == threads - {t} - {u};
    }
  }

  /** Emptying a queue does not add work to anybody. */
  lemma {:induction false} ThreadsWorkShrinks(p: Publications, p': Publications, threads: map<Tid, Thread>)
    requires forall q :: Empty(p, q) ==> Empty(p', q)
    ensures ThreadsWork(p', threads) <= ThreadsWork(p, threads)
    decreases |threads|
  {
    if threads.Keys != {} {
      var t :| t in threads.Keys;
      ThreadsWorkSplit(p, threads, t);
      ThreadsWorkSplit(p', threads, t);
      ThreadsWorkShrinks(p, p', threads - {t});
    }
  }

  function OpWork(op: WriteOp): nat {
    if op.Reconcile? then 2 else 4
  }

  function OpsWork(ops: seq<WriteOp>): nat {
    if ops == [] then 0 else OpWork(ops[0]) + OpsWork(ops[1..])
  }

  lemma {:induction false} OpsWorkAppend(ops: seq<WriteOp>, op: WriteOp)
    ensures OpsWork(ops + [op]) == OpsWork(ops) + OpWork(op)
  {
    if ops == [] {
      assert ops + [op] == [op];
    } else {
      assert (ops + [op])[1..] == ops[1..] + [op];
      OpsWorkAppend(ops[1..], op);
    }
  }

  function WorkerWork(w: Worker): nat {
    match w
    case Waiting => 0
    case Draining => 1
    case Planning => 2
    case Subscribing(_, _) => 5
    case Unsubscribing(_, _, subOk) => if subOk then 4 else 10
    case Committing(_, _, subOk, unsubOk) => if subOk && unsubOk then 3 else 9
  }

  function HolderWork(mu: Holder): nat {
    match mu
    case Free => 0
    case Pushing(_) => 7
    case Notifying(_) => 4
    case Appending(_) => 1
  }

  ghost function Work(s: System): nat {
    3 * Backlog(s.pubs.arena) + ThreadsWork(s.pubs, s.threads) + OpsWork(s.writes.ops) +
    (if s.writes.wakeup then 2 else 0) + WorkerWork(s.worker) + HolderWork(s.mu) + (if s.subs.dirty != {} then 4 else 0)
  }

  predicate ByGoroutine(l: Label) {
    l.PushExec? || l.SignalExec? || l.Check? || l.PopMessage? || l.Send? || l.PopExec?
  }

  function WorkAt(p: Publications, threads: map<Tid, Thread>, t: Tid): nat {
    if t in threads then ThreadWork(p, threads[t]) else 0
  }

  /** Only goroutine `t` changed, and queues were at most emptied. */
  lemma ThreadsWorkChange(p: Publications, p': Publications, threads: map<Tid, Thread>, threads': map<Tid, Thread>,
                          t: Tid)
    requires forall q :: Empty(p, q) ==> Empty(p', q)
    requires threads' - {t} == threads - {t}
    ensures ThreadsWork(p', threads') - WorkAt(p', threads', t) <= ThreadsWork(p, threads) - WorkAt(p, threads, t)
  {
    if t in threads {
      ThreadsWorkSplit(p, threads, t);
    } else {
      assert threads - {t} == threads;
    }
    if t in threads' {
      ThreadsWorkSplit(p', threads', t);
    } else {
      assert threads' - {t} == threads';
    }
    ThreadsWorkShrinks(p, p', threads - {t});
  }

  /** Goroutines that hand an op to the write queue, or are started from it. */
  lemma QueueingWorks(s: System, l: Label)
    requires (l.PushExec? || l.SignalExec? || l.PopExec?) && Enabled(s, l)
    ensures Work(Next(s, l)) < Work(s)
  {
    var s' := Next(s, l);
    assert s'.threads - {l.t} == s.threads - {l.t};
    ThreadsWorkChange(s.pubs, s'.pubs, s.threads, s'.threads, l.t);
    if l.PushExec? {
      OpsWorkAppend(s.writes.ops, s'.writes.ops[|s.writes.ops|]);
    }
  }

  /** Goroutines that empty a publish queue. */
  lemma EmptyingWorks(s: System, l: Label)
    requires (l.Check? || l.PopMessage? || l.Send?) && Enabled(s, l)
    ensures Work(Next(s, l)) < Work(s)
  {
    var s' := Next(s, l);
    assert s'.threads - {l.t} == s.threads - {l.t};
    ThreadsWorkChange(s.pubs, s'.pubs, s.threads, s'.threads, l.t);
    if l.PopMessage? && s.pubs.arena[s.threads[l.t].queue] != [] {
      BacklogPop(s.pubs.arena, s.threads[l.t].queue);
    }
  }

  lemma GoroutineWorks(s: System, l: Label)
    requires ByGoroutine(l) && Enabled(s, l)
    ensures Work(Next(s, l)) < Work(s)
  {
    if l.PushExec? || l.SignalExec? || l.PopExec? {
      QueueingWorks(s, l);
    } else {
      EmptyingWorks(s, l);
    }
  }

  lemma OthersWork(s: System, l: Label)
    requires Internal(l) && !Failing(l) && !ByGoroutine(l) && Enabled(s, l)
    ensures Work(Next(s, l)) < Work(s)
  {
    var s' := Next(s, l);
    assert s'.pubs == s.pubs && s'.threads == s.threads;
    if l.PushReconcile? {
      OpsWorkAppend(s.writes.ops, Reconcile);
    }
  }

  /** From position `k` on the bus takes only internal steps, and no broker call fails. */
  ghost predicate Undisturbed(ls: seq<Label>, k: nat) {
    forall i | k <= i < |ls| :: Internal(ls[i]) && !Failing(ls[i])
  }

  /** Undisturbed steps are no more than the work they start with. */
  lemma {:induction false} RunBounded(ss: seq<System>, ls: seq<Label>, k: nat)
    requires IsRun(ss, ls) && k <= |ls| && Undisturbed(ls, k)
    ensures |ls| - k <= Work(ss[k])
    decreases |ls| - k
  {
    if k < |ls| {
      if ByGoroutine(ls[k]) {
        GoroutineWorks(ss[k], ls[k]);
      } else {
        OthersWork(ss[k], ls[k]);
      }
      RunBounded(ss, ls, k + 1);
    }
  }
}
