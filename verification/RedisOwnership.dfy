/** Publish queues of the Redis bus: each attached queue has exactly one owner, and nobody refers to another one. */
module RedisOwnership {
  import opened RedisBus
  import opened RedisSystem

  type Threads = map<Tid, Thread>

  /** 1 when the goroutine is responsible for queue `q` of channel `c`. */
  function ThreadRef(th: Thread, c: Channel, q: QueueId): nat {
    if !th.Signalling? && th.channel == c && th.queue == q then 1 else 0
  }

  function OpRef(op: WriteOp, c: Channel, q: QueueId): nat {
    if op == ExecPublish(c, q) then 1 else 0
  }

  ghost function ThreadRefs(threads: Threads, c: Channel, q: QueueId): nat {
    if threads.Keys == {} then 0
    else
      var t :| t in threads.Keys;
      ThreadRef(threads[t], c, q) + ThreadRefs(threads - {t}, c, q)
  }

  function OpRefs(ops: seq<WriteOp>, c: Channel, q: QueueId): nat {
    if ops == [] then 0 else OpRef(ops[0], c, q) + OpRefs(ops[1..], c, q)
  }

  /** The number of owners of a publish queue: goroutines, and exec ops that wait in the write queue. */
  ghost function Owners(s: System, c: Channel, q: QueueId): nat {
    ThreadRefs(s.threads, c, q) + OpRefs(s.writes.ops, c, q)
  }

  lemma {:induction false} ThreadRefsSplit(threads: Threads, t: Tid, c: Channel, q: QueueId)
    requires t in threads
    ensures ThreadRefs(threads, c, q) == ThreadRef(threads[t], c, q) + ThreadRefs(threads - {t}, c, q)
    decreases |threads|
  {
    var u :| u in threads.Keys &&
      ThreadRefs(threads, c, q) == ThreadRef(threads[u], c, q) + ThreadRefs(threads - {u}, c, q);
    if u != t {
      ThreadRefsSplit(threads - {u}, t, c, q);
      ThreadRefsSplit(threads - {t}, u, c, q);
      assert threads - {u} - {t} == threads - {t} - {u};
    }
  }

  function RefAt(threads: Threads, t: Tid, c: Channel, q: QueueId): nat {
    if t in threads then ThreadRef(threads[t], c, q) else 0
  }

  /** Only goroutine `t` changed. */
  lemma ThreadRefsChange(threads: Threads, threads': Threads, t: Tid, c: Channel, q: QueueId)
    requires threads' - {t} == threads - {t}
    ensures ThreadRefs(threads', c, q) - RefAt(threads', t, c, q) == ThreadRefs(threads, c, q) - RefAt(threads, t, c, q)
  {
    if t in threads {
      ThreadRefsSplit(threads, t, c, q);
    } else {
      assert threads - {t} == threads;
    }
    if t in threads' {
      ThreadRefsSplit(threads', t, c, q);
    } else {
      assert threads' - {t} == threads';
    }
  }

  lemma {:induction false} OpRefsAppend(ops: seq<WriteOp>, op: WriteOp, c: Channel, q: QueueId)
    ensures OpRefs(ops + [op], c, q) == OpRefs(ops, c, q) + OpRef(op, c, q)
  {
    if ops == [] {
      assert ops + [op] == [op];
    } else {
      assert (ops + [op])[1..] == ops[1..] + [op];
      OpRefsAppend(ops[1..], op, c, q);
    }
  }

  /** Every attached queue has exactly one owner, and every owner refers to an attached queue. */
  ghost predicate Owned(s: System) {
    && (forall c, q :: Owners(s, c, q) == if s.pubs.Attached(c, q) then 1 else 0)
    && (forall c | c in s.pubs.publishOps :: s.pubs.publishOps[c] < |s.pubs.arena|)
    && (forall c, d | c in s.pubs.publishOps && d in s.pubs.publishOps && c != d ::
          s.pubs.publishOps[c] != s.pubs.publishOps[d])
  }

  /** Steps of goroutine `l.t`. */
  predicate ByThread(l: Label) {
    l.CallPublish? || l.PushExec? || l.SignalExec? || l.Check? || l.PopMessage? || l.Send? || l.PopExec?
  }

  /** One step changes at most its own goroutine. */
  lemma OneThread(s: System, l: Label)
    requires Enabled(s, l)
    ensures ByThread(l) ==> Next(s, l).threads - {l.t} == s.threads - {l.t}
    ensures !ByThread(l) ==> Next(s, l).threads == s.threads
  {
  }

  /** One step pushes to the write queue, pops from it, or leaves it. */
  lemma OpsStep(s: System, l: Label, c: Channel, q: QueueId)
    requires Enabled(s, l)
    ensures OpRefs(Next(s, l).writes.ops, c, q) == OpRefs(s.writes.ops, c, q) +
      (if l.PushExec? then ThreadRef(s.threads[l.t], c, q) else 0) -
      (if l.PopExec? then OpRef(s.writes.ops[0], c, q) else 0)
  {
    if l.PushExec? || l.PushReconcile? {
      var ops := s.writes.ops;
      OpRefsAppend(ops, Next(s, l).writes.ops[|ops|], c, q);
    }
  }

  /** How one step changes the owners of one queue. */
  lemma OwnersStep(s: System, l: Label, c: Channel, q: QueueId)
    requires Enabled(s, l)
    ensures Owners(Next(s, l), c, q) ==
      if l.CallPublish? && l.channel !in s.pubs.publishOps && c == l.channel && q == |s.pubs.arena| then
        Owners(s, c, q) + 1
      else if l.Check? && s.pubs.arena[s.threads[l.t].queue] == [] then
        Owners(s, c, q) - ThreadRef(s.threads[l.t], c, q)
      else Owners(s, c, q)
  {
    OneThread(s, l);
    OpsStep(s, l, c, q);
    if ByThread(l) {
      ThreadRefsChange(s.threads, Next(s, l).threads, l.t, c, q);
    }
  }

  lemma OwnedKept(s: System, l: Label)
    requires Owned(s) && Enabled(s, l)
    ensures Owned(Next(s, l))
  {
    var s' := Next(s, l);
    forall c, q ensures Owners(s', c, q) == if s'.pubs.Attached(c, q) then 1 else 0 {
      OwnersStep(s, l, c, q);
      if l.Check? {
        var th := s.threads[l.t];
        ThreadRefsSplit(s.threads, l.t, th.channel, th.queue);
        assert Owners(s, th.channel, th.queue) >= 1;
        assert s.pubs.Attached(th.channel, th.queue);
      }
    }
  }
}
