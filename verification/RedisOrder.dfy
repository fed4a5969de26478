/** Publish order: what is handed to the broker on a channel is a prefix of what was pushed on it. */
module RedisOrder {
  import opened RedisBus
  import opened RedisSystem
  import opened RedisOwnership

  /** A goroutine's queue is the one attached to its channel. */
  lemma OwnerAttached(s: System, t: Tid)
    requires Owned(s) && t in s.threads && !s.threads[t].Signalling?
    ensures s.pubs.Attached(s.threads[t].channel, s.threads[t].queue)
  {
    ThreadRefsSplit(s.threads, t, s.threads[t].channel, s.threads[t].queue);
    assert Owners(s, s.threads[t].channel, s.threads[t].queue) >= 1;
  }

  /** Two goroutines never have the same queue. */
  lemma SoleOwner(s: System, t: Tid, u: Tid)
    requires Owned(s) && t in s.threads && u in s.threads && t != u
    requires !s.threads[t].Signalling? && !s.threads[u].Signalling?
    ensures s.threads[t].queue != s.threads[u].queue && s.threads[t].channel != s.threads[u].channel
  {
    OwnerAttached(s, t);
    OwnerAttached(s, u);
    var c, q := s.threads[t].channel, s.threads[t].queue;
    ThreadRefsSplit(s.threads, t, c, q);
    ThreadRefsSplit(s.threads - {t}, u, c, q);
    assert Owners(s, c, q) <= 1;
  }

  ghost predicate SendingOn(s: System, t: Tid, c: Channel) {
    t in s.threads && s.threads[t].Sending? && s.threads[t].channel == c
  }

  /** Pushed is handed, then the message an exec goroutine holds, then the queue. */
  ghost predicate OrderedAt(s: System, c: Channel) {
    var pushed, handed := Hist(s.pushed, c), Hist(s.handed, c);
    if c !in s.pubs.publishOps || s.pubs.publishOps[c] >= |s.pubs.arena| then pushed == handed
    else
      var queued := s.pubs.arena[s.pubs.publishOps[c]];
      && (forall t | SendingOn(s, t, c) :: pushed == handed + [s.threads[t].message] + queued)
      && ((forall t :: !SendingOn(s, t, c)) ==> pushed == handed + queued)
  }

  lemma OrderedPublish(s: System, l: Label, c: Channel)
    requires l.CallPublish? && Owned(s) && OrderedAt(s, c) && Enabled(s, l)
    ensures OrderedAt(Next(s, l), c)
  {
    var s' := Next(s, l);
    assert forall u :: SendingOn(s', u, c) <==> SendingOn(s, u, c);
    forall u | SendingOn(s, u, c) ensures s.pubs.Attached(c, s.threads[u].queue) {
      OwnerAttached(s, u);
    }
    if c == l.channel && c in s.pubs.publishOps {
      var handed, queued := Hist(s.handed, c), s.pubs.arena[s.pubs.publishOps[c]];
      assert handed + queued + [l.message] == handed + (queued + [l.message]);
      forall u | SendingOn(s, u, c)
        ensures Hist(s'.pushed, c) == handed + [s.threads[u].message] + (queued + [l.message])
      {
      }
    }
  }

  /** Only goroutine `l.t` may change whether it is sending, and no other goroutine is on its channel. */
  lemma ExecSenders(s: System, l: Label, c: Channel)
    requires l.Check? || l.PopMessage? || l.Send?
    requires Owned(s) && Enabled(s, l)
    ensures forall u | u != l.t :: SendingOn(Next(s, l), u, c) <==> SendingOn(s, u, c)
    ensures forall u | u != l.t && SendingOn(s, u, c) :: Next(s, l).threads[u] == s.threads[u]
    ensures c == s.threads[l.t].channel ==> forall u | u != l.t :: !SendingOn(s, u, c)
  {
    if c == s.threads[l.t].channel {
      forall u | u != l.t ensures !SendingOn(s, u, c) {
        if SendingOn(s, u, c) {
          SoleOwner(s, l.t, u);
        }
      }
    }
  }

  lemma OrderedExec(s: System, l: Label, c: Channel)
    requires l.Check? || l.PopMessage? || l.Send?
    requires Owned(s) && OrderedAt(s, c) && Enabled(s, l)
    ensures OrderedAt(Next(s, l), c)
  {
    var s', th := Next(s, l), s.threads[l.t];
    OwnerAttached(s, l.t);
    ExecSenders(s, l, c);
    if c == th.channel {
      assert SendingOn(s, l.t, c) <==> l.Send?;
      assert SendingOn(s', l.t, c) <==> l.PopMessage? && s.pubs.arena[th.queue] != [];
    } else {
      assert !SendingOn(s, l.t, c) && !SendingOn(s', l.t, c);
    }
  }

  /** Steps that leave the queues and the histories alone. */
  predicate Bystander(l: Label) {
    !l.CallPublish? && !l.Check? && !l.PopMessage? && !l.Send?
  }

  lemma OtherHistories(s: System, l: Label)
    requires Bystander(l) && Enabled(s, l)
    ensures var s' := Next(s, l); s'.pubs == s.pubs && s'.pushed == s.pushed && s'.handed == s.handed
  {
  }

  lemma OtherSenders(s: System, l: Label, c: Channel, u: Tid)
    requires Bystander(l) && Enabled(s, l)
    ensures SendingOn(Next(s, l), u, c) <==> SendingOn(s, u, c)
    ensures SendingOn(s, u, c) ==> Next(s, l).threads[u] == s.threads[u]
  {
    OneThread(s, l);
    assert ByThread(l) && u != l.t ==>
      (u in s.threads <==> u in s.threads - {l.t}) && (u in Next(s, l).threads <==> u in Next(s, l).threads - {l.t});
  }

  lemma OrderedKept(s: System, l: Label, c: Channel)
    requires Owned(s) && OrderedAt(s, c) && Enabled(s, l)
    ensures OrderedAt(Next(s, l), c)
  {
    if l.CallPublish? {
      OrderedPublish(s, l, c);
    } else if l.Check? || l.PopMessage? || l.Send? {
      OrderedExec(s, l, c);
    } else {
      var s' := Next(s, l);
      forall u ensures SendingOn(s', u, c) <==> SendingOn(s, u, c)
        ensures SendingOn(s, u, c) ==> s'.threads[u] == s.threads[u]
      {
        OtherSenders(s, l, c, u);
      }
      OtherHistories(s, l);
    }
  }

  // ---- the write queue

  /** The write ops pushed up to position `i`, and those taken. */
  ghost function OpsPushed(ss: seq<System>, ls: seq<Label>, i: nat): seq<WriteOp>
    requires IsRun(ss, ls) && i <= |ls|
  {
    if i == 0 then []
    else
      var s, l, before := ss[i - 1], ls[i - 1], OpsPushed(ss, ls, i - 1);
      if l.PushExec? then before + [ExecPublish(s.threads[l.t].channel, s.threads[l.t].queue)]
      else if l.PushReconcile? then before + [Reconcile]
      else before
  }

  ghost function OpsTaken(ss: seq<System>, ls: seq<Label>, i: nat): seq<WriteOp>
    requires IsRun(ss, ls) && i <= |ls|
  {
    if i == 0 then []
    else
      var s, l, before := ss[i - 1], ls[i - 1], OpsTaken(ss, ls, i - 1);
      if l.PopExec? || l.PopReconcile? then before + [s.writes.ops[0]] else before
  }

  lemma OpsNext(s: System, l: Label)
    requires Enabled(s, l)
    ensures Next(s, l).writes.ops ==
      if l.PushExec? then s.writes.ops + [ExecPublish(s.threads[l.t].channel, s.threads[l.t].queue)]
      else if l.PushReconcile? then s.writes.ops + [Reconcile]
      else if l.PopExec? || l.PopReconcile? then s.writes.ops[1..]
      else s.writes.ops
  {
  }

  lemma Shift(pushed: seq<WriteOp>, taken: seq<WriteOp>, ops: seq<WriteOp>, op: WriteOp)
    requires pushed == taken + ops
    ensures pushed + [op] == taken + (ops + [op])
    ensures ops != [] ==> pushed == taken + [ops[0]] + ops[1..]
  {
  }

  /** The write worker takes every op once, in the order in which they were pushed. */
  lemma {:induction false} WritesInOrder(ss: seq<System>, ls: seq<Label>, i: nat)
    requires IsRun(ss, ls) && ss[0] == INIT && i <= |ls|
    ensures OpsPushed(ss, ls, i) == OpsTaken(ss, ls, i) + ss[i].writes.ops
  {
    if i > 0 {
      WritesInOrder(ss, ls, i - 1);
      OpsNext(ss[i - 1], ls[i - 1]);
      var ops := ss[i - 1].writes.ops;
      Shift(OpsPushed(ss, ls, i - 1), OpsTaken(ss, ls, i - 1), ops, if ls[i - 1].PushReconcile? then Reconcile
            else if ls[i - 1].PushExec? then ss[i].writes.ops[|ops|] else Reconcile);
    }
  }
}
