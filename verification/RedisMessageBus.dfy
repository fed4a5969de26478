/** The critical sections of internal/bus/bus_redis.go as methods on the fields of `redisMessageBus`.  Each method is
    one lock region and changes the state exactly as its section of module `RedisBus` says. */
module RedisMessageBus {
  import opened RedisBus

  class MessageBus {
    var subs: map<Channel, SubList>
    var queues: map<Channel, SubList>
    var wakeup: bool
    var ops: seq<WriteOp>
    var publishOps: map<Channel, QueueId>
    var arena: seq<seq<Payload>>
    var dirtyChannels: set<Channel>
    var currentChannels: set<Channel>

    function Writes(): WriteQueue
      reads this
    {
      WriteQueue(ops, wakeup)
    }

    function Pubs(): Publications
      reads this
    {
      Publications(publishOps, arena)
    }

    function Subs(): Subscriptions
      reads this
    {
      Subscriptions(subs, queues, dirtyChannels, currentChannels)
    }

    constructor ()
      ensures Writes() == WriteQueue([], false)
      ensures Pubs() == Publications(map[], [])
      ensures Subs() == Subscriptions(map[], map[], {}, {})
    {
      subs, queues, wakeup, ops := map[], map[], false, [];
      publishOps, arena, dirtyChannels, currentChannels := map[], [], {}, {};
    }

    method PublishLocked(channel: Channel, b: Payload) returns (created: bool, queue: QueueId)
      requires channel in publishOps ==> publishOps[channel] < |arena|
      modifies this`publishOps, this`arena
      ensures Published(Pubs(), created, queue) == Publish(old(Pubs()), channel, b)
    {
      created := channel !in publishOps;
      if created {
        arena := arena + [[]];
        publishOps := publishOps[channel := |arena| - 1];
      }
      queue := publishOps[channel];
      ghost var before := arena[queue];
      arena := arena[queue := arena[queue] + [b]];
      assert created ==> before + [b] == [b] && arena == old(arena) + [[b]];
    }

    method PushWriteOp(op: WriteOp)
      modifies this`ops
      ensures Writes() == Push(old(Writes()), op)
    {
      ops := ops + [op];
    }

    method NotifyWorker()
      modifies this`wakeup
      ensures Writes() == old(Writes()).(wakeup := true)
    {
      if !wakeup {
        wakeup := true;
      }
    }

    method PopMessage(queue: QueueId) returns (b: Payload)
      requires queue < |arena| && arena[queue] != []
      modifies this`arena
      ensures |arena| == |old(arena)| && old(arena)[queue] == [b] + arena[queue]
      ensures Pubs() == PopFront(old(Pubs()), queue)
    {
      b := arena[queue][0];
      arena := arena[queue := arena[queue][1..]];
    }

    method ExecCheckLocked(channel: Channel, queue: QueueId) returns (done: bool)
      requires queue < |arena|
      modifies this`publishOps
      ensures done <==> arena[queue] == []
      ensures Pubs() == if done then Detach(old(Pubs()), channel) else old(Pubs())
    {
      done := |arena[queue]| == 0;
      if done {
        publishOps := publishOps - {channel};
      }
    }

    /** Up to the reconciliation request; `created` says that one is made. */
    method SubscribeLocked(channel: Channel, queue: bool) returns (created: bool)
      modifies this`subs, this`queues, this`dirtyChannels
      ensures created <==> channel !in old(Subs()).Lists(queue)
      ensures Subs() == if created then OpenList(old(Subs()), channel, queue) else old(Subs())
    {
      created := channel !in if queue then queues else subs;
      if created {
        if queue {
          queues := queues[channel := SubList([], 0)];
        } else {
          subs := subs[channel := SubList([], 0)];
        }
        dirtyChannels := dirtyChannels + {channel};
      }
    }

    method AppendLocked(channel: Channel, queue: bool, sub: SubId)
      requires channel in Subs().Lists(queue)
      modifies this`subs, this`queues
      ensures Subs() == AppendSub(old(Subs()), channel, queue, sub)
    {
      if queue {
        queues := queues[channel := queues[channel].(subs := queues[channel].subs + [sub])];
      } else {
        subs := subs[channel := subs[channel].(subs := subs[channel].subs + [sub])];
      }
    }

    method Index(list: seq<SubId>, sub: SubId) returns (i: int)
      ensures i == IndexOf(list, sub)
    {
      i := 0;
      while i < |list| && list[i] != sub
        invariant 0 <= i <= |list|
        invariant forall k | 0 <= k < i :: list[k] != sub
      {
        i := i + 1;
      }
      if i == |list| {
        i := -1;
      }
    }

    /** Up to the reconciliation request; `emptied` says that one is made. */
    method UnsubscribeLocked(channel: Channel, queue: bool, sub: SubId) returns (emptied: bool)
      modifies this`subs, this`queues, this`dirtyChannels
      ensures Subs() == Remove(old(Subs()), channel, queue, sub)
      ensures emptied <==> Empties(old(Subs()), channel, queue, sub)
    {
      emptied := false;
      var lists := if queue then queues else subs;
      if channel !in lists {
        return;
      }
      var list := lists[channel];
      var i := Index(list.subs, sub);
      if i == -1 {
        return;
      }
      var left := list.subs[..i] + list.subs[i + 1..];
      assert list.subs == list.subs[..i] + [sub] + list.subs[i + 1..];
      if |left| == 0 {
        lists := lists - {channel};
        dirtyChannels := dirtyChannels + {channel};
        emptied := true;
        assert list.subs == [sub];
      } else {
        lists := lists[channel := list.(subs := left)];
      }
      if queue {
        queues := lists;
      } else {
        subs := lists;
      }
    }

    /** The read worker's region for one received message: who gets it. */
    method ReceiveLocked(channel: Channel) returns (all: seq<SubId>, one: seq<SubId>)
      requires channel in queues ==> queues[channel].subs != []
      modifies this`queues
      ensures all == PlainReceivers(old(Subs()), channel) && one == QueueReceiver(old(Subs()), channel)
      ensures channel !in queues ==> Subs() == old(Subs())
      ensures channel in old(queues) ==>
        Subs() == old(Subs()).(queues := old(queues)[channel := DispatchQueue(old(queues)[channel])])
    {
      all, one := [], [];
      if channel in subs {
        all := subs[channel].subs;
      }
      if channel in queues {
        var list := queues[channel];
        if list.next >= |list.subs| {
          list := list.(next := 0);
        }
        one := [list.subs[list.next]];
        queues := queues[channel := list.(next := list.next + 1)];
      }
    }

    method PlanLocked() returns (subscribe: set<Channel>, unsubscribe: set<Channel>)
      modifies this`dirtyChannels
      ensures Plan(Subs(), subscribe, unsubscribe) == MakePlan(old(Subs()))
    {
      subscribe, unsubscribe := {}, {};
      var todo := dirtyChannels;
      while todo != {}
        invariant todo <= dirtyChannels == old(dirtyChannels)
        invariant subscribe == set c | c in dirtyChannels - todo && c !in currentChannels && Subs().Desired(c)
        invariant unsubscribe == set c | c in dirtyChannels - todo && c in currentChannels && !Subs().Desired(c)
        decreases todo
      {
        var c :| c in todo;
        var current := c in currentChannels;
        var desired := c in subs || c in queues;
        if !current && desired {
          subscribe := subscribe + {c};
        } else if current && !desired {
          unsubscribe := unsubscribe + {c};
        }
        todo := todo - {c};
      }
      dirtyChannels := {};
    }

    method CommitLocked(subscribe: set<Channel>, unsubscribe: set<Channel>, subOk: bool, unsubOk: bool)
      modifies this`dirtyChannels, this`currentChannels
      ensures Subs() == Commit(old(Subs()), subscribe, unsubscribe, subOk, unsubOk)
    {
      if !subOk {
        dirtyChannels := dirtyChannels + subscribe;
      } else {
        currentChannels := currentChannels + subscribe;
      }
      if !unsubOk {
        dirtyChannels := dirtyChannels + unsubscribe;
      } else {
        var todo := unsubscribe;
        ghost var before := currentChannels;
        while todo != {}
          invariant todo <= unsubscribe
          invariant currentChannels == before - (unsubscribe - todo)
          decreases todo
          modifies this`currentChannels
        {
          var c :| c in todo;
          currentChannels := currentChannels - {c};
          todo := todo - {c};
        }
        assert currentChannels == before - unsubscribe;
      }
    }
  }
}
