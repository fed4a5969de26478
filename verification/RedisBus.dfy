/** The lock-protected state of the Redis message bus (internal/bus/bus_redis.go) and its critical sections.

    Every function here is the effect of one critical section of the source: one region under `r.mu`, one region
    under the mutex of a write queue, or one operation on the one-slot `wakeup` channel.  Module `RedisSystem`
    interleaves them; class `RedisMessageBus.MessageBus` implements them on fields. */
module RedisBus {

  type Channel = string
  type Payload = string
  type SubId = nat
  /** A publish queue (`*redisWriteOpQueue`): an index into `Publications.arena`. */
  type QueueId = nat

  /** The two operations the single write worker executes. */
  datatype WriteOp =
    | ExecPublish(channel: Channel, queue: QueueId)
    | Reconcile

  datatype WriteQueue = WriteQueue(ops: seq<WriteOp>, wakeup: bool)

  datatype Publications = Publications(publishOps: map<Channel, QueueId>, arena: seq<seq<Payload>>) {
    predicate Attached(c: Channel, q: QueueId) {
      c in publishOps && publishOps[c] == q && q < |arena|
    }
  }

  datatype SubList = SubList(subs: seq<SubId>, next: nat)

  datatype Subscriptions = Subscriptions(
    subs: map<Channel, SubList>,
    queues: map<Channel, SubList>,
    dirty: set<Channel>,
    current: set<Channel>)
  {
    /** Somebody in this process subscribes to `c`. */
    predicate Desired(c: Channel) {
      c in subs || c in queues
    }

    function Lists(queue: bool): map<Channel, SubList> {
      if queue then queues else subs
    }

    function WithLists(queue: bool, lists: map<Channel, SubList>): Subscriptions {
      if queue then this.(queues := lists) else this.(subs := lists)
    }
  }

  // ---- publishing

  datatype Published = Published(pubs: Publications, created: bool, queue: QueueId)

  /** `Publish`, the region under `r.mu`: look up or create the queue of the channel, then push. */
  function Publish(p: Publications, c: Channel, b: Payload): Published
    requires c in p.publishOps ==> p.publishOps[c] < |p.arena|
  {
    if c in p.publishOps then
      var q := p.publishOps[c];
      Published(p.(arena := p.arena[q := p.arena[q] + [b]]), false, q)
    else
      var q := |p.arena|;
      Published(Publications(p.publishOps[c := q], p.arena + [[b]]), true, q)
  }

  /** `drain` on a publish queue, the region that pops. */
  function PopFront(p: Publications, q: QueueId): Publications
    requires q < |p.arena| && p.arena[q] != []
  {
    p.(arena := p.arena[q := p.arena[q][1..]])
  }

  /** `exec`, the end of one region under `r.mu`: detach the emptied queue. */
  function Detach(p: Publications, c: Channel): Publications {
    p.(publishOps := p.publishOps - {c})
  }

  /** `redisWriteOpQueue.push` on the write queue. */
  function Push(w: WriteQueue, op: WriteOp): WriteQueue {
    w.(ops := w.ops + [op])
  }

  // ---- subscriptions

  /** `subscribe` when the channel has no list: map an empty one and mark the channel dirty. */
  function OpenList(s: Subscriptions, c: Channel, queue: bool): Subscriptions {
    s.WithLists(queue, s.Lists(queue)[c := SubList([], 0)]).(dirty := s.dirty + {c})
  }

  /** `subscribe`, the append to the list. */
  function AppendSub(s: Subscriptions, c: Channel, queue: bool, sub: SubId): Subscriptions
    requires c in s.Lists(queue)
  {
    var l := s.Lists(queue)[c];
    s.WithLists(queue, s.Lists(queue)[c := l.(subs := l.subs + [sub])])
  }

  /** `slices.Index`: the first position of `x`, or -1. */
  function IndexOf(s: seq<SubId>, x: SubId): (i: int)
    ensures -1 <= i < |s|
    ensures i == -1 <==> x !in s
    ensures i >= 0 ==> s[i] == x && forall k :: 0 <= k < i ==> s[k] != x
  {
    if s == [] then -1
    else if s[0] == x then 0
    else
      var r := IndexOf(s[1..], x);
      if r == -1 then -1 else r + 1
  }

  /** Whether `unsubscribe` removes the last subscriber of the list. */
  predicate Empties(s: Subscriptions, c: Channel, queue: bool, sub: SubId) {
    c in s.Lists(queue) && s.Lists(queue)[c].subs == [sub]
  }

  /** `unsubscribe` up to the reconciliation request. */
  function Remove(s: Subscriptions, c: Channel, queue: bool, sub: SubId): Subscriptions {
    var lists := s.Lists(queue);
    if c !in lists || IndexOf(lists[c].subs, sub) == -1 then s
    else
      var i := IndexOf(lists[c].subs, sub);
      var left := lists[c].subs[..i] + lists[c].subs[i + 1..];
      if left == [] then s.WithLists(queue, lists - {c}).(dirty := s.dirty + {c})
      else s.WithLists(queue, lists[c := lists[c].(subs := left)])
  }

  // ---- dispatch of a received message

  /** `dispatchQueue`: the position of the subscriber that gets the message. */
  function Chosen(l: SubList): (i: nat)
    requires l.subs != []
    ensures i < |l.subs|
  {
    if l.next >= |l.subs| then 0 else l.next
  }

  function DispatchQueue(l: SubList): SubList
    requires l.subs != []
  {
    l.(next := Chosen(l) + 1)
  }

  /** Who gets a message that arrives on `c`: everybody on the plain list. */
  function PlainReceivers(s: Subscriptions, c: Channel): seq<SubId> {
    if c in s.subs then s.subs[c].subs else []
  }

  /** One subscriber of the queue list, if there is any. */
  function QueueReceiver(s: Subscriptions, c: Channel): seq<SubId>
    requires c in s.queues ==> s.queues[c].subs != []
  {
    if c in s.queues then [s.queues[c].subs[Chosen(s.queues[c])]] else []
  }

  // ---- reconciliation

  datatype Plan = Plan(state: Subscriptions, subscribe: set<Channel>, unsubscribe: set<Channel>)

  /** One pass over the dirty channels under `r.mu`. */
  function MakePlan(s: Subscriptions): Plan {
    Plan(s.(dirty := {}),
         set c | c in s.dirty && c !in s.current && s.Desired(c),
         set c | c in s.dirty && c in s.current && !s.Desired(c))
  }

  /** Recording the outcome of the two broker calls under `r.mu`. */
  function Commit(s: Subscriptions, sub: set<Channel>, unsub: set<Channel>, subOk: bool, unsubOk: bool): Subscriptions {
    var s1 := if subOk then s.(current := s.current + sub) else s.(dirty := s.dirty + sub);
    if unsubOk then s1.(current := s1.current - unsub) else s1.(dirty := s1.dirty + unsub)
  }
}
