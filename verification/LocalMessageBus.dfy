/** The local bus of internal/bus/bus_local.go as a class: two maps of shared subscriber lists. */
module LocalMessageBus {
  import opened Options
  import LocalList
  import opened LocalSubList

  type Channel = string

  class LocalMessageBus {
    var subs: map<Channel, LocalSubList>
    var queues: map<Channel, LocalSubList>

    function Lists(queue: bool): map<Channel, LocalSubList>
      reads this
    {
      if queue then queues else subs
    }

    function Mapped(channel: Channel, queue: bool): set<object>
      reads this
    {
      if channel in Lists(queue) then {Lists(queue)[channel]} else {}
    }

    /** No list is mapped twice, and a list knows in which map it is. */
    ghost predicate Valid()
      reads this, subs.Values, queues.Values
    {
      && (forall c | c in subs :: !subs[c].queue)
      && (forall c | c in queues :: queues[c].queue)
      && (forall c, d | c in subs && d in subs && c != d :: subs[c] != subs[d])
      && (forall c, d | c in queues && d in queues && c != d :: queues[c] != queues[d])
    }

    constructor ()
      ensures Valid() && subs == map[] && queues == map[]
    {
      subs, queues := map[], map[];
    }

    /** `list` and `index` are what the close callback of the new subscription captures. */
    method Subscribe(channel: Channel, queue: bool, sub: LocalList.SubId) returns (list: LocalSubList, index: nat)
      requires Valid()
      modifies this, Mapped(channel, queue)
      ensures Valid() && Lists(!queue) == old(Lists(!queue)) && Lists(queue) == old(Lists(queue))[channel := list]
      ensures if channel in old(Lists(queue)) then list == old(Lists(queue))[channel] else fresh(list)
      ensures list.State() == LocalList.Create(
                if channel in old(Lists(queue)) then old(Lists(queue)[channel].State())
                else LocalList.SubList([], 0, queue, 0),
                sub)
      ensures index < |list.subs| && list.subs[index] == Some(sub)
    {
      if channel in Lists(queue) {
        list := Lists(queue)[channel];
        index := list.Create(sub);
        assert Lists(queue)[channel := list] == Lists(queue);
      } else {
        list := new LocalSubList(queue);
        index := list.Create(sub);
        if queue {
          queues := queues[channel := list];
        } else {
          subs := subs[channel := list];
        }
      }
    }

    /** The callback: it vacates the slot and, when the list is empty, unmaps the channel. */
    method OnUnsubscribe(list: LocalSubList, channel: Channel, index: nat)
      requires Valid() && index < |list.subs|
      modifies this, list
      ensures Valid() && list.State() == LocalList.Vacate(old(list.State()), index)
      ensures Lists(!list.queue) == old(Lists(!list.queue))
      ensures Lists(list.queue) == old(Lists(list.queue)) - if list.subCount == 0 then {channel} else {}
    {
      list.Vacate(index);
      if list.subCount == 0 {
        if list.queue {
          queues := queues - {channel};
        } else {
          subs := subs - {channel};
        }
      }
    }

    /** What `Publish` reads under the lock; it dispatches to these lists after releasing it. */
    method Lookup(channel: Channel) returns (plain: Option<LocalSubList>, queue: Option<LocalSubList>)
      requires Valid()
      ensures plain == if channel in subs then Some(subs[channel]) else None
      ensures queue == if channel in queues then Some(queues[channel]) else None
      ensures plain.Some? && queue.Some? ==> plain.value != queue.value
    {
      plain := if channel in subs then Some(subs[channel]) else None;
      queue := if channel in queues then Some(queues[channel]) else None;
    }
  }
}
