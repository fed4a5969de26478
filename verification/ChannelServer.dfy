/** The `Server` names of pkg/info/channels.go: the service as it is, the topic escaped, and a suffix for queues. */
module ChannelServer {
  import opened ChannelNames
  import opened ChannelFormat
  import opened ChannelTheorems
  import opened ChannelBuffer

  /** The suffix of a queue, as a name. */
  const QUEUE: Name := [0x51]

  /** What follows the service: the names of the topic that are not empty, and the queue suffix. */
  function SuffixTokens(topic: seq<Name>, queue: bool): seq<Name> {
    NonEmpty(topic) + if queue then [QUEUE] else []
  }

  function Dotted(names: seq<Name>): string {
    if names == [] then "" else "." + Sanitize(names[0]) + Dotted(names[1..])
  }

  function ServerName(service: string, topic: seq<Name>, queue: bool): string {
    "SRV." + service + Dotted(SuffixTokens(topic, queue))
  }

  lemma {:induction false} DottedAppend(a: seq<Name>, b: seq<Name>)
    ensures Dotted(a + b) == Dotted(a) + Dotted(b)
  {
    if a == [] {
      assert a + b == b && "" + Dotted(b) == Dotted(b);
    } else {
      assert (a + b)[1..] == a[1..] + b;
      DottedAppend(a[1..], b);
      Assoc("." + Sanitize(a[0]), Dotted(a[1..]), Dotted(b));
    }
  }

  lemma DottedOne(t: Name)
    ensures Dotted([t]) == "." + Sanitize(t)
  {
    assert |[t][1..]| == 0;
    assert "." + Sanitize(t) + "" == "." + Sanitize(t);
  }

  lemma QueueSuffix()
    ensures Dotted([QUEUE]) == ".Q" && Dotted([]) == ""
  {
    assert QUEUE[1..] == [] && [QUEUE][1..] == [];
    assert Escape(QUEUE[0]) == "Q";
    assert Sanitize(QUEUE) == "Q" + Sanitize([]);
    assert "." + Sanitize(QUEUE) + "" == ".Q";
  }

  method FormatServerChannel(service: string, topic: seq<Name>, queue: bool) returns (name: string)
    ensures name == ServerName(service, topic, queue)
  {
    name := "SRV." + service;
    ghost var start := name;
    for i := 0 to |topic|
      invariant name + Dotted(NonEmpty(topic[i..])) == start + Dotted(NonEmpty(topic))
    {
      assert topic[i..][1..] == topic[i + 1..];
      var t := topic[i];
      if |t| != 0 {
        DottedAppend([t], NonEmpty(topic[i + 1..]));
        DottedOne(t);
        Assoc(name, "." + Sanitize(t), Dotted(NonEmpty(topic[i + 1..])));
        Assoc(name, ".", Sanitize(t));
        name := name + ".";
        name := AppendSanitizedChannelPart(name, t);
      } else {
        assert [] + NonEmpty(topic[i + 1..]) == NonEmpty(topic[i + 1..]);
      }
    }
    assert name == start + Dotted(NonEmpty(topic));
    QueueSuffix();
    DottedAppend(NonEmpty(topic), if queue then [QUEUE] else []);
    Assoc(start, Dotted(NonEmpty(topic)), Dotted(if queue then [QUEUE] else []));
    if queue {
      name := name + ".Q";
    }
  }

  /** A dotted suffix is a delimiter and the names, joined. */
  lemma {:induction false} DottedJoin(names: seq<Name>)
    ensures Dotted(names) == Follow('.', Encode(names))
  {
    if names != [] {
      var t, rest := Sanitize(names[0]), names[1..];
      DottedJoin(rest);
      assert names == [names[0]] + rest;
      EncodeCons(names[0], rest);
      JoinFollow('.', t, Encode(rest));
      Assoc(".", t, Dotted(rest));
    }
  }

  /** Within one service, two names are equal exactly when topics and queue suffixes spell the same list. */
  lemma ServerNamesEqual(service: string, topic: seq<Name>, queue: bool, topic': seq<Name>, queue': bool)
    ensures ServerName(service, topic, queue) == ServerName(service, topic', queue') <==>
      SuffixTokens(topic, queue) == SuffixTokens(topic', queue')
  {
    var a, b := SuffixTokens(topic, queue), SuffixTokens(topic', queue');
    var x, y := Dotted(a), Dotted(b);
    var start := "SRV." + service;
    if start + x == start + y {
      assert x == (start + x)[|start|..] && y == (start + y)[|start|..];
      DottedJoin(a);
      DottedJoin(b);
      if a != [] && b != [] {
        assert x[1..] == Join('.', Encode(a)) && y[1..] == Join('.', Encode(b));
        JoinInjective('.', a, b);
      }
    }
  }

  /** In particular a queue shares its name with the topic that ends in `Q`. */
  lemma QueueIsTopic(service: string, topic: seq<Name>)
    ensures ServerName(service, topic, true) == ServerName(service, topic + [QUEUE], false)
  {
    NonEmptyAppend(topic, QUEUE);
    assert SuffixTokens(topic + [QUEUE], false) == SuffixTokens(topic, true);
  }

  lemma {:induction false} NonEmptyAppend(names: seq<Name>, name: Name)
    requires name != []
    ensures NonEmpty(names + [name]) == NonEmpty(names) + [name]
  {
    if names == [] {
      assert names + [name] == [name] && [name][1..] == [];
    } else {
      assert (names + [name])[1..] == names[1..] + [name];
      NonEmptyAppend(names[1..], name);
    }
  }
}
