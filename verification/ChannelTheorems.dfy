/** Routing isolation: which requests share a channel name or a handler key. */
module ChannelTheorems {
  import opened ChannelNames
  import opened ChannelFormat

  function Single(name: Name): seq<Name> {
    if name == [] then [] else [name]
  }

  function ServerTokens(i: Info): seq<Name> {
    Single(i.service) + (Single(i.method_) + Canon(i.topic))
  }

  function KeyTokens(i: Info): seq<Name> {
    if i.method_ == [] then Canon(i.topic)
    else [i.method_] + (if Canon(i.topic) == [] then [[]] else Canon(i.topic))
  }

  /** A list whose first token is not empty. */
  ghost predicate Leading(tokens: seq<Name>) {
    tokens != [] ==> tokens[0] != []
  }

  lemma {:induction false} CanonLeading(names: seq<Name>)
    ensures Leading(Canon(names))
  {
    if names != [] && names[0] == [] {
      CanonLeading(names[1..]);
    }
  }

  /** Text with output gets a delimiter before what follows. */
  lemma {:induction false} JoinGlue(a: seq<Name>, b: seq<Name>)
    requires Leading(a) && b != []
    ensures var text := Join('|', Encode(a));
      Join('|', Encode(a + b)) == text + Delim(text != "", '|') + Join('|', Encode(b))
    ensures Join('|', Encode(a)) == "" <==> a == []
  {
    if a == [] {
      assert a + b == b;
      assert "" + "" + Join('|', Encode(b)) == Join('|', Encode(b));
    } else {
      assert a == [a[0]] + a[1..];
      EncodeCons(a[0], a[1..]);
      JoinFollow('|', Sanitize(a[0]), Encode(a[1..]));
      GlueAll(a, b);
    }
  }

  lemma {:induction false} GlueAll(a: seq<Name>, b: seq<Name>)
    requires a != [] && b != []
    ensures Join('|', Encode(a + b)) == Join('|', Encode(a)) + "|" + Join('|', Encode(b))
  {
    var t, rest := Sanitize(a[0]), a[1..];
    assert a + b == [a[0]] + (rest + b) && a == [a[0]] + rest;
    EncodeCons(a[0], rest + b);
    EncodeCons(a[0], rest);
    JoinCons('|', t, Encode(rest + b));
    JoinCons('|', t, Encode(rest));
    if rest == [] {
      assert rest + b == b;
      assert [t] + [] == [t];
    } else {
      GlueAll(rest, b);
      var x, y := Join('|', Encode(rest)), Join('|', Encode(b));
      Regroup(t + "|", x, "|", y);
    }
  }

  lemma Regroup(a: string, b: string, c: string, d: string)
    ensures a + (b + c + d) == a + b + c + d
  {
  }

  lemma SingleJoin(name: Name)
    ensures Join('|', Encode(Single(name))) == Sanitize(name) && Leading(Single(name))
  {
    if name != [] {
      EncodeCons(name, []);
      assert [name] + [] == [name];
    }
  }

  /** A part in front of others is followed by a delimiter when it has output. */
  lemma PartsCons(delim: char, p: Part, parts: seq<Part>)
    requires parts != []
    ensures var text := PartText(delim, p);
      Parts(delim, [p] + parts, false) == text + Delim(text != "", delim) + Parts(delim, parts, false)
  {
    var text := PartText(delim, p);
    assert ([p] + parts)[1..] == parts;
    PartsPrefix(delim, parts, text != "");
    Concat(text, Delim(text != "", delim), Parts(delim, parts, false));
    assert "" + text == text;
  }

  lemma PartsPrefix(delim: char, parts: seq<Part>, prefix: bool)
    requires parts != []
    ensures Parts(delim, parts, prefix) == Delim(prefix, delim) + Parts(delim, parts, false)
  {
    var text := PartText(delim, parts[0]);
    Concat(Delim(prefix, delim), text, Parts(delim, parts[1..], text != ""));
  }

  lemma LastPart(delim: char, p: Part)
    ensures Parts(delim, [p], false) == PartText(delim, p)
  {
    assert [p][1..] == [];
    assert "" + PartText(delim, p) + "" == PartText(delim, p);
  }

  /** A part in front of a list of parts puts its tokens in front of theirs. */
  lemma PartGlue(p: Part, mine: seq<Name>, parts: seq<Part>, tokens: seq<Name>)
    requires PartText('|', p) == Join('|', Encode(mine)) && Leading(mine)
    requires parts != [] && tokens != [] && Parts('|', parts, false) == Join('|', Encode(tokens))
    ensures Parts('|', [p] + parts, false) == Join('|', Encode(mine + tokens))
  {
    PartsCons('|', p, parts);
    JoinGlue(mine, tokens);
  }

  lemma OneGlue(name: Name, parts: seq<Part>, tokens: seq<Name>)
    requires parts != [] && tokens != [] && Parts('|', parts, false) == Join('|', Encode(tokens))
    ensures Parts('|', [One(name)] + parts, false) == Join('|', Encode(Single(name) + tokens))
  {
    SingleJoin(name);
    PartGlue(One(name), Single(name), parts, tokens);
  }

  lemma KindTokens(k: Kind)
    ensures Parts('|', [One(KindName(k))], false) == Join('|', Encode([KindName(k)]))
  {
    LastPart('|', One(KindName(k)));
    SingleJoin(KindName(k));
  }

  lemma TopicTokens(topic: seq<Name>, k: Kind)
    ensures Parts('|', [Many(topic)] + [One(KindName(k))], false) == Join('|', Encode(Canon(topic) + [KindName(k)]))
  {
    KindTokens(k);
    NamesJoin('|', topic);
    CanonLeading(topic);
    PartGlue(Many(topic), Canon(topic), [One(KindName(k))], [KindName(k)]);
  }

  lemma ServerGlue(i: Info, k: Kind)
    ensures Parts('|', [One(i.service)] + ([One(i.method_)] + ([Many(i.topic)] + [One(KindName(k))])), false) ==
      Join('|', Encode(Single(i.service) + (Single(i.method_) + (Canon(i.topic) + [KindName(k)]))))
  {
    var parts := [Many(i.topic)] + [One(KindName(k))];
    var tokens := Canon(i.topic) + [KindName(k)];
    TopicTokens(i.topic, k);
    OneGlue(i.method_, parts, tokens);
    OneGlue(i.service, [One(i.method_)] + parts, Single(i.method_) + tokens);
  }

  lemma FourParts(a: Part, b: Part, c: Part, d: Part)
    ensures [a] + ([b] + ([c] + [d])) == [a, b, c, d]
  {
  }

  lemma Reassociate(a: seq<Name>, b: seq<Name>, c: seq<Name>, d: seq<Name>)
    ensures a + (b + (c + d)) == a + (b + c) + d
  {
  }

  /** A server channel is its tokens and its kind, joined. */
  lemma ServerJoin(i: Info, k: Kind)
    ensures ServerChannel(i, k) == Join('|', Encode(ServerTokens(i) + [KindName(k)]))
  {
    ServerGlue(i, k);
    var kind := KindName(k);
    FourParts(One(i.service), One(i.method_), Many(i.topic), One(kind));
    Reassociate(Single(i.service), Single(i.method_), Canon(i.topic), [kind]);
  }

  /** A client channel is the names and the kind, joined. */
  lemma ClientJoin(service: Name, client: Name, k: Kind)
    ensures ClientChannel(service, client, k) ==
      Join('|', Encode(ServerTokens(Info(service, client, [])) + [KindName(k)]))
  {
    KindTokens(k);
    OneGlue(client, [One(KindName(k))], [KindName(k)]);
    OneGlue(service, [One(client)] + [One(KindName(k))], Single(client) + [KindName(k)]);
    assert [One(service)] + ([One(client)] + [One(KindName(k))]) == [One(service), One(client), One(KindName(k))];
    assert Single(service) + (Single(client) + [KindName(k)]) ==
      ServerTokens(Info(service, client, [])) + [KindName(k)];
  }

  /** Different token lists are written differently. */
  lemma JoinInjective(delim: char, a: seq<Name>, b: seq<Name>)
    requires Delimiter(delim) && a != [] && b != []
    ensures Join(delim, Encode(a)) == Join(delim, Encode(b)) <==> a == b
  {
    EncodeFree(a, delim);
    EncodeFree(b, delim);
    SplitJoin(delim, Encode(a));
    SplitJoin(delim, Encode(b));
    if Encode(a) == Encode(b) {
      EncodeInjective(a, b);
    }
  }

  lemma LastApart(a: seq<Name>, b: seq<Name>, k: Kind, l: Kind)
    ensures a + [KindName(k)] == b + [KindName(l)] <==> a == b && k == l
  {
    if a + [KindName(k)] == b + [KindName(l)] {
      assert (a + [KindName(k)])[|a|] == KindName(k) && (b + [KindName(l)])[|b|] == KindName(l);
      assert a == (a + [KindName(k)])[..|a|] && b == (b + [KindName(l)])[..|b|];
    }
  }

  /** Two server channels have the same name exactly when they are of the same kind and their tokens agree. */
  lemma ServerChannelsEqual(i: Info, k: Kind, j: Info, l: Kind)
    ensures ServerChannel(i, k) == ServerChannel(j, l) <==> k == l && ServerTokens(i) == ServerTokens(j)
  {
    ServerJoin(i, k);
    ServerJoin(j, l);
    JoinInjective('|', ServerTokens(i) + [KindName(k)], ServerTokens(j) + [KindName(l)]);
    LastApart(ServerTokens(i), ServerTokens(j), k, l);
  }

  function NonEmpty(names: seq<Name>): seq<Name> {
    if names == [] then []
    else (if names[0] == [] then [] else [names[0]]) + NonEmpty(names[1..])
  }

  predicate EndsEmpty(names: seq<Name>) {
    names != [] && names[|names| - 1] == []
  }

  /** The tokens of a topic are its names that are not empty, and an empty token when the last name is empty and
      some other name is not. */
  lemma {:induction false} CanonMeaning(names: seq<Name>)
    ensures Canon(names) == NonEmpty(names) + (if EndsEmpty(names) && NonEmpty(names) != [] then [[]] else [])
    ensures CanonAfter(names) == NonEmpty(names) + (if EndsEmpty(names) then [[]] else [])
  {
    if names != [] {
      CanonMeaning(names[1..]);
      assert names[1..] != [] ==> EndsEmpty(names[1..]) == EndsEmpty(names);
    }
  }

  /** No part is empty. */
  ghost predicate Proper(i: Info) {
    i.service != [] && i.method_ != [] && forall n | 0 <= n < |i.topic| :: i.topic[n] != []
  }

  lemma {:induction false} CanonProper(names: seq<Name>)
    requires forall n | 0 <= n < |names| :: names[n] != []
    ensures Canon(names) == names && CanonAfter(names) == names
  {
    if names != [] {
      CanonProper(names[1..]);
      assert names == [names[0]] + names[1..];
    }
  }

  lemma ProperTokens(i: Info)
    requires Proper(i)
    ensures ServerTokens(i) == [i.service, i.method_] + i.topic
  {
    CanonProper(i.topic);
  }

  lemma TokensProper(i: Info, j: Info)
    requires Proper(i) && Proper(j)
    ensures ServerTokens(i) == ServerTokens(j) <==> i == j
  {
    ProperTokens(i);
    ProperTokens(j);
    PairApart([i.service, i.method_], i.topic, [j.service, j.method_], j.topic);
  }

  lemma PairApart(a: seq<Name>, s: seq<Name>, b: seq<Name>, t: seq<Name>)
    requires |a| == 2 && |b| == 2
    ensures a + s == b + t <==> a[0] == b[0] && a[1] == b[1] && s == t
  {
    if a + s == b + t {
      assert s == (a + s)[2..] && t == (b + t)[2..];
      assert a[0] == (a + s)[0] && a[1] == (a + s)[1] && b[0] == (b + t)[0] && b[1] == (b + t)[1];
    } else if a[0] == b[0] && a[1] == b[1] {
      assert a == b;
    }
  }

  /** Without empty parts a server channel determines service, method, topic list and kind. */
  lemma ServerChannelDetermines(i: Info, k: Kind, j: Info, l: Kind)
    requires Proper(i) && Proper(j)
    ensures ServerChannel(i, k) == ServerChannel(j, l) <==> i == j && k == l
  {
    ServerChannelsEqual(i, k, j, l);
    TokensProper(i, j);
  }

  /** Without empty parts a client's channel is the server channel of a method exactly when the method has the name
      of the client, no topic, and the same service and kind. */
  lemma ClientMeetsServer(service: Name, client: Name, k: Kind, j: Info, l: Kind)
    requires service != [] && client != [] && Proper(j)
    ensures ClientChannel(service, client, k) == ServerChannel(j, l) <==> j == Info(service, client, []) && k == l
  {
    var i := Info(service, client, []);
    ClientJoin(service, client, k);
    ServerJoin(i, k);
    ServerChannelDetermines(i, k, j, l);
  }

  lemma KeyJoin(i: Info)
    ensures HandlerKey(i) == Join('.', Encode(KeyTokens(i)))
  {
    var t, text := Sanitize(i.method_), Names('.', i.topic, false);
    NamesJoin('.', i.topic);
    PartsCons('.', One(i.method_), [Many(i.topic)]);
    LastPart('.', Many(i.topic));
    assert [One(i.method_)] + [Many(i.topic)] == [One(i.method_), Many(i.topic)];
    assert HandlerKey(i) == t + Delim(t != "", '.') + text;
    if i.method_ == [] {
      assert "" + "" + text == text;
    } else {
      var tokens := if Canon(i.topic) == [] then [[]] else Canon(i.topic);
      EncodeCons(i.method_, tokens);
      EncodeCons([], []);
      JoinCons('.', t, Encode(tokens));
    }
  }

  /** Two handler keys are equal exactly when their tokens are. */
  lemma HandlerKeysEqual(i: Info, j: Info)
    ensures HandlerKey(i) == HandlerKey(j) <==> KeyTokens(i) == KeyTokens(j)
  {
    KeyJoin(i);
    KeyJoin(j);
    if KeyTokens(i) != [] && KeyTokens(j) != [] {
      JoinInjective('.', KeyTokens(i), KeyTokens(j));
    } else {
      KeyNotEmpty(i);
      KeyNotEmpty(j);
    }
  }

  lemma KeyNotEmpty(i: Info)
    ensures Join('.', Encode(KeyTokens(i))) == "" <==> KeyTokens(i) == []
  {
    CanonLeading(i.topic);
    var tokens := KeyTokens(i);
    if tokens != [] {
      assert tokens == [tokens[0]] + tokens[1..];
      EncodeCons(tokens[0], tokens[1..]);
      JoinFollow('.', Sanitize(tokens[0]), Encode(tokens[1..]));
    }
  }

  /** Without empty parts a handler key determines method and topic list. */
  lemma HandlerKeyDetermines(i: Info, j: Info)
    requires Proper(i) && Proper(j)
    ensures HandlerKey(i) == HandlerKey(j) <==> i.method_ == j.method_ && i.topic == j.topic
  {
    HandlerKeysEqual(i, j);
    CanonProper(i.topic);
    CanonProper(j.topic);
    if KeyTokens(i) == KeyTokens(j) {
      assert KeyTokens(i)[0] == i.method_ && KeyTokens(j)[0] == j.method_;
      assert KeyTokens(i)[1..] == KeyTokens(j)[1..];
      assert i.topic == [] ==> KeyTokens(i)[1..] == [[]];
      assert j.topic == [] ==> KeyTokens(j)[1..] == [[]];
      assert i.topic != [] ==> KeyTokens(i)[1..] == i.topic;
      assert j.topic != [] ==> KeyTokens(j)[1..] == j.topic;
    }
  }

  /** With an empty topic part, different requests can share a channel. */
  lemma EmptyPartsCollide()
    ensures exists i: Info, j: Info, k: Kind :: i != j && ServerChannel(i, k) == ServerChannel(j, k)
  {
    var a: Name := [0x61];
    var i, j := Info(a, a, [a, [], a]), Info(a, a, [a, a]);
    assert Canon([a]) == [a] && CanonAfter([a]) == [a];
    assert [a, [], a][1..] == [[], a] && [[], a][1..] == [a] && [a, a][1..] == [a];
    assert CanonAfter([[], a]) == [a];
    assert Canon(i.topic) == [a] + [a] && Canon(j.topic) == [a] + [a];
    ServerChannelsEqual(i, REQ, j, REQ);
    assert |i.topic| != |j.topic|;
  }
}
