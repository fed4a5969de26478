/** Joining name parts into channel names and handler keys (pkg/info/channels.go), and which inputs share a name. */
module ChannelFormat {
  import opened ChannelNames

  /** A part is a name or a list of names. */
  datatype Part = One(name: Name) | Many(names: seq<Name>)

  function Delim(prefix: bool, delim: char): string {
    if prefix then [delim] else ""
  }

  /** `appendChannelParts` on names: a delimiter goes before a name whose predecessor produced output. */
  function Names(delim: char, names: seq<Name>, prefix: bool): string {
    if names == [] then ""
    else Delim(prefix, delim) + Sanitize(names[0]) + Names(delim, names[1..], names[0] != [])
  }

  function PartText(delim: char, p: Part): string {
    match p
    case One(name) => Sanitize(name)
    case Many(names) => Names(delim, names, false)
  }

  /** `appendChannelParts` on parts. */
  function Parts(delim: char, parts: seq<Part>, prefix: bool): string {
    if parts == [] then ""
    else
      var text := PartText(delim, parts[0]);
      Delim(prefix, delim) + text + Parts(delim, parts[1..], text != "")
  }

  function Format(delim: char, parts: seq<Part>): string {
    Parts(delim, parts, false)
  }

  // ---- the names in use

  datatype Kind = REQ | RCLAIM | STR | CLAIM | RES

  function KindName(k: Kind): Name {
    match k
    case REQ => [0x52, 0x45, 0x51]
    case RCLAIM => [0x52, 0x43, 0x4c, 0x41, 0x49, 0x4d]
    case STR => [0x53, 0x54, 0x52]
    case CLAIM => [0x43, 0x4c, 0x41, 0x49, 0x4d]
    case RES => [0x52, 0x45, 0x53]
  }

  datatype Info = Info(service: Name, method_: Name, topic: seq<Name>)

  /** The `Legacy` names of GetRPCChannel, GetClaimResponseChannel and GetStreamServerChannel. */
  function ServerChannel(i: Info, k: Kind): string {
    Format('|', [One(i.service), One(i.method_), Many(i.topic), One(KindName(k))])
  }

  /** The `Legacy` names of GetClaimRequestChannel, GetStreamChannel and GetResponseChannel. */
  function ClientChannel(service: Name, client: Name, k: Kind): string {
    Format('|', [One(service), One(client), One(KindName(k))])
  }

  function HandlerKey(i: Info): string {
    Format('.', [One(i.method_), Many(i.topic)])
  }

  // ---- delimited lists

  function Join(delim: char, tokens: seq<string>): string {
    if tokens == [] then ""
    else if |tokens| == 1 then tokens[0]
    else tokens[0] + [delim] + Join(delim, tokens[1..])
  }

  /** Cuts at every delimiter. */
  function Split(delim: char, s: string): (tokens: seq<string>)
    ensures tokens != []
  {
    if s == "" then [""]
    else if s[0] == delim then [""] + Split(delim, s[1..])
    else
      var rest := Split(delim, s[1..]);
      [[s[0]] + rest[0]] + rest[1..]
  }

  lemma {:induction false} SplitToken(delim: char, t: string, s: string)
    requires delim !in t
    ensures Split(delim, t + s) == [t + Split(delim, s)[0]] + Split(delim, s)[1..]
  {
    var cut := Split(delim, s);
    if t == "" {
      assert t + s == s && t + cut[0] == cut[0];
    } else {
      assert (t + s)[1..] == t[1..] + s;
      SplitToken(delim, t[1..], s);
      assert [t[0]] + (t[1..] + cut[0]) == t + cut[0];
    }
  }

  lemma JoinCons(delim: char, t: string, rest: seq<string>)
    ensures rest != [] ==> Join(delim, [t] + rest) == t + [delim] + Join(delim, rest)
  {
    assert ([t] + rest)[1..] == rest;
  }

  /** Cutting a joined list gives the list back. */
  lemma {:induction false} SplitJoin(delim: char, tokens: seq<string>)
    requires tokens != [] && forall t | t in tokens :: delim !in t
    ensures Split(delim, Join(delim, tokens)) == tokens
  {
    var t, rest := tokens[0], tokens[1..];
    assert tokens == [t] + rest;
    if rest == [] {
      SplitToken(delim, t, "");
      assert t + "" == t && Split(delim, "") == [""];
    } else {
      var s := [delim] + Join(delim, rest);
      SplitJoin(delim, rest);
      SplitToken(delim, t, s);
      JoinCons(delim, t, rest);
      assert t + [delim] + Join(delim, rest) == t + s;
      assert s[1..] == Join(delim, rest);
      assert Split(delim, s) == [""] + rest;
      assert t + "" == t;
    }
  }

  function Encode(names: seq<Name>): (tokens: seq<string>)
    ensures |tokens| == |names|
  {
    if names == [] then [] else [Sanitize(names[0])] + Encode(names[1..])
  }

  lemma {:induction false} EncodeFree(names: seq<Name>, delim: char)
    requires Delimiter(delim)
    ensures forall t | t in Encode(names) :: delim !in t
  {
    if names != [] {
      SanitizeFree(names[0]);
      EncodeFree(names[1..], delim);
    }
  }

  lemma {:induction false} EncodeInjective(a: seq<Name>, b: seq<Name>)
    requires Encode(a) == Encode(b)
    ensures a == b
  {
    if a != [] {
      assert Encode(a)[1..] == Encode(a[1..]) && Encode(b)[1..] == Encode(b[1..]);
      SanitizeInjective(a[0], b[0]);
      EncodeInjective(a[1..], b[1..]);
      assert a == [a[0]] + a[1..] && b == [b[0]] + b[1..];
    }
  }

  // ---- what a list of names comes to

  /** The tokens a list of names is written as. */
  function Canon(names: seq<Name>): seq<Name> {
    if names == [] then []
    else if names[0] == [] then Canon(names[1..])
    else [names[0]] + CanonAfter(names[1..])
  }

  /** The tokens of a list that follows a name with output: an empty name ends the list with an empty token, unless
      there is a later name that is not empty. */
  function CanonAfter(names: seq<Name>): (tokens: seq<Name>)
    ensures tokens == [] <==> names == []
  {
    if names == [] then []
    else if names[0] != [] then [names[0]] + CanonAfter(names[1..])
    else if Canon(names[1..]) == [] then [[]]
    else Canon(names[1..])
  }

  lemma EncodeCons(name: Name, rest: seq<Name>)
    ensures Encode([name] + rest) == [Sanitize(name)] + Encode(rest)
  {
    assert ([name] + rest)[1..] == rest;
  }

  /** A name with output and the text that follows it. */
  function Follow(delim: char, tokens: seq<string>): string {
    if tokens == [] then "" else [delim] + Join(delim, tokens)
  }

  lemma JoinFollow(delim: char, t: string, rest: seq<string>)
    ensures Join(delim, [t] + rest) == t + Follow(delim, rest)
  {
    JoinCons(delim, t, rest);
    if rest == [] {
      assert [t] + rest == [t] && t + "" == t;
    } else {
      assert t + [delim] + Join(delim, rest) == t + Follow(delim, rest);
    }
  }

  lemma Concat(prefix: string, t: string, rest: string)
    ensures prefix + t + rest == prefix + (t + rest)
    ensures "" + t + rest == t + rest && prefix + "" + rest == prefix + rest
  {
  }

  /** The text of a list of names is its tokens, joined. */
  lemma {:induction false} NamesJoin(delim: char, names: seq<Name>)
    ensures Names(delim, names, false) == Join(delim, Encode(Canon(names)))
    ensures Names(delim, names, true) == Follow(delim, Encode(CanonAfter(names)))
  {
    if names != [] {
      var t, rest := Sanitize(names[0]), names[1..];
      NamesJoin(delim, rest);
      if names[0] == [] {
        Concat([delim], t, Names(delim, rest, false));
        EncodeCons([], []);
      } else {
        var tail := Encode(CanonAfter(rest));
        Concat([delim], t, Follow(delim, tail));
        EncodeCons(names[0], CanonAfter(rest));
        JoinFollow(delim, t, tail);
      }
    }
  }
}
