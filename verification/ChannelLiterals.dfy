/** What channel names look like: which characters stand for themselves, how the others are spelled, and the names of
    services, methods and topics that need no escape. */
module ChannelLiterals {
  import opened ChannelNames
  import opened ChannelFormat
  import opened ChannelTheorems
  import opened ChannelServer
  import ChannelBuffer

  /** Digits, letters and the underscore. */
  predicate Literal(r: Rune) {
    || '0' as int <= r <= '9' as int
    || 'A' as int <= r <= 'Z' as int
    || 'a' as int <= r <= 'z' as int
    || r == '_' as int
  }

  ghost predicate AllLiteral(name: Name) {
    forall k | 0 <= k < |name| :: Literal(name[k])
  }

  /** `s` spells the runes of a name, one character for each. */
  ghost predicate Spells(s: string, name: Name) {
    |s| == |name| && forall k | 0 <= k < |s| :: s[k] as int == name[k]
  }

  /** A name of literal characters is its own sanitized form, and no other name is. */
  lemma {:induction false} LiteralIff(name: Name)
    ensures Spells(Sanitize(name), name) <==> AllLiteral(name)
    ensures |Sanitize(name)| >= |name|
  {
    if name != [] {
      var rest := name[1..];
      LiteralIff(rest);
      assert |Escape(name[0])| == 1 <==> Literal(name[0]);
      var s := Sanitize(name);
      assert s == Escape(name[0]) + Sanitize(rest);
      if Literal(name[0]) {
        assert s[1..] == Sanitize(rest);
        if Spells(s, name) {
          assert forall k | 0 <= k < |rest| :: s[1..][k] == s[k + 1] && rest[k] == name[k + 1];
        }
        if AllLiteral(name) {
          assert forall k | 0 <= k < |rest| :: rest[k] == name[k + 1];
          assert forall k | 0 < k < |name| :: s[k] == s[1..][k - 1] && name[k] == rest[k - 1];
        }
      }
    }
  }

  /** The hexadecimal digit of a number below 16. */
  function Digit(d: nat): char
    requires d < 16
  {
    if d < 10 then ('0' as int + d) as char else ('a' as int + d - 10) as char
  }

  /** A number divided `k` times by 16. */
  function Quotient(r: nat, k: nat): nat {
    if k == 0 then r else Quotient(r / 16, k - 1)
  }

  lemma {:induction false} HexDigitAt(r: nat, n: nat, k: nat)
    requires k < n
    ensures HexDigits(r, n)[n - 1 - k] == Digit(Quotient(r, k) % 16)
  {
    assert HexDigits(r, n) == HexDigits(r / 16, n - 1) + [LOWER_HEX[r % 16]];
    if k > 0 {
      HexDigitAt(r / 16, n - 1, k - 1);
    }
  }

  /** Any other rune is spelled with `u+` and four digits, or with `U+` and eight when four do not suffice; the digit
      `k` places from the end is that of `r / 16^k`. */
  lemma EscapeSpelling(r: Rune, k: nat)
    requires !Literal(r) && k < if r < 0x10000 then 4 else 8
    ensures var n, s := if r < 0x10000 then 4 else 8, Escape(r);
      |s| == n + 2 && s[..2] == (if r < 0x10000 then "u+" else "U+") && s[n + 1 - k] == Digit(Quotient(r, k) % 16)
  {
    HexDigitAt(r, if r < 0x10000 then 4 else 8, k);
  }

  // ---- names that need no escape

  /** The name of a string. */
  function Runes(s: string): (name: Name)
    ensures |name| == |s| && forall k :: 0 <= k < |s| ==> name[k] == s[k] as int
  {
    if s == "" then [] else [s[0] as int] + Runes(s[1..])
  }

  function RunesAll(ss: seq<string>): (names: seq<Name>)
    ensures |names| == |ss| && forall k :: 0 <= k < |ss| ==> names[k] == Runes(ss[k])
  {
    if ss == [] then [] else [Runes(ss[0])] + RunesAll(ss[1..])
  }

  /** A string that is not empty and needs no escape. */
  ghost predicate Plain(s: string) {
    s != "" && AllLiteral(Runes(s))
  }

  ghost predicate AllPlain(ss: seq<string>) {
    forall k | 0 <= k < |ss| :: Plain(ss[k])
  }

  lemma PlainLast(ss: seq<string>, last: string)
    requires AllPlain(ss) && Plain(last)
    ensures AllPlain(ss + [last])
  {
  }

  lemma PlainSanitized(s: string)
    requires Plain(s)
    ensures Sanitize(Runes(s)) == s
  {
    LiteralIff(Runes(s));
    assert forall k | 0 <= k < |s| :: Sanitize(Runes(s))[k] as int == s[k] as int;
  }

  lemma {:induction false} PlainEncoded(ss: seq<string>)
    requires AllPlain(ss)
    ensures Encode(RunesAll(ss)) == ss
  {
    if ss != [] {
      PlainSanitized(ss[0]);
      PlainEncoded(ss[1..]);
      EncodeCons(Runes(ss[0]), RunesAll(ss[1..]));
      assert ss == [ss[0]] + ss[1..];
    }
  }

  function KindText(k: Kind): string {
    match k
    case REQ => "REQ"
    case RCLAIM => "RCLAIM"
    case STR => "STR"
    case CLAIM => "CLAIM"
    case RES => "RES"
  }

  lemma KindIsPlain(k: Kind)
    ensures Plain(KindText(k)) && KindName(k) == Runes(KindText(k))
  {
  }

  lemma RunesPair(a: string, b: string, topic: seq<string>, c: string)
    ensures RunesAll([a, b] + topic + [c]) == [Runes(a), Runes(b)] + RunesAll(topic) + [Runes(c)]
  {
  }

  lemma RunesHead(a: string, topic: seq<string>)
    ensures RunesAll([a] + topic) == [Runes(a)] + RunesAll(topic)
  {
  }

  lemma PlainProper(service: string, method_: string, topic: seq<string>)
    requires Plain(service) && Plain(method_) && AllPlain(topic)
    ensures Proper(Info(Runes(service), Runes(method_), RunesAll(topic)))
  {
  }

  /** Without characters to escape, a server channel is service, method, topic names and kind with bars between them. */
  lemma PlainServerChannel(service: string, method_: string, topic: seq<string>, k: Kind)
    requires Plain(service) && Plain(method_) && AllPlain(topic)
    ensures ServerChannel(Info(Runes(service), Runes(method_), RunesAll(topic)), k) ==
      Join('|', [service, method_] + topic + [KindText(k)])
  {
    var i := Info(Runes(service), Runes(method_), RunesAll(topic));
    var parts := [service, method_] + topic + [KindText(k)];
    ServerJoin(i, k);
    PlainProper(service, method_, topic);
    ProperTokens(i);
    KindIsPlain(k);
    RunesPair(service, method_, topic, KindText(k));
    PlainEncoded(parts);
  }

  /** And a client channel is service, client and kind. */
  lemma PlainClientChannel(service: string, client: string, k: Kind)
    requires Plain(service) && Plain(client)
    ensures ClientChannel(Runes(service), Runes(client), k) == Join('|', [service, client, KindText(k)])
  {
    var i := Info(Runes(service), Runes(client), []);
    var parts := [service, client, KindText(k)];
    ClientJoin(Runes(service), Runes(client), k);
    ProperTokens(i);
    KindIsPlain(k);
    assert RunesAll(parts) == ServerTokens(i) + [KindName(k)];
    PlainEncoded(parts);
  }

  /** And a handler key is method and topic names with dots between them. */
  lemma PlainHandlerKey(i: Info, method_: string, topic: seq<string>)
    requires Plain(method_) && topic != [] && AllPlain(topic)
    requires i.method_ == Runes(method_) && i.topic == RunesAll(topic)
    ensures HandlerKey(i) == Join('.', [method_] + topic)
  {
    KeyJoin(i);
    PlainProper(method_, method_, topic);
    CanonProper(i.topic);
    RunesHead(method_, topic);
    PlainEncoded([method_] + topic);
  }

  /** And a `Server` name is SRV, service and topic names, and Q for a queue, with dots between them. */
  lemma PlainServerName(service: string, topic: seq<string>, queue: bool)
    requires AllPlain(topic)
    ensures ServerName(service, RunesAll(topic), queue) ==
      Join('.', ["SRV", service] + (topic + if queue then ["Q"] else []))
  {
    PlainSuffix(topic, queue);
    ServerNameJoin(service, SuffixTokens(RunesAll(topic), queue));
  }

  lemma ServerNameJoin(service: string, tokens: seq<Name>)
    ensures "SRV." + service + Dotted(tokens) == Join('.', ["SRV", service] + Encode(tokens))
  {
    var tail := Encode(tokens);
    DottedJoin(tokens);
    JoinFollow('.', service, tail);
    JoinFollow('.', "SRV", [service] + tail);
    assert ["SRV"] + ([service] + tail) == ["SRV", service] + tail;
    Dots(service, Follow('.', tail));
  }

  lemma Dots(service: string, rest: string)
    ensures "SRV." + service + rest == "SRV" + (['.'] + (service + rest))
  {
  }

  lemma QueueIsPlain()
    ensures Plain("Q") && Runes("Q") == QUEUE
  {
  }

  lemma RunesLast(topic: seq<string>, last: string)
    ensures RunesAll(topic + [last]) == RunesAll(topic) + [Runes(last)]
  {
  }

  lemma PlainQueue(topic: seq<string>)
    requires AllPlain(topic)
    ensures Encode(RunesAll(topic) + [QUEUE]) == topic + ["Q"]
  {
    QueueIsPlain();
    PlainLast(topic, "Q");
    RunesLast(topic, "Q");
    PlainEncoded(topic + ["Q"]);
  }

  lemma NothingAdded<T>(s: seq<T>)
    ensures s + [] == s
  {
  }

  lemma PlainTopic(topic: seq<string>)
    requires AllPlain(topic)
    ensures Encode(RunesAll(topic) + []) == topic + []
  {
    NothingAdded(RunesAll(topic));
    NothingAdded(topic);
    PlainEncoded(topic);
  }

  lemma PlainSuffix(topic: seq<string>, queue: bool)
    requires AllPlain(topic)
    ensures Encode(SuffixTokens(RunesAll(topic), queue)) == topic + if queue then ["Q"] else []
  {
    PlainNonEmpty(topic);
    if queue {
      PlainQueue(topic);
    } else {
      PlainTopic(topic);
    }
  }

  lemma {:induction false} PlainNonEmpty(topic: seq<string>)
    requires AllPlain(topic)
    ensures NonEmpty(RunesAll(topic)) == RunesAll(topic)
  {
    if topic != [] {
      PlainNonEmpty(topic[1..]);
      RunesHead(topic[0], topic[1..]);
      assert [topic[0]] + topic[1..] == topic;
      assert RunesAll(topic)[1..] == RunesAll(topic[1..]);
    }
  }

  // ---- services in `Server` names

  /** For services without a dot, `Server` names are equal exactly when the services are and topics and queue suffixes
      spell the same list. */
  lemma ServicesApart(a: string, s: seq<Name>, q: bool, b: string, t: seq<Name>, r: bool)
    requires '.' !in a && '.' !in b
    ensures ServerName(a, s, q) == ServerName(b, t, r) <==> a == b && SuffixTokens(s, q) == SuffixTokens(t, r)
  {
    if ServerName(a, s, q) == ServerName(b, t, r) {
      Unprefixed(a, SuffixTokens(s, q), b, SuffixTokens(t, r));
      FirstToken(a, SuffixTokens(s, q));
      FirstToken(b, SuffixTokens(t, r));
    }
    if a == b {
      ServerNamesEqual(a, s, q, t, r);
    }
  }

  lemma Unprefixed(a: string, s: seq<Name>, b: string, t: seq<Name>)
    requires "SRV." + a + Dotted(s) == "SRV." + b + Dotted(t)
    ensures a + Dotted(s) == b + Dotted(t)
  {
    ChannelBuffer.Assoc("SRV.", a, Dotted(s));
    ChannelBuffer.Assoc("SRV.", b, Dotted(t));
    SameRest("SRV.", a + Dotted(s), b + Dotted(t));
  }

  lemma SameRest(start: string, x: string, y: string)
    requires start + x == start + y
    ensures x == y
  {
    assert x == (start + x)[|start|..] && y == (start + y)[|start|..];
  }

  lemma FirstToken(a: string, tokens: seq<Name>)
    requires '.' !in a
    ensures Split('.', a + Dotted(tokens))[0] == a
  {
    SplitToken('.', a, Dotted(tokens));
    if tokens != [] {
      assert Dotted(tokens)[0] == '.';
    }
    assert a + "" == a;
  }

  /** A service with a dot can share its name with another service and a topic. */
  lemma ServicesCollide(a: string, b: string)
    requires Plain(b)
    ensures ServerName(a + "." + b, [], false) == ServerName(a, [Runes(b)], false)
  {
    PlainSanitized(b);
    DottedOne(Runes(b));
    assert NonEmpty([Runes(b)]) == [Runes(b)] by { assert [Runes(b)][1..] == []; }
    assert SuffixTokens([Runes(b)], false) == [Runes(b)];
    assert "SRV." + (a + "." + b) + "" == "SRV." + a + ("." + b);
  }
}
