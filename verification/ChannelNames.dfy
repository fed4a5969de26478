/** Channel names (pkg/info/channels.go): escaping of name parts, and its inverse. */
module ChannelNames {
  import opened Options

  /** What ranging over a Go string yields. */
  type Rune = r: int | 0 <= r < 0x110000
  type Name = seq<Rune>

  /** The characters that stand for themselves: 0-9, A-Z, _ and a-z. */
  predicate ChannelChar(r: Rune) {
    0x30 <= r <= 0x39 || 0x41 <= r <= 0x5a || r == 0x5f || 0x61 <= r <= 0x7a
  }

  const LOWER_HEX := "0123456789abcdef"

  function HexDigits(r: nat, n: nat): (s: string)
    ensures |s| == n
  {
    if n == 0 then "" else HexDigits(r / 16, n - 1) + [LOWER_HEX[r % 16]]
  }

  function Escape(r: Rune): (s: string)
    ensures s != ""
  {
    if ChannelChar(r) then [r as char]
    else if r < 0x10000 then "u+" + HexDigits(r, 4)
    else "U+" + HexDigits(r, 8)
  }

  function Sanitize(name: Name): (s: string)
    ensures s == "" <==> name == []
  {
    if name == [] then "" else Escape(name[0]) + Sanitize(name[1..])
  }

  // ---- decoding

  function HexValue(c: char): nat {
    if '0' <= c <= '9' then (c - '0') as nat else if 'a' <= c <= 'f' then (c - 'a') as nat + 10 else 0
  }

  function ParseHex(s: string): nat {
    if s == "" then 0 else 16 * ParseHex(s[..|s| - 1]) + HexValue(s[|s| - 1])
  }

  function Prepend(r: nat, rest: Option<Name>): Option<Name> {
    if r < 0x110000 && rest.Some? then Some([r] + rest.value) else None
  }

  /** Reads a sanitized name back. */
  function Unescape(s: string): Option<Name>
    decreases |s|
  {
    if s == "" then Some([])
    else if |s| >= 6 && s[0] == 'u' && s[1] == '+' then Prepend(ParseHex(s[2..6]), Unescape(s[6..]))
    else if |s| >= 10 && s[0] == 'U' && s[1] == '+' then Prepend(ParseHex(s[2..10]), Unescape(s[10..]))
    else Prepend(s[0] as nat, Unescape(s[1..]))
  }

  function Power16(n: nat): nat {
    if n == 0 then 1 else 16 * Power16(n - 1)
  }

  lemma HexDigit(d: nat)
    requires d < 16
    ensures HexValue(LOWER_HEX[d]) == d
    ensures '0' <= LOWER_HEX[d] <= '9' || 'a' <= LOWER_HEX[d] <= 'f'
  {
  }

  lemma {:induction false} HexRoundTrip(r: nat, n: nat)
    requires r < Power16(n)
    ensures ParseHex(HexDigits(r, n)) == r
    ensures forall c | c in HexDigits(r, n) :: '0' <= c <= '9' || 'a' <= c <= 'f'
  {
    if n > 0 {
      HexRoundTrip(r / 16, n - 1);
      HexDigit(r % 16);
      var s := HexDigits(r, n);
      assert s[..|s| - 1] == HexDigits(r / 16, n - 1);
    }
  }

  lemma Power16s()
    ensures Power16(4) == 0x10000 && Power16(8) == 0x100000000
  {
    assert Power16(2) == 256;
    assert Power16(4) == 256 * Power16(2);
    assert Power16(6) == 256 * Power16(4);
    assert Power16(8) == 256 * Power16(6);
  }

  /** A sanitized name does not start with the second character of an escape. */
  lemma NoLeadingPlus(name: Name)
    ensures name != [] ==> Sanitize(name)[0] != '+'
  {
  }

  /** Decoding takes one escape off. */
  lemma UnescapeOne(r: Rune, rest: string)
    requires rest != "" ==> rest[0] != '+'
    ensures Unescape(Escape(r) + rest) == Prepend(r, Unescape(rest))
  {
    var s := Escape(r) + rest;
    if ChannelChar(r) {
      assert s[1..] == rest;
    } else {
      UnescapeHex(r, rest);
    }
  }

  lemma UnescapeHex(r: Rune, rest: string)
    requires !ChannelChar(r)
    ensures Unescape(Escape(r) + rest) == Prepend(r, Unescape(rest))
  {
    var n := if r < 0x10000 then 4 else 8;
    var s := Escape(r) + rest;
    Power16s();
    HexRoundTrip(r, n);
    assert s[2..2 + n] == HexDigits(r, n) && s[2 + n..] == rest;
  }

  /** Decoding a sanitized name gives the name back. */
  lemma {:induction false} SanitizeRoundTrip(name: Name)
    ensures Unescape(Sanitize(name)) == Some(name)
  {
    if name != [] {
      SanitizeRoundTrip(name[1..]);
      NoLeadingPlus(name[1..]);
      UnescapeOne(name[0], Sanitize(name[1..]));
      assert [name[0]] + name[1..] == name;
    }
  }

  /** Different names stay different. */
  lemma SanitizeInjective(a: Name, b: Name)
    ensures Sanitize(a) == Sanitize(b) ==> a == b
  {
    SanitizeRoundTrip(a);
    SanitizeRoundTrip(b);
  }

  /** The delimiters of channel names and handler keys. */
  predicate Delimiter(c: char) {
    c == '|' || c == '.'
  }

  ghost predicate Free(s: string) {
    forall c | c in s :: !Delimiter(c)
  }

  lemma EscapeFree(r: Rune)
    ensures Free(Escape(r))
  {
    Power16s();
    if !ChannelChar(r) {
      HexRoundTrip(r, if r < 0x10000 then 4 else 8);
    }
  }

  /** A sanitized name contains no delimiter. */
  lemma {:induction false} SanitizeFree(name: Name)
    ensures Free(Sanitize(name))
  {
    if name != [] {
      EscapeFree(name[0]);
      SanitizeFree(name[1..]);
    }
  }
}
