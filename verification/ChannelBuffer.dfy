/** The loops of pkg/info/channels.go that write names into a byte buffer, proved against `ChannelNames` and
    `ChannelFormat`. */
module ChannelBuffer {
  import opened ChannelNames
  import opened ChannelFormat

  /** A number shifted right by `4 * k` bits. */
  function Shifted(r: nat, k: nat): nat {
    if k == 0 then r else Shifted(r, k - 1) / 16
  }

  lemma Assoc(a: string, b: string, c: string)
    ensures a + b + c == a + (b + c)
  {
  }

  /** The inner loops: the digits are written from the most significant one, by shifts of `4 * n - 4` down to 0. */
  method AppendHex(buf: string, r: nat, n: nat) returns (out: string)
    ensures out == buf + HexDigits(r, n)
  {
    out := buf;
    var shift := 4 * n - 4;
    ghost var done := 0;
    while shift >= 0
      invariant 0 <= done <= n && shift == 4 * (n - done) - 4
      invariant out == buf + HexDigits(Shifted(r, n - done), done)
    {
      var digit := LOWER_HEX[Shifted(r, shift / 4) % 16];
      Assoc(buf, HexDigits(Shifted(r, n - done), done), [digit]);
      out := out + [digit];
      shift := shift - 4;
      done := done + 1;
    }
  }

  method AppendEscape(buf: string, r: Rune) returns (out: string)
    ensures out == buf + Escape(r)
  {
    if ChannelChar(r) {
      out := buf + [r as char];
    } else if r < 0x10000 {
      out := AppendHex(buf + "u+", r, 4);
      Assoc(buf, "u+", HexDigits(r, 4));
    } else {
      out := AppendHex(buf + "U+", r, 8);
      Assoc(buf, "U+", HexDigits(r, 8));
    }
  }

  method AppendSanitizedChannelPart(buf: string, s: Name) returns (out: string)
    ensures out == buf + Sanitize(s)
  {
    out := buf;
    for i := 0 to |s|
      invariant out + Sanitize(s[i..]) == buf + Sanitize(s)
    {
      assert s[i..][1..] == s[i + 1..];
      Assoc(out, Escape(s[i]), Sanitize(s[i + 1..]));
      out := AppendEscape(out, s[i]);
    }
  }

  /** `appendChannelParts` for a list of strings. */
  method AppendNames(buf: string, delim: char, names: seq<Name>) returns (out: string)
    ensures out == buf + Names(delim, names, false)
  {
    out := buf;
    var prefix := false;
    for i := 0 to |names|
      invariant out + Names(delim, names[i..], prefix) == buf + Names(delim, names, false)
    {
      assert names[i..][1..] == names[i + 1..];
      Split4(out, Delim(prefix, delim), Sanitize(names[i]), Names(delim, names[i + 1..], names[i] != []));
      if prefix {
        out := out + [delim];
      }
      var l := |out|;
      out := AppendSanitizedChannelPart(out, names[i]);
      prefix := |out| > l;
    }
  }

  lemma Split4(a: string, b: string, c: string, d: string)
    ensures a + (b + c + d) == a + b + c + d && a + "" + c + d == a + c + d
  {
  }

  /** `appendChannelParts` for strings and lists of strings. */
  method AppendParts(buf: string, delim: char, parts: seq<Part>) returns (out: string)
    ensures out == buf + Parts(delim, parts, false)
  {
    out := buf;
    var prefix := false;
    for i := 0 to |parts|
      invariant out + Parts(delim, parts[i..], prefix) == buf + Parts(delim, parts, false)
    {
      assert parts[i..][1..] == parts[i + 1..];
      ghost var text := PartText(delim, parts[i]);
      Split4(out, Delim(prefix, delim), text, Parts(delim, parts[i + 1..], text != ""));
      if prefix {
        out := out + [delim];
      }
      var l := |out|;
      match parts[i] {
        case One(name) => out := AppendSanitizedChannelPart(out, name);
        case Many(names) => out := AppendNames(out, delim, names);
      }
      prefix := |out| > l;
    }
  }

  method FormatChannel(delim: char, parts: seq<Part>) returns (name: string)
    ensures name == Format(delim, parts)
  {
    name := AppendParts("", delim, parts);
  }
}
