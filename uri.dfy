/**
 * ECMAScript `encodeURIComponent` and `decodeURIComponent`: a character outside the
 * unreserved set of section 2.3 of RFC 3986 (plus `!*'()`, which
 * `encodeURIComponent` also leaves alone) is written as the UTF-8 bytes of its
 * code point, each as `%XX` with upper-case hex digits (section 2.1 of RFC 3986).
 * Decoding accepts either case of hex digit and rejects truncated escapes, bytes
 * that cannot start a UTF-8 sequence, overlong forms, surrogates and values above
 * U+10FFFF, where `decodeURIComponent` throws a `URIError` (modelled as `None`).
 */
module Uri {
  import opened Wrappers
  import opened Text

  type Byte = b: int | 0 <= b < 256

  /** Characters `encodeURIComponent` copies unchanged. */
  predicate Unreserved(c: char) {
    ('A' <= c <= 'Z') || ('a' <= c <= 'z') || ('0' <= c <= '9')
    || c == '-' || c == '_' || c == '.' || c == '!' || c == '~'
    || c == '*' || c == '\'' || c == '(' || c == ')'
  }

  /** Characters that can appear in the output of `encodeURIComponent`. */
  predicate UriSafe(c: char) {
    Unreserved(c) || c == '%'
  }

  // ---------------------------------------------------------------------------
  // UTF-8

  /** The UTF-8 encoding of one scalar value. */
  function Utf8(c: char): (bs: seq<Byte>)
    ensures 1 <= |bs| <= 4
  {
    var n := c as int;
    if n < 0x80 then [n]
    else if n < 0x800 then [0xC0 + n / 64, 0x80 + n % 64]
    else if n < 0x1_0000 then [0xE0 + n / 4096, 0x80 + (n / 64) % 64, 0x80 + n % 64]
    else [0xF0 + n / 262144, 0x80 + (n / 4096) % 64, 0x80 + (n / 64) % 64, 0x80 + n % 64]
  }

  /** Length of the UTF-8 sequence a lead byte announces; 0 when it cannot lead one. */
  function SequenceLength(b: Byte): nat {
    if b < 0x80 then 1
    else if b < 0xC0 then 0
    else if b < 0xE0 then 2
    else if b < 0xF0 then 3
    else if b < 0xF8 then 4
    else 0
  }

  predicate Continuation(b: Byte) {
    0x80 <= b < 0xC0
  }

  /** Decodes one complete UTF-8 sequence, refusing overlong forms, surrogates and values past U+10FFFF. */
  function Utf8Decode(bs: seq<Byte>): Option<char> {
    if |bs| == 1 && bs[0] < 0x80 then
      Some(bs[0] as char)
    else if |bs| == 2 && 0xC0 <= bs[0] < 0xE0 && Continuation(bs[1]) then
      var n := (bs[0] as int - 0xC0) * 64 + (bs[1] as int - 0x80);
      if n < 0x80 then None else Some(n as char)
    else if |bs| == 3 && 0xE0 <= bs[0] < 0xF0 && Continuation(bs[1]) && Continuation(bs[2]) then
      var n := (bs[0] as int - 0xE0) * 4096 + (bs[1] as int - 0x80) * 64 + (bs[2] as int - 0x80);
      if n < 0x800 || (0xD800 <= n < 0xE000) then None else Some(n as char)
    else if |bs| == 4 && 0xF0 <= bs[0] < 0xF8 && Continuation(bs[1]) && Continuation(bs[2])
         && Continuation(bs[3]) then
      var n := (bs[0] as int - 0xF0) * 262144 + (bs[1] as int - 0x80) * 4096
              + (bs[2] as int - 0x80) * 64 + (bs[3] as int - 0x80);
      if n < 0x1_0000 || n > 0x10_FFFF then None else Some(n as char)
    else
      None
  }

  // ---------------------------------------------------------------------------
  // Percent escapes

  function HexDigit(d: int): (c: char)
    requires 0 <= d < 16
  {
    if d < 10 then ('0' as int + d) as char else ('A' as int + d - 10) as char
  }

  /** Value of a hex digit of either case. */
  function HexValue(c: char): Option<int> {
    if '0' <= c <= '9' then Some(c as int - '0' as int)
    else if 'A' <= c <= 'F' then Some(c as int - 'A' as int + 10)
    else if 'a' <= c <= 'f' then Some(c as int - 'a' as int + 10)
    else None
  }

  function Escape(b: Byte): string {
    ['%', HexDigit(b / 16), HexDigit(b % 16)]
  }

  function Escapes(bs: seq<Byte>): (r: string)
    ensures |r| == 3 * |bs|
    ensures forall i :: 0 <= i < |r| ==> UriSafe(r[i])
  {
    if bs == [] then [] else Escape(bs[0]) + Escapes(bs[1..])
  }

  /** Reads one `%XX` escape at the start of `t`. */
  function ReadEscape(t: string): (r: Option<Byte>)
    ensures r.Some? ==> |t| >= 3 && t[0] == '%'
  {
    if |t| >= 3 && t[0] == '%' && HexValue(t[1]).Some? && HexValue(t[2]).Some? then
      Some(HexValue(t[1]).value * 16 + HexValue(t[2]).value)
    else
      None
  }

  /** Reads `n` consecutive `%XX` escapes at the start of `t`. */
  function ReadEscapes(t: string, n: nat): (r: Option<seq<Byte>>)
    ensures r.Some? ==> |r.value| == n && 3 * n <= |t|
  {
    if n == 0 then Some([])
    else
      match ReadEscape(t)
      case None => None
      case Some(b) =>
        match ReadEscapes(t[3..], n - 1)
        case None => None
        case Some(bs) => Some([b] + bs)
  }

  // ---------------------------------------------------------------------------
  // encodeURIComponent / decodeURIComponent

  function EncodeChar(c: char): string {
    if Unreserved(c) then [c] else Escapes(Utf8(c))
  }

  /** `encodeURIComponent(s)`: its output never holds a query delimiter such as `&`, `=`, `?` or `#`. */
  function Encode(s: string): (r: string)
    ensures forall i :: 0 <= i < |r| ==> UriSafe(r[i])
  {
    if s == [] then [] else EncodeChar(s[0]) + Encode(s[1..])
  }

  /** `decodeURIComponent(t)`; `None` where it throws a `URIError`. */
  function Decode(t: string): Option<string>
    decreases |t|
  {
    if t == [] then Some([])
    else if t[0] != '%' then
      match Decode(t[1..])
      case None => None
      case Some(rest) => Some([t[0]] + rest)
    else
      match ReadEscape(t)
      case None => None
      case Some(lead) =>
        var n := SequenceLength(lead);
        if n == 0 then None
        else
          match ReadEscapes(t, n)
          case None => None
          case Some(bs) =>
            match Utf8Decode(bs)
            case None => None
            case Some(c) =>
              match Decode(t[3 * n..])
              case None => None
              case Some(rest) => Some([c] + rest)
  }

  // ---------------------------------------------------------------------------
  // Round trip

  lemma EscapeRead(b: Byte, rest: string)
    ensures ReadEscape(Escape(b) + rest) == Some(b)
  {
    var t := Escape(b) + rest;
    assert t[0] == '%' && t[1] == HexDigit(b / 16) && t[2] == HexDigit(b % 16);
  }

  lemma {:induction false} EscapesRead(bs: seq<Byte>, rest: string)
    ensures ReadEscapes(Escapes(bs) + rest, |bs|) == Some(bs)
  {
    if bs != [] {
      var t := Escapes(bs) + rest;
      assert t == Escape(bs[0]) + (Escapes(bs[1..]) + rest);
      EscapeRead(bs[0], Escapes(bs[1..]) + rest);
      assert t[3..] == Escapes(bs[1..]) + rest;
      EscapesRead(bs[1..], rest);
      assert [bs[0]] + bs[1..] == bs;
    }
  }

  /** UTF-8 decoding inverts UTF-8 encoding, and the lead byte announces the right length. */
  lemma Utf8RoundTrip(c: char)
    ensures SequenceLength(Utf8(c)[0]) == |Utf8(c)|
    ensures Utf8Decode(Utf8(c)) == Some(c)
  {
    var n := c as int;
    if n < 0x80 {
    } else if n < 0x800 {
      Utf8TwoBytes(c);
    } else if n < 0x1_0000 {
      Utf8ThreeBytes(c);
    } else {
      Utf8FourBytes(c);
    }
  }

  lemma Utf8TwoBytes(c: char)
    requires 0x80 <= c as int < 0x800
    ensures SequenceLength(Utf8(c)[0]) == 2 && Utf8Decode(Utf8(c)) == Some(c)
  {
    var n := c as int;
    assert Utf8(c) == [0xC0 + n / 64, 0x80 + n % 64];
  }

  lemma Utf8ThreeBytes(c: char)
    requires 0x800 <= c as int < 0x1_0000
    ensures SequenceLength(Utf8(c)[0]) == 3 && Utf8Decode(Utf8(c)) == Some(c)
  {
    var n := c as int;
    assert Utf8(c) == [0xE0 + n / 4096, 0x80 + (n / 64) % 64, 0x80 + n % 64];
    assert n / 64 == (n / 4096) * 64 + (n / 64) % 64;
  }

  lemma Utf8FourBytes(c: char)
    requires 0x1_0000 <= c as int
    ensures SequenceLength(Utf8(c)[0]) == 4 && Utf8Decode(Utf8(c)) == Some(c)
  {
    var n := c as int;
    assert Utf8(c) == [0xF0 + n / 262144, 0x80 + (n / 4096) % 64, 0x80 + (n / 64) % 64, 0x80 + n % 64];
    assert n / 64 == (n / 4096) * 64 + (n / 64) % 64;
    assert n / 4096 == (n / 262144) * 64 + (n / 4096) % 64;
  }

  /** Decoding a well-formed run of escapes for one character, followed by decodable text. */
  lemma DecodeEscapedChar(bs: seq<Byte>, c: char, rest: string)
    requires |bs| >= 1 && SequenceLength(bs[0]) == |bs|
    requires Utf8Decode(bs) == Some(c) && Decode(rest).Some?
    ensures Decode(Escapes(bs) + rest) == Some([c] + Decode(rest).value)
  {
    EscapedParts(bs, rest);
    DecodeStep(Escapes(bs) + rest, bs, c, rest);
  }

  /** What `Decode` reads at the head of a run of escapes followed by more text. */
  lemma EscapedParts(bs: seq<Byte>, rest: string)
    requires |bs| >= 1
    ensures ReadEscape(Escapes(bs) + rest) == Some(bs[0])
    ensures ReadEscapes(Escapes(bs) + rest, |bs|) == Some(bs)
    ensures (Escapes(bs) + rest)[3 * |bs|..] == rest
  {
    var u := Escapes(bs[1..]) + rest;
    assert Escapes(bs) + rest == Escape(bs[0]) + u;
    EscapeRead(bs[0], u);
    EscapesRead(bs, rest);
  }

  /** One step of `Decode` over a `%` run that reads as the character `c`. */
  lemma DecodeStep(t: string, bs: seq<Byte>, c: char, rest: string)
    requires |bs| >= 1 && SequenceLength(bs[0]) == |bs| && Utf8Decode(bs) == Some(c)
    requires ReadEscape(t) == Some(bs[0])
    requires ReadEscapes(t, |bs|) == Some(bs) && t[3 * |bs|..] == rest && Decode(rest).Some?
    ensures Decode(t) == Some([c] + Decode(rest).value)
  {
  }

  /** Decoding the encoding of one character, followed by decodable text, yields that character first. */
  lemma DecodeEncodeChar(c: char, rest: string)
    requires Decode(rest).Some?
    ensures Decode(EncodeChar(c) + rest) == Some([c] + Decode(rest).value)
  {
    var t := EncodeChar(c) + rest;
    if Unreserved(c) {
      assert t[0] == c && t[1..] == rest;
    } else {
      Utf8RoundTrip(c);
      DecodeEscapedChar(Utf8(c), c, rest);
    }
  }

  /** `decodeURIComponent(encodeURIComponent(s)) == s` for every string. */
  lemma {:induction false} DecodeEncode(s: string)
    ensures Decode(Encode(s)) == Some(s)
  {
    if s != [] {
      var e := Encode(s[1..]);
      DecodeEncode(s[1..]);
      DecodeEncodeChar(s[0], e);
      assert Encode(s) == EncodeChar(s[0]) + e;
      assert [s[0]] + s[1..] == s;
    }
  }

  /** A string of unreserved characters is its own encoding. */
  lemma {:induction false} EncodeUnreservedIdentity(s: string)
    requires forall i :: 0 <= i < |s| ==> Unreserved(s[i])
    ensures Encode(s) == s
  {
    if s != [] {
      EncodeUnreservedIdentity(s[1..]);
      assert [s[0]] + s[1..] == s;
    }
  }

  // ---------------------------------------------------------------------------
  // Reading a parameter back

  /** Last index `<= k` where `m` occurs in `s`. */
  function LastIndexAtMost(s: string, m: string, k: int): (r: Option<nat>)
    decreases k + 1
    ensures r.Some? ==> r.value <= k && SubstringAt(s, m, r.value)
    ensures r.Some? ==> forall j :: r.value < j <= k ==> !SubstringAt(s, m, j)
    ensures r.None? ==> forall j :: j <= k ==> !SubstringAt(s, m, j)
  {
    if k < 0 then None
    else if SubstringAt(s, m, k) then Some(k)
    else LastIndexAtMost(s, m, k - 1)
  }

  /** The text after the last occurrence of `m` in `s`: how a reader of the link finds the last parameter. */
  function AfterLast(s: string, m: string): Option<string> {
    match LastIndexAtMost(s, m, |s| - |m|)
    case None => None
    case Some(i) => Some(s[i + |m|..])
  }

  /**
   * When the marker starts with `&` and neither the rest of the marker nor the
   * trailing text holds another `&`, the text after the last marker is exactly
   * the trailing text.
   */
  lemma AfterLastMarker(p: string, m: string, e: string)
    requires |m| > 0 && m[0] == '&'
    requires forall i :: 1 <= i < |m| ==> m[i] != '&'
    requires forall i :: 0 <= i < |e| ==> e[i] != '&'
    ensures AfterLast(p + m + e, m) == Some(e)
  {
    var s := p + m + e;
    assert SubstringAt(s, m, |p|) by { assert s[|p|..|p| + |m|] == m; }
    var r := LastIndexAtMost(s, m, |s| - |m|);
    assert r.Some?;
    assert s[|p| + |m|..] == e;
  }

  /** The query value that `AfterLast` reads back after a marker `&name=` decodes to the original text. */
  lemma ParameterRoundTrip(p: string, m: string, v: string)
    requires |m| > 0 && m[0] == '&'
    requires forall i :: 1 <= i < |m| ==> m[i] != '&'
    ensures AfterLast(p + m + Encode(v), m) == Some(Encode(v))
    ensures Decode(AfterLast(p + m + Encode(v), m).value) == Some(v)
  {
    forall i | 0 <= i < |Encode(v)| ensures Encode(v)[i] != '&' {
      assert UriSafe(Encode(v)[i]);
    }
    AfterLastMarker(p, m, Encode(v));
    DecodeEncode(v);
  }

  /** The text before the first `c` in `s` (all of `s` when there is none): how a reader of the link finds a parameter that is followed by another. */
  function BeforeFirst(s: string, c: char): (r: string)
    ensures r <= s
  {
    if s == [] || s[0] == c then [] else [s[0]] + BeforeFirst(s[1..], c)
  }

  /** A value free of `c`, followed by text that starts with `c`, is read back in full. */
  lemma {:induction false} BeforeFirstValue(e: string, c: char, rest: string)
    requires forall i :: 0 <= i < |e| ==> e[i] != c
    requires |rest| > 0 && rest[0] == c
    ensures BeforeFirst(e + rest, c) == e
  {
    if e != [] {
      assert (e + rest)[1..] == e[1..] + rest;
      BeforeFirstValue(e[1..], c, rest);
    }
  }

  /** The query value that `BeforeFirst` reads back from an encoded parameter followed by `&` decodes to the original text. */
  lemma LeadingParameterRoundTrip(v: string, rest: string)
    requires |rest| > 0 && rest[0] == '&'
    ensures BeforeFirst(Encode(v) + rest, '&') == Encode(v)
    ensures Decode(BeforeFirst(Encode(v) + rest, '&')) == Some(v)
  {
    forall i | 0 <= i < |Encode(v)| ensures Encode(v)[i] != '&' {
      assert UriSafe(Encode(v)[i]);
    }
    BeforeFirstValue(Encode(v), '&', rest);
    DecodeEncode(v);
  }

  // ---------------------------------------------------------------------------
  // mailto links (RFC 6068) with a subject and a body

  /** The part of the link before the subject's value. */
  function MailtoHead(to: string): string {
    "mailto:" + to + "?subject="
  }

  /** `mailto:${to}?subject=${encodeURIComponent(subject)}&body=${encodeURIComponent(body)}`. */
  function Mailto(to: string, subject: string, body: string): (r: string)
    ensures MailtoHead(to) <= r
  {
    MailtoHead(to) + Encode(subject) + "&body=" + Encode(body)
  }

  /**
   * A mail client reading the link gets both fields back: the subject's value
   * runs from the head to the first `&` and decodes to the subject, and the
   * value after the last `&body=` decodes to the body.
   */
  lemma MailtoRoundTrip(to: string, subject: string, body: string)
    ensures var r := Mailto(to, subject, body);
      && AfterLast(r, "&body=") == Some(Encode(body))
      && Decode(AfterLast(r, "&body=").value) == Some(body)
      && Decode(BeforeFirst(r[|MailtoHead(to)|..], '&')) == Some(subject)
  {
    var head, s, b := MailtoHead(to), Encode(subject), Encode(body);
    DropHead(head, s, "&body=", b);
    LeadingParameterRoundTrip(subject, "&body=" + b);
    BodyMarker();
    ParameterRoundTrip(head + s, "&body=", body);
  }

  lemma DropHead(h: string, x: string, y: string, z: string)
    ensures (h + x + y + z)[|h|..] == x + (y + z)
  {
  }

  /** `&body=` holds no `&` after its first character. */
  lemma BodyMarker()
    ensures "&body="[0] == '&' && forall i :: 1 <= i < |"&body="| ==> "&body="[i] != '&'
  {
  }
}
