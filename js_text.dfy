/** The JavaScript string built-ins the core relies on, stated over `seq<char>`.
    Strings are sequences of Unicode scalar values; UTF-16 code units are not modelled. */
module JsText {
  import opened Wrappers

  /** `s.startsWith(p)` */
  predicate StartsWith(s: string, p: string)
  {
    |p| <= |s| && s[..|p|] == p
  }

  // ---------------------------------------------------------------------------
  // split / join on a one-character separator

  /** `s.split(sep)` for a one-character separator: never empty, and an empty
      string or a trailing separator yields an empty last part. */
  function Split(s: string, sep: char): (parts: seq<string>)
    ensures |parts| >= 1
    ensures forall k :: 0 <= k < |parts| ==> sep !in parts[k]
  {
    if s == [] then [""]
    else
      var rest := Split(s[1..], sep);
      if s[0] == sep then [""] + rest
      else [[s[0]] + rest[0]] + rest[1..]
  }

  /** `parts.join(sep)` */
  function Join(parts: seq<string>, sep: char): string
    requires |parts| >= 1
  {
    if |parts| == 1 then parts[0] else parts[0] + [sep] + Join(parts[1..], sep)
  }

  /** Splitting and joining again gives back the original string. */
  lemma {:induction false} JoinSplit(s: string, sep: char)
    ensures Join(Split(s, sep), sep) == s
  {
    if s != [] {
      var rest := Split(s[1..], sep);
      JoinSplit(s[1..], sep);
      if s[0] != sep {
        var head := [[s[0]] + rest[0]] + rest[1..];
        assert head[1..] == rest[1..];
        if |rest| > 1 {
          assert rest == [rest[0]] + rest[1..];
          assert Join(rest, sep) == rest[0] + [sep] + Join(rest[1..], sep);
        }
        assert Join(head, sep) == [s[0]] + Join(rest, sep);
      } else {
        assert ([""] + rest)[1..] == rest;
      }
    }
  }

  /** A string without the separator followed by the separator splits off as one part. */
  lemma {:induction false} SplitAtSeparator(a: string, sep: char, b: string)
    requires sep !in a
    ensures Split(a + [sep] + b, sep) == [a] + Split(b, sep)
  {
    if a != [] {
      SplitAtSeparator(a[1..], sep, b);
      var x := a + [sep] + b;
      assert x[0] == a[0] && x[1..] == a[1..] + [sep] + b;
      var rest := Split(x[1..], sep);
      assert rest[0] == a[1..] && rest[1..] == Split(b, sep);
      assert [x[0]] + rest[0] == a;
    } else {
      assert (a + [sep] + b)[1..] == b;
    }
  }

  /** A string without the separator is a single part. */
  lemma {:induction false} SplitWithoutSeparator(s: string, sep: char)
    requires sep !in s
    ensures Split(s, sep) == [s]
  {
    if s != [] {
      SplitWithoutSeparator(s[1..], sep);
      assert s[0] != sep;
      assert [s[0]] + s[1..] == s;
    }
  }

  // ---------------------------------------------------------------------------
  // trim

  /** ECMAScript WhiteSpace and LineTerminator code points, which `trim` removes. */
  predicate IsJsSpace(c: char)
  {
    c == '\t' || c == '\n' || c == '\U{000B}' || c == '\U{000C}' || c == '\r' || c == ' '
    || c == '\U{00A0}' || c == '\U{1680}' || ('\U{2000}' <= c <= '\U{200A}')
    || c == '\U{2028}' || c == '\U{2029}' || c == '\U{202F}' || c == '\U{205F}'
    || c == '\U{3000}' || c == '\U{FEFF}'
  }

  /** The first position at or after `from` that holds no white space (`|s|` if none). */
  function FirstNonSpace(s: string, from: nat): (i: nat)
    requires from <= |s|
    ensures from <= i <= |s|
    ensures forall k :: from <= k < i ==> IsJsSpace(s[k])
    ensures i < |s| ==> !IsJsSpace(s[i])
    decreases |s| - from
  {
    if from < |s| && IsJsSpace(s[from]) then FirstNonSpace(s, from + 1) else from
  }

  /** The end of `s[lo..hi]` once its trailing white space is dropped. */
  function EndOfText(s: string, lo: nat, hi: nat): (j: nat)
    requires lo <= hi <= |s|
    ensures lo <= j <= hi
    ensures forall k :: j <= k < hi ==> IsJsSpace(s[k])
    ensures j > lo ==> !IsJsSpace(s[j - 1])
    decreases hi
  {
    if hi > lo && IsJsSpace(s[hi - 1]) then EndOfText(s, lo, hi - 1) else hi
  }

  /** `s.trim()`: leading, then trailing white space removed. */
  function Trim(s: string): string
  {
    var i := FirstNonSpace(s, 0);
    s[i..EndOfText(s, i, |s|)]
  }

  /** `trim` returns the middle of `s` between two runs of white space, and that middle
      neither starts nor ends with white space. */
  lemma TrimIsMiddle(s: string)
    ensures exists i, j ::
              && 0 <= i <= j <= |s| && Trim(s) == s[i..j]
              && (forall k :: 0 <= k < i ==> IsJsSpace(s[k]))
              && (forall k :: j <= k < |s| ==> IsJsSpace(s[k]))
    ensures Trim(s) != [] ==> !IsJsSpace(Trim(s)[0]) && !IsJsSpace(Trim(s)[|Trim(s)| - 1])
  {
    var i := FirstNonSpace(s, 0);
    var j := EndOfText(s, i, |s|);
    var t := Trim(s);
    assert t == s[i..j];
    forall k | j <= k < |s| ensures IsJsSpace(s[k]) {
    }
    if t != [] {
      assert t[0] == s[i] && t[|t| - 1] == s[j - 1];
    }
  }

  /** A value already free of surrounding white space is unchanged by `trim`, also after
      a single leading space such as the one after `event:` or `data:`. */
  lemma TrimAfterSpace(v: string)
    requires v != [] && !IsJsSpace(v[0]) && !IsJsSpace(v[|v| - 1])
    ensures Trim(" " + v) == v
  {
    assert (" " + v)[1..] == v;
  }

  // ---------------------------------------------------------------------------
  // numbers to text

  function DigitChar(d: nat): (c: char)
    requires d < 10
  {
    "0123456789"[d]
  }

  /** `String(n)` for a non-negative integer below 10^21 (larger numbers are printed by
      JavaScript in exponent notation, which is not modelled). */
  function NatToString(n: nat): (r: string)
    ensures |r| >= 1
    ensures forall k :: 0 <= k < |r| ==> '0' <= r[k] <= '9'
    ensures r[0] == '0' ==> n == 0
  {
    if n < 10 then [DigitChar(n)] else NatToString(n / 10) + [DigitChar(n % 10)]
  }

  /** The number a string of decimal digits denotes. */
  function DecimalValue(s: string): nat
    requires forall k :: 0 <= k < |s| ==> '0' <= s[k] <= '9'
  {
    if s == [] then 0 else 10 * DecimalValue(s[..|s| - 1]) + (s[|s| - 1] as int - '0' as int)
  }

  /** `String(n)` can be read back: the text is a faithful decimal rendering. */
  lemma {:induction false} NatToStringRoundTrip(n: nat)
    ensures DecimalValue(NatToString(n)) == n
  {
    if n >= 10 {
      NatToStringRoundTrip(n / 10);
      var r := NatToString(n);
      assert r[..|r| - 1] == NatToString(n / 10);
    }
  }

  /** `String(i)` for an integer. */
  function IntToString(i: int): (r: string)
    ensures |r| >= 1 && (i < 0) == (r[0] == '-')
  {
    if i < 0 then "-" + NatToString(-i) else NatToString(i)
  }

  /** `s.padStart(width, fill)` with a one-character fill. */
  function PadStart(s: string, width: nat, fill: char): (r: string)
    ensures |r| == if |s| >= width then |s| else width
    ensures r[|r| - |s|..] == s
    ensures forall k :: 0 <= k < |r| - |s| ==> r[k] == fill
  {
    if |s| >= width then s else [fill] + PadStart(s, width - 1, fill)
  }

  // ---------------------------------------------------------------------------
  // case and URI encoding

  /** `s.toLowerCase()` restricted to ASCII letters: each capital becomes its lower-case
      letter and every other character stays. */
  function AsciiLower(s: string): (r: string)
    ensures |r| == |s|
    ensures forall k :: 0 <= k < |s| && 'A' <= s[k] <= 'Z' ==> r[k] == (s[k] as int + 32) as char
    ensures forall k :: 0 <= k < |s| && !('A' <= s[k] <= 'Z') ==> r[k] == s[k]
    ensures forall k :: 0 <= k < |r| ==> !('A' <= r[k] <= 'Z')
  {
    if s == [] then []
    else
      var c := s[0];
      [if 'A' <= c <= 'Z' then (c as int + 32) as char else c] + AsciiLower(s[1..])
  }

  /** The characters `encodeURIComponent` leaves as they are. */
  predicate IsUriUnreserved(c: char)
  {
    ('A' <= c <= 'Z') || ('a' <= c <= 'z') || ('0' <= c <= '9')
    || c == '-' || c == '_' || c == '.' || c == '!' || c == '~' || c == '*' || c == '\'' || c == '(' || c == ')'
  }

  predicate IsUpperHex(c: char)
  {
    ('0' <= c <= '9') || ('A' <= c <= 'F')
  }

  /** The digits `decodeURIComponent` accepts in an escape, in either case. */
  predicate IsHex(c: char)
  {
    IsUpperHex(c) || ('a' <= c <= 'f')
  }

  /** The upper-case hexadecimal digit for `d`. */
  function HexDigit(d: nat): (c: char)
    requires d < 16
    ensures IsUpperHex(c)
  {
    if d < 10 then ('0' as int + d) as char else ('A' as int + d - 10) as char
  }

  /** The value of a hexadecimal digit. */
  function HexValue(c: char): (d: nat)
    requires IsHex(c)
    ensures d < 16
  {
    if '0' <= c <= '9' then c as int - '0' as int
    else if 'A' <= c <= 'F' then c as int - 'A' as int + 10
    else c as int - 'a' as int + 10
  }

  /** The UTF-8 bytes of one scalar value. */
  function Utf8(c: char): (bytes: seq<nat>)
    ensures 1 <= |bytes| <= 4
    ensures forall k :: 0 <= k < |bytes| ==> bytes[k] < 256
  {
    var n := c as int;
    if n < 0x80 then [n]
    else if n < 0x800 then [0xC0 + n / 0x40, 0x80 + n % 0x40]
    else if n < 0x10000 then [0xE0 + n / 0x1000, 0x80 + (n / 0x40) % 0x40, 0x80 + n % 0x40]
    else [0xF0 + n / 0x40000, 0x80 + (n / 0x1000) % 0x40, 0x80 + (n / 0x40) % 0x40, 0x80 + n % 0x40]
  }

  /** `%XX` escapes, upper-case hexadecimal, one per byte. */
  function PercentEscapes(bytes: seq<nat>): (r: string)
    requires forall k :: 0 <= k < |bytes| ==> bytes[k] < 256
    ensures |r| == 3 * |bytes|
    ensures forall k :: 0 <= k < |r| ==> r[k] == '%' || IsUpperHex(r[k])
  {
    if bytes == [] then []
    else ['%', HexDigit(bytes[0] / 16), HexDigit(bytes[0] % 16)] + PercentEscapes(bytes[1..])
  }

  /** One character as `encodeURIComponent` writes it: itself when unreserved, otherwise
      the escapes of its UTF-8 bytes. */
  function EncodeChar(c: char): (e: string)
    ensures |e| >= 1
    ensures forall k :: 0 <= k < |e| ==> IsUriUnreserved(e[k]) || e[k] == '%' || IsUpperHex(e[k])
  {
    if IsUriUnreserved(c) then [c] else PercentEscapes(Utf8(c))
  }

  /** `encodeURIComponent(s)`: the result only holds unreserved characters and escapes,
      and a string of unreserved characters is left as it is. `UriRoundTrip` shows that
      nothing is lost. */
  function EncodeUriComponent(s: string): (r: string)
    ensures forall k :: 0 <= k < |r| ==> IsUriUnreserved(r[k]) || r[k] == '%' || IsUpperHex(r[k])
    ensures (forall k :: 0 <= k < |s| ==> IsUriUnreserved(s[k])) ==> r == s
  {
    if s == [] then []
    else EncodeChar(s[0]) + EncodeUriComponent(s[1..])
  }

  // ---------------------------------------------------------------------------
  // URI decoding, the reference `encodeURIComponent` is checked against

  /** The byte a `%XX` escape at the start of `r` stands for. */
  function EscapedByte(r: string): (b: Option<nat>)
    ensures b.Some? ==> b.value < 256
  {
    if |r| >= 3 && r[0] == '%' && IsHex(r[1]) && IsHex(r[2]) then Some(16 * HexValue(r[1]) + HexValue(r[2]))
    else None
  }

  /** The bytes of `n` escapes in a row at the start of `r`. */
  function EscapedBytes(r: string, n: nat): (bytes: Option<seq<nat>>)
    ensures bytes.Some? ==> |bytes.value| == n && 3 * n <= |r|
  {
    if n == 0 then Some([])
    else
      match EscapedByte(r)
      case None => None
      case Some(b) =>
        match EscapedBytes(r[3..], n - 1)
        case None => None
        case Some(bs) => Some([b] + bs)
  }

  /** The length of the UTF-8 sequence a lead byte starts; 0 for a byte that cannot lead. */
  function SequenceLength(lead: nat): nat
  {
    if lead < 0x80 then 1
    else if 0xC0 <= lead < 0xE0 then 2
    else if 0xE0 <= lead < 0xF0 then 3
    else if 0xF0 <= lead < 0xF8 then 4
    else 0
  }

  predicate IsContinuation(b: nat)
  {
    0x80 <= b < 0xC0
  }

  /** The smallest scalar value that needs a sequence of `n` bytes. */
  function MinCodePoint(n: nat): nat
  {
    if n <= 1 then 0 else if n == 2 then 0x80 else if n == 3 then 0x800 else 0x10000
  }

  /** The number the payload bits of a UTF-8 sequence spell. */
  function CodePoint(bytes: seq<nat>): int
    requires 1 <= |bytes| <= 4
  {
    if |bytes| == 1 then bytes[0]
    else if |bytes| == 2 then (bytes[0] as int - 0xC0) * 0x40 + (bytes[1] as int - 0x80)
    else if |bytes| == 3 then (bytes[0] as int - 0xE0) * 0x1000 + (bytes[1] as int - 0x80) * 0x40 + (bytes[2] as int - 0x80)
    else (bytes[0] as int - 0xF0) * 0x40000 + (bytes[1] as int - 0x80) * 0x1000 + (bytes[2] as int - 0x80) * 0x40 + (bytes[3] as int - 0x80)
  }

  /** The character a complete UTF-8 sequence encodes; none for a malformed or overlong
      sequence, or one that encodes a surrogate or lies past U+10FFFF. */
  function Utf8Decode(bytes: seq<nat>): Option<char>
  {
    if |bytes| == 0 || |bytes| != SequenceLength(bytes[0]) then None
    else if !(forall k :: 1 <= k < |bytes| ==> IsContinuation(bytes[k])) then None
    else
      var cp := CodePoint(bytes);
      if cp < MinCodePoint(|bytes|) || 0xD800 <= cp < 0xE000 || cp >= 0x110000 then None
      else Some(cp as char)
  }

  /** The first character `decodeURIComponent` reads from `r`, and how many characters of
      `r` it took: a plain character, or a run of escapes holding one UTF-8 sequence. None
      where the escapes are malformed, which throws a URIError. */
  function DecodeFirst(r: string): (d: Option<(char, nat)>)
    requires r != []
    ensures d.Some? ==> 1 <= d.value.1 <= |r|
  {
    if r[0] != '%' then Some((r[0], 1))
    else
      match EscapedByte(r)
      case None => None
      case Some(lead) =>
        var n := SequenceLength(lead);
        if n == 0 then None
        else
          match EscapedBytes(r, n)
          case None => None
          case Some(bytes) =>
            match Utf8Decode(bytes)
            case None => None
            case Some(c) => Some((c, 3 * n))
  }

  /** `decodeURIComponent(r)`: every escape sequence decoded as UTF-8; none where it
      throws a URIError. */
  function DecodeUriComponent(r: string): Option<string>
    decreases |r|
  {
    if r == [] then Some([])
    else
      match DecodeFirst(r)
      case None => None
      case Some((c, used)) =>
        match DecodeUriComponent(r[used..])
        case None => None
        case Some(t) => Some([c] + t)
  }

  /** `16 * hi + lo` of the two digits written for a byte is the byte. */
  lemma HexRoundTrip(b: nat)
    requires b < 256
    ensures 16 * HexValue(HexDigit(b / 16)) + HexValue(HexDigit(b % 16)) == b
  {
  }

  /** The escape written for a byte, followed by any text, reads back as the byte. */
  lemma EscapeRead(b: nat, tail: string)
    requires b < 256
    ensures EscapedByte(['%', HexDigit(b / 16), HexDigit(b % 16)] + tail) == Some(b)
  {
    var r := ['%', HexDigit(b / 16), HexDigit(b % 16)] + tail;
    assert r[0] == '%' && r[1] == HexDigit(b / 16) && r[2] == HexDigit(b % 16);
    HexRoundTrip(b);
  }

  /** The first escape of a run reads back as the first byte. */
  lemma FirstEscapeRead(bytes: seq<nat>, rest: string)
    requires |bytes| >= 1 && forall k :: 0 <= k < |bytes| ==> bytes[k] < 256
    ensures EscapedByte(PercentEscapes(bytes) + rest) == Some(bytes[0])
  {
    var b := bytes[0];
    var head := ['%', HexDigit(b / 16), HexDigit(b % 16)];
    assert PercentEscapes(bytes) + rest == head + (PercentEscapes(bytes[1..]) + rest);
    EscapeRead(b, PercentEscapes(bytes[1..]) + rest);
  }

  /** A byte written as an escape reads back as itself. */
  lemma {:induction false} EscapesRead(bytes: seq<nat>, rest: string)
    requires forall k :: 0 <= k < |bytes| ==> bytes[k] < 256
    ensures EscapedBytes(PercentEscapes(bytes) + rest, |bytes|) == Some(bytes)
  {
    if bytes != [] {
      var r := PercentEscapes(bytes) + rest;
      FirstEscapeRead(bytes, rest);
      assert r[3..] == PercentEscapes(bytes[1..]) + rest;
      EscapesRead(bytes[1..], rest);
      assert [bytes[0]] + bytes[1..] == bytes;
    }
  }

  /** The payload bits of a character's UTF-8 bytes spell the character. */
  lemma Utf8Payload(c: char)
    ensures CodePoint(Utf8(c)) == c as int
  {
    var n := c as int;
    var q1, r1 := n / 0x40, n % 0x40;
    var q2, r2 := q1 / 0x40, q1 % 0x40;
    var q3, r3 := q2 / 0x40, q2 % 0x40;
    assert n == q1 * 0x40 + r1 && q1 == q2 * 0x40 + r2 && q2 == q3 * 0x40 + r3;
    assert n / 0x1000 == q2 && n / 0x40000 == q3;
  }

  /** UTF-8 decoding undoes UTF-8 encoding, and the lead byte announces the length. */
  lemma Utf8RoundTrip(c: char)
    ensures SequenceLength(Utf8(c)[0]) == |Utf8(c)|
    ensures Utf8Decode(Utf8(c)) == Some(c)
  {
    Utf8Payload(c);
  }

  /** One encoded character, followed by any text, is read back first, and the read takes
      exactly its encoding. */
  lemma EncodeCharDecodes(c: char, rest: string)
    ensures DecodeFirst(EncodeChar(c) + rest) == Some((c, |EncodeChar(c)|))
  {
    var r := EncodeChar(c) + rest;
    if IsUriUnreserved(c) {
      assert r[0] == c;
    } else {
      var bytes := Utf8(c);
      Utf8RoundTrip(c);
      FirstEscapeRead(bytes, rest);
      EscapesRead(bytes, rest);
    }
  }

  /** `decodeURIComponent(encodeURIComponent(s)) === s`: the encoding loses nothing, so
      two different names never give the same URL. */
  lemma {:induction false} UriRoundTrip(s: string)
    ensures DecodeUriComponent(EncodeUriComponent(s)) == Some(s)
  {
    if s != [] {
      var e := EncodeUriComponent(s[1..]);
      var r := EncodeChar(s[0]) + e;
      UriRoundTrip(s[1..]);
      EncodeCharDecodes(s[0], e);
      assert r[|EncodeChar(s[0])|..] == e;
      assert [s[0]] + s[1..] == s;
    }
  }
}
