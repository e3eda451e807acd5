/**
 * The text `json.dumps(obj, indent=2)` produces for a flat object whose keys
 * and values are all strings, with Python's default `ensure_ascii=True`, and a
 * reader for that text.  The reader is the partner of the writer: reading back
 * what was written gives the same key/value pairs, in the same order.
 */
module JsonText {
  import opened Wrappers

  /** A digit of Python's lower-case hexadecimal format. */
  predicate IsLowerHexDigit(c: char)
  {
    '0' <= c <= '9' || 'a' <= c <= 'f'
  }

  /** One digit of Python's `'{0:04x}'` format, lower case. */
  function HexDigit(d: int): (c: char)
    requires 0 <= d < 16
    ensures IsLowerHexDigit(c)
  {
    if d < 10 then ('0' as int + d) as char else ('a' as int + d - 10) as char
  }

  /** Four lower-case hexadecimal digits of `n`, most significant first. */
  function Hex4(n: int): (h: string)
    requires 0 <= n < 0x1_0000
    ensures |h| == 4 && forall k :: 0 <= k < 4 ==> IsLowerHexDigit(h[k])
  {
    var low12 := n % 0x1000;
    var low8 := low12 % 0x100;
    [HexDigit(n / 0x1000), HexDigit(low12 / 0x100), HexDigit(low8 / 0x10), HexDigit(low8 % 0x10)]
  }

  /** The value of one hexadecimal digit, either case, as a JSON reader accepts it. */
  function HexValue(c: char): (v: Option<int>)
    ensures v.Some? ==> 0 <= v.value < 16
  {
    if '0' <= c <= '9' then Some(c as int - '0' as int)
    else if 'a' <= c <= 'f' then Some(c as int - 'a' as int + 10)
    else if 'A' <= c <= 'F' then Some(c as int - 'A' as int + 10)
    else None
  }

  function ParseHex4(t: string): (v: Option<int>)
    requires |t| >= 4
    ensures v.Some? ==> 0 <= v.value < 0x1_0000
  {
    match (HexValue(t[0]), HexValue(t[1]), HexValue(t[2]), HexValue(t[3]))
    case (Some(a), Some(b), Some(c), Some(d)) => Some(a * 0x1000 + b * 0x100 + c * 0x10 + d)
    case _ => None
  }

  /** A UTF-16 surrogate code unit, which `\u` escapes carry in pairs for characters beyond U+FFFF. */
  predicate IsHighSurrogate(n: int) { 0xD800 <= n < 0xDC00 }
  predicate IsLowSurrogate(n: int) { 0xDC00 <= n < 0xE000 }

  /** The characters with a two-character escape of their own (Python's `ESCAPE_DCT`), and their letter. */
  function ShortEscape(c: char): (x: Option<char>)
    ensures x.Some? ==> x.value != 'u'
  {
    if c == '"' then Some('"')
    else if c == '\\' then Some('\\')
    else if c == '\n' then Some('n')
    else if c == '\r' then Some('r')
    else if c == '\t' then Some('t')
    else if c as int == 0x08 then Some('b')
    else if c as int == 0x0C then Some('f')
    else None
  }

  /** The high surrogate of a character above U+FFFF: its upper ten bits above 0x1_0000. */
  function HighSurrogate(c: char): (hi: int)
    requires c as int >= 0x1_0000
    ensures IsHighSurrogate(hi)
  {
    0xD800 + (c as int - 0x1_0000) / 0x400
  }

  /** The low surrogate of a character above U+FFFF: its lower ten bits. */
  function LowSurrogate(c: char): (lo: int)
    requires c as int >= 0x1_0000
    ensures IsLowSurrogate(lo)
  {
    0xDC00 + (c as int - 0x1_0000) % 0x400
  }

  /**
   * How `json.dumps` writes one character of a string with `ensure_ascii=True`:
   * quote, backslash and five control characters take their short escape;
   * every other character outside the printable ASCII range ' '..'~' becomes
   * `\uXXXX`, or a surrogate pair of them above U+FFFF.  (Python writes the
   * pair with `0xd800 | (n >> 10)` and `0xdc00 | (n & 0x3ff)`; for n below
   * 0x10_0000 these are the sums used here.)
   */
  function EscapeChar(c: char): (e: string)
    ensures |e| > 0 && e[0] != '"'
  {
    if ShortEscape(c).Some? then ['\\', ShortEscape(c).value]
    else if ' ' <= c <= '~' then [c]
    else if c as int < 0x1_0000 then "\\u" + Hex4(c as int)
    else "\\u" + Hex4(HighSurrogate(c)) + "\\u" + Hex4(LowSurrogate(c))
  }

  function Escape(s: string): string
  {
    if s == [] then [] else EscapeChar(s[0]) + Escape(s[1..])
  }

  /** A JSON string literal, as `json.dumps` writes a `str`. */
  function Quote(s: string): string
  {
    "\"" + Escape(s) + "\""
  }

  /** One `"key": "value"` member of an object written with `indent=2`. */
  function Member(p: (string, string)): string
  {
    Quote(p.0) + ": " + Quote(p.1)
  }

  /** The written members, one per pair. */
  function MemberTexts(fs: seq<(string, string)>): (ms: seq<string>)
    ensures |ms| == |fs|
  {
    if fs == [] then [] else [Member(fs[0])] + MemberTexts(fs[1..])
  }

  /** Texts joined by the item separator `,` followed by the next line's indent. */
  function Joined(ms: seq<string>): string
    requires |ms| > 0
  {
    if |ms| == 1 then ms[0] else ms[0] + ",\n  " + Joined(ms[1..])
  }

  function Members(fs: seq<(string, string)>): string
    requires |fs| > 0
  {
    Joined(MemberTexts(fs))
  }

  /** `json.dumps(dict(fs), indent=2)` for pairs with distinct keys, in their order. */
  function Object(fs: seq<(string, string)>): string
  {
    if fs == [] then "{}" else "{\n  " + Members(fs) + "\n}"
  }

  // ---------------------------------------------------------------- reader

  /** The character of a `\u` escape whose four digits start `t`, and what follows it. */
  function DecodeUnicode(t: string): (r: Option<(char, string)>)
    ensures r.Some? ==> |r.value.1| + 4 <= |t|
  {
    if |t| < 4 then None
    else match ParseHex4(t)
      case None => None
      case Some(n) =>
        if IsHighSurrogate(n) then
          if |t| >= 10 && t[4] == '\\' && t[5] == 'u' then
            match ParseHex4(t[6..])
            case Some(m) =>
              if IsLowSurrogate(m) then Some(((0x1_0000 + (n - 0xD800) * 0x400 + (m - 0xDC00)) as char, t[10..]))
              else None
            case None => None
          else None
        else if IsLowSurrogate(n) then None
        else Some((n as char, t[4..]))
  }

  /** The character a JSON reader gives for a backslash followed by `x`, other than `\u`. */
  function ShortUnescape(x: char): Option<char>
  {
    if x == '"' || x == '\\' || x == '/' then Some(x)
    else if x == 'b' then Some(0x08 as char)
    else if x == 'f' then Some(0x0C as char)
    else if x == 'n' then Some('\n')
    else if x == 'r' then Some('\r')
    else if x == 't' then Some('\t')
    else None
  }

  /** One possibly escaped character of a string literal's body, and what follows it. */
  function DecodeChar(t: string): (r: Option<(char, string)>)
    ensures r.Some? ==> |r.value.1| < |t|
  {
    if |t| == 0 then None
    else if t[0] == '\\' then
      if |t| < 2 then None
      else if t[1] == 'u' then DecodeUnicode(t[2..])
      else match ShortUnescape(t[1])
        case Some(c) => Some((c, t[2..]))
        case None => None
    else if t[0] as int < 0x20 then None
    else Some((t[0], t[1..]))
  }

  /** The body of a string literal up to its closing quote, and what follows the quote. */
  function ParseChars(t: string): (r: Option<(string, string)>)
    ensures r.Some? ==> |r.value.1| < |t|
    decreases |t|
  {
    if |t| == 0 then None
    else if t[0] == '"' then Some(([], t[1..]))
    else match DecodeChar(t)
      case None => None
      case Some((c, rest)) =>
        match ParseChars(rest)
        case None => None
        case Some((s, after)) => Some(([c] + s, after))
  }

  function ParseString(t: string): (r: Option<(string, string)>)
    ensures r.Some? ==> |r.value.1| < |t|
  {
    if |t| > 0 && t[0] == '"' then ParseChars(t[1..]) else None
  }

  /** One `"key": "value"` member, and the text after it. */
  function ParseMember(t: string): (r: Option<((string, string), string)>)
    ensures r.Some? ==> |r.value.1| < |t|
  {
    match ParseString(t)
    case None => None
    case Some((k, t1)) =>
      if |t1| < 2 || t1[..2] != ": " then None
      else match ParseString(t1[2..])
        case None => None
        case Some((v, t2)) => Some(((k, v), t2))
  }

  /** The members of an object written with `indent=2`, up to and including its closing line. */
  function ParseMembers(t: string): (r: Option<seq<(string, string)>>)
    decreases |t|
  {
    match ParseMember(t)
    case None => None
    case Some((p, t2)) =>
      if t2 == "\n}" then Some([p])
      else if |t2| >= 4 && t2[..4] == ",\n  " then
        match ParseMembers(t2[4..])
        case None => None
        case Some(more) => Some([p] + more)
      else None
  }

  function ParseObject(t: string): (r: Option<seq<(string, string)>>)
  {
    if t == "{}" then Some([])
    else if |t| >= 4 && t[..4] == "{\n  " then ParseMembers(t[4..])
    else None
  }

  // ---------------------------------------------------------------- round trip

  lemma HexDigitRoundTrip(d: int)
    requires 0 <= d < 16
    ensures HexValue(HexDigit(d)) == Some(d)
  {
  }

  lemma Hex4RoundTrip(n: int)
    requires 0 <= n < 0x1_0000
    ensures ParseHex4(Hex4(n)) == Some(n)
  {
    var low12 := n % 0x1000;
    var low8 := low12 % 0x100;
    var d0, d1, d2, d3 := n / 0x1000, low12 / 0x100, low8 / 0x10, low8 % 0x10;
    HexDigitRoundTrip(d0);
    HexDigitRoundTrip(d1);
    HexDigitRoundTrip(d2);
    HexDigitRoundTrip(d3);
    var h := Hex4(n);
    assert h[0] == HexDigit(d0) && h[1] == HexDigit(d1) && h[2] == HexDigit(d2) && h[3] == HexDigit(d3);
    assert n == d0 * 0x1000 + low12;
    assert low12 == d1 * 0x100 + low8;
    assert low8 == d2 * 0x10 + d3;
  }

  /** A character of the Basic Multilingual Plane outside printable ASCII, written as `\uXXXX`. */
  lemma UnicodeEscapeRoundTrip(c: char, rest: string)
    requires c as int < 0x1_0000 && !IsHighSurrogate(c as int) && !IsLowSurrogate(c as int)
    ensures DecodeUnicode(Hex4(c as int) + rest) == Some((c, rest))
  {
    var t := Hex4(c as int) + rest;
    Hex4RoundTrip(c as int);
    assert t[..4] == Hex4(c as int);
    assert t[4..] == rest;
  }

  /** The two surrogates of a character recombine to it. */
  lemma SurrogatesRecombine(c: char)
    requires c as int >= 0x1_0000
    ensures 0x1_0000 + (HighSurrogate(c) - 0xD800) * 0x400 + (LowSurrogate(c) - 0xDC00) == c as int
  {
  }

  /** Reading a written high and low surrogate gives the character they combine to. */
  lemma DecodeSurrogates(hi: int, lo: int, rest: string)
    requires IsHighSurrogate(hi) && IsLowSurrogate(lo)
    ensures DecodeUnicode(Hex4(hi) + "\\u" + Hex4(lo) + rest) ==
            Some(((0x1_0000 + (hi - 0xD800) * 0x400 + (lo - 0xDC00)) as char, rest))
  {
    Hex4RoundTrip(hi);
    Hex4RoundTrip(lo);
    var u := Hex4(hi) + "\\u" + Hex4(lo) + rest;
    assert u[..4] == Hex4(hi);
    assert u[4] == '\\' && u[5] == 'u';
    assert u[6..][..4] == Hex4(lo);
    assert u[10..] == rest;
  }

  /** A character above U+FFFF, written as a `\uXXXX\uXXXX` surrogate pair. */
  lemma SurrogatePairRoundTrip(c: char, rest: string)
    requires c as int >= 0x1_0000
    ensures DecodeUnicode(Hex4(HighSurrogate(c)) + "\\u" + Hex4(LowSurrogate(c)) + rest) == Some((c, rest))
  {
    DecodeSurrogates(HighSurrogate(c), LowSurrogate(c), rest);
    SurrogatesRecombine(c);
  }

  lemma ShortEscapeRoundTrip(c: char)
    requires ShortEscape(c).Some?
    ensures ShortUnescape(ShortEscape(c).value) == Some(c)
  {
  }

  /** Reading one written character gives it back and leaves the rest of the text. */
  lemma EscapeCharRoundTrip(c: char, rest: string)
    ensures DecodeChar(EscapeChar(c) + rest) == Some((c, rest))
  {
    var t := EscapeChar(c) + rest;
    if ShortEscape(c).Some? {
      ShortEscapeRoundTrip(c);
      assert t[1] == ShortEscape(c).value && t[2..] == rest;
    } else if ' ' <= c <= '~' {
      assert t[1..] == rest;
    } else if c as int < 0x1_0000 {
      assert t[2..] == Hex4(c as int) + rest;
      UnicodeEscapeRoundTrip(c, rest);
    } else {
      assert t[2..] == Hex4(HighSurrogate(c)) + "\\u" + Hex4(LowSurrogate(c)) + rest;
      SurrogatePairRoundTrip(c, rest);
    }
  }

  lemma {:induction false} EscapeRoundTrip(s: string, rest: string)
    ensures ParseChars(Escape(s) + "\"" + rest) == Some((s, rest))
    decreases |s|
  {
    if s == [] {
      assert Escape(s) + "\"" + rest == "\"" + rest;
    } else {
      var tail := Escape(s[1..]) + "\"" + rest;
      assert Escape(s) + "\"" + rest == EscapeChar(s[0]) + tail;
      EscapeCharRoundTrip(s[0], tail);
      EscapeRoundTrip(s[1..], rest);
      assert [s[0]] + s[1..] == s;
    }
  }

  /** Reading a written string literal gives back the string and leaves the text after it. */
  lemma QuoteRoundTrip(s: string, rest: string)
    ensures ParseString(Quote(s) + rest) == Some((s, rest))
  {
    var t := Quote(s) + rest;
    assert t[1..] == Escape(s) + "\"" + rest;
    EscapeRoundTrip(s, rest);
  }

  /** Reading one written member gives its key, then its value, then the text after it. */
  lemma MemberRoundTrip(p: (string, string), after: string)
    ensures ParseMember(Member(p) + after) == Some((p, after))
  {
    var t1 := ": " + (Quote(p.1) + after);
    assert Member(p) + after == Quote(p.0) + t1;
    QuoteRoundTrip(p.0, t1);
    assert t1[2..] == Quote(p.1) + after;
    QuoteRoundTrip(p.1, after);
  }

  lemma ParseLastMember(p: (string, string))
    ensures ParseMembers(Member(p) + "\n}") == Some([p])
  {
    MemberRoundTrip(p, "\n}");
  }

  lemma ParseMemberThenMore(t: string, p: (string, string), after: string, more: seq<(string, string)>)
    requires ParseMember(t) == Some((p, after))
    requires |after| >= 4 && after[..4] == ",\n  " && ParseMembers(after[4..]) == Some(more)
    ensures ParseMembers(t) == Some([p] + more)
  {
    assert after != "\n}" by { assert after[0] != "\n}"[0]; }
  }

  lemma {:induction false} MembersRoundTrip(fs: seq<(string, string)>)
    requires |fs| > 0
    ensures ParseMembers(Members(fs) + "\n}") == Some(fs)
    decreases |fs|
  {
    var ms := MemberTexts(fs);
    assert ms[0] == Member(fs[0]) && ms[1..] == MemberTexts(fs[1..]);
    if |fs| == 1 {
      ParseLastMember(fs[0]);
      assert [fs[0]] == fs;
    } else {
      var after := ",\n  " + (Members(fs[1..]) + "\n}");
      assert Members(fs) + "\n}" == Member(fs[0]) + after;
      assert after[..4] == ",\n  " && after[4..] == Members(fs[1..]) + "\n}";
      MembersRoundTrip(fs[1..]);
      MemberRoundTrip(fs[0], after);
      ParseMemberThenMore(Member(fs[0]) + after, fs[0], after, fs[1..]);
      assert [fs[0]] + fs[1..] == fs;
    }
  }

  /** Reading back what `Object` wrote gives the same pairs in the same order. */
  lemma ObjectRoundTrip(fs: seq<(string, string)>)
    ensures ParseObject(Object(fs)) == Some(fs)
  {
    if fs != [] {
      var t := Object(fs);
      assert t[..4] == "{\n  " && t[4..] == Members(fs) + "\n}";
      MembersRoundTrip(fs);
    }
  }

  /** Written text never collapses two different objects: `Object` is injective. */
  lemma ObjectInjective(fs: seq<(string, string)>, gs: seq<(string, string)>)
    ensures Object(fs) == Object(gs) <==> fs == gs
  {
    ObjectRoundTrip(fs);
    ObjectRoundTrip(gs);
  }

  /** A printable ASCII string without quote or backslash is written verbatim between quotes. */
  predicate IsPlain(s: string)
  {
    forall i :: 0 <= i < |s| ==> ' ' <= s[i] <= '~' && s[i] != '"' && s[i] != '\\'
  }

  lemma {:induction false} PlainEscapesToItself(s: string)
    requires IsPlain(s)
    ensures Escape(s) == s
    decreases |s|
  {
    if s != [] {
      assert IsPlain(s[1..]) by {
        forall i | 0 <= i < |s[1..]| ensures ' ' <= s[1..][i] <= '~' && s[1..][i] != '"' && s[1..][i] != '\\' {
          assert s[1..][i] == s[i + 1];
        }
      }
      PlainEscapesToItself(s[1..]);
      assert [s[0]] + s[1..] == s;
    }
  }

  /** A plain character is written as itself; every other one takes at least two characters. */
  lemma EscapeCharLength(c: char)
    ensures ' ' <= c <= '~' && c != '"' && c != '\\' ==> EscapeChar(c) == [c]
    ensures !(' ' <= c <= '~' && c != '"' && c != '\\') ==> |EscapeChar(c)| >= 2
  {
  }

  /** Escaping never shortens a string, and it keeps the length exactly when the string is plain. */
  lemma {:induction false} EscapeLength(s: string)
    ensures |Escape(s)| >= |s|
    ensures |Escape(s)| == |s| <==> IsPlain(s)
    decreases |s|
  {
    if s != [] {
      EscapeCharLength(s[0]);
      EscapeLength(s[1..]);
      if IsPlain(s) {
        assert IsPlain(s[1..]) by {
          forall i | 0 <= i < |s[1..]| ensures ' ' <= s[1..][i] <= '~' && s[1..][i] != '"' && s[1..][i] != '\\' {
            assert s[1..][i] == s[i + 1];
          }
        }
      } else if ' ' <= s[0] <= '~' && s[0] != '"' && s[0] != '\\' {
        assert !IsPlain(s[1..]) by {
          var i :| 0 <= i < |s| && !(' ' <= s[i] <= '~' && s[i] != '"' && s[i] != '\\');
          assert s[1..][i - 1] == s[i];
        }
      }
    }
  }

  /** A string is written unescaped exactly when it is printable ASCII without quote or backslash. */
  lemma VerbatimIffPlain(s: string)
    ensures Escape(s) == s <==> IsPlain(s)
  {
    EscapeLength(s);
    if IsPlain(s) {
      PlainEscapesToItself(s);
    }
  }

  /** A string holding any character beyond ASCII is not written verbatim. */
  lemma NonAsciiNotVerbatim(s: string, i: int)
    requires 0 <= i < |s| && s[i] as int > 0x7E
    ensures Escape(s) != s
  {
    VerbatimIffPlain(s);
  }

  /** For instance, `"José"` is written `Jos\u00e9`. */
  lemma NonAsciiIsEscaped()
    ensures Escape("Jos\U{e9}") == "Jos\\u00e9"
    ensures Escape("Jos\U{e9}") != "Jos\U{e9}"
  {
    assert Hex4(0xe9) == "00e9";
    assert EscapeChar('\U{e9}') == "\\u00e9";
    assert Escape("\U{e9}") == "\\u00e9" by {
      assert "\U{e9}"[1..] == [];
    }
    assert Escape("s\U{e9}") == "s\\u00e9" by {
      assert "s\U{e9}"[1..] == "\U{e9}";
    }
    assert Escape("os\U{e9}") == "os\\u00e9" by {
      assert "os\U{e9}"[1..] == "s\U{e9}";
    }
    assert "Jos\U{e9}"[1..] == "os\U{e9}";
  }
}
