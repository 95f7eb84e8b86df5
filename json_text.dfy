/**
 * The JSON text of one streamed record, at both ends of the wire.
 *
 * The backend writes a dict of string members with Python's `json.dumps`
 * (default separators ", " and ": ", `ensure_ascii` on); the frontend reads
 * each line back with `JSON.parse`. Only objects whose member values are all
 * strings are modelled: that is every record the backend produces.
 */
module JsonText {
  import opened Wrappers

  /** A member `"key": "value"` of a flat JSON object. */
  type Member = (string, string)

  /** The whitespace JSON allows between tokens (section 2 of RFC 8259). */
  predicate IsJsonSpace(c: char) {
    c == ' ' || c == '\t' || c == '\n' || c == '\r'
  }

  /** Characters that `json.dumps` writes as they are: printable ASCII. */
  predicate IsPrintableAscii(c: char) {
    ' ' <= c <= '~'
  }

  function SkipSpace(s: string): (r: string)
    ensures |r| <= |s|
    ensures r == [] || !IsJsonSpace(r[0])
  {
    if s != [] && IsJsonSpace(s[0]) then SkipSpace(s[1..]) else s
  }

  // ---------------------------------------------------------------------
  // Hexadecimal digits of \uXXXX escapes
  // ---------------------------------------------------------------------

  /** Python formats escapes with '{0:04x}': lower-case digits. */
  function HexDigit(d: int): (c: char)
    requires 0 <= d < 16
    ensures IsPrintableAscii(c)
  {
    if d < 10 then ('0' as int + d) as char else ('a' as int + d - 10) as char
  }

  /** JSON.parse accepts digits of either case. */
  function HexValue(c: char): Option<int> {
    if '0' <= c <= '9' then Some(c as int - '0' as int)
    else if 'a' <= c <= 'f' then Some(c as int - 'a' as int + 10)
    else if 'A' <= c <= 'F' then Some(c as int - 'A' as int + 10)
    else None
  }

  function Hex4(n: int): (r: string)
    requires 0 <= n < 0x10000
    ensures |r| == 4
  {
    var low12 := n % 0x1000;
    var low8 := low12 % 0x100;
    [HexDigit(n / 0x1000), HexDigit(low12 / 0x100), HexDigit(low8 / 0x10), HexDigit(low8 % 0x10)]
  }

  function ParseHex4(h: string): (r: Option<int>)
    requires |h| == 4
    ensures r.Some? ==> 0 <= r.value < 0x10000
  {
    match (HexValue(h[0]), HexValue(h[1]), HexValue(h[2]), HexValue(h[3]))
    case (Some(a), Some(b), Some(c), Some(d)) =>
      if 0 <= a < 16 && 0 <= b < 16 && 0 <= c < 16 && 0 <= d < 16
      then Some(a * 0x1000 + b * 0x100 + c * 0x10 + d) else None
    case _ => None
  }

  lemma HexDigitValue(d: int)
    requires 0 <= d < 16
    ensures HexValue(HexDigit(d)) == Some(d)
  {
  }

  /** Reading back the four digits Python wrote gives the code unit back. */
  lemma Hex4RoundTrip(n: int)
    requires 0 <= n < 0x10000
    ensures ParseHex4(Hex4(n)) == Some(n)
  {
    var low12 := n % 0x1000;
    var low8 := low12 % 0x100;
    var a, b, c, d := n / 0x1000, low12 / 0x100, low8 / 0x10, low8 % 0x10;
    assert n == a * 0x1000 + low12;
    assert low12 == b * 0x100 + low8;
    assert low8 == c * 0x10 + d;
    var h := Hex4(n);
    assert h == [HexDigit(a), HexDigit(b), HexDigit(c), HexDigit(d)];
    HexDigitValue(a);
    HexDigitValue(b);
    HexDigitValue(c);
    HexDigitValue(d);
  }

  // ---------------------------------------------------------------------
  // Python side: json.dumps of strings and of a dict of strings
  // ---------------------------------------------------------------------

  /** How `json.dumps` (ensure_ascii) writes one character inside a string literal. */
  function EscapeChar(c: char): (r: string)
    ensures |r| > 0
  {
    if c == '"' then "\\\""
    else if c == '\\' then "\\\\"
    else if c == '\n' then "\\n"
    else if c == '\r' then "\\r"
    else if c == '\t' then "\\t"
    else if c == '\U{8}' then "\\b"
    else if c == '\U{C}' then "\\f"
    else if IsPrintableAscii(c) then [c]
    else if c as int < 0x10000 then "\\u" + Hex4(c as int)
    else
      // outside the Basic Multilingual Plane: a UTF-16 surrogate pair
      var v := c as int - 0x10000;
      "\\u" + Hex4(0xD800 + v / 0x400) + "\\u" + Hex4(0xDC00 + v % 0x400)
  }

  function Escape(s: string): string
  {
    if s == [] then [] else EscapeChar(s[0]) + Escape(s[1..])
  }

  function Quote(s: string): (r: string)
    ensures |r| >= 2 && r[0] == '"'
  {
    "\"" + Escape(s) + "\""
  }

  function DumpMember(m: Member): (r: string)
    ensures r != [] && r[0] == '"'
  {
    Quote(m.0) + ": " + Quote(m.1)
  }

  /** The members of a non-empty dict, separated by ", ". */
  function DumpMembers(ms: seq<Member>): (r: string)
    requires ms != []
    ensures r != [] && r[0] == '"'
  {
    if |ms| == 1 then DumpMember(ms[0]) else DumpMember(ms[0]) + ", " + DumpMembers(ms[1..])
  }

  /** `json.dumps(d)` for a dict `d` whose keys and values are strings, in insertion order. */
  function Dumps(ms: seq<Member>): (r: string)
    ensures r != [] && r[0] == '{' && r[|r| - 1] == '}'
  {
    if ms == [] then "{}" else "{" + DumpMembers(ms) + "}"
  }

  // ---------------------------------------------------------------------
  // JavaScript side: JSON.parse of a flat object of strings
  // ---------------------------------------------------------------------

  function Cons(c: char, r: Option<(string, string)>): (r': Option<(string, string)>)
    ensures r'.Some? <==> r.Some?
    ensures r'.Some? ==> r'.value == ([c] + r.value.0, r.value.1)
  {
    match r
    case None => None
    case Some((t, rest)) => Some(([c] + t, rest))
  }

  function ShortEscape(c: char): Option<char> {
    if c == '"' then Some('"')
    else if c == '\\' then Some('\\')
    else if c == '/' then Some('/')
    else if c == 'b' then Some('\U{8}')
    else if c == 'f' then Some('\U{C}')
    else if c == 'n' then Some('\n')
    else if c == 'r' then Some('\r')
    else if c == 't' then Some('\t')
    else None
  }

  /**
   * Reads the characters of a string literal whose opening quote is already
   * consumed; returns the decoded text and what follows the closing quote.
   */
  function ParseStringBody(s: string): (r: Option<(string, string)>)
    ensures r.Some? ==> |r.value.1| < |s|
    decreases |s|
  {
    if s == [] then None
    else if s[0] == '"' then Some(([], s[1..]))
    else if s[0] == '\\' then
      if |s| < 2 then None
      else if s[1] == 'u' then
        if |s| < 6 then None
        else match ParseHex4(s[2..6])
          case None => None
          case Some(code) =>
            if 0xD800 <= code < 0xDC00 then
              if |s| >= 12 && s[6] == '\\' && s[7] == 'u' then
                match ParseHex4(s[8..12])
                case None => None
                case Some(low) =>
                  if 0xDC00 <= low < 0xE000
                  then Cons((0x10000 + (code - 0xD800) * 0x400 + (low - 0xDC00)) as char, ParseStringBody(s[12..]))
                  else None
              else None
            else if 0xDC00 <= code < 0xE000 then None
            else Cons(code as char, ParseStringBody(s[6..]))
      else match ShortEscape(s[1])
        case None => None
        case Some(c) => Cons(c, ParseStringBody(s[2..]))
    else if s[0] as int < 0x20 then None
    else Cons(s[0], ParseStringBody(s[1..]))
  }

  function ParseString(s: string): (r: Option<(string, string)>)
    ensures r.Some? ==> |r.value.1| < |s|
  {
    if s != [] && s[0] == '"' then ParseStringBody(s[1..]) else None
  }

  /** Skips whitespace and consumes the structural character `c`. */
  function Expect(s: string, c: char): (r: Option<string>)
    ensures r.Some? ==> |r.value| < |s|
  {
    var t := SkipSpace(s);
    if t != [] && t[0] == c then Some(t[1..]) else None
  }

  function ParseMember(s: string): (r: Option<(Member, string)>)
    ensures r.Some? ==> |r.value.1| < |s|
  {
    ParseKeyValue(SkipSpace(s))
  }

  /** `"key": "value"`, starting at the opening quote of the key. */
  function ParseKeyValue(s: string): (r: Option<(Member, string)>)
    ensures r.Some? ==> |r.value.1| < |s|
  {
    match ParseString(s)
    case None => None
    case Some((key, rest)) =>
      match Expect(rest, ':')
      case None => None
      case Some(rest') =>
        match ParseString(SkipSpace(rest'))
        case None => None
        case Some((value, rest'')) => Some(((key, value), rest''))
  }

  function PrependMember(m: Member, r: Option<(seq<Member>, string)>): (r': Option<(seq<Member>, string)>)
    ensures r'.Some? <==> r.Some?
    ensures r'.Some? ==> r'.value == ([m] + r.value.0, r.value.1)
  {
    match r
    case None => None
    case Some((ms, rest)) => Some(([m] + ms, rest))
  }

  /** One or more members followed by the closing brace. */
  function ParseMembers(s: string): (r: Option<(seq<Member>, string)>)
    ensures r.Some? ==> |r.value.1| < |s|
    decreases |s|, 1
  {
    match ParseMember(s)
    case None => None
    case Some((m, rest)) => PrependMember(m, MoreMembers(rest))
  }

  /** After a member: either ", " and further members, or the closing brace. */
  function MoreMembers(s: string): (r: Option<(seq<Member>, string)>)
    ensures r.Some? ==> |r.value.1| < |s|
    decreases |s|, 0
  {
    var t := SkipSpace(s);
    if t != [] && t[0] == ',' then ParseMembers(t[1..])
    else if t != [] && t[0] == '}' then Some(([], t[1..]))
    else None
  }

  function ParseObject(s: string): Option<(seq<Member>, string)> {
    match Expect(s, '{')
    case None => None
    case Some(rest) =>
      var t := SkipSpace(rest);
      if t != [] && t[0] == '}' then Some(([], t[1..])) else ParseMembers(t)
  }

  /** `JSON.parse(text)` when `text` is a flat object of strings; None where it throws. */
  function Parse(text: string): (r: Option<seq<Member>>)
    ensures r.Some? ==> SkipSpace(text) != [] && SkipSpace(text)[0] == '{'
  {
    match ParseObject(text)
    case None => None
    case Some((ms, rest)) => if SkipSpace(rest) == [] then Some(ms) else None
  }

  /** The property value of the parsed object: a repeated key keeps its last value. */
  function Lookup(ms: seq<Member>, key: string): (r: Option<string>)
    ensures r.Some? ==> (key, r.value) in ms
  {
    if ms == [] then None
    else if ms[|ms| - 1].0 == key then Some(ms[|ms| - 1].1)
    else Lookup(ms[..|ms| - 1], key)
  }

  /** A property is defined exactly when some member carries its key, and then holds the value of the last such member. */
  lemma {:induction false} LookupFinds(ms: seq<Member>, key: string)
    ensures Lookup(ms, key).Some? <==> exists i :: 0 <= i < |ms| && ms[i].0 == key
    ensures Lookup(ms, key).Some? ==>
              exists i :: 0 <= i < |ms| && ms[i] == (key, Lookup(ms, key).value)
                && forall j :: i < j < |ms| ==> ms[j].0 != key
  {
    if ms != [] && ms[|ms| - 1].0 != key {
      var init := ms[..|ms| - 1];
      LookupFinds(init, key);
      if Lookup(ms, key).Some? {
        var i :| 0 <= i < |init| && init[i] == (key, Lookup(ms, key).value)
                 && forall j :: i < j < |init| ==> init[j].0 != key;
        assert ms[i] == init[i];
        assert forall j :: i < j < |ms| ==> ms[j].0 != key by {
          forall j | i < j < |ms| ensures ms[j].0 != key {
            if j < |init| { assert ms[j] == init[j]; }
          }
        }
      } else {
        forall i | 0 <= i < |ms| ensures ms[i].0 != key {
          if i < |init| { assert ms[i] == init[i]; }
        }
      }
    }
  }

  // ---------------------------------------------------------------------
  // Round trip: what json.dumps writes, JSON.parse reads back
  // ---------------------------------------------------------------------

  lemma BmpEscapeThenParse(c: char, tail: string)
    requires !IsPrintableAscii(c) && c as int < 0x10000
    requires c != '\n' && c != '\r' && c != '\t' && c != '\U{8}' && c != '\U{C}'
    ensures ParseStringBody(EscapeChar(c) + tail) == Cons(c, ParseStringBody(tail))
  {
    var n := c as int;
    var s := EscapeChar(c) + tail;
    assert s == "\\u" + Hex4(n) + tail;
    assert s[2..6] == Hex4(n);
    assert s[6..] == tail;
    Hex4RoundTrip(n);
  }

  lemma SurrogatePairThenParse(c: char, tail: string)
    requires c as int >= 0x10000
    ensures ParseStringBody(EscapeChar(c) + tail) == Cons(c, ParseStringBody(tail))
  {
    var v := c as int - 0x10000;
    SurrogateHalves(c);
    PairEscape(c, tail);
    PairThenParse(EscapeChar(c) + tail, 0xD800 + v / 0x400, 0xDC00 + v % 0x400);
  }

  /** The escape of a character outside the Basic Multilingual Plane is two `\u` escapes of its surrogates. */
  lemma PairEscape(c: char, tail: string)
    requires c as int >= 0x10000
    ensures var v, s := c as int - 0x10000, EscapeChar(c) + tail;
            |s| >= 12 && s[0] == '\\' && s[1] == 'u' && s[6] == '\\' && s[7] == 'u' && s[12..] == tail
            && ParseHex4(s[2..6]) == Some(0xD800 + v / 0x400) && ParseHex4(s[8..12]) == Some(0xDC00 + v % 0x400)
  {
    var v := c as int - 0x10000;
    var hi, lo := 0xD800 + v / 0x400, 0xDC00 + v % 0x400;
    SurrogateHalves(c);
    PairEscapeText(c);
    PairLayout(hi, lo, tail);
    Hex4RoundTrip(hi);
    Hex4RoundTrip(lo);
  }

  /** A `\uD8xx\uDCxx` pair of escapes reads as the one character they encode. */
  lemma PairThenParse(s: string, hi: int, lo: int)
    requires |s| >= 12 && s[0] == '\\' && s[1] == 'u' && s[6] == '\\' && s[7] == 'u'
    requires ParseHex4(s[2..6]) == Some(hi) && ParseHex4(s[8..12]) == Some(lo)
    requires 0xD800 <= hi < 0xDC00 && 0xDC00 <= lo < 0xE000
    ensures ParseStringBody(s) == Cons((0x10000 + (hi - 0xD800) * 0x400 + (lo - 0xDC00)) as char, ParseStringBody(s[12..]))
  {
  }

  lemma PairEscapeText(c: char)
    requires c as int >= 0x10000
    ensures var v := c as int - 0x10000;
            EscapeChar(c) == "\\u" + Hex4(0xD800 + v / 0x400) + "\\u" + Hex4(0xDC00 + v % 0x400)
  {
  }

  /** The two halves of a UTF-16 surrogate pair fall in their ranges and recombine to the character. */
  lemma SurrogateHalves(c: char)
    requires c as int >= 0x10000
    ensures var v := c as int - 0x10000;
            var hi, lo := 0xD800 + v / 0x400, 0xDC00 + v % 0x400;
            0xD800 <= hi < 0xDC00 && 0xDC00 <= lo < 0xE000
            && (0x10000 + (hi - 0xD800) * 0x400 + (lo - 0xDC00)) as char == c
  {
  }

  lemma PairLayout(hi: int, lo: int, tail: string)
    requires 0 <= hi < 0x10000 && 0 <= lo < 0x10000
    ensures var s := "\\u" + Hex4(hi) + "\\u" + Hex4(lo) + tail;
            |s| >= 12 && s[0] == '\\' && s[1] == 'u' && s[2..6] == Hex4(hi) && s[6] == '\\' && s[7] == 'u'
            && s[8..12] == Hex4(lo) && s[12..] == tail
  {
  }

  lemma ShortEscapeThenParse(c: char, tail: string)
    requires c == '"' || c == '\\' || c == '\n' || c == '\r' || c == '\t' || c == '\U{8}' || c == '\U{C}'
    ensures ParseStringBody(EscapeChar(c) + tail) == Cons(c, ParseStringBody(tail))
  {
    var s := EscapeChar(c) + tail;
    assert |EscapeChar(c)| == 2;
    assert s[2..] == tail;
    assert ShortEscape(s[1]) == Some(c);
  }

  lemma {:induction false} EscapeCharThenParse(c: char, tail: string)
    ensures ParseStringBody(EscapeChar(c) + tail) == Cons(c, ParseStringBody(tail))
  {
    if c == '"' || c == '\\' || c == '\n' || c == '\r' || c == '\t' || c == '\U{8}' || c == '\U{C}' {
      ShortEscapeThenParse(c, tail);
    } else if IsPrintableAscii(c) {
      var s := EscapeChar(c) + tail;
      assert s[1..] == tail;
    } else if c as int < 0x10000 {
      BmpEscapeThenParse(c, tail);
    } else {
      SurrogatePairThenParse(c, tail);
    }
  }

  lemma {:induction false} EscapeThenParse(s: string, rest: string)
    ensures ParseStringBody(Escape(s) + "\"" + rest) == Some((s, rest))
  {
    if s == [] {
      assert Escape(s) + "\"" + rest == "\"" + rest;
    } else {
      var tail := Escape(s[1..]) + "\"" + rest;
      assert Escape(s) + "\"" + rest == EscapeChar(s[0]) + tail;
      EscapeCharThenParse(s[0], tail);
      EscapeThenParse(s[1..], rest);
      assert [s[0]] + s[1..] == s;
    }
  }

  /** A string literal written by json.dumps is read back as the same text. */
  lemma QuoteRoundTrip(s: string, rest: string)
    ensures ParseString(Quote(s) + rest) == Some((s, rest))
  {
    assert (Quote(s) + rest)[1..] == Escape(s) + "\"" + rest;
    EscapeThenParse(s, rest);
  }

  lemma SkipSpaceNonSpace(s: string)
    requires s != [] && !IsJsonSpace(s[0])
    ensures SkipSpace(s) == s
  {
  }

  lemma DumpMemberRoundTrip(m: Member, after: string)
    requires after != [] && !IsJsonSpace(after[0])
    ensures ParseKeyValue(DumpMember(m) + after) == Some((m, after))
  {
    var r2 := Quote(m.1) + after;
    var r1 := ": " + r2;
    assert DumpMember(m) + after == Quote(m.0) + r1;
    QuoteRoundTrip(m.0, r1);
    assert Expect(r1, ':') == Some(" " + r2) by {
      SkipSpaceNonSpace(r1);
      assert r1[1..] == " " + r2;
    }
    assert SkipSpace(" " + r2) == r2 by {
      SkipSpaceNonSpace(r2);
    }
    QuoteRoundTrip(m.1, after);
  }

  /** A first member, then what follows it. */
  lemma MembersStep(s: string, m: Member, after: string)
    requires s != [] && !IsJsonSpace(s[0]) && ParseKeyValue(s) == Some((m, after))
    ensures ParseMembers(s) == PrependMember(m, MoreMembers(after))
  {
    SkipSpaceNonSpace(s);
  }

  lemma ClosingBrace(rest: string)
    ensures MoreMembers("}" + rest) == Some(([], rest))
  {
    SkipSpaceNonSpace("}" + rest);
    assert ("}" + rest)[1..] == rest;
  }

  lemma LastMemberThenParse(m: Member, rest: string)
    ensures ParseMembers(DumpMember(m) + "}" + rest) == Some(([m], rest))
  {
    var after := "}" + rest;
    assert DumpMember(m) + "}" + rest == DumpMember(m) + after;
    DumpMemberRoundTrip(m, after);
    MembersStep(DumpMember(m) + after, m, after);
    ClosingBrace(rest);
    assert [m] + [] == [m];
  }

  lemma CommaSpace(next: string)
    ensures (", " + next)[1..] == " " + next
  {
  }

  lemma NextMemberThenParse(m: Member, next: string)
    requires next != [] && next[0] == '"'
    ensures ParseMembers(DumpMember(m) + ", " + next) == PrependMember(m, ParseMembers(next))
  {
    var after := ", " + next;
    assert DumpMember(m) + ", " + next == DumpMember(m) + after;
    DumpMemberRoundTrip(m, after);
    MembersStep(DumpMember(m) + after, m, after);
    CommaThenMembers(next);
  }

  /** After a comma and a space come the further members. */
  lemma CommaThenMembers(next: string)
    requires next != [] && next[0] == '"'
    ensures MoreMembers(", " + next) == ParseMembers(next)
  {
    var after := ", " + next;
    CommaSpace(next);
    SkipSpaceNonSpace(after);
    assert MoreMembers(after) == ParseMembers(" " + next);
    LeadingSpaceBeforeMember(next);
  }

  lemma LeadingSpaceBeforeMember(s: string)
    requires s != [] && s[0] == '"'
    ensures ParseMembers(" " + s) == ParseMembers(s)
  {
    SkipSpaceNonSpace(s);
    assert (" " + s)[1..] == s;
    assert ParseMember(" " + s) == ParseMember(s);
  }

  lemma {:induction false} DumpMembersRoundTrip(ms: seq<Member>, rest: string)
    requires ms != []
    ensures ParseMembers(DumpMembers(ms) + "}" + rest) == Some((ms, rest))
  {
    if |ms| == 1 {
      assert DumpMembers(ms) + "}" + rest == DumpMember(ms[0]) + "}" + rest;
      LastMemberThenParse(ms[0], rest);
      assert [ms[0]] == ms;
    } else {
      var next := DumpMembers(ms[1..]) + "}" + rest;
      assert DumpMembers(ms) + "}" + rest == DumpMember(ms[0]) + ", " + next;
      NextMemberThenParse(ms[0], next);
      DumpMembersRoundTrip(ms[1..], rest);
      assert [ms[0]] + ms[1..] == ms;
    }
  }

  /** JSON.parse(json.dumps(d) + trailing whitespace) gives back every member of d, in order. */
  lemma DumpsRoundTrip(ms: seq<Member>, trailing: string)
    requires forall i :: 0 <= i < |trailing| ==> IsJsonSpace(trailing[i])
    ensures Parse(Dumps(ms) + trailing) == Some(ms)
  {
    DumpsThenObject(ms, trailing);
    AllSpaceSkipped(trailing);
    ObjectThenSpace(Dumps(ms) + trailing, ms, trailing);
  }

  lemma DumpsThenObject(ms: seq<Member>, rest: string)
    ensures ParseObject(Dumps(ms) + rest) == Some((ms, rest))
  {
    if ms == [] {
      EmptyObject(rest);
    } else {
      var body := DumpMembers(ms) + "}" + rest;
      assert Dumps(ms) + rest == "{" + body;
      ObjectOpens(body);
      DumpMembersRoundTrip(ms, rest);
    }
  }

  lemma EmptyObject(rest: string)
    ensures ParseObject(Dumps([]) + rest) == Some(([], rest))
  {
    assert Dumps([]) + rest == "{" + ("}" + rest);
    ObjectOpens("}" + rest);
    assert ("}" + rest)[1..] == rest;
  }

  /** After the opening brace: the closing brace of an empty object, or the members. */
  lemma ObjectOpens(body: string)
    requires body != [] && (body[0] == '}' || body[0] == '"')
    ensures ParseObject("{" + body) == if body[0] == '}' then Some(([], body[1..])) else ParseMembers(body)
  {
    SkipSpaceNonSpace("{" + body);
    assert ("{" + body)[1..] == body;
    SkipSpaceNonSpace(body);
  }

  lemma ObjectThenSpace(s: string, ms: seq<Member>, rest: string)
    requires ParseObject(s) == Some((ms, rest)) && SkipSpace(rest) == []
    ensures Parse(s) == Some(ms)
  {
  }

  lemma {:induction false} AllSpaceSkipped(s: string)
    requires forall i :: 0 <= i < |s| ==> IsJsonSpace(s[i])
    ensures SkipSpace(s) == []
  {
    if s != [] {
      AllSpaceSkipped(s[1..]);
    }
  }

  /** A key that occurs last in the member list is looked up to its value. */
  lemma LookupLast(ms: seq<Member>, key: string, value: string)
    ensures Lookup(ms + [(key, value)], key) == Some(value)
  {
  }

  lemma LookupSkipsOther(ms: seq<Member>, m: Member, key: string)
    requires m.0 != key
    ensures Lookup(ms + [m], key) == Lookup(ms, key)
  {
    assert (ms + [m])[..|ms|] == ms;
  }

  // ---------------------------------------------------------------------
  // What json.dumps writes is printable ASCII: in particular no line break
  // ---------------------------------------------------------------------

  predicate Printable(s: string) {
    forall i :: 0 <= i < |s| ==> IsPrintableAscii(s[i])
  }

  lemma PrintableConcat(a: string, b: string)
    requires Printable(a) && Printable(b)
    ensures Printable(a + b)
  {
  }

  lemma Hex4Printable(n: int)
    requires 0 <= n < 0x10000
    ensures Printable(Hex4(n))
  {
  }

  lemma EscapeCharPrintable(c: char)
    ensures Printable(EscapeChar(c))
  {
    if !IsPrintableAscii(c) && c != '\n' && c != '\r' && c != '\t' && c != '\U{8}' && c != '\U{C}' {
      if c as int < 0x10000 {
        Hex4Printable(c as int);
        PrintableConcat("\\u", Hex4(c as int));
      } else {
        var v := c as int - 0x10000;
        Hex4Printable(0xD800 + v / 0x400);
        Hex4Printable(0xDC00 + v % 0x400);
        PrintableConcat("\\u", Hex4(0xD800 + v / 0x400));
        PrintableConcat("\\u" + Hex4(0xD800 + v / 0x400), "\\u");
        PrintableConcat("\\u" + Hex4(0xD800 + v / 0x400) + "\\u", Hex4(0xDC00 + v % 0x400));
      }
    }
  }

  lemma {:induction false} EscapePrintable(s: string)
    ensures Printable(Escape(s))
  {
    if s != [] {
      EscapeCharPrintable(s[0]);
      EscapePrintable(s[1..]);
      PrintableConcat(EscapeChar(s[0]), Escape(s[1..]));
    }
  }

  lemma DumpMemberPrintable(m: Member)
    ensures Printable(DumpMember(m))
  {
    EscapePrintable(m.0);
    EscapePrintable(m.1);
    PrintableConcat("\"", Escape(m.0));
    PrintableConcat("\"" + Escape(m.0), "\"");
    PrintableConcat("\"", Escape(m.1));
    PrintableConcat("\"" + Escape(m.1), "\"");
    PrintableConcat(Quote(m.0), ": ");
    PrintableConcat(Quote(m.0) + ": ", Quote(m.1));
  }

  lemma {:induction false} DumpMembersPrintable(ms: seq<Member>)
    requires ms != []
    ensures Printable(DumpMembers(ms))
  {
    DumpMemberPrintable(ms[0]);
    if |ms| > 1 {
      DumpMembersPrintable(ms[1..]);
      PrintableConcat(DumpMember(ms[0]), ", ");
      PrintableConcat(DumpMember(ms[0]) + ", ", DumpMembers(ms[1..]));
    }
  }

  /** A dumped object never holds a line break, so one record is one line. */
  lemma DumpsPrintable(ms: seq<Member>)
    ensures Printable(Dumps(ms))
    ensures forall i :: 0 <= i < |Dumps(ms)| ==> Dumps(ms)[i] != '\n'
  {
    if ms != [] {
      DumpMembersPrintable(ms);
      PrintableConcat("{", DumpMembers(ms));
      PrintableConcat("{" + DumpMembers(ms), "}");
    }
  }

  // ---------------------------------------------------------------------
  // A parse never looks past what it consumes, so no proper prefix of a
  // dumped object parses
  // ---------------------------------------------------------------------

  lemma {:induction false} SkipSpaceExtends(s: string, z: string)
    requires SkipSpace(s) != []
    ensures SkipSpace(s + z) == SkipSpace(s) + z
    decreases |s|
  {
    assert (s + z)[0] == s[0];
    if IsJsonSpace(s[0]) {
      assert (s + z)[1..] == s[1..] + z;
      SkipSpaceExtends(s[1..], z);
    }
  }

  lemma {:induction false} StringBodyExtends(s: string, z: string)
    requires ParseStringBody(s).Some?
    ensures ParseStringBody(s + z) == Some((ParseStringBody(s).value.0, ParseStringBody(s).value.1 + z))
    decreases |s|, 1
  {
    var u := s + z;
    assert u[0] == s[0];
    if s[0] == '"' {
      assert u[1..] == s[1..] + z;
    } else if s[0] == '\\' {
      assert u[1] == s[1];
      if s[1] == 'u' {
        assert u[2..6] == s[2..6];
        var code := ParseHex4(s[2..6]).value;
        if 0xD800 <= code < 0xDC00 {
          PairBodyExtends(s, z);
        } else {
          assert u[6..] == s[6..] + z;
          StringBodyExtends(s[6..], z);
        }
      } else {
        assert u[2..] == s[2..] + z;
        StringBodyExtends(s[2..], z);
      }
    } else {
      assert u[1..] == s[1..] + z;
      StringBodyExtends(s[1..], z);
    }
  }

  lemma {:induction false} PairBodyExtends(s: string, z: string)
    requires ParseStringBody(s).Some? && |s| >= 6 && s[0] == '\\' && s[1] == 'u'
    requires ParseHex4(s[2..6]).Some? && 0xD800 <= ParseHex4(s[2..6]).value < 0xDC00
    ensures ParseStringBody(s + z) == Some((ParseStringBody(s).value.0, ParseStringBody(s).value.1 + z))
    decreases |s|, 0
  {
    var hi := ParseHex4(s[2..6]).value;
    assert |s| >= 12 && s[6] == '\\' && s[7] == 'u' && ParseHex4(s[8..12]).Some?;
    var lo := ParseHex4(s[8..12]).value;
    assert 0xDC00 <= lo < 0xE000;
    var u := s + z;
    assert u[2..6] == s[2..6] && u[8..12] == s[8..12];
    assert u[12..] == s[12..] + z;
    PairThenParse(s, hi, lo);
    PairThenParse(u, hi, lo);
    StringBodyExtends(s[12..], z);
  }

  lemma StringExtends(s: string, z: string)
    requires ParseString(s).Some?
    ensures ParseString(s + z) == Some((ParseString(s).value.0, ParseString(s).value.1 + z))
  {
    assert (s + z)[0] == s[0] && (s + z)[1..] == s[1..] + z;
    StringBodyExtends(s[1..], z);
  }

  lemma ExpectExtends(s: string, c: char, z: string)
    requires Expect(s, c).Some?
    ensures Expect(s + z, c) == Some(Expect(s, c).value + z)
  {
    var t := SkipSpace(s);
    SkipSpaceExtends(s, z);
    assert (t + z)[0] == t[0] && (t + z)[1..] == t[1..] + z;
  }

  lemma KeyValueExtends(s: string, z: string)
    requires ParseKeyValue(s).Some?
    ensures ParseKeyValue(s + z) == Some((ParseKeyValue(s).value.0, ParseKeyValue(s).value.1 + z))
  {
    StringExtends(s, z);
    var rest := ParseString(s).value.1;
    ExpectExtends(rest, ':', z);
    var rest' := Expect(rest, ':').value;
    SkipSpaceExtends(rest', z);
    StringExtends(SkipSpace(rest'), z);
  }

  lemma MemberExtends(s: string, z: string)
    requires ParseMember(s).Some?
    ensures ParseMember(s + z) == Some((ParseMember(s).value.0, ParseMember(s).value.1 + z))
  {
    SkipSpaceExtends(s, z);
    KeyValueExtends(SkipSpace(s), z);
  }

  lemma {:induction false} MembersExtend(s: string, z: string)
    requires ParseMembers(s).Some?
    ensures ParseMembers(s + z) == Some((ParseMembers(s).value.0, ParseMembers(s).value.1 + z))
    decreases |s|, 1
  {
    MemberExtends(s, z);
    MoreMembersExtend(ParseMember(s).value.1, z);
  }

  lemma {:induction false} MoreMembersExtend(s: string, z: string)
    requires MoreMembers(s).Some?
    ensures MoreMembers(s + z) == Some((MoreMembers(s).value.0, MoreMembers(s).value.1 + z))
    decreases |s|, 0
  {
    var t := SkipSpace(s);
    SkipSpaceExtends(s, z);
    assert (t + z)[0] == t[0] && (t + z)[1..] == t[1..] + z;
    if t[0] == ',' {
      MembersExtend(t[1..], z);
    }
  }

  /** What follows a parsed object is never looked at: the object parses the same with anything after it. */
  lemma ObjectExtends(s: string, z: string)
    requires ParseObject(s).Some?
    ensures ParseObject(s + z) == Some((ParseObject(s).value.0, ParseObject(s).value.1 + z))
  {
    ExpectExtends(s, '{', z);
    var rest := Expect(s, '{').value;
    var t := SkipSpace(rest);
    SkipSpaceExtends(rest, z);
    assert (t + z)[0] == t[0] && (t + z)[1..] == t[1..] + z;
    if t[0] != '}' {
      MembersExtend(t, z);
    }
  }

  /**
   * JSON.parse rejects every proper, non-empty prefix of what json.dumps
   * writes: the object closes only at its last character.
   */
  lemma DumpsPrefixMalformed(ms: seq<Member>, k: nat)
    requires 0 < k < |Dumps(ms)|
    ensures Parse(Dumps(ms)[..k]) == None
  {
    var d := Dumps(ms);
    if ParseObject(d[..k]).Some? {
      ObjectExtends(d[..k], d[k..]);
      assert d[..k] + d[k..] == d + "";
      DumpsThenObject(ms, "");
      assert false;
    }
  }
}
