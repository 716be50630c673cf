/**
 * The JSON reader both programs use on one protocol line (`JSON.parse` in the
 * manager, `json.loads` in the worker), and the round-trip facts that make the
 * line protocol work: what one side writes, the other reads back unchanged.
 *
 * One difference from both readers: a lone surrogate escape (`\ud800` with no
 * low half after it, or a bare `\udc00`) is refused here, because a Dafny
 * `char` cannot hold a lone surrogate, while `JSON.parse` and `json.loads`
 * accept it as a one-code-unit string. A line holding one therefore reads as
 * invalid JSON in this model and as a value in the programs.
 */
module JsonParse {
  import opened Wrappers
  import opened Json

  /** The four whitespace characters JSON allows between tokens. */
  predicate IsJsonSpace(c: char)
  {
    c == ' ' || c == '\t' || c == '\n' || c == '\r'
  }

  function SkipSpace(s: string): (r: string)
    ensures |r| <= |s|
    ensures r == [] || !IsJsonSpace(r[0])
  {
    if s != [] && IsJsonSpace(s[0]) then SkipSpace(s[1..]) else s
  }

  /** How many number characters `s` starts with. */
  function NumberRun(s: string): (n: nat)
    ensures n <= |s|
    ensures forall i :: 0 <= i < n ==> IsNumberChar(s[i])
  {
    if s == [] || !IsNumberChar(s[0]) then 0 else 1 + NumberRun(s[1..])
  }

  predicate AllHex(h: string)
  {
    forall i :: 0 <= i < |h| ==> IsHexChar(h[i])
  }

  /** The code unit written by four hexadecimal digits. */
  function Hex4Value(h: string): (n: nat)
    requires |h| == 4
    ensures n < 0x10000
  {
    HexValue(h[0]) * 0x1000 + HexValue(h[1]) * 0x100 + HexValue(h[2]) * 0x10 + HexValue(h[3])
  }

  /** The character a surrogate pair stands for. */
  function CombineSurrogates(hi: nat, lo: nat): (c: char)
    requires 0xD800 <= hi < 0xDC00 && 0xDC00 <= lo < 0xE000
    ensures c as int >= 0x10000
  {
    (0x10000 + (hi - 0xD800) * 0x400 + (lo - 0xDC00)) as char
  }

  /** The character after a backslash, for the two-character escapes. */
  function Unescape(c: char): Option<char>
  {
    if c == '"' then Some('"')
    else if c == '\\' then Some('\\')
    else if c == '/' then Some('/')
    else if c == 'b' then Some(8 as char)
    else if c == 'f' then Some(0x0C as char)
    else if c == 'n' then Some('\n')
    else if c == 'r' then Some('\r')
    else if c == 't' then Some('\t')
    else None
  }

  /**
   * The characters of a string literal after its opening quote, up to and
   * including the closing quote; `acc` holds what was read so far. Raw control
   * characters are refused, as both readers (in strict mode) refuse them.
   * A lone surrogate escape is refused too, unlike in both readers.
   */
  function ParseChars(s: string, acc: string): (r: Option<(string, string)>)
    ensures r.Some? ==> |r.value.1| < |s|
    decreases |s|
  {
    if s == [] then None
    else if s[0] == '"' then Some((acc, s[1..]))
    else if s[0] == '\\' then
      if |s| < 2 then None
      else if s[1] == 'u' then
        if |s| < 6 || !AllHex(s[2..6]) then None
        else
          var cu := Hex4Value(s[2..6]);
          if 0xD800 <= cu < 0xDC00 then
            if |s| >= 12 && s[6] == '\\' && s[7] == 'u' && AllHex(s[8..12])
               && 0xDC00 <= Hex4Value(s[8..12]) < 0xE000
            then ParseChars(s[12..], acc + [CombineSurrogates(cu, Hex4Value(s[8..12]))])
            else None
          else if 0xDC00 <= cu < 0xE000 then None
          else ParseChars(s[6..], acc + [cu as char])
      else if Unescape(s[1]).Some? then ParseChars(s[2..], acc + [Unescape(s[1]).value])
      else None
    else if s[0] < ' ' then None
    else ParseChars(s[1..], acc + [s[0]])
  }

  /** One value at the start of `s` (no leading whitespace), and the text after it. */
  function ParseValue(s: string): (r: Option<(Value, string)>)
    ensures r.Some? ==> |r.value.1| < |s|
    decreases |s|, 0
  {
    if s == [] then None
    else
      var c := s[0];
      if c == '"' then
        match ParseChars(s[1..], "")
        case Some((str, rest)) => Some((Str(str), rest))
        case None => None
      else if c == '[' then ParseArray(s[1..])
      else if c == '{' then ParseObject(s[1..])
      else if c == 'n' then ParseLiteral(s, "null", Null)
      else if c == 't' then ParseLiteral(s, "true", Bool(true))
      else if c == 'f' then ParseLiteral(s, "false", Bool(false))
      else if c == '-' || IsDigit(c) then ParseNumber(s)
      else None
  }

  /** The literal `lit` at the start of `s`. */
  function ParseLiteral(s: string, lit: string, v: Value): (r: Option<(Value, string)>)
    requires lit != []
    ensures r.Some? ==> |r.value.1| < |s|
  {
    if |lit| <= |s| && s[..|lit|] == lit then Some((v, s[|lit|..])) else None
  }

  /** The longest run of number characters at the start of `s`, if it is a number lexeme. */
  function ParseNumber(s: string): (r: Option<(Value, string)>)
    ensures r.Some? ==> |r.value.1| < |s|
  {
    var n := NumberRun(s);
    if n > 0 && IsNumberLexeme(s[..n]) then Some((Num(s[..n]), s[n..])) else None
  }

  /** An array after its `[`. */
  function ParseArray(s: string): (r: Option<(Value, string)>)
    ensures r.Some? ==> |r.value.1| < |s|
    decreases |s|, 2
  {
    var t := SkipSpace(s);
    if t != [] && t[0] == ']' then Some((Arr([]), t[1..]))
    else ParseElements(t, [])
  }

  /** The items of an array from one item on, up to and including the `]`; `acc` holds the items read so far. */
  function ParseElements(s: string, acc: seq<Value>): (r: Option<(Value, string)>)
    ensures r.Some? ==> |r.value.1| < |s|
    decreases |s|, 1
  {
    match ParseValue(s)
    case None => None
    case Some((v, rest)) =>
      var t := SkipSpace(rest);
      if t == [] then None
      else if t[0] == ',' then ParseElements(SkipSpace(t[1..]), acc + [v])
      else if t[0] == ']' then Some((Arr(acc + [v]), t[1..]))
      else None
  }

  /** An object after its `{`. */
  function ParseObject(s: string): (r: Option<(Value, string)>)
    ensures r.Some? ==> |r.value.1| < |s|
    decreases |s|, 2
  {
    var t := SkipSpace(s);
    if t != [] && t[0] == '}' then Some((Obj([]), t[1..]))
    else ParseMembers(t, [])
  }

  /** The members of an object from one member on, up to and including the `}`. */
  function ParseMembers(s: string, acc: seq<Member>): (r: Option<(Value, string)>)
    ensures r.Some? ==> |r.value.1| < |s|
    decreases |s|, 1
  {
    if s == [] || s[0] != '"' then None
    else
      match ParseChars(s[1..], "")
      case None => None
      case Some((key, rest)) =>
        var t := SkipSpace(rest);
        if t == [] || t[0] != ':' then None
        else
          match ParseValue(SkipSpace(t[1..]))
          case None => None
          case Some((v, rest2)) =>
            var w := SkipSpace(rest2);
            if w == [] then None
            else if w[0] == ',' then ParseMembers(SkipSpace(w[1..]), acc + [Member(key, v)])
            else if w[0] == '}' then Some((Obj(acc + [Member(key, v)]), w[1..]))
            else None
  }

  /** `JSON.parse(line)` / `json.loads(line)`: one value, optionally surrounded by whitespace, and nothing else. */
  function Parse(line: string): Option<Value>
  {
    match ParseValue(SkipSpace(line))
    case Some((v, rest)) => if SkipSpace(rest) == [] then Some(v) else None
    case None => None
  }

  /** Every value the reader produces is well formed, so it can be written back out. */
  lemma ParseWellFormed(line: string)
    ensures Parse(line).Some? ==> WellFormed(Parse(line).value)
  {
    ValueWellFormed(SkipSpace(line));
  }

  lemma {:induction false} ValueWellFormed(s: string)
    ensures ParseValue(s).Some? ==> WellFormed(ParseValue(s).value.0)
    decreases |s|, 0
  {
    if s != [] {
      if s[0] == '[' {
        ArrayWellFormed(s[1..]);
      } else if s[0] == '{' {
        ObjectWellFormed(s[1..]);
      }
    }
  }

  lemma {:induction false} ArrayWellFormed(s: string)
    ensures ParseArray(s).Some? ==> WellFormed(ParseArray(s).value.0)
    decreases |s|, 2
  {
    var t := SkipSpace(s);
    if !(t != [] && t[0] == ']') {
      ElementsWellFormed(t, []);
    }
  }

  lemma {:induction false} ElementsWellFormed(s: string, acc: seq<Value>)
    requires forall i :: 0 <= i < |acc| ==> WellFormed(acc[i])
    ensures ParseElements(s, acc).Some? ==> WellFormed(ParseElements(s, acc).value.0)
    decreases |s|, 1
  {
    ValueWellFormed(s);
    match ParseValue(s)
    case None =>
    case Some((v, rest)) =>
      var t := SkipSpace(rest);
      var acc2 := acc + [v];
      assert forall i :: 0 <= i < |acc2| ==> WellFormed(acc2[i]) by {
        forall i | 0 <= i < |acc2| ensures WellFormed(acc2[i]) {
          if i < |acc| { assert acc2[i] == acc[i]; }
        }
      }
      if t != [] && t[0] == ',' {
        ElementsWellFormed(SkipSpace(t[1..]), acc2);
      }
  }

  lemma {:induction false} ObjectWellFormed(s: string)
    ensures ParseObject(s).Some? ==> WellFormed(ParseObject(s).value.0)
    decreases |s|, 2
  {
    var t := SkipSpace(s);
    if !(t != [] && t[0] == '}') {
      MembersWellFormed(t, []);
    }
  }

  lemma {:induction false} MembersWellFormed(s: string, acc: seq<Member>)
    requires forall i :: 0 <= i < |acc| ==> WellFormed(acc[i].val)
    ensures ParseMembers(s, acc).Some? ==> WellFormed(ParseMembers(s, acc).value.0)
    decreases |s|, 1
  {
    if s != [] && s[0] == '"' {
      match ParseChars(s[1..], "")
      case None =>
      case Some((key, rest)) =>
        var t := SkipSpace(rest);
        if t != [] && t[0] == ':' {
          ValueWellFormed(SkipSpace(t[1..]));
          match ParseValue(SkipSpace(t[1..]))
          case None =>
          case Some((v, rest2)) =>
            var w := SkipSpace(rest2);
            var acc2 := acc + [Member(key, v)];
            assert forall i :: 0 <= i < |acc2| ==> WellFormed(acc2[i].val) by {
              forall i | 0 <= i < |acc2| ensures WellFormed(acc2[i].val) {
                if i < |acc| { assert acc2[i] == acc[i]; }
              }
            }
            if w != [] && w[0] == ',' {
              MembersWellFormed(SkipSpace(w[1..]), acc2);
            }
        }
    }
  }

  /** Whitespace is only ever skipped from the front. */
  lemma {:induction false} SkipSpaceSuffix(s: string)
    ensures SkipSpace(s) == s[|s| - |SkipSpace(s)|..]
  {
    if s != [] && IsJsonSpace(s[0]) {
      SkipSpaceSuffix(s[1..]);
      assert s[1..][|s[1..]| - |SkipSpace(s[1..])|..] == s[|s| - |SkipSpace(s[1..])|..];
    }
  }

  /** A line that parses holds, after its leading whitespace, the first character of a value. */
  lemma ParsedStart(line: string)
    requires Parse(line).Some?
    ensures var t := SkipSpace(line);
      t != [] && t == line[|line| - |t|..]
      && (t[0] == '{' || t[0] == '[' || t[0] == '"' || t[0] == 'n' || t[0] == 't' || t[0] == 'f'
          || t[0] == '-' || IsDigit(t[0]))
  {
    SkipSpaceSuffix(line);
  }

  // ---------------------------------------------------------------------------
  // Round trips

  lemma Hex4RoundTrip(n: nat)
    requires n < 0x10000
    ensures AllHex(Hex4(n)) && Hex4Value(Hex4(n)) == n
  {
    var h := Hex4(n);
    assert n == n / 0x10 * 0x10 + n % 0x10;
    assert n / 0x10 == n / 0x100 * 0x10 + n / 0x10 % 0x10;
    assert n / 0x100 == n / 0x1000 * 0x10 + n / 0x100 % 0x10;
  }

  lemma SurrogatesRoundTrip(c: char)
    requires c as int >= 0x10000
    ensures CombineSurrogates(HighSurrogate(c), LowSurrogate(c)) == c
  {
    var v := c as int - 0x10000;
    assert v == v / 0x400 * 0x400 + v % 0x400;
  }

  /** Reading back one escaped character consumes exactly its escape and yields the character. */
  lemma ParseEscapeChar(d: Dialect, c: char, tail: string, acc: string)
    ensures ParseChars(EscapeChar(d, c) + tail, acc) == ParseChars(tail, acc + [c])
  {
    if ShortEscape(c).Some? {
      ShortEscapeBack(c, tail, acc);
    } else if (d == JavaScript && c >= ' ') || (d == Python && ' ' <= c <= '~') {
      RawCharBack(c, tail, acc);
    } else if c as int < 0x10000 {
      UnitEscapeBack(c, tail, acc);
    } else {
      PairEscapeBack(c, tail, acc);
    }
  }

  lemma ShortEscapeBack(c: char, tail: string, acc: string)
    requires ShortEscape(c).Some?
    ensures ParseChars(ShortEscape(c).value + tail, acc) == ParseChars(tail, acc + [c])
  {
    var s := ShortEscape(c).value + tail;
    assert s[0] == '\\' && s[2..] == tail;
  }

  lemma RawCharBack(c: char, tail: string, acc: string)
    requires c >= ' ' && c != '"' && c != '\\'
    ensures ParseChars([c] + tail, acc) == ParseChars(tail, acc + [c])
  {
    assert ([c] + tail)[1..] == tail;
  }

  lemma UnitEscapeBack(c: char, tail: string, acc: string)
    requires ShortEscape(c).None? && c as int < 0x10000
    requires !(0xD800 <= c as int < 0xE000)
    ensures ParseChars(UnicodeEscape(c as int) + tail, acc) == ParseChars(tail, acc + [c])
  {
    var s := UnicodeEscape(c as int) + tail;
    Hex4RoundTrip(c as int);
    assert s[2..6] == Hex4(c as int) && s[6..] == tail;
  }

  lemma PairEscapeBack(c: char, tail: string, acc: string)
    requires c as int >= 0x10000
    ensures ParseChars(UnicodeEscape(HighSurrogate(c)) + UnicodeEscape(LowSurrogate(c)) + tail, acc)
         == ParseChars(tail, acc + [c])
  {
    var hi, lo := HighSurrogate(c), LowSurrogate(c);
    var s := UnicodeEscape(hi) + UnicodeEscape(lo) + tail;
    Hex4RoundTrip(hi);
    Hex4RoundTrip(lo);
    SurrogatesRoundTrip(c);
    assert s[2..6] == Hex4(hi) && s[6] == '\\' && s[7] == 'u' && s[8..12] == Hex4(lo) && s[12..] == tail;
  }

  lemma ConcatAssoc(a: string, b: string, c: string)
    ensures a + b + c == a + (b + c)
  {
  }

  lemma ParseClosingQuote(rest: string, acc: string)
    ensures ParseChars("\"" + rest, acc) == Some((acc, rest))
  {
    assert ("\"" + rest)[1..] == rest;
  }

  /** Reading back an escaped string body and its closing quote yields the string. */
  lemma {:induction false} ParseEscapeBody(d: Dialect, str: string, rest: string, acc: string)
    ensures ParseChars(EscapeBody(d, str) + ("\"" + rest), acc) == Some((acc + str, rest))
  {
    if str == [] {
      assert EscapeBody(d, str) + ("\"" + rest) == "\"" + rest;
      ParseClosingQuote(rest, acc);
      assert acc + str == acc;
    } else {
      var tail := EscapeBody(d, str[1..]) + ("\"" + rest);
      calc {
        ParseChars(EscapeBody(d, str) + ("\"" + rest), acc);
        { ConcatAssoc(EscapeChar(d, str[0]), EscapeBody(d, str[1..]), "\"" + rest); }
        ParseChars(EscapeChar(d, str[0]) + tail, acc);
        { ParseEscapeChar(d, str[0], tail, acc); }
        ParseChars(tail, acc + [str[0]]);
        { ParseEscapeBody(d, str[1..], rest, acc + [str[0]]); }
        Some((acc + [str[0]] + str[1..], rest));
        { assert acc + [str[0]] + str[1..] == acc + str; }
        Some((acc + str, rest));
      }
    }
  }

  /** Reading back a quoted string. */
  lemma ParseQuote(d: Dialect, str: string, rest: string)
    ensures ParseChars((Quote(d, str) + rest)[1..], "") == Some((str, rest))
  {
    var e := EscapeBody(d, str);
    assert Quote(d, str) + rest == "\"" + (e + ("\"" + rest));
    assert ("\"" + (e + ("\"" + rest)))[1..] == e + ("\"" + rest);
    ParseEscapeBody(d, str, rest, "");
    assert "" + str == str;
  }

  /** What may follow a value in a document: nothing, a separator, a closing bracket or whitespace. */
  predicate EndsValue(rest: string)
  {
    rest == [] || rest[0] == ',' || rest[0] == ']' || rest[0] == '}' || IsJsonSpace(rest[0])
  }

  /** An encoded value starts with a character that is neither whitespace nor a closing bracket. */
  lemma EncodeStart(d: Dialect, v: Value)
    requires WellFormed(v)
    ensures Encode(d, v) != []
    ensures var c := Encode(d, v)[0]; !IsJsonSpace(c) && c != ']' && c != '}' && c != ','
    ensures var c := Encode(d, v)[0];
      c == '{' || c == '[' || c == '"' || c == 'n' || c == 't' || c == 'f' || c == '-' || IsDigit(c)
  {
    if v.Num? {
      NumberLexemeChars(v.lexeme);
    }
  }

  lemma SkipSpaceNone(s: string)
    requires s == [] || !IsJsonSpace(s[0])
    ensures SkipSpace(s) == s
  {
  }

  lemma SkipOneSpace(next: string)
    requires next == [] || !IsJsonSpace(next[0])
    ensures SkipSpace(" " + next) == next
  {
    assert (" " + next)[1..] == next;
  }

  /** A separator (`,` or `:`, and Python's following space) before a token: no whitespace is skipped before the separator, and all of it after. */
  lemma SkipSeparator(sep: string, next: string)
    requires sep == "," || sep == ", " || sep == ":" || sep == ": "
    requires next == [] || !IsJsonSpace(next[0])
    ensures SkipSpace(sep + next) == sep + next
    ensures SkipSpace((sep + next)[1..]) == next
  {
    if sep == "," || sep == ":" {
      SkipNarrow(sep[0], next);
    } else {
      SkipWide(sep[0], next);
    }
  }

  lemma SkipNarrow(c: char, next: string)
    requires !IsJsonSpace(c) && (next == [] || !IsJsonSpace(next[0]))
    ensures SkipSpace([c] + next) == [c] + next
    ensures SkipSpace(([c] + next)[1..]) == next
  {
    assert ([c] + next)[1..] == next;
  }

  lemma SkipWide(c: char, next: string)
    requires !IsJsonSpace(c) && (next == [] || !IsJsonSpace(next[0]))
    ensures SkipSpace([c, ' '] + next) == [c, ' '] + next
    ensures SkipSpace(([c, ' '] + next)[1..]) == next
  {
    assert ([c, ' '] + next)[1..] == " " + next;
    SkipOneSpace(next);
  }

  /** Reading back one encoded value followed by anything that may follow a value. */
  lemma {:induction false} ParseEncode(d: Dialect, v: Value, rest: string)
    requires WellFormed(v) && EndsValue(rest)
    ensures ParseValue(Encode(d, v) + rest) == Some((v, rest))
    decreases v, 0
  {
    match v
    case Null => ParseLiteralBack("null", Null, rest);
    case Bool(b) =>
      if b { ParseLiteralBack("true", v, rest); } else { ParseLiteralBack("false", v, rest); }
    case Num(t) => ParseNumberBack(t, rest);
    case Str(str) => ParseStringBack(d, str, rest);
    case Arr(items) => ParseArrayBack(d, items, rest);
    case Obj(ms) => ParseObjectBack(d, ms, rest);
  }

  lemma ParseStringBack(d: Dialect, str: string, rest: string)
    ensures ParseValue(Encode(d, Str(str)) + rest) == Some((Str(str), rest))
  {
    ParseQuote(d, str, rest);
    assert (Quote(d, str) + rest)[0] == '"';
  }

  lemma ParseArrayBack(d: Dialect, items: seq<Value>, rest: string)
    requires WellFormed(Arr(items)) && EndsValue(rest)
    ensures ParseValue(Encode(d, Arr(items)) + rest) == Some((Arr(items), rest))
    decreases items, 3
  {
    var inner := EncodeItems(d, items) + "]" + rest;
    assert Encode(d, Arr(items)) + rest == "[" + inner;
    ParseOpening("[" + inner);
    ParseEncodeArray(d, items, rest);
  }

  lemma ParseObjectBack(d: Dialect, ms: seq<Member>, rest: string)
    requires WellFormed(Obj(ms)) && EndsValue(rest)
    ensures ParseValue(Encode(d, Obj(ms)) + rest) == Some((Obj(ms), rest))
    decreases ms, 3
  {
    var inner := EncodeMembers(d, ms) + "}" + rest;
    assert Encode(d, Obj(ms)) + rest == "{" + inner;
    ParseOpening("{" + inner);
    ParseEncodeObject(d, ms, rest);
  }

  /** After an opening bracket or brace, the reader turns to the array or object reader. */
  lemma ParseOpening(s: string)
    requires s != [] && (s[0] == '[' || s[0] == '{')
    ensures s[0] == '[' ==> ParseValue(s) == ParseArray(s[1..])
    ensures s[0] == '{' ==> ParseValue(s) == ParseObject(s[1..])
  {
  }

  lemma ParseLiteralBack(lit: string, v: Value, rest: string)
    requires (lit == "null" && v == Null) || (lit == "true" && v == Bool(true)) || (lit == "false" && v == Bool(false))
    ensures ParseValue(lit + rest) == Some((v, rest))
  {
    var s := lit + rest;
    assert s[..|lit|] == lit && s[|lit|..] == rest;
    assert s[0] == lit[0];
  }

  lemma ParseNumberBack(t: string, rest: string)
    requires IsNumberLexeme(t) && EndsValue(rest)
    ensures ParseValue(t + rest) == Some((Num(t), rest))
  {
    NumberLexemeChars(t);
    NumberRunLexeme(t, rest);
    var s := t + rest;
    assert s[..|t|] == t && s[|t|..] == rest;
    assert ParseNumber(s) == Some((Num(t), rest));
    assert s[0] == t[0];
  }

  /** Reading back an array's items and closing bracket, after its `[`. */
  lemma {:induction false} ParseEncodeArray(d: Dialect, items: seq<Value>, rest: string)
    requires forall i :: 0 <= i < |items| ==> WellFormed(items[i])
    requires EndsValue(rest)
    ensures ParseArray(EncodeItems(d, items) + "]" + rest) == Some((Arr(items), rest))
    decreases items, 2
  {
    if items == [] {
      ParseEmptyArray(d, rest);
    } else {
      ParseEncodeItems(d, items, rest, []);
      ParseArrayItems(d, items, rest);
    }
  }

  lemma ParseEmptyArray(d: Dialect, rest: string)
    ensures ParseArray(EncodeItems(d, []) + "]" + rest) == Some((Arr([]), rest))
  {
    var inner := EncodeItems(d, []) + "]" + rest;
    assert inner == "]" + rest;
    SkipSpaceNone(inner);
    assert inner[1..] == rest;
  }

  lemma ParseArrayItems(d: Dialect, items: seq<Value>, rest: string)
    requires items != [] && WellFormed(items[0])
    requires ParseElements(EncodeItems(d, items) + "]" + rest, []) == Some((Arr([] + items), rest))
    ensures ParseArray(EncodeItems(d, items) + "]" + rest) == Some((Arr(items), rest))
  {
    var inner := EncodeItems(d, items) + "]" + rest;
    EncodeItemsStart(d, items);
    SkipSpaceNone(inner);
    assert [] + items == items;
  }

  /** Reading back an object's members and closing brace, after its `{`. */
  lemma {:induction false} ParseEncodeObject(d: Dialect, ms: seq<Member>, rest: string)
    requires forall i :: 0 <= i < |ms| ==> WellFormed(ms[i].val)
    requires EndsValue(rest)
    ensures ParseObject(EncodeMembers(d, ms) + "}" + rest) == Some((Obj(ms), rest))
    decreases ms, 2
  {
    if ms == [] {
      ParseEmptyObject(d, rest);
    } else {
      ParseEncodeMembers(d, ms, rest, []);
      ParseObjectMembers(d, ms, rest);
    }
  }

  lemma ParseEmptyObject(d: Dialect, rest: string)
    ensures ParseObject(EncodeMembers(d, []) + "}" + rest) == Some((Obj([]), rest))
  {
    var inner := EncodeMembers(d, []) + "}" + rest;
    assert inner == "}" + rest;
    SkipSpaceNone(inner);
    assert inner[1..] == rest;
  }

  lemma ParseObjectMembers(d: Dialect, ms: seq<Member>, rest: string)
    requires ms != []
    requires ParseMembers(EncodeMembers(d, ms) + "}" + rest, []) == Some((Obj([] + ms), rest))
    ensures ParseObject(EncodeMembers(d, ms) + "}" + rest) == Some((Obj(ms), rest))
  {
    var inner := EncodeMembers(d, ms) + "}" + rest;
    EncodeMembersStart(d, ms);
    SkipSpaceNone(inner);
    assert [] + ms == ms;
  }

  lemma EncodeMembersStart(d: Dialect, ms: seq<Member>)
    requires ms != []
    ensures EncodeMembers(d, ms) != [] && EncodeMembers(d, ms)[0] == '"'
  {
  }

  lemma NumberRunLexeme(t: string, rest: string)
    requires AllNumberChars(t)
    requires rest == [] || !IsNumberChar(rest[0])
    ensures NumberRun(t + rest) == |t|
  {
    if t != [] {
      assert (t + rest)[1..] == t[1..] + rest;
      NumberRunLexeme(t[1..], rest);
    } else {
      assert t + rest == rest;
    }
  }

  lemma EncodeItemsStart(d: Dialect, items: seq<Value>)
    requires items != [] && WellFormed(items[0])
    ensures EncodeItems(d, items) != []
    ensures var c := EncodeItems(d, items)[0]; !IsJsonSpace(c) && c != ']'
  {
    EncodeStart(d, items[0]);
  }

  /** Reading back the items of a non-empty array and its closing bracket. */
  lemma {:induction false} ParseEncodeItems(d: Dialect, items: seq<Value>, rest: string, acc: seq<Value>)
    requires items != [] && forall i :: 0 <= i < |items| ==> WellFormed(items[i])
    requires EndsValue(rest)
    ensures ParseElements(EncodeItems(d, items) + "]" + rest, acc) == Some((Arr(acc + items), rest))
    decreases items, 1
  {
    if |items| == 1 {
      ItemsLast(d, items, rest, acc);
    } else {
      ParseEncodeItems(d, items[1..], rest, acc + [items[0]]);
      ItemsCons(d, items, rest, acc);
    }
  }

  /** The last item and the closing bracket. */
  lemma ItemsLast(d: Dialect, items: seq<Value>, rest: string, acc: seq<Value>)
    requires |items| == 1 && WellFormed(items[0]) && EndsValue(rest)
    ensures ParseElements(EncodeItems(d, items) + "]" + rest, acc) == Some((Arr(acc + items), rest))
    decreases items, 0
  {
    var s := EncodeItems(d, items) + "]" + rest;
    ItemsLastSplit(d, items, rest);
    ParseEncode(d, items[0], "]" + rest);
    ElementsLast(s, acc, items[0], rest);
    assert items == [items[0]];
  }

  /** One item and its separator, in front of the remaining items. */
  lemma ItemsCons(d: Dialect, items: seq<Value>, rest: string, acc: seq<Value>)
    requires |items| > 1 && WellFormed(items[0]) && WellFormed(items[1])
    requires ParseElements(EncodeItems(d, items[1..]) + "]" + rest, acc + [items[0]])
          == Some((Arr(acc + [items[0]] + items[1..]), rest))
    ensures ParseElements(EncodeItems(d, items) + "]" + rest, acc) == Some((Arr(acc + items), rest))
    decreases items, 0
  {
    var s := EncodeItems(d, items) + "]" + rest;
    var next := EncodeItems(d, items[1..]) + "]" + rest;
    ItemsConsSplit(d, items, rest);
    ParseEncode(d, items[0], ItemSep(d) + next);
    EncodeItemsStart(d, items[1..]);
    ElementsNext(d, s, acc, items[0], next);
    ConsAppend(acc, items);
  }

  lemma ItemsLastSplit(d: Dialect, items: seq<Value>, rest: string)
    requires |items| == 1
    ensures EncodeItems(d, items) + "]" + rest == Encode(d, items[0]) + ("]" + rest)
  {
  }

  lemma ItemsConsSplit(d: Dialect, items: seq<Value>, rest: string)
    requires |items| > 1
    ensures EncodeItems(d, items) + "]" + rest
         == Encode(d, items[0]) + (ItemSep(d) + (EncodeItems(d, items[1..]) + "]" + rest))
  {
  }

  lemma MembersLastSplit(d: Dialect, ms: seq<Member>, rest: string)
    requires |ms| == 1
    ensures EncodeMembers(d, ms) + "}" + rest
         == Quote(d, ms[0].key) + (KeySep(d) + (Encode(d, ms[0].val) + ("}" + rest)))
  {
  }

  lemma MembersConsSplit(d: Dialect, ms: seq<Member>, rest: string)
    requires |ms| > 1
    ensures EncodeMembers(d, ms) + "}" + rest
         == Quote(d, ms[0].key) + (KeySep(d) + (Encode(d, ms[0].val) + (ItemSep(d) + (EncodeMembers(d, ms[1..]) + "}" + rest))))
  {
    var q, k, e, i := Quote(d, ms[0].key), KeySep(d), Encode(d, ms[0].val), ItemSep(d);
    var t := EncodeMembers(d, ms[1..]) + "}" + rest;
    calc {
      EncodeMembers(d, ms) + "}" + rest;
      q + k + e + i + EncodeMembers(d, ms[1..]) + "}" + rest;
      { ConcatAssoc(q + k + e + i + EncodeMembers(d, ms[1..]), "}", rest);
        ConcatAssoc(q + k + e + i, EncodeMembers(d, ms[1..]), "}" + rest);
        ConcatAssoc(EncodeMembers(d, ms[1..]), "}", rest); }
      q + k + e + i + t;
      { ConcatAssoc(q + k + e, i, t); ConcatAssoc(q + k, e, i + t); ConcatAssoc(q, k, e + (i + t)); }
      q + (k + (e + (i + t)));
    }
  }

  lemma ConsAppend<T>(acc: seq<T>, xs: seq<T>)
    requires xs != []
    ensures acc + [xs[0]] + xs[1..] == acc + xs
  {
    assert xs == [xs[0]] + xs[1..];
  }

  lemma ElementsLast(s: string, acc: seq<Value>, v: Value, rest: string)
    requires ParseValue(s) == Some((v, "]" + rest))
    ensures ParseElements(s, acc) == Some((Arr(acc + [v]), rest))
  {
    SkipSpaceNone("]" + rest);
    assert ("]" + rest)[1..] == rest;
  }

  lemma ElementsNext(d: Dialect, s: string, acc: seq<Value>, v: Value, next: string)
    requires next == [] || !IsJsonSpace(next[0])
    requires ParseValue(s) == Some((v, ItemSep(d) + next))
    ensures ParseElements(s, acc) == ParseElements(next, acc + [v])
  {
    SkipSeparator(ItemSep(d), next);
  }

  /** Reading back the members of a non-empty object and its closing brace. */
  lemma {:induction false} ParseEncodeMembers(d: Dialect, ms: seq<Member>, rest: string, acc: seq<Member>)
    requires ms != [] && forall i :: 0 <= i < |ms| ==> WellFormed(ms[i].val)
    requires EndsValue(rest)
    ensures ParseMembers(EncodeMembers(d, ms) + "}" + rest, acc) == Some((Obj(acc + ms), rest))
    decreases ms, 1
  {
    if |ms| == 1 {
      MembersLast(d, ms, rest, acc);
    } else {
      ParseEncodeMembers(d, ms[1..], rest, acc + [ms[0]]);
      MembersCons(d, ms, rest, acc);
    }
  }

  /** The last member and the closing brace. */
  lemma MembersLast(d: Dialect, ms: seq<Member>, rest: string, acc: seq<Member>)
    requires |ms| == 1 && WellFormed(ms[0].val) && EndsValue(rest)
    ensures ParseMembers(EncodeMembers(d, ms) + "}" + rest, acc) == Some((Obj(acc + ms), rest))
    decreases ms, 0
  {
    MembersLastSplit(d, ms, rest);
    MemberThenClose(d, ms[0], rest, acc);
    assert ms == [ms[0]];
  }

  /** One member and its separator, in front of the remaining members. */
  lemma MembersCons(d: Dialect, ms: seq<Member>, rest: string, acc: seq<Member>)
    requires |ms| > 1 && WellFormed(ms[0].val)
    requires ParseMembers(EncodeMembers(d, ms[1..]) + "}" + rest, acc + [ms[0]])
          == Some((Obj(acc + [ms[0]] + ms[1..]), rest))
    ensures ParseMembers(EncodeMembers(d, ms) + "}" + rest, acc) == Some((Obj(acc + ms), rest))
    decreases ms, 0
  {
    MembersConsSplit(d, ms, rest);
    EncodeMembersStart(d, ms[1..]);
    MemberThenNext(d, ms[0], EncodeMembers(d, ms[1..]) + "}" + rest, acc);
    ConsAppend(acc, ms);
  }

  /** A member followed by the closing brace. */
  lemma MemberThenClose(d: Dialect, m: Member, rest: string, acc: seq<Member>)
    requires WellFormed(m.val)
    ensures ParseMembers(Quote(d, m.key) + (KeySep(d) + (Encode(d, m.val) + ("}" + rest))), acc)
         == Some((Obj(acc + [m]), rest))
    decreases m, 1
  {
    var after := "}" + rest;
    var s := Quote(d, m.key) + (KeySep(d) + (Encode(d, m.val) + after));
    MemberHead(d, m, after);
    MemberStep(s, acc, m, KeySep(d), Encode(d, m.val) + after, after);
    SkipSpaceNone(after);
    assert after[1..] == rest;
  }

  /** A member followed by an item separator and more members. */
  lemma MemberThenNext(d: Dialect, m: Member, next: string, acc: seq<Member>)
    requires WellFormed(m.val)
    requires next != [] && next[0] == '"'
    ensures ParseMembers(Quote(d, m.key) + (KeySep(d) + (Encode(d, m.val) + (ItemSep(d) + next))), acc)
         == ParseMembers(next, acc + [m])
    decreases m, 1
  {
    var after := ItemSep(d) + next;
    var s := Quote(d, m.key) + (KeySep(d) + (Encode(d, m.val) + after));
    MemberHead(d, m, after);
    MemberStepNext(s, acc, m, KeySep(d), Encode(d, m.val) + after, ItemSep(d), next);
  }

  /** One encoded member reads back as its key and, after the key separator, its value. */
  lemma MemberHead(d: Dialect, m: Member, after: string)
    requires WellFormed(m.val) && EndsValue(after)
    ensures var vs := Encode(d, m.val) + after;
      var s := Quote(d, m.key) + (KeySep(d) + vs);
      s[0] == '"' && ParseChars(s[1..], "") == Some((m.key, KeySep(d) + vs))
      && (vs == [] || !IsJsonSpace(vs[0]))
      && ParseValue(vs) == Some((m.val, after))
    decreases m, 0
  {
    var vs := Encode(d, m.val) + after;
    ParseQuote(d, m.key, KeySep(d) + vs);
    EncodeStart(d, m.val);
    ParseEncode(d, m.val, after);
  }

  /** The member reader, once it has read a key, a value and an item separator. */
  lemma MemberStepNext(s: string, acc: seq<Member>, m: Member, ks: string, vs: string, sep: string, next: string)
    requires ks == ":" || ks == ": "
    requires sep == "," || sep == ", "
    requires s != [] && s[0] == '"' && ParseChars(s[1..], "") == Some((m.key, ks + vs))
    requires vs == [] || !IsJsonSpace(vs[0])
    requires next == [] || !IsJsonSpace(next[0])
    requires ParseValue(vs) == Some((m.val, sep + next))
    ensures ParseMembers(s, acc) == ParseMembers(next, acc + [m])
  {
    MemberStep(s, acc, m, ks, vs, sep + next);
    SkipSeparator(sep, next);
  }

  /** The member reader, once it has read a key and a value. */
  lemma MemberStep(s: string, acc: seq<Member>, m: Member, ks: string, vs: string, after: string)
    requires ks == ":" || ks == ": "
    requires s != [] && s[0] == '"' && ParseChars(s[1..], "") == Some((m.key, ks + vs))
    requires vs == [] || !IsJsonSpace(vs[0])
    requires ParseValue(vs) == Some((m.val, after))
    ensures var w := SkipSpace(after);
      ParseMembers(s, acc) ==
        if w == [] then None
        else if w[0] == ',' then ParseMembers(SkipSpace(w[1..]), acc + [m])
        else if w[0] == '}' then Some((Obj(acc + [m]), w[1..]))
        else None
  {
    SkipSeparator(ks, vs);
  }

  /**
   * The protocol's round trip: a line written by either serialiser reads back
   * as the value that was written, with or without the line break after it.
   */
  lemma ParseEncodeLine(d: Dialect, v: Value)
    requires WellFormed(v)
    ensures Parse(Encode(d, v)) == Some(v)
    ensures Parse(Encode(d, v) + "\n") == Some(v)
  {
    EncodeStart(d, v);
    ParseEncode(d, v, "");
    assert Encode(d, v) + "" == Encode(d, v);
    ParseEncode(d, v, "\n");
  }
}
