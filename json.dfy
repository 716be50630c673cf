/**
 * JSON values as both sides of the worker protocol see them, and the two
 * serialisers the protocol uses: JavaScript's `JSON.stringify` (the manager's
 * outbound commands) and Python's `json.dumps` with its default settings
 * (the worker's outbound messages and the server-sent events).
 *
 * Numbers are kept as the lexeme that was written. `JSON.stringify` writes a
 * number it parsed in its own shortest form, and Python's `json.loads` turns a
 * number with a fraction or an exponent into a float that `json.dumps` writes
 * back in its own form: `1.50` as `1.5`, `1e999` as `Infinity`, `1e-400` as
 * `0.0`. Those renderings are not modelled, and neither are the `NaN`,
 * `Infinity` and `-Infinity` that `json.loads` accepts and this parser refuses.
 */
module Json {
  import opened Wrappers
  import opened Text

  datatype Value =
    | Null
    | Bool(b: bool)
    | Num(lexeme: string)
    | Str(s: string)
    | Arr(items: seq<Value>)
    | Obj(members: seq<Member>)

  datatype Member = Member(key: string, val: Value)

  /** The two serialisers: compact (`JSON.stringify`) or spaced and ASCII-only (`json.dumps`). */
  datatype Dialect = JavaScript | Python

  // ---------------------------------------------------------------------------
  // Member lookup

  /**
   * `obj[key]` / `dict.get(key)` on a parsed object: both parsers keep the last
   * of several members with the same key.
   */
  function Get(ms: seq<Member>, key: string): (r: Option<Value>)
    ensures r.Some? <==> exists i :: 0 <= i < |ms| && ms[i].key == key
    ensures r.Some? ==> exists i :: LastWith(ms, key, i) && ms[i].val == r.value
  {
    if ms == [] then None
    else
      var n := |ms| - 1;
      if ms[n].key == key then
        assert LastWith(ms, key, n);
        Some(ms[n].val)
      else
        var r := Get(ms[..n], key);
        GetPrefix(ms, key, r);
        r
  }

  /** Member `i` has the key `key` and no later member has it. */
  predicate LastWith(ms: seq<Member>, key: string, i: int)
  {
    0 <= i < |ms| && ms[i].key == key && forall j :: i < j < |ms| ==> ms[j].key != key
  }

  /** Looking a key up in all but the last member, when the last member has another key. */
  lemma GetPrefix(ms: seq<Member>, key: string, r: Option<Value>)
    requires ms != [] && ms[|ms| - 1].key != key
    requires var p := ms[..|ms| - 1];
      (r.Some? <==> exists i :: 0 <= i < |p| && p[i].key == key)
      && (r.Some? ==> exists i :: LastWith(p, key, i) && p[i].val == r.value)
    ensures r.Some? <==> exists i :: 0 <= i < |ms| && ms[i].key == key
    ensures r.Some? ==> exists i :: LastWith(ms, key, i) && ms[i].val == r.value
  {
    var p := ms[..|ms| - 1];
    if r.Some? {
      var i :| LastWith(p, key, i) && p[i].val == r.value;
      assert p[i] == ms[i];
      forall j | i < j < |ms| ensures ms[j].key != key {
        if j < |p| { assert p[j] == ms[j]; }
      }
      assert LastWith(ms, key, i);
    }
    if exists i :: 0 <= i < |ms| && ms[i].key == key {
      var i :| 0 <= i < |ms| && ms[i].key == key;
      assert p[i] == ms[i];
    }
  }

  /** A member no later member shadows is what a lookup of its key finds. */
  lemma GetAt(ms: seq<Member>, i: nat)
    requires i < |ms| && forall j :: i < j < |ms| ==> ms[j].key != ms[i].key
    ensures Get(ms, ms[i].key) == Some(ms[i].val)
  {
    var key := ms[i].key;
    var r := Get(ms, key);
    var k :| LastWith(ms, key, k) && ms[k].val == r.value;
  }

  /** The member `key` of an object; nothing for any other value. */
  function Field(v: Value, key: string): Option<Value>
  {
    if v.Obj? then Get(v.members, key) else None
  }

  // ---------------------------------------------------------------------------
  // Number lexemes (RFC 8259, section 6)

  predicate IsDigit(c: char) { '0' <= c <= '9' }

  /** The characters a number lexeme is made of. */
  predicate IsNumberChar(c: char)
  {
    IsDigit(c) || c == '-' || c == '+' || c == '.' || c == 'e' || c == 'E'
  }

  /** How many digits `s` starts with. */
  function LeadingDigits(s: string): (n: nat)
    ensures n <= |s|
    ensures forall i :: 0 <= i < n ==> IsDigit(s[i])
    ensures n < |s| ==> !IsDigit(s[n])
  {
    if s == [] || !IsDigit(s[0]) then 0 else 1 + LeadingDigits(s[1..])
  }

  /** `-? (0 | [1-9][0-9]*) (. [0-9]+)? ([eE] [+-]? [0-9]+)?` */
  predicate IsNumberLexeme(t: string)
  {
    var u := if |t| > 0 && t[0] == '-' then t[1..] else t;
    var n := LeadingDigits(u);
    n >= 1 && (u[0] == '0' ==> n == 1) && IsFracExp(u[n..])
  }

  predicate IsFracExp(w: string)
  {
    if |w| > 0 && w[0] == '.' then
      var k := LeadingDigits(w[1..]);
      k >= 1 && IsExp(w[1 + k..])
    else IsExp(w)
  }

  predicate IsExp(w: string)
  {
    w == [] ||
    ((w[0] == 'e' || w[0] == 'E') &&
     var x := if |w| > 1 && (w[1] == '+' || w[1] == '-') then w[2..] else w[1..];
     LeadingDigits(x) >= 1 && LeadingDigits(x) == |x|)
  }

  predicate AllNumberChars(s: string)
  {
    forall i :: 0 <= i < |s| ==> IsNumberChar(s[i])
  }

  /** A text whose two halves are made of number characters is made of them. */
  lemma NumberCharsJoin(s: string, k: nat)
    requires k <= |s| && AllNumberChars(s[..k]) && AllNumberChars(s[k..])
    ensures AllNumberChars(s)
  {
    forall i | 0 <= i < |s| ensures IsNumberChar(s[i]) {
      if i < k { assert s[i] == s[..k][i]; } else { assert s[i] == s[k..][i - k]; }
    }
  }

  lemma ExpChars(w: string)
    requires IsExp(w)
    ensures AllNumberChars(w)
  {
    if w != [] {
      var j := if |w| > 1 && (w[1] == '+' || w[1] == '-') then 2 else 1;
      assert AllNumberChars(w[j..]);
      assert AllNumberChars(w[..j]);
      NumberCharsJoin(w, j);
    }
  }

  lemma FracExpChars(w: string)
    requires IsFracExp(w)
    ensures AllNumberChars(w)
  {
    if |w| > 0 && w[0] == '.' {
      var v := w[1..];
      var k := LeadingDigits(v);
      assert v[k..] == w[1 + k..];
      ExpChars(v[k..]);
      DigitsChars(v, k);
      NumberCharsJoin(v, k);
      NumberCharsCons(w);
    } else {
      ExpChars(w);
    }
  }

  lemma DigitsChars(s: string, n: nat)
    requires n <= |s| && forall i :: 0 <= i < n ==> IsDigit(s[i])
    ensures AllNumberChars(s[..n])
  {
    assert forall i :: 0 <= i < n ==> s[..n][i] == s[i];
  }

  lemma NumberCharsCons(s: string)
    requires s != [] && IsNumberChar(s[0]) && AllNumberChars(s[1..])
    ensures AllNumberChars(s)
  {
    assert forall i :: 1 <= i < |s| ==> s[i] == s[1..][i - 1];
  }

  /** A number lexeme is non-empty, starts with a digit or a minus sign, and is made of number characters only. */
  lemma NumberLexemeChars(t: string)
    requires IsNumberLexeme(t)
    ensures t != [] && (IsDigit(t[0]) || t[0] == '-')
    ensures AllNumberChars(t)
  {
    var j := if |t| > 0 && t[0] == '-' then 1 else 0;
    var u := t[j..];
    var n := LeadingDigits(u);
    FracExpChars(u[n..]);
    assert AllNumberChars(u[..n]);
    NumberCharsJoin(u, n);
    assert AllNumberChars(t[..j]);
    NumberCharsJoin(t, j);
  }

  /** Joining the members of two well-formed objects gives a well-formed object. */
  lemma WellFormedObjAppend(xs: seq<Member>, ys: seq<Member>)
    requires WellFormed(Obj(xs)) && WellFormed(Obj(ys))
    ensures WellFormed(Obj(xs + ys))
  {
    var zs := xs + ys;
    forall i | 0 <= i < |zs| ensures WellFormed(zs[i].val) {
      if i < |xs| { assert zs[i] == xs[i]; } else { assert zs[i] == ys[i - |xs|]; }
    }
  }

  /** Python's `str(n)` of a natural is a number lexeme. */
  lemma NatLexeme(n: nat)
    ensures IsNumberLexeme(NatToString(n))
  {
    var s := NatToString(n);
    var k := LeadingDigits(s);
    assert k == |s|;
    assert s[k..] == [];
  }

  /** Every number in `v` is a valid lexeme: the values a parser can produce and an encoder can write back. */
  predicate WellFormed(v: Value)
  {
    match v
    case Num(t) => IsNumberLexeme(t)
    case Arr(items) => forall i :: 0 <= i < |items| ==> WellFormed(items[i])
    case Obj(ms) => forall i :: 0 <= i < |ms| ==> WellFormed(ms[i].val)
    case _ => true
  }

  // ---------------------------------------------------------------------------
  // Encoding

  /** Four lower-case hexadecimal digits, as both serialisers write `\uXXXX`. */
  function Hex4(n: nat): (h: string)
    requires n < 0x10000
    ensures |h| == 4
  {
    [HexDigit(n / 0x1000), HexDigit(n / 0x100 % 0x10), HexDigit(n / 0x10 % 0x10), HexDigit(n % 0x10)]
  }

  function HexDigit(d: nat): (c: char)
    requires d < 16
    ensures IsHexChar(c) && HexValue(c) == d
  {
    if d < 10 then ('0' as int + d) as char else ('a' as int + d - 10) as char
  }

  predicate IsHexChar(c: char)
  {
    '0' <= c <= '9' || 'a' <= c <= 'f' || 'A' <= c <= 'F'
  }

  function HexValue(c: char): (d: nat)
    ensures d < 16
  {
    if '0' <= c <= '9' then c as int - '0' as int
    else if 'a' <= c <= 'f' then c as int - 'a' as int + 10
    else if 'A' <= c <= 'F' then c as int - 'A' as int + 10
    else 0
  }

  /** The first of the two UTF-16 code units of a character above U+FFFF. */
  function HighSurrogate(c: char): (u: nat)
    requires c as int >= 0x10000
    ensures 0xD800 <= u < 0xDC00
  {
    0xD800 + (c as int - 0x10000) / 0x400
  }

  /** The second of the two UTF-16 code units of a character above U+FFFF. */
  function LowSurrogate(c: char): (u: nat)
    requires c as int >= 0x10000
    ensures 0xDC00 <= u < 0xE000
  {
    0xDC00 + (c as int - 0x10000) % 0x400
  }

  /** `\uXXXX` for one UTF-16 code unit. */
  function UnicodeEscape(n: nat): (e: string)
    requires n < 0x10000
    ensures |e| == 6
  {
    "\\u" + Hex4(n)
  }

  /** The two-character escapes both serialisers use. */
  function ShortEscape(c: char): Option<string>
  {
    if c == '"' then Some("\\\"")
    else if c == '\\' then Some("\\\\")
    else if c == '\n' then Some("\\n")
    else if c == '\r' then Some("\\r")
    else if c == '\t' then Some("\\t")
    else if c as int == 0x08 then Some("\\b")
    else if c as int == 0x0C then Some("\\f")
    else None
  }

  /**
   * How one character of a string is written. `JSON.stringify` escapes only the
   * quote, the backslash and the control characters; `json.dumps` (with
   * `ensure_ascii`) writes everything outside printable ASCII as `\uXXXX`,
   * characters above U+FFFF as a surrogate pair.
   */
  function EscapeChar(d: Dialect, c: char): string
  {
    if ShortEscape(c).Some? then ShortEscape(c).value
    else if d == JavaScript then
      if c < ' ' then UnicodeEscape(c as int) else [c]
    else if ' ' <= c <= '~' then [c]
    else if c as int < 0x10000 then UnicodeEscape(c as int)
    else UnicodeEscape(HighSurrogate(c)) + UnicodeEscape(LowSurrogate(c))
  }

  function EscapeBody(d: Dialect, s: string): string
  {
    if s == [] then "" else EscapeChar(d, s[0]) + EscapeBody(d, s[1..])
  }

  function Quote(d: Dialect, s: string): string
  {
    "\"" + EscapeBody(d, s) + "\""
  }

  /** Between array items / object members: `,` or Python's `, `. */
  function ItemSep(d: Dialect): string
  {
    if d == JavaScript then "," else ", "
  }

  /** Between a key and its value: `:` or Python's `: `. */
  function KeySep(d: Dialect): string
  {
    if d == JavaScript then ":" else ": "
  }

  /** `JSON.stringify(v)` or `json.dumps(v)`. */
  function Encode(d: Dialect, v: Value): string
  {
    match v
    case Null => "null"
    case Bool(b) => if b then "true" else "false"
    case Num(t) => t
    case Str(s) => Quote(d, s)
    case Arr(items) => "[" + EncodeItems(d, items) + "]"
    case Obj(ms) => "{" + EncodeMembers(d, ms) + "}"
  }

  function EncodeItems(d: Dialect, items: seq<Value>): string
  {
    if items == [] then ""
    else if |items| == 1 then Encode(d, items[0])
    else Encode(d, items[0]) + ItemSep(d) + EncodeItems(d, items[1..])
  }

  function EncodeMember(d: Dialect, m: Member): string
  {
    Quote(d, m.key) + KeySep(d) + Encode(d, m.val)
  }

  function EncodeMembers(d: Dialect, ms: seq<Member>): string
  {
    if ms == [] then ""
    else if |ms| == 1 then EncodeMember(d, ms[0])
    else EncodeMember(d, ms[0]) + ItemSep(d) + EncodeMembers(d, ms[1..])
  }

  // ---------------------------------------------------------------------------
  // Framing: an encoded value never contains a line break

  lemma {:induction false} EscapeCharNoNewline(d: Dialect, c: char)
    ensures '\n' !in EscapeChar(d, c) && '\r' !in EscapeChar(d, c)
  {
    if ShortEscape(c).None? && !(d == JavaScript && c >= ' ') && !(d == Python && ' ' <= c <= '~') {
      if c as int < 0x10000 {
        assert '\n' !in Hex4(c as int) && '\r' !in Hex4(c as int);
      } else {
        assert '\n' !in Hex4(HighSurrogate(c)) && '\n' !in Hex4(LowSurrogate(c));
        assert '\r' !in Hex4(HighSurrogate(c)) && '\r' !in Hex4(LowSurrogate(c));
      }
    }
  }

  lemma {:induction false} EscapeBodyNoNewline(d: Dialect, s: string)
    ensures '\n' !in EscapeBody(d, s) && '\r' !in EscapeBody(d, s)
  {
    if s != [] {
      EscapeCharNoNewline(d, s[0]);
      EscapeBodyNoNewline(d, s[1..]);
    }
  }

  /**
   * Neither serialiser writes a raw line break: a line feed or a carriage
   * return inside a string is escaped as `\n` or `\r`. So one encoded value
   * followed by `'\n'` is exactly one line of the protocol.
   */
  lemma {:induction false} EncodeNoNewline(d: Dialect, v: Value)
    requires WellFormed(v)
    ensures '\n' !in Encode(d, v) && '\r' !in Encode(d, v)
  {
    match v
    case Str(s) => EscapeBodyNoNewline(d, s);
    case Num(t) => LexemeNoNewline(t);
    case Arr(items) =>
      EncodeItemsNoNewline(d, items);
      assert Encode(d, v) == "[" + EncodeItems(d, items) + "]";
    case Obj(ms) =>
      EncodeMembersNoNewline(d, ms);
      assert Encode(d, v) == "{" + EncodeMembers(d, ms) + "}";
    case Null =>
    case Bool(b) =>
  }

  lemma LexemeNoNewline(t: string)
    requires IsNumberLexeme(t)
    ensures '\n' !in t && '\r' !in t
  {
    NumberLexemeChars(t);
    assert forall i :: 0 <= i < |t| ==> IsNumberChar(t[i]);
  }

  lemma {:induction false} EncodeItemsNoNewline(d: Dialect, items: seq<Value>)
    requires forall i :: 0 <= i < |items| ==> WellFormed(items[i])
    ensures '\n' !in EncodeItems(d, items) && '\r' !in EncodeItems(d, items)
  {
    if items != [] {
      EncodeNoNewline(d, items[0]);
      if |items| > 1 {
        EncodeItemsNoNewline(d, items[1..]);
      }
    }
  }

  lemma {:induction false} EncodeMembersNoNewline(d: Dialect, ms: seq<Member>)
    requires forall i :: 0 <= i < |ms| ==> WellFormed(ms[i].val)
    ensures '\n' !in EncodeMembers(d, ms) && '\r' !in EncodeMembers(d, ms)
  {
    if ms != [] {
      EscapeBodyNoNewline(d, ms[0].key);
      EncodeNoNewline(d, ms[0].val);
      if |ms| > 1 {
        EncodeMembersNoNewline(d, ms[1..]);
      }
    }
  }

  /** Python truthiness of a parsed JSON value. */
  predicate Truthy(v: Value)
  {
    match v
    case Null => false
    case Bool(b) => b
    case Num(t) => !ZeroLexeme(t)
    case Str(s) => s != ""
    case Arr(items) => items != []
    case Obj(ms) => ms != []
  }

  /** A number lexeme whose value is zero: every digit before the exponent is `0`. */
  predicate ZeroLexeme(t: string)
  {
    forall i :: 0 <= i < |t| && IsDigit(t[i]) && (forall j :: 0 <= j < i ==> t[j] != 'e' && t[j] != 'E')
      ==> t[i] == '0'
  }
}
