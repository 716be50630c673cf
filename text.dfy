/**
 * String helpers shared by the JavaScript and Python sides of the model:
 * JavaScript's `split` on a one-character separator, the two languages'
 * notions of whitespace and `trim`/`strip`, substring tests, ASCII
 * upper-casing and decimal rendering of naturals.
 */
module Text {

  /** JavaScript `s.split(sep)` for a one-character separator: every piece between separators, in order. */
  function Split(s: string, sep: char): (pieces: seq<string>)
    ensures |pieces| >= 1
    ensures forall i :: 0 <= i < |pieces| ==> sep !in pieces[i]
  {
    if s == [] then [""]
    else
      var tail := Split(s[1..], sep);
      if s[0] == sep then [""] + tail
      else [[s[0]] + tail[0]] + tail[1..]
  }

  /** The inverse of `Split`: the pieces with the separator between each two. */
  function Join(pieces: seq<string>, sep: char): string
  {
    if pieces == [] then ""
    else if |pieces| == 1 then pieces[0]
    else pieces[0] + [sep] + Join(pieces[1..], sep)
  }

  /** Splitting and joining again gives back the original text: nothing is lost or reordered. */
  lemma {:induction false} JoinSplit(s: string, sep: char)
    ensures Join(Split(s, sep), sep) == s
  {
    if s != [] {
      JoinSplit(s[1..], sep);
      var tail := Split(s[1..], sep);
      if s[0] == sep {
        assert Split(s, sep) == [""] + tail;
        assert s == [sep] + s[1..];
      } else {
        var p := Split(s, sep);
        assert p[0] == [s[0]] + tail[0] && p[1..] == tail[1..];
        if |tail| == 1 {
          assert s == [s[0]] + tail[0];
        } else {
          assert Join(p, sep) == p[0] + [sep] + Join(tail[1..], sep);
          assert Join(tail, sep) == tail[0] + [sep] + Join(tail[1..], sep);
          assert s == [s[0]] + s[1..];
        }
      }
    }
  }

  /** Splitting a text made of separator-free pieces, each followed by the separator, returns those pieces and a final empty one. */
  lemma {:induction false} SplitTerminated(lines: seq<string>, sep: char)
    requires forall i :: 0 <= i < |lines| ==> sep !in lines[i]
    ensures Split(Terminated(lines, sep), sep) == lines + [""]
  {
    if lines != [] {
      SplitTerminated(lines[1..], sep);
      SplitPrefix(lines[0], sep, Terminated(lines[1..], sep));
      assert Terminated(lines, sep) == lines[0] + [sep] + Terminated(lines[1..], sep);
      assert lines == [lines[0]] + lines[1..];
    }
  }

  /** Each line followed by the separator, concatenated: what a writer of newline-delimited records produces. */
  function Terminated(lines: seq<string>, sep: char): (s: string)
    ensures |s| == |lines| + SumLengths(lines)
  {
    if lines == [] then "" else lines[0] + [sep] + Terminated(lines[1..], sep)
  }

  /** Writing one more line appends it and its separator. */
  lemma {:induction false} TerminatedAppend(lines: seq<string>, line: string, sep: char)
    ensures Terminated(lines + [line], sep) == Terminated(lines, sep) + line + [sep]
  {
    if lines != [] {
      assert (lines + [line])[1..] == lines[1..] + [line];
      TerminatedAppend(lines[1..], line, sep);
    } else {
      assert [line][1..] == [];
    }
  }

  function SumLengths(lines: seq<string>): nat
  {
    if lines == [] then 0 else |lines[0]| + SumLengths(lines[1..])
  }

  /** A separator-free prefix followed by the separator becomes its own first piece. */
  lemma {:induction false} SplitPrefix(line: string, sep: char, rest: string)
    requires sep !in line
    ensures Split(line + [sep] + rest, sep) == [line] + Split(rest, sep)
  {
    if line == [] {
      assert line + [sep] + rest == [sep] + rest;
      assert ([sep] + rest)[1..] == rest;
    } else {
      var s := line + [sep] + rest;
      assert s[0] == line[0];
      assert s[1..] == line[1..] + [sep] + rest;
      SplitPrefix(line[1..], sep, rest);
      assert [line[0]] + line[1..] == line;
    }
  }

  /** How a split starts: a separator opens a new piece, any other character joins the first one. */
  lemma SplitCons(c: char, rest: string, sep: char)
    ensures var tail := Split(rest, sep);
      Split([c] + rest, sep) == if c == sep then [""] + tail else [[c] + tail[0]] + tail[1..]
  {
    assert ([c] + rest)[1..] == rest;
  }

  /** Splitting at one separator splits the text into the pieces of the part before it followed by the pieces of the part after it. */
  lemma {:induction false} SplitAppend(a: string, sep: char, b: string)
    ensures Split(a + [sep] + b, sep) == Split(a, sep) + Split(b, sep)
  {
    if a == [] {
      assert a + [sep] + b == [sep] + b;
      SplitCons(sep, b, sep);
    } else {
      SplitAppend(a[1..], sep, b);
      SplitAppendStep(a[0], a[1..], sep, b);
      assert [a[0]] + a[1..] == a;
    }
  }

  lemma ConcatAssoc<T>(a: seq<T>, b: seq<T>, c: seq<T>)
    ensures a + (b + c) == (a + b) + c
  {
  }

  lemma SplitAppendStep(c: char, a: string, sep: char, b: string)
    requires Split(a + [sep] + b, sep) == Split(a, sep) + Split(b, sep)
    ensures Split([c] + a + [sep] + b, sep) == Split([c] + a, sep) + Split(b, sep)
  {
    var r := a + [sep] + b;
    assert [c] + a + [sep] + b == [c] + r;
    SplitCons(c, r, sep);
    SplitCons(c, a, sep);
    if c != sep {
      GlueFirst([c], Split(a, sep), Split(b, sep));
    } else {
      ConcatAssoc([""], Split(a, sep), Split(b, sep));
    }
  }

  /** Prefixing the first piece commutes with appending more pieces. */
  lemma GlueFirst(x: string, t: seq<string>, u: seq<string>)
    requires |t| >= 1
    ensures [x + (t + u)[0]] + (t + u)[1..] == ([x + t[0]] + t[1..]) + u
  {
    assert (t + u)[0] == t[0];
    assert (t + u)[1..] == t[1..] + u;
  }

  /** JavaScript's whitespace and line terminators, as `String.prototype.trim` removes them. */
  predicate IsJsSpace(c: char)
  {
    c == '\t' || c == '\n' || c as int == 0x0B || c as int == 0x0C || c == '\r' || c == ' '
    || c as int == 0xA0 || c as int == 0x1680 || (0x2000 <= c as int <= 0x200A)
    || c as int == 0x2028 || c as int == 0x2029 || c as int == 0x202F || c as int == 0x205F
    || c as int == 0x3000 || c as int == 0xFEFF
  }

  /** Python's `str.isspace` characters, as `str.strip()` removes them. */
  predicate IsPySpace(c: char)
  {
    c == '\t' || c == '\n' || c as int == 0x0B || c as int == 0x0C || c == '\r'
    || (0x1C <= c as int <= 0x1F) || c == ' ' || c as int == 0x85 || c as int == 0xA0
    || c as int == 0x1680 || (0x2000 <= c as int <= 0x200A) || c as int == 0x2028
    || c as int == 0x2029 || c as int == 0x202F || c as int == 0x205F || c as int == 0x3000
  }

  /** Leading characters satisfying `space` removed. */
  function TrimStart(s: string, space: char -> bool): (r: string)
    ensures |r| <= |s| && r == s[|s| - |r|..]
    ensures r == [] || !space(r[0])
    ensures forall i :: 0 <= i < |s| - |r| ==> space(s[i])
  {
    if s == [] || !space(s[0]) then s
    else TrimStart(s[1..], space)
  }

  /** Trailing characters satisfying `space` removed. */
  function TrimEnd(s: string, space: char -> bool): (r: string)
    ensures |r| <= |s| && r == s[..|r|]
    ensures r == [] || !space(r[|r| - 1])
    ensures forall i :: |r| <= i < |s| ==> space(s[i])
  {
    if s == [] || !space(s[|s| - 1]) then s
    else TrimEnd(s[..|s| - 1], space)
  }

  /** `trim()` / `strip()`: both ends stripped of the given whitespace. */
  function Trim(s: string, space: char -> bool): string
  {
    TrimEnd(TrimStart(s, space), space)
  }

  /** A trimmed text is empty exactly when the text is nothing but whitespace. */
  lemma TrimEmpty(s: string, space: char -> bool)
    ensures Trim(s, space) == [] <==> forall i :: 0 <= i < |s| ==> space(s[i])
  {
    var a := TrimStart(s, space);
    if Trim(s, space) == [] {
      forall i | 0 <= i < |s| ensures space(s[i]) {
        if i >= |s| - |a| {
          assert s[i] == a[i - (|s| - |a|)];
        }
      }
    } else if forall i :: 0 <= i < |s| ==> space(s[i]) {
      assert a != [] ==> a[0] == s[|s| - |a|];
    }
  }

  /** JavaScript `s.trim()`. */
  function JsTrim(s: string): string { Trim(s, IsJsSpace) }

  /** Python `s.strip()`. */
  function PyStrip(s: string): string { Trim(s, IsPySpace) }

  /** `sub in s` (Python) / `s.includes(sub)` (JavaScript). */
  predicate Contains(s: string, sub: string)
  {
    StartsWith(s, sub) || (s != [] && Contains(s[1..], sub))
  }

  predicate StartsWith(s: string, prefix: string)
  {
    |prefix| <= |s| && s[..|prefix|] == prefix
  }

  /** Upper-casing of the ASCII letters; every other character is kept. */
  function AsciiUpper(s: string): (r: string)
    ensures |r| == |s|
    ensures forall i :: 0 <= i < |s| ==> r[i] == UpperChar(s[i])
  {
    if s == [] then [] else [UpperChar(s[0])] + AsciiUpper(s[1..])
  }

  function UpperChar(c: char): char
  {
    if 'a' <= c <= 'z' then (c as int - 32) as char else c
  }

  lemma AsciiUpperIdempotent(s: string)
    ensures AsciiUpper(AsciiUpper(s)) == AsciiUpper(s)
  {
    var u := AsciiUpper(s);
    assert forall i :: 0 <= i < |u| ==> UpperChar(u[i]) == u[i];
  }

  /** Decimal rendering of a natural, as Python's `str(int)`. */
  function NatToString(n: nat): (s: string)
    ensures |s| >= 1
    ensures forall i :: 0 <= i < |s| ==> '0' <= s[i] <= '9'
    ensures s[0] == '0' <==> n == 0
    ensures n == 0 ==> s == "0"
    decreases n
  {
    if n < 10 then [Digit(n)] else NatToString(n / 10) + [Digit(n % 10)]
  }

  function Digit(d: nat): (c: char)
    requires d < 10
    ensures '0' <= c <= '9'
  {
    ('0' as int + d) as char
  }

  /** The digits read back as a number. */
  function DigitsValue(s: string): nat
    requires forall i :: 0 <= i < |s| ==> '0' <= s[i] <= '9'
  {
    if s == [] then 0 else DigitsValue(s[..|s| - 1]) * 10 + (s[|s| - 1] as int - '0' as int)
  }

  /** Rendering a natural and reading it back gives the same natural. */
  lemma {:induction false} NatToStringValue(n: nat)
    ensures DigitsValue(NatToString(n)) == n
  {
    if n >= 10 {
      NatToStringValue(n / 10);
      var s := NatToString(n);
      assert s[..|s| - 1] == NatToString(n / 10);
    }
  }

  /** Distinct naturals render as distinct texts. */
  lemma NatToStringInjective(m: nat, n: nat)
    requires NatToString(m) == NatToString(n)
    ensures m == n
  {
    NatToStringValue(m);
    NatToStringValue(n);
  }

  /** Stripping a stripped text changes nothing. */
  lemma PyStripIdempotent(s: string)
    ensures PyStrip(PyStrip(s)) == PyStrip(s)
  {
    var a := TrimStart(s, IsPySpace);
    var t := TrimEnd(a, IsPySpace);
    if t != [] {
      assert t[0] == a[0];
      StrippedFixed(t);
    }
  }

  lemma StrippedFixed(t: string)
    requires t != [] && !IsPySpace(t[0]) && !IsPySpace(t[|t| - 1])
    ensures PyStrip(t) == t
  {
  }
}
