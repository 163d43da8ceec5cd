/** The string operations the program relies on, with Python's meaning:
    `str.strip()`, `str(n)` for a non-negative integer, `"\n".join` and
    `str.split("\n")`. */
module Text {

  /** Python's `str.isspace()` for a single character. */
  predicate IsSpace(c: char)
  {
    || ('\t' <= c <= '\r')
    || ('\U{1C}' <= c <= '\U{1F}')
    || c == ' '
    || c == '\U{85}'
    || c == '\U{A0}'
    || c == '\U{1680}'
    || ('\U{2000}' <= c <= '\U{200A}')
    || c == '\U{2028}'
    || c == '\U{2029}'
    || c == '\U{202F}'
    || c == '\U{205F}'
    || c == '\U{3000}'
  }

  /** Every character of `s` is whitespace (so is the empty string). */
  predicate AllSpace(s: string)
  {
    forall i :: 0 <= i < |s| ==> IsSpace(s[i])
  }

  /** `s.lstrip()`. Its properties are stated by `TrimStartDropsSpace`. */
  function TrimStart(s: string): string
  {
    if s != [] && IsSpace(s[0]) then TrimStart(s[1..]) else s
  }

  /** `s.rstrip()`. Its properties are stated by `TrimEndDropsSpace`. */
  function TrimEnd(s: string): string
  {
    if s != [] && IsSpace(s[|s| - 1]) then TrimEnd(s[..|s| - 1]) else s
  }

  /** `s.strip()`. Its properties are stated by `StripDropsSpace`. */
  function Strip(s: string): string
  {
    TrimEnd(TrimStart(s))
  }

  /** `lstrip` drops the leading whitespace and nothing else: what it
      keeps is a suffix of `s` that does not start with whitespace, and
      what it drops is all whitespace. */
  lemma {:induction false} TrimStartDropsSpace(s: string)
    ensures var r := TrimStart(s);
      && |r| <= |s| && r == s[|s| - |r|..]
      && (r == [] || !IsSpace(r[0]))
      && AllSpace(s[..|s| - |r|])
  {
    if s != [] && IsSpace(s[0]) {
      TrimStartDropsSpace(s[1..]);
      var r := TrimStart(s[1..]);
      assert s[1..][|s| - 1 - |r|..] == s[|s| - |r|..];
      assert s[..|s| - |r|] == [s[0]] + s[1..][..|s| - 1 - |r|];
    } else {
      assert s[..0] == [];
    }
  }

  /** `rstrip` drops the trailing whitespace and nothing else. */
  lemma {:induction false} TrimEndDropsSpace(s: string)
    ensures var r := TrimEnd(s);
      && |r| <= |s| && r == s[..|r|]
      && (r == [] || !IsSpace(r[|r| - 1]))
      && AllSpace(s[|r|..])
  {
    if s != [] && IsSpace(s[|s| - 1]) {
      TrimEndDropsSpace(s[..|s| - 1]);
      var r := TrimEnd(s[..|s| - 1]);
      assert s[..|s| - 1][..|r|] == s[..|r|];
      assert s[|r|..] == s[..|s| - 1][|r|..] + [s[|s| - 1]];
    } else {
      assert s[|s|..] == [];
    }
  }

  /** `strip` keeps one slice of its input, with only whitespace before
      and after it. */
  lemma StripKeepsSlice(s: string)
    ensures |Strip(s)| <= |TrimStart(s)| <= |s|
    ensures var i := |s| - |TrimStart(s)|;
      var j := i + |Strip(s)|;
      && j <= |s|
      && Strip(s) == s[i..j]
      && AllSpace(s[..i]) && AllSpace(s[j..])
  {
    var t := TrimStart(s);
    var r := TrimEnd(t);
    var i := |s| - |t|;
    assert |t| <= |s| && t == s[i..] && AllSpace(s[..i]) by {
      TrimStartDropsSpace(s);
    }
    assert |r| <= |t| && r == t[..|r|] && AllSpace(t[|r|..]) by {
      TrimEndDropsSpace(t);
    }
    assert r == s[i..i + |r|];
    assert s[i + |r|..] == t[|r|..];
  }

  /** `strip` gives the empty string exactly when the input is all
      whitespace, and otherwise a result that neither starts nor ends with
      whitespace. */
  lemma StripDropsSpace(s: string)
    ensures |Strip(s)| <= |s|
    ensures Strip(s) == [] <==> AllSpace(s)
    ensures Strip(s) != [] ==> !IsSpace(Strip(s)[0]) && !IsSpace(Strip(s)[|Strip(s)| - 1])
  {
    var t := TrimStart(s);
    TrimStartDropsSpace(s);
    TrimEndDropsSpace(t);
    var r := TrimEnd(t);
    if r == [] {
      assert t[0..] == t;
      assert t == [];
      assert s[..|s|] == s;
    } else {
      assert r[0] == t[0];
      assert !IsSpace(s[|s| - |t|]) by {
        assert t[0] == s[|s| - |t|];
      }
    }
  }

  predicate IsDigit(c: char)
  {
    '0' <= c <= '9'
  }

  predicate AllDigits(s: string)
  {
    forall i :: 0 <= i < |s| ==> IsDigit(s[i])
  }

  function DigitChar(d: nat): (c: char)
    requires d < 10
    ensures IsDigit(c)
  {
    ('0' as int + d) as char
  }

  function DigitValue(c: char): nat
    requires IsDigit(c)
  {
    c as int - '0' as int
  }

  /** `str(n)` for a non-negative integer: at least one decimal digit and
      nothing else. */
  function Decimal(n: nat): (r: string)
    ensures |r| >= 1 && AllDigits(r)
  {
    if n < 10 then [DigitChar(n)] else Decimal(n / 10) + [DigitChar(n % 10)]
  }

  /** The value of a string of decimal digits, read most significant first. */
  function ParseDecimal(s: string): nat
    requires AllDigits(s)
  {
    if s == [] then 0 else ParseDecimal(s[..|s| - 1]) * 10 + DigitValue(s[|s| - 1])
  }

  /** Reading back what `Decimal` wrote gives the number again. */
  lemma {:induction false} ParseDecimalOfDecimal(n: nat)
    ensures ParseDecimal(Decimal(n)) == n
  {
    if n >= 10 {
      var d := Decimal(n / 10);
      assert (d + [DigitChar(n % 10)])[..|d|] == d;
      ParseDecimalOfDecimal(n / 10);
    }
  }

  /** The index of the first `c` in `s`, or `|s|` when there is none. */
  function FindChar(s: string, c: char): (k: nat)
    ensures k <= |s|
    ensures k < |s| ==> s[k] == c
    ensures forall i :: 0 <= i < k ==> s[i] != c
  {
    if s == [] then 0 else if s[0] == c then 0 else 1 + FindChar(s[1..], c)
  }

  /** Python's `sub in s` for strings. */
  predicate IsSubstring(sub: string, s: string)
  {
    sub <= s || (s != [] && IsSubstring(sub, s[1..]))
  }

  /** `"\n".join(lines)`. */
  function JoinLines(lines: seq<string>): string
  {
    if |lines| == 0 then ""
    else if |lines| == 1 then lines[0]
    else lines[0] + "\n" + JoinLines(lines[1..])
  }

  /** `s.split("\n")`: always at least one piece, none holding a newline. */
  function SplitLines(s: string): (r: seq<string>)
    ensures |r| >= 1
    ensures forall i :: 0 <= i < |r| ==> '\n' !in r[i]
  {
    if s == [] then [""]
    else
      var rest := SplitLines(s[1..]);
      if s[0] == '\n' then [""] + rest else [[s[0]] + rest[0]] + rest[1..]
  }

  /** Splitting a newline-free prefix followed by more text glues the prefix
      onto the first piece of the rest. */
  lemma {:induction false} SplitLinesPrefix(a: string, t: string)
    requires '\n' !in a
    ensures SplitLines(a + t) == [a + SplitLines(t)[0]] + SplitLines(t)[1..]
  {
    if a != [] {
      assert (a + t)[0] == a[0];
      assert (a + t)[1..] == a[1..] + t;
      SplitLinesPrefix(a[1..], t);
      assert [a[0]] + (a[1..] + SplitLines(t)[0]) == a + SplitLines(t)[0];
    } else {
      var pieces := SplitLines(t);
      assert a + t == t && a + pieces[0] == pieces[0];
      assert pieces == [pieces[0]] + pieces[1..];
    }
  }

  /** Splitting undoes joining, provided no line holds a newline itself. */
  lemma {:induction false} SplitJoinLines(lines: seq<string>)
    requires |lines| >= 1
    requires forall i :: 0 <= i < |lines| ==> '\n' !in lines[i]
    ensures SplitLines(JoinLines(lines)) == lines
  {
    if |lines| == 1 {
      SplitLinesPrefix(lines[0], "");
      assert lines[0] + "" == lines[0];
    } else {
      var rest := JoinLines(lines[1..]);
      assert JoinLines(lines) == lines[0] + ("\n" + rest);
      SplitLinesPrefix(lines[0], "\n" + rest);
      assert ("\n" + rest)[1..] == rest;
      SplitJoinLines(lines[1..]);
      assert lines[0] + "" == lines[0];
      assert lines == [lines[0]] + lines[1..];
    }
  }
}
