/** Decimal rendering of naturals (Python's `str(int)` / f-string `{n}`) and
    splitting a text into newline-terminated lines. */
module Text {

  predicate IsDigit(c: char)
  {
    '0' <= c <= '9'
  }

  predicate AllDigits(s: string)
  {
    forall i :: 0 <= i < |s| ==> IsDigit(s[i])
  }

  function DigitChar(d: nat): (c: char)
    requires d < 10
    ensures IsDigit(c)
  {
    "0123456789"[d]
  }

  function DigitValue(c: char): nat
    requires IsDigit(c)
  {
    (c as int - '0' as int) as nat
  }

  /** The decimal form of `n`: only digits, at least one, and no leading zero. */
  function NatToString(n: nat): (s: string)
    ensures |s| >= 1 && AllDigits(s)
    ensures |s| > 1 ==> s[0] != '0'
    ensures '\n' !in s
    decreases n
  {
    if n < 10 then [DigitChar(n)] else NatToString(n / 10) + [DigitChar(n % 10)]
  }

  /** Reads a string of digits back as a natural. */
  function ParseNat(s: string): nat
    requires AllDigits(s)
  {
    if s == [] then 0 else ParseNat(s[..|s| - 1]) * 10 + DigitValue(s[|s| - 1])
  }

  /** Rendering a natural and reading it back gives the same natural. */
  lemma {:induction false} ParseNatToString(n: nat)
    ensures ParseNat(NatToString(n)) == n
    decreases n
  {
    var s := NatToString(n);
    if n >= 10 {
      ParseNatToString(n / 10);
      assert s[..|s| - 1] == NatToString(n / 10);
    }
  }

  /** Distinct naturals render to distinct strings. */
  lemma NatToStringInjective(m: nat, n: nat)
    requires NatToString(m) == NatToString(n)
    ensures m == n
  {
    ParseNatToString(m);
    ParseNatToString(n);
  }

  /** Index of the first occurrence of `c` in `s`. */
  function IndexOf(s: string, c: char): (i: nat)
    requires c in s
    ensures i < |s| && s[i] == c
    ensures forall k :: 0 <= k < i ==> s[k] != c
  {
    if s[0] == c then 0 else 1 + IndexOf(s[1..], c)
  }

  /** The pieces of `s` ended by `sep`, then a final unterminated piece if
      there is one (Python's `s.split(sep)` without the trailing empty piece). */
  function Pieces(s: string, sep: char): seq<string>
    decreases |s|
  {
    if sep !in s then (if s == [] then [] else [s])
    else
      var i := IndexOf(s, sep);
      [s[..i]] + Pieces(s[i + 1..], sep)
  }

  /** The lines of a text. */
  function SplitLines(s: string): seq<string>
  {
    Pieces(s, '\n')
  }

  /** A piece without `sep` followed by `sep` and more text splits off as one piece. */
  lemma PiecesOne(piece: string, sep: char, rest: string)
    requires sep !in piece
    ensures Pieces(piece + [sep] + rest, sep) == [piece] + Pieces(rest, sep)
  {
    var s := piece + [sep] + rest;
    assert s[|piece|] == sep;
    assert forall k :: 0 <= k < |piece| ==> s[k] == piece[k];
    assert IndexOf(s, sep) == |piece|;
    assert s[..|piece|] == piece;
    assert s[|piece| + 1..] == rest;
  }

  /** A line without '\n' followed by '\n' and more text splits off as one line. */
  lemma SplitLinesOneLine(line: string, rest: string)
    requires '\n' !in line
    ensures SplitLines(line + "\n" + rest) == [line] + SplitLines(rest)
  {
    PiecesOne(line, '\n', rest);
  }

  /** A text ending with a newline is its first line, a newline, and a rest that
      is empty or again ends with a newline. */
  lemma FirstLine(a: string) returns (line: string, rest: string)
    requires a != [] && a[|a| - 1] == '\n'
    ensures '\n' !in line && a == line + "\n" + rest
    ensures rest == [] || rest[|rest| - 1] == '\n'
    ensures |rest| < |a|
  {
    var i := IndexOf(a, '\n');
    line, rest := a[..i], a[i + 1..];
    assert a == line + "\n" + rest;
  }

  /** Splitting distributes over concatenation when the first part is empty
      or ends with a newline. */
  lemma {:induction false} SplitLinesAppend(a: string, b: string)
    requires a == [] || a[|a| - 1] == '\n'
    ensures SplitLines(a + b) == SplitLines(a) + SplitLines(b)
    decreases |a|
  {
    if a == [] {
      assert a + b == b;
    } else {
      var line, rest := FirstLine(a);
      calc {
        SplitLines(a + b);
        { assert a + b == line + "\n" + (rest + b); }
        SplitLines(line + "\n" + (rest + b));
        { SplitLinesOneLine(line, rest + b); }
        [line] + SplitLines(rest + b);
        { SplitLinesAppend(rest, b); }
        [line] + (SplitLines(rest) + SplitLines(b));
        { SplitLinesOneLine(line, rest); }
        SplitLines(a) + SplitLines(b);
      }
    }
  }
}
