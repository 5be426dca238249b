/**
 * The few JavaScript string operations the renderer relies on, over
 * `string` (a sequence of characters): `split("\n")`, `join(sep)`, and the
 * decimal rendering of a non-negative integer inside a template literal.
 */
module Strings {

  /** Number of occurrences of `c` in `s`. */
  function Count(s: string, c: char): (n: nat)
    ensures n <= |s|
    ensures n == 0 <==> c !in s
  {
    if s == [] then 0
    else
      assert c in s <==> s[0] == c || c in s[1..];
      (if s[0] == c then 1 else 0) + Count(s[1..], c)
  }

  lemma {:induction false} CountConcat(a: string, b: string, c: char)
    ensures Count(a + b, c) == Count(a, c) + Count(b, c)
  {
    if a == [] {
      assert a + b == b;
    } else {
      assert (a + b)[1..] == a[1..] + b;
      CountConcat(a[1..], b, c);
    }
  }

  /**
   * `s.split("\n")`: the maximal newline-free pieces of `s`, in order. There
   * is always one piece more than there are newlines (so "" gives [""]).
   */
  function SplitLines(s: string): (parts: seq<string>)
    ensures |parts| == Count(s, '\n') + 1
    ensures forall i :: 0 <= i < |parts| ==> '\n' !in parts[i]
  {
    if s == [] then [""]
    else if s[0] == '\n' then [""] + SplitLines(s[1..])
    else
      var rest := SplitLines(s[1..]);
      [[s[0]] + rest[0]] + rest[1..]
  }

  /** `parts.join(sep)`. */
  function Join(parts: seq<string>, sep: string): string
  {
    if |parts| == 0 then ""
    else if |parts| == 1 then parts[0]
    else parts[0] + sep + Join(parts[1..], sep)
  }

  /** `parts.join("")`: the pieces one after the other. */
  function Concat(parts: seq<string>): string
  {
    Join(parts, "")
  }

  /** `s` with every newline replaced by `sep`. */
  function ReplaceNewlines(s: string, sep: string): string
  {
    if s == [] then ""
    else (if s[0] == '\n' then sep else [s[0]]) + ReplaceNewlines(s[1..], sep)
  }

  /** Joining the lines of `s` with `sep` is the same as replacing each newline of `s` by `sep`. */
  lemma {:induction false} JoinSplitLines(s: string, sep: string)
    ensures Join(SplitLines(s), sep) == ReplaceNewlines(s, sep)
  {
    if s != [] {
      var rest := SplitLines(s[1..]);
      JoinSplitLines(s[1..], sep);
      if s[0] == '\n' {
        assert SplitLines(s) == [""] + rest;
        assert ([""] + rest)[1..] == rest;
      } else {
        var parts := SplitLines(s);
        assert parts == [[s[0]] + rest[0]] + rest[1..];
        if |rest| > 1 {
          assert parts[1..] == rest[1..];
        }
      }
    }
  }

  lemma {:induction false} ReplaceNewlinesByNewline(s: string)
    ensures ReplaceNewlines(s, "\n") == s
  {
    if s != [] {
      ReplaceNewlinesByNewline(s[1..]);
      assert s == [s[0]] + s[1..];
    }
  }

  /** Splitting on newlines and joining back with newlines gives the original string. */
  lemma SplitLinesRoundTrip(s: string)
    ensures Join(SplitLines(s), "\n") == s
  {
    JoinSplitLines(s, "\n");
    ReplaceNewlinesByNewline(s);
  }

  lemma {:induction false} ReplaceNewlinesConcat(a: string, b: string, sep: string)
    ensures ReplaceNewlines(a + b, sep) == ReplaceNewlines(a, sep) + ReplaceNewlines(b, sep)
  {
    if a == [] {
      assert a + b == b;
    } else {
      assert (a + b)[1..] == a[1..] + b;
      ReplaceNewlinesConcat(a[1..], b, sep);
    }
  }

  /** Replacing each newline by a separator that holds exactly one newline keeps the newline count. */
  lemma {:induction false} ReplaceNewlinesCount(s: string, sep: string)
    requires Count(sep, '\n') == 1
    ensures Count(ReplaceNewlines(s, sep), '\n') == Count(s, '\n')
  {
    if s != [] {
      ReplaceNewlinesCount(s[1..], sep);
      var head := if s[0] == '\n' then sep else [s[0]];
      CountConcat(head, ReplaceNewlines(s[1..], sep), '\n');
    }
  }

  /** A piece without a newline, then a newline, starts a new line of the split. */
  lemma {:induction false} SplitLinesAfterLine(x: string, rest: string)
    requires '\n' !in x
    ensures SplitLines(x + "\n" + rest) == [x] + SplitLines(rest)
  {
    var s := x + "\n" + rest;
    if x == [] {
      assert s == "\n" + rest;
      assert s[1..] == rest;
    } else {
      assert s[0] == x[0];
      assert s[1..] == x[1..] + "\n" + rest;
      SplitLinesAfterLine(x[1..], rest);
      assert [x[0]] + x[1..] == x;
    }
  }

  lemma {:induction false} ConcatAppend(a: seq<string>, b: seq<string>)
    ensures Concat(a + b) == Concat(a) + Concat(b)
  {
    if |a| == 0 {
      assert a + b == b;
    } else if |a| == 1 {
      if |b| > 0 {
        assert (a + b)[1..] == b;
      }
    } else {
      assert (a + b)[1..] == a[1..] + b;
      ConcatAppend(a[1..], b);
    }
  }

  /** The text of a single digit `d`. */
  function DigitChar(d: nat): (c: char)
    requires d < 10
    ensures '0' <= c <= '9'
  {
    "0123456789"[d]
  }

  /** The decimal digits of `n`, most significant first, as `${n}` renders a non-negative integer. */
  function Decimal(n: nat): (r: string)
    ensures |r| >= 1
    ensures forall i :: 0 <= i < |r| ==> '0' <= r[i] <= '9'
    ensures |r| > 1 ==> r[0] != '0'
  {
    if n < 10 then [DigitChar(n)] else Decimal(n / 10) + [DigitChar(n % 10)]
  }

  /** The number a string of decimal digits denotes. */
  function DecimalValue(s: string): nat
    requires forall i :: 0 <= i < |s| ==> '0' <= s[i] <= '9'
  {
    if s == [] then 0
    else DecimalValue(s[..|s| - 1]) * 10 + (s[|s| - 1] as int - '0' as int)
  }

  /** Reading back the decimal rendering of `n` gives `n`. */
  lemma {:induction false} DecimalRoundTrip(n: nat)
    ensures DecimalValue(Decimal(n)) == n
  {
    var r := Decimal(n);
    if n >= 10 {
      DecimalRoundTrip(n / 10);
      assert r[..|r| - 1] == Decimal(n / 10);
      assert DigitChar(n % 10) as int - '0' as int == n % 10;
    }
  }
}
