/**
  The handful of Python string operations the source relies on, written out:
  `in` on strings, `startswith`, `replace`, `lower`, `split`, `join` and the
  `str()` rendering of integers and of the one-decimal and three-decimal floats
  the source prints.
 */
module Text {

  /** Python's `s.startswith(prefix)`. */
  predicate StartsWith(s: string, prefix: string) {
    |prefix| <= |s| && s[..|prefix|] == prefix
  }

  /** Python's `sub in s`. */
  predicate Contains(s: string, sub: string)
    decreases |s|
  {
    StartsWith(s, sub) || (|s| > 0 && Contains(s[1..], sub))
  }

  /** An occurrence at a known offset makes `sub in s` true. */
  lemma {:induction false} ContainsAt(s: string, sub: string, i: nat)
    requires i + |sub| <= |s| && s[i..i + |sub|] == sub
    ensures Contains(s, sub)
  {
    if i > 0 {
      assert s[1..][i - 1..i - 1 + |sub|] == s[i..i + |sub|];
      ContainsAt(s[1..], sub, i - 1);
    } else {
      assert s[..|sub|] == sub;
    }
  }

  /** `sub in s` has a witness offset. */
  lemma {:induction false} ContainsIndex(s: string, sub: string) returns (i: nat)
    requires Contains(s, sub)
    ensures i + |sub| <= |s| && s[i..i + |sub|] == sub
    decreases |s|
  {
    if StartsWith(s, sub) {
      i := 0;
    } else {
      var j := ContainsIndex(s[1..], sub);
      assert s[1..][j..j + |sub|] == s[j + 1..j + 1 + |sub|];
      i := j + 1;
    }
  }

  /** A text that lacks one of the pattern's characters does not contain the pattern. */
  lemma {:induction false} MissingChar(s: string, sub: string, c: char)
    requires c in sub && c !in s
    ensures !Contains(s, sub)
    decreases |s|
  {
    var j :| 0 <= j < |sub| && sub[j] == c;
    if |sub| <= |s| {
      assert s[..|sub|][j] == s[j];
    }
    if |s| > 0 {
      MissingChar(s[1..], sub, c);
    }
  }

  /**
    Python's `s.replace(pat, rep)` for a non-empty pattern: occurrences are
    found left to right and do not overlap; the text a replacement produces is
    not scanned again.
   */
  function Replace(s: string, pat: string, rep: string): (r: string)
    requires |pat| > 0
    ensures |rep| <= |pat| ==> |r| <= |s|
    ensures |rep| < |pat| && Contains(s, pat) ==> |r| < |s|
    ensures !Contains(s, pat) ==> r == s
    decreases |s|
  {
    if |s| == 0 then ""
    else if StartsWith(s, pat) then rep + Replace(s[|pat|..], pat, rep)
    else [s[0]] + Replace(s[1..], pat, rep)
  }

  /** A pattern at the front of a text that holds no further occurrence: one replacement. */
  lemma ReplaceLeading(pat: string, rest: string, rep: string)
    requires |pat| > 0 && !Contains(rest, pat)
    ensures Replace(pat + rest, pat, rep) == rep + rest
  {
    var s := pat + rest;
    assert s[..|pat|] == pat && s[|pat|..] == rest;
  }

  /** Replacing one character by another is a pointwise map, and leaves none of the old character behind. */
  lemma {:induction false} ReplaceChar(s: string, c: char, d: char)
    ensures |Replace(s, [c], [d])| == |s|
    ensures forall i :: 0 <= i < |s| ==> Replace(s, [c], [d])[i] == (if s[i] == c then d else s[i])
    ensures c != d ==> !Contains(Replace(s, [c], [d]), [c])
    decreases |s|
  {
    if |s| > 0 {
      ReplaceChar(s[1..], c, d);
      assert StartsWith(s, [c]) <==> s[0] == c;
      var r := Replace(s, [c], [d]);
      assert r == [if s[0] == c then d else s[0]] + Replace(s[1..], [c], [d]);
      if c != d {
        assert !StartsWith(r, [c]);
        assert r[1..] == Replace(s[1..], [c], [d]);
      }
    }
  }

  /**
    The text with every run of spaces shortened to a single space;
    `afterSpace` says whether the text before `s` ended in a space.
   */
  function SquashSpaces(s: string, afterSpace: bool): string
    decreases |s|
  {
    if |s| == 0 then ""
    else if s[0] == ' ' && afterSpace then SquashSpaces(s[1..], true)
    else [s[0]] + SquashSpaces(s[1..], s[0] == ' ')
  }

  /** One pass of `replace('  ', ' ')` does not change what the text squashes to. */
  lemma {:induction false} SquashAfterReplace(s: string, afterSpace: bool)
    ensures SquashSpaces(Replace(s, "  ", " "), afterSpace) == SquashSpaces(s, afterSpace)
    decreases |s|
  {
    if |s| > 0 {
      if StartsWith(s, "  ") {
        var rest := Replace(s[2..], "  ", " ");
        SquashAfterReplace(s[2..], true);
        assert Replace(s, "  ", " ") == " " + rest;
        assert (" " + rest)[1..] == rest;
        assert s[1..][1..] == s[2..];
        assert s[1..][0] == ' ';
      } else {
        SquashAfterReplace(s[1..], s[0] == ' ');
        assert Replace(s, "  ", " ") == [s[0]] + Replace(s[1..], "  ", " ");
        assert ([s[0]] + Replace(s[1..], "  ", " "))[1..] == Replace(s[1..], "  ", " ");
      }
    }
  }

  /** Text without a double space squashes to itself. */
  lemma {:induction false} SquashFixed(s: string, afterSpace: bool)
    requires !Contains(s, "  ")
    requires !(afterSpace && StartsWith(s, " "))
    ensures SquashSpaces(s, afterSpace) == s
    decreases |s|
  {
    if |s| > 0 {
      assert StartsWith(s, "  ") <==> |s| >= 2 && s[0] == ' ' && s[1] == ' ';
      assert StartsWith(s[1..], " ") <==> |s| >= 2 && s[1] == ' ';
      assert StartsWith(s, " ") <==> s[0] == ' ';
      SquashFixed(s[1..], s[0] == ' ');
    }
  }

  /** Squashed text holds no double space, and does not open with a space after a space. */
  lemma {:induction false} SquashHasNoDoubleSpace(s: string, afterSpace: bool)
    ensures !Contains(SquashSpaces(s, afterSpace), "  ")
    ensures afterSpace ==> !StartsWith(SquashSpaces(s, afterSpace), " ")
    decreases |s|
  {
    if |s| > 0 {
      if s[0] == ' ' && afterSpace {
        SquashHasNoDoubleSpace(s[1..], true);
      } else {
        SquashHasNoDoubleSpace(s[1..], s[0] == ' ');
        var r := SquashSpaces(s, afterSpace);
        var rest := SquashSpaces(s[1..], s[0] == ' ');
        assert r == [s[0]] + rest;
        assert r[1..] == rest;
        assert StartsWith(r, "  ") <==> |r| >= 2 && r[0] == ' ' && r[1] == ' ';
        assert StartsWith(rest, " ") <==> |rest| >= 1 && rest[0] == ' ';
        assert |r| >= 2 ==> r[1] == rest[0];
      }
    }
  }

  /** A one-character pattern occurs exactly when the character does. */
  lemma {:induction false} ContainsChar(s: string, c: char)
    ensures Contains(s, [c]) <==> c in s
    decreases |s|
  {
    if |s| > 0 {
      ContainsChar(s[1..], c);
      assert StartsWith(s, [c]) <==> s[0] == c;
      assert c in s <==> s[0] == c || c in s[1..];
    }
  }

  /** Squashing only drops characters. */
  lemma {:induction false} SquashKeepsChars(s: string, afterSpace: bool, c: char)
    requires c in SquashSpaces(s, afterSpace)
    ensures c in s
    decreases |s|
  {
    if s[0] == ' ' && afterSpace {
      SquashKeepsChars(s[1..], true, c);
    } else if c != s[0] {
      SquashKeepsChars(s[1..], s[0] == ' ', c);
    }
  }

  /** Python's `str.lower()` on one character, ASCII letters only. */
  function LowerChar(c: char): char {
    if 'A' <= c <= 'Z' then (c as int + 32) as char else c
  }

  predicate IsLetter(c: char) {
    'A' <= c <= 'Z' || 'a' <= c <= 'z'
  }

  /** Python's `str.lower()`, restricted to ASCII. */
  function Lower(s: string): (r: string)
    ensures |r| == |s|
    ensures forall i :: 0 <= i < |s| ==> r[i] == LowerChar(s[i]) && !('A' <= r[i] <= 'Z')
    decreases |s|
  {
    if |s| == 0 then "" else [LowerChar(s[0])] + Lower(s[1..])
  }

  /** Text without capitals is left alone by `lower()`. */
  lemma LowerFixed(s: string)
    requires forall i :: 0 <= i < |s| ==> !('A' <= s[i] <= 'Z')
    ensures Lower(s) == s
  {
  }

  /** An occurrence of a non-letter pattern in the lowered text is already in the text. */
  lemma LoweredPatternWasThere(s: string, p: string)
    requires forall k :: 0 <= k < |p| ==> !IsLetter(p[k])
    requires Contains(Lower(s), p)
    ensures Contains(s, p)
  {
    var i := ContainsIndex(Lower(s), p);
    var w := s[i..i + |p|];
    forall k | 0 <= k < |p|
      ensures w[k] == p[k]
    {
      var c := s[i + k];
      assert Lower(s)[i + k] == LowerChar(c);
      assert Lower(s)[i..i + |p|][k] == Lower(s)[i + k];
    }
    ContainsAt(s, p, i);
  }

  /** Lowering cannot create an occurrence of a pattern made of non-letters. */
  lemma LowerKeepsNonLetterPatternsOut(s: string, p: string)
    requires forall k :: 0 <= k < |p| ==> !IsLetter(p[k])
    requires !Contains(s, p)
    ensures !Contains(Lower(s), p)
  {
    if Contains(Lower(s), p) {
      LoweredPatternWasThere(s, p);
    }
  }

  /** Python's `sep.join(xs)`. */
  function Join(sep: string, xs: seq<string>): string
    decreases |xs|
  {
    if |xs| == 0 then ""
    else if |xs| == 1 then xs[0]
    else xs[0] + sep + Join(sep, xs[1..])
  }

  /** Python's `s.split(c)` for a one-character separator. */
  function Split(s: string, c: char): (r: seq<string>)
    ensures |r| >= 1
    ensures forall i :: 0 <= i < |r| ==> c !in r[i]
    ensures Join([c], r) == s
    decreases |s|
  {
    if |s| == 0 then [""]
    else
      var rest := Split(s[1..], c);
      if s[0] == c then
        assert Join([c], [""] + rest) == [c] + Join([c], rest);
        [""] + rest
      else
        var r := [[s[0]] + rest[0]] + rest[1..];
        assert Join([c], r) == [s[0]] + Join([c], rest) by {
          if |rest| > 1 {
            assert r[1..] == rest[1..];
          }
        }
        r
  }

  /** A text holding the separator splits into at least two pieces, so `split(c)[1]` exists. */
  lemma {:induction false} SplitAtLeastTwo(s: string, c: char)
    requires c in s
    ensures |Split(s, c)| >= 2
    decreases |s|
  {
    if s[0] != c {
      assert c in s[1..];
      SplitAtLeastTwo(s[1..], c);
    }
  }

  lemma {:induction false} SplitNoSeparator(x: string, c: char)
    requires c !in x
    ensures Split(x, c) == [x]
    decreases |x|
  {
    if |x| > 0 {
      SplitNoSeparator(x[1..], c);
      assert [x[0]] + x[1..] == x;
    }
  }

  lemma {:induction false} SplitAfterPiece(x: string, y: string, c: char)
    requires c !in x
    ensures Split(x + [c] + y, c) == [x] + Split(y, c)
    decreases |x|
  {
    var s := x + [c] + y;
    if |x| == 0 {
      assert s[1..] == y;
    } else {
      assert s[1..] == x[1..] + [c] + y;
      SplitAfterPiece(x[1..], y, c);
      assert [x[0]] + x[1..] == x;
    }
  }

  /** Splitting a joined list gives the list back when no piece holds the separator. */
  lemma {:induction false} SplitJoin(xs: seq<string>, c: char)
    requires |xs| > 0
    requires forall i :: 0 <= i < |xs| ==> c !in xs[i]
    ensures Split(Join([c], xs), c) == xs
    decreases |xs|
  {
    if |xs| == 1 {
      SplitNoSeparator(xs[0], c);
    } else {
      SplitJoin(xs[1..], c);
      SplitAfterPiece(xs[0], Join([c], xs[1..]), c);
      assert [xs[0]] + xs[1..] == xs;
    }
  }

  predicate IsDigit(c: char) {
    '0' <= c <= '9'
  }

  function DigitChar(d: nat): (c: char)
    requires d < 10
    ensures IsDigit(c)
  {
    ('0' as int + d) as char
  }

  /** Python's `str(n)` for a non-negative integer. */
  function NatText(n: nat): (r: string)
    ensures |r| > 0
    ensures forall i :: 0 <= i < |r| ==> IsDigit(r[i])
    decreases n
  {
    if n < 10 then [DigitChar(n)] else NatText(n / 10) + [DigitChar(n % 10)]
  }

  /** The value of a string of decimal digits. */
  function DigitsValue(s: string): nat
    requires forall i :: 0 <= i < |s| ==> IsDigit(s[i])
    decreases |s|
  {
    if |s| == 0 then 0
    else
      assert IsDigit(s[|s| - 1]);
      DigitsValue(s[..|s| - 1]) * 10 + (s[|s| - 1] as int - '0' as int)
  }

  /** Reading back what `NatText` writes gives the number. */
  lemma {:induction false} NatTextRoundTrip(n: nat)
    ensures DigitsValue(NatText(n)) == n
    decreases n
  {
    var r := NatText(n);
    if n >= 10 {
      NatTextRoundTrip(n / 10);
      assert r[..|r| - 1] == NatText(n / 10);
    }
  }

  /** Python's `str(i)` (and an f-string's `{i}`) for an integer. */
  function IntText(i: int): string {
    if i < 0 then "-" + NatText(-i) else NatText(i)
  }

  /** A printed integer opens with a minus sign exactly when it is negative. */
  lemma IntTextSign(i: int)
    ensures IntText(i)[0] == '-' <==> i < 0
  {
    if i >= 0 {
      assert IsDigit(NatText(i)[0]);
    }
  }

  /** Different integers print differently. */
  lemma IntTextInjective(i: int, j: int)
    requires IntText(i) == IntText(j)
    ensures i == j
  {
    IntTextSign(i);
    IntTextSign(j);
    if i < 0 {
      assert NatText(-i) == IntText(i)[1..] == IntText(j)[1..] == NatText(-j);
      NatTextRoundTrip(-i);
      NatTextRoundTrip(-j);
    } else {
      NatTextRoundTrip(i);
      NatTextRoundTrip(j);
    }
  }

  /** A printed integer holds no underscore, which keeps the `_`-separated node names apart. */
  lemma IntTextHasNoUnderscore(i: int)
    ensures '_' !in IntText(i)
  {
    var r := IntText(i);
    if i < 0 {
      assert forall k :: 1 <= k < |r| ==> r[k] == NatText(-i)[k - 1];
    }
  }

  /** Python's `str(t / 10)` for a float that holds a whole number of tenths. */
  function TenthsText(t: int): string {
    var a := if t < 0 then -t else t;
    (if t < 0 then "-" else "") + NatText(a / 10) + "." + [DigitChar(a % 10)]
  }

  /**
    Python's `str(m / 1000.0)` for a non-negative whole number of thousandths
    below 10^15; from there on the float no longer holds the exact value, and
    from 10^19 Python prints an exponent.
   */
  function MilliText(m: nat): string {
    var f := m % 1000;
    var frac :=
      if f % 100 == 0 then [DigitChar(f / 100)]
      else if f % 10 == 0 then [DigitChar(f / 100), DigitChar(f / 10 % 10)]
      else [DigitChar(f / 100), DigitChar(f / 10 % 10), DigitChar(f % 10)];
    NatText(m / 1000) + "." + frac
  }
}
