/**
 * The Python `str` operations the modelled code relies on, over `seq<char>`.
 * Case mapping covers ASCII letters only; whitespace is the full set that
 * Python's `str.isspace` accepts.
 */
module Strings {
  import opened Wrappers

  /** `c.isspace()` in Python. */
  predicate IsSpace(c: char) {
    c == ' ' || ('\t' <= c <= '\r') || ('\U{1C}' <= c <= '\U{1F}') || c == '\U{85}' || c == '\U{A0}'
    || c == '\U{1680}' || ('\U{2000}' <= c <= '\U{200A}') || c == '\U{2028}' || c == '\U{2029}'
    || c == '\U{202F}' || c == '\U{205F}' || c == '\U{3000}'
  }

  predicate IsDigit(c: char) { '0' <= c <= '9' }

  predicate IsUpperLetter(c: char) { 'A' <= c <= 'Z' }

  predicate IsLowerLetter(c: char) { 'a' <= c <= 'z' }

  predicate IsLetter(c: char) { IsUpperLetter(c) || IsLowerLetter(c) }

  /** A character of the regular-expression class `\w`. */
  predicate IsWordChar(c: char) { IsLetter(c) || IsDigit(c) || c == '_' }

  predicate AllDigits(s: string) { forall i :: 0 <= i < |s| ==> IsDigit(s[i]) }

  predicate StartsWith(s: string, p: string) { |p| <= |s| && s[..|p|] == p }

  lemma StartsWithConcat(p: string, rest: string)
    ensures StartsWith(p + rest, p)
  {
    assert (p + rest)[..|p|] == p;
  }

  /** `t in s`: `t` occurs somewhere in `s`. */
  predicate Contains(s: string, t: string)
    decreases |s|
  {
    StartsWith(s, t) || (|s| > 0 && Contains(s[1..], t))
  }

  lemma {:induction false} ContainsAt(s: string, t: string, i: nat)
    requires i <= |s| && StartsWith(s[i..], t)
    ensures Contains(s, t)
    decreases i
  {
    if i > 0 {
      assert s[1..][i - 1..] == s[i..];
      ContainsAt(s[1..], t, i - 1);
    }
  }

  /** `s.find(t)`: the first index at which `t` occurs, or -1. */
  function Find(s: string, t: string): (r: int)
    ensures -1 <= r <= |s|
    ensures r == -1 <==> !Contains(s, t)
    ensures r >= 0 ==> StartsWith(s[r..], t)
    ensures r >= 0 ==> forall j :: 0 <= j < r ==> !StartsWith(s[j..], t)
    decreases |s|
  {
    if StartsWith(s, t) then 0
    else if |s| == 0 then -1
    else
      var k := Find(s[1..], t);
      if k == -1 then -1
      else
        assert s[k + 1..] == s[1..][k..];
        assert forall j :: 1 <= j < k + 1 ==> s[j..] == s[1..][j - 1..];
        k + 1
  }

  /** The first index of character `c` in `s`, or -1. */
  function IndexOf(s: string, c: char): (r: int)
    ensures -1 <= r < |s|
    ensures r == -1 <==> c !in s
    ensures r >= 0 ==> s[r] == c && c !in s[..r]
    decreases |s|
  {
    if |s| == 0 then -1
    else if s[0] == c then 0
    else
      var k := IndexOf(s[1..], c);
      if k == -1 then -1
      else
        assert s[..k + 1] == [s[0]] + s[1..][..k];
        k + 1
  }

  /** `s.rfind(c)` for a single character: the last index of `c`, or -1. */
  function RFind(s: string, c: char): (r: int)
    ensures -1 <= r < |s|
    ensures r == -1 <==> c !in s
    ensures r >= 0 ==> s[r] == c && c !in s[r + 1..]
    decreases |s|
  {
    if |s| == 0 then -1
    else if s[|s| - 1] == c then |s| - 1
    else
      var init := s[..|s| - 1];
      var k := RFind(init, c);
      assert s == init + [s[|s| - 1]];
      if k >= 0 then assert s[k + 1..] == init[k + 1..] + [s[|s| - 1]]; k
      else k
  }

  /** `s.strip().startswith(p)`, read as: skip the leading whitespace, then compare. */
  predicate StrippedStartsWith(s: string, p: string)
    decreases |s|
  {
    if |s| > 0 && IsSpace(s[0]) then StrippedStartsWith(s[1..], p) else StartsWith(s, p)
  }

  /** For a prefix without whitespace, the reading above is `strip()` followed by `startswith`. */
  lemma {:induction false} StrippedStartsWithSpec(s: string, p: string)
    requires forall i :: 0 <= i < |p| ==> !IsSpace(p[i])
    ensures StrippedStartsWith(s, p) <==> StartsWith(Strip(s), p)
    decreases |s|
  {
    if |s| > 0 && IsSpace(s[0]) {
      StrippedStartsWithSpec(s[1..], p);
      assert LStrip(s) == LStrip(s[1..]);
    } else {
      assert LStrip(s) == s;
      assert Strip(s) == RStrip(s);
      RStripStartsWith(s, p);
    }
  }

  /** Trailing whitespace does not affect a prefix without whitespace. */
  lemma RStripStartsWith(s: string, p: string)
    requires forall i :: 0 <= i < |p| ==> !IsSpace(p[i])
    ensures StartsWith(s, p) <==> StartsWith(RStrip(s), p)
  {
    var r := RStrip(s);
    if StartsWith(s, p) && |p| > 0 {
      assert s[|p| - 1] == p[|p| - 1];
      RStripKeeps(s, |p| - 1);
      assert r[..|p|] == s[..|p|];
    }
    if StartsWith(r, p) {
      assert s[..|p|] == r[..|p|];
    }
  }

  /** `s.lstrip()`. */
  function LStrip(s: string): (r: string)
    ensures |r| <= |s| && r == s[|s| - |r|..]
    ensures |r| > 0 ==> !IsSpace(r[0])
    ensures forall i :: 0 <= i < |s| - |r| ==> IsSpace(s[i])
    decreases |s|
  {
    if |s| > 0 && IsSpace(s[0]) then LStrip(s[1..]) else s
  }

  /** `s.rstrip()`. */
  function RStrip(s: string): (r: string)
    ensures |r| <= |s| && r == s[..|r|]
    ensures |r| > 0 ==> !IsSpace(r[|r| - 1])
    ensures forall i :: |r| <= i < |s| ==> IsSpace(s[i])
    decreases |s|
  {
    if |s| > 0 && IsSpace(s[|s| - 1]) then RStrip(s[..|s| - 1]) else s
  }

  /** `rstrip` keeps every character up to the last one that is not whitespace. */
  lemma RStripKeeps(s: string, k: nat)
    requires k < |s| && !IsSpace(s[k])
    ensures |RStrip(s)| > k
  {
  }

  /** One step of `lstrip` and `rstrip`: an end that is not whitespace stays, one that is goes. */
  lemma StripSteps(s: string)
    requires |s| > 0
    ensures !IsSpace(s[0]) ==> LStrip(s) == s
    ensures IsSpace(s[0]) ==> LStrip(s) == LStrip(s[1..])
    ensures !IsSpace(s[|s| - 1]) ==> RStrip(s) == s
    ensures IsSpace(s[|s| - 1]) ==> RStrip(s) == RStrip(s[..|s| - 1])
  {
  }

  /** A string that does not end in whitespace is its own `rstrip()`. */
  lemma RStripKept(s: string)
    requires |s| > 0 && !IsSpace(s[|s| - 1])
    ensures RStrip(s) == s
  {
  }

  /** `s.strip()`. */
  function Strip(s: string): (r: string)
    ensures |r| <= |s|
    ensures |r| > 0 ==> !IsSpace(r[0]) && !IsSpace(r[|r| - 1])
    ensures forall c :: c in r ==> c in s
  {
    RStrip(LStrip(s))
  }

  /** A string with no whitespace at either end is its own `strip()`. */
  lemma StripNoop(s: string)
    requires |s| == 0 || (!IsSpace(s[0]) && !IsSpace(s[|s| - 1]))
    ensures Strip(s) == s
  {
  }

  /** `s.strip()` is empty exactly when `s` is all whitespace. */
  lemma {:induction false} StripEmpty(s: string)
    ensures Strip(s) == [] <==> forall i :: 0 <= i < |s| ==> IsSpace(s[i])
  {
    var l := LStrip(s);
    if |l| > 0 {
      assert !IsSpace(l[0]);
      assert RStrip(l) != [] by {
        RStripKeepsNonSpace(l, 0);
      }
      assert !IsSpace(s[|s| - |l|]);
    }
  }

  lemma {:induction false} RStripKeepsNonSpace(s: string, i: nat)
    requires i < |s| && !IsSpace(s[i])
    ensures i < |RStrip(s)|
  {
  }

  function LowerChar(c: char): char {
    if IsUpperLetter(c) then (c as int + 32) as char else c
  }

  function UpperChar(c: char): char {
    if IsLowerLetter(c) then (c as int - 32) as char else c
  }

  /** `s.lower()` on ASCII letters. */
  function Lower(s: string): (r: string)
    ensures |r| == |s|
  {
    seq(|s|, i requires 0 <= i < |s| => LowerChar(s[i]))
  }

  /** `s.upper()` on ASCII letters. */
  function Upper(s: string): (r: string)
    ensures |r| == |s|
  {
    seq(|s|, i requires 0 <= i < |s| => UpperChar(s[i]))
  }

  /** Upper-casing twice changes nothing more than upper-casing once. */
  lemma UpperIdempotent(s: string)
    ensures Upper(Upper(s)) == Upper(s)
  {
    assert forall i :: 0 <= i < |s| ==> UpperChar(UpperChar(s[i])) == UpperChar(s[i]);
  }

  /** Lower-casing twice changes nothing more than lower-casing once. */
  lemma LowerIdempotent(s: string)
    ensures Lower(Lower(s)) == Lower(s)
  {
    assert forall i :: 0 <= i < |s| ==> LowerChar(LowerChar(s[i])) == LowerChar(s[i]);
  }

  /** `s.title()`: a letter is upper-cased after a non-letter and lower-cased after a letter. */
  function Title(s: string): string {
    TitleAfter(s, false)
  }

  function TitleAfter(s: string, prevLetter: bool): (r: string)
    ensures |r| == |s|
    decreases |s|
  {
    if |s| == 0 then ""
    else
      var c := s[0];
      [if !IsLetter(c) then c else if prevLetter then LowerChar(c) else UpperChar(c)]
        + TitleAfter(s[1..], IsLetter(c))
  }

  /** `s.replace(a, b)` for single characters. */
  function ReplaceChar(s: string, a: char, b: char): (r: string)
    ensures |r| == |s|
    ensures a != b ==> a !in r
  {
    seq(|s|, i requires 0 <= i < |s| => if s[i] == a then b else s[i])
  }

  /** `s.replace(pat, rep)` for a non-empty `pat`: every occurrence, left to right. */
  function ReplaceAll(s: string, pat: string, rep: string): string
    requires |pat| > 0
    decreases |s|
  {
    if |s| < |pat| then s
    else if StartsWith(s, pat) then rep + ReplaceAll(s[|pat|..], pat, rep)
    else [s[0]] + ReplaceAll(s[1..], pat, rep)
  }

  /** `s.replace(pat, rep, 1)`: only the first occurrence. */
  function ReplaceFirst(s: string, pat: string, rep: string): string {
    var i := Find(s, pat);
    if i < 0 then s else s[..i] + rep + s[i + |pat|..]
  }

  /** When `s` starts with `pat`, the first occurrence is the prefix itself. */
  lemma ReplaceFirstPrefix(s: string, pat: string, rep: string)
    requires StartsWith(s, pat)
    ensures ReplaceFirst(s, pat, rep) == rep + s[|pat|..]
  {
  }

  /** `s[:n]`. */
  function Take(s: string, n: nat): (r: string)
    ensures |r| <= n && |r| <= |s|
    ensures r == s[..|r|]
    ensures |s| <= n ==> r == s
  {
    if |s| <= n then s else s[..n]
  }

  /** `s.split(sep)` for a single-character separator. */
  function Split(s: string, sep: char): (r: seq<string>)
    ensures |r| >= 1
    ensures forall k :: 0 <= k < |r| ==> sep !in r[k]
    decreases |s|
  {
    var i := IndexOf(s, sep);
    if i < 0 then [s] else [s[..i]] + Split(s[i + 1..], sep)
  }

  /** `sep.join(parts)`. */
  function Join(parts: seq<string>, sep: string): string {
    if |parts| == 0 then ""
    else if |parts| == 1 then parts[0]
    else parts[0] + sep + Join(parts[1..], sep)
  }

  /** Joining the pieces of a split with its separator gives the string back. */
  lemma {:induction false} JoinSplit(s: string, sep: char)
    ensures Join(Split(s, sep), [sep]) == s
    decreases |s|
  {
    var i := IndexOf(s, sep);
    if i >= 0 {
      var rest := Split(s[i + 1..], sep);
      JoinSplit(s[i + 1..], sep);
      JoinCons(s[..i], rest, [sep]);
      assert s == s[..i] + [sep] + s[i + 1..];
    }
  }

  lemma JoinCons(a: string, rest: seq<string>, sep: string)
    requires |rest| >= 1
    ensures Join([a] + rest, sep) == a + sep + Join(rest, sep)
  {
    assert ([a] + rest)[1..] == rest;
  }

  /** A character of a join is a character of the separator or of one of the parts. */
  lemma {:induction false} JoinChars(parts: seq<string>, sep: string, c: char)
    requires c in Join(parts, sep)
    ensures c in sep || exists k :: 0 <= k < |parts| && c in parts[k]
    decreases |parts|
  {
    if |parts| > 1 {
      var rest := Join(parts[1..], sep);
      if c !in parts[0] && c !in sep {
        assert c in rest;
        JoinChars(parts[1..], sep, c);
        var k :| 0 <= k < |parts| - 1 && c in parts[1..][k];
        assert c in parts[k + 1];
      }
    }
  }

  /** The first index of `c` is the one before which `c` does not occur. */
  lemma IndexOfAt(s: string, c: char, i: nat)
    requires i < |s| && s[i] == c && c !in s[..i]
    ensures IndexOf(s, c) == i
  {
  }

  /** A string with one more piece after a last separator splits into one more piece. */
  lemma {:induction false} SplitSnoc(b: string, c: string, sep: char)
    requires sep !in c
    ensures Split(b + [sep] + c, sep) == Split(b, sep) + [c]
    decreases |b|
  {
    var s := b + [sep] + c;
    var i := IndexOf(b, sep);
    if i < 0 {
      assert s[..|b|] == b;
      IndexOfAt(s, sep, |b|);
      assert s[|b| + 1..] == c;
      assert Split(s, sep) == [b] + Split(c, sep);
      assert Split(c, sep) == [c];
    } else {
      assert s[..i] == b[..i];
      IndexOfAt(s, sep, i);
      var rest := b[i + 1..];
      assert s[i + 1..] == rest + [sep] + c;
      assert Split(s, sep) == [b[..i]] + Split(rest + [sep] + c, sep);
      SplitSnoc(rest, c, sep);
      assert Split(b, sep) == [b[..i]] + Split(rest, sep);
    }
  }

  /** A first piece without the separator, then the separator: the split starts with that piece. */
  lemma SplitCons(a: string, b: string, sep: char)
    requires sep !in a
    ensures Split(a + [sep] + b, sep) == [a] + Split(b, sep)
  {
    var s := a + [sep] + b;
    assert s[..|a|] == a;
    IndexOfAt(s, sep, |a|);
    assert s[|a| + 1..] == b;
  }

  /**
   * `t` does not occur in `s` when `s` holds the character `t[k]` at no
   * index but `j0`, and `t` does not start at `j0 - k`.
   */
  lemma {:induction false} NotContainsByChar(s: string, t: string, k: nat, j0: int)
    requires k < |t|
    requires forall j :: 0 <= j < |s| && s[j] == t[k] ==> j == j0
    requires 0 <= j0 - k <= |s| ==> !StartsWith(s[j0 - k..], t)
    ensures !Contains(s, t)
    decreases |s|
  {
    if |s| > 0 {
      forall j | 0 <= j < |s| - 1 && s[1..][j] == t[k]
        ensures j == j0 - 1
      {
        assert s[1..][j] == s[j + 1];
      }
      if 0 <= j0 - 1 - k <= |s| - 1 {
        assert s[1..][j0 - 1 - k..] == s[j0 - k..];
      }
      NotContainsByChar(s[1..], t, k, j0 - 1);
      assert s[0..] == s;
      if StartsWith(s, t) {
        StartsWithIndex(s, t, k);
      }
    }
  }

  lemma StartsWithIndex(s: string, t: string, k: nat)
    requires StartsWith(s, t) && k < |t|
    ensures s[k] == t[k]
  {
    assert s[..|t|][k] == s[k];
  }

  /** A pattern with a character the string lacks does not occur in it. */
  lemma NotContainsChar(s: string, t: string, k: nat)
    requires k < |t| && t[k] !in s
    ensures !Contains(s, t)
  {
    NotContainsByChar(s, t, k, -1);
  }

  /** With no occurrence of the pattern, `replace` changes nothing. */
  lemma {:induction false} ReplaceAllAbsent(s: string, pat: string, rep: string)
    requires |pat| > 0 && !Contains(s, pat)
    ensures ReplaceAll(s, pat, rep) == s
    decreases |s|
  {
    if |s| >= |pat| {
      ReplaceAllAbsent(s[1..], pat, rep);
      assert [s[0]] + s[1..] == s;
    }
  }

  /** Stripping a string with no whitespace at its ends after one leading space gives the string. */
  lemma StripSpaced(s: string)
    requires |s| > 0 && !IsSpace(s[0]) && !IsSpace(s[|s| - 1])
    ensures Strip(" " + s) == s
  {
    assert (" " + s)[1..] == s;
    assert LStrip(" " + s) == LStrip(s) == s;
  }

  /** What occurs in `y` occurs in any string around it. */
  lemma ContainsExtend(x: string, y: string, z: string, t: string)
    requires Contains(y, t)
    ensures Contains(x + y + z, t)
  {
    var i := Find(y, t);
    assert (x + y + z)[|x| + i..] == y[i..] + z;
    assert (y[i..] + z)[..|t|] == y[i..][..|t|];
    ContainsAt(x + y + z, t, |x| + i);
  }

  /** Every part of a join occurs in it. */
  lemma {:induction false} JoinContains(parts: seq<string>, sep: string, k: nat)
    requires k < |parts|
    ensures Contains(Join(parts, sep), parts[k])
    decreases |parts|
  {
    assert StartsWith(parts[k], parts[k]);
    if |parts| == 1 {
    } else if k == 0 {
      ContainsExtend("", parts[0], sep + Join(parts[1..], sep), parts[0]);
      assert "" + parts[0] + (sep + Join(parts[1..], sep)) == Join(parts, sep);
    } else {
      JoinContains(parts[1..], sep, k - 1);
      ContainsExtend(parts[0] + sep, Join(parts[1..], sep), "", parts[k]);
      assert parts[0] + sep + Join(parts[1..], sep) + "" == Join(parts, sep);
    }
  }

  /** The longest prefix of `s` without whitespace. */
  function TakeWord(s: string): (r: string)
    ensures |r| <= |s| && r == s[..|r|]
    ensures forall i :: 0 <= i < |r| ==> !IsSpace(r[i])
    ensures |r| < |s| ==> IsSpace(s[|r|])
    decreases |s|
  {
    if |s| == 0 || IsSpace(s[0]) then "" else [s[0]] + TakeWord(s[1..])
  }

  /** `s.split()`: the maximal runs of non-whitespace characters. */
  function Words(s: string): (r: seq<string>)
    ensures forall k :: 0 <= k < |r| ==> |r[k]| > 0
    decreases |s|
  {
    var t := LStrip(s);
    if |t| == 0 then []
    else
      var w := TakeWord(t);
      [w] + Words(t[|w|..])
  }

  /** `c * n`. */
  function Repeat(c: char, n: nat): (r: string)
    ensures |r| == n && forall i :: 0 <= i < n ==> r[i] == c
  {
    seq(n, i => c)
  }

  /** `s.zfill(width)` for an unsigned digit string. */
  function ZFill(s: string, width: nat): (r: string)
    ensures |r| == if |s| >= width then |s| else width
  {
    if |s| >= width then s else Repeat('0', width - |s|) + s
  }

  function DigitChar(d: nat): (c: char)
    requires d < 10
    ensures IsDigit(c)
  {
    ('0' as int + d) as char
  }

  function DigitValue(c: char): nat
    requires IsDigit(c)
  {
    c as int - '0' as int
  }

  /** `str(n)` for a natural number. */
  function NatToString(n: nat): (r: string)
    ensures |r| >= 1 && AllDigits(r)
    decreases n
  {
    if n < 10 then [DigitChar(n)] else NatToString(n / 10) + [DigitChar(n % 10)]
  }

  /** `str(i)` for an integer. */
  function IntToString(i: int): string {
    if i < 0 then "-" + NatToString(-i) else NatToString(i)
  }

  /** The value of a string of decimal digits. */
  function DigitsValue(s: string): nat
    requires AllDigits(s)
    decreases |s|
  {
    if |s| == 0 then 0 else DigitsValue(s[..|s| - 1]) * 10 + DigitValue(s[|s| - 1])
  }

  /** Reading back the digits that `str` writes gives the number. */
  lemma {:induction false} DigitsValueOfNat(n: nat)
    ensures DigitsValue(NatToString(n)) == n
    decreases n
  {
    if n >= 10 {
      DigitsValueOfNat(n / 10);
      var s := NatToString(n);
      assert s[..|s| - 1] == NatToString(n / 10);
    }
  }

  function Pow10(k: nat): (r: real)
    ensures r >= 1.0
  {
    if k == 0 then 1.0 else 10.0 * Pow10(k - 1)
  }

  /** An optional leading sign: the factor it stands for and the rest of the text. */
  function Sign(s: string): (int, string) {
    if |s| > 0 && s[0] == '-' then (-1, s[1..])
    else if |s| > 0 && s[0] == '+' then (1, s[1..])
    else (1, s)
  }

  /** `int(s)` for a string: optional whitespace and sign around decimal digits. */
  function ParseInt(s: string): Option<int> {
    var (sign, body) := Sign(Strip(s));
    if |body| > 0 && AllDigits(body) then Some(sign * DigitsValue(body)) else None
  }

  /** `float(s)` for a string in plain decimal notation, such as "0.85", "-3" or ".5". */
  function ParseDecimal(s: string): Option<real> {
    var (sign, body) := Sign(Strip(s));
    var dot := IndexOf(body, '.');
    var whole := if dot < 0 then body else body[..dot];
    var frac := if dot < 0 then "" else body[dot + 1..];
    if |whole| + |frac| > 0 && AllDigits(whole) && AllDigits(frac) then
      Some(sign as real * (DigitsValue(whole) as real + DigitsValue(frac) as real / Pow10(|frac|)))
    else None
  }
}
