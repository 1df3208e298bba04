/** The Python `str` operations the client and the dashboard rely on, each with
    the meaning CPython gives it: `strip()`, `find()`, `in`, slicing with
    negative and out-of-range bounds, `split(c)[0]`, `lower()` and `str(int)`. */
module Text {

  /** The characters `str.isspace()` accepts, which `str.strip()` removes. */
  predicate IsSpace(c: char) {
    || c == ' '
    || ('\t' <= c <= '\r')
    || ('\U{1C}' <= c <= '\U{1F}')
    || c == '\U{85}' || c == '\U{A0}' || c == '\U{1680}'
    || ('\U{2000}' <= c <= '\U{200A}')
    || c == '\U{2028}' || c == '\U{2029}' || c == '\U{202F}' || c == '\U{205F}' || c == '\U{3000}'
  }

  ghost predicate AllSpace(s: string) {
    forall i :: 0 <= i < |s| ==> IsSpace(s[i])
  }

  /** `s.lstrip()`: `s` without its leading whitespace. */
  function StripLeft(s: string): (r: string)
    ensures |r| <= |s|
    ensures r != "" ==> !IsSpace(r[0])
  {
    if s != "" && IsSpace(s[0]) then StripLeft(s[1..]) else s
  }

  /** `s.rstrip()`: `s` without its trailing whitespace. */
  function StripRight(s: string): (r: string)
    ensures |r| <= |s|
    ensures r != "" ==> !IsSpace(r[|r| - 1])
  {
    if s != "" && IsSpace(s[|s| - 1]) then StripRight(s[..|s| - 1]) else s
  }

  /** `s.strip()`: `s` without its leading and trailing whitespace. */
  function Strip(s: string): (r: string)
    ensures |r| <= |s|
    ensures r != "" ==> !IsSpace(r[0]) && !IsSpace(r[|r| - 1])
  {
    var t := StripLeft(s);
    StripRightShape(t);
    StripRight(t)
  }

  /** What `lstrip` removes is a run of whitespace at the front. */
  lemma {:induction false} StripLeftShape(s: string)
    ensures var r := StripLeft(s);
            && r == s[|s| - |r|..]
            && AllSpace(s[..|s| - |r|])
    decreases |s|
  {
    if s != "" && IsSpace(s[0]) {
      StripLeftShape(s[1..]);
      var r := StripLeft(s);
      assert s[..|s| - |r|] == [s[0]] + s[1..][..|s| - 1 - |r|];
    }
  }

  /** What `rstrip` removes is a run of whitespace at the back. */
  lemma {:induction false} StripRightShape(s: string)
    ensures var r := StripRight(s);
            && r == s[..|r|]
            && AllSpace(s[|r|..])
    decreases |s|
  {
    if s != "" && IsSpace(s[|s| - 1]) {
      StripRightShape(s[..|s| - 1]);
      var r := StripRight(s);
      assert s[|r|..] == s[..|s| - 1][|r|..] + [s[|s| - 1]];
    }
  }

  /** A string strips to nothing exactly when it is all whitespace, which is
      when Python finds it falsy after `strip()`. */
  lemma StripEmptyIffBlank(s: string)
    ensures Strip(s) == "" <==> AllSpace(s)
  {
    var t := StripLeft(s);
    StripLeftShape(s);
    StripRightShape(t);
    if Strip(s) == "" {
      assert t == t[|Strip(s)|..];
      assert s == s[..|s| - |t|] + t;
    } else {
      assert !IsSpace(Strip(s)[0]);
      assert Strip(s)[0] == s[|s| - |t|];
    }
  }

  /** Stripping a string that ends in whitespace gives what stripping the part
      before that whitespace gives. */
  lemma {:induction false} StripRightSpaceSuffix(x: string, y: string)
    requires AllSpace(y)
    ensures StripRight(x + y) == StripRight(x)
    decreases |y|
  {
    if y != "" {
      assert (x + y)[..|x + y| - 1] == x + y[..|y| - 1];
      StripRightSpaceSuffix(x, y[..|y| - 1]);
    } else {
      assert x + y == x;
    }
  }

  lemma {:induction false} StripLeftSpacePrefix(x: string, y: string)
    requires AllSpace(x)
    ensures StripLeft(x + y) == StripLeft(y)
    decreases |x|
  {
    if x != "" {
      assert (x + y)[1..] == x[1..] + y;
      StripLeftSpacePrefix(x[1..], y);
    } else {
      assert x + y == y;
    }
  }

  /** A leading space makes no difference to `strip()`. */
  lemma StripSpacePrefix(x: string)
    ensures Strip(" " + x) == Strip(x)
  {
    StripLeftSpacePrefix(" ", x);
  }

  /** A string with no whitespace at either end strips to itself. */
  lemma StripUnpadded(s: string)
    requires s != "" && !IsSpace(s[0]) && !IsSpace(s[|s| - 1])
    ensures Strip(s) == s
  {
    assert StripLeft(s) == s;
  }

  /** When `x` holds something other than whitespace, stripping the left of
      `x + y` only ever touches `x`. */
  lemma {:induction false} StripLeftConcat(x: string, y: string)
    requires !AllSpace(x)
    ensures StripLeft(x + y) == StripLeft(x) + y
    decreases |x|
  {
    assert x != "";
    if IsSpace(x[0]) {
      assert (x + y)[1..] == x[1..] + y;
      StripLeftConcat(x[1..], y);
    }
  }

  lemma {:induction false} StripRightConcat(x: string, y: string)
    requires !AllSpace(y)
    ensures StripRight(x + y) == x + StripRight(y)
    decreases |y|
  {
    assert y != "";
    if IsSpace(y[|y| - 1]) {
      assert (x + y)[..|x + y| - 1] == x + y[..|y| - 1];
      StripRightConcat(x, y[..|y| - 1]);
    }
  }

  /** `pat` occurs in `s` at index `i`. */
  predicate MatchesAt(s: string, pat: string, i: int) {
    0 <= i && i + |pat| <= |s| && s[i..i + |pat|] == pat
  }

  /** `s.find(pat, start)`: the first index at or after `start` where `pat`
      occurs, or -1 when there is none. */
  function Find(s: string, pat: string, start: nat): (r: int)
    ensures r == -1 || (start <= r && MatchesAt(s, pat, r))
    ensures r == -1 ==> forall i :: start <= i ==> !MatchesAt(s, pat, i)
    ensures r != -1 ==> forall i :: start <= i < r ==> !MatchesAt(s, pat, i)
    decreases |s| - start
  {
    if start + |pat| > |s| then -1
    else if s[start..start + |pat|] == pat then start
    else Find(s, pat, start + 1)
  }

  /** `pat in s` for strings. */
  predicate Contains(s: string, pat: string) {
    Find(s, pat, 0) != -1
  }

  lemma ContainsIffOccurs(s: string, pat: string)
    ensures Contains(s, pat) <==> exists i :: MatchesAt(s, pat, i)
  {
    if !Contains(s, pat) {
      forall i ensures !MatchesAt(s, pat, i) {
        if i >= 0 {
          assert !MatchesAt(s, pat, i);
        }
      }
    }
  }

  /** Python's normalisation of one slice bound against a length `n`. */
  function SliceBound(i: int, n: nat): (b: nat)
    ensures b <= n
  {
    if i < 0 then (if i + n < 0 then 0 else i + n)
    else if i > n then n
    else i
  }

  /** `s[i:j]` with Python's rules for negative and out-of-range bounds. */
  function Slice(s: string, i: int, j: int): string {
    var a := SliceBound(i, |s|);
    var b := SliceBound(j, |s|);
    if a < b then s[a..b] else ""
  }

  /** `s.split(c)[0]`: the text before the first `c`, or all of `s`. */
  function BeforeFirst(s: string, c: char): (r: string)
    ensures r <= s
    ensures c !in r
    ensures |r| < |s| ==> s[|r|] == c
  {
    if s == "" || s[0] == c then "" else [s[0]] + BeforeFirst(s[1..], c)
  }

  /** `(x + c + y).split(c)[0]` is `x` when `x` holds no `c`. */
  lemma {:induction false} BeforeFirstAt(x: string, c: char, y: string)
    requires c !in x
    ensures BeforeFirst(x + [c] + y, c) == x
    decreases |x|
  {
    if x != "" {
      assert (x + [c] + y)[1..] == x[1..] + [c] + y;
      BeforeFirstAt(x[1..], c, y);
      assert x == [x[0]] + x[1..];
    }
  }

  function LowerChar(c: char): char {
    if 'A' <= c <= 'Z' then (c as int + 32) as char else c
  }

  /** `s.lower()` for the ASCII letters. */
  function Lower(s: string): (r: string)
    ensures |r| == |s|
    ensures forall i :: 0 <= i < |s| ==> r[i] == LowerChar(s[i])
  {
    if s == "" then "" else [LowerChar(s[0])] + Lower(s[1..])
  }

  function Digit(d: nat): char
    requires d < 10
  {
    (('0' as int) + d) as char
  }

  /** `str(n)` for a non-negative integer. */
  function NatToDecimal(n: nat): (r: string)
    ensures r != ""
    ensures forall i :: 0 <= i < |r| ==> '0' <= r[i] <= '9'
    ensures r[0] == '0' ==> n == 0
  {
    if n < 10 then [Digit(n)] else NatToDecimal(n / 10) + [Digit(n % 10)]
  }

  /** `str(n)` for any integer. */
  function IntToDecimal(n: int): string {
    if n < 0 then "-" + NatToDecimal(-n) else NatToDecimal(n)
  }

  predicate AllDigits(s: string) {
    forall i :: 0 <= i < |s| ==> '0' <= s[i] <= '9'
  }

  /** The number a string of decimal digits denotes, as `int(s)` reads it. */
  function DecimalValue(s: string): nat
    requires AllDigits(s)
  {
    if s == "" then 0 else 10 * DecimalValue(s[..|s| - 1]) + (s[|s| - 1] as int - '0' as int)
  }

  /** Reading `str(n)` back gives `n`. */
  lemma {:induction false} NatToDecimalRoundTrip(n: nat)
    ensures AllDigits(NatToDecimal(n)) && DecimalValue(NatToDecimal(n)) == n
    decreases n
  {
    var r := NatToDecimal(n);
    if n >= 10 {
      assert r[..|r| - 1] == NatToDecimal(n / 10);
      NatToDecimalRoundTrip(n / 10);
    } else {
      assert r[..0] == "";
    }
  }

  /** `str(n)` is a minus sign exactly for negative `n`, followed by the
      digits of the magnitude, which read back as `|n|`. */
  lemma IntToDecimalRoundTrip(n: int)
    ensures var r := IntToDecimal(n);
      && r != "" && (r[0] == '-' <==> n < 0)
      && var digits := if n < 0 then r[1..] else r;
         && AllDigits(digits) && DecimalValue(digits) == (if n < 0 then -n else n)
         && (digits[0] == '0' ==> n == 0)
  {
    NatToDecimalRoundTrip(if n < 0 then -n else n);
    if n < 0 {
      assert IntToDecimal(n)[1..] == NatToDecimal(-n);
    }
  }
}
