/** Text utilities shared by the script renderers: substring search, joining,
    and the literal syntax of numbers and booleans in the generated script. */
module Strings {

  /** `t` occurs in `s` as a contiguous substring (the source's `string.Contains`). */
  predicate Contains(s: string, t: string) {
    exists i | 0 <= i <= |s| - |t| :: OccursAt(s, t, i)
  }

  /** `t` occurs in `s` starting at index `i`. */
  predicate OccursAt(s: string, t: string, i: int) {
    0 <= i <= |s| - |t| && s[i..i + |t|] == t
  }

  predicate StartsWith(s: string, prefix: string) {
    |prefix| <= |s| && s[..|prefix|] == prefix
  }

  predicate EndsWith(s: string, suffix: string) {
    |suffix| <= |s| && s[|s| - |suffix|..] == suffix
  }

  lemma ContainsInfix(a: string, t: string, b: string)
    ensures Contains(a + t + b, t)
  {
    var s := a + t + b;
    assert OccursAt(s, t, |a|);
  }

  /** A prefix of a prefix is a prefix. */
  lemma StartsWithPrefix(s: string, t: string, u: string)
    requires StartsWith(s, t) && StartsWith(t, u)
    ensures StartsWith(s, u)
  {
    assert s[..|t|][..|u|] == s[..|u|];
  }

  lemma OpensWith(a: string, b: string)
    ensures StartsWith(a + b, a)
  {
    assert (a + b)[..|a|] == a;
  }

  lemma OpensWithThree(a: string, b: string, c: string, d: string)
    ensures StartsWith(a + b + c + d, a)
  {
    assert (a + b + c + d)[..|a|] == a;
  }

  /** A string opens with its first piece and closes with its last. */
  lemma Framed(a: string, b: string, c: string)
    ensures StartsWith(a + b + c, a) && EndsWith(a + b + c, c)
    ensures (a + b + c)[|a|..|a + b + c| - |c|] == b
  {
    assert (a + b + c)[|a|..|a + b + c| - |c|] == (a + b)[|a|..];
    assert (a + b + c)[..|a|] == a;
    assert (a + b + c)[|a + b|..] == c;
  }

  lemma StartsWithAfter(a: string, b: string, t: string)
    requires StartsWith(b, t)
    ensures StartsWith(a + b, a + t)
  {
    assert (a + b)[..|a + t|] == a + b[..|t|];
  }

  lemma ContainsPrefix(s: string, prefix: string)
    requires StartsWith(s, prefix)
    ensures Contains(s, prefix)
  {
    assert OccursAt(s, prefix, 0);
  }

  /** Containment is transitive: whatever occurs in a part occurs in the whole. */
  lemma ContainsTransitive(s: string, t: string, u: string)
    requires Contains(s, t) && Contains(t, u)
    ensures Contains(s, u)
  {
    var i :| 0 <= i <= |s| - |t| && OccursAt(s, t, i);
    var j :| 0 <= j <= |t| - |u| && OccursAt(t, u, j);
    forall k | 0 <= k < |u|
      ensures s[i + j + k] == u[k]
    {
      assert t[j..j + |u|][k] == t[j + k];
      assert s[i..i + |t|][j + k] == s[i + j + k];
    }
    assert s[i + j..i + j + |u|] == u;
    assert OccursAt(s, u, i + j);
  }

  /** A character absent from `s` rules out every pattern that uses it. */
  lemma AbsentCharacter(s: string, t: string, c: char)
    requires c !in s && c in t
    ensures !Contains(s, t)
  {
    var k :| 0 <= k < |t| && t[k] == c;
    forall i | 0 <= i <= |s| - |t|
      ensures !OccursAt(s, t, i)
    {
      assert s[i..i + |t|][k] == s[i + k] != c;
    }
  }

  /** The pieces of `xs` in order, separated by `sep`. */
  function Join(xs: seq<string>, sep: string): (r: string)
    ensures |xs| == 1 ==> r == xs[0]
  {
    if |xs| == 0 then ""
    else if |xs| == 1 then xs[0]
    else xs[0] + sep + Join(xs[1..], sep)
  }

  /** Four texts joined by a separator. */
  lemma JoinFour(xs: seq<string>, sep: string)
    requires |xs| == 4
    ensures Join(xs, sep) == xs[0] + sep + xs[1] + sep + xs[2] + sep + xs[3]
  {
    assert Join(xs[3..], sep) == xs[3];
    assert Join(xs[2..], sep) == xs[2] + sep + xs[3];
  }

  /** Whatever occurs in `b` occurs in `a + b`. */
  lemma ContainsAfter(a: string, b: string, t: string)
    requires Contains(b, t)
    ensures Contains(a + b, t)
  {
    var i :| 0 <= i <= |b| - |t| && OccursAt(b, t, i);
    assert (a + b)[|a| + i..|a| + i + |t|] == b[i..i + |t|];
    assert OccursAt(a + b, t, |a| + i);
  }

  lemma {:induction false} JoinContainsEach(xs: seq<string>, sep: string, k: nat)
    requires k < |xs|
    ensures Contains(Join(xs, sep), xs[k])
  {
    if k == 0 {
      JoinStartsWithFirst(xs, sep);
      ContainsPrefix(Join(xs, sep), xs[0]);
    } else {
      JoinContainsEach(xs[1..], sep, k - 1);
      assert xs[1..][k - 1] == xs[k];
      assert Join(xs, sep) == (xs[0] + sep) + Join(xs[1..], sep);
      ContainsAfter(xs[0] + sep, Join(xs[1..], sep), xs[k]);
    }
  }

  /** A non-empty join starts with its first piece. */
  lemma JoinStartsWithFirst(xs: seq<string>, sep: string)
    requires |xs| > 0
    ensures StartsWith(Join(xs, sep), xs[0])
  {
    if |xs| > 1 {
      assert Join(xs, sep) == xs[0] + (sep + Join(xs[1..], sep));
    }
  }

  lemma {:induction false} JoinAvoids(xs: seq<string>, sep: string, c: char)
    requires c !in sep
    requires forall k :: 0 <= k < |xs| ==> c !in xs[k]
    ensures c !in Join(xs, sep)
  {
    if |xs| > 1 {
      JoinAvoids(xs[1..], sep, c);
    }
  }

  // Literal syntax of the script language.

  predicate IsDigit(c: char) {
    '0' <= c <= '9'
  }

  /** The characters a rendered number may contain. */
  predicate IsNumeralChar(c: char) {
    IsDigit(c) || c == '-' || c == '.'
  }

  function DigitChar(d: int): (c: char)
    requires 0 <= d < 10
    ensures IsDigit(c) && c as int - '0' as int == d
  {
    ['0', '1', '2', '3', '4', '5', '6', '7', '8', '9'][d]
  }

  /** Decimal digits of a natural number, most significant first. */
  function NatText(n: nat): (t: string)
    ensures |t| > 0
    ensures forall c :: c in t ==> IsDigit(c)
    decreases n
  {
    if n < 10 then [DigitChar(n)] else NatText(n / 10) + [DigitChar(n % 10)]
  }

  /** `t` with zeros put in front until it is at least `n` characters long. */
  function PadZeros(t: string, n: nat): (r: string)
    ensures |r| >= n && |r| >= |t|
    ensures forall c :: c in r ==> c in t || c == '0'
    decreases n - |t|
  {
    if |t| >= n then t else PadZeros(['0'] + t, n)
  }

  /** `t` without its trailing zeros. */
  function TrimZeros(t: string): (r: string)
    ensures |r| <= |t| && r == t[..|r|]
    ensures |r| > 0 ==> r[|r| - 1] != '0'
  {
    if |t| > 0 && t[|t| - 1] == '0' then TrimZeros(t[..|t| - 1]) else t
  }

  /** Number of fractional digits a rendered number keeps. */
  const FractionDigits: nat := 15

  /** 10 to the power FractionDigits. */
  const FractionScale: real := 1000000000000000.0

  /** The first FractionDigits decimal digits of a fraction in [0, 1), without
      trailing zeros; empty when all of them are zero. */
  function FractionText(f: real): (t: string)
    requires 0.0 <= f < 1.0
    ensures forall c :: c in t ==> IsDigit(c)
    ensures |t| > 0 ==> t[|t| - 1] != '0'
  {
    var scaled := (f * FractionScale).Floor;
    if scaled == 0 then "" else TrimZeros(PadZeros(NatText(scaled), FractionDigits))
  }

  function UnsignedText(r: real): (t: string)
    requires r >= 0.0
    ensures |t| > 0 && IsDigit(t[0])
    ensures forall c :: c in t ==> IsNumeralChar(c)
  {
    var whole := r.Floor;
    var fraction := FractionText(r - whole as real);
    NatText(whole) + (if fraction == "" then "" else "." + fraction)
  }

  /** The script's literal text of a number: an optional minus sign, the integral
      digits, and the fractional digits only when the number is not integral. */
  function NumText(r: real): (t: string)
    ensures |t| > 0
    ensures forall c :: c in t ==> IsNumeralChar(c)
    ensures (t[0] == '-') <==> r < 0.0
  {
    if r < 0.0 then "-" + UnsignedText(-r) else UnsignedText(r)
  }

  /** Booleans are written in lower case. */
  function BoolText(b: bool): (t: string)
    ensures t == "true" || t == "false"
    ensures (t == "true") <==> b
  {
    if b then "true" else "false"
  }

  /** Integral numbers render as their plain decimal digits. */
  lemma NatTextOfIntegral(n: nat)
    ensures NumText(n as real) == NatText(n)
  {
  }
}
