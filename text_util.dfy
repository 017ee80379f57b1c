// Small string helpers shared by the installer model: prefixes, repetition,
// decimal rendering of counts.
module TextUtil {

  /** `s.startswith(p)` */
  predicate HasPrefix(s: string, p: string) {
    |p| <= |s| && s[..|p|] == p
  }

  /** Concatenation regroups freely; stated once so that long logs need not be compared element by element. */
  lemma AppendAssociative<T>(a: seq<T>, b: seq<T>, c: seq<T>)
    ensures a + b + c == a + (b + c)
  {
  }

  /** The first element of a concatenation comes from its left part. */
  lemma PrefixOfConcatPrefix<T>(a: seq<T>, b: seq<T>, c: seq<T>)
    requires a + b <= c
    ensures a <= c
  {
    assert a <= a + b;
  }

  lemma ConcatEnds<T>(a: seq<T>, b: seq<T>, c: seq<T>)
    ensures var s := a + b + c;
      |s| == |a| + |b| + |c| && s[..|a|] == a && s[|s| - |c|..] == c
  {
    var s := a + b + c;
    assert s[..|a|] == a;
    assert s[|s| - |c|..] == c;
  }

  lemma LeadingElement<T>(a: seq<T>, b: seq<T>)
    requires |a| > 0
    ensures |a + b| > 0 && (a + b)[0] == a[0]
  {
  }

  lemma PrefixOfConcat(p: string, x: string)
    ensures HasPrefix(p + x, p)
  {
    assert (p + x)[..|p|] == p;
  }

  /** `c * n` in Python, for one character. */
  function Repeat(c: char, n: nat): (r: string)
    ensures |r| == n && forall i :: 0 <= i < n ==> r[i] == c
  {
    if n == 0 then [] else [c] + Repeat(c, n - 1)
  }

  function Digit(d: nat): (c: char)
    requires d < 10
    ensures '0' <= c <= '9' && c as int - '0' as int == d
  {
    ('0' as int + d) as char
  }

  predicate IsDigits(s: string) {
    forall i :: 0 <= i < |s| ==> '0' <= s[i] <= '9'
  }

  /** The value of a string of decimal digits, most significant first. */
  function DigitsValue(s: string): nat
    requires IsDigits(s)
  {
    if s == [] then 0 else 10 * DigitsValue(s[..|s| - 1]) + (s[|s| - 1] as int - '0' as int)
  }

  /** `str(n)` for a non-negative int: the shortest decimal rendering of `n`. */
  function NatToString(n: nat): (s: string)
    ensures |s| >= 1 && IsDigits(s)
    ensures (s[0] == '0') == (n == 0)
    ensures n == 0 ==> s == "0"
    ensures |s| == 1 <==> n < 10
    decreases n
  {
    if n < 10 then [Digit(n)] else NatToString(n / 10) + [Digit(n % 10)]
  }

  /** Reading back the decimal rendering gives the number. */
  lemma {:induction false} NatToStringRoundTrip(n: nat)
    ensures DigitsValue(NatToString(n)) == n
    decreases n
  {
    var s := NatToString(n);
    if n < 10 {
      assert s[..0] == [];
    } else {
      NatToStringRoundTrip(n / 10);
      assert s[..|s| - 1] == NatToString(n / 10);
    }
  }
}
