/**
 * The few pieces of Python string semantics the handler relies on:
 * truthiness of an optional string, `str()`, `dict.get`, the `in` operator
 * on strings, `sep.join(...)` and the decimal rendering of integers.
 */
module PyText {
  import opened Wrappers

  /** A JSON value or argument that is either `None` or a string. */
  type PyStr = Option<string>

  /** Python truthiness: `None` and `""` are false, every other string is true. */
  predicate Truthy(v: PyStr) {
    v.Some? && v.value != ""
  }

  /** The idiom `v if v else ""`: never `None`, empty exactly when `v` is falsy. */
  function OrEmpty(v: PyStr): (r: string)
    ensures r == "" <==> !Truthy(v)
    ensures r != "" ==> v == Some(r)
  {
    if Truthy(v) then v.value else ""
  }

  /** `str(v)` (also what an f-string interpolates): `None` renders as "None". */
  function StrOf(v: PyStr): string {
    match v
    case None => "None"
    case Some(s) => s
  }

  predicate OccursAt(s: string, w: string, k: int) {
    0 <= k && k + |w| <= |s| && s[k..k + |w|] == w
  }

  /** Python's `w in s` on strings: `w` is a contiguous substring of `s`. */
  predicate Contains(s: string, w: string) {
    exists k | 0 <= k <= |s| - |w| :: OccursAt(s, w, k)
  }

  lemma ContainsInLeft(a: string, b: string, w: string)
    requires Contains(a, w)
    ensures Contains(a + b, w)
  {
    var k :| 0 <= k <= |a| - |w| && OccursAt(a, w, k);
    assert (a + b)[k..k + |w|] == a[k..k + |w|];
    assert OccursAt(a + b, w, k);
  }

  lemma ContainsInRight(a: string, b: string, w: string)
    requires Contains(b, w)
    ensures Contains(a + b, w)
  {
    var k :| 0 <= k <= |b| - |w| && OccursAt(b, w, k);
    assert (a + b)[|a| + k..|a| + k + |w|] == b[k..k + |w|];
    assert OccursAt(a + b, w, |a| + k);
  }

  /** A word placed between two texts occurs in the whole. */
  lemma ContainsInMiddle(a: string, w: string, b: string)
    ensures Contains(a + w + b, w)
  {
    var s := a + w + b;
    assert s[|a|..|a| + |w|] == w by {
      forall k | 0 <= k < |w|
        ensures s[|a|..|a| + |w|][k] == w[k]
      {
        assert s[|a| + k] == w[k];
      }
    }
    assert OccursAt(s, w, |a|);
  }

  /** `sep.join(xs)` */
  function Join(xs: seq<string>, sep: string): string {
    if |xs| == 0 then ""
    else if |xs| == 1 then xs[0]
    else xs[0] + sep + Join(xs[1..], sep)
  }

  /** Whatever occurs inside one of the joined strings occurs in the joined text. */
  lemma {:induction false} JoinContains(xs: seq<string>, sep: string, i: int, w: string)
    requires 0 <= i < |xs| && Contains(xs[i], w)
    ensures Contains(Join(xs, sep), w)
  {
    if |xs| == 1 {
    } else if i == 0 {
      ContainsInLeft(xs[0], sep + Join(xs[1..], sep), w);
      assert xs[0] + sep + Join(xs[1..], sep) == xs[0] + (sep + Join(xs[1..], sep));
    } else {
      JoinContains(xs[1..], sep, i - 1, w);
      ContainsInRight(xs[0] + sep, Join(xs[1..], sep), w);
    }
  }

  function DigitChar(d: nat): char
    requires d < 10
  {
    ('0' as int + d) as char
  }

  function DigitValue(c: char): nat {
    if '0' <= c <= '9' then c as int - '0' as int else 0
  }

  /** `str(n)` for a non-negative integer: its decimal digits, most significant first. */
  function NatText(n: nat): (s: string)
    ensures |s| >= 1
  {
    if n < 10 then [DigitChar(n)] else NatText(n / 10) + [DigitChar(n % 10)]
  }

  /** `str(n)` for any integer. */
  function IntText(n: int): string {
    if n < 0 then "-" + NatText(-n) else NatText(n)
  }

  /** Reads a string of decimal digits back as a number. */
  function ParseNat(s: string): nat {
    if s == [] then 0 else ParseNat(s[..|s| - 1]) * 10 + DigitValue(s[|s| - 1])
  }

  lemma {:induction false} ParseNatText(n: nat)
    ensures ParseNat(NatText(n)) == n
  {
    if n >= 10 {
      ParseNatText(n / 10);
      var s := NatText(n / 10) + [DigitChar(n % 10)];
      assert s[..|s| - 1] == NatText(n / 10);
    }
  }

  /** Distinct numbers have distinct decimal renderings. */
  lemma NatTextInjective(m: nat, n: nat)
    requires NatText(m) == NatText(n)
    ensures m == n
  {
    ParseNatText(m);
    ParseNatText(n);
  }
}
