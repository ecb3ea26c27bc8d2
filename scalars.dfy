/**
 * Scalars stand for posit values. Element-wise posit arithmetic is modelled
 * as exact real arithmetic; the only place where precision is lost is the
 * conversion of an exact quire value into a posit of some format, which is
 * an application of a `Rounding` supplied by the caller.
 */
module Scalars {

  /** Conversion of an exact value into one destination posit format. */
  type Rounding = real -> real

  /** Sum of the entries, accumulated from the front as the loops of the library do. */
  function Sum(s: seq<real>): real
  {
    if |s| == 0 then 0.0 else Sum(s[..|s| - 1]) + s[|s| - 1]
  }

  lemma SumSnoc(s: seq<real>, x: real)
    ensures Sum(s + [x]) == Sum(s) + x
  {
    assert (s + [x])[..|s|] == s;
  }

  lemma {:induction false} SumConcat(s: seq<real>, t: seq<real>)
    ensures Sum(s + t) == Sum(s) + Sum(t)
    decreases |t|
  {
    if |t| == 0 {
      assert s + t == s;
    } else {
      var u := t[..|t| - 1];
      assert s + t == (s + u) + [t[|t| - 1]];
      assert t == u + [t[|t| - 1]];
      SumSnoc(s + u, t[|t| - 1]);
      SumSnoc(u, t[|t| - 1]);
      SumConcat(s, u);
    }
  }

  /** A sum of zeros is zero. */
  lemma {:induction false} SumZeros(n: nat)
    ensures Sum(seq(n, _ => 0.0)) == 0.0
  {
    if n > 0 {
      assert seq(n, _ => 0.0)[..n - 1] == seq(n - 1, _ => 0.0);
      SumZeros(n - 1);
    }
  }

  /** A sum of a single entry is that entry. */
  lemma SumSingle(x: real)
    ensures Sum([x]) == x
  {
    assert [x][..0] == [];
  }

  /** Sum of two entries, as the two-term posit addition computes it. */
  lemma SumPair(x: real, y: real)
    ensures Sum([x, y]) == x + y
  {
    assert [x, y][..1] == [x];
    SumSingle(x);
  }

  /** Posit division; a quotient by zero (NaR for posits) is represented by zero. */
  function Quot(x: real, y: real): real
  {
    if y == 0.0 then 0.0 else x / y
  }

  /** Each exact value converted to the destination format, one rounding per entry. */
  function Rounded(s: seq<real>, round: Rounding): (r: seq<real>)
    ensures |r| == |s| && forall i :: 0 <= i < |s| ==> r[i] == round(s[i])
  {
    seq(|s|, i requires 0 <= i < |s| => round(s[i]))
  }

  /** `n` zeros: the value-initialised contents of a freshly allocated posit vector. */
  function Zeros(n: nat): (z: seq<real>)
    ensures |z| == n && forall i :: 0 <= i < n ==> z[i] == 0.0
  {
    seq(n, _ => 0.0)
  }

  /** Exact inner product of two vectors of the same length, accumulated from the front as a quire does. */
  function Dot(u: seq<real>, v: seq<real>): real
    requires |u| == |v|
  {
    if |u| == 0 then 0.0 else Dot(u[..|u| - 1], v[..|v| - 1]) + u[|u| - 1] * v[|v| - 1]
  }

  lemma DotSnoc(u: seq<real>, v: seq<real>, l: nat)
    requires l < |u| == |v|
    ensures Dot(u[..l + 1], v[..l + 1]) == Dot(u[..l], v[..l]) + u[l] * v[l]
  {
    assert u[..l + 1][..l] == u[..l] && v[..l + 1][..l] == v[..l];
  }
}
