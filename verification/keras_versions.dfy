/** The TensorFlow/Keras back end: one shared power table [1, x, ..., x^(k+1)]
    with k = max(len a, len b), read by versions a, b and c. Version d is a
    stub that raises. */
module KerasVersions {
  import opened Results
  import opened Poly
  import opened Formulas

  function Max(m: nat, n: nat): nat
  {
    if m < n then n else m
  }

  /** Number of entries of the Keras power table for coefficient vectors a, b. */
  function TableSize(a: seq<real>, b: seq<real>): nat
  {
    Max(|a|, |b|) + 2
  }

  /** The value of the Keras power table for input x. */
  function Xps(x: real, a: seq<real>, b: seq<real>): seq<real>
  {
    Powers(x, TableSize(a, b))
  }

  /** The table as `_get_xps` builds it: start from [x], append the last
      entry times x once per max(len a, len b), then put a 1 in front. */
  method GetXps(x: real, a: seq<real>, b: seq<real>) returns (xps: seq<real>)
    ensures |xps| == Max(|a|, |b|) + 2
    ensures xps[0] == 1.0
    ensures IsPowerTable(xps, x)
    ensures xps == Xps(x, a, b)
  {
    xps := [x];
    var k := 0;
    while k < Max(|a|, |b|)
      invariant 0 <= k <= Max(|a|, |b|)
      invariant |xps| == k + 1
      invariant forall i :: 0 <= i < |xps| ==> xps[i] == Pow(x, i + 1)
    {
      xps := xps + [xps[|xps| - 1] * x];
      k := k + 1;
    }
    xps := [1.0] + xps;
    assert IsPowerTable(xps, x);
    var t := Xps(x, a, b);
    assert forall i :: 0 <= i < |xps| ==> xps[i] == t[i];
  }

  /** Version a on a given table: numerator sum over t[0..], per-term
      absolute denominator sum over t[1..]. */
  function QuotientA(t: seq<real>, a: seq<real>, b: seq<real>): real
    requires |a| <= |t| && |b| + 1 <= |t|
  {
    WeightedSum(a, t, 0) / (1.0 + AbsWeightedSum(b, t, 1))
  }

  /** Version b on a given table: one absolute value of the sum over t[1..]. */
  function QuotientB(t: seq<real>, a: seq<real>, b: seq<real>): real
    requires |a| <= |t| && |b| + 1 <= |t|
  {
    WeightedSum(a, t, 0) / (1.0 + Abs(WeightedSum(b, t, 1)))
  }

  /** Version c on a given table: the denominator sum reads t[0..], so b[0]
      is a constant term, and the bias is 0.1. */
  function QuotientC(t: seq<real>, a: seq<real>, b: seq<real>): real
    requires |a| <= |t| && |b| <= |t|
  {
    WeightedSum(a, t, 0) / (Epsilon + Abs(WeightedSum(b, t, 0)))
  }

  /** Any power table long enough for a and b gives the closed-form
      versions A, B and C. */
  lemma DegreeInvariance(t: seq<real>, x: real, a: seq<real>, b: seq<real>)
    requires IsPowerTable(t, x)
    requires |a| <= |t| && |b| + 1 <= |t|
    ensures QuotientA(t, a, b) == RationalA(x, a, b)
    ensures QuotientB(t, a, b) == RationalB(x, a, b)
    ensures QuotientC(t, a, b) == RationalC(x, a, b)
  {
    TableSums(a, t, x, 0, 0);
    TableSums(b, t, x, 1, 1);
    DegreeInvarianceC(t, x, a, b);
  }

  /** Version c reads one table entry fewer than a and b: a power table
      with |b| entries for the denominator already gives the closed form. */
  lemma DegreeInvarianceC(t: seq<real>, x: real, a: seq<real>, b: seq<real>)
    requires IsPowerTable(t, x)
    requires |a| <= |t| && |b| <= |t|
    ensures QuotientC(t, a, b) == RationalC(x, a, b)
  {
    TableSums(a, t, x, 0, 0);
    TableSums(b, t, x, 0, 0);
  }

  /** Version a: P(x) / (1 + sum of |b[j] x^(j+1)|); `training` is not read. */
  function VersionA(x: real, a: seq<real>, b: seq<real>, training: bool): (r: real)
    ensures r == RationalA(x, a, b)
  {
    var t := Xps(x, a, b);
    DegreeInvariance(t, x, a, b);
    QuotientA(t, a, b)
  }

  /** Version b: P(x) / (1 + |sum of b[j] x^(j+1)|); `training` is not read. */
  function VersionB(x: real, a: seq<real>, b: seq<real>, training: bool): (r: real)
    ensures r == RationalB(x, a, b)
  {
    var t := Xps(x, a, b);
    DegreeInvariance(t, x, a, b);
    QuotientB(t, a, b)
  }

  /** Version c: P(x) / (0.1 + |sum of b[j] x^j|); `training` is not read. */
  function VersionC(x: real, a: seq<real>, b: seq<real>, training: bool): (r: real)
    ensures r == RationalC(x, a, b)
  {
    var t := Xps(x, a, b);
    DegreeInvariance(t, x, a, b);
    QuotientC(t, a, b)
  }

  /** Version d is not implemented in this back end. */
  function VersionD(x: real, a: seq<real>, b: seq<real>, training: bool, deviation: real): Result<real>
  {
    Err(NotImplementedError)
  }

  lemma VersionDAlwaysRaises(x: real, a: seq<real>, b: seq<real>, training: bool, deviation: real)
    ensures VersionD(x, a, b, training, deviation) == Err(NotImplementedError)
  {
  }

  /** With empty b, versions a and b return the numerator polynomial and
      version c returns ten times it. */
  lemma EmptyDenominator(x: real, a: seq<real>, training: bool)
    ensures VersionA(x, a, [], training) == Numerator(x, a)
    ensures VersionB(x, a, [], training) == Numerator(x, a)
    ensures VersionC(x, a, [], training) == 10.0 * Numerator(x, a)
  {
    Formulas.EmptyDenominator(x, a, Noise([], []), DefaultDeviation);
  }

  /** x in {0, 1, 2}, a = [1, 2], b = [0.5] under version b gives 1, 2, 2.5. */
  lemma WorkedExampleB()
    ensures VersionB(0.0, [1.0, 2.0], [0.5], false) == 1.0
    ensures VersionB(1.0, [1.0, 2.0], [0.5], false) == 2.0
    ensures VersionB(2.0, [1.0, 2.0], [0.5], false) == 2.5
  {
    var a, b := [1.0, 2.0], [0.5];
    assert a[..1] == [1.0] && [1.0][..0] == [] && b[..0] == [];
    forall x: real
      ensures Eval(a, x, 0) == 1.0 + 2.0 * x
      ensures Eval(b, x, 1) == 0.5 * x
    {
      assert Pow(x, 1) == x;
      assert Eval([1.0], x, 0) == 1.0;
    }
  }
}
