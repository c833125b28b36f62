/** The MXNet back end: separate numerator and denominator power tables built
    with direct powers, then versions A to D. The weight counts num_len and
    denom_len are the lengths of the coefficient vectors. */
module MxnetVersions {
  import opened Poly
  import opened Formulas
  import KerasVersions

  /** The numerator table [1, x, ..., x^(n-1)]; for n = 0 it still holds
      the leading 1. */
  function XpsNum(x: real, n: nat): (t: seq<real>)
    ensures |t| == (if n == 0 then 1 else n)
    ensures t[0] == 1.0
    ensures IsPowerTable(t, x)
  {
    if n <= 1 then [1.0]
    else XpsNum(x, n - 1) + [Pow(x, n - 1)]
  }

  /** The denominator table [x, x^2, ..., x^n]: entry j is x^(j+1), so the
      last power is x^n; for n = 0 it still holds x. */
  function XpsDenom(x: real, n: nat): (t: seq<real>)
    ensures |t| == (if n == 0 then 1 else n)
    ensures PowerRun(t, x, 0, 1, |t|)
  {
    if n <= 1 then assert Pow(x, 1) == x; [x * 1.0]
    else XpsDenom(x, n - 1) + [Pow(x, n)]
  }

  /** The sum of the entries of `s`, as `F.sum` computes it. */
  function Sum(s: seq<real>): real
  {
    if |s| == 0 then 0.0 else Sum(s[..|s| - 1]) + s[|s| - 1]
  }

  /** `F.ones`: n ones. */
  function Ones(n: nat): (s: seq<real>)
    ensures |s| == n
  {
    seq(n, _ => 1.0)
  }

  lemma {:induction false} SumOfOnes(n: nat)
    ensures Sum(Ones(n)) == n as real
  {
    if n > 0 {
      assert Ones(n)[..n - 1] == Ones(n - 1);
      SumOfOnes(n - 1);
    }
  }

  /** The version-C bias as `_version_c` computes it: one divided by the
      sum of ten ones. It is the 0.1 of the closed form. */
  function VersionCBias(): (e: real)
    ensures e == Epsilon
  {
    SumOfOnes(10);
    1.0 / Sum(Ones(10))
  }

  /** sum_i a[i] x^i read from the numerator table. */
  function NumeratorSum(x: real, a: seq<real>): (p: real)
    ensures p == Numerator(x, a)
  {
    var t := XpsNum(x, |a|);
    TableSums(a, t, x, 0, 0);
    WeightedSum(a, t, 0)
  }

  function VersionA(x: real, a: seq<real>, b: seq<real>, training: bool): (r: real)
    ensures r == RationalA(x, a, b)
  {
    var t := XpsDenom(x, |b|);
    TableSums(b, t, x, 0, 1);
    NumeratorSum(x, a) / (1.0 + AbsWeightedSum(b, t, 0))
  }

  function VersionB(x: real, a: seq<real>, b: seq<real>, training: bool): (r: real)
    ensures r == RationalB(x, a, b)
  {
    var t := XpsDenom(x, |b|);
    TableSums(b, t, x, 0, 1);
    NumeratorSum(x, a) / (1.0 + Abs(WeightedSum(b, t, 0)))
  }

  /** Version C reuses the numerator table for the denominator, so b[0]
      multiplies x^0. */
  function VersionC(x: real, a: seq<real>, b: seq<real>, training: bool): (r: real)
    ensures r == RationalC(x, a, b)
  {
    var t := XpsNum(x, |b|);
    TableSums(b, t, x, 0, 0);
    NumeratorSum(x, a) / (VersionCBias() + Abs(WeightedSum(b, t, 0)))
  }

  /** Version D: without training, version B; with training, every
      coefficient is multiplied by its own noise factor (numerator and
      denominator drawn separately) before the version-B formula. */
  function VersionD(x: real, a: seq<real>, b: seq<real>, training: bool, noise: Noise, deviation: real): (r: real)
    requires training ==> Drawn(noise, |a|, |b|, deviation)
    ensures !training ==> r == VersionB(x, a, b, false)
    ensures r == RationalD(x, a, b, training, noise, deviation)
  {
    if !training then VersionB(x, a, b, false)
    else
      var an := Perturb(a, noise.numerator);
      var bn := Perturb(b, noise.denominator);
      var t := XpsDenom(x, |b|);
      TableSums(bn, t, x, 0, 1);
      NumeratorSum(x, an) / (1.0 + Abs(WeightedSum(bn, t, 0)))
  }

  /** The training flag does not change versions A, B and C. */
  lemma TrainingIgnored(x: real, a: seq<real>, b: seq<real>)
    ensures VersionA(x, a, b, true) == VersionA(x, a, b, false)
    ensures VersionB(x, a, b, true) == VersionB(x, a, b, false)
    ensures VersionC(x, a, b, true) == VersionC(x, a, b, false)
  {
  }

  /** In training mode, with any deviation r >= 0 (the default is 0.1), a
      draw of all-one factors reproduces version B. */
  lemma UnitNoiseIsVersionB(x: real, a: seq<real>, b: seq<real>, noise: Noise, r: real)
    requires r >= 0.0
    requires |noise.numerator| == |a| && |noise.denominator| == |b|
    requires forall i :: 0 <= i < |a| ==> noise.numerator[i] == 1.0
    requires forall j :: 0 <= j < |b| ==> noise.denominator[j] == 1.0
    ensures Drawn(noise, |a|, |b|, r)
    ensures VersionD(x, a, b, true, noise, r) == VersionB(x, a, b, true)
  {
    Formulas.UnitNoiseIsVersionB(x, a, b, noise, r);
  }

  /** The two back ends agree on versions A, B and C for every input, despite
      building their power tables differently. */
  lemma AgreesWithKeras(x: real, a: seq<real>, b: seq<real>, training: bool)
    ensures VersionA(x, a, b, training) == KerasVersions.VersionA(x, a, b, training)
    ensures VersionB(x, a, b, training) == KerasVersions.VersionB(x, a, b, training)
    ensures VersionC(x, a, b, training) == KerasVersions.VersionC(x, a, b, training)
  {
  }
}
