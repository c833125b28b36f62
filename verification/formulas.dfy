/** The four versions of the rational activation f(x) = P(x) / Q(x) in
    closed form, as the docstrings of the back ends state them. Every back end is
    proved equal to these definitions.

    The numerator is P(x) = a[0] + a[1] x + ... for every version. The
    denominator coefficients follow two conventions: for A, B and D b[j]
    multiplies x^(j+1); for C b[j] multiplies x^j, so b[0] is a constant term. */
module Formulas {
  import opened Poly

  datatype Version = A | B | C | D

  /** The bias added to the version-C denominator. */
  const Epsilon: real := 0.1

  /** The default half-width of version D's multiplicative noise. */
  const DefaultDeviation: real := 0.1

  function Numerator(x: real, a: seq<real>): real
  {
    Eval(a, x, 0)
  }

  /** Q_A(x) = 1 + |b[0] x| + |b[1] x^2| + ... */
  function DenominatorA(x: real, b: seq<real>): (q: real)
    ensures q >= 1.0
  {
    1.0 + AbsEval(b, x, 1)
  }

  /** Q_B(x) = 1 + |b[0] x + b[1] x^2 + ...| */
  function DenominatorB(x: real, b: seq<real>): (q: real)
    ensures q >= 1.0
    ensures q - 1.0 >= Eval(b, x, 1) && q - 1.0 >= -Eval(b, x, 1)
  {
    1.0 + Abs(Eval(b, x, 1))
  }

  /** Q_C(x) = 0.1 + |b[0] + b[1] x + b[2] x^2 + ...| */
  function DenominatorC(x: real, b: seq<real>): (q: real)
    ensures q >= Epsilon
    ensures q - Epsilon >= Eval(b, x, 0) && q - Epsilon >= -Eval(b, x, 0)
  {
    Epsilon + Abs(Eval(b, x, 0))
  }

  function RationalA(x: real, a: seq<real>, b: seq<real>): real
  {
    Numerator(x, a) / DenominatorA(x, b)
  }

  function RationalB(x: real, a: seq<real>, b: seq<real>): real
  {
    Numerator(x, a) / DenominatorB(x, b)
  }

  function RationalC(x: real, a: seq<real>, b: seq<real>): real
  {
    Numerator(x, a) / DenominatorC(x, b)
  }

  /** One realised draw of version D's noise: one factor per numerator
      coefficient and one per denominator coefficient. */
  datatype Noise = Noise(numerator: seq<real>, denominator: seq<real>)

  /** `f` has one factor per coefficient of an n-vector, each in [1 - r, 1 + r]. */
  ghost predicate FactorsWithin(f: seq<real>, n: nat, r: real)
  {
    |f| == n && forall i :: 0 <= i < |f| ==> 1.0 - r <= f[i] <= 1.0 + r
  }

  /** `noise` is a possible draw for coefficient vectors of lengths n and m
      with deviation r. */
  ghost predicate Drawn(noise: Noise, n: nat, m: nat, r: real)
  {
    FactorsWithin(noise.numerator, n, r) && FactorsWithin(noise.denominator, m, r)
  }

  /** Elementwise product of coefficients and noise factors. */
  function Perturb(w: seq<real>, f: seq<real>): (p: seq<real>)
    requires |f| == |w|
    ensures |p| == |w|
  {
    seq(|w|, i requires 0 <= i < |w| => w[i] * f[i])
  }

  /** Version D: version B on noised coefficients in training mode,
      plain version B otherwise. */
  function RationalD(x: real, a: seq<real>, b: seq<real>, training: bool, noise: Noise, r: real): real
    requires training ==> Drawn(noise, |a|, |b|, r)
  {
    if training then RationalB(x, Perturb(a, noise.numerator), Perturb(b, noise.denominator))
    else RationalB(x, a, b)
  }

  /** The version dispatch: one formula per version tag. */
  function Evaluate(v: Version, x: real, a: seq<real>, b: seq<real>, training: bool, noise: Noise, r: real): real
    requires v == D && training ==> Drawn(noise, |a|, |b|, r)
  {
    match v
    case A => RationalA(x, a, b)
    case B => RationalB(x, a, b)
    case C => RationalC(x, a, b)
    case D => RationalD(x, a, b, training, noise, r)
  }

  /** Each noised coefficient stays within the relative deviation r of the
      coefficient it came from: it lies between (1 - r) w[i] and (1 + r) w[i]. */
  lemma PerturbWithinDeviation(w: seq<real>, f: seq<real>, r: real)
    requires FactorsWithin(f, |w|, r)
    ensures forall i :: 0 <= i < |w| ==> Abs(Perturb(w, f)[i] - w[i]) <= r * Abs(w[i])
  {
    forall i | 0 <= i < |w|
      ensures Abs(Perturb(w, f)[i] - w[i]) <= r * Abs(w[i])
    {
      ScaledDeviation(w[i], f[i], r);
    }
  }

  lemma ScaledDeviation(c: real, f: real, r: real)
    requires 1.0 - r <= f <= 1.0 + r
    ensures Abs(c * f - c) <= r * Abs(c)
  {
    var k := f - 1.0;
    assert c * f - c == c * k;
    AbsOfProduct(c, k);
    MulMonotone(Abs(c), Abs(k), r);
    assert Abs(c) * r == r * Abs(c);
  }

  /** The denominator of version D stays at least 1 for every noise draw. */
  lemma NoisyDenominatorAtLeastOne(b: seq<real>, f: seq<real>, x: real)
    requires |f| == |b|
    ensures DenominatorB(x, Perturb(b, f)) >= 1.0
  {
  }

  /** A draw of all-one factors, possible for every deviation r >= 0,
      leaves training-mode version D equal to version B. */
  lemma UnitNoiseIsVersionB(x: real, a: seq<real>, b: seq<real>, noise: Noise, r: real)
    requires r >= 0.0
    requires |noise.numerator| == |a| && |noise.denominator| == |b|
    requires forall i :: 0 <= i < |a| ==> noise.numerator[i] == 1.0
    requires forall j :: 0 <= j < |b| ==> noise.denominator[j] == 1.0
    ensures Drawn(noise, |a|, |b|, r)
    ensures RationalD(x, a, b, true, noise, r) == RationalB(x, a, b)
  {
    assert Perturb(a, noise.numerator) == a;
    assert Perturb(b, noise.denominator) == b;
  }

  /** Only version D reads the training flag, and in inference mode D is B. */
  lemma TrainingOnlyAffectsD(v: Version, x: real, a: seq<real>, b: seq<real>, noise: Noise, r: real)
    ensures v != D ==> Evaluate(v, x, a, b, true, noise, r) == Evaluate(v, x, a, b, false, noise, r)
    ensures Evaluate(D, x, a, b, false, noise, r) == Evaluate(B, x, a, b, false, noise, r)
  {
  }

  /** Version A's denominator is never below version B's: per-term absolute
      values dominate one absolute value of the sum. */
  lemma DenominatorADominatesB(b: seq<real>, x: real)
    ensures DenominatorA(x, b) >= DenominatorB(x, b)
  {
    PerTermAbsDominates(b, x, 1);
  }

  /** With mixed-sign denominator terms A and B differ: b = [1, -1] at x = 1
      gives Q_A = 3 and Q_B = 1. */
  lemma MixedSignsSeparateAAndB()
    ensures DenominatorA(1.0, [1.0, -1.0]) == 3.0
    ensures DenominatorB(1.0, [1.0, -1.0]) == 1.0
    ensures RationalA(1.0, [1.0], [1.0, -1.0]) != RationalB(1.0, [1.0], [1.0, -1.0])
  {
    var b := [1.0, -1.0];
    assert b[..1] == [1.0] && [1.0][..0] == [];
    assert Eval(b, 1.0, 1) == 0.0;
    assert AbsEval(b, 1.0, 1) == 2.0;
    assert Eval([1.0], 1.0, 0) == 1.0;
  }

  /** The version-C denominator includes b[0] as a constant term: it is
      version B's denominator polynomial of the remaining coefficients plus
      b[0], with bias 0.1 instead of 1. */
  lemma CConstantTerm(b: seq<real>, x: real)
    requires |b| > 0
    ensures DenominatorC(x, b) == Epsilon + Abs(b[0] + Eval(b[1..], x, 1))
  {
    assert b == [b[0]] + b[1..];
    ConstantTermShift(b[0], b[1..], x);
  }

  /** With no denominator coefficients every version returns P(x) divided by
      its bias: P(x) for A, B and inference-mode D, and 10 P(x) for C. */
  lemma EmptyDenominator(x: real, a: seq<real>, noise: Noise, r: real)
    ensures RationalA(x, a, []) == Numerator(x, a)
    ensures RationalB(x, a, []) == Numerator(x, a)
    ensures RationalC(x, a, []) == 10.0 * Numerator(x, a)
    ensures RationalD(x, a, [], false, noise, r) == Numerator(x, a)
  {
  }
}
