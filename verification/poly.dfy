/** Powers, power tables and weighted sums: the arithmetic every version of
    the rational activation is built from. Reals are exact, so the order of
    accumulation only matters for matching the back ends' loops, not the value. */
module Poly {

  /** x^k by repeated multiplication: x^0 = 1 for every x, including 0. */
  function Pow(x: real, k: nat): real
  {
    if k == 0 then 1.0 else Pow(x, k - 1) * x
  }

  function Abs(x: real): real
  {
    if x < 0.0 then -x else x
  }

  lemma AbsOfProduct(c: real, k: real)
    ensures Abs(c * k) == Abs(c) * Abs(k)
  {
  }

  lemma MulMonotone(c: real, u: real, v: real)
    requires c >= 0.0 && u <= v
    ensures c * u <= c * v
  {
  }

  /** Entry i of `t` is x^i. */
  ghost predicate IsPowerTable(t: seq<real>, x: real)
  {
    forall i :: 0 <= i < |t| ==> t[i] == Pow(x, i)
  }

  /** Entries o, ..., o+n-1 of `t` are x^e, ..., x^(e+n-1). */
  ghost predicate PowerRun(t: seq<real>, x: real, o: nat, e: nat, n: nat)
  {
    o + n <= |t| && forall i :: o <= i < o + n ==> t[i] == Pow(x, e + (i - o))
  }

  /** The table [x^0, ..., x^(n-1)], each entry one multiplication away from
      the previous one. */
  function Powers(x: real, n: nat): (t: seq<real>)
    ensures |t| == n
    ensures IsPowerTable(t, x)
  {
    if n == 0 then []
    else if n == 1 then [1.0]
    else
      var t := Powers(x, n - 1);
      t + [t[n - 2] * x]
  }

  /** The polynomial evaluator on a table: the sum over i < |w| of
      w[i] * t[i + o], accumulated in ascending coefficient order. */
  function WeightedSum(w: seq<real>, t: seq<real>, o: nat): real
    requires |w| + o <= |t|
  {
    if |w| == 0 then 0.0
    else WeightedSum(w[..|w| - 1], t, o) + w[|w| - 1] * t[|w| - 1 + o]
  }

  /** The same sum with the absolute value taken per term. */
  function AbsWeightedSum(w: seq<real>, t: seq<real>, o: nat): (s: real)
    requires |w| + o <= |t|
    ensures s >= 0.0
  {
    if |w| == 0 then 0.0
    else AbsWeightedSum(w[..|w| - 1], t, o) + Abs(w[|w| - 1] * t[|w| - 1 + o])
  }

  /** Closed form: the sum over i < |w| of w[i] * x^(i + e). */
  function Eval(w: seq<real>, x: real, e: nat): real
  {
    if |w| == 0 then 0.0
    else Eval(w[..|w| - 1], x, e) + w[|w| - 1] * Pow(x, |w| - 1 + e)
  }

  /** Closed form with per-term absolute values:
      the sum over i < |w| of |w[i] * x^(i + e)|. */
  function AbsEval(w: seq<real>, x: real, e: nat): (s: real)
    ensures s >= 0.0
  {
    if |w| == 0 then 0.0
    else AbsEval(w[..|w| - 1], x, e) + Abs(w[|w| - 1] * Pow(x, |w| - 1 + e))
  }

  /** Evaluating on a table whose entries from offset o are x^e, x^(e+1), ...
      gives the closed-form polynomial, with and without per-term absolute values. */
  lemma {:induction false} TableSums(w: seq<real>, t: seq<real>, x: real, o: nat, e: nat)
    requires PowerRun(t, x, o, e, |w|)
    ensures WeightedSum(w, t, o) == Eval(w, x, e)
    ensures AbsWeightedSum(w, t, o) == AbsEval(w, x, e)
  {
    if |w| > 0 {
      var n := |w| - 1;
      TableSums(w[..n], t, x, o, e);
      assert t[n + o] == Pow(x, e + (n + o - o));
    }
  }

  /** A table sum reads only the entries below |w| + o: two tables that agree
      there give the same sums, whatever else they hold. */
  lemma {:induction false} SumsReadOnlyPrefix(w: seq<real>, t: seq<real>, u: seq<real>, o: nat)
    requires |w| + o <= |t| && |w| + o <= |u|
    requires forall i :: 0 <= i < |w| + o ==> t[i] == u[i]
    ensures WeightedSum(w, t, o) == WeightedSum(w, u, o)
    ensures AbsWeightedSum(w, t, o) == AbsWeightedSum(w, u, o)
  {
    if |w| > 0 {
      SumsReadOnlyPrefix(w[..|w| - 1], t, u, o);
    }
  }

  /** Taking absolute values per term never gives less than taking it once
      of the whole sum. */
  lemma {:induction false} PerTermAbsDominates(w: seq<real>, x: real, e: nat)
    ensures Abs(Eval(w, x, e)) <= AbsEval(w, x, e)
  {
    if |w| > 0 {
      PerTermAbsDominates(w[..|w| - 1], x, e);
    }
  }

  /** Splitting off the lowest coefficient: w[0] multiplies x^e and the rest
      shift up by one power. */
  lemma {:induction false} EvalFront(w: seq<real>, x: real, e: nat)
    requires |w| > 0
    ensures Eval(w, x, e) == w[0] * Pow(x, e) + Eval(w[1..], x, e + 1)
  {
    var n := |w| - 1;
    if n > 0 {
      var init, tail := w[..n], w[1..];
      EvalFront(init, x, e);
      assert init[1..] == tail[..n - 1];
      assert init[0] == w[0] && tail[n - 1] == w[n];
      var last := w[n] * Pow(x, n + e);
      assert Eval(w, x, e) == Eval(init, x, e) + last;
      assert Eval(tail, x, e + 1) == Eval(tail[..n - 1], x, e + 1) + last;
    }
  }

  /** The convention change between the version-C denominator (b[0] is a
      constant term) and the others (b[0] multiplies x): prefixing a constant
      c and starting at x^0 is c plus the sum starting at x^1. */
  lemma ConstantTermShift(c: real, w: seq<real>, x: real)
    ensures Eval([c] + w, x, 0) == c + Eval(w, x, 1)
  {
    EvalFront([c] + w, x, 0);
    assert ([c] + w)[1..] == w;
  }
}
