/**
 * Fixed-length vectors of exact reals, standing for the `bounded_vector<double, dof>`
 * accumulators of a node, together with the sums that the accumulators keep.
 * Floating-point rounding is not modelled: `+=` and `-=` are exact here.
 */
module Vectors {

  /** The zero vector of length `n`. */
  function Zero(n: nat): (r: seq<real>)
    ensures |r| == n
    ensures forall i :: 0 <= i < n ==> r[i] == 0.0
  {
    if n == 0 then [] else Zero(n - 1) + [0.0]
  }

  /** Componentwise sum, the vector `+`. */
  function Add(u: seq<real>, v: seq<real>): (r: seq<real>)
    requires |u| == |v|
    ensures |r| == |u|
    ensures forall i :: 0 <= i < |u| ==> r[i] == u[i] + v[i]
  {
    if u == [] then [] else [u[0] + v[0]] + Add(u[1..], v[1..])
  }

  /** Componentwise difference, the vector `-`. */
  function Sub(u: seq<real>, v: seq<real>): (r: seq<real>)
    requires |u| == |v|
    ensures |r| == |u|
    ensures forall i :: 0 <= i < |u| ==> r[i] == u[i] - v[i]
  {
    if u == [] then [] else [u[0] - v[0]] + Sub(u[1..], v[1..])
  }

  /** Every vector of `vs` has length `n`. */
  predicate AllOfLength(vs: seq<seq<real>>, n: nat)
  {
    forall k :: 0 <= k < |vs| ==> |vs[k]| == n
  }

  /** Sum of a list of scalars, taken in the order they were added. */
  function Sum(xs: seq<real>): real
  {
    if xs == [] then 0.0 else Sum(xs[..|xs| - 1]) + xs[|xs| - 1]
  }

  /** Sum of a list of length-`n` vectors, taken in the order they were added. */
  function SumVec(vs: seq<seq<real>>, n: nat): (r: seq<real>)
    requires AllOfLength(vs, n)
    ensures |r| == n
  {
    if vs == [] then Zero(n) else Add(SumVec(vs[..|vs| - 1], n), vs[|vs| - 1])
  }

  /** Component `i` of every vector of `vs`, in order. */
  function Column(vs: seq<seq<real>>, n: nat, i: nat): (c: seq<real>)
    requires AllOfLength(vs, n) && i < n
    ensures |c| == |vs|
    ensures forall k :: 0 <= k < |vs| ==> c[k] == vs[k][i]
  {
    if vs == [] then [] else Column(vs[..|vs| - 1], n, i) + [vs[|vs| - 1][i]]
  }

  /** Adding one more scalar adds it to the running sum. */
  lemma {:induction false} SumAppend(xs: seq<real>, x: real)
    ensures Sum(xs + [x]) == Sum(xs) + x
  {
    assert (xs + [x])[..|xs|] == xs;
  }

  /** Adding one more vector adds it to the running vector sum. */
  lemma {:induction false} SumVecAppend(vs: seq<seq<real>>, n: nat, v: seq<real>)
    requires AllOfLength(vs, n) && |v| == n
    ensures AllOfLength(vs + [v], n)
    ensures SumVec(vs + [v], n) == Add(SumVec(vs, n), v)
  {
    assert (vs + [v])[..|vs|] == vs;
  }

  /** The vector sum is taken component by component. */
  lemma {:induction false} SumVecAt(vs: seq<seq<real>>, n: nat, i: nat)
    requires AllOfLength(vs, n) && i < n
    ensures SumVec(vs, n)[i] == Sum(Column(vs, n, i))
  {
    if vs != [] {
      var init := vs[..|vs| - 1];
      SumVecAt(init, n, i);
      assert Column(vs, n, i)[..|vs| - 1] == Column(init, n, i);
    }
  }

  /** A sum of non-negative scalars is non-negative. */
  lemma {:induction false} SumNonNegative(xs: seq<real>)
    requires forall k :: 0 <= k < |xs| ==> xs[k] >= 0.0
    ensures Sum(xs) >= 0.0
  {
    if xs != [] {
      SumNonNegative(xs[..|xs| - 1]);
    }
  }

  /** A sum of componentwise non-negative vectors is componentwise non-negative. */
  lemma {:induction false} SumVecNonNegative(vs: seq<seq<real>>, n: nat)
    requires AllOfLength(vs, n)
    requires forall k, i :: 0 <= k < |vs| && 0 <= i < n ==> vs[k][i] >= 0.0
    ensures forall i :: 0 <= i < n ==> SumVec(vs, n)[i] >= 0.0
  {
    forall i | 0 <= i < n
      ensures SumVec(vs, n)[i] >= 0.0
    {
      SumVecAt(vs, n, i);
      SumNonNegative(Column(vs, n, i));
    }
  }

  /** Adding in two steps equals adding the sum of the two. */
  lemma AddAssociative(a: seq<real>, b: seq<real>, c: seq<real>)
    requires |a| == |b| == |c|
    ensures Add(Add(a, b), c) == Add(a, Add(b, c))
  {
    assert forall i :: 0 <= i < |a| ==> Add(Add(a, b), c)[i] == Add(a, Add(b, c))[i];
  }

  /** Subtracting in two steps equals subtracting the sum of the two. */
  lemma SubSub(a: seq<real>, b: seq<real>, c: seq<real>)
    requires |a| == |b| == |c|
    ensures Sub(Sub(a, b), c) == Sub(a, Add(b, c))
  {
    assert forall i :: 0 <= i < |a| ==> Sub(Sub(a, b), c)[i] == Sub(a, Add(b, c))[i];
  }
}
