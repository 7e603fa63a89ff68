/** The numerical part of QuantumCircuitManager: the default observable's
    labels, the clamp applied to the library's expectation value, and the
    closed-form Z expectation on qubit 0 computed from a state's squared
    amplitude magnitudes (qubit 0 is the least significant bit of a basis
    index, so it reads 0 exactly at the even indices).
 */
module Expectation {

  /** One-letter Pauli labels. */
  datatype Pauli = I | X | Y | Z

  /** A complex number as the library returns it. */
  datatype Complex = Complex(re: real, im: real)

  /** The `observable` argument: none (the default is used) or the caller's labels. */
  datatype Observable = Default | Given(labels: seq<Pauli>)

  /** The post-processed expectation value and whether a warning was logged. */
  datatype Clamped = Clamped(value: real, warned: bool)

  function Abs(x: real): real { if x < 0.0 then -x else x }

  function MaxReal(a: real, b: real): real { if a >= b then a else b }

  function MinReal(a: real, b: real): real { if a <= b then a else b }

  /** `['Z'] + ['I'] * (n - 1)`: Z for qubit 0 and I for every other qubit.
      When n is 0, `['I'] * -1` is empty, so the list is just `['Z']`. */
  function DefaultObservable(n: nat): (labels: seq<Pauli>)
    ensures |labels| == (if n == 0 then 1 else n)
    ensures forall q :: 0 <= q < |labels| ==> (labels[q] == Z <==> q == 0)
    ensures forall q :: 0 < q < |labels| ==> labels[q] == I
  {
    [Z] + seq(if n == 0 then 0 else n - 1, _ => I)
  }

  /** The observable `get_expectation_value` hands to the library: the
      caller's, or the default one when none is given. */
  function ResolveObservable(observable: Observable, n: nat): (labels: seq<Pauli>)
    ensures observable.Given? ==> labels == observable.labels
    ensures observable.Default? ==> labels == DefaultObservable(n)
  {
    match observable
    case Given(labels) => labels
    case Default => DefaultObservable(n)
  }

  /** Keep the value when it lies in [-1, 1]; otherwise log a warning and
      clamp it with `max(-1.0, min(1.0, x))`. */
  function Clamp(x: real): (r: Clamped)
    ensures -1.0 <= r.value <= 1.0
    ensures r.warned <==> (x > 1.0 || x < -1.0)
    ensures !r.warned ==> r.value == x
    ensures x > 1.0 ==> r.value == 1.0
    ensures x < -1.0 ==> r.value == -1.0
  {
    if Abs(x) > 1.0 then Clamped(MaxReal(-1.0, MinReal(1.0, x)), true)
    else Clamped(x, false)
  }

  /** Clamping a clamped value changes nothing and logs no warning. */
  lemma ClampIdempotent(x: real)
    ensures Clamp(Clamp(x).value) == Clamped(Clamp(x).value, false)
  {
  }

  /** The clamp moves x to the nearest point of [-1, 1]. */
  lemma ClampIsNearest(x: real, y: real)
    requires -1.0 <= y <= 1.0
    ensures Abs(Clamp(x).value - x) <= Abs(y - x)
  {
  }

  /** `get_expectation_value`: the library evaluates the resolved observable on
      the circuit's state (`library` stands for that whole call), the real part
      is taken and the clamp applied. */
  function ExpectationValue(observable: Observable, n: nat, library: seq<Pauli> -> Complex): (r: Clamped)
    ensures -1.0 <= r.value <= 1.0
    ensures var raw := library(ResolveObservable(observable, n)).re;
      (r.warned <==> Abs(raw) > 1.0) && (!r.warned ==> r.value == raw)
    ensures var raw := library(ResolveObservable(observable, n)).re;
      (raw > 1.0 ==> r.value == 1.0) && (raw < -1.0 ==> r.value == -1.0)
  {
    Clamp(library(ResolveObservable(observable, n)).re)
  }

  /** The imaginary part the library reports plays no role. */
  lemma ExpectationValueIgnoresImaginaryPart(observable: Observable, n: nat,
                                             f: seq<Pauli> -> Complex, g: seq<Pauli> -> Complex)
    requires f(ResolveObservable(observable, n)).re == g(ResolveObservable(observable, n)).re
    ensures ExpectationValue(observable, n, f) == ExpectationValue(observable, n, g)
  {
  }

  // ---------------------------------------------------------------------------
  // Closed-form Z expectation on qubit 0

  /** Sum of the weights at the indices i with i % 2 == parity. */
  function SumParity(w: seq<real>, parity: nat): real
  {
    if |w| == 0 then 0.0
    else SumParity(w[..|w| - 1], parity) + (if (|w| - 1) % 2 == parity then w[|w| - 1] else 0.0)
  }

  function Total(w: seq<real>): real
  {
    if |w| == 0 then 0.0 else Total(w[..|w| - 1]) + w[|w| - 1]
  }

  /** Squared magnitudes of a unit-norm state. */
  predicate IsDistribution(w: seq<real>)
  {
    (forall i :: 0 <= i < |w| ==> w[i] >= 0.0) && Total(w) == 1.0
  }

  /** `2 * prob_0 - 1`, prob_0 being the weight of the states with qubit 0 at 0. */
  function ZExpectation(w: seq<real>): real
  {
    2.0 * SumParity(w, 0) - 1.0
  }

  /** The even and odd indices partition the state. */
  lemma {:induction false} ParitySplit(w: seq<real>)
    ensures SumParity(w, 0) + SumParity(w, 1) == Total(w)
  {
    if |w| > 0 {
      ParitySplit(w[..|w| - 1]);
    }
  }

  lemma {:induction false} SumParityBounds(w: seq<real>, parity: nat)
    requires forall i :: 0 <= i < |w| ==> w[i] >= 0.0
    ensures 0.0 <= SumParity(w, parity) <= Total(w)
  {
    if |w| > 0 {
      SumParityBounds(w[..|w| - 1], parity);
    }
  }

  /** On a unit-norm state, `2 * prob_0 - 1` is `prob_0 - prob_1`. */
  lemma ZExpectationIsDifference(w: seq<real>)
    requires Total(w) == 1.0
    ensures ZExpectation(w) == SumParity(w, 0) - SumParity(w, 1)
  {
    ParitySplit(w);
  }

  /** On a unit-norm state the expectation is a valid Pauli expectation. */
  lemma ZExpectationBounded(w: seq<real>)
    requires IsDistribution(w)
    ensures -1.0 <= ZExpectation(w) <= 1.0
  {
    SumParityBounds(w, 0);
  }

  /** Basis state |k> over `size` indices: weight 1 at k, 0 elsewhere. */
  function BasisState(size: nat, k: nat): (w: seq<real>)
    ensures |w| == size
  {
    seq(size, i => if i == k then 1.0 else 0.0)
  }

  lemma {:induction false} SumParityBasis(size: nat, k: nat, parity: nat)
    ensures SumParity(BasisState(size, k), parity) == if k < size && k % 2 == parity then 1.0 else 0.0
  {
    if size > 0 {
      assert BasisState(size, k)[..size - 1] == BasisState(size - 1, k);
      SumParityBasis(size - 1, k, parity);
    }
  }

  /** A basis state is a unit-norm state; its Z expectation on qubit 0 is 1
      when qubit 0 reads 0 (k even, e.g. |0>) and -1 when it reads 1 (k odd). */
  lemma BasisStateExpectation(size: nat, k: nat)
    requires k < size
    ensures IsDistribution(BasisState(size, k))
    ensures ZExpectation(BasisState(size, k)) == if k % 2 == 0 then 1.0 else -1.0
  {
    SumParityBasis(size, k, 0);
    SumParityBasis(size, k, 1);
    ParitySplit(BasisState(size, k));
  }

  lemma {:induction false} UniformParityBalanced(w: seq<real>, c: real)
    requires |w| % 2 == 0
    requires forall i :: 0 <= i < |w| ==> w[i] == c
    ensures SumParity(w, 0) == SumParity(w, 1)
  {
    if |w| > 0 {
      var front := w[..|w| - 2];
      assert w[..|w| - 1][..|w| - 2] == front;
      UniformParityBalanced(front, c);
    }
  }

  /** An equal superposition over an even number of basis states (2^n with
      n >= 1) has Z expectation 0 on qubit 0. */
  lemma UniformExpectationZero(w: seq<real>, c: real)
    requires |w| % 2 == 0
    requires forall i :: 0 <= i < |w| ==> w[i] == c
    requires Total(w) == 1.0
    ensures ZExpectation(w) == 0.0
  {
    UniformParityBalanced(w, c);
    ZExpectationIsDifference(w);
  }
}
