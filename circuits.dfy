/** Gate layouts of the two circuits that QuantumCircuitManager builds.

    A circuit is its qubit count and the list of gates appended to it, in order.
    Only the two gate kinds the manager uses are modelled: a Y rotation on one
    qubit and a controlled NOT between two qubits.
 */
module Circuits {

  datatype Gate = RY(angle: real, qubit: nat) | CX(control: nat, target: nat)

  datatype QuantumCircuit = QuantumCircuit(numQubits: nat, gates: seq<Gate>)

  /** Why a circuit could not be built: `parameters[index]` does not exist. */
  datatype CircuitError = IndexError(index: nat)

  datatype Result<T> = Ok(value: T) | Err(error: CircuitError)

  function Min(a: nat, b: nat): nat { if a <= b then a else b }

  /** A gate only touches qubits of an n-qubit register, and a CX never uses
      one qubit as both control and target (Qiskit refuses both). */
  predicate GateFits(g: Gate, n: nat)
  {
    match g
    case RY(_, q) => q < n
    case CX(c, t) => c < n && t < n && c != t
  }

  predicate WellFormed(qc: QuantumCircuit)
  {
    forall k :: 0 <= k < |qc.gates| ==> GateFits(qc.gates[k], qc.numQubits)
  }

  /** Number of iterations of `range(n - 1)`: none when n is 0 or 1. */
  function ChainLength(n: nat): nat { if n == 0 then 0 else n - 1 }

  /** One RY gate per angle, angle i on qubit i, in increasing i. */
  function RotationLayer(angles: seq<real>): seq<Gate>
  {
    if |angles| == 0 then []
    else RotationLayer(angles[..|angles| - 1]) + [RY(angles[|angles| - 1], |angles| - 1)]
  }

  /** The linear entangling chain CX(0, 1), CX(1, 2), ..., CX(n - 2, n - 1). */
  function EntanglingChain(n: nat): seq<Gate>
  {
    if n <= 1 then [] else EntanglingChain(n - 1) + [CX(n - 2, n - 1)]
  }

  /** How many features the encoding circuit uses: `features[:n]` keeps at most n. */
  function EncodedCount(features: seq<real>, n: nat): nat { Min(|features|, n) }

  /** Gates of the encoding circuit on n qubits. */
  function EncodingLayout(features: seq<real>, n: nat): seq<Gate>
  {
    RotationLayer(features[..EncodedCount(features, n)]) + EntanglingChain(n)
  }

  /** Gates of the variational circuit on n qubits; both rotation layers read
      the parameter list, so it must hold 2n values. */
  function VariationalLayout(parameters: seq<real>, n: nat): seq<Gate>
    requires |parameters| >= 2 * n
  {
    RotationLayer(parameters[..n]) + EntanglingChain(n) + RotationLayer(parameters[n..2 * n])
  }

  lemma {:induction false} RotationLayerAt(angles: seq<real>)
    ensures |RotationLayer(angles)| == |angles|
    ensures forall i :: 0 <= i < |angles| ==> RotationLayer(angles)[i] == RY(angles[i], i)
  {
    if |angles| > 0 {
      RotationLayerAt(angles[..|angles| - 1]);
    }
  }

  lemma {:induction false} EntanglingChainAt(n: nat)
    ensures |EntanglingChain(n)| == ChainLength(n)
    ensures forall j :: 0 <= j < ChainLength(n) ==> EntanglingChain(n)[j] == CX(j, j + 1)
  {
    if n > 1 {
      EntanglingChainAt(n - 1);
    }
  }

  /** The encoding circuit is RY(features[i], i) for each i < min(|features|, n),
      then exactly ChainLength(n) gates CX(j, j + 1), and touches only its n qubits. */
  lemma EncodingShape(features: seq<real>, n: nat)
    ensures |EncodingLayout(features, n)| == EncodedCount(features, n) + ChainLength(n)
    ensures forall i :: 0 <= i < EncodedCount(features, n) ==>
      EncodingLayout(features, n)[i] == RY(features[i], i)
    ensures forall k :: EncodedCount(features, n) <= k < |EncodingLayout(features, n)| ==>
      EncodingLayout(features, n)[k] == CX(k - EncodedCount(features, n), k - EncodedCount(features, n) + 1)
    ensures WellFormed(QuantumCircuit(n, EncodingLayout(features, n)))
  {
    var m := EncodedCount(features, n);
    RotationLayerAt(features[..m]);
    EntanglingChainAt(n);
  }

  /** Features beyond the first n are silently dropped. */
  lemma EncodingDropsExtraFeatures(features: seq<real>, extra: seq<real>, n: nat)
    requires |features| >= n
    ensures EncodingLayout(features + extra, n) == EncodingLayout(features, n)
  {
    assert (features + extra)[..n] == features[..n];
  }

  /** A qubit beyond the last feature gets no rotation at all. */
  lemma EncodingLeavesUnfedQubitsUnrotated(features: seq<real>, n: nat, q: nat)
    requires |features| <= q < n
    ensures forall k :: 0 <= k < |EncodingLayout(features, n)| ==>
      !(EncodingLayout(features, n)[k].RY? && EncodingLayout(features, n)[k].qubit == q)
  {
    EncodingShape(features, n);
  }

  /** The variational circuit is RY(p[i], i) for all i < n, the CX chain, then
      RY(p[n + i], i) for all i < n: 3n - 1 gates when n >= 1, and all of them
      fit the register. */
  lemma VariationalShape(parameters: seq<real>, n: nat)
    requires |parameters| >= 2 * n
    ensures |VariationalLayout(parameters, n)| == 2 * n + ChainLength(n)
    ensures n >= 1 ==> |VariationalLayout(parameters, n)| == 3 * n - 1
    ensures forall i :: 0 <= i < n ==> VariationalLayout(parameters, n)[i] == RY(parameters[i], i)
    ensures forall k :: n <= k < n + ChainLength(n) ==>
      VariationalLayout(parameters, n)[k] == CX(k - n, k - n + 1)
    ensures forall k :: n + ChainLength(n) <= k < 2 * n + ChainLength(n) ==>
      VariationalLayout(parameters, n)[k] == RY(parameters[k - ChainLength(n)], k - n - ChainLength(n))
    ensures WellFormed(QuantumCircuit(n, VariationalLayout(parameters, n)))
  {
    RotationLayerAt(parameters[..n]);
    EntanglingChainAt(n);
    RotationLayerAt(parameters[n..2 * n]);
  }

  /** The variational circuit is the encoding circuit of its first n parameters
      followed by a second rotation layer driven by the next n. */
  lemma VariationalExtendsEncoding(parameters: seq<real>, n: nat)
    requires |parameters| >= 2 * n
    ensures VariationalLayout(parameters, n) ==
      EncodingLayout(parameters[..n], n) + RotationLayer(parameters[n..2 * n])
  {
    assert parameters[..n][..EncodedCount(parameters[..n], n)] == parameters[..n];
  }
}
