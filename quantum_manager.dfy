/** QuantumCircuitManager: a manager fixed to a qubit count at construction
    that builds the encoding and variational circuits and computes the
    closed-form Z expectation on qubit 0.
 */
module QuantumManager {
  import opened Circuits
  import opened Expectation

  class QuantumCircuitManager {
    /** The register size every circuit of this manager is built on. */
    const nQubits: nat

    constructor (nQubits: nat := 4)
      ensures this.nQubits == nQubits
    {
      this.nQubits := nQubits;
    }

    /** `create_encoding_circuit`: one RY per feature (at most nQubits of them),
        then the CX chain. */
    method CreateEncodingCircuit(features: seq<real>) returns (qc: QuantumCircuit)
      ensures qc.numQubits == nQubits
      ensures qc.gates == EncodingLayout(features, nQubits)
      ensures WellFormed(qc)
    {
      var gates: seq<Gate> := [];
      var encoded := features[..EncodedCount(features, nQubits)];
      for i := 0 to |encoded|
        invariant gates == RotationLayer(encoded[..i])
      {
        assert encoded[..i + 1][..i] == encoded[..i];
        gates := gates + [RY(encoded[i], i)];
      }
      assert encoded[..|encoded|] == encoded;
      gates := AppendEntanglingChain(gates);
      qc := QuantumCircuit(nQubits, gates);
      EncodingShape(features, nQubits);
    }

    /** `create_variational_circuit`: RY(p[i], i) for every qubit, the CX chain,
        then RY(p[n + i], i) for every qubit. Reading a parameter that does not
        exist raises an IndexError; since indices are read in increasing order,
        the first missing one is always index |parameters|. */
    method CreateVariationalCircuit(parameters: seq<real>) returns (r: Result<QuantumCircuit>)
      ensures r.Ok? <==> |parameters| >= 2 * nQubits
      ensures r.Ok? ==> r.value.numQubits == nQubits
      ensures r.Ok? ==> |parameters| >= 2 * nQubits && r.value.gates == VariationalLayout(parameters, nQubits)
      ensures r.Ok? ==> WellFormed(r.value)
      ensures r.Err? ==> r.error == IndexError(|parameters|)
    {
      var gates: seq<Gate> := [];
      for i := 0 to nQubits
        invariant i <= |parameters|
        invariant gates == RotationLayer(parameters[..i])
      {
        if i >= |parameters| {
          return Err(IndexError(i));
        }
        assert parameters[..i + 1][..i] == parameters[..i];
        gates := gates + [RY(parameters[i], i)];
      }
      gates := AppendEntanglingChain(gates);
      ghost var afterChain := gates;
      var second: seq<Gate> := [];
      for i := 0 to nQubits
        invariant nQubits + i <= |parameters|
        invariant second == RotationLayer(parameters[nQubits..nQubits + i])
      {
        if nQubits + i >= |parameters| {
          return Err(IndexError(nQubits + i));
        }
        assert parameters[nQubits..nQubits + i + 1][..i] == parameters[nQubits..nQubits + i];
        second := second + [RY(parameters[nQubits + i], i)];
      }
      gates := gates + second;
      r := Ok(QuantumCircuit(nQubits, gates));
      VariationalShape(parameters, nQubits);
    }

    /** The entangling loop shared by both builders: CX(i, i + 1) for i in
        `range(nQubits - 1)`, appended to the gate list. */
    method AppendEntanglingChain(gates: seq<Gate>) returns (result: seq<Gate>)
      ensures result == gates + EntanglingChain(nQubits)
    {
      result := gates;
      for i := 0 to ChainLength(nQubits)
        invariant result == gates + EntanglingChain(i + 1)
      {
        result := result + [CX(i, i + 1)];
      }
    }

    /** `get_simple_expectation`, given the squared magnitudes `weights` of the
        circuit's statevector: accumulate the weights at even indices into
        prob_0 and return 2 * prob_0 - 1. */
    method GetSimpleExpectation(weights: seq<real>) returns (expectation: real)
      ensures expectation == ZExpectation(weights)
      ensures Total(weights) == 1.0 ==> expectation == SumParity(weights, 0) - SumParity(weights, 1)
      ensures IsDistribution(weights) ==> -1.0 <= expectation <= 1.0
    {
      var prob0 := 0.0;
      for i := 0 to |weights|
        invariant prob0 == SumParity(weights[..i], 0)
      {
        assert weights[..i + 1][..i] == weights[..i];
        if i % 2 == 0 {
          prob0 := prob0 + weights[i];
        }
      }
      assert weights[..|weights|] == weights;
      expectation := 2.0 * prob0 - 1.0;
      if Total(weights) == 1.0 {
        ZExpectationIsDifference(weights);
      }
      if IsDistribution(weights) {
        ZExpectationBounded(weights);
      }
    }
  }
}
