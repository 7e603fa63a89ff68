# QuantumCircuitManager, modelled in Dafny

This project models `QuantumCircuitManager` from `src/circuits/quantum_manager.py` of
quantum-ml-platform. This class is the only part of the repository that has logic of its own. The rest
passes work on to Qiskit, PennyLane, MLflow, Prefect, FastAPI or Prometheus. The model covers:

- **The two circuit builders.** `create_encoding_circuit` and `create_variational_circuit`
  are methods of the class `QuantumManager.QuantumCircuitManager`. Each appends gates to a
  gate list in loops, and each is proved to build the layout given by a specification
  function (`Circuits.EncodingLayout`, `Circuits.VariationalLayout`). Lemmas in module
  `Circuits` state those layouts gate by gate: the RY rotations driven by the features or
  parameters, the linear CX chain `i -> i+1`, the second RY layer read from `parameters[n + i]`,
  the gate counts, and that every gate stays inside the `n`-qubit register. A parameter list
  shorter than `2n` makes `create_variational_circuit` raise an IndexError. The model
  returns an `Err(IndexError(k))` for this, where `k` is the first missing index.
- **The post-processing in `get_expectation_value`.** When no observable is given, it builds
  the default label list `['Z'] + ['I'] * (n - 1)`. It then takes the real part of the
  library's expectation value and clamps it to `[-1, 1]` when its magnitude exceeds 1,
  logging a warning in that case. The model records the warning as a flag.
- **`get_simple_expectation`.** It adds up `|a_i|^2` over the even indices `i`, which are
  the basis states where qubit 0 reads 0 under little-endian ordering, and returns
  `2 * prob_0 - 1`. The model works on the squared magnitudes directly. It is proved equal
  to `2 * SumParity(w, 0) - 1`, where `SumParity` is a recursive specification function.
  Lemmas then prove:
  - on a unit-norm state, the result equals `prob_0 - prob_1`;
  - the result lies in `[-1, 1]`;
  - basis states give `1` at even indices and `-1` at odd indices;
  - an equal superposition over an even number of basis states gives `0`.

In the model a qubit count is a `nat` and angles and probabilities are `real`. A circuit is
`QuantumCircuit(numQubits, gates)` with
`datatype Gate = RY(angle: real, qubit: nat) | CX(control: nat, target: nat)`.

Two edge cases of the code, which the model keeps:

- The code never checks that a statevector's length is a power of two. It also never
  rejects malformed input with an "invalid input" error, and `get_simple_expectation`
  only ever looks at qubit 0. The model does the same: `GetSimpleExpectation` accepts any
  sequence of weights.
- With `n_qubits == 0` the default label list is `['Z']`, one label and not zero, because
  `['I'] * -1` is empty. `Expectation.DefaultObservable` states this case.

## Model

| member | source | states |
|---|---|---|
| `QuantumManager.QuantumCircuitManager.constructor` | src/circuits/quantum_manager.py:15-17 | the manager keeps the qubit count it was given, 4 by default |
| `QuantumManager.QuantumCircuitManager.CreateEncodingCircuit` | src/circuits/quantum_manager.py:24-36 | the circuit has `n_qubits` qubits, its gates are exactly `EncodingLayout(features, n_qubits)`, and every gate fits the register |
| `QuantumManager.QuantumCircuitManager.CreateVariationalCircuit` | src/circuits/quantum_manager.py:38-54 | the circuit is built if and only if `len(parameters) >= 2 * n_qubits`; when built, it has `n_qubits` qubits, its gates are exactly `VariationalLayout(parameters, n_qubits)` and fit the register; otherwise the error is an IndexError at index `len(parameters)` |
| `QuantumManager.QuantumCircuitManager.AppendEntanglingChain` | src/circuits/quantum_manager.py:33-34 | the entangling loop appends exactly `EntanglingChain(n_qubits)` to the gates built so far |
| `QuantumManager.QuantumCircuitManager.GetSimpleExpectation` | src/circuits/quantum_manager.py:82-95 | the loop returns `2 * (sum of weights at even indices) - 1`; on a unit-norm state this is `prob_0 - prob_1`, and on non-negative weights summing to 1 it lies in `[-1, 1]` |
| `Circuits.RotationLayerAt` | src/circuits/quantum_manager.py:29-30 | a rotation layer has one gate per angle, and gate `i` is `RY(angles[i], i)` |
| `Circuits.EntanglingChainAt` | src/circuits/quantum_manager.py:33-34 | the chain has `n - 1` gates (none for `n = 0`), and gate `j` is `CX(j, j + 1)` |
| `Circuits.EncodingShape` | src/circuits/quantum_manager.py:24-36 | the encoding circuit is `RY(features[i], i)` for `i < min(len(features), n)` in increasing `i`, followed by exactly `n - 1` gates `CX(j, j + 1)` in order, and every qubit index is `< n` |
| `Circuits.EncodingDropsExtraFeatures` | src/circuits/quantum_manager.py:29 | features past the first `n` do not change the encoding circuit |
| `Circuits.EncodingLeavesUnfedQubitsUnrotated` | src/circuits/quantum_manager.py:29-30 | a qubit with no feature receives no RY gate |
| `Circuits.VariationalShape` | src/circuits/quantum_manager.py:42-52 | the variational circuit is `RY(p[i], i)` for all `i`, then the CX chain, then `RY(p[n + i], i)` for all `i`; that is `3n - 1` gates for `n >= 1`, all inside the register |
| `Circuits.VariationalExtendsEncoding` | src/circuits/quantum_manager.py:38-54 | the variational circuit is the encoding circuit of its first `n` parameters, followed by a rotation layer driven by the next `n` |
| `Expectation.DefaultObservable` | src/circuits/quantum_manager.py:58-61 | the default label list has `n_qubits` labels (one when `n_qubits == 0`); the first is `Z` and all others are `I` |
| `Expectation.ResolveObservable` | src/circuits/quantum_manager.py:58-61 | a given observable is used unchanged; when none is given, the list used is exactly the default label list `DefaultObservable(n_qubits)` |
| `Expectation.Clamp` | src/circuits/quantum_manager.py:74-78 | the result lies in `[-1, 1]`; it equals the input when `abs(x) <= 1`, and equals `1` or `-1` by the input's sign otherwise; a warning is raised exactly in the out-of-range case |
| `Expectation.ClampIdempotent` | src/circuits/quantum_manager.py:75-78 | clamping a clamped value changes nothing and raises no warning |
| `Expectation.ClampIsNearest` | src/circuits/quantum_manager.py:78 | the clamped value is the point of `[-1, 1]` nearest to the input |
| `Expectation.ExpectationValue` | src/circuits/quantum_manager.py:56-80 | the result of `get_expectation_value` lies in `[-1, 1]`; it is the real part of the library's value when that part is in range; otherwise it is exactly `1.0` when the real part exceeds 1 and `-1.0` when it is below -1; a warning is raised exactly in the out-of-range case |
| `Expectation.ExpectationValueIgnoresImaginaryPart` | src/circuits/quantum_manager.py:72 | two library results with the same real part give the same expectation value |
| `Expectation.ParitySplit` | src/circuits/quantum_manager.py:89-92 | the weights at even indices and at odd indices add up to the total weight |
| `Expectation.SumParityBounds` | src/circuits/quantum_manager.py:88-92 | with non-negative weights, the accumulated `prob_0` (and likewise `prob_1`) lies between 0 and the total |
| `Expectation.ZExpectationIsDifference` | src/circuits/quantum_manager.py:87-94 | on a unit-norm state, `2 * prob_0 - 1 == prob_0 - prob_1` |
| `Expectation.ZExpectationBounded` | src/circuits/quantum_manager.py:94 | on non-negative weights summing to 1, `2 * prob_0 - 1` lies in `[-1, 1]` |
| `Expectation.SumParityBasis` | src/circuits/quantum_manager.py:89-92 | on the basis state `k`, the even-index sum is 1 when `k` is even and 0 otherwise, and the odd-index sum is 1 when `k` is odd and 0 otherwise |
| `Expectation.BasisStateExpectation` | src/circuits/quantum_manager.py:89-94 | a basis state is a unit-norm state; state `k` gives `1` when `k` is even (so the all-zero state gives 1) and `-1` when `k` is odd |
| `Expectation.UniformParityBalanced` | src/circuits/quantum_manager.py:89-92 | on equal weights over an even number of indices, the even and odd sums are equal |
| `Expectation.UniformExpectationZero` | src/circuits/quantum_manager.py:89-94 | an equal superposition over an even number of basis states (`2^n` with `n >= 1`) gives expectation `0` |

## Left out

- `Statevector.from_instruction`, `statevector.expectation_value`, `sample_counts`: these are Qiskit calls. `run_simulation` and `compute_statevector` (src/circuits/quantum_manager.py:97-107) consist only of such calls, and `run_simulation` also samples at random. `GetSimpleExpectation` therefore receives the state's squared magnitudes as its input. `ExpectationValue` receives the whole library evaluation as an opaque function from labels to a complex number.
- What the library builds from the label list. The code passes the default observable to `SparsePauliOp` as a list of one-letter labels, not as one `n`-letter Pauli string. The model records only the list.
- Agreement between `get_expectation_value` and `get_simple_expectation`. The code does not promise it, so it is not modelled.
- Complex floating-point arithmetic and rounding: amplitudes are abstracted to their squared magnitudes as exact non-negative reals. NaN and infinity inputs to the clamp are not modelled.
- Logging: the warning text is not modelled. Only whether a warning is logged is recorded, as `Clamped.warned`. The constructor's logging setup (`logging.basicConfig` and the `logger.info` line, src/circuits/quantum_manager.py:17-22) is not modelled either.
- Expectation.ResolveObservable: a caller-supplied observable is modelled only as a list of one-letter Pauli labels (`Observable.Given`). The source accepts any library operator, such as a weighted `SparsePauliOp`. The library is opaque in the model, so no proved property depends on this.
- QuantumManager.QuantumCircuitManager.constructor: the qubit count is a `nat`. Python's `__init__` accepts any integer, and what Qiskit does with a negative register size is not modelled.
- Other gate kinds and Qiskit's circuit object: a circuit is only its qubit count and its gate list.
- `CreateVariationalCircuit`: on an IndexError, Python discards the partly built circuit along with the exception, so the model returns only the error, not the gates built before it.
- The rest of the repository is not part of this model: the PennyLane circuit in `src/circuits/basic_circuits.py`, the experiment-tracking wrapper, the REST and monitoring services, the workflow flows, the schemas and the scripts. All of them are I/O, external services or declarations.
