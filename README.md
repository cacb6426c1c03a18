# AURA400 emotional core — a Dafny model

This project models the parts of the AURA400 demo that have logic of their
own. The demo has two programs.

- `aura_live.py` is a live dashboard around `QuantumEmotionalCore`. The model
  covers:
  - the counters the core keeps for each processing cycle: `executions`,
    `errors`, `success_rate`, `avg_intensity` and `last_execution_time`;
  - how the emotion state is renormalised after every simulation;
  - the small circuit the core lays out over at most eight qubits;
  - the one-hot emotional vector set by `/api/feel`;
  - the seven-line plain-text body of `/metrics`.
- `aura400_prod.py` is a command-line circuit builder, `Aura400Circuit`. The
  model covers:
  - the gate layout over `n_cells` cells of `qubits_per_cell` qubits: a
    Hadamard layer, then intra-cell rotations, a ring of inter-cell swaps and
    one feedback rotation per cell;
  - the parameter-count check and the result bookkeeping of
    `execute_circuit`;
  - the emotion encoder and the validation of the command-line arguments.

Circuits are gate logs: each Qiskit call becomes one `Gate` value (`gates.dfy`),
appended in program order. The simulators, the random generator and the clock
are not modelled. What they produce is passed in as input:
- what a simulation step did (`SimStep`: completed with a reading, reported
  failure, or raised);
- the reading of the classical fallback;
- the uniform noise and the Dirichlet draw;
- the normal samples of the encoder;
- the backend's outcome (`BackendRun`).

Files:
- `wrappers.dfy`: the `Option` and `Result` datatypes.
- `text.dfy`: ASCII lower-casing, decimal formatting of naturals, and `join`
  and `split` on one separator character.
- `gates.dfy`: the gate datatype and what a well-formed gate log is.
- `aura400_prod.dfy`: the `Aura400Prod` module with the class `Aura400Circuit`.
- `aura_live_core.dfy`: the `AuraLiveCore` module. It holds the class
  `QuantumEmotionalCore` and a value-level specification of one cycle
  (`Cycle`) and of a sequence of cycles (`Run`).
- `aura_live_api.dfy`: the `AuraLiveApi` module, for `/api/feel` and `/metrics`.

Behaviour of the code that the model keeps:
- `emotion_state` starts as eight zeros, both at construction and after
  `reset`; it is not a random distribution.
- Which steps a cycle can meet depends on the backend mode (`StepFitsMode`).
  With the simulator on, `real_quantum_simulation` catches every error of its
  own and returns false, so the cycle's `except` branch is never reached.
  Without it, `classical_quantum_simulation` always returns true. The mode
  changes only in `__init__`, which also zeroes the counters.
- So `success_rate == 100 × (executions − errors) / executions` holds after
  every cycle (`MetricsInvariant`). With the simulator on, failed simulations
  are never counted as errors, and the rate stays at 100 however many of them
  fail (`SimulatorRateStaysFull`).
- The running mean of `avg_intensity` is not the mean of all readings; see
  Findings.

## Model

| member | source | states |
|---|---|---|
| `Aura400Prod.FirstArgProblem` | aura400_prod.py:74-84 | The checks run in order: intensity outside [0, 1] first, then shots below 1 (only when intensity passed), then an unknown lower-cased emotion, reported exactly when both earlier checks pass and a non-empty emotion is missing from the table. |
| `Aura400Prod.ValidateArgs` | aura400_prod.py:74-84 | True exactly when each given value passes its check. An empty emotion string skips the table check. |
| `Aura400Prod.ValidateArgsIgnoresCase` | aura400_prod.py:81 | Lower-casing the emotion first never changes the verdict. |
| `Aura400Prod.ValidatedEmotionIsKnown` | aura400_prod.py:81 | After validation succeeds, a non-empty emotion has its own table value; the encoder never falls back to 0.5 for it. |
| `Aura400Prod.BaseValue` | aura400_prod.py:199 | The value for the lower-cased label, or 0.5 for an unknown label; always within [0, 1]. |
| `Aura400Prod.Clip` | aura400_prod.py:202 | The result is in [0, 1]. It equals the input inside that range, 0 below it and 1 above it. |
| `Aura400Prod.EncodeEmotion` | aura400_prod.py:194-203 | One parameter per sample, each in [0, 1]. |
| `Aura400Prod.EncodeBase` | aura400_prod.py:202 | One clipped value per sample, each in [0, 1]. |
| `Aura400Prod.EncodeEmotionIgnoresCase` | aura400_prod.py:199 | Encoding a label gives the same result as encoding its lower-cased form. |
| `Aura400Prod.EncodeUnknownIsNeutral` | aura400_prod.py:199 | An unknown label encodes exactly as the neutral base 0.5 would. |
| `Aura400Prod.EncodeEmotionNearBase` | aura400_prod.py:202 | For a sample within three standard deviations, the parameter stays within 0.15 of `base × intensity`. |
| `Aura400Prod.IntraCellSound` | aura400_prod.py:120-127 | Every intra-cell gate has both qubits below `total_qubits`, and each control differs from its target. |
| `Aura400Prod.IntraCellFullCells` | aura400_prod.py:122-127 | With at least four qubits per cell, each cell contributes exactly CRY(i, i+1), CRY(i+2, i+3), CZ(i+1, i+2), in that order. |
| `Aura400Prod.InterCellAt` | aura400_prod.py:129-133 | The j-th swap pairs cell start `i + j·q` with the next start modulo the total. |
| `Aura400Prod.InterCellLength` | aura400_prod.py:131 | There is one swap per cell. |
| `Aura400Prod.InterCellSwapEnds` | aura400_prod.py:131-133 | Swap j pairs `j·q` with `(j+1)·q`, except the last, which wraps to qubit 0. Its two qubits are equal exactly when there is one cell. |
| `Aura400Prod.InterCellRing` | aura400_prod.py:129-133 | The n swaps form a ring: each one ends where the next begins, the last closes on qubit 0, and every index is below the total. |
| `Aura400Prod.FeedbackAt` | aura400_prod.py:135-138 | The j-th feedback gate is an RY on cell start `i + j·q`, with parameter index `(i + j·q) // q`. |
| `Aura400Prod.FeedbackLength` | aura400_prod.py:137 | There is one feedback rotation per cell. |
| `Aura400Prod.FeedbackPerCell` | aura400_prod.py:135-138 | Rotation k acts on qubit `k·q` with parameter k. All parameter indices are below `n_cells`. |
| `Aura400Prod.LayoutSound` | aura400_prod.py:106-118 | The circuit starts with H on every qubit, in order. The whole gate log is well formed: every index is in range, each control differs from its target, and every parameter is below `n_cells`. |
| `Aura400Prod.ParamNamesDistinct` | aura400_prod.py:101 | Different indices give different parameter names `θ[k]`. |
| `Aura400Prod.Aura400Circuit.constructor` | aura400_prod.py:96-104 | Stores the sizes and the backend. `total_qubits == n_cells × qubits_per_cell`, and there is no result yet. |
| `Aura400Prod.Aura400Circuit.BuildIntraCellConnections` | aura400_prod.py:120-127 | Appends the intra-cell layer. A zero step makes `range` raise. |
| `Aura400Prod.Aura400Circuit.BuildInterCellConnections` | aura400_prod.py:129-133 | Appends the ring of swaps. A zero step makes `range` raise. |
| `Aura400Prod.Aura400Circuit.AddEmotionalFeedback` | aura400_prod.py:135-138 | Appends one RY per cell. A zero step makes `range` raise. |
| `Aura400Prod.Aura400Circuit.BuildCircuit` | aura400_prod.py:106-118 | The Hadamard, intra-cell, inter-cell and feedback layers, in that order, or the range error. A built circuit is well formed. |
| `Aura400Prod.Aura400Circuit.ExecuteCircuit` | aura400_prod.py:140-176 | A parameter vector of the wrong length fails before anything is built. Otherwise a build error or a backend crash propagates. A success records fidelity, shots, backend and sizes as the last result. A failure leaves the last result as it was. |
| `Aura400Prod.Aura400Circuit.EmotionToParams` | aura400_prod.py:194-203 | Exactly `n_cells` parameters, each in [0, 1]. |
| `Aura400Prod.Aura400Circuit.FeelEmotion` | aura400_prod.py:205-215 | Runs the encoded parameters, whose count always matches. The result echoes the emotion and the intensity unchanged, and the same result is stored as the last result. |
| `Aura400Prod.Aura400Circuit.GetCircuitInfo` | aura400_prod.py:178-186 | Lists exactly `n_cells` distinct parameter names. `total_qubits == n_cells × qubits_per_cell`. |
| `AuraLiveCore.NextEmotionState` | aura_live.py:304-314 | When the perturbed vector has a positive sum, the new state has the same length and sums to 1. Otherwise it is the Dirichlet draw. |
| `AuraLiveCore.NextEmotionStateIsDistribution` | aura_live.py:304-314 | With a non-negative vector, non-negative noise and a Dirichlet draw, the new state is a distribution over the eight emotions: non-negative and summing to 1. |
| `AuraLiveCore.SumDivided` | aura_live.py:312 | Dividing every entry by d divides the sum by d. |
| `AuraLiveCore.InitialMetrics` | aura_live.py:105-112 | A fresh or reset core has 0 executions, 0 errors, average 0 and a success rate of 100. |
| `AuraLiveCore.SuccessRateBounds` | aura_live.py:218-221 | The recomputed rate lies in [0, 100], and it is 100 when there is no error. |
| `AuraLiveCore.SuccessRateMonotone` | aura_live.py:206-211 | With errors fixed, one more execution never lowers the rate. |
| `AuraLiveCore.Cycle` | aura_live.py:191-222 | Every path adds one execution. Only the exception path adds an error. The rate is recomputed on the completed and exception paths only. A reported failure changes only the time and the execution count. The average reads the count before the increment on a completed step and after it on the exception path. The emotion state is renormalised whenever a simulation runs. |
| `AuraLiveCore.CycleKeepsInvariant` | aura_live.py:191-240 | Every cycle whose step its backend mode can produce keeps the invariant. Errors ≤ executions, and errors stay 0 with the simulator on. Once a cycle has run, the rate equals `100 × (executions − errors) / max(1, executions)` exactly. Before that, the rate is 100 with no average and no time. The emotion state is all zero or a distribution. |
| `AuraLiveCore.RunCounts` | aura_live.py:206-217 | After any sequence of cycles in one mode, executions grew by the number of cycles and errors by the number of raised ones. The invariant still holds, so the rate is exactly the non-error share. |
| `AuraLiveCore.SimulatorRateStaysFull` | aura_live.py:197-211 | With the simulator on, errors stay 0 and the rate stays 100 after any sequence of cycles, including cycles whose simulation fails. |
| `AuraLiveCore.TenCyclesTwoErrors` | aura_live.py:206-221 | Ten classical cycles that raise on the third and seventh leave 10 executions, 2 errors and a rate of 80. |
| `AuraLiveCore.MeanStep` | aura_live.py:264-270 | If the average is the mean of k values, folding in x with count k + 1 gives the mean of k + 1 values. |
| `AuraLiveCore.AvgOfCompletedSkipsFirst` | aura_live.py:264-270 | As written: after two or more completed cycles from a fresh core, the average is the mean of every reading except the first. |
| `AuraLiveCore.AvgTwoCompletedCounterexample` | aura_live.py:264-270 | Readings 1 and 0 leave an average of 0, not their mean 0.5. |
| `AuraLiveCore.AvgOfRaisedIsMean` | aura_live.py:295-301 | Corrected: with the count read after the increment, as on the exception path, the average after any cycles from a fresh core is the mean of all readings. |
| `AuraLiveCore.InitFromShape` | aura_live.py:168-174 | Loop step `i + k` places its Hadamard on `(i + k) mod active`, one per step and in order. Every gate is inside the register, and every CNOT joins a qubit to the next one. |
| `AuraLiveCore.InitFromHadamards` | aura_live.py:170-171 | The Hadamards, in order, act on `(i + k) mod active` for k = 0 … limit − i − 1. |
| `AuraLiveCore.InitFromInRegister` | aura_live.py:170-174 | Every Hadamard is inside the register, and every CNOT joins a qubit `b` to `b + 1` inside the register. |
| `AuraLiveCore.ParamsFromShape` | aura_live.py:176-183 | One rotation per qubit. Rotation j acts on qubit j with parameter j. |
| `AuraLiveCore.EntangleFromExact` | aura_live.py:185-189 | The entangling layer holds a gate exactly when it is CZ(a, a+1) with a even, a below the loop bound, and a+1 inside the register. |
| `AuraLiveCore.LiveCircuitSound` | aura_live.py:149-189 | Over `min(8, TOTAL_QUBITS)` qubits, every gate is inside the register, each control differs from its target, and each rotation parameter has a `theta` entry. |
| `AuraLiveCore.QuantumEmotionalCore.constructor` | aura_live.py:83-117 | Counters at their initial values, zero emotion state, a reading of 0.0 / 0.0 / 0.0 (intensity, coherence, entanglement), the sampled emotional vector, and the backend label chosen by whether the simulator loads. The simulation is on exactly when the simulator loads and the circuit can be built. |
| `AuraLiveCore.QuantumEmotionalCore.Reset` | aura_live.py:328-330 | The same state as a new core: counters back to 0 / 0 / 0 / 100, the reading back to 0.0 / 0.0 / 0.0, the emotion state back to zeros, and a new session. |
| `AuraLiveCore.QuantumEmotionalCore.Initialize` | aura_live.py:83-117 | The body of `__init__`, which both the constructor and `Reset` run. It sets the sizes from the configuration, zeroes the emotion state and the reading, stores the sampled vector, the session and fresh metrics, and sets up the backend. |
| `AuraLiveCore.QuantumEmotionalCore.InitializeQuantumBackend` | aura_live.py:119-135 | The label says Aer whenever the simulator loads, even if building the circuit then turns the simulation off. |
| `AuraLiveCore.QuantumEmotionalCore.BuildQuantumCircuit` | aura_live.py:137-166 | Does nothing when the simulation is off. An empty register with at least one block raises on `i % 0` and turns the simulation off. Otherwise the circuit is the live layout, and the parameter names are `theta_0 … theta_{active-1}`. |
| `AuraLiveCore.QuantumEmotionalCore.InitializeQuantumState` | aura_live.py:168-174 | Appends the Hadamard/CNOT layer, or reports that `i % 0` raised and leaves the circuit as it was. |
| `AuraLiveCore.QuantumEmotionalCore.AddEmotionalParameters` | aura_live.py:176-183 | Appends one RY per qubit up to eight, and lists the matching parameter names. |
| `AuraLiveCore.QuantumEmotionalCore.AddEntanglementLayer` | aura_live.py:185-189 | Appends the CZ layer on the pairs (0, 1), (2, 3), … |
| `AuraLiveCore.QuantumEmotionalCore.UpdateEmotionalState` | aura_live.py:304-314 | The emotion state becomes the renormalised perturbed vector, or the draw. |
| `AuraLiveCore.QuantumEmotionalCore.UpdateAvgIntensity` | aura_live.py:264-270 | Folds the current intensity into the average, reading `executions` as it stands. Nothing else changes. |
| `AuraLiveCore.QuantumEmotionalCore.ProcessQuantumResults` | aura_live.py:242-270 | Stores the reading, renormalises the emotion state, and updates the average. |
| `AuraLiveCore.QuantumEmotionalCore.ClassicalQuantumSimulation` | aura_live.py:272-302 | The same updates as a completed simulation, and it always reports success. |
| `AuraLiveCore.QuantumEmotionalCore.ExecuteQuantumEmotionCycle` | aura_live.py:191-222 | The new state and the returned flag are those of `Cycle`, and the invariant is kept, so the rate stays the exact non-error share. Only the reading, the emotion state and the metrics change. |
| `AuraLiveCore.QuantumEmotionalCore.ReturnedCycle` | aura_live.py:197-212 | The `try` branch when the simulation returns, as `Cycle` describes it. |
| `AuraLiveCore.QuantumEmotionalCore.RaisedCycle` | aura_live.py:214-222 | The `except` branch, as `Cycle` describes it. |
| `AuraLiveCore.QuantumEmotionalCore.RecordExecution` | aura_live.py:203-211 | Sets the time and adds one execution. The rate is recomputed only on success. |
| `AuraLiveCore.QuantumEmotionalCore.RecordException` | aura_live.py:216-221 | Adds one error and one execution, then recomputes the rate. |
| `AuraLiveCore.QuantumEmotionalCore.GetMetrics` | aura_live.py:316-326 | The counters, the reading, the session, the backend label and the emotion state, as stored. |
| `AuraLiveApi.IndexOfEmotion` | aura_live.py:390-395 | Finds the first table position whose name matches, or reports that no entry matches. |
| `AuraLiveApi.OneHotIsDistribution` | aura_live.py:394-396 | The vector has 1.0 at the chosen index and 0 everywhere else, so it is a distribution. |
| `AuraLiveApi.RequestedEmotion` | aura_live.py:387 | A missing entry means "joy". A string is taken as given. Any other JSON value matches no name. |
| `AuraLiveApi.ApiFeel` | aura_live.py:384-409 | A body that is not a JSON object answers 500, and an unknown name answers 400; neither touches the core. A known name sets a length-8 vector with 1.0 exactly at that emotion, runs one cycle on it, and answers 200 with the flag, the name, the state and the metrics. Only the emotional vector and what the cycle writes can change. The session, the backend label and mode, the sizes and the circuit stay as they were. |
| `AuraLiveApi.MetricLines` | aura_live.py:356-364 | Seven lines in fixed order, each starting with its metric name and a space. Each line then holds its value: the two counters as decimal integers, then the average, the intensity, the coherence, the entanglement and the rate, in their text form. |
| `AuraLiveApi.MetricsBodyLayout` | aura_live.py:354-365 | When no formatted value contains a newline, the body splits back into exactly those seven lines and does not end with a newline. |

## Left out

- The Qiskit simulation is not modelled: transpile, run, the statevector, the
  fidelity, the partial trace and the entropy. A simulation step is an input
  (`SimStep`, `BackendRun`) that may complete with a reading, report failure,
  or raise.
- The classical fallback formulas are not modelled. They are trigonometric
  functions of wall-clock time; their reading is an input.
- Random numbers and ids are inputs: `rng.random`, `rng.normal`,
  `rng.dirichlet` and the uuid session id. The model covers only what is done
  with the samples, not their distribution.
- A reported failure (the real simulation returning false) is assumed to
  happen before `_process_quantum_results` changes any field. A raised step
  is assumed to raise before the simulation changes any field.
- `AuraLiveCore.QuantumEmotionalCore.ExecuteQuantumEmotionCycle`: it takes
  only steps that fit the backend mode. A reported failure needs the
  simulator, because the classical simulation always returns true. A raised
  step needs classical mode, because the real simulation catches its own
  errors. A raise from the clock or the logger, outside both simulations, is
  not modelled.
- `Aura400Prod.Aura400Circuit.constructor`: `Aer.get_backend` raises on an
  unknown backend name (aura400_prod.py:102). The model takes the backend name
  as valid and never fails there, because the set of names Aer accepts lies
  outside this model.
- Floating point is modelled with exact reals. NumPy's rounding is not
  modelled.
- `AuraLiveApi.MetricLines`: how a float is turned into text is a parameter
  (`show`). Only the integer counters are formatted exactly.
- Python's `str.lower` is modelled as ASCII lower-casing. The two differ on
  table lookups only if some non-ASCII character lower-cases to text that
  matches a key. The only such character is U+212A KELVIN SIGN, which becomes
  'k', and no emotion key contains a 'k'. (U+0130 becomes 'i' followed by a
  combining dot, which no key contains.) So table membership is the same
  under both.
- `ROTATION_ANGLE`, the fixed angle of the intra-cell CRY gates, is not
  recorded in the gate log.
- The backend's `name()` is taken to be the configured backend name.
- With one cell, the inter-cell layer records `Swap(0, 0)`. Whether Qiskit
  accepts a swap of a qubit with itself is not modelled.
- Sizes read from the environment are natural numbers. Negative values are
  not modelled.
- The `QUANTUM_BACKEND` value that `__init__` reads for the dashboard is not
  modelled, because `initialize_quantum_backend` always overwrites it.
- `/api/health`, `/api/metrics`, `/api/reset`, the security headers,
  CSRF/CORS, the error handler and the HTML dashboard are web plumbing and
  are not modelled. So are logging, `.env` loading and the shared global
  core (whose only relevance is concurrency).
- The command-line `main`, argument parsing, coloured printing, the JSON
  file written by `save_to` and the circuit diagram are I/O and are not
  modelled.
- `AuraLiveApi.IndexOfEmotion`: `api_feel` scans the table twice, once with
  `any` and once with `next`. One search serves both, because the table is
  constant and its names are distinct.

## Findings

| source | as written | input that shows it | evidently intended | confidence | as-written member | corrected member |
|---|---|---|---|---|---|---|
| aura_live.py:264-270 | On a completed cycle the running average reads `executions` before line 206 increments it. So the first reading is dropped once the second arrives, and from then on the average is the mean of readings 2..n. | Two completed cycles from a fresh core, with intensities 1.0 and 0.0, leave `avg_intensity == 0.0` instead of 0.5. | The running mean of all readings, `((avg × (n−1)) + x) / n` with n the count including this cycle. This is what the exception path computes. | not executed | `AuraLiveCore.AvgOfCompletedSkipsFirst`, `AuraLiveCore.AvgTwoCompletedCounterexample` | `AuraLiveCore.AvgOfRaisedIsMean` |
