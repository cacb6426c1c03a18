/** The AURA400 circuit builder: the emotion table, command-line argument
    validation, the gate layout of `Aura400Circuit` over `n` cells of `q`
    qubits, the run bookkeeping of `execute_circuit`, the encoder that turns an
    emotion into one parameter per cell, and the circuit summary. */
module Aura400Prod {
  import opened Wrappers
  import opened Text
  import opened Gates

  const DEFAULT_N_CELLS: nat := 100
  const DEFAULT_QUBITS_PER_CELL: nat := 4
  const DEFAULT_BACKEND: string := "aer_simulator"

  /** Base value of an emotion missing from the table. */
  const NEUTRAL_BASE: real := 0.5
  /** Standard deviation of the per-cell noise around `base * intensity`. */
  const NOISE_SCALE: real := 0.05

  /** Base value of each basic emotion, keyed by its lower-case name. */
  const EMOTIONS: map<string, real> := map[
    "alegria" := 0.9,
    "tristeza" := 0.1,
    "miedo" := 0.2,
    "ira" := 0.3,
    "sorpresa" := 0.8,
    "asco" := 0.15,
    "confianza" := 0.7,
    "anticipacion" := 0.6
  ]

  // ---------------------------------------------------------------------------
  // Argument validation
  // ---------------------------------------------------------------------------

  /** The three optional command-line values that `validate_args` looks at. */
  datatype CliArgs = CliArgs(intensity: Option<real>, shots: Option<int>, emotion: Option<string>)

  /** The message `validate_args` prints before rejecting. */
  datatype ArgProblem = IntensityOutOfRange | ShotsNotPositive | UnknownEmotion

  /** The first check that fails, in the order `validate_args` runs them. */
  function FirstArgProblem(args: CliArgs): (p: Option<ArgProblem>)
    ensures (p == Some(IntensityOutOfRange)) <==>
      args.intensity.Some? && !(0.0 <= args.intensity.value <= 1.0)
    ensures (p == Some(ShotsNotPositive)) <==>
      (args.intensity.None? || 0.0 <= args.intensity.value <= 1.0) && args.shots.Some? && args.shots.value < 1
    ensures (p == Some(UnknownEmotion)) <==>
      && (args.intensity.None? || 0.0 <= args.intensity.value <= 1.0)
      && (args.shots.None? || args.shots.value >= 1)
      && args.emotion.Some? && args.emotion.value != [] && ToLower(args.emotion.value) !in EMOTIONS
    ensures p == None ==> args.emotion.None? || args.emotion.value == [] || ToLower(args.emotion.value) in EMOTIONS
  {
    if args.intensity.Some? && !(0.0 <= args.intensity.value <= 1.0) then Some(IntensityOutOfRange)
    else if args.shots.Some? && args.shots.value < 1 then Some(ShotsNotPositive)
    else if args.emotion.Some? && args.emotion.value != [] && ToLower(args.emotion.value) !in EMOTIONS then
      Some(UnknownEmotion)
    else None
  }

  /** `validate_args`: true exactly when no check fails. An empty emotion is
      falsy in Python and skips the table check. */
  function ValidateArgs(args: CliArgs): (ok: bool)
    ensures ok <==>
      (args.intensity.None? || 0.0 <= args.intensity.value <= 1.0)
      && (args.shots.None? || args.shots.value >= 1)
      && (args.emotion.None? || args.emotion.value == [] || ToLower(args.emotion.value) in EMOTIONS)
  {
    FirstArgProblem(args).None?
  }

  /** Validation ignores the case of the emotion name. */
  lemma ValidateArgsIgnoresCase(args: CliArgs)
    requires args.emotion.Some?
    ensures ValidateArgs(args) == ValidateArgs(args.(emotion := Some(ToLower(args.emotion.value))))
  {
    ToLowerIdempotent(args.emotion.value);
  }

  /** A validated, non-empty emotion name is always found in the table, so the
      encoder never falls back to the neutral base for it. */
  lemma ValidatedEmotionIsKnown(args: CliArgs)
    requires ValidateArgs(args) && args.emotion.Some? && args.emotion.value != []
    ensures BaseValue(args.emotion.value) == EMOTIONS[ToLower(args.emotion.value)]
  {
  }

  // ---------------------------------------------------------------------------
  // Emotion encoder
  // ---------------------------------------------------------------------------

  /** Table value for the lower-cased label, 0.5 when the label is unknown. */
  function BaseValue(emotion: string): (b: real)
    ensures 0.0 <= b <= 1.0
    ensures ToLower(emotion) !in EMOTIONS ==> b == NEUTRAL_BASE
    ensures ToLower(emotion) in EMOTIONS ==> b == EMOTIONS[ToLower(emotion)]
  {
    if ToLower(emotion) in EMOTIONS then EMOTIONS[ToLower(emotion)] else NEUTRAL_BASE
  }

  /** `np.clip(x, 0, 1)`. */
  function Clip(x: real): (c: real)
    ensures 0.0 <= c <= 1.0
    ensures 0.0 <= x <= 1.0 ==> c == x
    ensures x < 0.0 ==> c == 0.0
    ensures x > 1.0 ==> c == 1.0
  {
    if x < 0.0 then 0.0 else if x > 1.0 then 1.0 else x
  }

  /** One parameter per cell: each standard-normal sample `z[k]` is scaled to
      `base * intensity + 0.05 * z[k]` and clipped into [0, 1]. */
  function EncodeEmotion(emotion: string, intensity: real, z: seq<real>): (p: seq<real>)
    ensures |p| == |z|
    ensures forall k :: 0 <= k < |p| ==> 0.0 <= p[k] <= 1.0
  {
    EncodeBase(BaseValue(emotion), intensity, z)
  }

  /** The clipped samples around `base * intensity`. */
  function EncodeBase(base: real, intensity: real, z: seq<real>): (p: seq<real>)
    ensures |p| == |z|
    ensures forall k :: 0 <= k < |p| ==> 0.0 <= p[k] <= 1.0
  {
    seq(|z|, k requires 0 <= k < |z| => Clip(base * intensity + NOISE_SCALE * z[k]))
  }

  /** The encoder ignores the case of the label. */
  lemma EncodeEmotionIgnoresCase(emotion: string, intensity: real, z: seq<real>)
    ensures EncodeEmotion(emotion, intensity, z) == EncodeEmotion(ToLower(emotion), intensity, z)
  {
    ToLowerIdempotent(emotion);
  }

  /** An unknown label encodes exactly as the neutral base 0.5 would. */
  lemma EncodeUnknownIsNeutral(emotion: string, intensity: real, z: seq<real>)
    requires ToLower(emotion) !in EMOTIONS
    ensures EncodeEmotion(emotion, intensity, z) == EncodeBase(NEUTRAL_BASE, intensity, z)
  {
  }

  /** A sample within three standard deviations keeps the parameter within
      0.15 of `base * intensity` (clipping only moves it closer). */
  lemma EncodeEmotionNearBase(emotion: string, intensity: real, z: seq<real>, k: nat)
    requires k < |z| && -3.0 <= z[k] <= 3.0
    requires 0.0 <= intensity <= 1.0
    ensures var p := EncodeEmotion(emotion, intensity, z)[k];
            var m := BaseValue(emotion) * intensity;
            m - 0.15 <= p <= m + 0.15
  {
    var m := BaseValue(emotion) * intensity;
    assert 0.0 <= m <= 1.0 by {
      assert 0.0 <= BaseValue(emotion) <= 1.0;
    }
  }

  // ---------------------------------------------------------------------------
  // Gate layout
  // ---------------------------------------------------------------------------
  //
  // Each builder loops `for i in range(start, total, q)`; the layer functions
  // below follow the same recursion over the cell start `i`, so the loops are
  // proved against them directly, and the lemmas relate cell number `j` to its
  // start `j * q` separately.

  /** Hadamard on every qubit `0 .. total - 1`. */
  function HadamardLayer(total: nat): seq<Gate>
  {
    seq(total, q requires 0 <= q < total => H(q))
  }

  /** The gates of one cell starting at qubit `i`: the first controlled
      rotation needs `i + 1`, the second rotation and the phase gate need `i + 3`. */
  function CellGates(i: nat, total: nat): seq<Gate>
  {
    (if i + 1 < total then [CRY(i, i + 1)] else [])
    + (if i + 2 < total && i + 3 < total then [CRY(i + 2, i + 3), CZ(i + 1, i + 2)] else [])
  }

  /** Intra-cell gates of the cells starting at `i, i + q, ...` below `total`. */
  function IntraCellFrom(i: nat, q: nat, total: nat): seq<Gate>
    requires q > 0
    decreases total - i
  {
    if i >= total then [] else CellGates(i, total) + IntraCellFrom(i + q, q, total)
  }

  /** Inter-cell swaps: each cell start with the next one, modulo `total`. */
  function InterCellFrom(i: nat, q: nat, total: nat): seq<Gate>
    requires q > 0
    decreases total - i
  {
    if i >= total then [] else [Swap(i, (i + q) % total)] + InterCellFrom(i + q, q, total)
  }

  /** Feedback rotations: parameter `i // q` on qubit `i`. */
  function FeedbackFrom(i: nat, q: nat, total: nat): seq<Gate>
    requires q > 0
    decreases total - i
  {
    if i >= total then [] else [RY(i / q, i)] + FeedbackFrom(i + q, q, total)
  }

  /** The whole circuit of `n` cells of `q` qubits, in build order. */
  function Layout(n: nat, q: nat): seq<Gate>
    requires q > 0
  {
    var total := n * q;
    HadamardLayer(total) + IntraCellFrom(0, q, total) + InterCellFrom(0, q, total) + FeedbackFrom(0, q, total)
  }

  // Arithmetic on cell starts, kept in small lemmas of their own.

  lemma MulSucc(j: nat, q: nat)
    ensures (j + 1) * q == j * q + q
  {
  }

  /** Cell starts are ordered like cell numbers. */
  lemma MulStrictMono(k: nat, n: nat, q: nat)
    requires q > 0
    ensures k < n <==> k * q < n * q
  {
    if k < n {
      assert n * q == k * q + (n - k) * q;
    } else {
      assert k * q == n * q + (k - n) * q;
    }
  }

  lemma MulDivCancel(j: nat, q: nat)
    requires q > 0
    ensures (j * q) / q == j
  {
    var d := (j * q) / q;
    var r := (j * q) % q;
    assert j * q == d * q + r;
    MulStrictMono(d, j + 1, q);
    MulStrictMono(j, d + 1, q);
    MulSucc(d, q);
    MulSucc(j, q);
  }

  lemma ModBelow(x: nat, m: nat)
    requires x < m
    ensures x % m == x
  {
  }

  lemma ModSelf(m: nat)
    requires m > 0
    ensures m % m == 0
  {
  }

  /** Every intra-cell gate stays below `total` and never uses one qubit as
      both control and target. */
  lemma {:induction false} IntraCellSound(i: nat, q: nat, total: nat, m: nat)
    requires q > 0
    ensures WellFormed(IntraCellFrom(i, q, total), total, m)
    decreases total - i
  {
    if i < total {
      IntraCellSound(i + q, q, total, m);
      WellFormedConcat(CellGates(i, total), IntraCellFrom(i + q, q, total), total, m);
    }
  }

  /** With at least four qubits per cell every one of the `c` remaining cells
      is complete: three gates per cell, the first three being the two
      rotations and the phase gate of the first cell. */
  lemma {:induction false} IntraCellFullCells(i: nat, q: nat, total: nat, c: nat)
    requires 4 <= q && i + c * q == total
    ensures |IntraCellFrom(i, q, total)| == 3 * c
    ensures c > 0 ==> IntraCellFrom(i, q, total)[..3] == [CRY(i, i + 1), CRY(i + 2, i + 3), CZ(i + 1, i + 2)]
    decreases c
  {
    if c > 0 {
      MulSucc(c - 1, q);
      IntraCellFullCells(i + q, q, total, c - 1);
      assert CellGates(i, total) == [CRY(i, i + 1), CRY(i + 2, i + 3), CZ(i + 1, i + 2)];
    }
  }

  /** `c` remaining cells give `c` swaps, the `j`-th from the start of cell
      `j` to the next start, modulo `total`. */
  lemma {:induction false} InterCellAt(i: nat, q: nat, total: nat, c: nat, j: nat)
    requires q > 0 && i + c * q == total && j < c
    ensures |InterCellFrom(i, q, total)| == c
    ensures InterCellFrom(i, q, total)[j] == Swap(i + j * q, (i + j * q + q) % total)
    decreases c
  {
    MulSucc(c - 1, q);
    if j == 0 {
      InterCellLength(i + q, q, total, c - 1);
    } else {
      InterCellAt(i + q, q, total, c - 1, j - 1);
      MulSucc(j - 1, q);
    }
  }

  lemma {:induction false} InterCellLength(i: nat, q: nat, total: nat, c: nat)
    requires q > 0 && i + c * q == total
    ensures |InterCellFrom(i, q, total)| == c
    decreases c
  {
    if c > 0 {
      MulSucc(c - 1, q);
      InterCellLength(i + q, q, total, c - 1);
    }
  }

  /** The two ends of the `j`-th swap of an `n`-cell layout. */
  lemma InterCellSwapEnds(n: nat, q: nat, j: nat)
    requires q > 0 && j < n
    ensures |InterCellFrom(0, q, n * q)| == n
    ensures InterCellFrom(0, q, n * q)[j] == Swap(j * q, if j < n - 1 then (j + 1) * q else 0)
    ensures j * q < n * q && (j < n - 1 ==> (j + 1) * q < n * q)
    ensures j * q == (if j < n - 1 then (j + 1) * q else 0) <==> n == 1
  {
    InterCellAt(0, q, n * q, n, j);
    MulStrictMono(j, n, q);
    MulSucc(j, q);
    if j < n - 1 {
      MulStrictMono(j + 1, n, q);
      ModBelow((j + 1) * q, n * q);
      MulStrictMono(j, j + 1, q);
    } else {
      ModSelf(n * q);
      MulStrictMono(0, j, q);
    }
  }

  /** The inter-cell swaps form a ring over the cell starts: exactly `n`
      swaps, swap `j` starts at cell `j` and ends where swap `j + 1` starts,
      the last one wraps back to qubit 0, and a swap joins a qubit to itself
      exactly when there is a single cell. */
  lemma InterCellRing(n: nat, q: nat)
    requires n > 0 && q > 0
    ensures var L := InterCellFrom(0, q, n * q);
      && |L| == n
      && AllInRange(L, n * q)
      && (forall j :: 0 <= j < n ==> L[j].Swap? && L[j].a == j * q)
      && (forall j :: 0 <= j < n - 1 ==> L[j].b == L[j + 1].a)
      && L[n - 1].b == L[0].a == 0
      && (forall j :: 0 <= j < n ==> (L[j].a == L[j].b <==> n == 1))
  {
    var L := InterCellFrom(0, q, n * q);
    InterCellLength(0, q, n * q, n);
    forall j | 0 <= j < n
      ensures L[j].Swap? && L[j].a == j * q && InRange(L[j], n * q)
      ensures j < n - 1 ==> L[j].b == (j + 1) * q
      ensures j == n - 1 ==> L[j].b == 0
      ensures L[j].a == L[j].b <==> n == 1
    {
      InterCellSwapEnds(n, q, j);
    }
    forall j | 0 <= j < n - 1
      ensures L[j].b == L[j + 1].a
    {
    }
  }

  /** `c` remaining cells give `c` rotations, the `j`-th on the start of cell
      `j` with parameter `start // q`. */
  lemma {:induction false} FeedbackAt(i: nat, q: nat, total: nat, c: nat, j: nat)
    requires q > 0 && i + c * q == total && j < c
    ensures |FeedbackFrom(i, q, total)| == c
    ensures FeedbackFrom(i, q, total)[j] == RY((i + j * q) / q, i + j * q)
    decreases c
  {
    MulSucc(c - 1, q);
    if j == 0 {
      FeedbackLength(i + q, q, total, c - 1);
    } else {
      FeedbackAt(i + q, q, total, c - 1, j - 1);
      MulSucc(j - 1, q);
    }
  }

  lemma {:induction false} FeedbackLength(i: nat, q: nat, total: nat, c: nat)
    requires q > 0 && i + c * q == total
    ensures |FeedbackFrom(i, q, total)| == c
    decreases c
  {
    if c > 0 {
      MulSucc(c - 1, q);
      FeedbackLength(i + q, q, total, c - 1);
    }
  }

  /** One rotation per cell: rotation `j` acts on the start of cell `j` with
      parameter `j`, which is below `n`. */
  lemma FeedbackPerCell(n: nat, q: nat)
    requires q > 0
    ensures var F := FeedbackFrom(0, q, n * q);
      && |F| == n
      && (forall j :: 0 <= j < n ==> F[j] == RY(j, j * q))
      && WellFormed(F, n * q, n)
  {
    var F := FeedbackFrom(0, q, n * q);
    FeedbackLength(0, q, n * q, n);
    forall j | 0 <= j < n
      ensures F[j] == RY(j, j * q) && j * q < n * q
    {
      FeedbackAt(0, q, n * q, n, j);
      MulDivCancel(j, q);
      MulStrictMono(j, n, q);
    }
  }

  /** The built circuit: Hadamards on every qubit first, then the other
      layers; every gate is in range, every controlled gate has distinct
      qubits, every rotation uses an existing parameter. */
  lemma LayoutSound(n: nat, q: nat)
    requires q > 0
    ensures Layout(n, q)[..n * q] == HadamardLayer(n * q)
    ensures WellFormed(Layout(n, q), n * q, n)
  {
    var total := n * q;
    var Hs := HadamardLayer(total);
    var A := IntraCellFrom(0, q, total);
    var B := InterCellFrom(0, q, total);
    var F := FeedbackFrom(0, q, total);
    assert WellFormed(Hs, total, n);
    IntraCellSound(0, q, total, n);
    if n > 0 {
      InterCellRing(n, q);
    } else {
      assert B == [];
    }
    assert WellFormed(B, total, n);
    FeedbackPerCell(n, q);
    WellFormedConcat(Hs, A, total, n);
    WellFormedConcat(Hs + A, B, total, n);
    WellFormedConcat(Hs + A + B, F, total, n);
    assert Layout(n, q) == Hs + A + B + F;
  }

  // ---------------------------------------------------------------------------
  // The circuit object
  // ---------------------------------------------------------------------------

  /** Why building or running the circuit raised. */
  datatype CircuitError =
    | ZeroRangeStep                                  // `range(0, total, 0)` with zero qubits per cell
    | ParameterCountMismatch(expected: nat, received: nat)
    | BackendFailure                                 // binding, transpiling or running raised

  /** What the simulator gives back, reduced to the fidelity `|amplitude_0|^2`. */
  datatype BackendRun = Ran(fidelity: real) | Crashed

  datatype RunMetrics = RunMetrics(
    fidelity: real, shots: int, backend: string,
    nCells: nat, qubitsPerCell: nat, totalQubits: nat)

  /** The result dictionary; `emotion` and `intensity` are the keys
      `feel_emotion` adds. */
  datatype RunResult = RunResult(metrics: RunMetrics, emotion: Option<string>, intensity: Option<real>)

  datatype CircuitInfo = CircuitInfo(
    nCells: nat, qubitsPerCell: nat, totalQubits: nat, backend: string, params: seq<string>)

  /** `str` of the `k`-th element of the parameter vector named θ. */
  function ParamName(k: nat): string
  {
    "θ[" + NatToString(k) + "]"
  }

  /** Distinct parameter indices have distinct names, so binding by name
      reaches every cell. */
  lemma ParamNamesDistinct(j: nat, k: nat)
    ensures ParamName(j) == ParamName(k) ==> j == k
  {
    var a, b := NatToString(j), NatToString(k);
    if ParamName(j) == ParamName(k) {
      assert |a| == |b|;
      assert a == ParamName(j)[2 .. 2 + |a|];
      assert b == ParamName(k)[2 .. 2 + |b|];
    }
    NatToStringInjective(j, k);
  }

  class Aura400Circuit {
    const nCells: nat
    const qubitsPerCell: nat
    const totalQubits: nat := nCells * qubitsPerCell
    const backendName: string
    var lastResult: Option<RunResult>

    constructor (nCells: nat := DEFAULT_N_CELLS, qubitsPerCell: nat := DEFAULT_QUBITS_PER_CELL,
                 backendName: string := DEFAULT_BACKEND)
      ensures this.nCells == nCells && this.qubitsPerCell == qubitsPerCell
      ensures this.backendName == backendName
      ensures totalQubits == nCells * qubitsPerCell
      ensures lastResult == None
    {
      this.nCells := nCells;
      this.qubitsPerCell := qubitsPerCell;
      this.backendName := backendName;
      lastResult := None;
    }

    /** `_build_intra_cell_connections`: appends the gates of every cell to `qc`. */
    method BuildIntraCellConnections(qc: seq<Gate>) returns (r: Result<seq<Gate>, CircuitError>)
      ensures qubitsPerCell == 0 ==> r == Failure(ZeroRangeStep)
      ensures qubitsPerCell > 0 ==> r == Success(qc + IntraCellFrom(0, qubitsPerCell, totalQubits))
    {
      if qubitsPerCell == 0 {
        return Failure(ZeroRangeStep);
      }
      var out := qc;
      var i := 0;
      while i < totalQubits
        invariant out + IntraCellFrom(i, qubitsPerCell, totalQubits)
                  == qc + IntraCellFrom(0, qubitsPerCell, totalQubits)
        decreases totalQubits - i
      {
        var cell := [];
        if i + 1 < totalQubits {
          cell := cell + [CRY(i, i + 1)];
        }
        if i + 2 < totalQubits && i + 3 < totalQubits {
          cell := cell + [CRY(i + 2, i + 3), CZ(i + 1, i + 2)];
        }
        assert cell == CellGates(i, totalQubits);
        out := out + cell;
        i := i + qubitsPerCell;
      }
      assert IntraCellFrom(i, qubitsPerCell, totalQubits) == [];
      assert out + [] == out;
      return Success(out);
    }

    /** `_build_inter_cell_connections`: one swap per cell, closing a ring. */
    method BuildInterCellConnections(qc: seq<Gate>) returns (r: Result<seq<Gate>, CircuitError>)
      ensures qubitsPerCell == 0 ==> r == Failure(ZeroRangeStep)
      ensures qubitsPerCell > 0 ==> r == Success(qc + InterCellFrom(0, qubitsPerCell, totalQubits))
    {
      if qubitsPerCell == 0 {
        return Failure(ZeroRangeStep);
      }
      var out := qc;
      var i := 0;
      while i < totalQubits
        invariant out + InterCellFrom(i, qubitsPerCell, totalQubits)
                  == qc + InterCellFrom(0, qubitsPerCell, totalQubits)
        decreases totalQubits - i
      {
        var j := (i + qubitsPerCell) % totalQubits;
        out := out + [Swap(i, j)];
        i := i + qubitsPerCell;
      }
      assert InterCellFrom(i, qubitsPerCell, totalQubits) == [];
      assert out + [] == out;
      return Success(out);
    }

    /** `_add_emotional_feedback`: one parametrised rotation per cell. */
    method AddEmotionalFeedback(qc: seq<Gate>) returns (r: Result<seq<Gate>, CircuitError>)
      ensures qubitsPerCell == 0 ==> r == Failure(ZeroRangeStep)
      ensures qubitsPerCell > 0 ==> r == Success(qc + FeedbackFrom(0, qubitsPerCell, totalQubits))
    {
      if qubitsPerCell == 0 {
        return Failure(ZeroRangeStep);
      }
      var out := qc;
      var i := 0;
      while i < totalQubits
        invariant out + FeedbackFrom(i, qubitsPerCell, totalQubits)
                  == qc + FeedbackFrom(0, qubitsPerCell, totalQubits)
        decreases totalQubits - i
      {
        out := out + [RY(i / qubitsPerCell, i)];
        i := i + qubitsPerCell;
      }
      assert FeedbackFrom(i, qubitsPerCell, totalQubits) == [];
      assert out + [] == out;
      return Success(out);
    }

    /** `build_circuit`: Hadamards on all qubits, then intra-cell, inter-cell
        and feedback gates; fails when the cell width is zero. */
    method BuildCircuit() returns (r: Result<seq<Gate>, CircuitError>)
      ensures qubitsPerCell == 0 ==> r == Failure(ZeroRangeStep)
      ensures qubitsPerCell > 0 ==> r == Success(Layout(nCells, qubitsPerCell))
      ensures r.Success? ==> WellFormed(r.value, totalQubits, nCells)
    {
      var qc := seq(totalQubits, q requires 0 <= q < totalQubits => H(q));
      var step := BuildIntraCellConnections(qc);
      if step.Failure? {
        return step;
      }
      step := BuildInterCellConnections(step.value);
      if step.Failure? {
        return step;
      }
      step := AddEmotionalFeedback(step.value);
      if step.Success? {
        LayoutSound(nCells, qubitsPerCell);
      }
      return step;
    }

    /** `execute_circuit`: rejects a parameter vector of the wrong length
        before building anything, then builds and runs the circuit and
        records the result; on any failure `last_result` is left as it was. */
    method ExecuteCircuit(parameterValues: seq<real>, shots: int, run: BackendRun)
      returns (r: Result<RunResult, CircuitError>)
      modifies this`lastResult
      ensures |parameterValues| != nCells ==>
        r == Failure(ParameterCountMismatch(nCells, |parameterValues|))
      ensures |parameterValues| == nCells && qubitsPerCell == 0 ==> r == Failure(ZeroRangeStep)
      ensures |parameterValues| == nCells && qubitsPerCell > 0 && run.Crashed? ==> r == Failure(BackendFailure)
      ensures |parameterValues| == nCells && qubitsPerCell > 0 && run.Ran? ==>
        r == Success(RunResult(
          RunMetrics(run.fidelity, shots, backendName, nCells, qubitsPerCell, totalQubits), None, None))
      ensures r.Success? ==> lastResult == Some(r.value)
      ensures r.Failure? ==> lastResult == old(lastResult)
    {
      if |parameterValues| != nCells {
        return Failure(ParameterCountMismatch(nCells, |parameterValues|));
      }
      var circuit := BuildCircuit();
      if circuit.Failure? {
        return Failure(circuit.error);
      }
      if run.Crashed? {
        return Failure(BackendFailure);
      }
      var metrics := RunMetrics(run.fidelity, shots, backendName, nCells, qubitsPerCell, totalQubits);
      lastResult := Some(RunResult(metrics, None, None));
      r := Success(lastResult.value);
    }

    /** `emotion_to_params`: exactly `n_cells` values in [0, 1]. */
    function EmotionToParams(emotion: string, intensity: real, z: seq<real>): (p: seq<real>)
      requires |z| == nCells
      ensures |p| == nCells
      ensures forall k :: 0 <= k < |p| ==> 0.0 <= p[k] <= 1.0
    {
      EncodeEmotion(emotion, intensity, z)
    }

    /** `feel_emotion`: encodes, runs, and echoes the emotion and intensity
        into the returned result, which is the same dictionary as
        `last_result`. The encoder's vector always has the right length. */
    method FeelEmotion(emotion: string, intensity: real, shots: int, z: seq<real>, run: BackendRun)
      returns (r: Result<RunResult, CircuitError>)
      requires |z| == nCells
      modifies this`lastResult
      ensures r.Success? <==> qubitsPerCell > 0 && run.Ran?
      ensures r.Failure? ==> !r.error.ParameterCountMismatch? && lastResult == old(lastResult)
      ensures r.Success? ==>
        && r.value.metrics == RunMetrics(run.fidelity, shots, backendName, nCells, qubitsPerCell, totalQubits)
        && r.value.emotion == Some(emotion)
        && r.value.intensity == Some(intensity)
        && lastResult == Some(r.value)
    {
      var params := EmotionToParams(emotion, intensity, z);
      r := ExecuteCircuit(params, shots, run);
      if r.Success? {
        var echoed := r.value.(emotion := Some(emotion), intensity := Some(intensity));
        lastResult := Some(echoed);
        r := Success(echoed);
      }
    }

    /** `get_circuit_info`: one named parameter per cell. */
    function GetCircuitInfo(): (info: CircuitInfo)
      ensures info.nCells == nCells && info.qubitsPerCell == qubitsPerCell && info.backend == backendName
      ensures info.totalQubits == info.nCells * info.qubitsPerCell
      ensures |info.params| == nCells
      ensures forall k :: 0 <= k < nCells ==> info.params[k] == ParamName(k)
      ensures forall j, k :: 0 <= j < k < nCells ==> info.params[j] != info.params[k]
    {
      var names := seq(nCells, k requires 0 <= k < nCells => ParamName(k));
      assert forall j, k :: 0 <= j < k < nCells ==> names[j] != names[k] by {
        forall j, k | 0 <= j < k < nCells ensures names[j] != names[k] {
          ParamNamesDistinct(j, k);
        }
      }
      CircuitInfo(nCells, qubitsPerCell, totalQubits, backendName, names)
    }
  }
}
