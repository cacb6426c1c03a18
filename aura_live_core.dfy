/** The quantum emotional core of the live dashboard: its counters, the
    emotion distribution it keeps, the small circuit it lays out over at most
    eight qubits, and one processing cycle along its success, reported-failure
    and exception paths.

    The simulator, the classical fallback formulas and the random generator
    are not modelled: a cycle receives what the simulation step did
    (`SimStep`), the reading the classical fallback would produce, the eight
    uniform noise samples and the Dirichlet draw as inputs. */
module AuraLiveCore {
  import opened Wrappers
  import opened Text
  import opened Gates

  const EMOTION_COUNT: nat := 8
  /** Scale of the uniform noise mixed into the emotional vector. */
  const NOISE_WEIGHT: real := 0.1
  /** The live circuit never uses more than this many qubits. */
  const MAX_ACTIVE_QUBITS: nat := 8
  /** The Hadamard/CNOT loop runs for at most this many blocks. */
  const MAX_INIT_STEPS: nat := 20
  /** The entangling loop looks at qubits below this bound. */
  const MAX_ENTANGLE_SPAN: nat := 16

  const BACKEND_DEFAULT: string := "QUANTUM_SIMULATOR"
  const BACKEND_AER: string := "QISKIT_AER_SIMULATOR"
  const BACKEND_CLASSICAL: string := "CLASSICAL_QUANTUM_SIMULATION"

  function Min(a: nat, b: nat): nat
  {
    if a <= b then a else b
  }

  // ---------------------------------------------------------------------------
  // Vectors of reals
  // ---------------------------------------------------------------------------

  function Sum(v: seq<real>): real
  {
    if v == [] then 0.0 else Sum(v[..|v| - 1]) + v[|v| - 1]
  }

  predicate NonNegative(v: seq<real>)
  {
    forall k :: 0 <= k < |v| ==> 0.0 <= v[k]
  }

  predicate AllZero(v: seq<real>)
  {
    forall k :: 0 <= k < |v| ==> v[k] == 0.0
  }

  /** A probability distribution over the eight emotions. */
  predicate IsDistribution(v: seq<real>)
  {
    |v| == EMOTION_COUNT && NonNegative(v) && Sum(v) == 1.0
  }

  function Zeros(n: nat): (v: seq<real>)
    ensures |v| == n && AllZero(v)
  {
    seq(n, k => 0.0)
  }

  /** `v / d`, element by element. */
  function Divided(v: seq<real>, d: real): seq<real>
    requires d != 0.0
  {
    seq(|v|, k requires 0 <= k < |v| => v[k] / d)
  }

  /** Dividing every element divides the sum. */
  lemma {:induction false} SumDivided(v: seq<real>, d: real)
    requires d != 0.0
    ensures Sum(Divided(v, d)) == Sum(v) / d
  {
    if v != [] {
      var n := |v|;
      assert Divided(v, d)[..n - 1] == Divided(v[..n - 1], d);
      SumDivided(v[..n - 1], d);
      assert Sum(Divided(v, d)) == Sum(v[..n - 1]) / d + v[n - 1] / d;
    }
  }

  // ---------------------------------------------------------------------------
  // Emotion state update
  // ---------------------------------------------------------------------------

  /** `emotional_vector + 0.1 * noise`. */
  function Perturbed(vector: seq<real>, noise: seq<real>): seq<real>
    requires |vector| == |noise|
  {
    seq(|vector|, k requires 0 <= k < |vector| => vector[k] + NOISE_WEIGHT * noise[k])
  }

  /** `update_emotional_state`: the perturbed vector divided by its sum when
      that sum is positive, the Dirichlet draw otherwise. */
  function NextEmotionState(vector: seq<real>, noise: seq<real>, draw: seq<real>): (s: seq<real>)
    requires |vector| == |noise|
    ensures Sum(Perturbed(vector, noise)) > 0.0 ==> |s| == |vector| && Sum(s) == 1.0
    ensures Sum(Perturbed(vector, noise)) <= 0.0 ==> s == draw
  {
    var base := Perturbed(vector, noise);
    var total := Sum(base);
    if total > 0.0 then
      SumDivided(base, total);
      assert Sum(base) / total == 1.0;
      Divided(base, total)
    else
      draw
  }

  /** With a non-negative vector and noise and a Dirichlet draw, the new
      emotion state is always a distribution over the eight emotions. */
  lemma NextEmotionStateIsDistribution(vector: seq<real>, noise: seq<real>, draw: seq<real>)
    requires |vector| == |noise| == EMOTION_COUNT
    requires NonNegative(vector) && NonNegative(noise) && IsDistribution(draw)
    ensures IsDistribution(NextEmotionState(vector, noise, draw))
  {
    var base := Perturbed(vector, noise);
    var total := Sum(base);
    if total > 0.0 {
      forall k | 0 <= k < |base|
        ensures 0.0 <= Divided(base, total)[k]
      {
        assert 0.0 <= base[k];
        QuotientNonNegative(base[k], total);
      }
    }
  }

  lemma QuotientNonNegative(a: real, b: real)
    requires 0.0 <= a && 0.0 < b
    ensures 0.0 <= a / b
  {
  }

  // ---------------------------------------------------------------------------
  // Counters and one cycle, as values
  // ---------------------------------------------------------------------------

  /** `quantum_intensity`, `phase_coherence` and `entanglement_measure` as one
      simulation step leaves them. */
  datatype Reading = Reading(intensity: real, coherence: real, entanglement: real)

  /** What the simulation step of a cycle did: finished with a reading,
      caught its own error and returned false, or raised. */
  datatype SimStep = Completed(reading: Reading) | ReportedFailure | Raised

  /** The `metrics` dictionary. */
  datatype Metrics = Metrics(
    executions: nat,
    errors: nat,
    avgIntensity: real,
    lastExecutionTime: Option<real>,
    successRate: real,
    startTime: real)

  function InitialMetrics(now: real): (m: Metrics)
    ensures m.executions == 0 && m.errors == 0 && m.avgIntensity == 0.0 && m.successRate == 100.0
  {
    Metrics(0, 0, 0.0, None, 100.0, now)
  }

  /** The part of the core a cycle reads and writes. */
  datatype CycleState = CycleState(
    metrics: Metrics, reading: Reading, emotionState: seq<real>, emotionalVector: seq<real>)

  /** Everything a cycle receives from outside: the simulation outcome, the
      reading of the classical fallback, eight uniform samples, a Dirichlet
      draw and the measured duration. */
  datatype CycleInput = CycleInput(
    step: SimStep, fallback: Reading, noise: seq<real>, draw: seq<real>, elapsed: real)

  datatype CycleOutcome = CycleOutcome(state: CycleState, success: bool)

  /** The running-average block of the two simulations, with `count` the
      value of `executions` it reads. */
  function RunningAvg(avg: real, count: nat, x: real): real
  {
    if count > 0 then (avg * (count - 1) as real + x) / count as real else x
  }

  /** `(executions - errors) / max(1, executions) * 100`. */
  function SuccessRate(executions: nat, errors: nat): real
  {
    (executions - errors) as real / (if executions < 1 then 1 else executions) as real * 100.0
  }

  lemma SuccessRateBounds(executions: nat, errors: nat)
    requires errors <= executions
    ensures 0.0 <= SuccessRate(executions, errors) <= 100.0
    ensures errors == 0 && executions > 0 ==> SuccessRate(executions, errors) == 100.0
  {
    var d := (if executions < 1 then 1 else executions) as real;
    var a := (executions - errors) as real;
    assert 0.0 <= a <= d;
    assert a / d <= 1.0;
  }

  /** With errors fixed, one more execution never lowers the rate. */
  lemma SuccessRateMonotone(executions: nat, errors: nat)
    requires errors <= executions && executions > 0
    ensures SuccessRate(executions, errors) <= SuccessRate(executions + 1, errors)
  {
    var e, r := executions as real, errors as real;
    var x, y := (e - r) / e, (e + 1.0 - r) / (e + 1.0);
    assert x * e == e - r;
    assert y * (e + 1.0) == e + 1.0 - r;
    assert (y - x) * (e * (e + 1.0)) == r;
    PositiveFactor(y - x, e * (e + 1.0), r);
  }

  lemma PositiveFactor(a: real, p: real, c: real)
    requires 0.0 < p && a * p == c && 0.0 <= c
    ensures 0.0 <= a
  {
  }

  /** What either simulation does once it has a reading: store it, update the
      emotion state, and fold the intensity into the average using `count`. */
  function Simulated(s: CycleState, rd: Reading, noise: seq<real>, draw: seq<real>, count: nat): CycleState
    requires |s.emotionalVector| == |noise|
  {
    s.(reading := rd,
       emotionState := NextEmotionState(s.emotionalVector, noise, draw),
       metrics := s.metrics.(avgIntensity := RunningAvg(s.metrics.avgIntensity, count, rd.intensity)))
  }

  /** One `execute_quantum_emotion_cycle`. Every path counts one execution;
      only the exception path counts an error; the rate is recomputed on a
      completed step and on the exception path but not when the simulation
      reports failure; the average reads the count before the increment on a
      completed step and after it on the exception path. */
  function Cycle(s: CycleState, input: CycleInput): (r: CycleOutcome)
    requires |s.emotionalVector| == |input.noise|
    ensures r.state.metrics.executions == s.metrics.executions + 1
    ensures r.state.metrics.errors == s.metrics.errors + (if input.step.Raised? then 1 else 0)
    ensures r.success <==> !input.step.ReportedFailure?
    ensures r.state.emotionalVector == s.emotionalVector
    ensures r.state.metrics.startTime == s.metrics.startTime
    ensures !input.step.ReportedFailure? ==>
      r.state.metrics.successRate == SuccessRate(r.state.metrics.executions, r.state.metrics.errors)
    ensures input.step.ReportedFailure? ==> r.state == s.(metrics := r.state.metrics)
    ensures input.step.ReportedFailure? ==>
      r.state.metrics.successRate == s.metrics.successRate
      && r.state.metrics.avgIntensity == s.metrics.avgIntensity
    ensures input.step.Completed? ==>
      var e := s.metrics.executions;
      && r.state.reading == input.step.reading
      && r.state.metrics.avgIntensity ==
           (if e == 0 then input.step.reading.intensity
            else (s.metrics.avgIntensity * (e - 1) as real + input.step.reading.intensity) / e as real)
    ensures input.step.Raised? ==>
      var e := s.metrics.executions;
      && r.state.reading == input.fallback
      && r.state.metrics.avgIntensity ==
           (s.metrics.avgIntensity * e as real + input.fallback.intensity) / (e + 1) as real
    ensures !input.step.ReportedFailure? ==>
      r.state.emotionState == NextEmotionState(s.emotionalVector, input.noise, input.draw)
    ensures input.step.Raised? ==> r.state.metrics.lastExecutionTime == s.metrics.lastExecutionTime
    ensures !input.step.Raised? ==> r.state.metrics.lastExecutionTime == Some(input.elapsed)
  {
    var m := s.metrics;
    match input.step
    case Completed(rd) =>
      var s1 := Simulated(s, rd, input.noise, input.draw, m.executions);
      var e := m.executions + 1;
      var m1 := s1.metrics.(lastExecutionTime := Some(input.elapsed), executions := e);
      CycleOutcome(s1.(metrics := m1.(successRate := SuccessRate(e, m1.errors))), true)
    case ReportedFailure =>
      CycleOutcome(s.(metrics := m.(lastExecutionTime := Some(input.elapsed), executions := m.executions + 1)), false)
    case Raised =>
      var e := m.executions + 1;
      var m1 := m.(errors := m.errors + 1, executions := e, successRate := SuccessRate(e, m.errors + 1));
      CycleOutcome(Simulated(s.(metrics := m1), input.fallback, input.noise, input.draw, e), true)
  }

  /** The steps a backend mode can produce. With the simulator on, the real
      simulation catches every error of its own and returns false, so the
      cycle never raises; the classical simulation always returns true, so
      without the simulator no step reports failure. */
  predicate StepFitsMode(aer: bool, input: CycleInput)
  {
    (aer ==> !input.step.Raised?) && (!aer ==> !input.step.ReportedFailure?)
  }

  /** What the counters promise between cycles: errors never exceed
      executions and stay 0 while the simulator is on; once a cycle has run,
      the rate is exactly `SuccessRate(executions, errors)`; before that it
      is 100, with no average and no time. */
  predicate MetricsInvariant(aer: bool, m: Metrics)
  {
    && m.errors <= m.executions
    && (aer ==> m.errors == 0)
    && 0.0 <= m.successRate <= 100.0
    && (m.executions > 0 ==> m.successRate == SuccessRate(m.executions, m.errors))
    && (m.executions == 0 ==> m.successRate == 100.0 && m.avgIntensity == 0.0 && m.lastExecutionTime.None?)
  }

  predicate StateInvariant(aer: bool, s: CycleState)
  {
    && MetricsInvariant(aer, s.metrics)
    && |s.emotionalVector| == EMOTION_COUNT && NonNegative(s.emotionalVector)
    && |s.emotionState| == EMOTION_COUNT
    && (AllZero(s.emotionState) || IsDistribution(s.emotionState))
  }

  /** The random samples a cycle may receive: eight uniform samples in [0, 1)
      and a Dirichlet draw over the eight emotions. */
  predicate ValidSamples(input: CycleInput)
  {
    && |input.noise| == EMOTION_COUNT
    && (forall k :: 0 <= k < |input.noise| ==> 0.0 <= input.noise[k] < 1.0)
    && IsDistribution(input.draw)
  }

  /** Every cycle whose step fits the backend mode keeps the invariant; in
      particular a reported failure, which leaves the rate as it was, only
      happens while the rate is 100 and stays right. */
  lemma CycleKeepsInvariant(aer: bool, s: CycleState, input: CycleInput)
    requires StateInvariant(aer, s) && ValidSamples(input) && StepFitsMode(aer, input)
    ensures StateInvariant(aer, Cycle(s, input).state)
  {
    var r := Cycle(s, input).state;
    var m, m' := s.metrics, r.metrics;
    SuccessRateBounds(m'.executions, m'.errors);
    if input.step.ReportedFailure? {
      if m.executions > 0 {
        SuccessRateBounds(m.executions, m.errors);
      }
    } else {
      NextEmotionStateIsDistribution(s.emotionalVector, input.noise, input.draw);
    }
  }

  /** The cycles of `inputs`, one after another, starting from `s`. */
  function Run(s: CycleState, inputs: seq<CycleInput>): (r: CycleState)
    requires |s.emotionalVector| == EMOTION_COUNT
    requires forall input <- inputs :: ValidSamples(input)
    ensures r.emotionalVector == s.emotionalVector
  {
    if inputs == [] then s
    else
      var before := Run(s, inputs[..|inputs| - 1]);
      var last := inputs[|inputs| - 1];
      assert last in inputs && ValidSamples(last);
      Cycle(before, last).state
  }

  function CountRaised(inputs: seq<CycleInput>): nat
  {
    if inputs == [] then 0
    else CountRaised(inputs[..|inputs| - 1]) + (if inputs[|inputs| - 1].step.Raised? then 1 else 0)
  }

  lemma CountRaisedPrefix(inputs: seq<CycleInput>, n: nat)
    requires 0 < n <= |inputs|
    ensures CountRaised(inputs[..n]) ==
      CountRaised(inputs[..n - 1]) + (if inputs[n - 1].step.Raised? then 1 else 0)
  {
    assert inputs[..n][..n - 1] == inputs[..n - 1];
  }

  /** After any sequence of cycles in one backend mode: executions grew by
      the number of cycles, errors by the number of raised steps, and the
      invariant still holds, so the rate is exactly the non-error share. */
  lemma {:induction false} RunCounts(aer: bool, s: CycleState, inputs: seq<CycleInput>)
    requires StateInvariant(aer, s)
    requires forall input <- inputs :: ValidSamples(input)
    requires forall input <- inputs :: StepFitsMode(aer, input)
    ensures Run(s, inputs).metrics.executions == s.metrics.executions + |inputs|
    ensures Run(s, inputs).metrics.errors == s.metrics.errors + CountRaised(inputs)
    ensures StateInvariant(aer, Run(s, inputs))
  {
    if inputs != [] {
      var init := inputs[..|inputs| - 1];
      var last := inputs[|inputs| - 1];
      assert last in inputs;
      RunCounts(aer, s, init);
      CycleKeepsInvariant(aer, Run(s, init), last);
    }
  }

  /** With the simulator on, failed simulations are never counted as errors:
      however many cycles report failure, the rate stays at 100. */
  lemma SimulatorRateStaysFull(s: CycleState, inputs: seq<CycleInput>)
    requires StateInvariant(true, s)
    requires forall input <- inputs :: ValidSamples(input)
    requires forall input <- inputs :: StepFitsMode(true, input)
    ensures Run(s, inputs).metrics.errors == 0
    ensures Run(s, inputs).metrics.successRate == 100.0
  {
    RunCounts(true, s, inputs);
    var m := Run(s, inputs).metrics;
    if m.executions > 0 {
      SuccessRateBounds(m.executions, m.errors);
    }
  }

  /** Ten classical cycles that raise on the third and seventh and complete
      otherwise leave 10 executions, 2 errors and a success rate of 80. */
  lemma TenCyclesTwoErrors(s: CycleState, inputs: seq<CycleInput>)
    requires StateInvariant(false, s) && s.metrics.executions == 0
    requires |inputs| == 10
    requires forall input <- inputs :: ValidSamples(input)
    requires forall i :: 0 <= i < 10 ==> (inputs[i].step.Raised? <==> i == 2 || i == 6)
    requires forall i :: 0 <= i < 10 ==> !inputs[i].step.ReportedFailure?
    ensures Run(s, inputs).metrics.executions == 10
    ensures Run(s, inputs).metrics.errors == 2
    ensures Run(s, inputs).metrics.successRate == 80.0
  {
    assert forall input <- inputs :: StepFitsMode(false, input);
    RunCounts(false, s, inputs);
    assert inputs[..0] == [];
    for n := 1 to 11
      invariant CountRaised(inputs[..n - 1]) ==
        (if n - 1 > 6 then 2 else if n - 1 > 2 then 1 else 0)
    {
      CountRaisedPrefix(inputs, n);
    }
    assert inputs[..10] == inputs;
    assert SuccessRate(10, 2) == 80.0;
  }

  // ---------------------------------------------------------------------------
  // The running average of intensity
  // ---------------------------------------------------------------------------

  function Intensities(inputs: seq<CycleInput>): seq<real>
    requires forall input <- inputs :: input.step.Completed?
  {
    seq(|inputs|, i requires 0 <= i < |inputs| => inputs[i].step.reading.intensity)
  }

  function FallbackIntensities(inputs: seq<CycleInput>): seq<real>
  {
    seq(|inputs|, i requires 0 <= i < |inputs| => inputs[i].fallback.intensity)
  }

  function Mean(xs: seq<real>): real
    requires |xs| > 0
  {
    Sum(xs) / |xs| as real
  }

  /** The step both average formulas share: if `avg` is the mean of `k`
      values, folding in `x` with count `k + 1` gives the mean of `k + 1`. */
  lemma MeanStep(xs: seq<real>, x: real, avg: real)
    requires |xs| > 0 && avg == Mean(xs)
    ensures RunningAvg(avg, |xs| + 1, x) == Mean(xs + [x])
  {
    var k := |xs| as real;
    assert (xs + [x])[..|xs|] == xs;
    assert Sum(xs + [x]) == Sum(xs) + x;
    assert avg * k == Sum(xs);
  }

  /** As written: on a run of completed steps from a fresh core the average
      reads the count before its increment, so after two or more cycles it
      is the mean of every intensity except the first. */
  lemma {:induction false} AvgOfCompletedSkipsFirst(s: CycleState, inputs: seq<CycleInput>)
    requires s.metrics.executions == 0
    requires |s.emotionalVector| == EMOTION_COUNT
    requires forall input <- inputs :: ValidSamples(input)
    requires forall input <- inputs :: input.step.Completed?
    requires |inputs| >= 2
    ensures Run(s, inputs).metrics.avgIntensity == Mean(Intensities(inputs)[1..])
  {
    var n := |inputs|;
    var init := inputs[..n - 1];
    var xs := Intensities(inputs);
    assert Intensities(init) == xs[..n - 1];
    RunExecutions(s, init);
    if n == 2 {
      var one := Run(s, init);
      assert one.metrics.executions == 1;
      assert xs[1..] == [xs[1]];
      assert Sum([xs[1]]) == xs[1] by {
        assert [xs[1]][..0] == [];
      }
    } else {
      AvgOfCompletedSkipsFirst(s, init);
      assert xs[..n - 1][1..] == xs[1..n - 1];
      assert xs[1..] == xs[1..n - 1] + [xs[n - 1]];
      MeanStep(xs[1..n - 1], xs[n - 1], Run(s, init).metrics.avgIntensity);
    }
  }

  /** Two completed cycles with intensities 1 and 0 leave an average of 0,
      not their mean 0.5. */
  lemma AvgTwoCompletedCounterexample(s: CycleState, a: CycleInput, b: CycleInput)
    requires s.metrics.executions == 0
    requires |s.emotionalVector| == EMOTION_COUNT && ValidSamples(a) && ValidSamples(b)
    requires a.step.Completed? && a.step.reading.intensity == 1.0
    requires b.step.Completed? && b.step.reading.intensity == 0.0
    ensures Run(s, [a, b]).metrics.avgIntensity == 0.0
    ensures Mean([1.0, 0.0]) == 0.5
  {
    assert [a, b][..1] == [a];
    assert [a][..0] == [];
    assert Run(s, []) == s;
    var one := Run(s, [a]);
    assert one == Cycle(s, a).state;
    assert one.metrics.executions == 1 && one.metrics.avgIntensity == 1.0;
    assert Run(s, [a, b]) == Cycle(one, b).state;
    assert [1.0, 0.0][..1] == [1.0];
    assert [1.0][..0] == [];
  }

  /** The intended running mean, which the exception path computes because it
      reads the count after the increment: on a run of raised steps from a
      fresh core the average is the mean of all fallback intensities. */
  lemma {:induction false} AvgOfRaisedIsMean(s: CycleState, inputs: seq<CycleInput>)
    requires s.metrics.executions == 0
    requires |s.emotionalVector| == EMOTION_COUNT
    requires forall input <- inputs :: ValidSamples(input)
    requires forall input <- inputs :: input.step.Raised?
    requires |inputs| >= 1
    ensures Run(s, inputs).metrics.avgIntensity == Mean(FallbackIntensities(inputs))
  {
    var n := |inputs|;
    var init := inputs[..n - 1];
    var xs := FallbackIntensities(inputs);
    assert FallbackIntensities(init) == xs[..n - 1];
    RunExecutions(s, init);
    if n == 1 {
      assert xs == [xs[0]];
      assert Sum([xs[0]]) == xs[0] by {
        assert [xs[0]][..0] == [];
      }
    } else {
      AvgOfRaisedIsMean(s, init);
      assert xs == xs[..n - 1] + [xs[n - 1]];
      MeanStep(xs[..n - 1], xs[n - 1], Run(s, init).metrics.avgIntensity);
    }
  }

  lemma {:induction false} RunExecutions(s: CycleState, inputs: seq<CycleInput>)
    requires |s.emotionalVector| == EMOTION_COUNT
    requires forall input <- inputs :: ValidSamples(input)
    ensures Run(s, inputs).metrics.executions == s.metrics.executions + |inputs|
  {
    if inputs != [] {
      RunExecutions(s, inputs[..|inputs| - 1]);
    }
  }

  // ---------------------------------------------------------------------------
  // The live circuit layout
  // ---------------------------------------------------------------------------

  /** Qubits in the live register: `min(8, total)`. */
  function ActiveQubits(total: nat): nat
  {
    Min(MAX_ACTIVE_QUBITS, total)
  }

  /** The gates of one Hadamard-loop step on qubit `b`: H, then a CNOT to
      the next qubit when there is one. */
  function InitStep(b: nat, active: nat): seq<Gate>
  {
    [H(b)] + (if b + 1 < active then [CX(b, b + 1)] else [])
  }

  /** `_initialize_quantum_state` from loop index `i` on: H on `i % active`,
      and a CNOT to the next qubit when there is one. */
  function InitFrom(i: nat, limit: nat, active: nat): seq<Gate>
    requires active > 0 || i >= limit
    decreases limit - i
  {
    if i >= limit then []
    else
      InitStep(i % active, active) + InitFrom(i + 1, limit, active)
  }

  /** `_add_emotional_parameters` from `i` on: RY with parameter `i` on qubit `i`. */
  function ParamsFrom(i: nat, limit: nat): seq<Gate>
    decreases limit - i
  {
    if i >= limit then [] else [RY(i, i)] + ParamsFrom(i + 1, limit)
  }

  function ThetaName(i: nat): string
  {
    "theta_" + NatToString(i)
  }

  /** `_add_entanglement_layer` from even `i` on: CZ between `i` and `i + 1`
      when `i + 1` is in the register. */
  function EntangleFrom(i: nat, limit: nat, active: nat): seq<Gate>
    decreases limit - i
  {
    if i >= limit then []
    else (if i + 1 < active then [CZ(i, i + 1)] else []) + EntangleFrom(i + 2, limit, active)
  }

  /** Whether the Hadamard loop gets through: it raises on `i % 0` unless
      the register has a qubit or the loop has no step at all. */
  predicate CircuitBuildable(nBlocks: nat, active: nat)
  {
    active > 0 || nBlocks == 0
  }

  /** The whole live circuit over `active` qubits. */
  function LiveCircuit(nBlocks: nat, active: nat): seq<Gate>
    requires CircuitBuildable(nBlocks, active)
  {
    InitFrom(0, Min(MAX_INIT_STEPS, nBlocks), active)
    + ParamsFrom(0, Min(MAX_ACTIVE_QUBITS, active))
    + EntangleFrom(0, Min(MAX_ENTANGLE_SPAN, active), active)
  }

  /** The qubits the Hadamards of `gs` act on, in order. */
  function HQubits(gs: seq<Gate>): seq<nat>
  {
    if gs == [] then [] else (if gs[0].H? then [gs[0].q] else []) + HQubits(gs[1..])
  }

  lemma {:induction false} HQubitsConcat(a: seq<Gate>, b: seq<Gate>)
    ensures HQubits(a + b) == HQubits(a) + HQubits(b)
  {
    if a != [] {
      assert (a + b)[1..] == a[1..] + b;
      HQubitsConcat(a[1..], b);
    } else {
      assert a + b == b;
    }
  }

  /** Loop step `i + k` puts its Hadamard on `(i + k) % active`; every gate is
      inside the register, and every CNOT joins a qubit to the next one. */
  lemma InitFromShape(i: nat, limit: nat, active: nat)
    requires (active > 0 || i >= limit) && i <= limit
    ensures HQubits(InitFrom(i, limit, active)) ==
      seq(limit - i, k requires 0 <= k < limit - i => (i + k) % active)
    ensures forall j :: 0 <= j < |InitFrom(i, limit, active)| ==>
      var g := InitFrom(i, limit, active)[j];
      (g.H? && g.q < active) || (g.CX? && g.target == g.control + 1 && g.target < active)
  {
    InitFromHadamards(i, limit, active);
    InitFromInRegister(i, limit, active);
  }

  lemma {:induction false} InitFromHadamards(i: nat, limit: nat, active: nat)
    requires (active > 0 || i >= limit) && i <= limit
    ensures HQubits(InitFrom(i, limit, active)) ==
      seq(limit - i, k requires 0 <= k < limit - i => (i + k) % active)
    decreases limit - i
  {
    if i < limit {
      InitFromHadamards(i + 1, limit, active);
      var b := i % active;
      var head: seq<Gate> := InitStep(b, active);
      var tail: seq<Gate> := InitFrom(i + 1, limit, active);
      HQubitsConcat(head, tail);
      assert HQubits(head) == [b] by {
        assert head[1..] == (if b + 1 < active then [CX(b, b + 1)] else []);
        if b + 1 < active {
          assert head[1..][1..] == [];
        }
      }
      assert InitFrom(i, limit, active) == head + tail;
    }
  }

  lemma {:induction false} InitFromInRegister(i: nat, limit: nat, active: nat)
    requires (active > 0 || i >= limit) && i <= limit
    ensures forall j :: 0 <= j < |InitFrom(i, limit, active)| ==>
      var g := InitFrom(i, limit, active)[j];
      (g.H? && g.q < active) || (g.CX? && g.target == g.control + 1 && g.target < active)
    decreases limit - i
  {
    if i < limit {
      InitFromInRegister(i + 1, limit, active);
      var head: seq<Gate> := InitStep(i % active, active);
      var tail: seq<Gate> := InitFrom(i + 1, limit, active);
      assert InitFrom(i, limit, active) == head + tail;
      forall j | 0 <= j < |head + tail|
        ensures var g := (head + tail)[j];
          (g.H? && g.q < active) || (g.CX? && g.target == g.control + 1 && g.target < active)
      {
        if j >= |head| {
          assert (head + tail)[j] == tail[j - |head|];
        }
      }
    }
  }

  /** The rotation layer: `limit - i` rotations, the `j`-th on qubit `i + j`
      with parameter `i + j`. */
  lemma {:induction false} ParamsFromShape(i: nat, limit: nat)
    requires i <= limit
    ensures |ParamsFrom(i, limit)| == limit - i
    ensures forall j :: 0 <= j < limit - i ==> ParamsFrom(i, limit)[j] == RY(i + j, i + j)
    decreases limit - i
  {
    if i < limit {
      ParamsFromShape(i + 1, limit);
    }
  }

  /** The entangling layer over even `i` holds exactly the gates
      `CZ(a, a + 1)` with `a` even, `i <= a < limit` and `a + 1 < active`. */
  lemma {:induction false} EntangleFromExact(i: nat, limit: nat, active: nat, g: Gate)
    requires i % 2 == 0
    ensures g in EntangleFrom(i, limit, active) <==>
      g.CZ? && g.a % 2 == 0 && i <= g.a < limit && g.b == g.a + 1 && g.b < active
    decreases limit - i
  {
    if i < limit {
      EntangleFromExact(i + 2, limit, active, g);
    }
  }

  /** Every gate of the live circuit is inside the register, controlled gates
      join two different qubits, and every rotation has its parameter. */
  lemma LiveCircuitSound(nBlocks: nat, active: nat)
    requires CircuitBuildable(nBlocks, active) && active <= MAX_ACTIVE_QUBITS
    ensures WellFormed(LiveCircuit(nBlocks, active), active, active)
  {
    var limit := Min(MAX_INIT_STEPS, nBlocks);
    var A := InitFrom(0, limit, active);
    var P := ParamsFrom(0, Min(MAX_ACTIVE_QUBITS, active));
    var E := EntangleFrom(0, Min(MAX_ENTANGLE_SPAN, active), active);
    InitFromShape(0, limit, active);
    ParamsFromShape(0, active);
    forall j | 0 <= j < |E|
      ensures InRange(E[j], active) && ControlDiffersFromTarget(E[j]) && ParamInRange(E[j], active)
    {
      EntangleFromExact(0, Min(MAX_ENTANGLE_SPAN, active), active, E[j]);
    }
    WellFormedConcat(A, P, active, active);
    WellFormedConcat(A + P, E, active, active);
  }

  // ---------------------------------------------------------------------------
  // The core object
  // ---------------------------------------------------------------------------

  /** `N_BLOCKS` and `QUBITS_PER_BLOCK` as read from the environment. */
  datatype Config = Config(nBlocks: nat, qubitsPerBlock: nat)

  /** What `get_metrics` returns. */
  datatype MetricsView = MetricsView(
    metrics: Metrics, reading: Reading, sessionId: string, backend: string, state: seq<real>)

  /** Values `rng.random(8)` can return. */
  predicate UniformSamples(v: seq<real>)
  {
    |v| == EMOTION_COUNT && forall k :: 0 <= k < |v| ==> 0.0 <= v[k] < 1.0
  }

  class QuantumEmotionalCore {
    var nBlocks: nat
    var qubitsPerBlock: nat
    var totalQubits: nat
    var emotionState: seq<real>
    var quantumIntensity: real
    var phaseCoherence: real
    var entanglementMeasure: real
    var emotionalVector: seq<real>
    var sensorFeedback: map<string, real>
    var sessionId: string
    var metrics: Metrics
    var backendType: string
    var qiskitAvailable: bool
    var circuit: seq<Gate>
    var thetaParams: seq<string>

    /** The fields a cycle reads and writes, as one value. */
    function State(): CycleState
      reads this
    {
      CycleState(metrics, Reading(quantumIntensity, phaseCoherence, entanglementMeasure),
                 emotionState, emotionalVector)
    }

    ghost predicate Valid()
      reads this
    {
      && totalQubits == nBlocks * qubitsPerBlock
      && StateInvariant(qiskitAvailable, State())
      && (qiskitAvailable ==>
            && CircuitBuildable(nBlocks, ActiveQubits(totalQubits))
            && circuit == LiveCircuit(nBlocks, ActiveQubits(totalQubits))
            && thetaParams == seq(ActiveQubits(totalQubits), i requires i >= 0 => ThetaName(i)))
    }

    /** `__init__`. `vector` is the `rng.random(8)` draw, `session` the new
        session id, `now` the clock, and `qiskitInstalled` whether the
        simulator backend could be loaded. */
    constructor (config: Config, vector: seq<real>, session: string, now: real, qiskitInstalled: bool)
      requires UniformSamples(vector)
      ensures Valid()
      ensures nBlocks == config.nBlocks && qubitsPerBlock == config.qubitsPerBlock
      ensures emotionalVector == vector && emotionState == Zeros(EMOTION_COUNT)
      ensures State().reading == Reading(0.0, 0.0, 0.0)
      ensures metrics == InitialMetrics(now) && sessionId == session
      ensures qiskitAvailable <==> qiskitInstalled && CircuitBuildable(nBlocks, ActiveQubits(totalQubits))
      ensures backendType == if qiskitInstalled then BACKEND_AER else BACKEND_CLASSICAL
    {
      new;
      Initialize(config, vector, session, now, qiskitInstalled);
    }

    /** `reset`: runs `__init__` again with fresh samples and a new session. */
    method Reset(config: Config, vector: seq<real>, session: string, now: real, qiskitInstalled: bool)
      requires UniformSamples(vector)
      modifies this
      ensures Valid()
      ensures nBlocks == config.nBlocks && qubitsPerBlock == config.qubitsPerBlock
      ensures emotionalVector == vector && emotionState == Zeros(EMOTION_COUNT)
      ensures State().reading == Reading(0.0, 0.0, 0.0)
      ensures metrics == InitialMetrics(now) && sessionId == session
      ensures qiskitAvailable <==> qiskitInstalled && CircuitBuildable(nBlocks, ActiveQubits(totalQubits))
      ensures backendType == if qiskitInstalled then BACKEND_AER else BACKEND_CLASSICAL
    {
      Initialize(config, vector, session, now, qiskitInstalled);
    }

    method Initialize(config: Config, vector: seq<real>, session: string, now: real, qiskitInstalled: bool)
      requires UniformSamples(vector)
      modifies this
      ensures Valid()
      ensures nBlocks == config.nBlocks && qubitsPerBlock == config.qubitsPerBlock
      ensures emotionalVector == vector && emotionState == Zeros(EMOTION_COUNT)
      ensures State().reading == Reading(0.0, 0.0, 0.0)
      ensures metrics == InitialMetrics(now) && sessionId == session
      ensures qiskitAvailable <==> qiskitInstalled && CircuitBuildable(nBlocks, ActiveQubits(totalQubits))
      ensures backendType == if qiskitInstalled then BACKEND_AER else BACKEND_CLASSICAL
    {
      nBlocks := config.nBlocks;
      qubitsPerBlock := config.qubitsPerBlock;
      totalQubits := nBlocks * qubitsPerBlock;
      emotionState := Zeros(EMOTION_COUNT);
      quantumIntensity, phaseCoherence, entanglementMeasure := 0.0, 0.0, 0.0;
      emotionalVector := vector;
      sensorFeedback := map["arousal" := 0.5, "valence" := 0.5, "dominance" := 0.5];
      sessionId := session;
      metrics := InitialMetrics(now);
      backendType := BACKEND_DEFAULT;
      InitializeQuantumBackend(qiskitInstalled);
    }

    /** `initialize_quantum_backend`: the backend label says Aer whenever the
        import succeeded, even if building the circuit then switches the
        simulation off. */
    method InitializeQuantumBackend(qiskitInstalled: bool)
      requires totalQubits == nBlocks * qubitsPerBlock
      modifies this`backendType, this`qiskitAvailable, this`circuit, this`thetaParams
      ensures backendType == if qiskitInstalled then BACKEND_AER else BACKEND_CLASSICAL
      ensures qiskitAvailable <==> qiskitInstalled && CircuitBuildable(nBlocks, ActiveQubits(totalQubits))
      ensures qiskitAvailable ==>
        && circuit == LiveCircuit(nBlocks, ActiveQubits(totalQubits))
        && thetaParams == seq(ActiveQubits(totalQubits), i requires i >= 0 => ThetaName(i))
    {
      if qiskitInstalled {
        backendType := BACKEND_AER;
        qiskitAvailable := true;
        BuildQuantumCircuit();
      } else {
        backendType := BACKEND_CLASSICAL;
        qiskitAvailable := false;
      }
    }

    /** `build_quantum_circuit`. With an empty register and at least one
        block, `i % 0` raises on the first Hadamard step and the simulation is
        switched off. */
    method BuildQuantumCircuit()
      modifies this`circuit, this`thetaParams, this`qiskitAvailable
      ensures qiskitAvailable <==> old(qiskitAvailable) && CircuitBuildable(nBlocks, ActiveQubits(totalQubits))
      ensures !old(qiskitAvailable) ==> circuit == old(circuit) && thetaParams == old(thetaParams)
      ensures qiskitAvailable ==>
        && circuit == LiveCircuit(nBlocks, ActiveQubits(totalQubits))
        && thetaParams == seq(ActiveQubits(totalQubits), i requires i >= 0 => ThetaName(i))
    {
      if !qiskitAvailable {
        return;
      }
      var active := ActiveQubits(totalQubits);
      circuit := [];
      var ok := InitializeQuantumState(active);
      if !ok {
        qiskitAvailable := false;
        return;
      }
      ghost var init := InitFrom(0, Min(MAX_INIT_STEPS, nBlocks), active);
      assert circuit == init by {
        assert [] + init == init;
      }
      AddEmotionalParameters(active);
      assert Min(MAX_ACTIVE_QUBITS, active) == active;
      AddEntanglementLayer(active);
    }

    /** `_initialize_quantum_state`; `ok` is false when `i % active` raised. */
    method InitializeQuantumState(active: nat) returns (ok: bool)
      modifies this`circuit
      ensures ok <==> CircuitBuildable(nBlocks, active)
      ensures ok ==> circuit == old(circuit) + InitFrom(0, Min(MAX_INIT_STEPS, nBlocks), active)
      ensures !ok ==> circuit == old(circuit)
    {
      var limit := Min(MAX_INIT_STEPS, nBlocks);
      var i := 0;
      while i < limit
        invariant i <= limit
        invariant active == 0 ==> i == 0 && circuit == old(circuit)
        invariant active > 0 ==> circuit + InitFrom(i, limit, active) == old(circuit) + InitFrom(0, limit, active)
      {
        if active == 0 {
          return false;
        }
        var baseIdx := i % active;
        circuit := circuit + [H(baseIdx)];
        if baseIdx + 1 < active {
          circuit := circuit + [CX(baseIdx, baseIdx + 1)];
        }
        i := i + 1;
      }
      assert InitFrom(i, limit, active) == [];
      assert circuit + [] == circuit;
      return true;
    }

    /** `_add_emotional_parameters`: one named parameter and one RY per qubit. */
    method AddEmotionalParameters(active: nat)
      modifies this`circuit, this`thetaParams
      ensures circuit == old(circuit) + ParamsFrom(0, Min(MAX_ACTIVE_QUBITS, active))
      ensures thetaParams == seq(Min(MAX_ACTIVE_QUBITS, active), i requires i >= 0 => ThetaName(i))
    {
      var limit := Min(MAX_ACTIVE_QUBITS, active);
      thetaParams := [];
      var i := 0;
      while i < limit
        invariant i <= limit
        invariant circuit + ParamsFrom(i, limit) == old(circuit) + ParamsFrom(0, limit)
        invariant thetaParams == seq(i, j requires j >= 0 => ThetaName(j))
      {
        var param := ThetaName(i);
        circuit := circuit + [RY(i, i)];
        thetaParams := thetaParams + [param];
        i := i + 1;
      }
      assert ParamsFrom(i, limit) == [];
      assert circuit + [] == circuit;
    }

    /** `_add_entanglement_layer`: CZ on the pairs `(0, 1), (2, 3), ...`. */
    method AddEntanglementLayer(active: nat)
      modifies this`circuit
      ensures circuit == old(circuit) + EntangleFrom(0, Min(MAX_ENTANGLE_SPAN, active), active)
    {
      var limit := Min(MAX_ENTANGLE_SPAN, active);
      var i := 0;
      while i < limit
        invariant circuit + EntangleFrom(i, limit, active) == old(circuit) + EntangleFrom(0, limit, active)
      {
        if i + 1 < active {
          circuit := circuit + [CZ(i, i + 1)];
        }
        i := i + 2;
      }
      assert EntangleFrom(i, limit, active) == [];
      assert circuit + [] == circuit;
    }

    /** `update_emotional_state` with the eight uniform samples `noise` and
        the Dirichlet draw `draw`. */
    method UpdateEmotionalState(noise: seq<real>, draw: seq<real>)
      requires |noise| == |emotionalVector|
      modifies this`emotionState
      ensures emotionState == NextEmotionState(emotionalVector, noise, draw)
    {
      var v := emotionalVector;
      var baseState := seq(|v|, k requires 0 <= k < |v| => v[k] + NOISE_WEIGHT * noise[k]);
      var total := Sum(baseState);
      if total > 0.0 {
        emotionState := seq(|baseState|, k requires 0 <= k < |baseState| => baseState[k] / total);
      } else {
        emotionState := draw;
      }
    }

    /** The running-average block both simulations end with; it reads
        `executions` as it stands. */
    method UpdateAvgIntensity()
      modifies this`metrics
      ensures metrics == old(metrics).(avgIntensity :=
        RunningAvg(old(metrics).avgIntensity, old(metrics).executions, quantumIntensity))
    {
      if metrics.executions > 0 {
        metrics := metrics.(avgIntensity :=
          (metrics.avgIntensity * (metrics.executions - 1) as real + quantumIntensity) / metrics.executions as real);
      } else {
        metrics := metrics.(avgIntensity := quantumIntensity);
      }
    }

    /** `_process_quantum_results`, from the statistics onwards. */
    method ProcessQuantumResults(rd: Reading, noise: seq<real>, draw: seq<real>)
      requires |noise| == |emotionalVector|
      modifies this`quantumIntensity, this`phaseCoherence, this`entanglementMeasure, this`emotionState, this`metrics
      ensures State() == Simulated(old(State()), rd, noise, draw, old(metrics).executions)
    {
      quantumIntensity := rd.intensity;
      phaseCoherence := rd.coherence;
      entanglementMeasure := rd.entanglement;
      UpdateEmotionalState(noise, draw);
      UpdateAvgIntensity();
    }

    /** `classical_quantum_simulation`, with its reading given; it always
        reports success. */
    method ClassicalQuantumSimulation(rd: Reading, noise: seq<real>, draw: seq<real>) returns (ok: bool)
      requires |noise| == |emotionalVector|
      modifies this`quantumIntensity, this`phaseCoherence, this`entanglementMeasure, this`emotionState, this`metrics
      ensures ok
      ensures State() == Simulated(old(State()), rd, noise, draw, old(metrics).executions)
    {
      quantumIntensity := rd.intensity;
      phaseCoherence := rd.coherence;
      entanglementMeasure := rd.entanglement;
      UpdateEmotionalState(noise, draw);
      UpdateAvgIntensity();
      ok := true;
    }

    /** `execute_quantum_emotion_cycle`, on a step the backend mode can
        produce (`StepFitsMode`). */
    method ExecuteQuantumEmotionCycle(input: CycleInput) returns (success: bool)
      requires Valid() && ValidSamples(input) && StepFitsMode(qiskitAvailable, input)
      modifies this`quantumIntensity, this`phaseCoherence, this`entanglementMeasure, this`emotionState, this`metrics
      ensures Valid()
      ensures State() == Cycle(old(State()), input).state
      ensures success == Cycle(old(State()), input).success
    {
      CycleKeepsInvariant(qiskitAvailable, State(), input);
      if !input.step.Raised? {
        success := ReturnedCycle(input);
      } else {
        success := RaisedCycle(input);
      }
    }

    /** The `try` branch when the simulation returned. */
    method ReturnedCycle(input: CycleInput) returns (success: bool)
      requires !input.step.Raised? && |input.noise| == |emotionalVector|
      modifies this`quantumIntensity, this`phaseCoherence, this`entanglementMeasure, this`emotionState, this`metrics
      ensures State() == Cycle(old(State()), input).state
      ensures success == Cycle(old(State()), input).success
    {
      if input.step.Completed? {
        ProcessQuantumResults(input.step.reading, input.noise, input.draw);
        success := true;
      } else {
        success := false;
      }
      RecordExecution(input.elapsed, success);
    }

    /** The `except` branch: count the error, then run the classical
        simulation with its own reading. */
    method RaisedCycle(input: CycleInput) returns (success: bool)
      requires input.step.Raised? && |input.noise| == |emotionalVector|
      modifies this`quantumIntensity, this`phaseCoherence, this`entanglementMeasure, this`emotionState, this`metrics
      ensures State() == Cycle(old(State()), input).state
      ensures success == Cycle(old(State()), input).success
    {
      RecordException();
      success := ClassicalQuantumSimulation(input.fallback, input.noise, input.draw);
    }

    /** The bookkeeping after a simulation that returned: the time, one more
        execution, and the rate when the simulation succeeded. */
    method RecordExecution(elapsed: real, success: bool)
      modifies this`metrics
      ensures metrics == old(metrics).(
        lastExecutionTime := Some(elapsed),
        executions := old(metrics).executions + 1,
        successRate := if success then SuccessRate(old(metrics).executions + 1, old(metrics).errors)
                       else old(metrics).successRate)
    {
      metrics := metrics.(lastExecutionTime := Some(elapsed));
      metrics := metrics.(executions := metrics.executions + 1);
      if success {
        metrics := metrics.(successRate :=
          (metrics.executions - metrics.errors) as real / metrics.executions as real * 100.0);
      }
    }

    /** The bookkeeping when the simulation raised: one more error, one more
        execution, and the rate recomputed. */
    method RecordException()
      modifies this`metrics
      ensures metrics == old(metrics).(
        errors := old(metrics).errors + 1,
        executions := old(metrics).executions + 1,
        successRate := SuccessRate(old(metrics).executions + 1, old(metrics).errors + 1))
    {
      metrics := metrics.(errors := metrics.errors + 1);
      metrics := metrics.(executions := metrics.executions + 1);
      metrics := metrics.(successRate :=
        (metrics.executions - metrics.errors) as real
        / (if metrics.executions < 1 then 1 else metrics.executions) as real * 100.0);
    }

    /** `get_metrics`. */
    function GetMetrics(): (v: MetricsView)
      reads this
      ensures v.metrics == metrics && v.state == emotionState && v.sessionId == sessionId
      ensures v.reading == State().reading && v.backend == backendType
    {
      MetricsView(metrics, Reading(quantumIntensity, phaseCoherence, entanglementMeasure),
                  sessionId, backendType, emotionState)
    }
  }
}
