/** The two pieces of the live dashboard's web layer that carry logic of
    their own: the emotion request of `/api/feel`, which turns a known
    emotion name into a one-hot emotional vector and runs one cycle, and the
    plain-text body of `/metrics`. */
module AuraLiveApi {
  import opened Wrappers
  import opened Text
  import opened AuraLiveCore

  datatype EmotionEntry = EmotionEntry(name: string, color: string)

  /** The dashboard's emotions, in the order of the emotional vector. */
  const EMOTIONS: seq<EmotionEntry> := [
    EmotionEntry("joy", "#FFD700"),
    EmotionEntry("fear", "#4682B4"),
    EmotionEntry("anger", "#DC143C"),
    EmotionEntry("sadness", "#4169E1"),
    EmotionEntry("surprise", "#FF8C00"),
    EmotionEntry("disgust", "#228B22"),
    EmotionEntry("trust", "#20B2AA"),
    EmotionEntry("anticipation", "#FF69B4")
  ]

  /** The emotion assumed when a request names none. */
  const DEFAULT_EMOTION: string := "joy"

  predicate KnownEmotion(name: string)
  {
    exists i :: 0 <= i < |EMOTIONS| && EMOTIONS[i].name == name
  }

  /** The first position of `name` in the table, or `None` when no entry
      has that name. */
  method IndexOfEmotion(name: string) returns (idx: Option<nat>)
    ensures idx.None? <==> !KnownEmotion(name)
    ensures idx.Some? ==>
      && idx.value < |EMOTIONS|
      && EMOTIONS[idx.value].name == name
      && forall j :: 0 <= j < idx.value ==> EMOTIONS[j].name != name
  {
    var i := 0;
    while i < |EMOTIONS|
      invariant i <= |EMOTIONS|
      invariant forall j :: 0 <= j < i ==> EMOTIONS[j].name != name
    {
      if EMOTIONS[i].name == name {
        return Some(i);
      }
      i := i + 1;
    }
    return None;
  }

  // ---------------------------------------------------------------------------
  // One-hot emotional vectors
  // ---------------------------------------------------------------------------

  /** `np.zeros(8)` with 1.0 written at `idx`. */
  function OneHot(idx: nat): seq<real>
    requires idx < EMOTION_COUNT
  {
    Zeros(EMOTION_COUNT)[idx := 1.0]
  }

  /** Writing `x` at `i` moves the sum by `x - v[i]`. */
  lemma {:induction false} SumUpdate(v: seq<real>, i: nat, x: real)
    requires i < |v|
    ensures Sum(v[i := x]) == Sum(v) - v[i] + x
  {
    var n := |v|;
    if i == n - 1 {
      assert v[i := x][..n - 1] == v[..n - 1];
    } else {
      assert v[i := x][..n - 1] == v[..n - 1][i := x];
      SumUpdate(v[..n - 1], i, x);
    }
  }

  lemma {:induction false} SumAllZero(v: seq<real>)
    requires AllZero(v)
    ensures Sum(v) == 0.0
  {
    if v != [] {
      SumAllZero(v[..|v| - 1]);
    }
  }

  /** A one-hot vector is a distribution concentrated on `idx`. */
  lemma OneHotIsDistribution(idx: nat)
    requires idx < EMOTION_COUNT
    ensures IsDistribution(OneHot(idx))
    ensures forall k :: 0 <= k < EMOTION_COUNT ==> OneHot(idx)[k] == (if k == idx then 1.0 else 0.0)
  {
    SumAllZero(Zeros(EMOTION_COUNT));
    SumUpdate(Zeros(EMOTION_COUNT), idx, 1.0);
  }

  // ---------------------------------------------------------------------------
  // /api/feel
  // ---------------------------------------------------------------------------

  /** The `emotion` entry of a posted JSON object. */
  datatype EmotionField = Missing | JsonString(text: string) | OtherJsonValue

  /** A request body as the JSON reader sees it; anything but an object makes
      the `get` call raise. */
  datatype FeelRequest = Unreadable | NotAnObject | JsonObject(emotion: EmotionField)

  datatype FeelResponse =
    | Felt(success: bool, emotion: string, state: seq<real>, metrics: MetricsView)
    | InvalidEmotion
    | InternalError

  function StatusCode(resp: FeelResponse): nat
  {
    match resp
    case Felt(_, _, _, _) => 200
    case InvalidEmotion => 400
    case InternalError => 500
  }

  /** The name a request asks for: the default when the entry is missing;
      `None` when it is not a string, which no table name equals. */
  function RequestedEmotion(field: EmotionField): (name: Option<string>)
    ensures field.Missing? ==> name == Some(DEFAULT_EMOTION)
    ensures field.JsonString? ==> name == Some(field.text)
    ensures field.OtherJsonValue? ==> name.None?
  {
    match field
    case Missing => Some(DEFAULT_EMOTION)
    case JsonString(t) => Some(t)
    case OtherJsonValue => None
  }

  predicate AcceptedRequest(request: FeelRequest)
  {
    request.JsonObject? && RequestedEmotion(request.emotion).Some?
    && KnownEmotion(RequestedEmotion(request.emotion).value)
  }

  /** `api_feel`. A body that is not a JSON object answers 500, an unknown
      emotion 400, both without touching the core; a known emotion becomes the
      one-hot emotional vector and one cycle runs on it. Only the emotional
      vector and what a cycle writes can change: the session, the backend
      label and mode, the sizes and the circuit stay as they were. */
  method ApiFeel(core: QuantumEmotionalCore, request: FeelRequest, input: CycleInput) returns (resp: FeelResponse)
    requires core.Valid() && ValidSamples(input) && StepFitsMode(core.qiskitAvailable, input)
    modifies core`emotionalVector, core`quantumIntensity, core`phaseCoherence, core`entanglementMeasure,
      core`emotionState, core`metrics
    ensures core.Valid()
    ensures !request.JsonObject? ==> resp == InternalError && unchanged(core)
    ensures request.JsonObject? && !AcceptedRequest(request) ==> resp == InvalidEmotion && unchanged(core)
    ensures AcceptedRequest(request) ==>
      var name := RequestedEmotion(request.emotion).value;
      && |core.emotionalVector| == EMOTION_COUNT
      && (forall k :: 0 <= k < EMOTION_COUNT ==>
            core.emotionalVector[k] == (if EMOTIONS[k].name == name then 1.0 else 0.0))
      && core.State() == Cycle(old(core.State()).(emotionalVector := core.emotionalVector), input).state
      && resp == Felt(Cycle(old(core.State()).(emotionalVector := core.emotionalVector), input).success,
                      name, core.emotionState, core.GetMetrics())
    ensures StatusCode(resp) == 200 <==> AcceptedRequest(request)
  {
    if !request.JsonObject? {
      return InternalError;
    }
    var requested := RequestedEmotion(request.emotion);
    if requested.None? {
      return InvalidEmotion;
    }
    var name := requested.value;
    var idx := IndexOfEmotion(name);
    if idx.None? {
      return InvalidEmotion;
    }
    var i := idx.value;
    OneHotIsDistribution(i);
    assert forall k :: 0 <= k < |EMOTIONS| ==> (EMOTIONS[k].name == name <==> k == i);
    core.emotionalVector := Zeros(EMOTION_COUNT);
    core.emotionalVector := core.emotionalVector[i := 1.0];
    assert core.emotionalVector == OneHot(i);
    var success := core.ExecuteQuantumEmotionCycle(input);
    resp := Felt(success, name, core.emotionState, core.GetMetrics());
  }

  // ---------------------------------------------------------------------------
  // /metrics
  // ---------------------------------------------------------------------------

  /** The exposed metric names, in the order of the body's lines. */
  const METRIC_NAMES: seq<string> := [
    "aura400_executions_total",
    "aura400_errors_total",
    "aura400_avg_intensity",
    "aura400_quantum_intensity",
    "aura400_phase_coherence",
    "aura400_entanglement_measure",
    "aura400_success_rate"
  ]

  /** The seven lines of the body; `show` is Python's text form of a float. */
  function MetricLines(v: MetricsView, show: real -> string): (lines: seq<string>)
    ensures |lines| == |METRIC_NAMES|
    ensures forall k :: 0 <= k < |lines| ==>
      |lines[k]| > |METRIC_NAMES[k]| && lines[k][..|METRIC_NAMES[k]| + 1] == METRIC_NAMES[k] + " "
    ensures lines[0][|METRIC_NAMES[0]| + 1..] == NatToString(v.metrics.executions)
    ensures lines[1][|METRIC_NAMES[1]| + 1..] == NatToString(v.metrics.errors)
    ensures lines[2][|METRIC_NAMES[2]| + 1..] == show(v.metrics.avgIntensity)
    ensures lines[3][|METRIC_NAMES[3]| + 1..] == show(v.reading.intensity)
    ensures lines[4][|METRIC_NAMES[4]| + 1..] == show(v.reading.coherence)
    ensures lines[5][|METRIC_NAMES[5]| + 1..] == show(v.reading.entanglement)
    ensures lines[6][|METRIC_NAMES[6]| + 1..] == show(v.metrics.successRate)
  {
    [
      "aura400_executions_total " + NatToString(v.metrics.executions),
      "aura400_errors_total " + NatToString(v.metrics.errors),
      "aura400_avg_intensity " + show(v.metrics.avgIntensity),
      "aura400_quantum_intensity " + show(v.reading.intensity),
      "aura400_phase_coherence " + show(v.reading.coherence),
      "aura400_entanglement_measure " + show(v.reading.entanglement),
      "aura400_success_rate " + show(v.metrics.successRate)
    ]
  }

  /** The `/metrics` body: the lines joined by newlines. */
  function MetricsBody(v: MetricsView, show: real -> string): string
  {
    Join(MetricLines(v, show), '\n')
  }

  function LastChar(s: string): char
    requires |s| > 0
  {
    s[|s| - 1]
  }

  lemma {:induction false} JoinEndsWithLastLine(lines: seq<string>, sep: char)
    requires |lines| >= 1 && |lines[|lines| - 1]| > 0
    ensures |Join(lines, sep)| > 0 && LastChar(Join(lines, sep)) == LastChar(lines[|lines| - 1])
  {
    if |lines| > 1 {
      JoinEndsWithLastLine(lines[1..], sep);
    }
  }

  lemma DigitsHaveNoNewline(s: string)
    requires forall i :: 0 <= i < |s| ==> '0' <= s[i] <= '9'
    ensures '\n' !in s
  {
  }

  /** As long as no formatted value contains a newline, the body splits back
      into exactly the seven lines, in order, and does not end with a
      newline. */
  lemma MetricsBodyLayout(v: MetricsView, show: real -> string)
    requires forall x :: '\n' !in show(x)
    ensures Split(MetricsBody(v, show), '\n') == MetricLines(v, show)
    ensures |Split(MetricsBody(v, show), '\n')| == 7
    ensures |MetricsBody(v, show)| > 0 && LastChar(MetricsBody(v, show)) != '\n'
  {
    var lines := MetricLines(v, show);
    var values := [NatToString(v.metrics.executions), NatToString(v.metrics.errors),
                   show(v.metrics.avgIntensity), show(v.reading.intensity), show(v.reading.coherence),
                   show(v.reading.entanglement), show(v.metrics.successRate)];
    DigitsHaveNoNewline(values[0]);
    DigitsHaveNoNewline(values[1]);
    assert forall k :: 0 <= k < 7 ==> '\n' !in values[k];
    assert forall k :: 0 <= k < 7 ==> '\n' !in METRIC_NAMES[k] + " ";
    assert lines == seq(7, k requires 0 <= k < 7 => (METRIC_NAMES[k] + " ") + values[k]);
    SplitJoin(lines, '\n');
    JoinEndsWithLastLine(lines, '\n');
  }
}
