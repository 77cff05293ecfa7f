/** The focus view's reading aids: the per-vital interpretation of a value,
    the definition text of a vital, and the chart colours for a status. */
module FocusView {

  /** The interpretations the view can show, one per sentence of the source;
      `NoInterpretation` is the empty text shown for an unknown label. */
  datatype Interpretation =
    | Tachycardia | Bradycardia | NormalHeartRate
    | Hypoxemia | BorderlineOxygen | HealthyOxygen
    | WeakPerfusion | StrongPerfusion
    | Tachypnea | Bradypnea | NormalBreathing
    | RestrictedFlow | ExcellentFlow
    | PoorSignal | ExcellentSignal
    | NoInterpretation

  /** The card labels the view knows about. */
  const KnownLabels: set<string> := {"HR", "SpO2", "PI", "RR", "BFI", "Signal Trust"}

  /** `getInterpretation`: the band of `value` for the vital whose card label is `name`. */
  function Interpret(name: string, value: real): (r: Interpretation)
    ensures r == NoInterpretation <==> name !in KnownLabels
    ensures name == "HR" ==>
      && (r == Tachycardia <==> value >= 120.0)
      && (r == Bradycardia <==> value < 50.0)
      && (r == NormalHeartRate <==> 50.0 <= value < 120.0)
    ensures name == "SpO2" ==>
      && (r == Hypoxemia <==> value < 90.0)
      && (r == BorderlineOxygen <==> 90.0 <= value <= 93.0)
      && (r == HealthyOxygen <==> value > 93.0)
    ensures name == "PI" ==>
      && (r == WeakPerfusion <==> value < 0.5)
      && (r == StrongPerfusion <==> value >= 0.5)
    ensures name == "RR" ==>
      && (r == Tachypnea <==> value >= 30.0)
      && (r == Bradypnea <==> value < 8.0)
      && (r == NormalBreathing <==> 8.0 <= value < 30.0)
    ensures name == "BFI" ==>
      && (r == RestrictedFlow <==> value > 120.0)
      && (r == ExcellentFlow <==> value <= 120.0)
    ensures name == "Signal Trust" ==>
      && (r == PoorSignal <==> value < 50.0)
      && (r == ExcellentSignal <==> value >= 50.0)
  {
    match name
    case "HR" =>
      if value >= 120.0 then Tachycardia
      else if value < 50.0 then Bradycardia
      else NormalHeartRate
    case "SpO2" =>
      if value < 90.0 then Hypoxemia
      else if value <= 93.0 then BorderlineOxygen
      else HealthyOxygen
    case "PI" =>
      if value < 0.5 then WeakPerfusion else StrongPerfusion
    case "RR" =>
      if value >= 30.0 then Tachypnea
      else if value < 8.0 then Bradypnea
      else NormalBreathing
    case "BFI" =>
      if value > 120.0 then RestrictedFlow else ExcellentFlow
    case "Signal Trust" =>
      if value < 50.0 then PoorSignal else ExcellentSignal
    case _ => NoInterpretation
  }

  /** The position of a band along its vital's scale, lowest values first. */
  function ScalePosition(i: Interpretation): nat {
    match i
    case Bradycardia | Hypoxemia | WeakPerfusion | Bradypnea | ExcellentFlow | PoorSignal | NoInterpretation => 0
    case NormalHeartRate | BorderlineOxygen | StrongPerfusion | NormalBreathing | RestrictedFlow | ExcellentSignal => 1
    case Tachycardia | HealthyOxygen | Tachypnea => 2
  }

  /** The bands of every vital follow its scale: a larger value never lands
      in a band that lies lower on the scale. */
  lemma InterpretMonotone(name: string, v1: real, v2: real)
    requires v1 <= v2
    ensures ScalePosition(Interpret(name, v1)) <= ScalePosition(Interpret(name, v2))
  {
  }

  /** The sentence shown for an interpretation. */
  function InterpretationText(i: Interpretation): (r: string)
    ensures r == "" <==> i == NoInterpretation
  {
    match i
    case Tachycardia => "This indicates tachycardia (a very fast heart rate)."
    case Bradycardia => "This indicates bradycardia (a slow heart rate)."
    case NormalHeartRate => "This is a normal resting heart rate."
    case Hypoxemia => "This is a critically low oxygen level (hypoxemia)."
    case BorderlineOxygen => "This level is borderline and warrants monitoring."
    case HealthyOxygen => "This is a healthy blood oxygen level."
    case WeakPerfusion => "This indicates very weak peripheral perfusion."
    case StrongPerfusion => "This indicates strong peripheral perfusion."
    case Tachypnea => "This indicates tachypnea (abnormally rapid breathing)."
    case Bradypnea => "This indicates bradypnea (abnormally slow breathing)."
    case NormalBreathing => "This is a normal respiratory rate."
    case RestrictedFlow => "This indicates severely restricted microvascular blood flow."
    case ExcellentFlow => "This indicates excellent microvascular blood flow."
    case PoorSignal => "The signal quality is poor; the reading is unreliable."
    case ExcellentSignal => "The signal quality is excellent."
    case NoInterpretation => ""
  }

  /** The definition texts, keyed by card name. */
  const Definitions: map<string, string> := map[
    "HR" := "Heart Rate (HR) is the number of times a person's heart beats per minute (bpm). It's a key indicator of cardiac health and stress.",
    "SpO2" := "Blood Oxygen Saturation (SpO2) measures the percentage of oxygen in the blood. Low levels can indicate respiratory issues.",
    "PI" := "Perfusion Index (PI) is an indicator of the pulse strength at the sensor site. A low PI can indicate poor blood flow to the extremities.",
    "RR" := "Respiratory Rate (RR) is the number of breaths a person takes per minute. It's a critical sign for assessing respiratory function.",
    "BFI" := "Blood-Flow Index (BFI) is a novel metric derived from light correlation that indicates microvascular blood flow, a key factor in perfusion.",
    "Signal Trust" := "Signal Trust is a quality score (0-100%) indicating how reliable the current sensor reading is, accounting for motion and other interference."
  ]

  const NoDefinition: string := "No definition available."

  /** The definition shown for a name, with the fallback for unknown labels. */
  function Definition(name: string): (r: string)
    ensures name in Definitions ==> r == Definitions[name]
    ensures name !in Definitions ==> r == NoDefinition
  {
    if name in Definitions then Definitions[name] else NoDefinition
  }

  /** The two lookups know the same labels: a name gets the fallback
      definition exactly when it gets the empty interpretation. */
  lemma FallbacksAgree(name: string, value: real)
    ensures Definition(name) == NoDefinition <==> Interpret(name, value) == NoInterpretation
  {
    assert Definitions.Keys == KnownLabels;
    if name in Definitions {
      assert Definitions[name] != NoDefinition;
    }
  }

  /** The chart colours of a status: a border colour and the same hue at 0.2
      alpha as the fill. */
  datatype ChartColors = ChartColors(border: string, fill: string)

  /** The chart colours for a status: critical and warning have their own,
      and every other status shares the calm one. */
  function ColorsFor(status: string): (c: ChartColors)
    ensures status == "critical" ==> c == ChartColors("#ff5252", "rgba(255, 82, 82, 0.2)")
    ensures status == "warning" ==> c == ChartColors("#ffc400", "rgba(255, 196, 0, 0.2)")
    ensures status != "critical" && status != "warning" ==> c == ChartColors("#00e5ff", "rgba(0, 229, 255, 0.2)")
  {
    if status == "critical" then ChartColors("#ff5252", "rgba(255, 82, 82, 0.2)")
    else if status == "warning" then ChartColors("#ffc400", "rgba(255, 196, 0, 0.2)")
    else ChartColors("#00e5ff", "rgba(0, 229, 255, 0.2)")
  }
}
