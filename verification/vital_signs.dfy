/** The vital-sign record produced by the virtual sensor, classified by the
    triage engine and shown by the frontend. The source holds these as Python
    ints or floats, which compare exactly, and as JavaScript numbers, so every
    field is `real`. The sensor's HR, SpO2, RR, tau_us and SignalTrust are
    whole numbers; `IsWhole` records this where it matters. */
module VitalSigns {

  datatype Vitals = Vitals(
    hr: real,          // heart rate, bpm
    spo2: real,        // blood oxygen saturation, %
    pi: real,          // perfusion index, %
    rr: real,          // respiratory rate, breaths per minute
    tauUs: real,       // blood-flow index proxy tau_us, microseconds
    signalTrust: real  // signal quality score, 0-100
  )

  /** True when `x` has no fractional part. */
  predicate IsWhole(x: real) {
    x.Floor as real == x
  }
}
