/** The backend's rule-precedence triage classifier (`TriageEngine.classify`).
    The adult thresholds come from a rules file, so they are a parameter and
    every property below holds for any thresholds. */
module TriageEngine {
  import opened VitalSigns

  datatype TriageClass = Immediate | Delayed | Minor | Assess

  /** A reason code. The source formats most reasons as text around a vital's
      value; the value is kept and the formatting is not modelled. */
  datatype Reason =
    | SignalUnreliable
    | RRValue(rr: real)
    | SpO2Value(spo2: real)
    | BFILow
    | HRValue(hr: real)
    | PIValue(pi: real)
    | StableVitals

  /** An inclusive range `[lo, hi]`, as the rules file's `borderline_range`. */
  datatype Range = Range(lo: real, hi: real) {
    predicate Contains(x: real) {
      lo <= x <= hi
    }
  }

  /** The `thresholds.adult` section of the rules file. */
  datatype Thresholds = Thresholds(
    signalTrustUnreliableLt: real,
    rrImmediateHighGe: real,
    spo2ImmediateLt: real,
    bfiTauImmediateGtUs: real,
    hrTachyGe: real,
    piVeryLowLt: real,
    spo2Borderline: Range,
    rrBorderline: Range
  )

  datatype Verdict = Verdict(cls: TriageClass, reasons: seq<Reason>)

  /* The five guards, in the order the classifier tries them. */

  predicate Unreliable(v: Vitals, t: Thresholds) {
    v.signalTrust < t.signalTrustUnreliableLt
  }

  predicate RRHigh(v: Vitals, t: Thresholds) {
    v.rr >= t.rrImmediateHighGe
  }

  predicate SpO2Low(v: Vitals, t: Thresholds) {
    v.spo2 < t.spo2ImmediateLt
  }

  predicate Shock(v: Vitals, t: Thresholds) {
    v.tauUs > t.bfiTauImmediateGtUs && (v.hr >= t.hrTachyGe || v.pi < t.piVeryLowLt)
  }

  predicate Borderline(v: Vitals, t: Thresholds) {
    t.spo2Borderline.Contains(v.spo2) || t.rrBorderline.Contains(v.rr)
  }

  /** The classifier: the first guard that holds decides the verdict. */
  function Classify(v: Vitals, t: Thresholds): (r: Verdict)
    // signal trust takes precedence over everything else
    ensures r.cls == Assess <==> Unreliable(v, t)
    ensures Unreliable(v, t) ==> r == Verdict(Assess, [SignalUnreliable])
    ensures !Unreliable(v, t) && RRHigh(v, t) ==> r == Verdict(Immediate, [RRValue(v.rr)])
    ensures !Unreliable(v, t) && !RRHigh(v, t) && SpO2Low(v, t) ==>
              r == Verdict(Immediate, [SpO2Value(v.spo2)])
    ensures !Unreliable(v, t) && !RRHigh(v, t) && !SpO2Low(v, t) && Shock(v, t) ==>
              r == Verdict(Immediate, [BFILow, HRValue(v.hr), PIValue(v.pi)])
    ensures !Unreliable(v, t) && !RRHigh(v, t) && !SpO2Low(v, t) && !Shock(v, t) && Borderline(v, t) ==>
              r == Verdict(Delayed, [RRValue(v.rr), SpO2Value(v.spo2)])
    ensures r.cls == Minor <==>
              !Unreliable(v, t) && !RRHigh(v, t) && !SpO2Low(v, t) && !Shock(v, t) && !Borderline(v, t)
    ensures r.cls == Minor ==> r.reasons == [StableVitals]
    ensures |r.reasons| > 0
  {
    if Unreliable(v, t) then Verdict(Assess, [SignalUnreliable])
    else if RRHigh(v, t) then Verdict(Immediate, [RRValue(v.rr)])
    else if SpO2Low(v, t) then Verdict(Immediate, [SpO2Value(v.spo2)])
    else if Shock(v, t) then Verdict(Immediate, [BFILow, HRValue(v.hr), PIValue(v.pi)])
    else if Borderline(v, t) then Verdict(Delayed, [RRValue(v.rr), SpO2Value(v.spo2)])
    else Verdict(Minor, [StableVitals])
  }

  /* A table of the same guards and verdicts, tried in order, to check the
     order of precedence. */

  datatype Rule = SignalRule | RRRule | SpO2Rule | ShockRule | BorderlineRule

  const RuleOrder: seq<Rule> := [SignalRule, RRRule, SpO2Rule, ShockRule, BorderlineRule]

  const DefaultVerdict: Verdict := Verdict(Minor, [StableVitals])

  predicate Fires(rule: Rule, v: Vitals, t: Thresholds) {
    match rule
    case SignalRule => Unreliable(v, t)
    case RRRule => RRHigh(v, t)
    case SpO2Rule => SpO2Low(v, t)
    case ShockRule => Shock(v, t)
    case BorderlineRule => Borderline(v, t)
  }

  function Outcome(rule: Rule, v: Vitals): Verdict {
    match rule
    case SignalRule => Verdict(Assess, [SignalUnreliable])
    case RRRule => Verdict(Immediate, [RRValue(v.rr)])
    case SpO2Rule => Verdict(Immediate, [SpO2Value(v.spo2)])
    case ShockRule => Verdict(Immediate, [BFILow, HRValue(v.hr), PIValue(v.pi)])
    case BorderlineRule => Verdict(Delayed, [RRValue(v.rr), SpO2Value(v.spo2)])
  }

  /** If rule `i` is the first rule of the list that fires, its verdict is the
      classifier's verdict: earlier rules take precedence, later ones are never
      consulted. */
  lemma FirstFiringRuleDecides(v: Vitals, t: Thresholds, i: nat)
    requires i < |RuleOrder| && Fires(RuleOrder[i], v, t)
    requires forall j :: 0 <= j < i ==> !Fires(RuleOrder[j], v, t)
    ensures Classify(v, t) == Outcome(RuleOrder[i], v)
  {
    assert !Fires(RuleOrder[0], v, t) ==> !Unreliable(v, t);
    if i > 1 { assert !Fires(RuleOrder[1], v, t); }
    if i > 2 { assert !Fires(RuleOrder[2], v, t); }
    if i > 3 { assert !Fires(RuleOrder[3], v, t); }
  }

  /** When no rule of the list fires, the verdict is the default one. */
  lemma NoRuleFiresGivesDefault(v: Vitals, t: Thresholds)
    requires forall j :: 0 <= j < |RuleOrder| ==> !Fires(RuleOrder[j], v, t)
    ensures Classify(v, t) == DefaultVerdict
  {
    assert !Fires(RuleOrder[0], v, t) && !Fires(RuleOrder[1], v, t) && !Fires(RuleOrder[2], v, t);
    assert !Fires(RuleOrder[3], v, t) && !Fires(RuleOrder[4], v, t);
  }

  /** An unreliable signal hides every other vital: two readings that are both
      untrusted are classified the same, whatever their other values. */
  lemma UnreliableIgnoresOtherVitals(v1: Vitals, v2: Vitals, t: Thresholds)
    requires Unreliable(v1, t) && Unreliable(v2, t)
    ensures Classify(v1, t) == Classify(v2, t)
  {
  }

  /** Every Immediate verdict carries one reason naming RR or SpO2, or the
      three shock reasons in the order BFI, HR, PI. */
  lemma ImmediateReasonShapes(v: Vitals, t: Thresholds)
    ensures Classify(v, t).cls == Immediate ==>
      Classify(v, t).reasons in {[RRValue(v.rr)], [SpO2Value(v.spo2)], [BFILow, HRValue(v.hr), PIValue(v.pi)]}
  {
  }
}
