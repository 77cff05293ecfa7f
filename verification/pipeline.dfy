/** How the pieces meet: the backend serves a sensor reading classified by
    the engine, and the frontend shows the class it receives on the banner. */
module Pipeline {
  import opened Wrappers
  import VirtualSensor
  import TriageEngine
  import TriageBanner
  import Sampler

  /** The class name the backend sends for a triage class. */
  function WireName(c: TriageEngine.TriageClass): (name: string)
    ensures name in TriageBanner.TriageInfo
  {
    match c
    case Immediate => "Immediate"
    case Delayed => "Delayed"
    case Minor => "Minor"
    case Assess => "Assess"
  }

  /** Distinct classes travel under distinct names, so the frontend can tell
      every verdict class apart. */
  lemma WireNameInjective(c: TriageEngine.TriageClass, d: TriageEngine.TriageClass)
    ensures WireName(c) == WireName(d) <==> c == d
  {
  }

  /** Every class the engine can produce has a banner entry of its own: the
      banner never falls back for a backend verdict, and it shows the class
      name in upper case. */
  lemma EngineClassesHaveOwnBanner(c: TriageEngine.TriageClass)
    ensures WireName(c) in TriageBanner.TriageInfo
    ensures TriageBanner.Lookup(WireName(c)).text == TriageBanner.Upper(WireName(c))
    ensures forall d :: d != c ==> TriageBanner.Lookup(WireName(d)) != TriageBanner.Lookup(WireName(c))
  {
    forall d | d != c
      ensures TriageBanner.Lookup(WireName(d)) != TriageBanner.Lookup(WireName(c))
    {
      TriageBanner.EntriesAreDistinctUpperCaseNames(WireName(d), WireName(c));
    }
    TriageBanner.EntriesAreDistinctUpperCaseNames(WireName(c), WireName(c));
  }

  /** The Assess profile reads a signal trust of 25 whatever the draws, so
      under any thresholds that call 25 unreliable it is classified Assess
      because of the signal alone. */
  lemma AssessProfileIsAssessed(d: VirtualSensor.Draws, t: TriageEngine.Thresholds)
    requires VirtualSensor.ValidDraws(d)
    requires t.signalTrustUnreliableLt > 25.0
    ensures TriageEngine.Classify(VirtualSensor.Read(VirtualSensor.Sensor("Assess"), d), t)
            == TriageEngine.Verdict(TriageEngine.Assess, [TriageEngine.SignalUnreliable])
  {
  }

  /** After a failed fetch the banner shows the grey ASSESS entry with the
      connection error as its only reason, whatever was shown before. */
  lemma FailedFetchShowsConnectionError(s: Sampler.State)
    ensures var shown := Sampler.Step(s, None).triage;
      TriageBanner.Render(Some(shown.cls), Some(shown.reasons))
        == TriageBanner.Banner(TriageBanner.Info("#616161", "ASSESS"), "Backend Connection Error")
  {
  }
}
