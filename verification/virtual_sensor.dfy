/** The backend's virtual sensor: a stored patient profile, a table of base
    vitals per profile, and bounded random jitter on HR and PI. Only the
    second `get_vitals` of the sensor class is modelled, since it rebinds the
    name and is the one callers reach. The random draws are a parameter. */
module VirtualSensor {
  import opened Wrappers
  import opened VitalSigns

  datatype Sensor = Sensor(profile: string)

  const DefaultProfile: string := "Minor"

  /** A freshly constructed sensor. */
  const Initial: Sensor := Sensor(DefaultProfile)

  /** The profiles with a table entry of their own; every other name reads
      as the Minor entry. */
  const TabledProfiles: set<string> := {"Immediate", "Delayed", "VOT_Occlusion", "Assess"}

  /** `set_patient_profile`: stores its argument verbatim; an omitted argument
      means the default profile. */
  function SetProfile(s: Sensor, profile: Option<string>): (s': Sensor)
    ensures profile.Some? ==> s'.profile == profile.value
    ensures profile.None? ==> s'.profile == DefaultProfile
  {
    Sensor(profile.ValueOr(DefaultProfile))
  }

  /** The Minor entry, which is also the entry of every untabled profile. */
  const MinorBase: Vitals := Vitals(78.0, 98.0, 2.5, 16.0, 70.0, 98.0)

  /** The base vitals of a profile, before jitter. */
  function Base(profile: string): (b: Vitals)
    ensures profile == "Immediate" ==> b == Vitals(124.0, 88.0, 0.4, 32.0, 135.0, 78.0)
    ensures profile == "Assess" ==> b == Vitals(0.0, 0.0, 0.0, 0.0, 0.0, 25.0)
    ensures profile !in TabledProfiles ==> b == MinorBase
    ensures IsWhole(b.hr)
  {
    if profile == "Immediate" then Vitals(124.0, 88.0, 0.4, 32.0, 135.0, 78.0)
    else if profile == "Delayed" then Vitals(110.0, 92.0, 1.2, 24.0, 95.0, 90.0)
    else if profile == "VOT_Occlusion" then Vitals(75.0, 85.0, 0.1, 16.0, 150.0, 95.0)
    else if profile == "Assess" then Vitals(0.0, 0.0, 0.0, 0.0, 0.0, 25.0)
    else MinorBase
  }

  /** The random numbers one reading consumes: an extra HR offset drawn only
      by the VOT_Occlusion entry, the HR offset and the PI offset. */
  datatype Draws = Draws(votHrOffset: int, hrOffset: int, piOffset: real)

  /** The ranges of the random generators: `randint(-2, 2)` excludes its upper
      bound and `uniform(-0.1, 0.1)` draws from the half-open interval. */
  predicate ValidDraws(d: Draws) {
    && -2 <= d.votHrOffset < 2
    && -2 <= d.hrOffset < 2
    && -0.1 <= d.piOffset < 0.1
  }

  /** `get_vitals` for the given draws (the PPG point is not modelled). */
  function Read(s: Sensor, d: Draws): (v: Vitals)
    requires ValidDraws(d)
    ensures var b := Base(s.profile);
      && v.spo2 == b.spo2 && v.rr == b.rr && v.tauUs == b.tauUs && v.signalTrust == b.signalTrust
    ensures s.profile == "Assess" ==> v == Base("Assess")
    ensures s.profile != "Assess" ==> Base(s.profile).pi - 0.1 <= v.pi < Base(s.profile).pi + 0.1
    ensures s.profile != "Assess" && s.profile != "VOT_Occlusion" ==>
              Base(s.profile).hr - 2.0 <= v.hr <= Base(s.profile).hr + 1.0
    ensures s.profile == "VOT_Occlusion" ==> 71.0 <= v.hr <= 77.0
    ensures IsWhole(v.hr)
  {
    var b := Base(s.profile);
    var tabled := if s.profile == "VOT_Occlusion" then b.(hr := b.hr + d.votHrOffset as real) else b;
    if s.profile == "Assess" then tabled
    else tabled.(hr := tabled.hr + d.hrOffset as real, pi := tabled.pi + d.piOffset)
  }

  /** The nondeterministic reading relation: `v` is a reading the sensor can
      return for `profile`. */
  ghost predicate MayRead(profile: string, v: Vitals) {
    exists d :: ValidDraws(d) && Read(Sensor(profile), d) == v
  }

  /** An explicit description of every reading a profile can produce. */
  predicate InRange(profile: string, v: Vitals) {
    var b := Base(profile);
    var below := if profile == "VOT_Occlusion" then 4.0 else 2.0;
    var above := if profile == "VOT_Occlusion" then 2.0 else 1.0;
    && v.spo2 == b.spo2 && v.rr == b.rr && v.tauUs == b.tauUs && v.signalTrust == b.signalTrust
    && if profile == "Assess" then v == b
       else
         && IsWhole(v.hr) && b.hr - below <= v.hr <= b.hr + above
         && b.pi - 0.1 <= v.pi < b.pi + 0.1
  }

  /** The relation and the description agree in both directions: every
      reading lies in the profile's range, and every whole HR and every PI in
      the range is reachable by some draws. */
  lemma MayReadIff(profile: string, v: Vitals)
    ensures MayRead(profile, v) <==> InRange(profile, v)
  {
    var b := Base(profile);
    if MayRead(profile, v) {
      var d :| ValidDraws(d) && Read(Sensor(profile), d) == v;
    }
    if InRange(profile, v) {
      var d: Draws;
      if profile == "Assess" {
        d := Draws(0, 0, 0.0);
      } else if profile == "VOT_Occlusion" {
        var k := v.hr.Floor - 75;
        var k1 := if k < 0 then -2 else 1;
        d := Draws(k1, k - k1, v.pi - b.pi);
      } else {
        d := Draws(0, v.hr.Floor - b.hr.Floor, v.pi - b.pi);
      }
      assert ValidDraws(d) && Read(Sensor(profile), d) == v;
    }
  }

  /** Setting a profile forgets the previous one: the last setting wins. */
  lemma SetProfileLastWins(s: Sensor, first: Option<string>, second: Option<string>)
    ensures SetProfile(SetProfile(s, first), second) == SetProfile(s, second)
  {
  }

  /** The three profile names the simulation controls send ('Stable',
      'Shock', 'UnreliableSignal') have no table entry and read as Minor. */
  lemma ControlProfilesReadAsMinor(d: Draws)
    requires ValidDraws(d)
    ensures Read(Sensor("Stable"), d) == Read(Initial, d)
    ensures Read(Sensor("Shock"), d) == Read(Initial, d)
    ensures Read(Sensor("UnreliableSignal"), d) == Read(Initial, d)
  {
  }
}
