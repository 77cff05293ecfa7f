# TriageQ decision core in Dafny

TriageQ is an EMS triage simulator. A Python backend runs a virtual PPG
sensor, which produces vitals from a selectable patient profile. It also runs
a rule-based triage engine. A React frontend polls the backend, keeps a
bounded PPG waveform buffer, shows the triage verdict on a coloured banner,
explains each vital in a focus view, and draws an assessment-protocol stepper.

This project models the pure decision logic of those parts as total Dafny
functions over immutable datatypes, and proves their properties:

- `TriageEngine` (`triage_engine.dfy`): the rule-precedence classifier. The
  thresholds are a parameter record, so every result holds for any rules file.
  A rule table that reuses the classifier's guards and verdicts checks the
  order of precedence: the first rule that fires decides.
- `VirtualSensor` (`virtual_sensor.dfy`): the stored profile, the table of
  base vitals per profile, and HR/PI jitter. The random draws are a parameter,
  and `MayRead` is the nondeterministic reading relation. Only the second,
  live `get_vitals` is modelled.
- `Sampler` (`sampler.dfy`): one completion of the frontend's `fetchData` as a
  pure step over `{vitals, triage, ppgData}`. It includes the 200-point
  append-and-trim and folds over any sequence of completions.
- `FocusView` (`focus_view.dfy`): the per-vital interpretation bands, the
  definition lookup with its fallback, and the status colours.
- `AssessmentStepper` (`assessment_stepper.dfy`): step complete/active
  marks, circles, messages, the VOT gate and the hold label.
- `TriageBanner` (`triage_banner.dfy`): the class table with its Assess
  fallback, the default props, and the `", "` join of the reasons.
- `Pipeline` (`pipeline.dfy`): lemmas that connect sensor, engine, sampler
  and banner.
- `Wrappers`, `VitalSigns`: the `Option` type and the shared vitals record.

All vitals are `real`. The backend holds them as Python ints or floats,
which compare exactly, and the frontend as JavaScript numbers. The sensor's
HR, SpO2, RR, tau_us and SignalTrust are whole numbers, and only PI (and the
PPG point) is fractional. `IsWhole` records that HR stays whole.

## Model

| member | source | states |
|---|---|---|
| TriageEngine.Classify | backend/triage_engine.py:16-44 | An untrusted signal gives exactly (Assess, [signal unreliable]), and Assess arises from nothing else. Otherwise: high RR gives Immediate with one RR reason; then low SpO2 gives Immediate with one SpO2 reason; then the shock rule gives Immediate with reasons BFI, HR, PI in that order; then an inclusive borderline SpO2 or RR gives Delayed with reasons [RR, SpO2]. Minor holds exactly when no guard fires, with the single reason "stable vitals". The reasons are never empty. |
| TriageEngine.FirstFiringRuleDecides | backend/triage_engine.py:21-41 | For the rule list in source order, if rule i fires and no earlier rule does, the classifier returns rule i's verdict. Earlier rules take precedence; later rules are never consulted. |
| TriageEngine.NoRuleFiresGivesDefault | backend/triage_engine.py:43-44 | When no rule of the list fires, the verdict is (Minor, [stable vitals]). |
| TriageEngine.UnreliableIgnoresOtherVitals | backend/triage_engine.py:21-23 | Any two untrusted readings get the same verdict, whatever their other vitals. |
| TriageEngine.ImmediateReasonShapes | backend/triage_engine.py:25-36 | An Immediate verdict carries [RR], [SpO2] or [BFI, HR, PI] and no other reason list. |
| VirtualSensor.SetProfile | backend/virtual_sensor.py:16-19 | The given profile name is stored verbatim; an omitted argument stores "Minor". |
| VirtualSensor.SetProfileLastWins | backend/virtual_sensor.py:16-19 | Setting a profile forgets the previous one: two settings in a row equal the second one alone. |
| VirtualSensor.Base | backend/virtual_sensor.py:92-119 | Immediate has base HR 124, SpO2 88, PI 0.4, RR 32, tau 135, trust 78. Assess has HR, SpO2, PI, RR and tau 0 with trust 25. A name outside Immediate, Delayed, VOT_Occlusion and Assess gets the Minor entry. Every base HR is a whole number. |
| VirtualSensor.Read | backend/virtual_sensor.py:87-124 | SpO2, RR, tau_us and SignalTrust always equal the profile's table values, and Assess is returned without jitter. Any other profile has PI in [base-0.1, base+0.1) and a whole HR. For profiles other than VOT_Occlusion, HR lies in [base-2, base+1]. VOT_Occlusion takes two HR offsets, so its HR lies in [71, 77]. |
| VirtualSensor.MayReadIff | backend/virtual_sensor.py:102-124 | A reading is possible for a profile iff it lies in that profile's explicit range. This holds both ways: every whole HR and every PI in the range is reached by some valid draws. |
| VirtualSensor.ControlProfilesReadAsMinor | backend/virtual_sensor.py:116-119 | 'Stable', 'Shock' and 'UnreliableSignal' read exactly like the initial Minor profile for the same draws. |
| Sampler.AppendPoint | frontend/src/App.js:26-32 | The new buffer is the newest min(old+1, 200) elements of old ++ [point]. Order is kept and the point is last. Below capacity, nothing is dropped. |
| Sampler.Step | frontend/src/App.js:19-37 | On success the vitals and verdict become the response's, and the PPG point is appended with the 200 cap. On failure the verdict becomes {Assess, [Backend Connection Error]}, and the vitals and buffer are unchanged. A response with null vitals ends with the vitals cleared, the fallback verdict and the buffer unchanged. A buffer within capacity stays within capacity. |
| Sampler.RunKeepsNewest | frontend/src/App.js:26-32 | After any sequence of completions, the buffer equals the newest 200 elements of the old buffer followed by every appended point, in arrival order. |
| Sampler.BufferFromInitial | frontend/src/App.js:14-32 | From the initial empty buffer, any sequence of completions keeps the buffer at most 200 long, holding the newest appended points in order. |
| Sampler.RunShowsLastVerdict | frontend/src/App.js:19-37 | After a non-empty run, the verdict shown depends only on the last completion: the fallback if it failed, otherwise that response's verdict. |
| Sampler.RunShowsLatestVitals | frontend/src/App.js:22-36 | The vitals shown are those of the most recent response received. If no response arrived during the run, they are the vitals shown before. |
| FocusView.Interpret | frontend/src/components/FocusViewModal.js:24-50 | HR: ≥120 tachycardia, <50 bradycardia, otherwise normal. SpO2: <90 hypoxemia, 90..93 inclusive borderline, >93 healthy. PI: <0.5 weak. RR: ≥30 tachypnea, <8 bradypnea, otherwise normal. BFI: >120 restricted. Signal Trust: <50 poor. Each band is stated as an iff. Exactly the unknown labels get no interpretation. |
| FocusView.InterpretMonotone | frontend/src/components/FocusViewModal.js:26-46 | For every vital, a larger value never falls in a band lower on that vital's scale. |
| FocusView.InterpretationText | frontend/src/components/FocusViewModal.js:24-49 | The sentence is empty exactly for the unknown-label case. |
| FocusView.Definition | frontend/src/components/FocusViewModal.js:59 | A label in the definitions table gets its text. Any other label gets "No definition available.". |
| FocusView.FallbacksAgree | frontend/src/components/FocusViewModal.js:47-59 | A label gets the fallback definition exactly when it gets the empty interpretation. |
| FocusView.ColorsFor | frontend/src/components/FocusViewModal.js:68-69 | critical gives border #ff5252, warning gives #ffc400, and any other status gives #00e5ff. The fill is the same case's colour at 0.2 alpha. |
| AssessmentStepper.ViewStep | frontend/src/components/AssessmentStepper.js:12-15 | Step i is complete iff i < currentStep and active iff i == currentStep, never both. Its circle shows the check mark iff it is complete, otherwise i+1. Only the active step shows its message; the others show "". |
| AssessmentStepper.Render | frontend/src/components/AssessmentStepper.js:10-17 | There is one view per step, in order, each the view of its index, current step and message. At most one step is active. |
| AssessmentStepper.RenderCountsComplete | frontend/src/components/AssessmentStepper.js:10-13 | The number of steps shown complete is currentStep clamped to [0, number of steps]: exactly the steps before the current one. |
| AssessmentStepper.VotEnabled | frontend/src/components/AssessmentStepper.js:12-20 | The VOT button is enabled exactly when currentStep is 2, the index whose step view is active. Then the views of indices 0 and 1, and no others, are complete. |
| AssessmentStepper.VotGateAgainstRow | frontend/src/components/AssessmentStepper.js:10-20 | The gate ignores the number of steps. When the button is enabled, some step of the rendered row is active exactly when the row has at least three steps; a shorter row enables the button with no active step. |
| AssessmentStepper.HoldLabel | frontend/src/components/AssessmentStepper.js:21 | The label is '[Resume]' iff held and '[Hold]' iff not. |
| TriageBanner.Lookup | frontend/src/components/TriageBanner.js:10-17 | A class in the table gets its own entry. Any other string gets the Assess entry (#616161, ASSESS). The result is always one of the four entries. |
| TriageBanner.EntriesAreDistinctUpperCaseNames | frontend/src/components/TriageBanner.js:10-15 | Each entry's text is its class name in upper case, and no two entries share a colour or a text. |
| TriageBanner.Join | frontend/src/components/TriageBanner.js:23 | Joining [] gives "" and joining [r] gives r. |
| TriageBanner.JoinAppend | frontend/src/components/TriageBanner.js:23 | Joining a concatenation of two non-empty lists joins each part, with one separator between them. |
| TriageBanner.JoinLength | frontend/src/components/TriageBanner.js:23 | The joined text is as long as all reasons together plus one separator per gap. |
| TriageBanner.Render | frontend/src/components/TriageBanner.js:8-23 | A missing class means Assess (grey, ASSESS). Missing reasons give the empty text. Given reasons are joined with ", ". |
| Pipeline.WireName | backend/triage_engine.py:23-44 | The class strings the classifier returns ("Assess", "Immediate", "Delayed", "Minor") are all keys of the banner's class table. |
| Pipeline.WireNameInjective | backend/triage_engine.py:23-44 | Distinct triage classes are sent under distinct names. |
| Pipeline.EngineClassesHaveOwnBanner | frontend/src/components/TriageBanner.js:10-17 | Every class the engine emits has its own banner entry, showing its name in upper case. The banner never falls back for an engine verdict, and distinct classes look distinct. |
| Pipeline.AssessProfileIsAssessed | backend/virtual_sensor.py:112-115 | The Assess profile reads trust 25 for any draws. Under any thresholds that call 25 unreliable, it is classified (Assess, [signal unreliable]). |
| Pipeline.FailedFetchShowsConnectionError | frontend/src/App.js:34-37 | After a failed fetch, the banner shows grey ASSESS with "Backend Connection Error" as its only reason, whatever was shown before. |

## Left out

- Loading the rules file (`TriageEngine.__init__`) is file I/O. The thresholds are a parameter record instead.
- Missing-key defaults of `vitals.get` and the KeyError paths of the classifier are left out. The vitals record is total.
- Reason strings are left out. The source formats each value with Python's `str()`, which prints "32" for an int and "32.0" for a float, and a `real` does not record which one the value was. So reasons are tagged values that carry the vital's value.
- The PPG waveform generator (`_generate_ppg_wave`) and the `ppg_point` field of the sensor's reading are left out. They use floating-point trigonometry and Gaussian noise. On the frontend the PPG point is an arbitrary real.
- The first, shadowed `get_vitals` of the sensor is left out, because it is dead code.
- Random number generation is left out. The draws are a parameter constrained to the generators' documented ranges.
- Floating-point rounding is left out: arithmetic is exact on reals.
- The polling timer (`setInterval`/`clearInterval`) is left out. So are overlapping in-flight requests and out-of-order completions. The model takes completions in the order they happen.
- The HTTP transport, Flask routing and JSON plumbing, and the fire-and-forget profile POST of the simulation controls are left out. They are I/O.
- A response whose `vitals` object lacks a `ppg_point` is not modelled: the source would append `undefined`.
- JavaScript's loose values are not modelled: `undefined`, `NaN` or a string passed as a vital value, step index or class. Vital values are reals and the step index is an integer.
- JavaScript object lookups that hit inherited properties are not modelled, e.g. a class or label named "toString". The class and definition tables are finite maps.
- The "Reasons: " prefix is left out. The banner's reasons text is the joined list only.
- Chart, MUI and CSS rendering is left out, along with the modal's open/close and explanation toggle. So are the waveform, vitals grid, loading screen and protocol tracker components. They hold no decision logic.
- The `status` that the focus view colours by is an input. It is computed by the view's caller, which is not part of this model.
- Logging is not modelled. That covers the `print` in `set_patient_profile` and the `console.error` in the fetch error handler. Neither affects any state.
