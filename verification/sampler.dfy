/** The frontend's polling step (`fetchData` in App.js) as a pure function:
    one completed fetch, successful or not, turns the displayed state into the
    next one. The timer that schedules fetches is not modelled. */
module Sampler {
  import opened Wrappers
  import opened VitalSigns

  /** The verdict as the frontend holds it: a class name and reason texts,
      both taken verbatim from the response. */
  datatype ShownVerdict = ShownVerdict(cls: string, reasons: seq<string>)

  /** The `vitals` object of a response, including its PPG point. */
  datatype Sample = Sample(vitals: Vitals, ppgPoint: real)

  /** The body of a successful response. `vitals` is None when the response
      carries a JSON `null` there. */
  datatype Response = Response(vitals: Option<Sample>, triage: ShownVerdict)

  datatype State = State(vitals: Option<Sample>, triage: ShownVerdict, ppgData: seq<real>)

  const PpgCapacity: nat := 200

  const InitialVerdict: ShownVerdict := ShownVerdict("Assess", ["Initializing..."])

  const FallbackVerdict: ShownVerdict := ShownVerdict("Assess", ["Backend Connection Error"])

  /** The state before any fetch has completed. */
  const Initial: State := State(None, InitialVerdict, [])

  function Min(a: int, b: int): int {
    if a <= b then a else b
  }

  /** Reference definition: the newest `min(|s|, n)` elements of `s`. */
  function Newest<T>(s: seq<T>, n: nat): seq<T> {
    s[|s| - Min(|s|, n)..]
  }

  /** The PPG buffer update: append the new point, then keep only the newest
      `PpgCapacity` points. */
  function AppendPoint(data: seq<real>, point: real): (r: seq<real>)
    ensures |r| == Min(|data| + 1, PpgCapacity)
    ensures r == Newest(data + [point], PpgCapacity)
    ensures r[|r| - 1] == point
    ensures |data| < PpgCapacity ==> r == data + [point]
  {
    var updated := data + [point];
    if |updated| > PpgCapacity then updated[|updated| - PpgCapacity..] else updated
  }

  /** One fetch completion: None is a failed request. A response with a
      `null` vitals object first stores it, then fails when reading its PPG
      point, so it ends like a failure but with the vitals cleared. */
  function Step(s: State, fetched: Option<Response>): (s': State)
    ensures fetched.None? ==> s'.triage == FallbackVerdict && s'.vitals == s.vitals && s'.ppgData == s.ppgData
    ensures fetched.Some? && fetched.value.vitals.Some? ==>
              && s'.vitals == fetched.value.vitals
              && s'.triage == fetched.value.triage
              && s'.ppgData == AppendPoint(s.ppgData, fetched.value.vitals.value.ppgPoint)
    ensures fetched.Some? && fetched.value.vitals.None? ==>
              s' == State(None, FallbackVerdict, s.ppgData)
    ensures |s.ppgData| <= PpgCapacity ==> |s'.ppgData| <= PpgCapacity
  {
    match fetched
    case None => s.(triage := FallbackVerdict)
    case Some(response) =>
      match response.vitals
      case None => State(None, FallbackVerdict, s.ppgData)
      case Some(sample) => State(response.vitals, response.triage, AppendPoint(s.ppgData, sample.ppgPoint))
  }

  /** A sequence of fetch completions, oldest first. */
  function Run(s: State, fetches: seq<Option<Response>>): State
    decreases |fetches|
  {
    if |fetches| == 0 then s else Run(Step(s, fetches[0]), fetches[1..])
  }

  /** The PPG point one fetch appends, if any. */
  function PointOf(fetched: Option<Response>): seq<real> {
    if fetched.Some? && fetched.value.vitals.Some? then [fetched.value.vitals.value.ppgPoint] else []
  }

  /** The PPG points of the fetches that appended one, oldest first. */
  function Points(fetches: seq<Option<Response>>): seq<real>
    decreases |fetches|
  {
    if |fetches| == 0 then [] else PointOf(fetches[0]) + Points(fetches[1..])
  }

  /** Trimming to the newest `n` and then appending is, for the newest `n`,
      the same as appending to the untrimmed sequence. */
  lemma {:induction false} NewestAbsorbs<T>(a: seq<T>, b: seq<T>, n: nat)
    ensures Newest(Newest(a, n) + b, n) == Newest(a + b, n)
  {
    var t := Newest(a, n) + b;
    var s := a + b;
    var m := Min(|s|, n);
    assert t == s[|s| - |t|..];
    assert Min(|t|, n) == m;
    assert s[|s| - |t|..][|t| - m..] == s[|s| - m..];
  }

  /** One step followed by more points, seen through `Newest`, is the old
      buffer followed by the step's point and the further points. */
  lemma StepThenNewest(s: State, fetched: Option<Response>, more: seq<real>)
    requires |s.ppgData| <= PpgCapacity
    ensures Newest(Step(s, fetched).ppgData + more, PpgCapacity)
         == Newest(s.ppgData + (PointOf(fetched) + more), PpgCapacity)
  {
    var d := s.ppgData;
    if PointOf(fetched) == [] {
      assert Step(s, fetched).ppgData == d;
      assert PointOf(fetched) + more == more;
    } else {
      var x := fetched.value.vitals.value.ppgPoint;
      assert Step(s, fetched).ppgData == Newest(d + [x], PpgCapacity);
      NewestAbsorbs(d + [x], more, PpgCapacity);
      assert d + [x] + more == d + (PointOf(fetched) + more);
    }
  }

  /** From any state whose buffer is within capacity, the buffer after a run
      holds exactly the newest points of the old buffer followed by every
      appended point, in arrival order. */
  lemma {:induction false} RunKeepsNewest(s: State, fetches: seq<Option<Response>>)
    requires |s.ppgData| <= PpgCapacity
    ensures Run(s, fetches).ppgData == Newest(s.ppgData + Points(fetches), PpgCapacity)
    decreases |fetches|
  {
    if |fetches| == 0 {
      assert s.ppgData + [] == s.ppgData;
    } else {
      var s1 := Step(s, fetches[0]);
      var rest := fetches[1..];
      RunKeepsNewest(s1, rest);
      assert Run(s, fetches) == Run(s1, rest);
      assert Points(fetches) == PointOf(fetches[0]) + Points(rest);
      StepThenNewest(s, fetches[0], Points(rest));
    }
  }

  /** From the initial state the buffer never exceeds its capacity, and it
      holds the newest appended points in order. */
  lemma {:induction false} BufferFromInitial(fetches: seq<Option<Response>>)
    ensures |Run(Initial, fetches).ppgData| <= PpgCapacity
    ensures Run(Initial, fetches).ppgData == Newest(Points(fetches), PpgCapacity)
  {
    RunKeepsNewest(Initial, fetches);
    assert Initial.ppgData + Points(fetches) == Points(fetches);
  }

  /** The verdict on display after a non-empty run is decided by the last
      fetch alone: the fallback if it failed, the response's verdict otherwise. */
  lemma {:induction false} RunShowsLastVerdict(s: State, fetches: seq<Option<Response>>)
    requires |fetches| > 0
    ensures var last := fetches[|fetches| - 1];
      Run(s, fetches).triage ==
        if last.Some? && last.value.vitals.Some? then last.value.triage else FallbackVerdict
    decreases |fetches|
  {
    if |fetches| > 1 {
      RunShowsLastVerdict(Step(s, fetches[0]), fetches[1..]);
      assert fetches[1..][|fetches| - 2] == fetches[|fetches| - 1];
    }
  }

  /** The vitals on display are those of the most recent response received,
      or the previous ones if no response was received during the run. */
  lemma {:induction false} RunShowsLatestVitals(s: State, fetches: seq<Option<Response>>)
    ensures (forall i :: 0 <= i < |fetches| ==> fetches[i].None?) ==> Run(s, fetches).vitals == s.vitals
    ensures forall i :: 0 <= i < |fetches| && fetches[i].Some? &&
                        (forall j :: i < j < |fetches| ==> fetches[j].None?) ==>
                          Run(s, fetches).vitals == fetches[i].value.vitals
    decreases |fetches|
  {
    if |fetches| > 0 {
      var rest := fetches[1..];
      RunShowsLatestVitals(Step(s, fetches[0]), rest);
      forall i | 0 <= i < |fetches| && fetches[i].Some? && (forall j :: i < j < |fetches| ==> fetches[j].None?)
        ensures Run(s, fetches).vitals == fetches[i].value.vitals
      {
        if i == 0 {
          assert forall j :: 0 <= j < |rest| ==> rest[j] == fetches[j + 1];
        } else {
          assert rest[i - 1] == fetches[i];
          assert forall j :: i - 1 < j < |rest| ==> rest[j] == fetches[j + 1];
        }
      }
      if forall i :: 0 <= i < |fetches| ==> fetches[i].None? {
        assert fetches[0].None?;
        assert forall j :: 0 <= j < |rest| ==> rest[j] == fetches[j + 1];
      }
    }
  }
}
