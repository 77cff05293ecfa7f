/** The triage banner: the colour and upper-case text of a triage class, with
    the Assess entry as the fallback, and the reasons joined into one line. */
module TriageBanner {
  import opened Wrappers

  datatype Info = Info(color: string, text: string)

  /** The class table of the banner. */
  const TriageInfo: map<string, Info> := map[
    "Immediate" := Info("#D32F2F", "IMMEDIATE"),
    "Delayed" := Info("#FBC02D", "DELAYED"),
    "Minor" := Info("#388E3C", "MINOR"),
    "Assess" := Info("#616161", "ASSESS")
  ]

  const DefaultClass: string := "Assess"

  /** The entry for a class name, or the Assess entry for any other name. */
  function Lookup(cls: string): (r: Info)
    ensures cls in TriageInfo ==> r == TriageInfo[cls]
    ensures cls !in TriageInfo ==> r == Info("#616161", "ASSESS")
    ensures r in TriageInfo.Values
  {
    if cls in TriageInfo then TriageInfo[cls] else TriageInfo[DefaultClass]
  }

  function UpperChar(c: char): char {
    if 'a' <= c <= 'z' then (c as int - 'a' as int + 'A' as int) as char else c
  }

  /** ASCII upper-casing of a string. */
  function Upper(s: string): string {
    seq(|s|, i requires 0 <= i < |s| => UpperChar(s[i]))
  }

  /** Each entry shows its own class name in upper case, and no two entries
      share a colour or a text. */
  lemma EntriesAreDistinctUpperCaseNames(a: string, b: string)
    requires a in TriageInfo && b in TriageInfo
    ensures TriageInfo[a].text == Upper(a)
    ensures a != b ==> TriageInfo[a].color != TriageInfo[b].color && TriageInfo[a].text != TriageInfo[b].text
  {
    assert Upper("Immediate") == "IMMEDIATE";
    assert Upper("Delayed") == "DELAYED";
    assert Upper("Minor") == "MINOR";
    assert Upper("Assess") == "ASSESS";
  }

  /** `xs.join(sep)`: the elements in order with `sep` between neighbours. */
  function Join(xs: seq<string>, sep: string): (r: string)
    ensures |xs| == 0 ==> r == ""
    ensures |xs| == 1 ==> r == xs[0]
    decreases |xs|
  {
    if |xs| == 0 then ""
    else if |xs| == 1 then xs[0]
    else xs[0] + sep + Join(xs[1..], sep)
  }

  /** Joining a concatenation joins the parts with one separator between them. */
  lemma {:induction false} JoinAppend(xs: seq<string>, ys: seq<string>, sep: string)
    requires |xs| > 0 && |ys| > 0
    ensures Join(xs + ys, sep) == Join(xs, sep) + sep + Join(ys, sep)
    decreases |xs|
  {
    if |xs| == 1 {
      assert (xs + ys)[1..] == ys;
    } else {
      assert (xs + ys)[1..] == xs[1..] + ys;
      JoinAppend(xs[1..], ys, sep);
    }
  }

  function TotalLength(xs: seq<string>): nat
    decreases |xs|
  {
    if |xs| == 0 then 0 else |xs[0]| + TotalLength(xs[1..])
  }

  /** The joined text holds every element and one separator per gap. */
  lemma {:induction false} JoinLength(xs: seq<string>, sep: string)
    requires |xs| > 0
    ensures |Join(xs, sep)| == TotalLength(xs) + (|xs| - 1) * |sep|
    decreases |xs|
  {
    if |xs| > 1 {
      JoinLength(xs[1..], sep);
    } else {
      assert TotalLength(xs[1..]) == 0;
    }
  }

  datatype Banner = Banner(info: Info, reasonsText: string)

  /** The banner for its two props; a missing class means Assess and missing
      reasons mean none. */
  function Render(cls: Option<string>, reasons: Option<seq<string>>): (b: Banner)
    ensures b.info == Lookup(cls.ValueOr(DefaultClass))
    ensures cls.None? ==> b.info == Info("#616161", "ASSESS")
    ensures reasons.None? ==> b.reasonsText == ""
    ensures reasons.Some? ==> b.reasonsText == Join(reasons.value, ", ")
  {
    Banner(Lookup(cls.ValueOr(DefaultClass)), Join(reasons.ValueOr([]), ", "))
  }
}
