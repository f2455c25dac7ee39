/** The standalone dashboard (ChickenShield-Dashboard/src/App.jsx): the report
    on display, the capped scan history kept in local storage, the kid/pro
    explanation switch and the risk colour bands. */
module DashboardApp {
  import opened Wrappers
  import opened Text
  import opened Reports

  /** `slice(0, 10)`: the history keeps at most ten reports. */
  const HistoryCap: nat := 10

  /** `prev.some(item => item.timestamp === ts)`: two missing timestamps are
      equal, and so are two `null` ones, but a `null` one differs from a
      missing one. */
  predicate HasTimestamp(h: seq<Report>, ts: Field<string>) {
    exists i :: 0 <= i < |h| && h[i].timestamp == ts
  }

  /** The updater `addToHistory` hands to `setHistory`. */
  function AppendHistory(prev: seq<Report>, r: Report): (next: seq<Report>)
    ensures HasTimestamp(prev, r.timestamp) ==> next == prev
    ensures !HasTimestamp(prev, r.timestamp) ==>
      1 <= |next| <= HistoryCap && next[0] == r && next[1..] == Prefix(prev, HistoryCap - 1)
  {
    if HasTimestamp(prev, r.timestamp) then prev
    else
      var next := Prefix([r] + prev, HistoryCap);
      assert next[1..] == Prefix(prev, HistoryCap - 1);
      next
  }

  /** After an append the report's timestamp is in the history, so appending
      the same report (or any report with that timestamp) again changes nothing. */
  lemma AppendHistoryIdempotent(prev: seq<Report>, r: Report, s: Report)
    requires s.timestamp == r.timestamp
    ensures AppendHistory(AppendHistory(prev, r), s) == AppendHistory(prev, r)
  {
    var next := AppendHistory(prev, r);
    if !HasTimestamp(prev, r.timestamp) {
      assert next[0].timestamp == s.timestamp;
    }
  }

  /** Two scans with the same timestamp: only the first one is kept. */
  lemma SameTimestampKeepsFirst(prev: seq<Report>, first: Report, second: Report)
    requires !HasTimestamp(prev, first.timestamp)
    requires second.timestamp == first.timestamp
    ensures AppendHistory(AppendHistory(prev, first), second)[0] == first
  {
    AppendHistoryIdempotent(prev, first, second);
  }

  /** `addToHistory` applied to each report of `rs` in turn. */
  function AppendAll(h: seq<Report>, rs: seq<Report>): seq<Report>
    decreases |rs|
  {
    if |rs| == 0 then h else AppendAll(AppendHistory(h, rs[0]), rs[1..])
  }

  /** However many reports are appended, a history of at most ten entries
      stays at most ten entries long. */
  lemma {:induction false} AppendAllBounded(h: seq<Report>, rs: seq<Report>)
    requires |h| <= HistoryCap
    ensures |AppendAll(h, rs)| <= HistoryCap
    decreases |rs|
  {
    if |rs| > 0 {
      AppendAllBounded(AppendHistory(h, rs[0]), rs[1..]);
    }
  }

  /** No two entries share a timestamp. */
  predicate DistinctTimestamps(h: seq<Report>) {
    forall i, j :: 0 <= i < j < |h| ==> h[i].timestamp != h[j].timestamp
  }

  /** The de-duplication rule keeps a history free of repeated timestamps. */
  lemma AppendHistoryKeepsDistinct(prev: seq<Report>, r: Report)
    requires DistinctTimestamps(prev)
    ensures DistinctTimestamps(AppendHistory(prev, r))
  {
    var next := AppendHistory(prev, r);
    if !HasTimestamp(prev, r.timestamp) {
      forall i, j | 0 <= i < j < |next|
        ensures next[i].timestamp != next[j].timestamp
      {
        assert next[j] == prev[j - 1];
        if i > 0 {
          assert next[i] == prev[i - 1];
        }
      }
    }
  }

  /** The three colour sets of `getRiskColors`. */
  datatype RiskColors = RiskColors(text: string, border: string, bg: string)

  const Teal := RiskColors("#64ffda", "#64ffda", "rgba(100, 255, 218, 0.1)")
  const Yellow := RiskColors("#facc15", "#facc15", "rgba(250, 204, 21, 0.1)")
  const Red := RiskColors("#ef4444", "#ef4444", "rgba(239, 68, 68, 0.1)")

  /** Every integer falls in exactly one band: below 40, from 40 to 69, 70 and up. */
  function GetRiskColors(score: int): (c: RiskColors)
    ensures c == Teal <==> score < 40
    ensures c == Yellow <==> 40 <= score < 70
    ensures c == Red <==> 70 <= score
  {
    if score < 40 then Teal
    else if score < 70 then Yellow
    else Red
  }

  function Severity(c: RiskColors): nat {
    if c == Teal then 0 else if c == Yellow then 1 else 2
  }

  /** A higher score never gets a milder colour. */
  lemma RiskColorsMonotone(s: int, t: int)
    requires s <= t
    ensures Severity(GetRiskColors(s)) <= Severity(GetRiskColors(t))
  {
  }

  /** The colours of a displayed report. JavaScript compares a missing score
      (`undefined`) as NaN, so both `< 40` and `< 70` fail and it is shown in
      red; a JSON `null` score compares as 0 and is shown in teal. */
  function ReportColors(r: Report): (c: RiskColors)
    ensures r.riskScore.Absent? ==> c == Red
    ensures r.riskScore.Null? ==> c == Teal && c == GetRiskColors(0)
    ensures r.riskScore.Value? ==> c == GetRiskColors(r.riskScore.value)
  {
    match r.riskScore
    case Absent => Red
    case Null => GetRiskColors(0)
    case Value(score) => GetRiskColors(score)
  }

  /** The risk word of the kid-mode fallback. */
  function KidRisk(verdict: Option<string>): (w: string)
    ensures w == "Safe" <==> verdict == Some("safe")
    ensures w != "Safe" ==> w == "Dangerous"
  {
    if verdict == Some("safe") then "Safe" else "Dangerous"
  }

  /** The kid-mode text shown when a report has no `explanation_simple`. */
  function KidFallback(verdict: Option<string>): string {
    var risk := KidRisk(verdict);
    "(Detailed Kid Mode requires a fresh scan!) This website looks " + risk +
    ". Imagine a castle - the guards are saying it's " +
    (if risk == "Safe" then "okay to enter" else "better to stay outside") + "!"
  }

  /** `getExplanation`: None is JavaScript's `undefined` (nothing rendered). */
  function GetExplanation(report: Option<Report>, simpleMode: bool): (e: Option<string>)
    ensures report.None? ==> e == Some("")
    ensures report.Some? && simpleMode && Truthy(report.value.explanationSimple) ==>
      e == report.value.explanationSimple
    ensures report.Some? && simpleMode && !Truthy(report.value.explanationSimple) ==>
      e == Some(KidFallback(report.value.verdict))
    ensures report.Some? && !simpleMode ==>
      e == if Truthy(report.value.explanationTechnical) then report.value.explanationTechnical
           else report.value.explanation
  {
    match report
    case None => Some("")
    case Some(r) =>
      if simpleMode then
        if Truthy(r.explanationSimple) then r.explanationSimple else Some(KidFallback(r.verdict))
      else if Truthy(r.explanationTechnical) then r.explanationTechnical
      else r.explanation
  }

  /** Kid mode never shows the technical text, pro mode never the simple one:
      each mode's result is independent of the other mode's fields, and the
      kid fallback depends on the verdict only through "is it safe". */
  lemma ExplanationModesIndependent(r: Report, t: Option<string>, x: Option<string>, s: Option<string>, v: Option<string>)
    requires (v == Some("safe")) == (r.verdict == Some("safe"))
    ensures GetExplanation(Some(r), true) ==
      GetExplanation(Some(r.(explanationTechnical := t, explanation := x, verdict := v)), true)
    ensures GetExplanation(Some(r), false) ==
      GetExplanation(Some(r.(explanationSimple := s, verdict := v)), false)
  {
  }

  /** The `data` query parameter as read at load. */
  datatype DataParam =
    | NoParam               // absent or empty
    | Unparsable            // decodeURIComponent / JSON.parse threw
    | Parsed(report: Report)

  /** The dashboard component's state. `stored` is the `chicken_history`
      entry of local storage (None: never written). */
  class Dashboard {
    var report: Option<Report>
    var history: seq<Report>
    var simpleMode: bool
    var stored: Option<seq<Report>>

    constructor (storedHistory: Option<seq<Report>>)
      ensures report == None && history == [] && !simpleMode && stored == storedHistory
    {
      report := None;
      history := [];
      simpleMode := false;
      stored := storedHistory;
    }

    /** `addToHistory`: the history becomes `AppendHistory` of the old one; the
        new list is written to storage only when it was actually prepended. */
    method AddToHistory(r: Report)
      modifies this
      ensures history == AppendHistory(old(history), r)
      ensures stored == if HasTimestamp(old(history), r.timestamp) then old(stored) else Some(history)
      ensures report == old(report) && simpleMode == old(simpleMode)
    {
      if !HasTimestamp(history, r.timestamp) {
        history := AppendHistory(history, r);
        stored := Some(history);
      }
    }

    /** The load-time effect: a stored history replaces the in-memory one;
        a parsed `data` parameter is shown and goes through `addToHistory`
        (applied after the stored history is loaded); an unparsable one leaves
        report and history as they were. */
    method Load(param: DataParam)
      modifies this
      ensures var loaded := if old(stored).Some? then old(stored).value else old(history);
        match param
        case Parsed(r) =>
          report == Some(r) && history == AppendHistory(loaded, r) &&
          stored == if HasTimestamp(loaded, r.timestamp) then old(stored) else Some(history)
        case _ => report == old(report) && history == loaded && stored == old(stored)
      ensures simpleMode == old(simpleMode)
    {
      if stored.Some? {
        history := stored.value;
      }
      if param.Parsed? {
        report := Some(param.report);
        AddToHistory(param.report);
      }
    }

    /** The kid/pro toggle button. */
    method ToggleMode()
      modifies this`simpleMode
      ensures simpleMode == !old(simpleMode)
    {
      simpleMode := !simpleMode;
    }

    /** Clicking a history entry shows that report. */
    method SelectHistoryItem(i: nat)
      requires i < |history|
      modifies this`report
      ensures report == Some(history[i])
    {
      report := Some(history[i]);
    }

    /** The text of the explanation panel, which is rendered only while a
        report is shown: in kid mode the simple explanation or the kid
        fallback, in pro mode the technical explanation or the plain one. */
    function Explanation(): (e: Option<string>)
      reads this
      ensures report.Some? && simpleMode ==>
        e == if Truthy(report.value.explanationSimple) then report.value.explanationSimple
             else Some(KidFallback(report.value.verdict))
      ensures report.Some? && !simpleMode ==>
        e == if Truthy(report.value.explanationTechnical) then report.value.explanationTechnical
             else report.value.explanation
    {
      GetExplanation(report, simpleMode)
    }
  }

  /** Scenario: a stored history with room left and a parameter whose
      timestamp it does not hold: the report is shown and adds exactly one
      history entry. */
  method LoadScenario(saved: seq<Report>, r: Report) returns (shown: Option<Report>, added: int)
    requires |saved| < HistoryCap
    requires !HasTimestamp(saved, r.timestamp)
    ensures shown == Some(r) && added == 1
  {
    var d := new Dashboard(Some(saved));
    d.Load(Parsed(r));
    shown := d.report;
    added := |d.history| - |saved|;
  }
}
