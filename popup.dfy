/** The extension popup (ChickenShield/popup.js): the fields `updateUI` writes,
    the indicator lists `fillList` rebuilds, and the dashboard link. Each field
    holds the value assigned to the element's text (None or Absent: `undefined`,
    shown as "undefined"; Null: `null`, shown as an empty text). */
module PopupView {
  import opened Wrappers
  import opened Text
  import opened Reports

  const DashboardBaseUrl: string := "http://localhost:5173"

  /** `fillList`: the list is cleared, then holds "None detected" for a missing,
      null or empty list, or one item per tag, in order, with its first `_` made a
      space. Its old contents play no part. */
  method FillList(items: Field<seq<string>>) returns (shown: seq<string>)
    ensures shown == IndicatorLabels(items)
  {
    shown := [];
    if !items.Value? || |items.value| == 0 {
      shown := [NoneDetected];
      return;
    }
    var tags := items.value;
    var i := 0;
    while i < |tags|
      invariant 0 <= i <= |tags|
      invariant |shown| == i
      invariant forall k :: 0 <= k < i ==> shown[k] == IndicatorLabel(tags[k])
    {
      shown := shown + [IndicatorLabel(tags[i])];
      i := i + 1;
    }
  }

  /** The link the dashboard button opens: the stored result travels in the
      `data` query parameter (`encode` is `encodeURIComponent(JSON.stringify(...))`). */
  function DashboardUrl(stored: Option<Report>, encode: Report -> string): (url: string)
    ensures StartsWith(url, DashboardBaseUrl)
    ensures stored.None? ==> url == DashboardBaseUrl
    ensures stored.Some? ==> url[|DashboardBaseUrl|..] == "?data=" + encode(stored.value)
  {
    match stored
    case None => DashboardBaseUrl
    case Some(r) => DashboardBaseUrl + "?data=" + encode(r)
  }

  /** The popup's elements. */
  class Popup {
    var riskScore: Field<int>
    var verdict: Option<string>
    var explanation: Option<string>
    var badge: Option<string>
    var source: Option<string>
    var containerClass: string
    var socialList: seq<string>
    var techList: seq<string>

    /** The popup's HTML before any result is shown. */
    constructor (initialClass: string)
      ensures riskScore == Absent && verdict == None && explanation == None
      ensures badge == None && source == None && containerClass == initialClass
      ensures socialList == [] && techList == []
    {
      riskScore, verdict, explanation := Absent, None, None;
      badge, source := None, None;
      containerClass := initialClass;
      socialList, techList := [], [];
    }

    /** `updateUI`. A missing or error result only sets the verdict to "Error"
        and the explanation (the result's own, or "Unknown error" without a
        result). Otherwise every field follows the result; the badge is the
        upper-cased verdict and the container class is "container <verdict>".
        A result without a verdict makes `toUpperCase` throw after score,
        verdict and explanation are written: the rest keeps its old value. */
    method UpdateUI(result: Option<Report>)
      modifies this
      ensures result.None? || IsError(result.value) ==>
        verdict == Some("Error") &&
        explanation == (if result.None? then Some("Unknown error") else result.value.explanation) &&
        riskScore == old(riskScore) && badge == old(badge) && source == old(source) &&
        containerClass == old(containerClass) && socialList == old(socialList) && techList == old(techList)
      ensures result.Some? && !IsError(result.value) ==>
        riskScore == result.value.riskScore && verdict == result.value.verdict &&
        explanation == result.value.explanation
      ensures result.Some? && !IsError(result.value) && result.value.verdict.None? ==>
        badge == old(badge) && source == old(source) && containerClass == old(containerClass) &&
        socialList == old(socialList) && techList == old(techList)
      ensures result.Some? && !IsError(result.value) && result.value.verdict.Some? ==>
        badge == Some(UpperAscii(result.value.verdict.value)) &&
        source == result.value.contentType &&
        containerClass == "container " + result.value.verdict.value &&
        socialList == IndicatorLabels(result.value.socialIndicators) &&
        techList == IndicatorLabels(result.value.technicalIndicators)
    {
      if result.None? || IsError(result.value) {
        verdict := Some("Error");
        explanation := if result.None? then Some("Unknown error") else result.value.explanation;
        return;
      }
      var r := result.value;
      riskScore := r.riskScore;
      verdict := r.verdict;
      explanation := r.explanation;
      if r.verdict.None? {
        return;
      }
      badge := Some(UpperAscii(r.verdict.value));
      source := r.contentType;
      containerClass := "container " + r.verdict.value;
      socialList := FillList(r.socialIndicators);
      techList := FillList(r.technicalIndicators);
    }
  }
}
