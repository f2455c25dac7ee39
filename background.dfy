/** The extension's background worker (ChickenShield/background.js): builds the
    prompt body, turns the language-model call's outcome into a report, merges
    provenance fields, keeps the single last-result slot and sets the badge. */
module BackgroundWorker {
  import opened Wrappers
  import opened Text
  import opened Reports

  /** The request body embedded in the prompt is cut to this many characters. */
  const PromptBodyCap: nat := 10000
  const NoTextContent: string := "No text content"
  const FallbackMessage: string :=
    "Failed to connect to AI service. Please check your API key or internet connection."

  /** `data.content ? data.content.substring(0, 10000) : "No text content"`. */
  function PromptBody(content: Option<string>): (body: string)
    ensures Truthy(content) ==>
      body <= content.value && |body| == Min(|content.value|, PromptBodyCap)
    ensures !Truthy(content) ==> body == NoTextContent
  {
    if Truthy(content) then Prefix(content.value, PromptBodyCap) else NoTextContent
  }

  /** The object `analyzeWithGemini` returns from its `catch`. */
  const FallbackReport: Report := Report(
    contentType := None, domainAgeDays := None, senderReputation := None,
    socialIndicators := Absent, technicalIndicators := Absent,
    riskScore := Value(0), verdict := Some("unknown"),
    explanation := Some(FallbackMessage),
    explanationTechnical := None, explanationSimple := None,
    error := Some(true), source := None, title := None, timestamp := Absent)

  /** What the network call produced: either the request itself failed, or a
      response arrived with a status and a body whose decoding
      (`response.json()`, `choices[0].message.content`, `JSON.parse`) either
      threw (None) or gave an object. */
  datatype FetchOutcome =
    | NetworkFailure
    | HttpReply(status: int, decoded: Option<Report>)

  /** `response.ok`: a status in the range 200-299. */
  predicate StatusOk(status: int) {
    200 <= status <= 299
  }

  predicate Succeeded(o: FetchOutcome) {
    o.HttpReply? && StatusOk(o.status) && o.decoded.Some?
  }

  /** `analyzeWithGemini`: on success the parsed object as it is (no clamping
      of `risk_score`, no check of `verdict`); on any failure the fixed fallback. */
  function AnalyzeWithGemini(o: FetchOutcome): (r: Report)
    ensures Succeeded(o) ==> r == o.decoded.value
    ensures !Succeeded(o) ==> r == FallbackReport
  {
    match o
    case NetworkFailure => FallbackReport
    case HttpReply(status, decoded) =>
      if !StatusOk(status) then FallbackReport
      else if decoded.None? then FallbackReport
      else decoded.value
  }

  /** Failures are indistinguishable: a network error, any non-OK status and a
      reply that does not decode all give the same report, which carries
      `error`, a zero score and the verdict "unknown". */
  lemma FailuresIndistinguishable(o1: FetchOutcome, o2: FetchOutcome)
    requires !Succeeded(o1) && !Succeeded(o2)
    ensures AnalyzeWithGemini(o1) == AnalyzeWithGemini(o2)
    ensures IsError(AnalyzeWithGemini(o1))
    ensures AnalyzeWithGemini(o1).riskScore == Value(0)
    ensures AnalyzeWithGemini(o1).verdict == Some("unknown")
  {
  }

  /** The result sent back and stored: `{...result, source, title, timestamp}`.
      The three provenance fields come from the request and the clock and
      override the reply's; every other field is the reply's. */
  function FinalResult(result: Report, data: ContentDescription, timestamp: string): (f: Report)
    ensures f.source == Some(data.source) && f.title == Some(data.title) && f.timestamp == Value(timestamp)
    ensures f.(source := result.source, title := result.title, timestamp := result.timestamp) == result
  {
    result.(source := Some(data.source), title := Some(data.title), timestamp := Value(timestamp))
  }

  /** The badge: text and background colour. */
  datatype Badge = Badge(text: string, color: string)

  /** The badge while an analysis is pending. */
  const PendingBadge := Badge("...", "#999")

  /** `updateBadge`: a total map from verdicts (absent ones included) to badges. */
  function BadgeFor(verdict: Option<string>): (b: Badge)
    ensures verdict == Some("suspicious") ==> b == Badge("WARN", "orange")
    ensures verdict == Some("dangerous") ==> b == Badge("BAD", "red")
    ensures verdict == Some("unknown") ==> b == Badge("?", "gray")
    ensures verdict !in {Some("suspicious"), Some("dangerous"), Some("unknown")} ==> b == Badge("OK", "green")
  {
    if verdict == Some("suspicious") then Badge("WARN", "orange")
    else if verdict == Some("dangerous") then Badge("BAD", "red")
    else if verdict == Some("unknown") then Badge("?", "gray")
    else Badge("OK", "green")
  }

  /** A completed analysis always replaces the pending badge, and a failed one
      shows "?" on gray. */
  lemma BadgeAfterAnalysis(o: FetchOutcome, data: ContentDescription, ts: string)
    ensures BadgeFor(FinalResult(AnalyzeWithGemini(o), data, ts).verdict) != PendingBadge
    ensures !Succeeded(o) ==> BadgeFor(FinalResult(AnalyzeWithGemini(o), data, ts).verdict) == Badge("?", "gray")
  {
  }

  /** Messages the worker answers. */
  datatype Request =
    | AnalyzeContent(data: ContentDescription)
    | GetLastResult
    | OtherAction(action: string)

  /** What `sendResponse` receives. */
  datatype Reply =
    | AnalyzeReply(status: string, result: Report)
    | LastResultReply(last: Option<Report>)

  /** The worker's state: the in-memory `lastScanResult`, the copy written to
      `chrome.storage.local` and the badge. */
  class Worker {
    var lastScanResult: Option<Report>
    var storedLastScanResult: Option<Report>
    var badge: Badge

    /** A fresh worker: `lastScanResult` starts null; storage and badge are
        whatever the browser kept. */
    constructor (stored: Option<Report>, shownBadge: Badge)
      ensures lastScanResult == None && storedLastScanResult == stored && badge == shownBadge
    {
      lastScanResult := None;
      storedLastScanResult := stored;
      badge := shownBadge;
    }

    method UpdateBadge(verdict: Option<string>)
      modifies this`badge
      ensures badge == BadgeFor(verdict)
    {
      badge := BadgeFor(verdict);
    }

    /** The synchronous part of `ANALYZE_CONTENT`: show the pending badge. */
    method BeginAnalysis()
      modifies this`badge
      ensures badge == PendingBadge
    {
      badge := PendingBadge;
    }

    /** The `.then` continuation: merge, store (last write wins), set the
        badge from the verdict and answer "success". */
    method CompleteAnalysis(data: ContentDescription, o: FetchOutcome, timestamp: string)
      returns (reply: Reply)
      modifies this
      ensures var f := FinalResult(AnalyzeWithGemini(o), data, timestamp);
        lastScanResult == Some(f) && storedLastScanResult == Some(f) &&
        badge == BadgeFor(f.verdict) && reply == AnalyzeReply("success", f)
    {
      var result := AnalyzeWithGemini(o);
      var finalResult := FinalResult(result, data, timestamp);
      lastScanResult := Some(finalResult);
      storedLastScanResult := Some(finalResult);
      UpdateBadge(finalResult.verdict);
      reply := AnalyzeReply("success", finalResult);
    }

    /** The `onMessage` listener, with the analysis run to completion before the
        next message (no overlapping analyses). Unknown actions get no reply. */
    method OnMessage(request: Request, o: FetchOutcome, timestamp: string)
      returns (reply: Option<Reply>)
      modifies this
      ensures request.AnalyzeContent? ==>
        var f := FinalResult(AnalyzeWithGemini(o), request.data, timestamp);
        lastScanResult == Some(f) && storedLastScanResult == Some(f) &&
        badge == BadgeFor(f.verdict) && reply == Some(AnalyzeReply("success", f))
      ensures request.GetLastResult? ==>
        reply == Some(LastResultReply(old(lastScanResult))) && unchanged(this)
      ensures request.OtherAction? ==> reply == None && unchanged(this)
    {
      match request
      case AnalyzeContent(data) =>
        BeginAnalysis();
        var r := CompleteAnalysis(data, o, timestamp);
        reply := Some(r);
      case GetLastResult =>
        reply := Some(LastResultReply(lastScanResult));
      case OtherAction(_) =>
        reply := None;
    }
  }

  /** Scenario: a website description analysed against a reply with score 85
      and verdict "dangerous"; the last slot holds that report, the badge reads
      "BAD", and a later GET_LAST_RESULT returns it. */
  method DangerousScenario(reply: Report) returns (badgeText: string, last: Option<Reply>)
    requires reply.riskScore == Value(85) && reply.verdict == Some("dangerous")
    ensures badgeText == "BAD"
    ensures last.Some? && last.value.LastResultReply? && last.value.last.Some?
    ensures last.value.last.value.riskScore == Value(85)
    ensures last.value.last.value.source == Some("http://example.com")
  {
    var w := new Worker(None, Badge("", ""));
    var data := ContentDescription(Website, "http://example.com", "Example", "Buy now urgent!!!");
    var _ := w.OnMessage(AnalyzeContent(data), HttpReply(200, Some(reply)), "2024-01-01T00:00:00Z");
    badgeText := w.badge.text;
    last := w.OnMessage(GetLastResult, NetworkFailure, "");
  }

  /** Last write wins: after two analyses the slot holds the second result. */
  method LastWriteWins(d1: ContentDescription, o1: FetchOutcome, d2: ContentDescription, o2: FetchOutcome)
    returns (last: Option<Report>)
    ensures last == Some(FinalResult(AnalyzeWithGemini(o2), d2, "t2"))
  {
    var w := new Worker(None, PendingBadge);
    var _ := w.OnMessage(AnalyzeContent(d1), o1, "t1");
    var _ := w.OnMessage(AnalyzeContent(d2), o2, "t2");
    last := w.lastScanResult;
  }
}
