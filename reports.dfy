/** The records that travel through the extension: the content description a
    page or an e-mail yields, and the risk report the language model returns
    (with provenance fields added by the extension). Both are JSON objects in
    the source; each field the code reads is an `Option` here, because any of
    them may be missing from a model reply. The fields whose JSON `null` the
    code treats differently from a missing key are a `Field` instead. */
module Reports {
  import opened Wrappers
  import opened Text

  /** The JSON scalars a reply may carry where a number is expected. */
  datatype Scalar = JNull | JNumber(n: int) | JString(s: string) | JBool(b: bool)

  /** A field of a parsed JSON object: missing (`undefined` in JavaScript,
      the `get` default in Python), present with `null`, or present with a value. */
  datatype Field<+T> = Absent | Null | Value(value: T)

  /** A risk report, field by field as the source names them:
      content_type, domain_age_estimate_days, sender_reputation,
      social_engineering_indicators, technical_indicators, risk_score,
      verdict, explanation, explanation_technical, explanation_simple,
      error, source, title, timestamp. */
  datatype Report = Report(
    contentType: Option<string>,
    domainAgeDays: Option<Scalar>,
    senderReputation: Option<string>,
    socialIndicators: Field<seq<string>>,
    technicalIndicators: Field<seq<string>>,
    riskScore: Field<int>,
    verdict: Option<string>,
    explanation: Option<string>,
    explanationTechnical: Option<string>,
    explanationSimple: Option<string>,
    error: Option<bool>,
    source: Option<string>,
    title: Option<string>,
    timestamp: Field<string>)

  /** JavaScript truthiness of a string-valued field: present and non-empty. */
  predicate Truthy(s: Option<string>) {
    s.Some? && s.value != ""
  }

  /** `result.error` is truthy. */
  predicate IsError(r: Report) {
    r.error == Some(true)
  }

  /** The `type` field of a content description. */
  datatype ContentKind = Website | Email {
    function Name(): string {
      match this
      case Website => "website"
      case Email => "email"
    }
  }

  /** What a content script sends with `ANALYZE_CONTENT`: {type, source, title, content}. */
  datatype ContentDescription = ContentDescription(
    kind: ContentKind,
    source: string,
    title: string,
    content: string)

  const NoneDetected: string := "None detected"

  /** How one indicator tag is displayed: its first `_` becomes a space. */
  function IndicatorLabel(tag: string): string {
    ReplaceFirst(tag, '_', ' ')
  }

  /** The items shown for an indicator list, both in the dashboard
      (`tags.map(tag => tag.replace('_', ' '))`, or "None detected" when the
      list is missing, null or empty) and in the popup's `fillList`. */
  function IndicatorLabels(items: Field<seq<string>>): seq<string> {
    if !items.Value? || |items.value| == 0 then [NoneDetected]
    else seq(|items.value|, i requires 0 <= i < |items.value| => IndicatorLabel(items.value[i]))
  }

  /** A missing, null or empty list shows exactly one item, "None detected"; a list of
      n tags shows n items, in order, each with only its first underscore
      replaced by a space (a later underscore stays). */
  lemma {:induction false} IndicatorLabelsShape(items: Field<seq<string>>)
    ensures !items.Value? || items.value == [] ==> IndicatorLabels(items) == [NoneDetected]
    ensures items.Value? && items.value != [] ==>
      |IndicatorLabels(items)| == |items.value| &&
      forall k :: 0 <= k < |items.value| ==>
        |IndicatorLabels(items)[k]| == |items.value[k]| &&
        ('_' !in items.value[k] ==> IndicatorLabels(items)[k] == items.value[k]) &&
        forall j :: 0 <= j < |items.value[k]| && items.value[k][j] == '_' && '_' !in items.value[k][..j] ==>
          IndicatorLabels(items)[k] == items.value[k][..j] + " " + items.value[k][j + 1..]
  {
    if items.Value? && items.value != [] {
      forall k | 0 <= k < |items.value|
        ensures '_' !in items.value[k] ==> IndicatorLabels(items)[k] == items.value[k]
        ensures forall j :: 0 <= j < |items.value[k]| && items.value[k][j] == '_' && '_' !in items.value[k][..j] ==>
          IndicatorLabels(items)[k] == items.value[k][..j] + " " + items.value[k][j + 1..]
      {
        ReplaceFirstSpec(items.value[k], '_', ' ');
      }
    }
  }
}
