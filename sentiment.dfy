/** The sentiment normaliser of `analyzeSentiment`: the remote classifier's
    reply, once parsed, is coerced into a label from a fixed set, a
    confidence in [0, 1] and an optional whole-star rating in [1, 5]; any
    failure gives a fixed neutral result. The remote call itself is a
    parameter: its outcome is either a failure or the reply's text. */
module SentimentAnalysis {
  import opened Wrappers
  import opened Js

  datatype Sentiment = Positive | Negative | Neutral

  /** The label under which a sentiment travels and is stored. */
  function Name(s: Sentiment): (n: string)
    ensures n in {"positive", "negative", "neutral"}
  {
    match s
    case Positive => "positive"
    case Negative => "negative"
    case Neutral => "neutral"
  }

  /** A normalised classification; `rating` is `None` when the reply
      implied no star rating. */
  datatype Analysis = Analysis(sentiment: Sentiment, confidence: real, rating: Option<int>)

  /** The bounded shape every result has. */
  predicate Bounded(a: Analysis) {
    && 0.0 <= a.confidence <= 1.0
    && (a.rating.Some? ==> 1 <= a.rating.value <= 5)
  }

  /** The result of the `catch` branch: neutral, confidence 0.1, no rating. */
  const Fallback := Analysis(Neutral, 0.1, None)

  /** `['positive', 'negative', 'neutral'].includes(v) ? v : 'neutral'`:
      only a text equal to one of the three labels is kept. */
  function Label(v: JsValue): (s: Sentiment)
    ensures v.Text? && v.s in {"positive", "negative", "neutral"} ==> Name(s) == v.s
    ensures !(v.Text? && v.s in {"positive", "negative", "neutral"}) ==> s == Neutral
  {
    if v.Text? && v.s == "positive" then Positive
    else if v.Text? && v.s == "negative" then Negative
    else Neutral
  }

  /** `Math.max(0, Math.min(1, x))` */
  function Clamp(x: real): (c: real)
    ensures 0.0 <= c <= 1.0
    ensures 0.0 <= x <= 1.0 ==> c == x
    ensures x < 0.0 ==> c == 0.0
    ensures x > 1.0 ==> c == 1.0
  {
    if x < 0.0 then 0.0 else if x > 1.0 then 1.0 else x
  }

  /** `Math.max(0, Math.min(1, v || 0.5))` exactly as written; `None` is
      NaN. A falsy value (missing, null, false, 0, "") becomes 0.5, but a
      truthy value with no numeric reading (an object, a word, an array of
      two numbers) goes through `Math.min` as NaN and comes out as NaN. */
  function ConfidenceAsWritten(v: JsValue): (c: Option<real>)
    ensures c.None? <==> Truthy(v) && ToNumeric(v).None?
    ensures c.Some? ==> 0.0 <= c.value <= 1.0
    ensures !Truthy(v) ==> c == Some(0.5)
    ensures Truthy(v) && ToNumeric(v).Some? && 0.0 <= ToNumeric(v).value <= 1.0 ==> c == ToNumeric(v)
    ensures Truthy(v) && ToNumeric(v).Some? ==> c == Some(Clamp(ToNumeric(v).value))
  {
    var n := if Truthy(v) then ToNumeric(v) else Some(0.5);
    if n.None? then None else Some(Clamp(n.value))
  }

  /** Truthy values with no numeric reading give a NaN confidence. */
  lemma ConfidenceNaN()
    ensures ConfidenceAsWritten(Object(map[])).None?
    ensures ConfidenceAsWritten(Text("high", None)).None?
    ensures ConfidenceAsWritten(Array([Number(0.5), Number(0.9)])).None?
  {
  }

  /** The confidence the normaliser evidently means to give: as written
      wherever that is a number, and the 0.5 default where it would be NaN. */
  function Confidence(v: JsValue): (c: real)
    ensures 0.0 <= c <= 1.0
    ensures ConfidenceAsWritten(v).Some? ==> c == ConfidenceAsWritten(v).value
    ensures ConfidenceAsWritten(v).None? ==> c == 0.5
  {
    ConfidenceAsWritten(v).GetOr(0.5)
  }

  /** `v && v >= 1 && v <= 5 ? Math.round(v) : undefined`, with `>=`, `<=`
      and `Math.round` reading `v` as a number. */
  function Rating(v: JsValue): (r: Option<int>)
    ensures r.Some? <==> Truthy(v) && ToNumeric(v).Some? && 1.0 <= ToNumeric(v).value <= 5.0
    ensures r.Some? ==> 1 <= r.value <= 5
    ensures r.Some? ==> r.value as real - 0.5 <= ToNumeric(v).value < r.value as real + 0.5
  {
    if Truthy(v) && ToNumeric(v).Some? && 1.0 <= ToNumeric(v).value <= 5.0
    then Some(RoundHalfUp(ToNumeric(v).value))
    else None
  }

  /** The object built from the parsed reply `result`, with the corrected
      `Confidence` in place of the expression as written (which can be NaN,
      see `ConfidenceAsWritten`); `None` when reading a property of the reply
      throws (a reply that parses to `null`). */
  function Normalise(result: JsValue): (a: Option<Analysis>)
    ensures a.None? <==> result.Null? || result.Undefined?
    ensures a.Some? ==> Bounded(a.value)
    ensures a.Some? ==> a.value.sentiment == Label(Get(result, "sentiment").value)
    ensures a.Some? ==> a.value.confidence == Confidence(Get(result, "confidence").value)
    ensures a.Some? ==> a.value.rating == Rating(Get(result, "rating").value)
  {
    var sentiment := Get(result, "sentiment");
    var confidence := Get(result, "confidence");
    var rating := Get(result, "rating");
    if sentiment.None? || confidence.None? || rating.None? then None
    else Some(Analysis(Label(sentiment.value), Confidence(confidence.value), Rating(rating.value)))
  }

  /** The outcome of the remote completion call: it failed (network,
      authentication, a reply without choices), or it returned a message
      whose content may be null. */
  datatype Completion = CallFailed | Replied(content: Option<string>)

  /** `content || "{}"` */
  function ReplyText(content: Option<string>): (t: string)
    ensures content.None? || content == Some("") ==> t == "{}"
    ensures content.Some? && content.value != "" ==> t == content.value
  {
    if content.None? || content == Some("") then "{}" else content.value
  }

  /** `analyzeSentiment`: `jsonParse` is `JSON.parse`, `None` when it
      throws. Every failure lands in the fallback; the function itself never
      fails. The confidence is the corrected one of `Normalise`. */
  function AnalyzeSentiment(c: Completion, jsonParse: string -> Option<JsValue>): (a: Analysis)
    ensures Bounded(a)
    ensures c.CallFailed? ==> a == Fallback
    ensures c.Replied? && jsonParse(ReplyText(c.content)).None? ==> a == Fallback
    ensures c.Replied? && jsonParse(ReplyText(c.content)) == Some(Null) ==> a == Fallback
    ensures c.Replied? && jsonParse(ReplyText(c.content)).Some? && Normalise(jsonParse(ReplyText(c.content)).value).Some?
            ==> a == Normalise(jsonParse(ReplyText(c.content)).value).value
  {
    match c
    case CallFailed => Fallback
    case Replied(content) =>
      match jsonParse(ReplyText(content))
      case None => Fallback
      case Some(result) =>
        match Normalise(result)
        case None => Fallback
        case Some(a) => a
  }

  /** An empty or missing reply reads as `{}`: neutral, 0.5, no rating. */
  lemma EmptyReply(content: Option<string>, jsonParse: string -> Option<JsValue>)
    requires content.None? || content == Some("")
    requires jsonParse("{}") == Some(Object(map[]))
    ensures AnalyzeSentiment(Replied(content), jsonParse) == Analysis(Neutral, 0.5, None)
  {
  }

  /** The reply the classifier is asked for, carrying `a`. */
  function Reply(a: Analysis): (v: JsValue)
    ensures v.Object?
    ensures Get(v, "sentiment") == Some(Text(Name(a.sentiment), None))
    ensures Get(v, "confidence") == Some(Number(a.confidence))
    ensures Get(v, "rating") == Some(if a.rating.Some? then Number(a.rating.value as real) else Undefined)
  {
    var base := map["sentiment" := Text(Name(a.sentiment), None),
                    "confidence" := Number(a.confidence)];
    if a.rating.Some? then Object(base["rating" := Number(a.rating.value as real)])
    else Object(base)
  }

  /** A reply in the requested format comes through unchanged, except that
      a confidence of 0 is falsy and reads as 0.5. */
  lemma NormaliseReply(a: Analysis)
    requires Bounded(a)
    ensures Normalise(Reply(a)) == Some(a.(confidence := if a.confidence == 0.0 then 0.5 else a.confidence))
  {
    var v := Reply(a);
    assert Get(v, "sentiment") == Some(Text(Name(a.sentiment), None));
    assert Get(v, "confidence") == Some(Number(a.confidence));
    if a.rating.Some? {
      assert Get(v, "rating") == Some(Number(a.rating.value as real));
      assert Rating(Number(a.rating.value as real)) == a.rating;
    } else {
      assert Get(v, "rating") == Some(Undefined);
    }
    assert Label(Text(Name(a.sentiment), None)) == a.sentiment;
  }
}
