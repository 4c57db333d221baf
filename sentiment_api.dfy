/**
 * The news-sentiment client: the decoding of the analysis service's raw
 * payload into the dashboard's `AnalyzeResponse`, which renames the fields
 * of each related news item, fills in missing arrays and collapses every
 * reaction label other than "positive" to "negative".
 */
module SentimentApi {
  import opened Wrappers
  import opened FinancialHealthApi

  const NewsFailure := "Failed to analyze news"

  datatype IdentifiedCompany = IdentifiedCompany(companyName: string, ticker: string, matchedEntity: string, confidence: real)

  /** One raw `related_news` item: `Topic`, `Date`, `reaction_label`, `pct_change_2d`, `faiss_rank`. */
  datatype RawNews = RawNews(topic: string, date: string, reactionLabel: Option<string>, pctChange2d: real, faissRank: int)

  datatype RawHistoricalContext = RawHistoricalContext(narrative: Option<string>, relatedNews: Option<seq<RawNews>>)

  /** The service's JSON, with the fields the client reads. */
  datatype RawPayload = RawPayload(
    impact: string,
    direction: Option<string>,
    identifiedCompanies: Option<seq<IdentifiedCompany>>,
    historicalContext: Option<RawHistoricalContext>)

  datatype Direction = Positive | Negative

  datatype HistoricalExample = HistoricalExample(topic: string, date: string, direction: Direction, pctChange2d: real, faissRank: int)

  datatype HistoricalContext = HistoricalContext(narrative: Option<string>, examples: seq<HistoricalExample>)

  datatype AnalyzeResponse = AnalyzeResponse(
    impact: string,
    direction: Option<string>,
    identifiedCompanies: seq<IdentifiedCompany>,
    historicalContext: Option<HistoricalContext>)

  /** One news item renamed; its direction is `Positive` exactly for the label "positive". */
  function ExampleOf(n: RawNews): (e: HistoricalExample)
    ensures e.direction == Positive <==> n.reactionLabel == Some("positive")
    ensures e.topic == n.topic && e.date == n.date && e.pctChange2d == n.pctChange2d && e.faissRank == n.faissRank
  {
    HistoricalExample(n.topic, n.date, if n.reactionLabel == Some("positive") then Positive else Negative, n.pctChange2d, n.faissRank)
  }

  function ContextOf(c: RawHistoricalContext): (h: HistoricalContext)
    ensures h.narrative == c.narrative
    ensures c.relatedNews.None? ==> h.examples == []
    ensures c.relatedNews.Some? ==> |h.examples| == |c.relatedNews.value|
    ensures c.relatedNews.Some? ==> forall i :: 0 <= i < |h.examples| ==> h.examples[i] == ExampleOf(c.relatedNews.value[i])
  {
    var news := c.relatedNews.GetOr([]);
    HistoricalContext(c.narrative, seq(|news|, i requires 0 <= i < |news| => ExampleOf(news[i])))
  }

  /**
   * The mapping in `analyzeNews`: impact and direction pass through,
   * missing companies become `[]`, and the historical context is present
   * exactly when the payload has one.
   */
  function Decode(raw: RawPayload): (r: AnalyzeResponse)
    ensures r.impact == raw.impact && r.direction == raw.direction
    ensures r.identifiedCompanies == raw.identifiedCompanies.GetOr([])
    ensures r.historicalContext.Some? <==> raw.historicalContext.Some?
    ensures raw.historicalContext.Some? ==> r.historicalContext.value == ContextOf(raw.historicalContext.value)
  {
    AnalyzeResponse(raw.impact, raw.direction, raw.identifiedCompanies.GetOr([]),
      if raw.historicalContext.Some? then Some(ContextOf(raw.historicalContext.value)) else None)
  }

  // ---------------------------------------------------------------------------
  // A payload the service could have sent for a given response

  function LabelOf(d: Direction): string {
    match d
    case Positive => "positive"
    case Negative => "negative"
  }

  function RawNewsOf(e: HistoricalExample): RawNews {
    RawNews(e.topic, e.date, Some(LabelOf(e.direction)), e.pctChange2d, e.faissRank)
  }

  function Encode(r: AnalyzeResponse): RawPayload {
    RawPayload(r.impact, r.direction, Some(r.identifiedCompanies),
      match r.historicalContext
      case None => None
      case Some(h) => Some(RawHistoricalContext(h.narrative, Some(seq(|h.examples|, i requires 0 <= i < |h.examples| => RawNewsOf(h.examples[i]))))))
  }

  /** Decoding loses nothing a response can hold: every response is the decoding of some payload. */
  lemma DecodeEncode(r: AnalyzeResponse)
    ensures Decode(Encode(r)) == r
  {
    if r.historicalContext.Some? {
      var h := r.historicalContext.value;
      var d := Decode(Encode(r)).historicalContext.value;
      assert |d.examples| == |h.examples|;
      forall i | 0 <= i < |h.examples| ensures d.examples[i] == h.examples[i] {
        assert ExampleOf(RawNewsOf(h.examples[i])) == h.examples[i];
      }
      assert d.examples == h.examples;
      assert d == h;
    }
  }

  /** Decoding is a normal form: decoding the payload of a decoded response gives it back. */
  lemma DecodeIdempotent(raw: RawPayload)
    ensures Decode(Encode(Decode(raw))) == Decode(raw)
  {
    DecodeEncode(Decode(raw));
  }

  /** An unexpected or missing reaction label reads as negative. */
  lemma UnknownLabelIsNegative(n: RawNews)
    requires n.reactionLabel != Some("positive")
    ensures ExampleOf(n).direction == Negative
  {
  }

  /**
   * `analyzeNews(text)` with the network as a parameter: a failing status
   * throws the fixed message; an OK response is decoded.
   */
  function AnalyzeNews(text: string, fetch: string -> Result<HttpResponse<RawPayload>>): (r: Outcome<AnalyzeResponse>)
    ensures fetch(text).Failure? ==> r == Threw(Some(fetch(text).error))
    ensures fetch(text).Success? && !IsOk(fetch(text).value.status) ==> r == Threw(Some(NewsFailure))
    ensures fetch(text).Success? && IsOk(fetch(text).value.status) ==> r == Resolved(Decode(fetch(text).value.body))
  {
    match fetch(text)
    case Failure(m) => Threw(Some(m))
    case Success(resp) =>
      if !IsOk(resp.status) then Threw(Some(NewsFailure)) else Resolved(Decode(resp.body))
  }
}
