/**
 * The survey document the dashboard renders: an ordered list of questions of
 * three known kinds (plus any other kind, rendered as a placeholder) and a
 * strengths/improvements summary.
 */
module Survey {
  import opened Optional

  /** A `type` tag the dashboard has no renderer for. */
  type UnknownTag = t: string | t != "choice" && t != "satisfaction" && t != "narrative" witness ""

  /** One answer of a choice question: the bar's label text, its share in
      percent, and the number of respondents when the document records it. */
  datatype Answer = Answer(reason: string, percentage: int, count: Option<int>)

  /** The free-text groups of a narrative question; each may be absent. */
  datatype NarrativeData = NarrativeData(
    positive: Option<seq<string>>,
    improvement: Option<seq<string>>,
    responses: Option<seq<string>>)

  /** A question, tagged by its `type` field. The satisfaction `score` is kept as
      the text the page displays for it; the `distribution` is the list of
      (score point, respondent count) pairs in the document's order. */
  datatype Question =
    | Choice(title: string, answers: seq<Answer>)
    | Satisfaction(title: string, score: string, distribution: Option<seq<(string, int)>>)
    | Narrative(title: string, data: NarrativeData)
    | Unsupported(title: string, tag: UnknownTag)

  /** The `type` field of a question. Each tag names exactly one kind. */
  function TypeTag(q: Question): (tag: string)
    ensures tag == "choice" <==> q.Choice?
    ensures tag == "satisfaction" <==> q.Satisfaction?
    ensures tag == "narrative" <==> q.Narrative?
  {
    match q
    case Choice(_, _) => "choice"
    case Satisfaction(_, _, _) => "satisfaction"
    case Narrative(_, _) => "narrative"
    case Unsupported(_, tag) => tag
  }

  /** The closing summary; either list may be missing. */
  datatype SummaryData = SummaryData(strengths: Option<seq<string>>, improvements: Option<seq<string>>)

  /** The whole survey document; `questions` and `summary` may be missing. */
  datatype Document = Document(questions: Option<seq<Question>>, summary: Option<SummaryData>)
}
