/**
 * The dashboard's page content as abstract fragments rather than HTML: one
 * collapsible section per question, the per-kind content inside it, and the
 * summary panel.
 */
module Render {
  import opened Optional
  import opened Survey

  /** The icon in a section header. */
  datatype Icon = BarIcon | StarIcon | SpeechIcon

  /** The icon table; tags missing from it fall back to the bar icon. */
  const Icons: map<string, Icon> := map["choice" := BarIcon, "satisfaction" := StarIcon, "narrative" := SpeechIcon]

  /** The header icon for a `type` tag (`icons[type] || '📊'`). */
  function IconFor(tag: string): (icon: Icon)
    ensures icon == StarIcon <==> tag == "satisfaction"
    ensures icon == SpeechIcon <==> tag == "narrative"
    ensures icon == BarIcon <==> tag != "satisfaction" && tag != "narrative"
  {
    if tag in Icons then Icons[tag] else BarIcon
  }

  /** A question of unknown kind wears the same icon as a choice question. */
  lemma UnknownTagIcon(q: Question)
    requires q.Unsupported?
    ensures IconFor(TypeTag(q)) == IconFor("choice")
  {
  }

  /** One row of a satisfaction distribution: a score point and how many chose it. */
  datatype ScoreRow = ScoreRow(point: string, count: int)

  /** One quoted free-text answer. */
  datatype Quote = Quote(text: string)

  datatype GroupKind = PositiveGroup | ImprovementGroup | ResponsesGroup

  /** A titled group of quotes in a narrative question. */
  datatype QuoteGroup = QuoteGroup(kind: GroupKind, quotes: seq<Quote>)

  /** The content panel of a section. `ChartSlot(n)` is the empty canvas
      `chart{n}` a chart is later drawn into. */
  datatype Fragment =
    | ChartSlot(canvas: nat)
    | ScorePanel(score: string, distribution: Option<seq<ScoreRow>>)
    | NarrativeGrid(groups: seq<QuoteGroup>)
    | ComingSoon

  /** One quote per entry, in order. */
  function Quotes(entries: seq<string>): (r: seq<Quote>)
    ensures |r| == |entries|
    ensures forall i | 0 <= i < |r| :: r[i].text == entries[i]
  {
    seq(|entries|, i requires 0 <= i < |entries| => Quote(entries[i]))
  }

  /** One row per (point, count) pair, in order. */
  function ScoreRows(distribution: seq<(string, int)>): (r: seq<ScoreRow>)
    ensures |r| == |distribution|
    ensures forall i | 0 <= i < |r| :: r[i].point == distribution[i].0 && r[i].count == distribution[i].1
  {
    seq(|distribution|, i requires 0 <= i < |distribution| => ScoreRow(distribution[i].0, distribution[i].1))
  }

  /** A satisfaction question's panel: its score, and its distribution block
      only when the distribution is present and has at least one entry (an
      empty distribution renders no rows, and no rows means no block). */
  function SatisfactionContent(score: string, distribution: Option<seq<(string, int)>>): (r: Fragment)
    ensures r.ScorePanel? && r.score == score
    ensures r.distribution.Some? <==> distribution.Some? && |distribution.value| > 0
    ensures r.distribution.Some? ==>
              && |r.distribution.value| == |distribution.value|
              && forall i | 0 <= i < |distribution.value| ::
                   r.distribution.value[i] == ScoreRow(distribution.value[i].0, distribution.value[i].1)
  {
    var rows := if distribution.Some? then ScoreRows(distribution.value) else [];
    ScorePanel(score, if |rows| > 0 then Some(rows) else None)
  }

  /** A narrative question's groups. The positive group and then the
      improvement group are built when present, but a present `responses`
      list replaces whatever was built: only its group is shown. */
  function NarrativeContent(data: NarrativeData): (groups: seq<QuoteGroup>)
    ensures data.responses.Some? ==>
              groups == [QuoteGroup(ResponsesGroup, Quotes(data.responses.value))]
    ensures data.responses.None? ==>
              && |groups| == (if data.positive.Some? then 1 else 0) + (if data.improvement.Some? then 1 else 0)
              && (data.positive.Some? ==> groups[0] == QuoteGroup(PositiveGroup, Quotes(data.positive.value)))
              && (data.improvement.Some? ==>
                    groups[|groups| - 1] == QuoteGroup(ImprovementGroup, Quotes(data.improvement.value)))
  {
    var positive := if data.positive.Some? then [QuoteGroup(PositiveGroup, Quotes(data.positive.value))] else [];
    var improvement := if data.improvement.Some? then [QuoteGroup(ImprovementGroup, Quotes(data.improvement.value))] else [];
    if data.responses.Some? then [QuoteGroup(ResponsesGroup, Quotes(data.responses.value))]
    else positive + improvement
  }

  /** With `responses` present, the positive and improvement lists make no
      difference to what is shown: they are built and then overwritten. */
  lemma ResponsesOverwrite(data: NarrativeData)
    requires data.responses.Some?
    ensures NarrativeContent(data) == NarrativeContent(NarrativeData(None, None, data.responses))
  {
  }

  /** Every quote shown for a narrative question comes from one of its lists. */
  lemma NarrativeQuotesFromData(data: NarrativeData, g: nat, k: nat)
    requires g < |NarrativeContent(data)| && k < |NarrativeContent(data)[g].quotes|
    ensures var group := NarrativeContent(data)[g];
            match group.kind
            case PositiveGroup => data.positive.Some? && group.quotes[k].text == data.positive.value[k]
            case ImprovementGroup => data.improvement.Some? && group.quotes[k].text == data.improvement.value[k]
            case ResponsesGroup => data.responses.Some? && group.quotes[k].text == data.responses.value[k]
  {
  }

  /** The content panel of question number `number`, chosen by its `type` tag;
      a tag without a renderer gets the coming-soon placeholder. */
  function QuestionContent(q: Question, number: nat): (r: Fragment)
    ensures r.ChartSlot? <==> q.Choice?
    ensures r.ChartSlot? ==> r.canvas == number
    ensures r.ScorePanel? <==> q.Satisfaction?
    ensures r.NarrativeGrid? <==> q.Narrative?
    ensures r.ComingSoon? <==> q.Unsupported?
    ensures q.Satisfaction? ==> r == SatisfactionContent(q.score, q.distribution)
    ensures q.Narrative? ==> r == NarrativeGrid(NarrativeContent(q.data))
  {
    var tag := TypeTag(q);
    if tag == "choice" then ChartSlot(number)
    else if tag == "satisfaction" then SatisfactionContent(q.score, q.distribution)
    else if tag == "narrative" then NarrativeGrid(NarrativeContent(q.data))
    else ComingSoon
  }

  // ---------------------------------------------------------------------
  // Sections

  /** The open/closed classes of a section: `active` on its content panel and
      `rotated` on its chevron. */
  datatype Panel = Panel(active: bool, rotated: bool)

  const Collapsed := Panel(false, false)

  /** A collapsible section: header (icon, number, title) and content panel. */
  datatype Section = Section(number: nat, icon: Icon, title: string, content: Fragment, state: Panel)

  /** The section for question `q` shown as number `number`, initially
      collapsed. Its header icon agrees with its content: the star over a
      score panel, the speech bubble over quotes, and the bar icon over a
      chart slot or the placeholder. */
  function SectionElement(q: Question, number: nat): (s: Section)
    ensures s.number == number && s.title == q.title && s.state == Collapsed
    ensures s.icon == IconFor(TypeTag(q))
    ensures s.content == QuestionContent(q, number)
    ensures s.icon == StarIcon <==> s.content.ScorePanel?
    ensures s.icon == SpeechIcon <==> s.content.NarrativeGrid?
    ensures s.icon == BarIcon <==> s.content.ChartSlot? || s.content.ComingSoon?
  {
    Section(number, IconFor(TypeTag(q)), q.title, QuestionContent(q, number), Collapsed)
  }

  /** `s` is the section of question `q` as number `number`, whatever its open state. */
  predicate SectionOf(s: Section, q: Question, number: nat) {
    s == SectionElement(q, number).(state := s.state)
  }

  /** Fills the section container: its old contents are discarded, then one
      collapsed section per question is appended, numbered 1..N in document
      order, with the icon and content chosen by the question's kind. */
  method CreateSections(questions: seq<Question>) returns (container: seq<Section>)
    ensures |container| == |questions|
    ensures forall i | 0 <= i < |container| ::
              && container[i].number == i + 1
              && container[i].title == questions[i].title
              && container[i].icon == IconFor(TypeTag(questions[i]))
              && container[i].content == QuestionContent(questions[i], i + 1)
              && container[i].state == Collapsed
  {
    container := [];
    var i := 0;
    while i < |questions|
      invariant 0 <= i <= |questions|
      invariant |container| == i
      invariant forall j | 0 <= j < i :: container[j] == SectionElement(questions[j], j + 1)
    {
      container := container + [SectionElement(questions[i], i + 1)];
      i := i + 1;
    }
  }

  // ---------------------------------------------------------------------
  // Summary

  /** One bullet of a summary list. */
  datatype ListItem = ListItem(text: string)

  /** The summary panel: always both cards, strengths first. */
  datatype SummaryPanel = SummaryPanel(strengths: seq<ListItem>, improvements: seq<ListItem>)

  /** One bullet per entry of a list, in order; a missing list gives none. */
  function Bullets(entries: Option<seq<string>>): (r: seq<ListItem>)
    ensures entries.None? ==> r == []
    ensures entries.Some? ==> |r| == |entries.value| && forall i | 0 <= i < |r| :: r[i].text == entries.value[i]
  {
    var list := entries.OrElse([]);
    seq(|list|, i requires 0 <= i < |list| => ListItem(list[i]))
  }

  /** The summary panel for the document's `summary`; a missing summary or a
      missing list shows an empty list rather than failing. */
  function CreateSummary(summary: Option<SummaryData>): (r: SummaryPanel)
    ensures summary.None? ==> r == SummaryPanel([], [])
    ensures summary.Some? ==> r.strengths == Bullets(summary.value.strengths)
    ensures summary.Some? ==> r.improvements == Bullets(summary.value.improvements)
  {
    var data := summary.OrElse(SummaryData(None, None));
    SummaryPanel(Bullets(data.strengths), Bullets(data.improvements))
  }
}
