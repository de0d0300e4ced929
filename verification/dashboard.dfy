/**
 * The live page: sections open and close on click, and the first opening of
 * a choice question's section asks for its chart, which a later timer tick
 * draws into a registry holding at most one chart per question.
 */
module Dashboard {
  import opened Optional
  import opened Text
  import opened Survey
  import opened Chart
  import opened Render

  /** The page after loading: the document's questions, their sections, the
      summary panel, the chart registry keyed by question number, and the
      chart requests waiting for their timer, oldest first. */
  datatype Page = Page(
    questions: seq<Question>,
    sections: seq<Section>,
    summary: SummaryPanel,
    charts: map<int, BarChart>,
    pending: seq<int>)

  /** The id a section's header passes to the toggle handler. */
  function SectionId(number: nat): (id: string)
    ensures ReplaceFirst(id, "question") == NatToDecimal(number)
    ensures DecimalValue(ReplaceFirst(id, "question")) == number
  {
    ReplaceFirstPrefix("question", NatToDecimal(number));
    DecimalRoundTrip(number);
    "question" + NatToDecimal(number)
  }

  /** The first section whose `content{n}` element has the id suffix `num`,
      as `getElementById` finds it. */
  function FindSection(sections: seq<Section>, num: string): (r: Option<nat>)
    ensures r.Some? ==> r.value < |sections| && NatToDecimal(sections[r.value].number) == num
    ensures r.Some? ==> forall j | 0 <= j < r.value :: NatToDecimal(sections[j].number) != num
    ensures r.None? ==> forall j | 0 <= j < |sections| :: NatToDecimal(sections[j].number) != num
    decreases |sections|
  {
    if |sections| == 0 then None
    else if NatToDecimal(sections[0].number) == num then Some(0)
    else
      match FindSection(sections[1..], num)
      case None => None
      case Some(i) => Some(i + 1)
  }

  /** Click on a section header. The number is what remains of the id once
      "question" is removed; if no section has that number nothing happens.
      An open section closes (both classes removed). A closed section opens
      (both classes added) and, if the number is a decimal, a chart request
      for it is queued. */
  function Toggle(p: Page, sectionId: string): (r: Page)
    ensures r.questions == p.questions && r.charts == p.charts && r.summary == p.summary
    ensures |r.sections| == |p.sections|
    ensures FindSection(p.sections, ReplaceFirst(sectionId, "question")).None? ==> r == p
    ensures FindSection(p.sections, ReplaceFirst(sectionId, "question")).Some? ==>
              var i := FindSection(p.sections, ReplaceFirst(sectionId, "question")).value;
              r.sections[i].state.active != p.sections[i].state.active
    ensures forall i | 0 <= i < |p.sections| && r.sections[i] != p.sections[i] ::
              && r.sections[i] == p.sections[i].(state := r.sections[i].state)
              && r.sections[i].state.active == r.sections[i].state.rotated
              && r.sections[i].state.active != p.sections[i].state.active
    ensures forall i, j | 0 <= i < j < |p.sections| :: r.sections[i] == p.sections[i] || r.sections[j] == p.sections[j]
    ensures r.pending == p.pending ||
            exists i | 0 <= i < |p.sections| ::
              && !p.sections[i].state.active
              && r.sections[i].state.active
              && r.pending == p.pending + [p.sections[i].number]
  {
    var num := ReplaceFirst(sectionId, "question");
    match FindSection(p.sections, num)
    case None => p
    case Some(i) =>
      var s := p.sections[i];
      if s.state.active then
        p.(sections := p.sections[i := s.(state := Panel(false, false))])
      else
        var expanded := p.(sections := p.sections[i := s.(state := Panel(true, true))]);
        if IsDecimal(num) then
          DecimalRoundTrip(s.number);
          expanded.(pending := p.pending + [DecimalValue(num)])
        else expanded
  }

  /** `chart{n}` exists on the page: some section holds the canvas for `n`. */
  predicate HasCanvas(sections: seq<Section>, n: int) {
    exists i | 0 <= i < |sections| :: sections[i].content.ChartSlot? && sections[i].content.canvas == n
  }

  /** Draw the chart of question `n` unless there is no such question, it is
      not a choice question, it already has a chart, or its canvas is missing.
      Only the registry can change, and only by a new entry for `n`. */
  function CreateChart(p: Page, n: int): (r: Page)
    ensures r.questions == p.questions && r.sections == p.sections
    ensures r.summary == p.summary && r.pending == p.pending
    ensures !(1 <= n <= |p.questions|) || !p.questions[n - 1].Choice? || n in p.charts ==> r == p
    ensures r == p ||
            (&& 1 <= n <= |p.questions|
             && p.questions[n - 1].Choice?
             && n !in p.charts
             && r.charts == p.charts[n := BuildChart(p.questions[n - 1].answers)])
  {
    if !(1 <= n <= |p.questions|) then p
    else
      var q := p.questions[n - 1];
      if !q.Choice? || n in p.charts then p
      else if !HasCanvas(p.sections, n) then p
      else p.(charts := p.charts[n := BuildChart(q.answers)])
  }

  /** The timer of the oldest request goes off and that chart is created. */
  function FireTimer(p: Page): (r: Page)
    ensures |p.pending| == 0 ==> r == p
    ensures |p.pending| > 0 ==> r.pending == p.pending[1..]
    ensures r.questions == p.questions && r.sections == p.sections && r.summary == p.summary
    ensures r.charts == p.charts ||
            (&& |p.pending| > 0
             && 1 <= p.pending[0] <= |p.questions|
             && p.questions[p.pending[0] - 1].Choice?
             && p.pending[0] !in p.charts
             && r.charts == p.charts[p.pending[0] := BuildChart(p.questions[p.pending[0] - 1].answers)])
  {
    if |p.pending| == 0 then p
    else CreateChart(p.(pending := p.pending[1..]), p.pending[0])
  }

  datatype Event = Click(sectionId: string) | TimerFires

  function Step(p: Page, e: Event): Page {
    match e
    case Click(id) => Toggle(p, id)
    case TimerFires => FireTimer(p)
  }

  function Run(p: Page, events: seq<Event>): Page
    decreases |events|
  {
    if |events| == 0 then p else Run(Step(p, events[0]), events[1..])
  }

  /** What stays true of the page between events: section `i` is question
      `i`'s section numbered `i + 1` with its two classes in step; every chart
      belongs to a choice question and was built from its answers; every
      queued request names a question. */
  predicate Inv(p: Page) {
    && |p.sections| == |p.questions|
    && (forall i | 0 <= i < |p.sections| ::
          && SectionOf(p.sections[i], p.questions[i], i + 1)
          && p.sections[i].state.active == p.sections[i].state.rotated)
    && (forall n | n in p.charts ::
          && 1 <= n <= |p.questions|
          && p.questions[n - 1].Choice?
          && p.charts[n] == BuildChart(p.questions[n - 1].answers))
    && (forall i | 0 <= i < |p.pending| :: 1 <= p.pending[i] <= |p.questions|)
  }

  /** Load the document: sections for its questions (none if the list is
      missing), the summary panel, no charts and no requests yet. */
  method Initialize(doc: Document) returns (p: Page)
    ensures p.questions == doc.questions.OrElse([])
    ensures Inv(p)
    ensures forall i | 0 <= i < |p.sections| :: p.sections[i].state == Collapsed
    ensures p.charts == map[] && p.pending == []
    ensures p.summary == CreateSummary(doc.summary)
  {
    var questions := doc.questions.OrElse([]);
    var sections := CreateSections(questions);
    p := Page(questions, sections, CreateSummary(doc.summary), map[], []);
  }

  /** In a page keeping `Inv`, the id of section `n` finds section `n`. */
  lemma FindSectionById(p: Page, n: nat)
    requires Inv(p) && 1 <= n <= |p.sections|
    ensures ReplaceFirst(SectionId(n), "question") == NatToDecimal(n)
    ensures FindSection(p.sections, NatToDecimal(n)) == Some(n - 1)
  {
    ReplaceFirstPrefix("question", NatToDecimal(n));
    assert NatToDecimal(p.sections[n - 1].number) == NatToDecimal(n);
    var r := FindSection(p.sections, NatToDecimal(n));
    assert r.Some?;
    DecimalInjective(p.sections[r.value].number, n);
  }

  /** Clicking section `n` flips exactly that section's two classes together,
      and queues a chart request for `n` exactly when it was closed. */
  lemma ToggleSection(p: Page, n: nat)
    requires Inv(p) && 1 <= n <= |p.sections|
    ensures var r := Toggle(p, SectionId(n));
            && r.sections[n - 1].state.active == !p.sections[n - 1].state.active
            && r.sections[n - 1].state.rotated == !p.sections[n - 1].state.rotated
            && (forall j | 0 <= j < |p.sections| && j != n - 1 :: r.sections[j] == p.sections[j])
            && r.pending == if p.sections[n - 1].state.active then p.pending else p.pending + [n]
  {
    FindSectionById(p, n);
    DecimalRoundTrip(n);
  }

  /** Clicking the same header twice leaves every section as it was. */
  lemma ToggleTwice(p: Page, sectionId: string)
    requires Inv(p)
    ensures Toggle(Toggle(p, sectionId), sectionId).sections == p.sections
  {
    var num := ReplaceFirst(sectionId, "question");
    var once := Toggle(p, sectionId);
    match FindSection(p.sections, num)
    case None =>
    case Some(i) =>
      var s := p.sections[i];
      assert forall j | 0 <= j < |p.sections| :: once.sections[j].number == p.sections[j].number;
      assert FindSection(once.sections, num) == Some(i);
  }

  /** In a page keeping `Inv`, the canvas `chart{n}` exists exactly for the
      numbers of choice questions. */
  lemma CanvasExactlyForChoice(p: Page, n: int)
    requires Inv(p)
    ensures HasCanvas(p.sections, n) <==> 1 <= n <= |p.questions| && p.questions[n - 1].Choice?
  {
    if HasCanvas(p.sections, n) {
      var i :| 0 <= i < |p.sections| && p.sections[i].content.ChartSlot? && p.sections[i].content.canvas == n;
      assert p.sections[i].content == QuestionContent(p.questions[i], i + 1);
    }
    if 1 <= n <= |p.questions| && p.questions[n - 1].Choice? {
      assert p.sections[n - 1].content == ChartSlot(n);
    }
  }

  /** A section found by its id suffix has a decimal suffix, so the
      `isNaN` guard of the click handler always lets the request through. */
  lemma FoundIdIsDecimal(sections: seq<Section>, num: string)
    requires FindSection(sections, num).Some?
    ensures IsDecimal(num)
  {
  }

  /** Asking twice for the same chart draws it once. */
  lemma CreateChartIdempotent(p: Page, n: int)
    ensures CreateChart(CreateChart(p, n), n) == CreateChart(p, n)
  {
  }

  /** In a page keeping `Inv` the canvas of every choice question is there,
      so a request for a choice question without a chart always draws it. */
  lemma CreateChartDraws(p: Page, n: int)
    requires Inv(p) && 1 <= n <= |p.questions| && p.questions[n - 1].Choice? && n !in p.charts
    ensures CreateChart(p, n).charts == p.charts[n := BuildChart(p.questions[n - 1].answers)]
  {
    assert p.sections[n - 1].content == ChartSlot(n);
  }

  /** In a page keeping `Inv`, a timer tick whose oldest request names a
      choice question without a chart draws exactly that chart. */
  lemma FireTimerDraws(p: Page)
    requires Inv(p) && |p.pending| > 0
    requires p.questions[p.pending[0] - 1].Choice? && p.pending[0] !in p.charts
    ensures FireTimer(p).charts == p.charts[p.pending[0] := BuildChart(p.questions[p.pending[0] - 1].answers)]
  {
    var q := p.(pending := p.pending[1..]);
    assert Inv(q);
    CreateChartDraws(q, p.pending[0]);
  }

  /** A click keeps `Inv`: only one section's classes change, together, and
      a queued request names the section that was opened. */
  lemma ToggleKeepsInv(p: Page, sectionId: string)
    requires Inv(p)
    ensures Inv(Toggle(p, sectionId))
  {
    var r := Toggle(p, sectionId);
    forall i | 0 <= i < |r.sections|
      ensures SectionOf(r.sections[i], r.questions[i], i + 1)
      ensures r.sections[i].state.active == r.sections[i].state.rotated
    {
      if r.sections[i] != p.sections[i] {
        assert r.sections[i] == p.sections[i].(state := r.sections[i].state);
      }
    }
    if r.pending != p.pending {
      var i :| 0 <= i < |p.sections| && r.pending == p.pending + [p.sections[i].number];
      assert p.sections[i].number == i + 1;
      forall k | 0 <= k < |r.pending|
        ensures 1 <= r.pending[k] <= |r.questions|
      {
        if k < |p.pending| {
          assert r.pending[k] == p.pending[k];
        } else {
          assert r.pending[k] == i + 1;
        }
      }
    }
  }

  /** Drawing a chart keeps `Inv`: the new entry is a choice question's chart. */
  lemma CreateChartKeepsInv(p: Page, n: int)
    requires Inv(p)
    ensures Inv(CreateChart(p, n))
  {
    var r := CreateChart(p, n);
    if r != p {
      forall m | m in r.charts
        ensures 1 <= m <= |r.questions| && r.questions[m - 1].Choice?
        ensures r.charts[m] == BuildChart(r.questions[m - 1].answers)
      {
        if m != n {
          assert m in p.charts;
        }
      }
    }
  }

  lemma StepPreservesInv(p: Page, e: Event)
    requires Inv(p)
    ensures Inv(Step(p, e))
  {
    match e
    case Click(id) =>
      ToggleKeepsInv(p, id);
    case TimerFires =>
      if |p.pending| > 0 {
        var q := p.(pending := p.pending[1..]);
        assert Inv(q);
        CreateChartKeepsInv(q, p.pending[0]);
      }
  }

  /** Any run of clicks and timer ticks from a page keeping `Inv` keeps it. */
  lemma {:induction false} RunPreservesInv(p: Page, events: seq<Event>)
    requires Inv(p)
    ensures Inv(Run(p, events))
    decreases |events|
  {
    if |events| > 0 {
      StepPreservesInv(p, events[0]);
      RunPreservesInv(Step(p, events[0]), events[1..]);
    }
  }

  /** `after` holds every chart of `before`, unchanged. */
  predicate KeepsCharts(before: map<int, BarChart>, after: map<int, BarChart>) {
    forall n | n in before :: n in after && after[n] == before[n]
  }

  /** No event removes or replaces a chart. */
  lemma StepKeepsCharts(p: Page, e: Event)
    ensures KeepsCharts(p.charts, Step(p, e).charts)
  {
  }

  /** Once drawn, a chart stays the same for the rest of the session. */
  lemma {:induction false} RunKeepsCharts(p: Page, events: seq<Event>)
    ensures KeepsCharts(p.charts, Run(p, events).charts)
    decreases |events|
  {
    if |events| > 0 {
      var next := Step(p, events[0]);
      StepKeepsCharts(p, events[0]);
      RunKeepsCharts(next, events[1..]);
    }
  }

  /** Opening a closed choice section with no chart and letting its timer go
      off draws that question's chart. */
  lemma OpenThenTickDrawsChart(p: Page, n: nat)
    requires Inv(p) && 1 <= n <= |p.sections| && p.pending == []
    requires !p.sections[n - 1].state.active
    requires p.questions[n - 1].Choice? && n !in p.charts
    ensures n in Run(p, [Click(SectionId(n)), TimerFires]).charts
    ensures Run(p, [Click(SectionId(n)), TimerFires]).charts[n] == BuildChart(p.questions[n - 1].answers)
  {
    var click := Click(SectionId(n));
    var events := [click, TimerFires];
    ToggleSection(p, n);
    ToggleKeepsInv(p, SectionId(n));
    var expanded := Toggle(p, SectionId(n));
    assert expanded.pending == [n];
    var q := expanded.(pending := []);
    assert Inv(q);
    CreateChartDraws(q, n);
    var fired := FireTimer(expanded);
    assert fired == CreateChart(q, n);
    assert events[1..] == [TimerFires];
    assert Run(p, events) == Run(expanded, [TimerFires]);
    assert Run(expanded, [TimerFires]) == Run(fired, []);
  }
}
