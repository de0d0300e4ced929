# Survey dashboard: a Dafny model of its rendering and chart logic

The dashboard (`js/main.js`) shows the results of a parent survey as one
collapsible section per question. Choice questions get a bar chart, drawn
the first time their section is opened. Satisfaction questions show a score
and a distribution. Narrative questions show quoted free-text answers. A
summary panel lists strengths and improvements.

This project models the parts of that file whose behaviour can be stated
without a browser. The HTML strings become datatypes (`Render.Fragment`,
`Render.Section`), and the DOM state becomes a `Dashboard.Page` value that
clicks and timer ticks transform.

- `optional.dfy` (`Optional`): absent JSON fields.
- `text.dfy` (`Text`): `split(' ')`/`join(' ')` and their round trips, the
  decimal spelling of question numbers in element ids, and
  `replace('question', '')`.
- `survey.dfy` (`Survey`): the survey document, with questions as a sum type
  over their `type` tag.
- `chart.dfy` (`Chart`): wrapping of axis labels, the respondent count in
  tooltips, and the bar-chart configuration built for a choice question.
- `render.dfy` (`Render`): icons, per-kind content fragments, the section
  list and the summary panel.
- `dashboard.dfy` (`Dashboard`): section toggling, the chart registry,
  queued chart requests, and the invariant every sequence of events keeps.

Behaviour worth knowing, as the code does it:
- A present `responses` list replaces the positive and improvement groups.
- A distribution that is present but empty renders no distribution block.
- Chart creation is also skipped when the canvas element is missing.
- "Toggling twice restores the section" holds only while the content and
  chevron classes are in step. They always are on a page built by
  `Initialize`, and `Dashboard.Inv` records this.

## Model

| member | source | states |
|---|---|---|
| Text.Split | js/main.js:294 | `split(' ')` always yields at least one piece, and no piece contains the separator |
| Text.Join | js/main.js:297 | joining n >= 1 words puts exactly n - 1 separators between them and adds nothing else; joining no words gives the empty string |
| Text.JoinSplit | js/main.js:294-297 | joining the pieces of a split with the separator gives the original string back |
| Text.SplitJoin | js/main.js:294-297 | splitting a join of separator-free words gives the same words back |
| Text.JoinAppend | js/main.js:297 | joining two non-empty runs of words equals joining each run and putting one separator between them |
| Text.SplitCountsSeparators | js/main.js:295 | a text splits into more than one word exactly when it contains a space |
| Text.NatToDecimal | js/main.js:97 | the number spliced into a section id is a non-empty string of decimal digits |
| Text.DecimalRoundTrip | js/main.js:270-271 | `parseInt` of the spelled-out question number gives the number back |
| Text.DecimalSpellingRoundTrip | js/main.js:271 | `parseInt` of a digit string without a leading zero, spelled out again, gives the same string |
| Text.LeadingDigitPositive | js/main.js:270-271 | a digit string that does not start with 0 names a question number of at least 1 |
| Text.DecimalInjective | js/main.js:257-258 | different question numbers give different element ids |
| Text.ReplaceFirst | js/main.js:256 | without an occurrence of the pattern the string is unchanged; otherwise exactly the leftmost occurrence is cut out, and the text before and after it is kept |
| Text.ReplaceFirstPrefix | js/main.js:256 | stripping "question" from `question{n}` leaves the number's digits |
| Chart.CeilHalf | js/main.js:296 | `Math.ceil(n/2)` is n/2 rounded up |
| Chart.WrapLabel | js/main.js:290-303 | a reason of at most 15 characters is one unchanged line; a longer one is two lines; with spaces, the lines joined by a space rebuild it; without spaces, the first line is the first 15 characters and the lines concatenated rebuild it |
| Chart.WrapLabelWords | js/main.js:294-297 | a long multi-word reason's first line holds exactly its first ceil(n/2) words and its second line the remaining words, both non-empty |
| Chart.WrapLabelShows | js/main.js:290-303 | every wrapped label shows the reason it came from |
| Chart.WrapLabelNotInjective | js/main.js:290-303 | a 16-character word and the same text with a space before its last character get identical axis labels |
| Chart.RoundedShare | js/main.js:328 | `Math.round(p*35/100)` is the integer nearest to 35p/100, with halves rounded up |
| Chart.RoundedShareBounds | js/main.js:328 | for a percentage in 0..100 the derived count lies in 0..35 |
| Chart.RoundedShareMonotone | js/main.js:328 | a larger percentage never derives fewer respondents |
| Chart.RespondentCount | js/main.js:328 | the tooltip shows the recorded count when it is present and non-zero, and otherwise the nearest-integer share of 35 (also when the count is 0) |
| Chart.BuildChart | js/main.js:290-329 | one label, bar and tooltip per answer, in order; label i is reason i wrapped by `Chart.WrapLabel` (so it shows the reason, by `Chart.WrapLabelShows`), bar i is percentage i, and tooltip i carries the full reason, the percentage and the respondent count |
| Survey.TypeTag | js/main.js:131-137 | each of the tags "choice", "satisfaction" and "narrative" names exactly one question kind |
| Render.IconFor | js/main.js:118-125 | the star icon is for "satisfaction" only, the speech icon for "narrative" only, and every other tag gets the bar icon |
| Render.UnknownTagIcon | js/main.js:124 | a question of unknown type wears the same icon as a choice question |
| Render.Quotes | js/main.js:191-195 | one quote per entry, in order |
| Render.ScoreRows | js/main.js:160-166 | one distribution row per (point, count) pair, in order |
| Render.SatisfactionContent | js/main.js:159-179 | shows the score; the distribution block appears exactly when the distribution is present and non-empty, with one row per pair |
| Render.NarrativeContent | js/main.js:184-227 | with `responses` present, only the responses group is shown; otherwise the positive group comes first and the improvement group last, each present exactly when its list is |
| Render.ResponsesOverwrite | js/main.js:213-224 | with `responses` present, the positive and improvement lists make no difference to the output |
| Render.NarrativeQuotesFromData | js/main.js:187-224 | quote k of a group of a given kind is entry k of that kind's list |
| Render.QuestionContent | js/main.js:130-141 | the content is a chart slot (for this question's number), score panel, narrative grid or coming-soon placeholder exactly when the question is choice, satisfaction, narrative or of another type; the score panel is the one `Render.SatisfactionContent` builds and the grid holds the groups of `Render.NarrativeContent` |
| Render.SectionElement | js/main.js:93-113 | a new section is collapsed and carries its question's number and title, the icon of its `type` tag and the content `Render.QuestionContent` builds; its header icon matches its content: the star over a score panel, the speech bubble over quotes, the bar icon over a chart slot or the placeholder |
| Render.CreateSections | js/main.js:78-113 | the old container contents are discarded; N collapsed sections are produced, numbered 1..N in document order, each with its question's title, icon and content |
| Render.Bullets | js/main.js:240-246 | one list item per entry in order, and none for a missing list |
| Render.CreateSummary | js/main.js:232-250 | a missing summary or a missing list renders as an empty list; otherwise the strengths and the improvements each get one item per entry |
| Dashboard.SectionId | js/main.js:97 | removing "question" from a header's id leaves the spelled-out question number, and `parseInt` of that gives the number back |
| Dashboard.FindSection | js/main.js:257-260 | finds the first section whose id carries the given digits, or reports that no section does |
| Dashboard.Toggle | js/main.js:255-274 | a click whose id, with "question" removed, names no section changes nothing; otherwise the first section it names flips its `active` flag; a click changes at most one section and changes nothing but its state; that state's two classes end up equal and its `active` flips; a chart request is queued only when a closed section opens, and it names that section's number |
| Dashboard.CreateChart | js/main.js:279-359 | no change if the number is out of range, the question is not a choice or the chart already exists; otherwise only the registry changes, by one new entry for that number built from its answers |
| Dashboard.FireTimer | js/main.js:271 | a timer tick consumes the oldest queued chart request and changes nothing but the queue and the registry; the registry either stays as it was or gains the chart of the requested question, which must be a choice question without a chart |
| Dashboard.FireTimerDraws | js/main.js:271-284 | in a well-formed page, a tick whose oldest request names a choice question without a chart adds exactly that question's chart, built from its answers |
| Dashboard.CanvasExactlyForChoice | js/main.js:283-284 | in a well-formed page, the canvas `chart{n}` exists exactly when n numbers a choice question |
| Dashboard.FoundIdIsDecimal | js/main.js:257-270 | once a section was found for an id suffix, the suffix is all digits, so the `isNaN` guard never stops the chart request |
| Dashboard.Initialize | js/main.js:47-60 | after loading, every section is collapsed, there are no charts and no requests, the summary is rendered, and the page invariant holds |
| Dashboard.FindSectionById | js/main.js:97-107 | in a well-formed page, the id `question{n}` is reduced to n's digits and finds section n |
| Dashboard.ToggleSection | js/main.js:262-272 | clicking section n flips both of its flags, leaves every other section alone, and queues a request for n exactly when it was closed |
| Dashboard.ToggleTwice | js/main.js:262-268 | clicking the same header twice restores every section |
| Dashboard.CreateChartIdempotent | js/main.js:281 | requesting the same chart twice has the effect of requesting it once |
| Dashboard.CreateChartDraws | js/main.js:281-284 | in a well-formed page, a choice question without a chart always has its canvas, so a request draws its chart |
| Dashboard.ToggleKeepsInv | js/main.js:255-274 | a click keeps the page invariant |
| Dashboard.CreateChartKeepsInv | js/main.js:279-359 | chart creation keeps the page invariant: only choice questions have charts, each built from that question's answers |
| Dashboard.StepPreservesInv | js/main.js:255-284 | every click or timer tick keeps the page invariant |
| Dashboard.RunPreservesInv | js/main.js:255-284 | every sequence of clicks and ticks keeps the page invariant |
| Dashboard.StepKeepsCharts | js/main.js:281 | no event removes or replaces a chart |
| Dashboard.RunKeepsCharts | js/main.js:281 | once drawn, a chart stays unchanged for the rest of the session, so each question has at most one chart |
| Dashboard.OpenThenTickDrawsChart | js/main.js:266-271 | with no other chart request queued, opening a closed choice section and then letting its timer fire draws that question's chart |

## Left out

- Data loading, `loadSurveyData` (js/main.js:13-42): the session-storage gate, `fetch`, JSON parsing and the embedded-data fallback are I/O. The model starts from a parsed `Survey.Document`.
- `updateStats` (js/main.js:65-73): DOM text only. Its satisfaction default `6.6` is floating point.
- `showError` (js/main.js:365-378) and console logging: they render a static message.
- HTML markup and styling: sections, fragments and panels are datatypes. A missing `title` renders as "undefined" in the page; this is not modelled, and every title is a string.
- Chart.js (js/main.js:304-356, 359): the colours and axes are not modelled, and the callbacks are not modelled as functions; the tooltip texts they return are part of `Chart.BarChart`, which is the registry entry together with the labels and bar values.
- The 100 ms `setTimeout` (js/main.js:271): modelled as a queue of pending requests that a `TimerFires` event consumes oldest first. Only the order of events matters; their timing is not modelled.
- Floating point: percentages and counts are integers. The satisfaction score is kept as the text the page shows. For an integer percentage, 35p/100 is a multiple of 0.05, so the double computation is exact at every rounding boundary and `Chart.RoundedShare` matches `Math.round`.
- String length: `Chart.WrapLabel` counts characters, whereas JavaScript counts UTF-16 code units. The two agree for text in the Basic Multilingual Plane, Hangul included. They differ for characters outside it, such as emoji.
- `Object.entries` ordering of a distribution: taken as the document's list of pairs, in order.
- `icons[type]` (js/main.js:124) also finds inherited object members, so the tag "constructor" yields a function rather than the fallback icon. The model treats every unlisted tag as unknown.
- Dashboard.Toggle: the guard `questionNumber && !isNaN(questionNumber)` (js/main.js:270) is modelled as "non-empty and all decimal digits". The two differ for strings such as " 7" or "1e2". The guard only runs after an element `content{num}` was found, and every such `num` is a decimal spelling, so the difference is never reached.
- A choice question without a `data` list, or an answer whose `reason` is missing or null, makes `createChart` throw (js/main.js:290-293). A non-string `reason` such as a number has no `length`, so the length test fails and the value reaches the chart unwrapped (js/main.js:302). In the model, a choice question always has its answers and every reason is a string.
- A narrative question without a `data` object makes the JavaScript throw. In the model, narrative data is always present, with each list optional.
- The tooltip fallback uses a fixed 35 respondents (`Chart.FallbackRespondents`), not `meta.respondentCount`. This is how the code is written, and the model keeps it. The `|| 35` default of the stats panel belongs to `updateStats`, which is left out.
