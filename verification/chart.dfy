/**
 * The part of a choice question's bar chart that the dashboard computes
 * itself: the x-axis labels (long answer texts wrapped onto two lines), the
 * bar heights, and the tooltip lines with their respondent counts.
 */
module Chart {
  import opened Optional
  import opened Text
  import opened Survey

  /** Answer texts longer than this are wrapped onto two lines. */
  const MaxLineLength := 15

  /** Respondent total assumed when an answer records no count of its own. */
  const FallbackRespondents := 35

  /** An x-axis label: the text as is, or two lines. */
  datatype Label = OneLine(text: string) | TwoLines(first: string, second: string)

  /** `Math.ceil(n / 2)` for a count of words. */
  function CeilHalf(n: nat): (h: nat)
    ensures 2 * h == n || 2 * h == n + 1
  {
    (n + 1) / 2
  }

  /** The label drawn under a bar for the answer text `text`. Short texts stay
      on one line; a longer text with spaces is cut between words, the first
      line holding the first half of the words (rounded up); a longer text
      without spaces is cut after its 15th character. Nothing is lost: the
      lines put back together, with the space that was cut at, give `text`. */
  function WrapLabel(text: string): (r: Label)
    ensures r.OneLine? <==> |text| <= MaxLineLength
    ensures r.OneLine? ==> r.text == text
    ensures r.TwoLines? && ' ' in text ==> r.first + " " + r.second == text
    ensures r.TwoLines? && ' ' !in text ==> r.first == text[..MaxLineLength] && r.first + r.second == text
  {
    if |text| > MaxLineLength then
      var words := Split(text, ' ');
      SplitCountsSeparators(text, ' ');
      if |words| > 1 then
        var mid := CeilHalf(|words|);
        JoinSplit(text, ' ');
        JoinAppend(words[..mid], words[mid..], ' ');
        assert words[..mid] + words[mid..] == words;
        TwoLines(Join(words[..mid], ' '), Join(words[mid..], ' '))
      else
        TwoLines(text[..MaxLineLength], text[MaxLineLength..])
    else
      OneLine(text)
  }

  /** A multi-word label keeps whole words: its first line is the first
      `ceil(n/2)` of the text's `n` words and its second line the rest, and
      neither is empty of words. */
  lemma WrapLabelWords(text: string)
    requires |text| > MaxLineLength && ' ' in text
    ensures var words := Split(text, ' ');
            var mid := CeilHalf(|words|);
            && 1 <= mid < |words|
            && WrapLabel(text).TwoLines?
            && Split(WrapLabel(text).first, ' ') == words[..mid]
            && Split(WrapLabel(text).second, ' ') == words[mid..]
  {
    var words := Split(text, ' ');
    var mid := CeilHalf(|words|);
    SplitCountsSeparators(text, ' ');
    SplitJoin(words[..mid], ' ');
    SplitJoin(words[mid..], ' ');
  }

  /** `shown` is what the chart shows for the answer text `text`: the text
      itself if short, otherwise two lines that rejoin to the text. */
  ghost predicate Shows(shown: Label, text: string) {
    match shown
    case OneLine(t) => t == text && |text| <= MaxLineLength
    case TwoLines(first, second) =>
      && |text| > MaxLineLength
      && (if ' ' in text then first + " " + second == text
          else |first| == MaxLineLength && first + second == text)
  }

  /** Every wrapped label shows the text it was made from. */
  lemma WrapLabelShows(text: string)
    ensures Shows(WrapLabel(text), text)
  {
  }

  /** Two different answer texts can end up with the same axis label: a
      16-character word and the same characters with a space before the last
      one both become the lines `w` and `[c]`. Only the tooltip title, which
      carries the full text, tells them apart. */
  lemma WrapLabelNotInjective(w: string, c: char)
    requires |w| == MaxLineLength && ' ' !in w && c != ' '
    ensures w + [c] != w + [' ', c]
    ensures WrapLabel(w + [c]) == WrapLabel(w + [' ', c])
  {
    var joined := w + [c];
    var spaced := w + [' ', c];
    assert spaced[MaxLineLength] == ' ' && joined[MaxLineLength] == c;
    assert ' ' !in joined;
    assert joined[..MaxLineLength] == w && joined[MaxLineLength..] == [c];
    assert spaced == w + [' '] + [c];
    SplitAfterWord(w, ' ', [c]);
    SplitWithoutSeparator([c], ' ');
    var words := Split(spaced, ' ');
    assert words == [w, [c]];
    assert words[..1] == [w] && words[1..] == [[c]];
  }

  // ---------------------------------------------------------------------
  // Tooltips

  /** `Math.round(percentage * 35 / 100)`: the whole number nearest to the
      share of 35 respondents, halves rounded up. */
  function RoundedShare(percentage: int): (r: int)
    ensures -100 < 200 * r - 2 * FallbackRespondents * percentage <= 100
  {
    (2 * FallbackRespondents * percentage + 100) / 200
  }

  /** For a percentage in 0..100 the derived count is a respondent count out of 35. */
  lemma RoundedShareBounds(percentage: int)
    requires 0 <= percentage <= 100
    ensures 0 <= RoundedShare(percentage) <= FallbackRespondents
  {
  }

  /** Rounding keeps order: a larger share never shows fewer respondents. */
  lemma RoundedShareMonotone(p: int, q: int)
    requires p <= q
    ensures RoundedShare(p) <= RoundedShare(q)
  {
  }

  /** The respondent count shown in an answer's tooltip: its recorded count
      when that is present and non-zero (`count ||`), otherwise the rounded
      share of 35. */
  function RespondentCount(a: Answer): (r: int)
    ensures a.count.Some? && a.count.value != 0 ==> r == a.count.value
    ensures a.count.None? || a.count.value == 0 ==>
              -100 < 200 * r - 2 * FallbackRespondents * a.percentage <= 100
  {
    match a.count
    case Some(c) => if c != 0 then c else RoundedShare(a.percentage)
    case None => RoundedShare(a.percentage)
  }

  /** A tooltip: the title line and the `percentage% (n명)` line. */
  datatype Tooltip = Tooltip(title: string, percentage: int, respondents: int)

  /** The chart drawn for a choice question: one label, bar and tooltip per answer. */
  datatype BarChart = BarChart(labels: seq<Label>, values: seq<int>, tooltips: seq<Tooltip>)

  /** The chart configuration for a question's answers. Bar `i` belongs to
      answer `i`: its label is the wrapped answer text, its height is the
      answer's percentage, and its tooltip carries the full text and
      respondent count. */
  function BuildChart(answers: seq<Answer>): (c: BarChart)
    ensures |c.labels| == |c.values| == |c.tooltips| == |answers|
    ensures forall i | 0 <= i < |answers| ::
              && c.labels[i] == WrapLabel(answers[i].reason)
              && c.values[i] == answers[i].percentage
              && c.tooltips[i].title == answers[i].reason
              && c.tooltips[i].percentage == answers[i].percentage
              && c.tooltips[i].respondents == RespondentCount(answers[i])
  {
    BarChart(
      seq(|answers|, i requires 0 <= i < |answers| => WrapLabel(answers[i].reason)),
      seq(|answers|, i requires 0 <= i < |answers| => answers[i].percentage),
      seq(|answers|, i requires 0 <= i < |answers| =>
        Tooltip(answers[i].reason, answers[i].percentage, RespondentCount(answers[i]))))
  }
}
