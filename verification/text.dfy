/**
 * The string operations the dashboard relies on: splitting and joining on a
 * one-character separator, the decimal spelling of a question number inside
 * element ids, and replacing the first occurrence of a pattern.
 */
module Text {

  /** The pieces of `s` between occurrences of `sep`, as `s.split(sep)` with a
      one-character separator: empty pieces are kept, so there is always one
      more piece than there are separators. */
  function Split(s: string, sep: char): (words: seq<string>)
    ensures |words| >= 1
    ensures forall i | 0 <= i < |words| :: sep !in words[i]
    decreases |s|
  {
    if |s| == 0 then [""]
    else
      var rest := Split(s[1..], sep);
      if s[0] == sep then [""] + rest
      else [[s[0]] + rest[0]] + rest[1..]
  }

  /** The total number of characters in `words`. */
  function TotalLength(words: seq<string>): nat
  {
    if |words| == 0 then 0 else |words[0]| + TotalLength(words[1..])
  }

  /** The words glued together with `sep` between neighbours, as `words.join(sep)`:
      every character of every word, plus one separator per gap. */
  function Join(words: seq<string>, sep: char): (s: string)
    ensures |words| > 0 ==> |s| == TotalLength(words) + |words| - 1
    ensures |words| == 0 ==> s == ""
  {
    if |words| == 0 then ""
    else if |words| == 1 then words[0]
    else words[0] + [sep] + Join(words[1..], sep)
  }

  /** Joining the pieces of a split gives the original string back. */
  lemma {:induction false} JoinSplit(s: string, sep: char)
    ensures Join(Split(s, sep), sep) == s
    decreases |s|
  {
    if |s| > 0 {
      var rest := Split(s[1..], sep);
      JoinSplit(s[1..], sep);
      if s[0] == sep {
        assert Split(s, sep) == [""] + rest;
        assert ([""] + rest)[1..] == rest;
        assert s == [sep] + s[1..];
      } else if |rest| == 1 {
        assert Split(s, sep) == [[s[0]] + rest[0]];
        assert s == [s[0]] + s[1..];
      } else {
        var words := Split(s, sep);
        assert words == [[s[0]] + rest[0]] + rest[1..];
        assert words[1..] == rest[1..];
        assert Join(rest, sep) == rest[0] + [sep] + Join(rest[1..], sep);
        assert s == [s[0]] + s[1..];
      }
    }
  }

  /** A string without the separator splits into itself alone. */
  lemma {:induction false} SplitWithoutSeparator(w: string, sep: char)
    requires sep !in w
    ensures Split(w, sep) == [w]
    decreases |w|
  {
    if |w| > 0 {
      assert sep !in w[1..] by {
        forall k | 0 <= k < |w[1..]| ensures w[1..][k] != sep {
          assert w[1..][k] == w[k + 1];
        }
      }
      SplitWithoutSeparator(w[1..], sep);
      assert [w[0]] + w[1..] == w;
    }
  }

  /** A separator-free word followed by the separator splits off as the first piece. */
  lemma {:induction false} SplitAfterWord(w: string, sep: char, t: string)
    requires sep !in w
    ensures Split(w + [sep] + t, sep) == [w] + Split(t, sep)
    decreases |w|
  {
    var s := w + [sep] + t;
    if |w| == 0 {
      assert s[0] == sep && s[1..] == t;
    } else {
      assert s[0] == w[0] && w[0] != sep;
      assert s[1..] == w[1..] + [sep] + t;
      assert sep !in w[1..] by {
        forall k | 0 <= k < |w[1..]| ensures w[1..][k] != sep {
          assert w[1..][k] == w[k + 1];
        }
      }
      SplitAfterWord(w[1..], sep, t);
      assert [w[0]] + w[1..] == w;
    }
  }

  /** Splitting a join of separator-free words gives the words back. */
  lemma {:induction false} SplitJoin(words: seq<string>, sep: char)
    requires |words| >= 1
    requires forall i | 0 <= i < |words| :: sep !in words[i]
    ensures Split(Join(words, sep), sep) == words
    decreases |words|
  {
    if |words| == 1 {
      SplitWithoutSeparator(words[0], sep);
    } else {
      SplitJoin(words[1..], sep);
      SplitAfterWord(words[0], sep, Join(words[1..], sep));
      assert [words[0]] + words[1..] == words;
    }
  }

  /** Joining two non-empty runs of words is joining each and putting one separator between. */
  lemma {:induction false} JoinAppend(a: seq<string>, b: seq<string>, sep: char)
    requires |a| >= 1 && |b| >= 1
    ensures Join(a + b, sep) == Join(a, sep) + [sep] + Join(b, sep)
    decreases |a|
  {
    if |a| == 1 {
      assert (a + b)[1..] == b;
    } else {
      assert (a + b)[1..] == a[1..] + b;
      JoinAppend(a[1..], b, sep);
    }
  }

  /** A string splits into more than one piece exactly when it holds the separator. */
  lemma SplitCountsSeparators(s: string, sep: char)
    ensures |Split(s, sep)| > 1 <==> sep in s
  {
    if sep in s {
      // a single piece would be `s` itself, yet pieces hold no separator
      JoinSplit(s, sep);
    } else {
      SplitWithoutSeparator(s, sep);
    }
  }

  // ---------------------------------------------------------------------
  // Decimal numbers inside element ids (`content7`, `question7`)

  predicate IsDigit(c: char) {
    '0' <= c <= '9'
  }

  predicate AllDigits(s: string) {
    forall i | 0 <= i < |s| :: IsDigit(s[i])
  }

  /** A non-empty run of decimal digits: the strings for which the dashboard's
      `n && !isNaN(n)` guard and `parseInt(n)` agree with plain decimal reading. */
  predicate IsDecimal(s: string) {
    |s| > 0 && AllDigits(s)
  }

  function DigitValue(c: char): nat
    requires IsDigit(c)
  {
    (c as int) - ('0' as int)
  }

  function DigitChar(d: nat): (c: char)
    requires d < 10
    ensures IsDigit(c) && DigitValue(c) == d
  {
    (('0' as int) + d) as char
  }

  /** The value of a run of decimal digits, most significant first (`parseInt`). */
  function DecimalValue(s: string): nat
    requires AllDigits(s)
    decreases |s|
  {
    if |s| == 0 then 0
    else 10 * DecimalValue(s[..|s| - 1]) + DigitValue(s[|s| - 1])
  }

  /** The decimal spelling of `n`, as a template literal `${n}` renders it. */
  function NatToDecimal(n: nat): (s: string)
    ensures IsDecimal(s)
    decreases n
  {
    if n < 10 then [DigitChar(n)]
    else NatToDecimal(n / 10) + [DigitChar(n % 10)]
  }

  /** Reading back the spelling of a number gives the number. */
  lemma {:induction false} DecimalRoundTrip(n: nat)
    ensures DecimalValue(NatToDecimal(n)) == n
    decreases n
  {
    if n >= 10 {
      var s := NatToDecimal(n);
      DecimalRoundTrip(n / 10);
      assert s[..|s| - 1] == NatToDecimal(n / 10);
      assert s[|s| - 1] == DigitChar(n % 10);
    }
  }

  /** Distinct numbers have distinct spellings, so an id names one question. */
  lemma DecimalInjective(a: nat, b: nat)
    requires NatToDecimal(a) == NatToDecimal(b)
    ensures a == b
  {
    DecimalRoundTrip(a);
    DecimalRoundTrip(b);
  }

  /** A spelling without a leading zero is the spelling of its value, so
      `parseInt` and `${n}` are inverse on such strings too. */
  lemma {:induction false} DecimalSpellingRoundTrip(s: string)
    requires IsDecimal(s) && (s[0] != '0' || |s| == 1)
    ensures NatToDecimal(DecimalValue(s)) == s
    decreases |s|
  {
    var last := s[|s| - 1];
    var init := s[..|s| - 1];
    if |init| == 0 {
      assert s == [last];
      assert DigitChar(DigitValue(last)) == last;
    } else {
      assert init[0] == s[0];
      DecimalSpellingRoundTrip(init);
      LeadingDigitPositive(init);
      var n := DecimalValue(s);
      assert n / 10 == DecimalValue(init) && n % 10 == DigitValue(last);
      assert DigitChar(DigitValue(last)) == last;
      assert s == init + [last];
    }
  }

  /** A digit string starting with a non-zero digit has a positive value. */
  lemma {:induction false} LeadingDigitPositive(s: string)
    requires IsDecimal(s) && s[0] != '0'
    ensures DecimalValue(s) >= 1
    decreases |s|
  {
    if |s| > 1 {
      var init := s[..|s| - 1];
      assert init[0] == s[0];
      LeadingDigitPositive(init);
    }
  }

  // ---------------------------------------------------------------------
  // s.replace(pattern, '')

  /** `pattern` occurs in `s` starting at index `k`. */
  predicate OccursAt(s: string, pattern: string, k: int) {
    0 <= k && k + |pattern| <= |s| && forall i | 0 <= i < |pattern| :: s[k + i] == pattern[i]
  }

  /** `s` with the first occurrence of `pattern` removed, as `s.replace(pattern, '')`
      with a string pattern; `s` itself when `pattern` does not occur. */
  function ReplaceFirst(s: string, pattern: string): (r: string)
    ensures |r| == |s| || |r| + |pattern| == |s|
    ensures |r| == |s| ==> r == s
    ensures (forall k | 0 <= k <= |s| :: !OccursAt(s, pattern, k)) ==> r == s
    ensures forall k | 0 <= k <= |s| && OccursAt(s, pattern, k) &&
                       (forall j | 0 <= j < k :: !OccursAt(s, pattern, j)) ::
              r == s[..k] + s[k + |pattern|..]
    decreases |s|
  {
    if |pattern| <= |s| && s[..|pattern|] == pattern then
      assert OccursAt(s, pattern, 0) by {
        assert forall i | 0 <= i < |pattern| :: s[..|pattern|][i] == s[i];
      }
      assert s[..0] + s[|pattern|..] == s[|pattern|..];
      s[|pattern|..]
    else if |s| == 0 then s
    else
      var rest := ReplaceFirst(s[1..], pattern);
      KeepFirstCharacter(s, pattern, rest);
      [s[0]] + rest
  }

  /** When `pattern` does not start `s`, removing its first occurrence from
      `s[1..]` and putting `s[0]` back removes its first occurrence from `s`. */
  lemma KeepFirstCharacter(s: string, pattern: string, rest: string)
    requires |s| > 0 && !OccursAt(s, pattern, 0)
    requires (forall k | 0 <= k <= |s[1..]| :: !OccursAt(s[1..], pattern, k)) ==> rest == s[1..]
    requires forall k | 0 <= k <= |s[1..]| && OccursAt(s[1..], pattern, k) &&
                        (forall j | 0 <= j < k :: !OccursAt(s[1..], pattern, j)) ::
               rest == s[1..][..k] + s[1..][k + |pattern|..]
    ensures (forall k | 0 <= k <= |s| :: !OccursAt(s, pattern, k)) ==> [s[0]] + rest == s
    ensures forall k | 0 <= k <= |s| && OccursAt(s, pattern, k) &&
                       (forall j | 0 <= j < k :: !OccursAt(s, pattern, j)) ::
              [s[0]] + rest == s[..k] + s[k + |pattern|..]
  {
    var t := s[1..];
    if forall k | 0 <= k <= |s| :: !OccursAt(s, pattern, k) {
      forall k | 0 <= k <= |t| ensures !OccursAt(t, pattern, k) {
        ShiftOccurrence(s, pattern, k + 1);
      }
      assert [s[0]] + t == s;
    }
    forall k | 0 <= k <= |s| && OccursAt(s, pattern, k) && (forall j | 0 <= j < k :: !OccursAt(s, pattern, j))
      ensures [s[0]] + rest == s[..k] + s[k + |pattern|..]
    {
      assert k >= 1;
      ShiftOccurrence(s, pattern, k);
      forall j | 0 <= j < k - 1 ensures !OccursAt(t, pattern, j) {
        ShiftOccurrence(s, pattern, j + 1);
      }
      assert rest == t[..k - 1] + t[k - 1 + |pattern|..];
      assert [s[0]] + t[..k - 1] == s[..k];
      assert t[k - 1 + |pattern|..] == s[k + |pattern|..];
    }
  }

  /** Past the first character, an occurrence in `s` is an occurrence in
      `s[1..]` one place earlier. */
  lemma ShiftOccurrence(s: string, pattern: string, k: int)
    requires |s| > 0 && k >= 1
    ensures OccursAt(s, pattern, k) <==> OccursAt(s[1..], pattern, k - 1)
  {
  }

  /** Removing a prefix pattern leaves what followed it. */
  lemma ReplaceFirstPrefix(pattern: string, t: string)
    ensures ReplaceFirst(pattern + t, pattern) == t
  {
    assert (pattern + t)[..|pattern|] == pattern;
    assert (pattern + t)[|pattern|..] == t;
  }
}
