/**
 * The choices the adventure page offers (testing_streamlit/AdventureMode.py):
 * `extract_options` is `re.findall(r"\d+\.\s(.+)", story_text)`, written out as a
 * left-to-right scan over ASCII text. `\d` is an ASCII digit, `\s` an ASCII whitespace
 * character (the line feed included) and `.` any character but the line feed.
 */
module AdventureMode {
  import opened PyValue
  import opened Text

  /** The index just past the run of digits that starts at `j`. */
  function DigitsEnd(s: string, j: nat): (e: nat)
    requires j <= |s|
    ensures j <= e <= |s|
    decreases |s| - j
  {
    if j < |s| && IsDigit(s[j]) then DigitsEnd(s, j + 1) else j
  }

  /** The digit run ends at the first index at or after `j` that holds no digit. */
  lemma {:induction false} DigitsEndSpec(s: string, j: nat)
    requires j <= |s|
    ensures forall k :: j <= k < DigitsEnd(s, j) ==> IsDigit(s[k])
    ensures DigitsEnd(s, j) == |s| || !IsDigit(s[DigitsEnd(s, j)])
    decreases |s| - j
  {
    if j < |s| && IsDigit(s[j]) {
      DigitsEndSpec(s, j + 1);
    }
  }

  /** A run of digits from `j` that stops before a non-digit at `d` is the whole run. */
  lemma {:induction false} DigitsEndAt(s: string, j: nat, d: nat)
    requires j <= d < |s| && !IsDigit(s[d])
    requires forall k :: j <= k < d ==> IsDigit(s[k])
    ensures DigitsEnd(s, j) == d
    decreases d - j
  {
    if j < d {
      DigitsEndAt(s, j + 1, d);
    }
  }

  /** The option pattern read off the text: digits from `p` up to `d`, then '.', one
      whitespace character, and at least one character of the option itself. */
  ghost predicate PatternAt(s: string, p: int, d: int) {
    0 <= p < d && d + 2 < |s| && (forall k :: p <= k < d ==> IsDigit(s[k]))
    && s[d] == '.' && IsSpace(s[d + 1]) && s[d + 2] != '\n'
  }

  /** The scan's test at `p`: the greedy digit run from `p` is followed by '.', a
      whitespace character and a character other than a line feed. */
  predicate OptionStarts(s: string, p: nat)
    requires p <= |s|
  {
    p < |s| && IsDigit(s[p])
    && var d := DigitsEnd(s, p);
    d + 2 < |s| && s[d] == '.' && IsSpace(s[d + 1]) && s[d + 2] != '\n'
  }

  /** The scan's test agrees with the pattern: giving back digits never helps, since a
      digit is not '.'. */
  lemma OptionStartsIff(s: string, p: nat)
    requires p <= |s|
    ensures OptionStarts(s, p) <==> exists d :: PatternAt(s, p, d)
  {
    if OptionStarts(s, p) {
      DigitsEndSpec(s, p);
      assert PatternAt(s, p, DigitsEnd(s, p));
    }
    if exists d :: PatternAt(s, p, d) {
      var d :| PatternAt(s, p, d);
      DigitsEndAt(s, p, d);
    }
  }

  /** Where the option's text starts, for a match at `p`. */
  function GroupStart(s: string, p: nat): (g: nat)
    requires p <= |s| && OptionStarts(s, p)
    ensures p < g < |s|
  {
    DigitsEnd(s, p) + 2
  }

  /** `(.+)` is greedy: the option runs to the end of its line. */
  function GroupEnd(s: string, p: nat): (e: nat)
    requires p <= |s| && OptionStarts(s, p)
    ensures GroupStart(s, p) < e <= |s|
  {
    LineEnd(s, GroupStart(s, p))
  }

  /** `re.findall` from index `i`: at the first index where the pattern matches, the
      option, then the search goes on where the match ended. */
  function Options(s: string, i: nat): seq<string>
    requires i <= |s|
    decreases |s| - i
  {
    if i == |s| then []
    else if OptionStarts(s, i) then [s[GroupStart(s, i)..GroupEnd(s, i)]] + Options(s, GroupEnd(s, i))
    else Options(s, i + 1)
  }

  /** `extract_options(story_text)`. */
  function ExtractOptions(text: string): seq<string> {
    Options(text, 0)
  }

  /** The option found at the leftmost match from `i` comes first, and the search resumes
      after it: the matches do not overlap and appear in text order. */
  lemma {:induction false} OptionsLeftmost(s: string, i: nat, p: nat)
    requires i <= p <= |s| && OptionStarts(s, p)
    requires forall q :: i <= q < p ==> !OptionStarts(s, q)
    ensures Options(s, i) == [s[GroupStart(s, p)..GroupEnd(s, p)]] + Options(s, GroupEnd(s, p))
    decreases p - i
  {
    if i < p {
      assert !OptionStarts(s, i);
      OptionsLeftmost(s, i + 1, p);
    }
  }

  /** An option sits in the text, is not empty, holds no line feed, and ends where its
      line ends. */
  ghost predicate WholeLineRest(s: string, o: string) {
    o != [] && NoNewline(o) && exists k :: OccursAt(s, o, k) && (k + |o| == |s| || s[k + |o|] == '\n')
  }

  /** Every option found is a non-empty rest of a line of the text. */
  lemma {:induction false} OptionsWellFormed(s: string, i: nat)
    requires i <= |s|
    ensures forall o :: o in Options(s, i) ==> WholeLineRest(s, o)
    decreases |s| - i
  {
    if i == |s| {
    } else if OptionStarts(s, i) {
      var g, e := GroupStart(s, i), GroupEnd(s, i);
      assert OccursAt(s, s[g..e], g);
      OptionsWellFormed(s, e);
    } else {
      OptionsWellFormed(s, i + 1);
    }
  }

  /** The search from `i` finds nothing exactly when no index from `i` starts a match. */
  lemma {:induction false} OptionsEmpty(s: string, i: nat)
    requires i <= |s|
    ensures Options(s, i) == [] <==> forall q :: i <= q < |s| ==> !OptionStarts(s, q)
    decreases |s| - i
  {
    if i < |s| && !OptionStarts(s, i) {
      OptionsEmpty(s, i + 1);
    }
  }

  /** Text in which no run of digits is followed by '.', whitespace and a character other
      than a line feed offers no options, and only such text. */
  lemma NoOptions(text: string)
    ensures ExtractOptions(text) == [] <==> forall p, d :: !PatternAt(text, p, d)
  {
    OptionsEmpty(text, 0);
    if ExtractOptions(text) == [] {
      forall p, d ensures !PatternAt(text, p, d) {
        if 0 <= p < |text| {
          OptionStartsIff(text, p);
        }
      }
    } else {
      var q :| 0 <= q < |text| && OptionStarts(text, q);
      OptionStartsIff(text, q);
    }
  }

  /** The first line of the two-option example holds a match, whose option runs from
      index 3 to the line feed at 10. */
  lemma FirstOfTwo(text: string)
    requires text == "1. Go left\n2. Go right"
    ensures OptionStarts(text, 0) && GroupStart(text, 0) == 3 && GroupEnd(text, 0) == 10
    ensures text[3..10] == "Go left"
  {
    assert DigitsEnd(text, 1) == 1;
    assert LineEnd(text, 10) == 10;
    assert LineEnd(text, 9) == 10;
    assert LineEnd(text, 8) == 10;
    assert LineEnd(text, 7) == 10;
    assert LineEnd(text, 6) == 10;
    assert LineEnd(text, 5) == 10;
    assert LineEnd(text, 4) == 10;
  }

  /** The search resumes at the line feed, which starts no match, and finds the second
      line's option from index 14 to the end. */
  lemma SecondOfTwo(text: string)
    requires text == "1. Go left\n2. Go right"
    ensures !OptionStarts(text, 10) && OptionStarts(text, 11)
    ensures GroupStart(text, 11) == 14 && GroupEnd(text, 11) == 22 == |text|
    ensures text[14..22] == "Go right"
  {
    assert DigitsEnd(text, 12) == 12;
    assert LineEnd(text, 22) == 22;
    assert LineEnd(text, 21) == 22;
    assert LineEnd(text, 20) == 22;
    assert LineEnd(text, 19) == 22;
    assert LineEnd(text, 18) == 22;
    assert LineEnd(text, 17) == 22;
    assert LineEnd(text, 16) == 22;
    assert LineEnd(text, 15) == 22;
  }

  /** The numbered form "1. Option text" gives one option per line. */
  lemma TwoOptions(text: string)
    requires text == "1. Go left\n2. Go right"
    ensures ExtractOptions(text) == ["Go left", "Go right"]
  {
    FirstOfTwo(text);
    SecondOfTwo(text);
    OptionsLeftmost(text, 10, 11);
    OptionsLeftmost(text, 0, 0);
  }

  /** The whitespace after the '.' may be the line feed itself; the option is then the
      next line. */
  lemma NewlineSeparator(text: string)
    requires text == "1.\nGo"
    ensures ExtractOptions(text) == ["Go"]
  {
    assert DigitsEnd(text, 1) == 1;
    assert OptionStarts(text, 0) && GroupStart(text, 0) == 3;
    assert LineEnd(text, 5) == 5;
    assert GroupEnd(text, 0) == 5;
    assert text[3..5] == "Go";
    assert Options(text, 0) == [text[3..5]] + Options(text, 5);
  }
}
