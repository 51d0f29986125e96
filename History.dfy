/**
 * The title shown for a stored story on the History page (testing_streamlit/History.py):
 * `extract_title` searches the content for `(?:\*\*Title: (.*?)\*\*|Title: (.*?)(?=\n|$))`
 * and `display_story` prefers the story's own title. The search is written out as a
 * left-to-right scan over ASCII text; `.` matches every character but the line feed.
 */
module History {
  import opened PyValue
  import opened Text

  const BoldOpen := "**Title: "
  const PlainOpen := "Title: "
  const Untitled := "Untitled Story"
  const NoContent := "No content available."

  /** A `**` starts at index `k`. */
  predicate StarsAt(s: string, k: int) {
    0 <= k && k + 1 < |s| && s[k] == '*' && s[k + 1] == '*'
  }

  /** Where the lazy `(.*?)\*\*` of the bold form stops when its group starts at `j`:
      the first `**` at or after `j`, unless a line feed or the end comes first. */
  function BoldClose(s: string, j: nat): (k: Option<nat>)
    requires j <= |s|
    ensures k.Some? ==> j <= k.value && StarsAt(s, k.value)
    decreases |s| - j
  {
    if StarsAt(s, j) then Some(j)
    else if j == |s| || s[j] == '\n' then None
    else BoldClose(s, j + 1)
  }

  /** BoldClose finds the shortest group the bold form allows: it stops at the first `**`
      on the group's line, and finds nothing exactly when every `**` after `j` lies
      beyond a line feed. */
  lemma {:induction false} BoldCloseSpec(s: string, j: nat)
    requires j <= |s|
    ensures BoldClose(s, j).Some? ==>
              var k := BoldClose(s, j).value;
              NoNewline(s[j..k]) && forall m :: j <= m < k ==> !StarsAt(s, m)
    ensures BoldClose(s, j).None? ==> forall k :: j <= k && StarsAt(s, k) ==> !NoNewline(s[j..k])
    decreases |s| - j
  {
    if StarsAt(s, j) {
    } else if j == |s| {
    } else if s[j] == '\n' {
      forall k | j <= k && StarsAt(s, k) ensures !NoNewline(s[j..k]) {
        assert s[j..k][0] == '\n';
      }
    } else {
      BoldCloseSpec(s, j + 1);
      if BoldClose(s, j + 1).Some? {
        var k := BoldClose(s, j + 1).value;
        assert s[j..k] == [s[j]] + s[j + 1..k];
      } else {
        forall k | j <= k && StarsAt(s, k) ensures !NoNewline(s[j..k]) {
          assert k != j;
          var m :| 0 <= m < |s[j + 1..k]| && s[j + 1..k][m] == '\n';
          assert s[j..k][m + 1] == '\n';
        }
      }
    }
  }

  /** The bold alternative matches at `q`, its group running up to `k`: "**Title: ", the
      shortest text without a line feed, then "**". */
  ghost predicate BoldMatchAt(s: string, q: int, k: int) {
    0 <= q <= |s| && StartsWith(s[q..], BoldOpen) && q + |BoldOpen| <= k && StarsAt(s, k)
    && NoNewline(s[q + |BoldOpen|..k]) && forall m :: q + |BoldOpen| <= m < k ==> !StarsAt(s, m)
  }

  /** One of the two alternatives matches at `q`; the plain one needs only "Title: ",
      since its group may be empty and always ends at a line feed or the end. */
  ghost predicate MatchesAt(s: string, q: int) {
    0 <= q <= |s| && ((exists k :: BoldMatchAt(s, q, k)) || StartsWith(s[q..], PlainOpen))
  }

  /** A match of `re.search`: where it starts, which alternative matched, and its group. */
  datatype TitleMatch = NoMatch | Bold(at: nat, title: string) | Plain(at: nat, title: string)

  /** `re.search` from index `i`: the first index where an alternative matches, the bold
      one tried first. A match starts at or after `i`, and its group is one line. */
  function Search(s: string, i: nat): (m: TitleMatch)
    requires i <= |s|
    ensures !m.NoMatch? ==> i <= m.at < |s| && NoNewline(m.title)
    decreases |s| - i
  {
    if i == |s| then NoMatch
    else if StartsWith(s[i..], BoldOpen) && BoldClose(s, i + |BoldOpen|).Some? then
      BoldCloseSpec(s, i + |BoldOpen|);
      Bold(i, s[i + |BoldOpen|..BoldClose(s, i + |BoldOpen|).value])
    else if StartsWith(s[i..], PlainOpen) then
      Plain(i, s[i + |PlainOpen|..LineEnd(s, i + |PlainOpen|)])
    else Search(s, i + 1)
  }

  /** Where the bold opening is followed by a closing `**` on its line, the bold form
      matches with the group BoldClose finds. */
  lemma BoldFound(s: string, i: nat)
    requires i <= |s| && StartsWith(s[i..], BoldOpen) && BoldClose(s, i + |BoldOpen|).Some?
    ensures BoldMatchAt(s, i, BoldClose(s, i + |BoldOpen|).value)
  {
    BoldCloseSpec(s, i + |BoldOpen|);
  }

  /** Without the opening, or without a closing `**` on its line, the bold form does not
      match at `i`. */
  lemma BoldMissing(s: string, i: nat)
    requires i <= |s| && !(StartsWith(s[i..], BoldOpen) && BoldClose(s, i + |BoldOpen|).Some?)
    ensures forall k :: !BoldMatchAt(s, i, k)
  {
    if StartsWith(s[i..], BoldOpen) {
      BoldCloseSpec(s, i + |BoldOpen|);
    }
  }

  /** The scan from `i` returns the match the scan from its own index returns. */
  lemma {:induction false} SearchLands(s: string, i: nat)
    requires i <= |s|
    ensures !Search(s, i).NoMatch? ==> i <= Search(s, i).at < |s| && Search(s, Search(s, i).at) == Search(s, i)
    decreases |s| - i
  {
    if i < |s| && !(StartsWith(s[i..], BoldOpen) && BoldClose(s, i + |BoldOpen|).Some?)
       && !StartsWith(s[i..], PlainOpen) {
      SearchLands(s, i + 1);
    }
  }

  /** No index from `i` up to the match `m` (or to the end, when there is none) holds
      a match. */
  ghost predicate NoneBefore(s: string, i: int, m: TitleMatch) {
    forall q :: i <= q <= |s| && (m.NoMatch? || q < m.at) ==> !MatchesAt(s, q)
  }

  /** The match `m` is what the pattern gives at its index: the bold form with its
      shortest group, or, where the bold form fails, the plain form with the rest of the
      line. */
  ghost predicate PatternGives(s: string, m: TitleMatch) {
    && (m.Bold? ==>
          && BoldMatchAt(s, m.at, m.at + |BoldOpen| + |m.title|)
          && s[m.at + |BoldOpen|..m.at + |BoldOpen| + |m.title|] == m.title)
    && (m.Plain? ==>
          && m.at + |PlainOpen| <= |s| && StartsWith(s[m.at..], PlainOpen)
          && (forall k :: !BoldMatchAt(s, m.at, k))
          && m.title == s[m.at + |PlainOpen|..LineEnd(s, m.at + |PlainOpen|)])
  }

  /** No index the scan passes over holds a match. */
  lemma {:induction false} SearchSkips(s: string, i: nat)
    requires i <= |s|
    ensures NoneBefore(s, i, Search(s, i))
    decreases |s| - i
  {
    if i == |s| {
      forall q | i <= q <= |s| ensures !MatchesAt(s, q) {
        assert s[q..] == [];
      }
    } else if !(StartsWith(s[i..], BoldOpen) && BoldClose(s, i + |BoldOpen|).Some?) && !StartsWith(s[i..], PlainOpen) {
      BoldMissing(s, i);
      assert !MatchesAt(s, i);
      SearchSkips(s, i + 1);
    }
  }

  /** A match the scan reports at its own starting index is the one the pattern gives
      there. */
  lemma SearchHere(s: string, p: nat)
    requires p <= |s| && !Search(s, p).NoMatch? && Search(s, p).at == p
    ensures PatternGives(s, Search(s, p))
  {
    if StartsWith(s[p..], BoldOpen) && BoldClose(s, p + |BoldOpen|).Some? {
      BoldFound(s, p);
    } else {
      BoldMissing(s, p);
      SearchLands(s, p + 1);
    }
  }

  /** The scan returns the leftmost match, the bold form where it matches there, with the
      group the pattern gives; and no match only when no index matches. */
  lemma SearchSpec(s: string, i: nat)
    requires i <= |s|
    ensures !Search(s, i).NoMatch? ==> i <= Search(s, i).at
    ensures PatternGives(s, Search(s, i))
    ensures NoneBefore(s, i, Search(s, i))
  {
    SearchSkips(s, i);
    SearchLands(s, i);
    var m := Search(s, i);
    if !m.NoMatch? {
      SearchHere(s, m.at);
    }
  }

  /** `extract_title(content)`; None is Python's None, which the bold form gives for an
      empty title because `"" or None` is None. A title is one line, and only
      non-empty content can give None. */
  function ExtractTitle(content: string): (title: Option<string>)
    ensures title.Some? ==> NoNewline(title.value)
    ensures title.None? ==> content != ""
  {
    if content == "" then Some(Untitled)
    else
      match Search(content, 0)
      case NoMatch => Some(Untitled)
      case Bold(_, title) => if title == "" then None else Some(title)
      case Plain(_, title) => Some(title)
  }

  /** Empty content, or content where neither form occurs, is "Untitled Story"; and the
      fallback comes only from those two cases or from a title that reads so itself. */
  lemma ExtractTitleUntitled(content: string)
    ensures content == "" || (forall q :: 0 <= q <= |content| ==> !MatchesAt(content, q)) ==>
              ExtractTitle(content) == Some(Untitled)
    ensures ExtractTitle(content) == Some(Untitled) && content != "" ==>
              Search(content, 0).NoMatch? || Search(content, 0).title == Untitled
  {
    SearchSpec(content, 0);
    if content != "" && !Search(content, 0).NoMatch? {
      assert MatchesAt(content, Search(content, 0).at);
    }
  }

  /** A group the pattern gives is a piece of the text that stays on one line. */
  lemma GroupInText(s: string, m: TitleMatch)
    requires !m.NoMatch? && PatternGives(s, m)
    ensures OccursAt(s, m.title, m.at + if m.Bold? then |BoldOpen| else |PlainOpen|)
    ensures NoNewline(m.title)
  {
  }

  /** Every title found is a piece of the content that stays on one line. */
  lemma ExtractedTitleInContent(content: string)
    requires ExtractTitle(content).Some? && ExtractTitle(content) != Some(Untitled)
    ensures exists k :: OccursAt(content, ExtractTitle(content).value, k)
    ensures NoNewline(ExtractTitle(content).value)
  {
    var m := Search(content, 0);
    SearchSpec(content, 0);
    GroupInText(content, m);
    assert ExtractTitle(content).value == m.title;
  }

  /** The bold form with nothing between "**Title: " and "**" gives None, not a title. */
  lemma EmptyBoldTitle(content: string)
    requires content == BoldOpen + "**"
    ensures ExtractTitle(content) == None
  {
    assert StarsAt(content, |BoldOpen|);
    assert StartsWith(content[0..], BoldOpen);
  }

  /** When "**Title: " has no closing `**` on its line, neither form matches at the two
      stars, and the plain form matches two characters on: the title runs from after
      "Title: " to the end of the line. */
  lemma UnclosedBoldFallsBack(s: string, p: nat)
    requires p <= |s| && StartsWith(s[p..], BoldOpen) && BoldClose(s, p + |BoldOpen|).None?
    ensures Search(s, p) == Plain(p + 2, s[p + |BoldOpen|..LineEnd(s, p + |BoldOpen|)])
  {
    assert BoldOpen == "**" + PlainOpen;
    assert s[p] == '*' && s[p + 1] == '*' && s[p + 2] == 'T';
    assert s[p + 2..][..|PlainOpen|] == s[p..][2..|BoldOpen|];
    assert !StartsWith(s[p..], PlainOpen);
    assert !StartsWith(s[p + 1..], BoldOpen) && !StartsWith(s[p + 1..], PlainOpen);
    assert !StartsWith(s[p + 2..], BoldOpen);
    assert Search(s, p + 2) == Plain(p + 2, s[p + |BoldOpen|..LineEnd(s, p + |BoldOpen|)]);
    assert Search(s, p + 1) == Search(s, p + 2);
  }

  /** What `display_story` gives for a title. */
  datatype ShownTitle = Shown(title: Value) | TypeError

  /** `story.get("title", None) or extract_title(content)` with `content` defaulting to
      "No content available."; a truthy content that is not a string makes `re.search`
      raise. */
  function DisplayTitle(story: map<string, Value>): ShownTitle {
    var content := if "content" in story then story["content"] else Str(NoContent);
    if Truthy(Get(story, "title")) then Shown(Get(story, "title"))
    else if !Truthy(content) then Shown(Str(Untitled))
    else if content.Str? then
      match ExtractTitle(content.s)
      case None => Shown(Null)
      case Some(t) => Shown(Str(t))
    else TypeError
  }

  /** A truthy title field is shown as it is; without one, the title comes from string
      content, a story with no content or falsy content is "Untitled Story", and truthy
      content that is not a string makes `re.search` raise. */
  lemma DisplayTitleChoice(story: map<string, Value>)
    ensures Truthy(Get(story, "title")) ==> DisplayTitle(story) == Shown(story["title"])
    ensures !Truthy(Get(story, "title")) && "content" in story && story["content"].Str? ==>
              DisplayTitle(story) == Shown(Json(ExtractTitle(story["content"].s)))
    ensures !Truthy(Get(story, "title")) && "content" !in story ==> DisplayTitle(story) == Shown(Str(Untitled))
    ensures !Truthy(Get(story, "title")) && "content" in story && !Truthy(story["content"]) ==>
              DisplayTitle(story) == Shown(Str(Untitled))
    ensures !Truthy(Get(story, "title")) && "content" in story && Truthy(story["content"]) && !story["content"].Str? ==>
              DisplayTitle(story) == TypeError
  {
    if !Truthy(Get(story, "title")) && "content" !in story {
      NoContentUntitled();
    }
  }

  /** Both forms contain a capital T, so text without one holds no title. */
  lemma NoTitleWithoutT(s: string)
    requires forall k :: 0 <= k < |s| ==> s[k] != 'T'
    ensures forall q :: 0 <= q <= |s| ==> !MatchesAt(s, q)
  {
    forall q | 0 <= q <= |s| ensures !MatchesAt(s, q) {
      assert q < |s| ==> s[q] != 'T';
      assert q + 2 < |s| ==> s[q + 2] != 'T';
    }
  }

  /** The default content holds no title. */
  lemma NoContentUntitled()
    ensures ExtractTitle(NoContent) == Some(Untitled)
  {
    NoTitleWithoutT(NoContent);
    ExtractTitleUntitled(NoContent);
  }
}
