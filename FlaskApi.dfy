/**
 * The REST handlers of the Flask backend (backend_example/flask_db.py). The module-level
 * `db` and the Author's own database are two connections to the same story file; each
 * handler checks that the JSON body holds its keys, calls the Author or the store, and
 * answers with a status and a JSON body. Routing, `jsonify` and CORS are not modelled:
 * a request is the JSON object it carries.
 */
module FlaskApi {
  import opened PyValue
  import opened Text
  import opened Sqlite
  import opened StoryStore
  import opened StoryText

  /** The JSON bodies the handlers answer with. */
  datatype Body =
    | Message(message: string)                 // {"message": ...}
    | Error(error: string)                     // {"error": ...}
    | Content(content: Option<string>)         // {"content": ...}, null when execute gave None
    | Stories(stories: seq<StoryRecord>)       // the list of story dicts

  datatype Response = Response(status: int, body: Body)

  const StartKeys := ["genre", "age", "choice_count", "page_count"]
  const SaveKeys := ["genre", "age", "choice_count", "page_count", "content"]

  const Untitled := "Untitled Story"
  const TitlePrefix := "Title: "

  /** The title start_story derives from a story: the stripped first line, when it
      starts with the prefix, with every occurrence of the prefix removed and the rest
      stripped again; "Untitled Story" otherwise. A story whose stripped first line
      lacks the prefix is untitled; otherwise the title is shorter than that line by at
      least the prefix and holds no line feed. */
  function DeriveTitle(story: string): (title: string)
    ensures !StartsWith(Strip(story[..LineEnd(story, 0)]), TitlePrefix) ==> title == Untitled
    ensures StartsWith(Strip(story[..LineEnd(story, 0)]), TitlePrefix) ==>
              |title| + |TitlePrefix| <= LineEnd(story, 0) && NoNewline(title)
  {
    var line := Strip(story[..LineEnd(story, 0)]);
    if !StartsWith(line, TitlePrefix) then Untitled
    else
      LineTitleShape(story[..LineEnd(story, 0)]);
      Strip(RemoveAll(line, TitlePrefix))
  }

  /** The title taken from a first line that starts with the prefix once stripped. */
  lemma LineTitleShape(firstLine: string)
    requires NoNewline(firstLine) && StartsWith(Strip(firstLine), TitlePrefix)
    ensures |Strip(RemoveAll(Strip(firstLine), TitlePrefix))| + |TitlePrefix| <= |firstLine|
    ensures NoNewline(Strip(RemoveAll(Strip(firstLine), TitlePrefix)))
  {
    var line := Strip(firstLine);
    StripSpec(firstLine);
    assert line[..|TitlePrefix|] == TitlePrefix;
    assert RemoveAll(line, TitlePrefix) == RemoveAll(line[|TitlePrefix|..], TitlePrefix);
    RemoveAllShrinks(line[|TitlePrefix|..], TitlePrefix);
    var title := Strip(RemoveAll(line, TitlePrefix));
    StripSpec(RemoveAll(line, TitlePrefix));
    StripChars(RemoveAll(line, TitlePrefix));
    assert forall c :: c in RemoveAll(line, TitlePrefix) ==> c in line by {
      forall c | c in RemoveAll(line, TitlePrefix) ensures c in line {
        assert c in line[|TitlePrefix|..];
      }
    }
    NoNewlineKept(firstLine, line, |firstLine| - |LStrip(firstLine)|, title);
  }

  /** Text taken out of a line without line feeds holds none either. */
  lemma NoNewlineKept(firstLine: string, line: string, i: int, title: string)
    requires NoNewline(firstLine)
    requires OccursAt(firstLine, line, i)
    requires forall c :: c in title ==> c in line
    ensures NoNewline(title)
  {
    forall k | 0 <= k < |title| ensures title[k] != '\n' {
      assert title[k] in line;
      var j :| 0 <= j < |line| && line[j] == title[k];
      assert line[j] == firstLine[i + j];
    }
  }

  /** A first line "Title: x" gives back x, whatever follows the line, when x is
      already stripped, has no line feed and does not itself hold the prefix. */
  lemma TitleRoundTrip(x: string, rest: string)
    requires x != [] && !IsSpace(x[0]) && !IsSpace(x[|x| - 1])
    requires NoNewline(x) && !Contains(x, TitlePrefix)
    ensures DeriveTitle(TitlePrefix + x + "\n" + rest) == x
  {
    TitledLine(x);
    FirstLine(TitlePrefix + x, rest);
    RemoveAllAbsent(x, TitlePrefix);
    StripUnchanged(x);
  }

  /** The line "Title: x" for such an x: no line feed, already stripped, and the
      prefix removal leaves the removal from x alone. */
  lemma TitledLine(x: string)
    requires x != [] && !IsSpace(x[|x| - 1]) && NoNewline(x)
    ensures NoNewline(TitlePrefix + x)
    ensures Strip(TitlePrefix + x) == TitlePrefix + x
    ensures StartsWith(TitlePrefix + x, TitlePrefix)
    ensures RemoveAll(TitlePrefix + x, TitlePrefix) == RemoveAll(x, TitlePrefix)
  {
    TitlePrefixNoNewline(x);
    var line := TitlePrefix + x;
    assert line[|line| - 1] == x[|x| - 1];
    StripUnchanged(line);
    assert line[..|TitlePrefix|] == TitlePrefix;
    assert line[|TitlePrefix|..] == x;
  }

  lemma TitlePrefixNoNewline(x: string)
    requires NoNewline(x)
    ensures NoNewline(TitlePrefix + x)
  {
    var line := TitlePrefix + x;
    forall k | 0 <= k < |line| ensures line[k] != '\n' {
      if k >= |TitlePrefix| {
        assert line[k] == x[k - |TitlePrefix|];
      }
    }
  }

  /** The first line of `line + "\n" + rest` is `line`. */
  lemma FirstLine(line: string, rest: string)
    requires NoNewline(line)
    ensures LineEnd(line + "\n" + rest, 0) == |line|
    ensures (line + "\n" + rest)[..|line|] == line
  {
    var s := line + "\n" + rest;
    assert s[..|line|] == line;
    LineEndAt(s, 0, |line|);
  }

  /** "Title: " alone on the first line strips to "Title:", which lacks the prefix's
      space: the story is untitled. */
  lemma EmptyTitleUntitled(rest: string)
    ensures DeriveTitle(TitlePrefix + "\n" + rest) == Untitled
  {
    FirstLine(TitlePrefix, rest);
    var line := Strip(TitlePrefix);
    assert |line| <= |TitlePrefix|;
  }

  /** The rows the two first_page calls of start_story add to the story file: the
      second call runs only when the first response is not None, on a connection the
      first call may have closed. */
  function StartStoryRows(open: bool, genre: Value, age: Value, choiceCount: Value, pageCount: Value,
                          reply1: ThreadReply, reply2: ThreadReply, id: int): seq<Row>
  {
    var first := ReplyResult(reply1);
    var open1 := open && !ReplyCloses(reply1);
    var rows1 := FirstPageRows(open1, genre, age, choiceCount, pageCount, first, id);
    if first.None? then rows1
    else
      var open2 := open1 && !ReplyCloses(reply2);
      rows1 + FirstPageRows(open2, genre, age, choiceCount, pageCount, ReplyResult(reply2), id + |rows1|)
  }

  lemma StartStoryRowsSplit(open: bool, genre: Value, age: Value, choiceCount: Value, pageCount: Value,
                            reply1: ThreadReply, reply2: ThreadReply, id: int,
                            first: Option<string>, open1: bool, rows1: seq<Row>, id1: int,
                            second: Option<string>, open2: bool, rows2: seq<Row>)
    requires first == ReplyResult(reply1)
    requires first.Some?
    requires open1 == (open && !ReplyCloses(reply1))
    requires rows1 == FirstPageRows(open1, genre, age, choiceCount, pageCount, first, id)
    requires second == ReplyResult(reply2)
    requires open2 == (open1 && !ReplyCloses(reply2))
    requires id1 == id + |rows1|
    requires rows2 == FirstPageRows(open2, genre, age, choiceCount, pageCount, second, id1)
    ensures StartStoryRows(open, genre, age, choiceCount, pageCount, reply1, reply2, id) == rows1 + rows2
  {
    var both := StartStoryRows(open, genre, age, choiceCount, pageCount, reply1, reply2, id);
    assert both == rows1 + FirstPageRows(open2, genre, age, choiceCount, pageCount, second, id1);
  }

  lemma AppendAssoc<T>(a: seq<T>, b: seq<T>, c: seq<T>)
    ensures a + b + c == a + (b + c)
  {
  }

  /** Two usable replies on an open connection store two rows, one per first_page call,
      under consecutive ids, both with the request's fields. */
  lemma StartStorySavesTwice(genre: Value, age: Value, choiceCount: Value, pageCount: Value,
                             text1: string, text2: string, id: int)
    requires IsStrOrInt(genre) && IsStrOrInt(age) && IsStrOrInt(choiceCount) && IsStrOrInt(pageCount)
    requires !TooLarge(genre) && !TooLarge(age) && !TooLarge(choiceCount) && !TooLarge(pageCount)
    requires SavesResponse(Some(text1)) && !EndsStory(text1)
    requires SavesResponse(Some(text2)) && !EndsStory(text2)
    ensures StartStoryRows(true, genre, age, choiceCount, pageCount, Replied([text1]), Replied([text2]), id)
            == [NewRow(id, genre, age, choiceCount, pageCount, Str(text1)),
                NewRow(id + 1, genre, age, choiceCount, pageCount, Str(text2))]
  {
    var rows1 := FirstPageRows(true, genre, age, choiceCount, pageCount, Some(text1), id);
    var rows2 := FirstPageRows(true, genre, age, choiceCount, pageCount, Some(text2), id + 1);
    assert rows1 == [NewRow(id, genre, age, choiceCount, pageCount, Str(text1))];
    assert rows2 == [NewRow(id + 1, genre, age, choiceCount, pageCount, Str(text2))];
    StartStoryRowsSplit(true, genre, age, choiceCount, pageCount, Replied([text1]), Replied([text2]), id,
                        Some(text1), true, rows1, id + 1, Some(text2), true, rows2);
  }

  /** When the first page already ends the story, the Author's connection is closed
      before either save: start_story stores nothing, whatever the second reply is. */
  lemma StartStoryConcludedSavesNothing(open: bool, genre: Value, age: Value, choiceCount: Value, pageCount: Value,
                                        reply1: ThreadReply, reply2: ThreadReply, id: int)
    requires ReplyCloses(reply1)
    ensures StartStoryRows(open, genre, age, choiceCount, pageCount, reply1, reply2, id) == []
  {
    ConcludedFirstPageNotSaved(genre, age, choiceCount, pageCount, reply1, id);
    assert FirstPageRows(false, genre, age, choiceCount, pageCount, ReplyResult(reply2), id) == [];
  }

  /** A store that cannot take the request's fields gets nothing from start_story. */
  lemma StartStoryRejectedFieldsSaveNothing(open: bool, genre: Value, age: Value, choiceCount: Value,
                                            pageCount: Value, reply1: ThreadReply, reply2: ThreadReply, id: int)
    requires !(IsStrOrInt(genre) && IsStrOrInt(age) && IsStrOrInt(choiceCount) && IsStrOrInt(pageCount))
    ensures StartStoryRows(open, genre, age, choiceCount, pageCount, reply1, reply2, id) == []
  {
    assert forall o: bool, r: Option<string>, k: int ::
      FirstPageRows(o, genre, age, choiceCount, pageCount, r, k) == [];
  }

  /** The prompts start_story adds to the Author's thread: each first_page call posts
      the same command unless the API refuses it, and the second call runs only when
      the first response is not None. */
  function StartStoryPosts(genre: Value, age: Value, choiceCount: Value, pageCount: Value, keyMoments: Value,
                           reply1: ThreadReply, reply2: ThreadReply): (posts: seq<Value>)
    ensures |posts| <= 2
    ensures forall p :: p in posts ==> p == Str(FirstPageCommand(genre, age, choiceCount, pageCount, keyMoments))
  {
    FirstPagePosts(genre, age, choiceCount, pageCount, keyMoments, reply1)
      + if ReplyResult(reply1).Some? then FirstPagePosts(genre, age, choiceCount, pageCount, keyMoments, reply2) else []
  }

  /** The Flask application: its own connection `db` and the Author `agent`, whose
      connection opens the same file. */
  class StoryApi {
    const db: StoryDatabase
    const agent: Author

    ghost predicate Valid()
      reads this, db, agent, agent.db, agent.db.file, db.file
    {
      db.Valid() && agent.Valid() && agent.db.file == db.file && agent.db != db
    }

    /** Module start-up: `db = StoryDatabase()` and `agent = Author()`. */
    constructor (file: StoryFile)
      requires file.Valid()
      modifies file
      ensures Valid() && fresh(db) && fresh(agent) && db.file == file
      ensures db.open && agent.db.open
      ensures file.rows == old(file.rows) && file.nextId == old(file.nextId)
    {
      db := new StoryDatabase(file);
      agent := new Author(file);
    }

    /** `POST /api/start-story`: 400 unless the four keys are present (their values are
        not looked at); otherwise the two first_page calls of StartWithFields. */
    method StartStory(data: map<string, Value>, reply1: ThreadReply, reply2: ThreadReply)
      returns (response: Response)
      requires Valid()
      modifies agent, agent.db, db.file
      ensures Valid()
      ensures !HasKeys(data, StartKeys) ==>
                && response == Response(400, Error("Missing required fields"))
                && db.file.rows == old(db.file.rows) && db.file.nextId == old(db.file.nextId)
                && agent.thread == old(agent.thread) && agent.db.open == old(agent.db.open)
      ensures HasKeys(data, StartKeys) ==>
                && db.file.rows == old(db.file.rows) +
                     StartStoryRows(old(agent.db.open), data["genre"], data["age"], data["choice_count"],
                                    data["page_count"], reply1, reply2, old(db.file.nextId))
                && db.file.nextId == old(db.file.nextId) +
                     |StartStoryRows(old(agent.db.open), data["genre"], data["age"], data["choice_count"],
                                     data["page_count"], reply1, reply2, old(db.file.nextId))|
      ensures HasKeys(data, StartKeys) ==>
                && agent.thread == old(agent.thread) +
                     StartStoryPosts(data["genre"], data["age"], data["choice_count"], data["page_count"],
                                     Get(data, "key_moments"), reply1, reply2)
                && agent.db.open == (old(agent.db.open) && !ReplyCloses(reply1)
                                     && (ReplyResult(reply1).Some? ==> !ReplyCloses(reply2)))
      ensures HasKeys(data, StartKeys) ==>
                && (ReplyResult(reply1).None? ==> response == Response(500, Error("Failed to start story")))
                && (ReplyResult(reply1).Some? ==> response == Response(200, Content(ReplyResult(reply2))))
      ensures db.file.hasTable == old(db.file.hasTable)
    {
      if !HasKeys(data, StartKeys) {
        return Response(400, Error("Missing required fields"));
      }
      response := StartWithFields(data["genre"], data["age"], data["choice_count"], data["page_count"],
                                  Get(data, "key_moments"), reply1, reply2);
    }

    /** The body of start_story once the keys are found: two first_page calls, the
        first only to derive a title that is thrown away, and the second's response as
        content. A first response of None fails the title derivation: 500. */
    method StartWithFields(genre: Value, age: Value, choiceCount: Value, pageCount: Value, keyMoments: Value,
                           reply1: ThreadReply, reply2: ThreadReply) returns (response: Response)
      requires Valid()
      modifies agent, agent.db, db.file
      ensures Valid()
      ensures db.file.rows == old(db.file.rows) +
                StartStoryRows(old(agent.db.open), genre, age, choiceCount, pageCount, reply1, reply2, old(db.file.nextId))
      ensures db.file.nextId == old(db.file.nextId) +
                |StartStoryRows(old(agent.db.open), genre, age, choiceCount, pageCount, reply1, reply2, old(db.file.nextId))|
      ensures agent.thread == old(agent.thread) + StartStoryPosts(genre, age, choiceCount, pageCount, keyMoments, reply1, reply2)
      ensures agent.db.open == (old(agent.db.open) && !ReplyCloses(reply1) && (ReplyResult(reply1).Some? ==> !ReplyCloses(reply2)))
      ensures ReplyResult(reply1).None? ==> response == Response(500, Error("Failed to start story"))
      ensures ReplyResult(reply1).Some? ==> response == Response(200, Content(ReplyResult(reply2)))
      ensures db.file.hasTable == old(db.file.hasTable)
    {
      ghost var open0, id0, thread0 := agent.db.open, db.file.nextId, agent.thread;
      var story := agent.FirstPage(genre, age, choiceCount, pageCount, keyMoments, reply1);
      ghost var open1, id1 := agent.db.open, db.file.nextId;
      ghost var rows1 := FirstPageRows(open1, genre, age, choiceCount, pageCount, story, id0);
      if story.None? {
        // `None.split` raises inside the try block
        return Response(500, Error("Failed to start story"));
      }
      var _ := DeriveTitle(story.value);
      var content := agent.FirstPage(genre, age, choiceCount, pageCount, keyMoments, reply2);
      ghost var rows2 := FirstPageRows(agent.db.open, genre, age, choiceCount, pageCount, content, id1);
      StartStoryRowsSplit(open0, genre, age, choiceCount, pageCount, reply1, reply2, id0, story, open1, rows1, id1, content, agent.db.open, rows2);
      AppendAssoc(old(db.file.rows), rows1, rows2);
      AppendAssoc(thread0, FirstPagePosts(genre, age, choiceCount, pageCount, keyMoments, reply1),
                  FirstPagePosts(genre, age, choiceCount, pageCount, keyMoments, reply2));
      response := Response(200, Content(content));
    }

    /** `POST /api/continue-story`: 400 unless `text` is present; otherwise whatever
        execute returns, with status 200. */
    method ContinueStory(data: map<string, Value>, reply: ThreadReply) returns (response: Response)
      requires Valid()
      modifies agent, agent.db
      ensures Valid()
      ensures "text" !in data ==>
                && response == Response(400, Error("Missing required field: text"))
                && agent.db.open == old(agent.db.open) && agent.thread == old(agent.thread)
      ensures "text" in data ==>
                && response == Response(200, Content(ExecuteResult(data["text"], reply)))
                && agent.db.open == (old(agent.db.open) && !ExecuteCloses(data["text"], reply))
                && agent.thread == old(agent.thread) + PostedMessages(data["text"], reply)
      ensures db.file.rows == old(db.file.rows) && db.file.nextId == old(db.file.nextId)
      ensures db.file.hasTable == old(db.file.hasTable)
    {
      if "text" !in data {
        return Response(400, Error("Missing required field: text"));
      }
      var content := agent.Execute(data["text"], reply);
      response := Response(200, Content(content));
    }

    /** `POST /api/save-story`: 400 unless the five keys are present; otherwise the
        store's save, whose False is ignored: 200. An OverflowError escapes save_story
        and answers 500 with its text. */
    method SaveStory(data: map<string, Value>) returns (response: Response)
      requires Valid()
      modifies db.file
      ensures Valid()
      ensures !HasKeys(data, SaveKeys) ==>
                && response == Response(400, Error("Missing required fields"))
                && db.file.rows == old(db.file.rows) && db.file.nextId == old(db.file.nextId)
      ensures HasKeys(data, SaveKeys) ==>
                response == if SaveOverflows(db.open, data["genre"], data["age"], data["choice_count"],
                                             data["page_count"], data["content"])
                            then Response(500, Error("Failed to save story: " + OverflowText))
                            else Response(200, Message("Story saved successfully"))
      ensures HasKeys(data, SaveKeys) ==>
                && db.file.rows == old(db.file.rows) +
                     (if SaveAccepted(db.open, data["genre"], data["age"], data["choice_count"], data["page_count"], data["content"])
                      then [NewRow(old(db.file.nextId), data["genre"], data["age"], data["choice_count"],
                                   data["page_count"], data["content"])]
                      else [])
                && db.file.nextId == old(db.file.nextId) +
                     (if SaveAccepted(db.open, data["genre"], data["age"], data["choice_count"], data["page_count"], data["content"])
                      then 1 else 0)
      ensures db.file.hasTable == old(db.file.hasTable)
    {
      if !HasKeys(data, SaveKeys) {
        return Response(400, Error("Missing required fields"));
      }
      SaveOutcomesExclusive(db.open, data["genre"], data["age"], data["choice_count"], data["page_count"], data["content"]);
      var outcome := db.SaveStory(data["genre"], data["age"], data["choice_count"], data["page_count"], data["content"]);
      if outcome == Overflowed {
        return Response(500, Error("Failed to save story: " + OverflowText));
      }
      response := Response(200, Message("Story saved successfully"));
    }

    /** `GET /api/stories`: every row, as the same records fetch_all_stories gives; a
        closed connection raises and answers 500. */
    method GetStories() returns (response: Response)
      requires Valid()
      ensures db.open ==> response == Response(200, Stories(Records(db.file.rows)))
      ensures !db.open ==> response == Response(500, Error("Failed to retrieve stories"))
    {
      if !db.open {
        return Response(500, Error("Failed to retrieve stories"));
      }
      var stories := db.FetchAllStories();
      assert stories == Records(db.file.rows);
      response := Response(200, Stories(stories));
    }

    /** `DELETE /api/stories/<int:story_id>`: the rows with that id go, and the answer
        is 200 whether or not any existed. The converter takes any number of digits; an
        id beyond SQLite's INTEGER raises OverflowError past delete_story: 500. */
    method DeleteStory(storyId: nat) returns (response: Response)
      requires Valid()
      modifies db.file
      ensures Valid()
      ensures response == if db.open && storyId > MaxInteger then Response(500, Error("Failed to delete story"))
                          else Response(200, Message("Story deleted successfully"))
      ensures db.open && storyId <= MaxInteger ==> db.file.rows == Without(old(db.file.rows), SqlInteger(storyId))
      ensures !(db.open && storyId <= MaxInteger) ==> db.file.rows == old(db.file.rows)
      ensures db.file.nextId == old(db.file.nextId) && db.file.hasTable == old(db.file.hasTable)
    {
      var outcome := db.DeleteStory(Int(storyId));
      if outcome == Overflowed {
        return Response(500, Error("Failed to delete story"));
      }
      response := Response(200, Message("Story deleted successfully"));
    }
  }
}
