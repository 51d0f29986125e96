/**
 * The Flask backend of the Streamlit front end (testing_streamlit/CreateStoryBackend.py):
 * one-shot stories with an illustration, saved to the Streamlit store, and the adventure
 * mode, whose sessions live in the global `story_contexts` dict and whose segments are
 * numbered by the global `SEGMENT_COUNTER`.
 *
 * The chat-completions and image endpoints are parameters: `model` maps a prompt to
 * what the completion call gives back, `painter` maps a description to what the image
 * call gives back. The session token `uuid4` draws is a parameter too.
 */
module AdventureBackend {
  import opened PyValue
  import opened Text
  import opened Sqlite
  import opened StreamlitStore

  /** What `client.chat.completions.create` gives for a prompt: the first choice's
      message content (None when the message has none), or an exception's text. */
  datatype Completion = Answer(content: Option<string>) | CallFailed(message: string)

  /** What `client.images.generate` gives: the first image's url (which may be None),
      or an exception's text. */
  datatype ImageResult = Generated(url: Option<string>) | ImageFailed(message: string)

  /** `Author.execute`: the reply's text, or "Error: ..." for either kind of exception. */
  function Execute(c: Completion): Option<string> {
    match c
    case Answer(content) => content
    case CallFailed(message) => Some("Error: " + message)
  }

  /** `Author.generate_image`: the url, or "Error generating image: ..." on an exception. */
  function GenerateImage(r: ImageResult): Option<string> {
    match r
    case Generated(url) => url
    case ImageFailed(message) => Some("Error generating image: " + message)
  }

  /** The prompt `first_page(prompt, pages)` sends. */
  function StoryCommand(prompt: Value, pages: Value): string {
    FString([Lit("Write a story about "), Hole(prompt), Lit(". Make sure it is exactly "), Hole(pages),
              Lit(" page(s) long, one page is " + "around 300 words and please " + "no page number in the contents")])
  }

  /** The story's subject comes right after "Write a story about ", and the page count
      right after "exactly ". */
  lemma StoryCommandNamesPrompt(prompt: Value, pages: Value)
    ensures StartsWith(StoryCommand(prompt, pages),
                       "Write a story about " + Format(prompt) + ". Make sure it is exactly " + Format(pages))
  {
    var tail := [Lit(" page(s) long, one page is " + "around 300 words and please " + "no page number in the contents")];
    FStringFourPieceHead(Lit("Write a story about "), Hole(prompt), Lit(". Make sure it is exactly "), Hole(pages), tail);
    assert [Lit("Write a story about "), Hole(prompt), Lit(". Make sure it is exactly "), Hole(pages)] + tail
        == [Lit("Write a story about "), Hole(prompt), Lit(". Make sure it is exactly "), Hole(pages),
            Lit(" page(s) long, one page is " + "around 300 words and please " + "no page number in the contents")];
  }

  /** An f-string starts with the texts of its first four pieces. */
  lemma FStringFourPieceHead(a: Piece, b: Piece, c: Piece, d: Piece, rest: seq<Piece>)
    ensures StartsWith(FString([a, b, c, d] + rest), PieceText(a) + PieceText(b) + PieceText(c) + PieceText(d))
  {
    FStringAppend([a, b, c, d], rest);
    FStringFour(a, b, c, d);
    ConcatAssoc(PieceText(a), PieceText(b), PieceText(c), PieceText(d));
    StartsWithConcat(FString([a, b, c, d]), FString(rest));
  }

  /** The text of four pieces. */
  lemma FStringFour(a: Piece, b: Piece, c: Piece, d: Piece)
    ensures FString([a, b, c, d]) == PieceText(a) + (PieceText(b) + (PieceText(c) + (PieceText(d) + "")))
  {
    FStringCons(d, []);
    assert [d] + [] == [d];
    FStringCons(c, [d]);
    assert [c] + [d] == [c, d];
    FStringCons(b, [c, d]);
    assert [b] + [c, d] == [b, c, d];
    FStringCons(a, [b, c, d]);
    assert [a] + [b, c, d] == [a, b, c, d];
  }

  lemma ConcatAssoc(w: string, x: string, y: string, z: string)
    ensures w + (x + (y + (z + ""))) == w + x + y + z
  {
    assert z + "" == z;
  }

  lemma StartsWithConcat(x: string, y: string)
    ensures StartsWith(x + y, x)
  {
    assert (x + y)[..|x|] == x;
  }

  /** The prompt create_story sends as written: `agent.first_page(pages, prompt)` passes
      the page count where first_page expects the subject, and the subject where it
      expects the page count. */
  function CreateStoryCommandAsWritten(prompt: Value, pages: Value): string {
    StoryCommand(pages, prompt)
  }

  /** Whenever the subject and the page count begin differently, the story asked for as
      written is about the page count: it differs from the one the request names. */
  lemma SwappedCommandDiffers(prompt: Value, pages: Value)
    requires Format(prompt) != [] && Format(pages) != [] && Format(prompt)[0] != Format(pages)[0]
    ensures StartsWith(CreateStoryCommandAsWritten(prompt, pages), "Write a story about " + Format(pages))
    ensures CreateStoryCommandAsWritten(prompt, pages) != StoryCommand(prompt, pages)
  {
    StoryCommandNamesPrompt(pages, prompt);
    StoryCommandNamesPrompt(prompt, pages);
    var lead := "Write a story about ";
    var wrongHead := lead + Format(pages) + ". Make sure it is exactly " + Format(prompt);
    var rightHead := lead + Format(prompt) + ". Make sure it is exactly " + Format(pages);
    assert wrongHead[..|lead + Format(pages)|] == lead + Format(pages);
    assert CreateStoryCommandAsWritten(prompt, pages)[|lead|] == wrongHead[|lead|] == Format(pages)[0];
    assert StoryCommand(prompt, pages)[|lead|] == rightHead[|lead|] == Format(prompt)[0];
  }

  /** For the subject "a dragon" and 2 pages, the story asked for as written is about
      "2", not the one the request names. */
  lemma SwappedCommandExample(prompt: Value, pages: Value)
    requires prompt == Str("a dragon") && pages == Int(2)
    ensures StartsWith(CreateStoryCommandAsWritten(prompt, pages), "Write a story about " + "2")
    ensures CreateStoryCommandAsWritten(prompt, pages) != StoryCommand(prompt, pages)
  {
    assert Format(pages) == "2" by {
      assert NatToString(2) == [DigitChar(2)];
    }
    SwappedCommandDiffers(prompt, pages);
  }

  /** The description create_story asks an illustration for. */
  function ImageDescription(prompt: Value): string {
    FString([Lit("A vivid illustration of the story: "), Hole(prompt)])
  }

  /** The prompt `start_adventure_story` sends; continuation lines are indented by
      twenty-two spaces, and the second line ends in a space. */
  function AdventureCommand(genre: Value, age: Value, choiceCount: Value, segmentCount: Value): string {
    FString(AdventurePieces(genre, age, choiceCount, segmentCount))
  }

  /** The adventure prompt names all four settings: it opens with the genre and the
      age, asks for the choice count per segment, and limits the story to the segment
      count. */
  lemma AdventureCommandNamesSettings(genre: Value, age: Value, choiceCount: Value, segmentCount: Value)
    ensures StartsWith(AdventureCommand(genre, age, choiceCount, segmentCount),
                       "Write the first page of an interactive " + Format(genre) + " story for a " + Format(age))
    ensures exists k :: OccursAt(AdventureCommand(genre, age, choiceCount, segmentCount), "Provide " + Format(choiceCount), k)
    ensures exists k :: OccursAt(AdventureCommand(genre, age, choiceCount, segmentCount),
                                 "Limit the story to " + Format(segmentCount), k)
  {
    var pieces := AdventurePieces(genre, age, choiceCount, segmentCount);
    AdventureHead(pieces, genre, age);
    AdventureChoices(pieces, choiceCount);
    AdventureSegments(pieces, segmentCount);
  }

  lemma AdventureChoices(pieces: seq<Piece>, choiceCount: Value)
    requires |pieces| == 9 && pieces[5] == Hole(choiceCount)
    requires pieces[4] == Lit("-year-old child.\n" + "                      " + "Provide ")
    ensures exists k :: OccursAt(FString(pieces), "Provide " + Format(choiceCount), k)
  {
    AdventureNamesPiece(pieces, 4, "-year-old child.\n" + "                      ", "Provide ", choiceCount);
  }

  lemma AdventureSegments(pieces: seq<Piece>, segmentCount: Value)
    requires |pieces| == 9 && pieces[7] == Hole(segmentCount)
    requires pieces[6] == Lit(" choices per story segment. " + "Only create one segment at a time \n" + "                      "
                              + "and move to the next only " + "after the reader chooses. " + "Limit the story to ")
    ensures exists k :: OccursAt(FString(pieces), "Limit the story to " + Format(segmentCount), k)
  {
    AdventureNamesPiece(pieces, 6, " choices per story segment. " + "Only create one segment at a time \n"
                        + "                      " + "and move to the next only " + "after the reader chooses. ",
                        "Limit the story to ", segmentCount);
  }

  /** The pieces of the adventure prompt. */
  function AdventurePieces(genre: Value, age: Value, choiceCount: Value, segmentCount: Value): (pieces: seq<Piece>)
    ensures |pieces| == 9 && pieces[1] == Hole(genre) && pieces[3] == Hole(age)
    ensures pieces[5] == Hole(choiceCount) && pieces[7] == Hole(segmentCount)
  {
    [Lit("Write the first page of an " + "interactive "), Hole(genre), Lit(" story for a "), Hole(age),
     Lit("-year-old child.\n" + "                      " + "Provide "), Hole(choiceCount),
     Lit(" choices per story segment. " + "Only create one segment at a time \n" + "                      "
         + "and move to the next only " + "after the reader chooses. " + "Limit the story to "),
     Hole(segmentCount), Lit(" segments overall.")]
  }

  lemma AdventureHead(pieces: seq<Piece>, genre: Value, age: Value)
    requires |pieces| == 9 && pieces[1] == Hole(genre) && pieces[3] == Hole(age)
    requires pieces[0] == Lit("Write the first page of an " + "interactive ") && pieces[2] == Lit(" story for a ")
    ensures StartsWith(FString(pieces), "Write the first page of an interactive " + Format(genre) + " story for a " + Format(age))
  {
    FStringFourPieceHead(pieces[0], pieces[1], pieces[2], pieces[3], pieces[4..]);
    assert [pieces[0], pieces[1], pieces[2], pieces[3]] + pieces[4..] == pieces;
    assert PieceText(pieces[0]) == "Write the first page of an interactive ";
  }

  /** A literal piece ending in `name` followed by a hole: the name and the hole's
      text occur side by side. */
  lemma AdventureNamesPiece(pieces: seq<Piece>, i: nat, lead: string, name: string, v: Value)
    requires i + 1 < |pieces| && pieces[i] == Lit(lead + name) && pieces[i + 1] == Hole(v)
    ensures exists k :: OccursAt(FString(pieces), name + Format(v), k)
  {
    FStringAdjacent(pieces, i, lead + name + Format(v));
    var k :| OccursAt(FString(pieces), lead + name + Format(v), k);
    OccursAfterLead(FString(pieces), lead, name, Format(v), k);
  }

  /** Once a text occurs, what follows its lead occurs where the lead ends. */
  lemma OccursAfterLead(t: string, lead: string, name: string, rest: string, k: int)
    requires OccursAt(t, lead + name + rest, k)
    ensures OccursAt(t, name + rest, k + |lead|)
  {
    assert t[k + |lead|..k + |lead| + |name + rest|] == (lead + name + rest)[|lead|..];
  }

  /** The prompt `continue_adventure_story` builds: the story so far, the reader's
      choice, the segment number and the choice count; continuation lines are indented
      by twenty spaces, and the second line ends in a space. */
  function ContinueCommand(previous: string, userInput: Value, choiceCount: Value, segmentCount: Value,
                           segment: int): string
  {
    FString([
      Hole(Str(previous)), Lit(" The user chose option "), Hole(userInput),
      Lit(". Continue the story from here.\n" + "                    " + "The reader asked for the story to be "),
      Hole(segmentCount),
      Lit(" segments and you are " + "currently on \n" + "                    "), Lit("segment "),
      Hole(Int(segment)), Lit(". Provide "), Hole(choiceCount), Lit(" choices per story segment.")])
  }

  /** The prompt starts with the story so far. */
  lemma ContinueCommandStartsWithStory(previous: string, userInput: Value, choiceCount: Value, segmentCount: Value,
                                       segment: int)
    ensures StartsWith(ContinueCommand(previous, userInput, choiceCount, segmentCount, segment), previous)
  {
    var pieces := [
      Hole(Str(previous)), Lit(" The user chose option "), Hole(userInput),
      Lit(". Continue the story from here.\n" + "                    " + "The reader asked for the story to be "),
      Hole(segmentCount),
      Lit(" segments and you are " + "currently on \n" + "                    "), Lit("segment "),
      Hole(Int(segment)), Lit(". Provide "), Hole(choiceCount), Lit(" choices per story segment.")];
    FStringStartsWith(pieces);
  }

  /** An occurrence in `t` is one in `head + t`, `|head|` further on. */
  lemma OccursAfter(head: string, t: string, p: string, k: int)
    requires OccursAt(t, p, k)
    ensures OccursAt(head + t, p, |head| + k)
  {
    assert (head + t)[|head| + k..|head| + k + |p|] == t[k..k + |p|];
  }

  /** Two neighbouring pieces of an f-string appear side by side in its text. */
  lemma {:induction false} FStringAdjacent(pieces: seq<Piece>, i: nat, pair: string)
    requires i + 1 < |pieces| && pair == PieceText(pieces[i]) + PieceText(pieces[i + 1])
    ensures exists k :: OccursAt(FString(pieces), pair, k)
    decreases i
  {
    FStringCons(pieces[0], pieces[1..]);
    assert [pieces[0]] + pieces[1..] == pieces;
    if i == 0 {
      FStringCons(pieces[1], pieces[2..]);
      assert [pieces[1]] + pieces[2..] == pieces[1..];
      assert OccursAt(FString(pieces), pair, 0);
    } else {
      FStringAdjacent(pieces[1..], i - 1, pair);
      var k :| OccursAt(FString(pieces[1..]), pair, k);
      OccursAfter(PieceText(pieces[0]), FString(pieces[1..]), pair, k);
    }
  }

  /** The continuation prompt tells the model the segment number it is on. */
  lemma ContinueCommandNamesSegment(previous: string, userInput: Value, choiceCount: Value, segmentCount: Value,
                                    segment: int)
    ensures exists k :: OccursAt(ContinueCommand(previous, userInput, choiceCount, segmentCount, segment),
                                 "segment " + IntToString(segment), k)
  {
    var pieces := [
      Hole(Str(previous)), Lit(" The user chose option "), Hole(userInput),
      Lit(". Continue the story from here.\n" + "                    " + "The reader asked for the story to be "),
      Hole(segmentCount),
      Lit(" segments and you are " + "currently on \n" + "                    "), Lit("segment "),
      Hole(Int(segment)), Lit(". Provide "), Hole(choiceCount), Lit(" choices per story segment.")];
    assert PieceText(pieces[6]) + PieceText(pieces[7]) == "segment " + IntToString(segment);
    FStringAdjacent(pieces, 6, "segment " + IntToString(segment));
    assert ContinueCommand(previous, userInput, choiceCount, segmentCount, segment) == FString(pieces);
  }

  /** The session's text after a continued segment: what it held, the reader's choice,
      then the new segment. */
  function ContinuedContext(previous: string, userInput: Value, story: string): string {
    previous + FString([Lit(" User chose option "), Hole(userInput), Lit(". ")]) + story
  }

  /** The session's text only grows: it keeps what it held as a prefix and ends with the
      new segment. */
  lemma ContinuedContextExtends(previous: string, userInput: Value, story: string)
    ensures StartsWith(ContinuedContext(previous, userInput, story), previous)
    ensures EndsWith(ContinuedContext(previous, userInput, story), story)
    ensures |ContinuedContext(previous, userInput, story)| > |previous| + |story|
  {
    var middle := FString([Lit(" User chose option "), Hole(userInput), Lit(". ")]);
    FStringCons(Hole(userInput), [Lit(". ")]);
    FStringCons(Lit(" User chose option "), [Hole(userInput), Lit(". ")]);
    assert [Lit(" User chose option "), Hole(userInput), Lit(". ")]
        == [Lit(" User chose option ")] + [Hole(userInput), Lit(". ")];
    assert |middle| > 0;
    var c := previous + middle + story;
    assert c[..|previous|] == previous;
    assert c[|c| - |story|..] == story;
  }

  /** `story_contexts.get(session_id, "")` for a hashable session id: the stored story,
      or "" for a key that is not there (the keys are strings, so no other kind of value
      finds one). */
  function StoredContext(contexts: map<string, Option<string>>, sessionId: Value): Option<string> {
    if sessionId.Str? && sessionId.s in contexts then contexts[sessionId.s] else Some("")
  }

  /** The sessions left by exit_story: the session is removed when the id is truthy and a
      key; a falsy id, or one that is not a key, changes nothing. */
  function Exited(contexts: map<string, Option<string>>, sessionId: Value): map<string, Option<string>> {
    if Truthy(sessionId) && sessionId.Str? && sessionId.s in contexts then contexts - {sessionId.s} else contexts
  }

  /** exit_story removes exactly the named session and keeps every other one as it was. */
  lemma ExitedRemovesOnly(contexts: map<string, Option<string>>, sessionId: Value, key: string)
    ensures key in Exited(contexts, sessionId) <==>
              key in contexts && !(Truthy(sessionId) && sessionId == Str(key))
    ensures key in Exited(contexts, sessionId) ==> Exited(contexts, sessionId)[key] == contexts[key]
  {
  }

  /** Ending a session twice leaves what ending it once left. */
  lemma ExitedIdempotent(contexts: map<string, Option<string>>, sessionId: Value)
    ensures Exited(Exited(contexts, sessionId), sessionId) == Exited(contexts, sessionId)
  {
  }

  /** The fields get_stories sends back for a story (created_at is dropped). */
  datatype ListedStory = ListedStory(id: int, title: SqlValue, content: SqlValue, image_url: SqlValue)

  function Listing(stories: seq<StoryDict>): (listed: seq<ListedStory>)
    ensures |listed| == |stories|
  {
    seq(|stories|, k requires 0 <= k < |stories| =>
      ListedStory(stories[k].id, stories[k].title, stories[k].content, stories[k].image_url))
  }

  /** Whether create_story's save raises OverflowError: save_story's guard passes and
      its INSERT overflows. */
  predicate CreateOverflows(hasTable: bool, prompt: Value, story: Option<string>, imageUrl: Option<string>) {
    Truthy(prompt) && Truthy(Json(story)) && InsertOverflows(hasTable, prompt, Json(story), Json(imageUrl))
  }

  /** The rows create_story stores: one when save_story takes the prompt as title and
      the story as content, none otherwise. */
  function CreatedRows(hasTable: bool, prompt: Value, story: Option<string>, imageUrl: Option<string>,
                       id: int, now: string): (rows: seq<StoryRow>)
    ensures |rows| <= 1
    ensures rows != [] ==> rows[0] == StoryRow(id, Cell(prompt), Cell(Json(story)), now, Cell(Json(imageUrl)))
    ensures rows != [] ==> Truthy(prompt) && story.Some? && story.value != "" && hasTable
  {
    if Truthy(prompt) && Truthy(Json(story)) && InsertAccepted(hasTable, prompt, Json(story), Json(imageUrl))
    then [StoryRow(id, Cell(prompt), Cell(Json(story)), now, Cell(Json(imageUrl)))]
    else []
  }

  /** create_story's answer once the checks pass: the story and the url, or 500 when
      the save overflows. */
  function CreatedResponse(hasTable: bool, prompt: Value, story: Option<string>, imageUrl: Option<string>): Response {
    if CreateOverflows(hasTable, prompt, story, imageUrl)
    then Response(500, ErrorMessage("Unexpected server error: " + OverflowText))
    else Response(200, StoryWithImage(story, imageUrl))
  }

  /** With a table and a non-empty story, create_story fails exactly when the prompt is
      an int outside SQLite's range, and stores a row exactly when it is anything else
      that can be bound. */
  lemma CreateOverflowsOnlyOnPrompt(prompt: Value, text: string, imageUrl: Option<string>, id: int, now: string)
    requires Truthy(prompt) && text != ""
    ensures CreateOverflows(true, prompt, Some(text), imageUrl) <==> TooLarge(prompt)
    ensures |CreatedRows(true, prompt, Some(text), imageUrl, id, now)| == 1 <==> Bind(prompt).Some?
  {
    var params := [prompt, Str(text), Json(imageUrl)];
    assert params[1..] == [Str(text), Json(imageUrl)] && params[1..][1..] == [Json(imageUrl)];
    assert params[1..][1..][1..] == [];
    if Bind(prompt).Some? {
      BoundNoOverflow(params);
    }
  }

  /** The JSON bodies the handlers answer with. */
  datatype Body =
    | ErrorMessage(error: string)                          // {"error": ...}
    | StoryWithImage(story: Option<string>, image_url: Option<string>)
    | Session(session_id: string, story: Option<string>)
    | StoryOnly(story: Option<string>)                     // {"story": ...}
    | Message(message: string)
    | Stories(stories: seq<ListedStory>)
    | InternalServerError                                  // an exception no handler catches

  datatype Response = Response(status: int, body: Body)

  /** The application: the stories file, the sessions and the segment counter. */
  class AdventureApp {
    const file: StoriesFile
    /** `story_contexts`: session token to the story told so far. */
    var contexts: map<string, Option<string>>
    /** `SEGMENT_COUNTER`: shared by every session and never reset. */
    var segmentCounter: int

    ghost predicate Valid()
      reads this, file
    {
      file.Valid() && segmentCounter >= 1
    }

    /** Module start-up: init_db (with the connection factory called), no sessions,
        and the counter at 1. */
    constructor (file: StoriesFile)
      requires file.Valid()
      modifies file
      ensures Valid() && this.file == file && contexts == map[] && segmentCounter == 1
      ensures file.hasTable && file.rows == old(file.rows) && file.nextId == old(file.nextId)
    {
      this.file := file;
      contexts := map[];
      segmentCounter := 1;
      new;
      var _ := InitDb(file);
    }

    /** `POST /create_story`, with the story asked for by first_page(prompt, pages):
        400 when pages or prompt is falsy; otherwise the story for the prompt, an
        illustration of it, a save whose False is ignored, and 200. */
    method CreateStory(data: map<string, Value>, model: string -> Completion, painter: string -> ImageResult,
                       now: string)
      returns (response: Response)
      requires Valid()
      modifies file
      ensures Valid()
      ensures contexts == old(contexts) && segmentCounter == old(segmentCounter)
      ensures file.hasTable == old(file.hasTable)
      ensures !Truthy(Get(data, "pages")) || !Truthy(Get(data, "prompt")) ==>
                response == Response(400, ErrorMessage("Missing 'prompt' or 'pages'"))
                && file.rows == old(file.rows) && file.nextId == old(file.nextId)
      ensures Truthy(Get(data, "pages")) && Truthy(Get(data, "prompt")) ==>
                var story := Execute(model(StoryCommand(Get(data, "prompt"), Get(data, "pages"))));
                var imageUrl := GenerateImage(painter(ImageDescription(Get(data, "prompt"))));
                var rows := CreatedRows(file.hasTable, Get(data, "prompt"), story, imageUrl, old(file.nextId), now);
                && response == CreatedResponse(file.hasTable, Get(data, "prompt"), story, imageUrl)
                && file.rows == old(file.rows) + rows
                && file.nextId == old(file.nextId) + |rows|
    {
      var prompt, pages := Get(data, "prompt"), Get(data, "pages");
      if !Truthy(pages) || !Truthy(prompt) {
        return Response(400, ErrorMessage("Missing 'prompt' or 'pages'"));
      }
      var story := Execute(model(StoryCommand(prompt, pages)));
      var imageUrl := GenerateImage(painter(ImageDescription(prompt)));
      response := SaveAndAnswer(prompt, story, imageUrl, now);
    }

    /** `POST /create_story` as written: `agent.first_page(pages, prompt)` asks for the
        story of CreateStoryCommandAsWritten, about the page count; everything after
        that is as in CreateStory. */
    method CreateStoryAsWritten(data: map<string, Value>, model: string -> Completion,
                                painter: string -> ImageResult, now: string)
      returns (response: Response)
      requires Valid()
      modifies file
      ensures Valid()
      ensures contexts == old(contexts) && segmentCounter == old(segmentCounter)
      ensures file.hasTable == old(file.hasTable)
      ensures !Truthy(Get(data, "pages")) || !Truthy(Get(data, "prompt")) ==>
                response == Response(400, ErrorMessage("Missing 'prompt' or 'pages'"))
                && file.rows == old(file.rows) && file.nextId == old(file.nextId)
      ensures Truthy(Get(data, "pages")) && Truthy(Get(data, "prompt")) ==>
                var story := Execute(model(CreateStoryCommandAsWritten(Get(data, "prompt"), Get(data, "pages"))));
                var imageUrl := GenerateImage(painter(ImageDescription(Get(data, "prompt"))));
                var rows := CreatedRows(file.hasTable, Get(data, "prompt"), story, imageUrl, old(file.nextId), now);
                && response == CreatedResponse(file.hasTable, Get(data, "prompt"), story, imageUrl)
                && file.rows == old(file.rows) + rows
                && file.nextId == old(file.nextId) + |rows|
    {
      var prompt, pages := Get(data, "prompt"), Get(data, "pages");
      if !Truthy(pages) || !Truthy(prompt) {
        return Response(400, ErrorMessage("Missing 'prompt' or 'pages'"));
      }
      var story := Execute(model(StoryCommand(pages, prompt)));
      var imageUrl := GenerateImage(painter(ImageDescription(prompt)));
      response := SaveAndAnswer(prompt, story, imageUrl, now);
    }

    /** The end of create_story once the story and the image url are in hand:
        save_story(prompt, story, image_url), then the JSON of both. An OverflowError
        from the save is caught by `except Exception`: 500 with its text. */
    method SaveAndAnswer(prompt: Value, story: Option<string>, imageUrl: Option<string>, now: string)
      returns (response: Response)
      requires Valid()
      modifies file
      ensures Valid()
      ensures file.hasTable == old(file.hasTable)
      ensures response == CreatedResponse(file.hasTable, prompt, story, imageUrl)
      ensures file.rows == old(file.rows) + CreatedRows(file.hasTable, prompt, story, imageUrl, old(file.nextId), now)
      ensures file.nextId == old(file.nextId) + |CreatedRows(file.hasTable, prompt, story, imageUrl, old(file.nextId), now)|
    {
      InsertOutcomesExclusive(file.hasTable, prompt, Json(story), Json(imageUrl));
      var saved := SaveStory(file, prompt, Json(story), Json(imageUrl), now);
      if saved == Overflowed {
        return Response(500, ErrorMessage("Unexpected server error: " + OverflowText));
      }
      response := Response(200, StoryWithImage(story, imageUrl));
    }

    /** `GET /get_stories`: every stored story, in id order, without its timestamp. */
    method GetStories() returns (response: Response)
      requires Valid()
      ensures response.status == 200 && response.body.Stories?
      ensures !file.hasTable ==> response.body.stories == []
      ensures file.hasTable ==> |response.body.stories| == |file.rows|
      ensures file.hasTable ==> forall k :: 0 <= k < |file.rows| ==>
                response.body.stories[k] == ListedStory(file.rows[k].id, file.rows[k].title, file.rows[k].content,
                                                        file.rows[k].imageUrl)
    {
      var stories := GetAllStories(file);
      response := Response(200, Stories(Listing(stories)));
    }

    /** `POST /start_story`: 400 unless genre, age, page_count and choice_count are all
        truthy; otherwise the first segment, stored under a new session token. */
    method StartStory(data: map<string, Value>, model: string -> Completion, token: string)
      returns (response: Response)
      requires Valid()
      requires token !in contexts
      modifies this
      ensures Valid() && segmentCounter == old(segmentCounter)
      ensures !(Truthy(Get(data, "genre")) && Truthy(Get(data, "age")) && Truthy(Get(data, "page_count"))
                && Truthy(Get(data, "choice_count"))) ==>
                response == Response(400, ErrorMessage("Missing required adventure story parameters"))
                && contexts == old(contexts)
      ensures Truthy(Get(data, "genre")) && Truthy(Get(data, "age")) && Truthy(Get(data, "page_count"))
              && Truthy(Get(data, "choice_count")) ==>
                var story := Execute(model(AdventureCommand(Get(data, "genre"), Get(data, "age"),
                                                            Get(data, "choice_count"), Get(data, "page_count"))));
                && response == Response(200, Session(token, story))
                && contexts == old(contexts)[token := story]
                && |contexts| == |old(contexts)| + 1
    {
      var genre, age, pageCount, choiceCount := Get(data, "genre"), Get(data, "age"), Get(data, "page_count"),
                                                Get(data, "choice_count");
      if !(Truthy(genre) && Truthy(age) && Truthy(pageCount) && Truthy(choiceCount)) {
        return Response(400, ErrorMessage("Missing required adventure story parameters"));
      }
      var story := Execute(model(AdventureCommand(genre, age, choiceCount, pageCount)));
      contexts := contexts[token := story];
      response := Response(200, Session(token, story));
    }

    /** `POST /continue_story` as written: continue_adventure_story bumps the counter
        and builds its prompt, but has no `return`, so it gives None, and the
        concatenation that should extend the session raises a TypeError: every request
        that passes the checks fails with 500 and leaves the session as it was. */
    method ContinueStoryAsWritten(data: map<string, Value>) returns (response: Response)
      requires Valid()
      modifies this
      ensures Valid() && contexts == old(contexts)
      ensures !Truthy(Get(data, "user_input")) || !Truthy(Get(data, "session_id")) ==>
                response == Response(400, ErrorMessage("Missing 'user_input' or 'session_id'"))
                && segmentCounter == old(segmentCounter)
      ensures Truthy(Get(data, "user_input")) && Truthy(Get(data, "session_id")) ==>
                if !Hashable(Get(data, "session_id")) then
                  response == Response(500, InternalServerError) && segmentCounter == old(segmentCounter)
                else if !Truthy(Json(StoredContext(old(contexts), Get(data, "session_id")))) then
                  response == Response(400, ErrorMessage("Invalid session_id")) && segmentCounter == old(segmentCounter)
                else
                  response == Response(500, InternalServerError) && segmentCounter == old(segmentCounter) + 1
    {
      var userInput, sessionId := Get(data, "user_input"), Get(data, "session_id");
      if !Truthy(userInput) || !Truthy(sessionId) {
        return Response(400, ErrorMessage("Missing 'user_input' or 'session_id'"));
      }
      if !Hashable(sessionId) {
        // dict.get raises TypeError for a list or dict key
        return Response(500, InternalServerError);
      }
      var previous := StoredContext(contexts, sessionId);
      if !Truthy(Json(previous)) {
        return Response(400, ErrorMessage("Invalid session_id"));
      }
      segmentCounter := segmentCounter + 1;
      // the prompt is built and dropped; the method returns None, and str + None raises
      response := Response(500, InternalServerError);
    }

    /** `POST /continue_story` with continue_adventure_story returning
        `self.execute(command)`: the counter goes up by one, the model is asked to go on
        from the session's story at that segment number, and the session's story grows
        by the reader's choice and the new segment. A reply with no text still makes the
        concatenation raise. */
    method ContinueStory(data: map<string, Value>, model: string -> Completion) returns (response: Response)
      requires Valid()
      modifies this
      ensures Valid()
      ensures !Truthy(Get(data, "user_input")) || !Truthy(Get(data, "session_id")) ==>
                response == Response(400, ErrorMessage("Missing 'user_input' or 'session_id'"))
                && contexts == old(contexts) && segmentCounter == old(segmentCounter)
      ensures Truthy(Get(data, "user_input")) && Truthy(Get(data, "session_id")) && !Hashable(Get(data, "session_id")) ==>
                response == Response(500, InternalServerError)
                && contexts == old(contexts) && segmentCounter == old(segmentCounter)
      ensures Truthy(Get(data, "user_input")) && Truthy(Get(data, "session_id")) && Hashable(Get(data, "session_id"))
              && !Truthy(Json(StoredContext(old(contexts), Get(data, "session_id")))) ==>
                response == Response(400, ErrorMessage("Invalid session_id"))
                && contexts == old(contexts) && segmentCounter == old(segmentCounter)
      ensures Truthy(Get(data, "user_input")) && Truthy(Get(data, "session_id")) && Hashable(Get(data, "session_id"))
              && Truthy(Json(StoredContext(old(contexts), Get(data, "session_id")))) ==>
                var key := Get(data, "session_id").s;
                var previous := StoredContext(old(contexts), Get(data, "session_id")).value;
                var story := Execute(model(ContinueCommand(previous, Get(data, "user_input"), Get(data, "choice_count"),
                                                           Get(data, "page_count"), old(segmentCounter) + 1)));
                && segmentCounter == old(segmentCounter) + 1
                && (story.None? ==> response == Response(500, InternalServerError) && contexts == old(contexts))
                && (story.Some? ==>
                      response == Response(200, StoryOnly(story))
                      && contexts == old(contexts)[key := Some(ContinuedContext(previous, Get(data, "user_input"), story.value))])
    {
      var userInput, sessionId := Get(data, "user_input"), Get(data, "session_id");
      var choiceCount, pageCount := Get(data, "choice_count"), Get(data, "page_count");
      if !Truthy(userInput) || !Truthy(sessionId) {
        return Response(400, ErrorMessage("Missing 'user_input' or 'session_id'"));
      }
      if !Hashable(sessionId) {
        return Response(500, InternalServerError);
      }
      var previous := StoredContext(contexts, sessionId);
      if !Truthy(Json(previous)) {
        return Response(400, ErrorMessage("Invalid session_id"));
      }
      segmentCounter := segmentCounter + 1;
      var story := Execute(model(ContinueCommand(previous.value, userInput, choiceCount, pageCount, segmentCounter)));
      if story.None? {
        return Response(500, InternalServerError);
      }
      contexts := contexts[sessionId.s := Some(ContinuedContext(previous.value, userInput, story.value))];
      response := Response(200, StoryOnly(story));
    }

    /** `POST /exit_story`: the session goes when its id is truthy and a key; the answer
        is the same either way. A truthy list or dict as id makes the `in` test raise. */
    method ExitStory(data: map<string, Value>) returns (response: Response)
      requires Valid()
      modifies this
      ensures Valid() && segmentCounter == old(segmentCounter)
      ensures Truthy(Get(data, "session_id")) && !Hashable(Get(data, "session_id")) ==>
                response == Response(500, InternalServerError) && contexts == old(contexts)
      ensures !(Truthy(Get(data, "session_id")) && !Hashable(Get(data, "session_id"))) ==>
                response == Response(200, Message("Adventure mode session ended successfully."))
                && contexts == Exited(old(contexts), Get(data, "session_id"))
    {
      var sessionId := Get(data, "session_id");
      if Truthy(sessionId) && !Hashable(sessionId) {
        return Response(500, InternalServerError);
      }
      contexts := Exited(contexts, sessionId);
      response := Response(200, Message("Adventure mode session ended successfully."));
    }
  }
}
