/**
 * The Author of the Flask backend (backend_example/story_text.py): it posts a prompt
 * to an assistant thread, reads the reply back, detects the end of the story, and
 * saves a first page in the story store it owns.
 *
 * The assistant is not modelled: what the thread answers is a `ThreadReply` given as
 * a parameter, taken once the run has left the queued and in-progress states.
 */
module StoryText {
  import opened PyValue
  import opened Text
  import opened Sqlite
  import opened StoryStore

  /** The two kinds of exception `execute` tells apart. */
  datatype ApiError = OpenAIError | OtherError

  /** What the assistant thread does with one prompt. */
  datatype ThreadReply =
    | PostRejected                  // messages.create raised; create_message returns None
    | RunError(error: ApiError)     // creating or polling the run, listing or reading messages raised
    | Replied(texts: seq<string>)   // the text of each message after the prompt, oldest first

  const FailedInput := "Failed to process your input. Please try again."
  const Concluded := "Thank you for reading. The story has concluded!"
  const GenerationError := "Error generating story content. Please try again."
  const Unexpected := "An unexpected error occurred."
  /** The one response first_page refuses to save. */
  const SaveBlocker := "Error during story generation"

  /** The end-of-story test on a reply: a case-sensitive substring search. */
  predicate EndsStory(text: string) {
    Contains(text, "The End") || Contains(text, "end of the story")
  }

  lemma EndsStoryIff(text: string)
    ensures EndsStory(text) <==>
              (exists i :: OccursAt(text, "The End", i)) || (exists i :: OccursAt(text, "end of the story", i))
  {
    ContainsIff(text, "The End");
    ContainsIff(text, "end of the story");
  }

  /** What create_message does with the prompt. */
  datatype Post = Skipped | Posted | PostFailed

  /** What `create_message` does with a prompt: an empty one never reaches the API. */
  function PostOutcome(textInput: Value, reply: ThreadReply): (post: Post)
    ensures post == Skipped <==> !Truthy(textInput)
    ensures post == Posted <==> Truthy(textInput) && !reply.PostRejected?
  {
    if !Truthy(textInput) then Skipped
    else if reply.PostRejected? then PostFailed
    else Posted
  }

  /** What `execute` returns once a truthy prompt has been handed to create_message:
      None when the thread holds no message after the prompt. */
  function ReplyResult(reply: ThreadReply): Option<string> {
    match reply
    case PostRejected => Some(FailedInput)
    case RunError(OpenAIError) => Some(GenerationError)
    case RunError(OtherError) => Some(Unexpected)
    case Replied(texts) =>
      if texts == [] then None
      else if EndsStory(texts[0]) then Some(Concluded)
      else Some(texts[0])
  }

  /** `execute` gives None only for a thread with no message after the prompt. */
  lemma ReplyResultNone(reply: ThreadReply)
    ensures ReplyResult(reply) == None <==> reply == Replied([])
  {
  }

  /** Whether the reply ends the story, which makes `execute` close the database. */
  predicate ReplyCloses(reply: ThreadReply) {
    reply.Replied? && reply.texts != [] && EndsStory(reply.texts[0])
  }

  /** The value `execute` returns for a prompt. */
  function ExecuteResult(textInput: Value, reply: ThreadReply): Option<string> {
    if !Truthy(textInput) then Some(FailedInput) else ReplyResult(reply)
  }

  /** Whether `execute` closes the Author's database: the prompt was posted and the first
      reply ends the story. */
  predicate ExecuteCloses(textInput: Value, reply: ThreadReply) {
    Truthy(textInput) && ReplyCloses(reply)
  }

  /** The messages `execute` adds to the thread: the prompt, when create_message posts it. */
  function PostedMessages(textInput: Value, reply: ThreadReply): (posted: seq<Value>)
    ensures |posted| <= 1
    ensures posted != [] <==> PostOutcome(textInput, reply) == Posted
  {
    if PostOutcome(textInput, reply) == Posted then [textInput] else []
  }

  /** An empty prompt yields the fixed failure text and touches nothing. */
  lemma ExecuteEmptyInput(textInput: Value, reply: ThreadReply)
    requires !Truthy(textInput)
    ensures ExecuteResult(textInput, reply) == Some(FailedInput)
    ensures !ExecuteCloses(textInput, reply) && PostedMessages(textInput, reply) == []
  {
  }

  /** A first reply without an end marker comes back unchanged, whatever follows it. */
  lemma ExecuteReturnsFirstReply(textInput: Value, first: string, later: seq<string>)
    requires Truthy(textInput) && !EndsStory(first)
    ensures ExecuteResult(textInput, Replied([first] + later)) == Some(first)
    ensures !ExecuteCloses(textInput, Replied([first] + later))
  {
  }

  /** Closing the database always comes with the concluding message. */
  lemma ExecuteClosesConcludes(textInput: Value, reply: ThreadReply)
    requires ExecuteCloses(textInput, reply)
    ensures ExecuteResult(textInput, reply) == Some(Concluded)
  {
  }

  /** `execute` yields the save blocker only by echoing a reply that is exactly that
      text: none of its own fixed messages is the blocker, so each of them is saved. */
  lemma ExecuteBlockerOnlyEchoed(textInput: Value, reply: ThreadReply)
    ensures ExecuteResult(textInput, reply) == Some(SaveBlocker) ==>
              reply.Replied? && reply.texts != [] && reply.texts[0] == SaveBlocker
    ensures SavesResponse(Some(FailedInput)) && SavesResponse(Some(Concluded))
    ensures SavesResponse(Some(GenerationError)) && SavesResponse(Some(Unexpected))
  {
  }

  /** first_page saves a response that is truthy and is not the blocker. */
  predicate SavesResponse(response: Option<string>) {
    response.Some? && response.value != "" && response.value != SaveBlocker
  }

  /** The prompt first_page sends, before any key moments: an f-string over the four
      story settings, its continuation lines indented by twenty spaces. The literal text
      is written in short pieces that concatenate to the source's text. */
  function FirstPagePrompt(genre: Value, age: Value, choiceCount: Value, length: Value): string {
    FString([
      Lit("Write " + "the first " + "page of " + "an " + "interactive "), Hole(genre),
      Lit(" story " + "for a "), Hole(age),
      Lit(" year\n" + "          " + "          " + "old child. " + "Give the " + "reader "), Hole(choiceCount),
      Lit(" choices " + "per story " + "segment. " + "Only " + "create " + "one\n" + "          " + "          "
          + "segment " + "at a time " + "before " + "hearing " + "what the " + "reader " + "chooses "
          + "then " + "move on " + "from " + "there. " + "Try to " + "keep\n" + "          " + "          "
          + "the " + "story " + "to a "),
      Hole(length),
      Lit(" length. " + "Always " + "end the " + "story " + "with " + "\"The End\" " + "and\n" + "          " + "          "
          + "don't " + "say " + "anything " + "past " + "that. " + "No need " + "to give " + "\"turn to " + "page\" "
          + "sections " + "at the " + "end of " + "choices.")
    ])
  }

  /** The prompt is never empty, so first_page always reaches the assistant. */
  lemma FirstPagePromptNotEmpty(genre: Value, age: Value, choiceCount: Value, length: Value)
    ensures FirstPagePrompt(genre, age, choiceCount, length) != ""
  {
  }

  /** The key-moments sentence first_page may append. */
  function KeyMomentsSentence(keyMoments: Value): string {
    FString([Lit(" During the story, incorporate " + "the following key moments " + "given by the reader: "), Hole(keyMoments)])
  }

  /** `command += ...` when `key_moments` is truthy. */
  function AppendKeyMoments(prompt: string, keyMoments: Value): string {
    if Truthy(keyMoments) then prompt + KeyMomentsSentence(keyMoments) else prompt
  }

  /** The command keeps the prompt as its start, and grows exactly when the key moments
      are truthy, by the key-moments sentence, which ends with the moments' text. */
  lemma KeyMomentsAppended(prompt: string, keyMoments: Value)
    ensures StartsWith(AppendKeyMoments(prompt, keyMoments), prompt)
    ensures Truthy(keyMoments) <==> |AppendKeyMoments(prompt, keyMoments)| > |prompt|
    ensures Truthy(keyMoments) ==>
              AppendKeyMoments(prompt, keyMoments)[|prompt|..] == KeyMomentsSentence(keyMoments)
    ensures Truthy(keyMoments) ==> EndsWith(AppendKeyMoments(prompt, keyMoments), Format(keyMoments))
  {
    var lead := " During the story, incorporate " + "the following key moments " + "given by the reader: ";
    var command := AppendKeyMoments(prompt, keyMoments);
    assert command[..|prompt|] == prompt;
    if Truthy(keyMoments) {
      var pieces := [Lit(lead), Hole(keyMoments)];
      assert pieces[1..] == [Hole(keyMoments)] && pieces[1..][1..] == [];
      assert FString(pieces[1..]) == Format(keyMoments) + FString([]);
      assert KeyMomentsSentence(keyMoments) == lead + Format(keyMoments);
      assert command == prompt + lead + Format(keyMoments);
      assert command[|command| - |Format(keyMoments)|..] == Format(keyMoments);
    }
  }

  /** The command first_page sends. */
  function FirstPageCommand(genre: Value, age: Value, choiceCount: Value, length: Value, keyMoments: Value): string {
    AppendKeyMoments(FirstPagePrompt(genre, age, choiceCount, length), keyMoments)
  }

  /** first_page's command is always posted unless the API refuses it. */
  lemma FirstPageCommandPosted(genre: Value, age: Value, choiceCount: Value, length: Value, keyMoments: Value,
                               reply: ThreadReply)
    ensures PostedMessages(Str(FirstPageCommand(genre, age, choiceCount, length, keyMoments)), reply)
            == if reply.PostRejected? then [] else [Str(FirstPageCommand(genre, age, choiceCount, length, keyMoments))]
  {
    FirstPagePromptNotEmpty(genre, age, choiceCount, length);
    KeyMomentsAppended(FirstPagePrompt(genre, age, choiceCount, length), keyMoments);
  }

  /** The prompts one first_page call adds to the thread: what execute posts for its
      command, which is the command itself unless the API refuses it. */
  function FirstPagePosts(genre: Value, age: Value, choiceCount: Value, length: Value, keyMoments: Value,
                          reply: ThreadReply): (posts: seq<Value>)
    ensures posts == PostedMessages(Str(FirstPageCommand(genre, age, choiceCount, length, keyMoments)), reply)
  {
    FirstPageCommandPosted(genre, age, choiceCount, length, keyMoments, reply);
    if reply.PostRejected? then [] else [Str(FirstPageCommand(genre, age, choiceCount, length, keyMoments))]
  }

  /** The rows one first_page call adds: one when the response passes the save gate and
      save_story accepts it on a connection that is still open, none otherwise. */
  function FirstPageRows(open: bool, genre: Value, age: Value, choiceCount: Value, length: Value,
                         response: Option<string>, id: int): seq<Row>
  {
    if SavesResponse(response) && SaveAccepted(open, genre, age, choiceCount, length, Str(response.value))
    then [NewRow(id, genre, age, choiceCount, length, Str(response.value))]
    else []
  }

  /** A first page that ends the story is never stored: execute has closed the
      connection before save_story runs. */
  lemma ConcludedFirstPageNotSaved(genre: Value, age: Value, choiceCount: Value, length: Value,
                                   reply: ThreadReply, id: int)
    requires ReplyCloses(reply)
    ensures ReplyResult(reply) == Some(Concluded)
    ensures FirstPageRows(false, genre, age, choiceCount, length, ReplyResult(reply), id) == []
  {
  }

  /** `Author`: an assistant, a thread, and a connection to the story store. */
  class Author {
    const db: StoryDatabase
    /** The prompts posted to the assistant thread, oldest first. */
    var thread: seq<Value>

    ghost predicate Valid()
      reads this, db, db.file
    {
      db.Valid()
    }

    /** `Author()`: the assistant and an empty thread are created remotely;
        `StoryDatabase()` opens a connection to the default database file. */
    constructor (file: StoryFile)
      requires file.Valid()
      modifies file
      ensures Valid() && fresh(db) && db.file == file && db.open && db.closes == 0 && thread == []
      ensures file.rows == old(file.rows) && file.nextId == old(file.nextId) && file.issued == old(file.issued)
    {
      db := new StoryDatabase(file);
      thread := [];
    }

    /** `create_message`: post the prompt to the thread unless it is empty or the API
        refuses it. */
    method CreateMessage(textInput: Value, reply: ThreadReply) returns (post: Post)
      modifies this
      ensures post == PostOutcome(textInput, reply)
      ensures thread == old(thread) + PostedMessages(textInput, reply)
    {
      if !Truthy(textInput) {
        return Skipped;
      }
      if reply.PostRejected? {
        return PostFailed;
      }
      thread := thread + [textInput];
      post := Posted;
    }

    /** `execute`: post the prompt, run the assistant, read the first message after the
        prompt. A reply that ends the story closes the database. */
    method Execute(textInput: Value, reply: ThreadReply) returns (response: Option<string>)
      requires Valid()
      modifies this, db
      ensures Valid()
      ensures response == ExecuteResult(textInput, reply)
      ensures thread == old(thread) + PostedMessages(textInput, reply)
      ensures db.open == (old(db.open) && !ExecuteCloses(textInput, reply))
      ensures db.closes == old(db.closes) + (if ExecuteCloses(textInput, reply) then 1 else 0)
    {
      var message := CreateMessage(textInput, reply);
      if message != Posted {
        return Some(FailedInput);
      }
      match reply {
        case RunError(OpenAIError) =>
          return Some(GenerationError);
        case RunError(OtherError) =>
          return Some(Unexpected);
        case Replied(texts) =>
          for i := 0 to |texts| {
            var responseText := texts[i];
            if EndsStory(responseText) {
              DbClose();
              return Some(Concluded);
            }
            return Some(responseText);
          }
          return None;
      }
    }

    /** `first_page`: build the command, execute it, save a usable response, and return
        the response unchanged. The command is never empty, so it is posted unless the
        API refuses it. */
    method FirstPage(genre: Value, age: Value, choiceCount: Value, length: Value, keyMoments: Value,
                     reply: ThreadReply) returns (response: Option<string>)
      requires Valid()
      modifies this, db, db.file
      ensures Valid()
      ensures response == ReplyResult(reply)
      ensures thread == old(thread) + FirstPagePosts(genre, age, choiceCount, length, keyMoments, reply)
      ensures db.open == (old(db.open) && !ReplyCloses(reply))
      ensures db.file.rows == old(db.file.rows) + FirstPageRows(db.open, genre, age, choiceCount, length, response, old(db.file.nextId))
      ensures db.file.nextId == old(db.file.nextId) + |FirstPageRows(db.open, genre, age, choiceCount, length, response, old(db.file.nextId))|
      ensures db.file.hasTable == old(db.file.hasTable)
    {
      var command := FirstPagePrompt(genre, age, choiceCount, length);
      FirstPagePromptNotEmpty(genre, age, choiceCount, length);
      KeyMomentsAppended(command, keyMoments);
      if Truthy(keyMoments) {
        command := command + KeyMomentsSentence(keyMoments);
      }
      response := ExecuteAndSave(genre, age, choiceCount, length, command, reply);
      assert command == FirstPageCommand(genre, age, choiceCount, length, keyMoments);
    }

    /** The rest of first_page once the command is built, for any non-empty command:
        execute it, then save the response unless it is empty or the blocker. */
    method ExecuteAndSave(genre: Value, age: Value, choiceCount: Value, length: Value, command: string,
                          reply: ThreadReply) returns (response: Option<string>)
      requires Valid() && command != ""
      modifies this, db, db.file
      ensures Valid()
      ensures response == ReplyResult(reply)
      ensures thread == old(thread) + PostedMessages(Str(command), reply)
      ensures db.open == (old(db.open) && !ReplyCloses(reply))
      ensures db.file.rows == old(db.file.rows) + FirstPageRows(db.open, genre, age, choiceCount, length, response, old(db.file.nextId))
      ensures db.file.nextId == old(db.file.nextId) + |FirstPageRows(db.open, genre, age, choiceCount, length, response, old(db.file.nextId))|
      ensures db.file.hasTable == old(db.file.hasTable)
    {
      response := Execute(Str(command), reply);
      SaveFirstPage(genre, age, choiceCount, length, response);
    }

    /** The save gate of first_page: a truthy response other than the blocker goes to
        save_story, and an exception from it (an OverflowError) is caught and logged. */
    method SaveFirstPage(genre: Value, age: Value, choiceCount: Value, length: Value, response: Option<string>)
      requires Valid()
      modifies db.file
      ensures Valid()
      ensures db.file.rows == old(db.file.rows) + FirstPageRows(db.open, genre, age, choiceCount, length, response, old(db.file.nextId))
      ensures db.file.nextId == old(db.file.nextId) + |FirstPageRows(db.open, genre, age, choiceCount, length, response, old(db.file.nextId))|
      ensures db.file.hasTable == old(db.file.hasTable)
    {
      if SavesResponse(response) {
        SaveOutcomesExclusive(db.open, genre, age, choiceCount, length, Str(response.value));
        var _ := db.SaveStory(genre, age, choiceCount, length, Str(response.value));
      }
    }

    /** `db_close`: close the Author's connection, once per call. */
    method DbClose()
      requires Valid()
      modifies db
      ensures Valid() && !db.open && db.closes == old(db.closes) + 1
    {
      db.Close();
    }
  }

  /** first_page on a fresh, empty store (the mocked scenario runs it with "Fantasy",
      10, 3 and 5): a reply that is usable as it stands is returned as is and saved
      once, with the request's values, under the first id. */
  method FirstPageOnFreshStore(genre: Value, age: Value, choiceCount: Value, length: Value, text: string)
    returns (response: Option<string>, rows: seq<Row>)
    requires IsStrOrInt(genre) && IsStrOrInt(age) && IsStrOrInt(choiceCount) && IsStrOrInt(length)
    requires !TooLarge(genre) && !TooLarge(age) && !TooLarge(choiceCount) && !TooLarge(length)
    requires SavesResponse(Some(text)) && !EndsStory(text)
    ensures response == Some(text)
    ensures rows == [NewRow(1, genre, age, choiceCount, length, Str(text))]
  {
    assert ReplyResult(Replied([text])) == Some(text) && !ReplyCloses(Replied([text]));
    assert FirstPageRows(true, genre, age, choiceCount, length, Some(text), 1)
        == [NewRow(1, genre, age, choiceCount, length, Str(text))];
    var file := new StoryFile();
    var author := new Author(file);
    response := author.FirstPage(genre, age, choiceCount, length, Null, Replied([text]));
    rows := file.rows;
  }
}
