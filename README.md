# gpt-storybook: a Dafny model of the story backends

gpt-storybook writes children's stories with an OpenAI model and keeps them in SQLite.
It has two back ends, and this project models the core of both.

- **The Flask example back end** (`backend_example/`):
  - the `StoryDatabase` class over the `story_data` table (module `StoryStore`);
  - the assistant-thread `Author`, which detects the end of a story and saves first pages (module `StoryText`);
  - the `/api/...` routes that use them (module `FlaskApi`).
- **The Streamlit back end** (`testing_streamlit/`):
  - the `stories` store (module `StreamlitStore`);
  - the Flask server behind the Streamlit pages, with one-shot stories and the adventure mode's sessions and segment counter (module `AdventureBackend`);
  - the two text extractors used by the pages: `extract_title` (module `History`) and `extract_options` (module `AdventureMode`).

Shared modules:

- `PyValue` models the Python values the handlers receive from a JSON body: None, bool, int, str, and a list or dict summarised by its text and size. It also models truthiness, `dict.get`, `str()` of an int, and f-strings.
- `Text` models the string operations the handlers use: `in`, `split("\n")[0]`, `strip`, `replace` and `startswith`.
- `Sqlite` models how `sqlite3` binds a Python value to a parameter. A list or dict raises a `sqlite3.Error`. An int outside SQLite's 64-bit INTEGER range raises an OverflowError, which the stores' `except sqlite3.Error` handlers do not catch; the model's `Outcome` says when a call ends that way.

How the model is built:

- **Objects the source changes in place are classes.** The contract of each of their methods gives the new value of every field the source changes:
  - the database file;
  - a `StoryDatabase` connection, which is open until `close`;
  - the `Author`, with its thread and connection;
  - the two Flask applications, with their globals.
- **Pure code is functions with lemmas about them:** title derivation, prompt building, the regular-expression searches and the SQL filters.
- **The outside world is passed in as parameters:**
  - the OpenAI assistant, chat-completion and image endpoints;
  - the clock behind `CURRENT_TIMESTAMP`;
  - the `uuid4` session token.

## Model

| member | source | states |
|---|---|---|
| PyValue.Get | testing_streamlit/CreateStoryBackend.py:136-137 | `dict.get(key)` gives the stored value for a present key and None for an absent one |
| PyValue.NatToStringRoundTrip | testing_streamlit/CreateStoryBackend.py:117 | the decimal text `str()` gives for a segment number reads back as that number |
| PyValue.Json | testing_streamlit/CreateStoryBackend.py:146-153 | an optional string handed on as a Python value: None exactly for a missing string, truthy exactly for a non-empty one |
| Sqlite.Bind | backend_example/database.py:61 | `sqlite3` refuses to bind exactly a list or dict and an int outside [-2^63, 2^63-1]; every other value becomes a SQL value |
| Sqlite.BindOverflowsIff | backend_example/database.py:61-64 | a statement raises OverflowError exactly when some parameter is an int out of range and every parameter before it binds, since binding goes left to right and stops at the first failure |
| Sqlite.BoundNoOverflow | backend_example/database.py:61-64 | a statement whose parameters all bind never raises OverflowError |
| Text.LineEnd | backend_example/flask_db.py:44 | the first line of a text ends at the first line feed, or at the end when there is none, and holds no line feed |
| Text.ContainsIff | backend_example/story_text.py:114 | Python's substring test `p in s` holds exactly when `p` occurs at some index of `s` |
| Text.RemoveAllShrinks | backend_example/flask_db.py:48 | `replace(p, "")` never lengthens a string and introduces no character that was not already there |
| Text.RemoveAllAbsent | backend_example/flask_db.py:48 | `replace` leaves a string without the pattern unchanged |
| Text.LStripSpec | backend_example/flask_db.py:44 | `lstrip()` removes exactly the leading whitespace: the result is a suffix starting with a non-space, and everything removed is whitespace |
| Text.RStripSpec | backend_example/flask_db.py:44 | `rstrip()` removes exactly the trailing whitespace, symmetrically |
| Text.StripSpec | backend_example/flask_db.py:44 | `strip()` gives a substring of the input that neither starts nor ends with whitespace |
| Text.StripChars | backend_example/flask_db.py:48 | `strip()` introduces no new characters |
| Text.StripUnchanged | backend_example/flask_db.py:48 | `strip()` is the identity on a string with no surrounding whitespace |
| StoryStore.Records | backend_example/database.py:128-138 | a fetch gives one record per row, in row order, with the six columns in place |
| StoryStore.FormatRows | backend_example/database.py:98-112 | the loop of fetch_story builds exactly one dict per fetched row, in the order the rows came back |
| StoryStore.FilterRows | backend_example/database.py:99-110 | the filtering loop keeps exactly the rows that satisfy the condition and never adds one |
| StoryStore.FilterRowsAppend | backend_example/database.py:99-110 | filtering distributes over concatenation of the table's rows |
| StoryStore.FilterNone | backend_example/database.py:99-110 | a filter that no row satisfies gives the empty list |
| StoryStore.FilterKeepsIncreasing | backend_example/database.py:99-110 | filtering keeps the primary-key order of the rows |
| StoryStore.FilterTwice | backend_example/database.py:99-110 | applying the same filter twice is the same as applying it once |
| StoryStore.ConditionOf | backend_example/database.py:85-93 | a None argument imposes no condition; an argument sqlite3 cannot bind (a list or dict, or an out-of-range int) makes the query fail |
| StoryStore.SelectMembers | backend_example/database.py:85-110 | a row is fetched exactly when it is stored and matches every given id, genre and age condition |
| StoryStore.SelectWithoutConditions | backend_example/database.py:85-93 | `fetch_story()` with no arguments returns every row, in order |
| StoryStore.DeleteThenFetch | backend_example/database.py:143-160 | after `delete_story(id)`, fetching that id finds nothing |
| StoryStore.DeleteIdempotent | backend_example/database.py:143-160 | deleting the same id twice is the same as deleting it once |
| StoryStore.DeleteKeepsOthers | backend_example/database.py:143-160 | a delete removes exactly the rows with that id and keeps every other row |
| StoryStore.SaveThenFetch | backend_example/database.py:40-115 | a story saved under a fresh id is fetched back by that id, alone |
| StoryStore.SaveOutcomesExclusive | backend_example/database.py:54-66 | a save either raises OverflowError or is judged accepted or refused, never both |
| StoryStore.FetchParams | backend_example/database.py:85-95 | the values fetch_story binds are exactly its arguments that are not None |
| StoryStore.FilterOfBinds | backend_example/database.py:85-95 | fetch_story builds its filter exactly when every argument it binds can be bound, and then the statement cannot overflow |
| StoryStore.AppendKeepsInvariant | backend_example/database.py:24-31 | an insert under AUTOINCREMENT's next id keeps the ids increasing, records the id as issued, and keeps every issued id below the next one |
| StoryStore.StoryFile.constructor | backend_example/database.py:24-31 | a database file that does not exist yet has no table and no rows, and the next id is 1 |
| StoryStore.StoryFile.Insert | backend_example/database.py:58-62 | an INSERT appends the new row under the next AUTOINCREMENT id, advances the id and keeps the file's invariant |
| StoryStore.StoryDatabase.constructor | backend_example/database.py:6-16 | opening a connection creates the table if it is missing and keeps the stored rows and the id counter |
| StoryStore.StoryDatabase.CreateTable | backend_example/database.py:18-38 | CREATE TABLE IF NOT EXISTS succeeds exactly on an open connection and never touches rows or ids |
| StoryStore.StoryDatabase.SaveStory | backend_example/database.py:40-66 | OverflowError escapes exactly when the connection is open, the four metadata fields are str or int, and the first value that cannot be bound is an out-of-range int. Otherwise it returns True exactly when every value binds and content is not None; then one row is appended under the next id and the id advances. In every other case nothing changes |
| StoryStore.StoryDatabase.FetchStory | backend_example/database.py:68-115 | OverflowError escapes when an argument is an out-of-range int and the ones before it bind. On an open connection with bindable arguments it returns the matching rows as records in id order; on a closed connection or with a list or dict argument it returns [] |
| StoryStore.StoryDatabase.FetchAllStories | backend_example/database.py:117-141 | every row as a record, in order, on an open connection; [] once closed |
| StoryStore.StoryDatabase.DeleteStory | backend_example/database.py:143-160 | OverflowError escapes exactly for an out-of-range int id on an open connection. On an open connection with a bindable id, the rows with that id are removed and True is returned; otherwise nothing changes and False is returned. Ids are never reused |
| StoryStore.StoryDatabase.Close | backend_example/database.py:162-168 | after `close` the connection is closed; every later operation on it fails |
| StoryStore.FantasyExample | test_database.py:23-45 | the test's story ("Fantasy", 10, 3, 5, "Once upon a time in a magical forest...") saved into a fresh database and read back with `SELECT *` is the only row, with id 1 and each column equal to its input |
| StoryText.EndsStoryIff | backend_example/story_text.py:114 | a reply ends the story exactly when it contains "The End" or "end of the story" |
| StoryText.PostOutcome | backend_example/story_text.py:56-78 | a falsy prompt is never posted; a truthy one is posted unless the API raises |
| StoryText.ReplyResultNone | backend_example/story_text.py:112-117 | `execute` falls off the end of its loop and gives None exactly when the thread holds no reply |
| StoryText.ReplyResult | backend_example/story_text.py:112-123 | execute's answer once the prompt is posted: the conclusion message for a first reply that ends the story, that reply otherwise, None with no reply, and the fixed error message when the run raises (stated by ReplyResultNone, ExecuteReturnsFirstReply and ExecuteClosesConcludes) |
| StoryText.ExecuteResult | backend_example/story_text.py:93-96 | execute answers "Failed to process your input" for a falsy prompt and ReplyResult otherwise (stated by ExecuteEmptyInput) |
| StoryText.PostedMessages | backend_example/story_text.py:56-78 | at most one message joins the thread, and one does exactly when the prompt was posted |
| StoryText.ExecuteEmptyInput | backend_example/story_text.py:94-96 | an empty prompt gives the "Failed to process your input" message, posts nothing and leaves the connection open |
| StoryText.ExecuteReturnsFirstReply | backend_example/story_text.py:112-117 | only the first reply after the prompt is returned; later replies are ignored |
| StoryText.ExecuteClosesConcludes | backend_example/story_text.py:114-116 | whenever `execute` closes the database, it answers the "story has concluded" message |
| StoryText.ExecuteBlockerOnlyEchoed | backend_example/story_text.py:94-123 | the one text first_page refuses to save comes only from a reply that is exactly that text; each of execute's own messages is saved |
| StoryText.FirstPagePromptNotEmpty | backend_example/story_text.py:139-143 | the first-page prompt is never empty, so `execute` always posts it |
| StoryText.KeyMomentsAppended | backend_example/story_text.py:144-145 | truthy key moments extend the prompt by the key-moments sentence, which ends with them; falsy ones leave it unchanged |
| StoryText.FirstPageCommandPosted | backend_example/story_text.py:139-146 | first_page's command joins the thread unless the API refuses it |
| StoryText.FirstPagePosts | backend_example/story_text.py:139-146 | the prompts one first_page call adds to the thread: its command, unless the API refuses it |
| StoryText.FirstPageRows | backend_example/story_text.py:146-151 | the rows one first_page call adds: one row exactly when the response is non-empty, is not "Error during story generation", and save_story accepts it; an OverflowError from save_story is swallowed and stores nothing (stated through Author.FirstPage and FirstPageOnFreshStore) |
| StoryText.ConcludedFirstPageNotSaved | backend_example/story_text.py:114-116 | a first page that ends the story is answered with the conclusion message and never stored |
| StoryText.Author.constructor | backend_example/story_text.py:15-40 | a new Author opens its own connection to the story file and starts with an empty thread |
| StoryText.Author.CreateMessage | backend_example/story_text.py:56-78 | the thread grows by the prompt exactly when it is posted |
| StoryText.Author.Execute | backend_example/story_text.py:83-123 | the reply's text, or the matching fixed message, is returned. The thread grows by the posted prompt, and the connection is closed exactly when the story ends |
| StoryText.Author.FirstPage | backend_example/story_text.py:125-152 | the response is execute's answer to the first-page command. The thread grows by that command unless the API refuses it, and the connection closes exactly when the reply ends the story. The file gains the first page's row exactly when the save gate and the store accept it; an out-of-range int field stores nothing |
| StoryText.Author.ExecuteAndSave | backend_example/story_text.py:146-151 | execute on the command, then the guarded save: the thread, the connection and the rows change exactly as Execute and FirstPageRows say |
| StoryText.Author.SaveFirstPage | backend_example/story_text.py:147-151 | the guarded save_story inside `try`: a row exactly when FirstPageRows gives one, whatever exception the save raises |
| StoryText.Author.DbClose | backend_example/story_text.py:154-155 | the Author's connection is closed |
| StoryText.FirstPageOnFreshStore | test_story_text.py:43-49 | on a fresh store, a usable reply is returned and saved once with the request's fields as id 1 |
| FlaskApi.DeriveTitle | backend_example/flask_db.py:44-48 | a story whose stripped first line lacks "Title: " is "Untitled Story"; otherwise the title is shorter than the first line by at least the prefix and has no line feed |
| FlaskApi.TitleRoundTrip | backend_example/flask_db.py:44-48 | writing "Title: x" as the first line gives back x, for any stripped single-line x without the prefix |
| FlaskApi.EmptyTitleUntitled | backend_example/flask_db.py:44-48 | a first line that is only "Title: " strips to "Title:", which lacks the prefix's trailing space, so the story is "Untitled Story" |
| FlaskApi.StartStorySavesTwice | backend_example/flask_db.py:43-51 | both first_page calls save a row, under consecutive ids, so one request stores the story twice |
| FlaskApi.StartStoryConcludedSavesNothing | backend_example/flask_db.py:43-51 | when the first page already ends the story, neither call stores anything |
| FlaskApi.StartStoryRejectedFieldsSaveNothing | backend_example/flask_db.py:36-51 | fields that are not str or int are never stored |
| FlaskApi.StartStoryRows | backend_example/flask_db.py:43-51 | the rows start_story adds: those of the first first_page call, then, only when its response is not None, those of the second call on the connection the first call left (stated by StartStorySavesTwice, StartStoryConcludedSavesNothing and StartStoryRejectedFieldsSaveNothing) |
| FlaskApi.StartStoryPosts | backend_example/flask_db.py:43-50 | start_story adds at most two prompts to the thread, each of them first_page's command |
| FlaskApi.StoryApi.constructor | backend_example/flask_db.py:10-12 | the application and its Author each open a connection to the same file, and the stored rows are kept |
| FlaskApi.StoryApi.StartStory | backend_example/flask_db.py:16-54 | 400 without the four keys, and nothing changes. Otherwise the rows and the next id are those of the two first_page calls, the thread grows by their posts, and the Author's connection closes exactly when a first page ends the story; 500 when the first response is None, else 200 with the second response |
| FlaskApi.StoryApi.StartWithFields | backend_example/flask_db.py:43-51 | the two first_page calls and the title derivation, with the same rows, thread, connection and response as StartStory |
| FlaskApi.StoryApi.ContinueStory | backend_example/flask_db.py:57-78 | 400 without "text", and nothing changes. Otherwise execute's answer as content, the thread grows by the posted prompt, and the connection closes exactly when the reply ends the story. Never stores a row |
| FlaskApi.StoryApi.SaveStory | backend_example/flask_db.py:81-111 | 400 without the five keys. Otherwise 500 with the OverflowError's text exactly when save_story overflows, and 200 in every other case, whether or not the story was accepted; a row is appended under the next id exactly when it was |
| FlaskApi.StoryApi.GetStories | backend_example/flask_db.py:114-143 | 200 with every row as a record while the application's connection is open; 500 once it is closed |
| FlaskApi.StoryApi.DeleteStory | backend_example/flask_db.py:145-161 | 500 exactly for an id above 2^63-1 on an open connection, since the route takes any int; otherwise 200. The id's rows go exactly when the connection is open and the id is in range; the next id never changes |
| StreamlitStore.Dicts | testing_streamlit/database.py:84-85 | one dict per row, in order, with the row's five columns |
| StreamlitStore.DictsAppend | testing_streamlit/database.py:62-69 | after an insert, the listing is the earlier listing followed by the new row's dict |
| StreamlitStore.GuardedBindsNotNull | testing_streamlit/database.py:58-66 | a value that passes the truthiness guard binds to a non-NULL SQL value exactly when it is neither a list or dict nor an int outside [-2^63, 2^63-1] |
| StreamlitStore.InsertOutcomesExclusive | testing_streamlit/database.py:62-72 | an insert either raises OverflowError or is accepted or refused, never both |
| StreamlitStore.StoriesFile.constructor | testing_streamlit/database.py:33-39 | a new database file has no table and no rows, and the next id is 1 |
| StreamlitStore.InitDbAsWritten | testing_streamlit/database.py:25-44 | as written, `init_db` raises an exception that is not a sqlite3.Error (a TypeError from Python 3.11 on, an AttributeError before) before creating anything |
| StreamlitStore.InitDb | testing_streamlit/database.py:25-44 | the corrected `init_db` creates the table and keeps existing rows and ids |
| StreamlitStore.SaveStory | testing_streamlit/database.py:46-72 | OverflowError escapes exactly when title and content are truthy, the table exists, and the first value that cannot be bound is an out-of-range int. Otherwise True exactly when title and content are truthy and the insert is accepted; then one row is added under the next id, with the clock's timestamp. In every other case nothing changes |
| StreamlitStore.GetAllStories | testing_streamlit/database.py:75-88 | every row as a dict in increasing id order; [] without a table |
| StreamlitStore.FreshStoreAsWritten | testing_streamlit/database.py:31 | with `init_db` as written, nothing can be saved and nothing is listed |
| StreamlitStore.FreshStoreInitialized | testing_streamlit/database.py:25-88 | with the table created, a guarded, bindable story is saved as id 1 and listed back unchanged |
| AdventureBackend.StoryCommand | testing_streamlit/CreateStoryBackend.py:98 | the prompt first_page(prompt, pages) sends: the subject and the page count in the source's sentence (stated by StoryCommandNamesPrompt) |
| AdventureBackend.StoryCommandNamesPrompt | testing_streamlit/CreateStoryBackend.py:98 | the command names the subject right after "Write a story about " and the page count right after "exactly " |
| AdventureBackend.SwappedCommandDiffers | testing_streamlit/CreateStoryBackend.py:146 | the call as written puts the page count where the subject belongs, and so differs from the intended command |
| AdventureBackend.SwappedCommandExample | testing_streamlit/CreateStoryBackend.py:146 | for prompt "a dragon" with 2 pages, the model is asked for "a story about 2" |
| AdventureBackend.AdventureCommand | testing_streamlit/CreateStoryBackend.py:106-108 | the prompt start_adventure_story sends, over the genre, age, choice count and segment count (stated by AdventureCommandNamesSettings) |
| AdventureBackend.AdventureCommandNamesSettings | testing_streamlit/CreateStoryBackend.py:106-108 | the adventure prompt opens with the genre and the age, asks to "Provide" the choice count, and limits the story to the segment count |
| AdventureBackend.ContinueCommand | testing_streamlit/CreateStoryBackend.py:118-120 | the prompt continue_adventure_story builds from the story so far, the choice, the segment number and the counts (stated by ContinueCommandStartsWithStory and ContinueCommandNamesSegment) |
| AdventureBackend.ContinueCommandStartsWithStory | testing_streamlit/CreateStoryBackend.py:118 | the continuation prompt starts with the story told so far |
| AdventureBackend.FStringAdjacent | testing_streamlit/CreateStoryBackend.py:118-120 | two adjacent parts of an f-string occur together in its text |
| AdventureBackend.ContinueCommandNamesSegment | testing_streamlit/CreateStoryBackend.py:115-120 | the continuation prompt names the current segment number as "segment n" |
| AdventureBackend.ContinuedContextExtends | testing_streamlit/CreateStoryBackend.py:216 | the session's new story starts with the old one, ends with the new segment, and is longer than both together |
| AdventureBackend.ContinuedContext | testing_streamlit/CreateStoryBackend.py:216 | the session's text after a continued segment: what it held, the reader's choice, then the segment (stated by ContinuedContextExtends) |
| AdventureBackend.StoredContext | testing_streamlit/CreateStoryBackend.py:208 | `story_contexts.get(session_id, "")`: the stored story for a key that is there, "" otherwise |
| AdventureBackend.Exited | testing_streamlit/CreateStoryBackend.py:224-226 | the sessions exit_story leaves (stated by ExitedRemovesOnly and ExitedIdempotent) |
| AdventureBackend.ExitedRemovesOnly | testing_streamlit/CreateStoryBackend.py:222-227 | exiting removes exactly the named session and keeps every other session's story |
| AdventureBackend.ExitedIdempotent | testing_streamlit/CreateStoryBackend.py:222-227 | exiting the same session twice is the same as exiting it once |
| AdventureBackend.Listing | testing_streamlit/CreateStoryBackend.py:163-171 | one listed story per stored story |
| AdventureBackend.CreatedRows | testing_streamlit/CreateStoryBackend.py:153 | create_story stores at most one row, titled by the prompt, holding the story and the url, and only for a truthy prompt, a non-empty story and an existing table |
| AdventureBackend.CreateOverflowsOnlyOnPrompt | testing_streamlit/CreateStoryBackend.py:153-158 | with a table and a non-empty story, create_story answers 500 exactly when the prompt is an out-of-range int, and stores a row exactly when the prompt binds |
| AdventureBackend.AdventureApp.constructor | testing_streamlit/CreateStoryBackend.py:15-21 | with `init_db` corrected (see Findings, testing_streamlit/database.py:31), at start-up the table exists, no session is open and the segment counter is 1 |
| AdventureBackend.AdventureApp.CreateStory | testing_streamlit/CreateStoryBackend.py:126-158 | the corrected handler, which asks for first_page(prompt, pages). 400 when prompt or pages is falsy, with nothing stored. Otherwise the story for that prompt and its illustration: 500 when the save overflows, else 200, and one row titled by the prompt exactly when the store accepts it. Sessions and counter are untouched |
| AdventureBackend.AdventureApp.CreateStoryAsWritten | testing_streamlit/CreateStoryBackend.py:126-158 | the handler as written: the story asked for is first_page(pages, prompt), about the page count; the checks, the save and the answer are those of CreateStory |
| AdventureBackend.AdventureApp.SaveAndAnswer | testing_streamlit/CreateStoryBackend.py:150-158 | save_story(prompt, story, image_url) and the answer: the rows and next id grow by CreatedRows, and the response is 500 with the OverflowError's text exactly when the save overflows |
| AdventureBackend.AdventureApp.GetStories | testing_streamlit/CreateStoryBackend.py:160-172 | 200 with every stored story's id, title, content and image in order |
| AdventureBackend.AdventureApp.StartStory | testing_streamlit/CreateStoryBackend.py:175-193 | 400 unless all four fields are truthy. Otherwise exactly one new session holding the first segment, and 200 with its token |
| AdventureBackend.AdventureApp.ContinueStoryAsWritten | testing_streamlit/CreateStoryBackend.py:196-218 | as written, every valid request advances the counter, answers 500 and leaves the session unchanged |
| AdventureBackend.AdventureApp.ContinueStory | testing_streamlit/CreateStoryBackend.py:196-218 | 400 for a missing field or an unknown or empty session. Otherwise the counter goes up by one, the model is asked to continue at that segment, and the session's story grows by the choice and the new segment |
| AdventureBackend.AdventureApp.ExitStory | testing_streamlit/CreateStoryBackend.py:222-227 | 200 and the session removed, if present; other sessions and the counter are untouched |
| History.BoldCloseSpec | testing_streamlit/History.py:44 | the lazy `(.*?)\*\*` stops at the first "**" on the same line, and fails when the line has none |
| History.SearchSpec | testing_streamlit/History.py:44 | `re.search` finds the leftmost index where either form matches, and the title is the group that form captures |
| History.Search | testing_streamlit/History.py:44 | a match found from index i starts at or after i, and its group is one line |
| History.ExtractTitleUntitled | testing_streamlit/History.py:42-48 | empty content, or content where neither form matches, gives "Untitled Story"; for non-empty content the fallback means no match or a captured title that is itself "Untitled Story" |
| History.ExtractTitle | testing_streamlit/History.py:42-48 | an extracted title is one line, and only non-empty content can give None |
| History.ExtractedTitleInContent | testing_streamlit/History.py:44-47 | a title extracted from content appears in it and holds no line feed |
| History.EmptyBoldTitle | testing_streamlit/History.py:47 | an empty bold title makes `group(1) or group(2)` None |
| History.UnclosedBoldFallsBack | testing_streamlit/History.py:44 | "**Title: " without a closing "**" on its line matches the plain form two characters later, taking the rest of the line |
| History.DisplayTitleChoice | testing_streamlit/History.py:42-58 | a truthy stored title is shown as is; otherwise string content gives the extracted title, missing or falsy content (None, "") gives "Untitled Story", and truthy content that is not a string makes `re.search` raise a TypeError |
| History.DisplayTitle | testing_streamlit/History.py:57-58 | the title display_story shows: a truthy stored title, else the title extracted from the content (stated by DisplayTitleChoice and NoContentUntitled) |
| History.NoTitleWithoutT | testing_streamlit/History.py:44 | text without a capital T matches neither form |
| History.NoContentUntitled | testing_streamlit/History.py:57-58 | a story without content is shown as "Untitled Story" |
| AdventureMode.DigitsEndSpec | testing_streamlit/AdventureMode.py:79 | `\d+` takes the whole run of digits |
| AdventureMode.OptionStartsIff | testing_streamlit/AdventureMode.py:79 | the greedy scan matches at an index exactly when the pattern can match there |
| AdventureMode.Options | testing_streamlit/AdventureMode.py:80 | `re.findall` from an index: the group of the leftmost match, then the search resumes where it ended (stated by OptionsLeftmost, OptionsWellFormed and OptionsEmpty) |
| AdventureMode.ExtractOptions | testing_streamlit/AdventureMode.py:76-81 | extract_options is that search from the start of the text (stated by NoOptions, TwoOptions and NewlineSeparator) |
| AdventureMode.OptionsLeftmost | testing_streamlit/AdventureMode.py:80 | `findall` takes the leftmost match and resumes after it, so options come in text order without overlap |
| AdventureMode.OptionsWellFormed | testing_streamlit/AdventureMode.py:79-80 | every option is non-empty, has no line feed, and runs to the end of its line |
| AdventureMode.OptionsEmpty | testing_streamlit/AdventureMode.py:80 | the search finds nothing exactly when no index starts a match |
| AdventureMode.NoOptions | testing_streamlit/AdventureMode.py:76-81 | the options are empty exactly when no digits-dot-whitespace-character pattern occurs |
| AdventureMode.TwoOptions | testing_streamlit/AdventureMode.py:76-81 | "1. Go left\n2. Go right" offers exactly "Go left" and "Go right" |
| AdventureMode.NewlineSeparator | testing_streamlit/AdventureMode.py:79 | since `\s` also matches a line feed, "1.\nGo" offers "Go" from the next line |

## Left out

- The OpenAI client is not modelled; what it answers is passed in as a parameter. This covers:
  - the assistant, thread and run objects;
  - the chat-completion and image calls;
  - `create_thread`;
  - the `sleep` polling loop in `execute`.
- A connection that fails to open, and the `raise` in `__init__` and `create_table`, are not modelled; every connection opens.
- SQLite is modelled as rows only:
  - indexes, column type affinity and the VARCHAR(60) length are not modelled;
  - the SQL errors modelled are a closed connection, a missing table, NULL in a NOT NULL column, and a list or dict that cannot be bound, each a `sqlite3.Error`; and an int outside SQLite's 64-bit INTEGER range, an OverflowError that escapes the stores' handlers.
- `created_at` / `CURRENT_TIMESTAMP` is a clock value passed in, and `uuid4` is a token passed in; the model assumes the token is not already in use.
- Flask is not modelled: routing, `jsonify`, CORS, the request object, the logging calls and `print`.
  - A request body that is not a JSON object is not modelled. It would raise at `data.get` or at the `in` test.
- Concurrency is not modelled: requests run one at a time, and the shared `SEGMENT_COUNTER` and `story_contexts` are not raced.
- The Streamlit pages are not modelled (layout, session state, HTTP calls to the back end), nor is the React front end. `fetch_stories` in History.py is one such HTTP call.
- Text is ASCII only:
  - no Unicode whitespace or digits in `strip`, `\s`, `\d`;
  - no emoji in the expander title.
- Floating-point values in a request body are not modelled.
- `str()` of an int with more than 4300 digits raises ValueError from Python 3.11 on; `PyValue.Format` writes every int out in full. Such an int reaches an f-string only in a prompt, where the model builds the text instead of failing.
- Import-time failure is not modelled. `init_db()` runs when CreateStoryBackend.py is imported (line 15), so the exception of the `init_db` finding (a TypeError from Python 3.11 on, an AttributeError before) stops that server at start-up. The as-written store models what the file is left with: no table.
- `main()` in story_text.py is not modelled; it is an interactive console loop.
- `ConditionOf` does not model SQLite's comparison rules across storage classes; only equal values match.
- `AdventureBackend.Listing` states only the length. The field-by-field correspondence is stated by `AdventureApp.GetStories`.

## Findings

| source | as written | input that shows it | evidently intended | confidence | as-written member | corrected member |
|---|---|---|---|---|---|---|
| testing_streamlit/CreateStoryBackend.py:146 | `agent.first_page(pages, prompt)` passes the arguments in the wrong order for `first_page(self, prompt, pages)` | prompt "a dragon", pages 2: the model is asked to "Write a story about 2. Make sure it is exactly a dragon page(s) long" (SwappedCommandExample) | `first_page(prompt, pages)` | high, not executed | AdventureBackend.AdventureApp.CreateStoryAsWritten | AdventureBackend.AdventureApp.CreateStory |
| testing_streamlit/CreateStoryBackend.py:111-120 | `continue_adventure_story` builds its command but has no `return`, so line 216 adds None to a string | any request with a truthy user_input and a session_id whose stored context is truthy: a TypeError, so 500, and the session never advances | `return self.execute(command)` | high, not executed | AdventureBackend.AdventureApp.ContinueStoryAsWritten | AdventureBackend.AdventureApp.ContinueStory |
| testing_streamlit/database.py:31 | `with get_db_connection as conn` uses the function object as a context manager | any call of `init_db()`: an exception that is not a sqlite3.Error (a TypeError from Python 3.11 on, an AttributeError before), so `except sqlite3.Error` does not catch it and the table is never created | `with get_db_connection() as conn` | high, not executed | StreamlitStore.FreshStoreAsWritten | StreamlitStore.FreshStoreInitialized |
