/**
 * The story store of the Streamlit backend (testing_streamlit/database.py): a table
 * stories(id INTEGER PRIMARY KEY AUTOINCREMENT, title TEXT NOT NULL, content TEXT NOT NULL,
 * created_at TIMESTAMP DEFAULT CURRENT_TIMESTAMP, image_url TEXT) in one database file.
 * Every call opens a fresh connection to that file, so the file is the only state.
 * The clock CURRENT_TIMESTAMP reads is a parameter.
 */
module StreamlitStore {
  import opened PyValue
  import opened Sqlite

  /** A row of `stories`; `createdAt` is the text CURRENT_TIMESTAMP gave at the insert. */
  datatype StoryRow = StoryRow(id: int, title: SqlValue, content: SqlValue, createdAt: string, imageUrl: SqlValue)

  /** `dict(row)` for a `sqlite3.Row`: the keys id, title, content, created_at, image_url. */
  datatype StoryDict = StoryDict(id: int, title: SqlValue, content: SqlValue, created_at: string, image_url: SqlValue)

  function ToDict(r: StoryRow): StoryDict {
    StoryDict(r.id, r.title, r.content, r.createdAt, r.imageUrl)
  }

  /** `[dict(story) for story in stories]`. */
  function Dicts(rows: seq<StoryRow>): (dicts: seq<StoryDict>)
    ensures |dicts| == |rows|
    ensures forall k :: 0 <= k < |rows| ==> dicts[k] == ToDict(rows[k])
  {
    seq(|rows|, k requires 0 <= k < |rows| => ToDict(rows[k]))
  }

  /** Listing after one more insert: the earlier listing, then the new row's dict. */
  lemma DictsAppend(rows: seq<StoryRow>, r: StoryRow)
    ensures Dicts(rows + [r]) == Dicts(rows) + [ToDict(r)]
  {
    assert forall k :: 0 <= k < |rows| ==> (rows + [r])[k] == rows[k];
  }

  /** Rows are kept in primary-key order, and every id is below the next one AUTOINCREMENT
      hands out. */
  ghost predicate IdsBelow(rows: seq<StoryRow>, nextId: int) {
    && (forall i, j :: 0 <= i < j < |rows| ==> rows[i].id < rows[j].id)
    && (forall k :: 0 <= k < |rows| ==> rows[k].id < nextId)
  }

  /** The NOT NULL columns refuse None; sqlite3 cannot bind a list, a dict or an int
      outside SQLite's range. */
  predicate InsertAccepted(hasTable: bool, title: Value, content: Value, imageUrl: Value) {
    hasTable && BindsNotNull(title) && BindsNotNull(content) && Bind(imageUrl).Some?
  }

  /** When the INSERT raises OverflowError instead: the table exists (the statement is
      prepared before anything is bound) and the first of the three values that cannot
      be bound is an int out of range. */
  predicate InsertOverflows(hasTable: bool, title: Value, content: Value, imageUrl: Value) {
    hasTable && BindOverflows([title, content, imageUrl])
  }

  /** An insert that overflows is not accepted. */
  lemma InsertOutcomesExclusive(hasTable: bool, title: Value, content: Value, imageUrl: Value)
    ensures !(InsertAccepted(hasTable, title, content, imageUrl) && InsertOverflows(hasTable, title, content, imageUrl))
  {
    if InsertAccepted(hasTable, title, content, imageUrl) {
      BoundNoOverflow([title, content, imageUrl]);
    }
  }

  /** A value the truthiness guard lets through binds to a non-NULL SQL value unless it
      is a list or dict (refused by sqlite3 at binding) or an int out of range (an
      OverflowError); NOT NULL itself never fires after the guard. A convenience fact
      about `Bind` for the worked examples below, not a property of the store. */
  lemma GuardedBindsNotNull(v: Value)
    requires Truthy(v)
    ensures BindsNotNull(v) <==> !v.Container? && !TooLarge(v)
  {
  }

  /** The database file story_db.sqlite: whether the table exists, its rows, and the
      next id AUTOINCREMENT issues. */
  class StoriesFile {
    var hasTable: bool
    var rows: seq<StoryRow>
    var nextId: int

    ghost predicate Valid()
      reads this
    {
      (!hasTable ==> rows == []) && 1 <= nextId && IdsBelow(rows, nextId)
    }

    /** A database file that does not exist yet. */
    constructor ()
      ensures Valid() && !hasTable && rows == [] && nextId == 1
    {
      hasTable, rows, nextId := false, [], 1;
    }
  }

  /** How `init_db` ends. */
  datatype InitOutcome =
    | Initialized
    | NotAContextManager    // an exception that is not a sqlite3.Error, so the handler lets it pass

  /** `init_db` as written: `with get_db_connection as conn` uses the function itself,
      not a connection, as the context manager, so the `with` raises before any
      statement runs. The exception is not a `sqlite3.Error` (a TypeError from Python
      3.11 on, an AttributeError before), so the handler does not catch it. The file is
      not touched and no table is created. */
  method InitDbAsWritten(file: StoriesFile) returns (outcome: InitOutcome)
    requires file.Valid()
    ensures outcome == NotAContextManager
  {
    outcome := NotAContextManager;
  }

  /** `init_db` with the connection factory called: CREATE TABLE IF NOT EXISTS, which
      keeps any rows already stored. */
  method InitDb(file: StoriesFile) returns (outcome: InitOutcome)
    requires file.Valid()
    modifies file
    ensures file.Valid() && outcome == Initialized
    ensures file.hasTable && file.rows == old(file.rows) && file.nextId == old(file.nextId)
  {
    file.hasTable := true;
    outcome := Initialized;
  }

  /** `save_story(title, content, image_url=None)`: False with nothing stored when title
      or content is falsy or the INSERT raises a `sqlite3.Error` (no table, a list or
      dict, a None in a NOT NULL column); an int out of range raises OverflowError past
      the handler; otherwise one row under a fresh id, and True. */
  method SaveStory(file: StoriesFile, title: Value, content: Value, imageUrl: Value, now: string)
    returns (outcome: Outcome<bool>)
    requires file.Valid()
    modifies file
    ensures file.Valid()
    ensures outcome == Overflowed <==>
              Truthy(title) && Truthy(content) && InsertOverflows(old(file.hasTable), title, content, imageUrl)
    ensures outcome.Returned? ==>
              outcome.value == (Truthy(title) && Truthy(content) && InsertAccepted(old(file.hasTable), title, content, imageUrl))
    ensures outcome == Returned(true) ==>
              file.rows == old(file.rows) + [StoryRow(old(file.nextId), Cell(title), Cell(content), now, Cell(imageUrl))]
    ensures outcome == Returned(true) ==> file.nextId == old(file.nextId) + 1
    ensures outcome == Returned(true) ==> forall k :: 0 <= k < |old(file.rows)| ==> old(file.rows)[k].id < old(file.nextId)
    ensures outcome != Returned(true) ==> file.rows == old(file.rows) && file.nextId == old(file.nextId)
    ensures file.hasTable == old(file.hasTable)
  {
    if !Truthy(title) || !Truthy(content) || !file.hasTable {
      return Returned(false);
    }
    if BindOverflows([title, content, imageUrl]) {
      return Overflowed;
    }
    if !InsertAccepted(file.hasTable, title, content, imageUrl) {
      return Returned(false);
    }
    InsertOutcomesExclusive(file.hasTable, title, content, imageUrl);
    var row := StoryRow(file.nextId, Cell(title), Cell(content), now, Cell(imageUrl));
    file.rows := file.rows + [row];
    file.nextId := file.nextId + 1;
    outcome := Returned(true);
  }

  /** `get_all_stories`: every row as its dict, in id order; [] when the SELECT raises
      because the table does not exist. */
  method GetAllStories(file: StoriesFile) returns (stories: seq<StoryDict>)
    requires file.Valid()
    ensures !file.hasTable ==> stories == []
    ensures file.hasTable ==> stories == Dicts(file.rows)
    ensures forall i, j :: 0 <= i < j < |stories| ==> stories[i].id < stories[j].id
  {
    if !file.hasTable {
      return [];
    }
    stories := Dicts(file.rows);
  }

  /** A fresh database file with init_db as written: the table is never created, so
      save_story fails whatever it is given and get_all_stories finds nothing. */
  method FreshStoreAsWritten(title: Value, content: Value, imageUrl: Value, now: string)
    returns (outcome: InitOutcome, saved: Outcome<bool>, stories: seq<StoryDict>)
    ensures outcome == NotAContextManager && saved == Returned(false) && stories == []
  {
    var file := new StoriesFile();
    outcome := InitDbAsWritten(file);
    saved := SaveStory(file, title, content, imageUrl, now);
    stories := GetAllStories(file);
  }

  /** The same with the corrected init_db: a story that passes the guard and can be
      bound is saved under id 1 and listed back unchanged. */
  method FreshStoreInitialized(title: Value, content: Value, imageUrl: Value, now: string)
    returns (outcome: InitOutcome, saved: Outcome<bool>, stories: seq<StoryDict>)
    requires Truthy(title) && Truthy(content)
    requires !title.Container? && !content.Container? && !imageUrl.Container?
    requires !TooLarge(title) && !TooLarge(content) && !TooLarge(imageUrl)
    ensures outcome == Initialized && saved == Returned(true)
    ensures stories == [StoryDict(1, Cell(title), Cell(content), now, Cell(imageUrl))]
  {
    var file := new StoriesFile();
    outcome := InitDb(file);
    GuardedBindsNotNull(title);
    GuardedBindsNotNull(content);
    InsertOutcomesExclusive(true, title, content, imageUrl);
    saved := SaveStory(file, title, content, imageUrl, now);
    stories := GetAllStories(file);
  }
}
