/**
 * The story store of the Flask backend (backend_example/database.py): one table,
 * story_data(story_id INTEGER PRIMARY KEY AUTOINCREMENT, genre, age, choice_count,
 * segment_count, content), reached through a connection object.
 *
 * The table lives in the database file (`StoryFile`), which several connections may
 * share: the Flask app opens one and the Author opens another on the same file.
 * A connection (`StoryDatabase`) may be closed; every later statement on it raises a
 * `sqlite3.Error`, which the store's methods turn into False or [].
 */
module StoryStore {
  import opened PyValue
  import opened Sqlite

  /** A row of story_data, as `cursor.fetchall()` yields it: `row[0]` .. `row[5]`. */
  datatype Row = Row(storyId: int, genre: SqlValue, age: SqlValue, choiceCount: SqlValue,
                     segmentCount: SqlValue, content: SqlValue)

  /** The dict the store builds from a row; its keys in column order. */
  datatype StoryRecord = StoryRecord(story_id: int, genre: SqlValue, age: SqlValue, choice_count: SqlValue,
                                     segment_count: SqlValue, content: SqlValue)

  function ToRecord(row: Row): StoryRecord {
    StoryRecord(row.storyId, row.genre, row.age, row.choiceCount, row.segmentCount, row.content)
  }

  /** The list comprehension that turns every row into its dict. */
  function Records(rows: seq<Row>): (records: seq<StoryRecord>)
    ensures |records| == |rows|
    ensures forall k :: 0 <= k < |rows| ==> records[k] == ToRecord(rows[k])
  {
    seq(|rows|, k requires 0 <= k < |rows| => ToRecord(rows[k]))
  }

  /** fetch_story's loop: one dict per fetched row, appended in the order the rows
      came back. */
  method FormatRows(results: seq<Row>) returns (stories: seq<StoryRecord>)
    ensures stories == Records(results)
  {
    stories := [];
    var i := 0;
    while i < |results|
      invariant 0 <= i <= |results|
      invariant stories == Records(results[..i])
    {
      assert results[..i + 1] == results[..i] + [results[i]];
      stories := stories + [ToRecord(results[i])];
      i := i + 1;
    }
    assert results[..i] == results;
  }

  /** Rows are kept in primary-key order, and primary keys are unique. */
  ghost predicate IdsIncreasing(rows: seq<Row>) {
    forall i, j :: 0 <= i < j < |rows| ==> rows[i].storyId < rows[j].storyId
  }

  /** The rows `keep` accepts, in their order: what a WHERE clause leaves. */
  function FilterRows(rows: seq<Row>, keep: Row -> bool): (kept: seq<Row>)
    ensures |kept| <= |rows|
    ensures forall r :: r in kept <==> r in rows && keep(r)
  {
    if rows == [] then []
    else (if keep(rows[0]) then [rows[0]] else []) + FilterRows(rows[1..], keep)
  }

  lemma {:induction false} FilterRowsAppend(a: seq<Row>, b: seq<Row>, keep: Row -> bool)
    ensures FilterRows(a + b, keep) == FilterRows(a, keep) + FilterRows(b, keep)
  {
    if a != [] {
      assert (a + b)[1..] == a[1..] + b;
      FilterRowsAppend(a[1..], b, keep);
    } else {
      assert a + b == b;
    }
  }

  /** A WHERE clause that no row meets selects nothing. */
  lemma {:induction false} FilterNone(rows: seq<Row>, keep: Row -> bool)
    requires forall r :: r in rows ==> !keep(r)
    ensures FilterRows(rows, keep) == []
  {
    if rows != [] {
      assert rows[0] in rows;
      FilterNone(rows[1..], keep);
    }
  }

  /** A WHERE clause keeps the rows in primary-key order. */
  lemma {:induction false} FilterKeepsIncreasing(rows: seq<Row>, keep: Row -> bool)
    requires IdsIncreasing(rows)
    ensures IdsIncreasing(FilterRows(rows, keep))
  {
    if rows != [] {
      var tail := rows[1..];
      FilterKeepsIncreasing(tail, keep);
      var rest := FilterRows(tail, keep);
      forall r | r in rest ensures rows[0].storyId < r.storyId {
        var k :| 0 <= k < |tail| && tail[k] == r;
        assert rows[k + 1] == r;
      }
    }
  }

  /** Applying the same WHERE clause twice removes nothing more. */
  lemma {:induction false} FilterTwice(rows: seq<Row>, keep: Row -> bool)
    ensures FilterRows(FilterRows(rows, keep), keep) == FilterRows(rows, keep)
  {
    if rows != [] {
      FilterTwice(rows[1..], keep);
      var rest := FilterRows(rows[1..], keep);
      if keep(rows[0]) {
        assert ([rows[0]] + rest)[1..] == rest;
      } else {
        assert [] + rest == rest;
      }
    }
  }

  /** One `AND column = ?` of fetch_story, or no condition when the argument is None. */
  datatype Condition = AnyValue | Equal(value: SqlValue)

  predicate Holds(c: Condition, x: SqlValue) {
    c.AnyValue? || c.value == x
  }

  /** The conditions on story_id, genre and age that fetch_story adds. */
  datatype Filter = Filter(storyId: Condition, genre: Condition, age: Condition)

  /** The condition for one optional argument: none for None (`is not None`, so 0,
      False and "" still filter); None when sqlite3 cannot bind the argument. */
  function ConditionOf(v: Value): (c: Option<Condition>)
    ensures v == Null <==> c == Some(AnyValue)
    ensures c == None <==> Bind(v) == None
  {
    if v == Null then Some(AnyValue)
    else match Bind(v)
      case Some(x) => Some(Equal(x))
      case None => None
  }

  function FilterOf(storyId: Value, genre: Value, age: Value): Option<Filter> {
    match (ConditionOf(storyId), ConditionOf(genre), ConditionOf(age))
    case (Some(i), Some(g), Some(a)) => Some(Filter(i, g, a))
    case _ => None
  }

  predicate Matches(r: Row, f: Filter) {
    Holds(f.storyId, SqlInteger(r.storyId)) && Holds(f.genre, r.genre) && Holds(f.age, r.age)
  }

  /** `SELECT * FROM story_data WHERE 1=1 AND ...`. */
  function Select(rows: seq<Row>, f: Filter): seq<Row> {
    FilterRows(rows, (r: Row) => Matches(r, f))
  }

  /** `DELETE FROM story_data WHERE story_id = ?` keeps the rows whose id differs. */
  function Without(rows: seq<Row>, id: SqlValue): seq<Row> {
    FilterRows(rows, (r: Row) => SqlInteger(r.storyId) != id)
  }

  /** fetch_story returns exactly the rows meeting every condition it was given. */
  lemma SelectMembers(rows: seq<Row>, f: Filter, r: Row)
    ensures r in Select(rows, f) <==> r in rows && Matches(r, f)
  {
  }

  /** With no argument, fetch_story selects every row, in order, as fetch_all_stories does. */
  lemma {:induction false} SelectWithoutConditions(rows: seq<Row>)
    ensures Select(rows, Filter(AnyValue, AnyValue, AnyValue)) == rows
  {
    if rows != [] {
      SelectWithoutConditions(rows[1..]);
      assert rows == [rows[0]] + rows[1..];
    }
  }

  /** After a delete, fetching by that id finds nothing. */
  lemma DeleteThenFetch(rows: seq<Row>, id: int)
    ensures Select(Without(rows, SqlInteger(id)), Filter(Equal(SqlInteger(id)), AnyValue, AnyValue)) == []
  {
    FilterNone(Without(rows, SqlInteger(id)), (r: Row) => Matches(r, Filter(Equal(SqlInteger(id)), AnyValue, AnyValue)));
  }

  /** Deleting the same id twice leaves what deleting it once left. */
  lemma DeleteIdempotent(rows: seq<Row>, id: SqlValue)
    ensures Without(Without(rows, id), id) == Without(rows, id)
  {
    FilterTwice(rows, (r: Row) => SqlInteger(r.storyId) != id);
  }

  /** A delete keeps every row with another id and removes every row with this one. */
  lemma DeleteKeepsOthers(rows: seq<Row>, id: SqlValue, r: Row)
    ensures r in Without(rows, id) <==> r in rows && SqlInteger(r.storyId) != id
  {
  }

  /** Saving a row whose id is above every stored id, then fetching by that id,
      gives back exactly that row. */
  lemma {:induction false} SaveThenFetch(rows: seq<Row>, row: Row)
    requires forall k :: 0 <= k < |rows| ==> rows[k].storyId < row.storyId
    ensures Select(rows + [row], Filter(Equal(SqlInteger(row.storyId)), AnyValue, AnyValue)) == [row]
  {
    var f := Filter(Equal(SqlInteger(row.storyId)), AnyValue, AnyValue);
    FilterRowsAppend(rows, [row], (r: Row) => Matches(r, f));
    FilterNone(rows, (r: Row) => Matches(r, f));
    assert [row][1..] == [];
  }

  /** What save_story accepts: genre, age, choice_count and segment_count must be
      str or int (bool included); content is not type-checked but a NOT NULL column
      rejects None. Every value must bind: sqlite3 refuses a list or dict and an int
      outside SQLite's range. The statement also fails on a closed connection. */
  predicate SaveAccepted(open: bool, genre: Value, age: Value, choiceCount: Value,
                         segmentCount: Value, content: Value)
  {
    && IsStrOrInt(genre) && IsStrOrInt(age) && IsStrOrInt(choiceCount) && IsStrOrInt(segmentCount)
    && Bind(genre).Some? && Bind(age).Some? && Bind(choiceCount).Some? && Bind(segmentCount).Some?
    && BindsNotNull(content)
    && open
  }

  /** When save_story raises OverflowError instead of returning: the type check passed,
      the connection is open, and the first of the five values that cannot be bound is
      an int out of range. */
  predicate SaveOverflows(open: bool, genre: Value, age: Value, choiceCount: Value,
                          segmentCount: Value, content: Value)
  {
    && IsStrOrInt(genre) && IsStrOrInt(age) && IsStrOrInt(choiceCount) && IsStrOrInt(segmentCount)
    && open
    && BindOverflows([genre, age, choiceCount, segmentCount, content])
  }

  /** A save either overflows or is judged by SaveAccepted, never both. */
  lemma SaveOutcomesExclusive(open: bool, genre: Value, age: Value, choiceCount: Value,
                              segmentCount: Value, content: Value)
    ensures !(SaveAccepted(open, genre, age, choiceCount, segmentCount, content)
              && SaveOverflows(open, genre, age, choiceCount, segmentCount, content))
  {
    var params := [genre, age, choiceCount, segmentCount, content];
    if SaveAccepted(open, genre, age, choiceCount, segmentCount, content) {
      BoundNoOverflow(params);
    }
  }

  /** The values fetch_story binds: its arguments that are not None, in order. */
  function FetchParams(storyId: Value, genre: Value, age: Value): (params: seq<Value>)
    ensures forall v :: v in params <==> v != Null && (v == storyId || v == genre || v == age)
  {
    (if storyId != Null then [storyId] else []) + (if genre != Null then [genre] else [])
      + (if age != Null then [age] else [])
  }

  /** Every argument binds exactly when fetch_story builds a filter, and then the
      statement does not overflow. */
  lemma FilterOfBinds(storyId: Value, genre: Value, age: Value)
    ensures FilterOf(storyId, genre, age).Some? <==>
              forall k :: 0 <= k < |FetchParams(storyId, genre, age)| ==> Bind(FetchParams(storyId, genre, age)[k]).Some?
    ensures FilterOf(storyId, genre, age).Some? ==> !BindOverflows(FetchParams(storyId, genre, age))
  {
    var params := FetchParams(storyId, genre, age);
    if FilterOf(storyId, genre, age).Some? {
      assert forall k :: 0 <= k < |params| ==> params[k] in params;
      BoundNoOverflow(params);
    } else {
      var v := if ConditionOf(storyId).None? then storyId else if ConditionOf(genre).None? then genre else age;
      assert v in params;
    }
  }

  /** The row save_story inserts under the id AUTOINCREMENT hands out. */
  function NewRow(id: int, genre: Value, age: Value, choiceCount: Value, segmentCount: Value,
                  content: Value): Row
  {
    Row(id, Cell(genre), Cell(age), Cell(choiceCount), Cell(segmentCount), Cell(content))
  }

  ghost predicate IdsIssued(rows: seq<Row>, issued: set<int>) {
    forall r :: r in rows ==> r.storyId in issued
  }

  ghost predicate IssuedBelow(issued: set<int>, nextId: int) {
    1 <= nextId && forall id :: id in issued ==> 1 <= id < nextId
  }

  /** Appending a row under the next id keeps the file's invariant. */
  lemma AppendKeepsInvariant(rows: seq<Row>, issued: set<int>, nextId: int, row: Row)
    requires IdsIncreasing(rows) && IdsIssued(rows, issued) && IssuedBelow(issued, nextId)
    requires row.storyId == nextId
    ensures IdsIncreasing(rows + [row]) && IdsIssued(rows + [row], issued + {nextId})
    ensures IssuedBelow(issued + {nextId}, nextId + 1)
  {
    forall k | 0 <= k < |rows| ensures rows[k].storyId < nextId {
      assert rows[k] in rows;
    }
  }

  /** The database file: whether story_data exists, its rows, and the next id
      AUTOINCREMENT will issue (one above the largest id ever issued). */
  class StoryFile {
    var hasTable: bool
    var rows: seq<Row>
    var nextId: int
    /** Every id ever issued, deleted or not. */
    ghost var issued: set<int>

    ghost predicate Valid()
      reads this
    {
      && (!hasTable ==> rows == [] && issued == {})
      && IdsIncreasing(rows)
      && IdsIssued(rows, issued)
      && IssuedBelow(issued, nextId)
    }

    /** A database file that does not exist yet. */
    constructor ()
      ensures Valid() && !hasTable && rows == [] && nextId == 1
    {
      hasTable, rows, nextId, issued := false, [], 1, {};
    }

    /** The INSERT once every value is bound and accepted: one row under the id
        AUTOINCREMENT hands out, above every id issued before. */
    method Insert(genre: Value, age: Value, choiceCount: Value, segmentCount: Value, content: Value)
      requires Valid() && hasTable
      modifies this
      ensures Valid() && hasTable
      ensures rows == old(rows) + [NewRow(old(nextId), genre, age, choiceCount, segmentCount, content)]
      ensures nextId == old(nextId) + 1 && issued == old(issued) + {old(nextId)}
      ensures forall id :: id in old(issued) ==> id < old(nextId)
    {
      var row := NewRow(nextId, genre, age, choiceCount, segmentCount, content);
      AppendKeepsInvariant(rows, issued, nextId, row);
      rows := rows + [row];
      issued := issued + {nextId};
      nextId := nextId + 1;
    }
  }

  /** `StoryDatabase`: one connection to a database file. */
  class StoryDatabase {
    const file: StoryFile
    var open: bool
    /** How many times close() was called. */
    ghost var closes: nat

    ghost predicate Valid()
      reads this, file
    {
      file.Valid() && (open ==> file.hasTable)
    }

    /** `StoryDatabase(db_path)`: connect, then create_table. */
    constructor (file: StoryFile)
      requires file.Valid()
      modifies file
      ensures Valid() && this.file == file && open && closes == 0
      ensures file.hasTable && file.rows == old(file.rows)
      ensures file.nextId == old(file.nextId) && file.issued == old(file.issued)
    {
      this.file := file;
      open := true;
      closes := 0;
      new;
      file.hasTable := true;
    }

    /** `create_table`: CREATE TABLE IF NOT EXISTS. On a closed connection it raises
        (`ok` is false); otherwise the table exists afterwards and its rows are as before. */
    method CreateTable() returns (ok: bool)
      requires Valid()
      modifies file
      ensures Valid()
      ensures ok == open
      ensures file.hasTable == (old(file.hasTable) || open)
      ensures file.rows == old(file.rows) && file.nextId == old(file.nextId) && file.issued == old(file.issued)
    {
      ok := open;
      if open {
        file.hasTable := true;
      }
    }

    /** `save_story`: append one row with a fresh id, or return False and change nothing;
        an int out of range raises OverflowError past the handler. */
    method SaveStory(genre: Value, age: Value, choiceCount: Value, segmentCount: Value, content: Value)
      returns (outcome: Outcome<bool>)
      requires Valid()
      modifies file
      ensures Valid()
      ensures outcome == Overflowed <==> SaveOverflows(open, genre, age, choiceCount, segmentCount, content)
      ensures outcome.Returned? ==> outcome.value == SaveAccepted(open, genre, age, choiceCount, segmentCount, content)
      ensures outcome == Returned(true) ==>
                file.rows == old(file.rows) + [NewRow(old(file.nextId), genre, age, choiceCount, segmentCount, content)]
      ensures outcome == Returned(true) ==>
                file.nextId == old(file.nextId) + 1 && file.issued == old(file.issued) + {old(file.nextId)}
      ensures outcome == Returned(true) ==> forall id :: id in old(file.issued) ==> id < old(file.nextId)
      ensures outcome != Returned(true) ==>
                file.rows == old(file.rows) && file.nextId == old(file.nextId) && file.issued == old(file.issued)
      ensures file.hasTable == old(file.hasTable)
    {
      // the isinstance check first, then the INSERT: a closed connection raises before
      // anything is bound, then the values are bound in order, then NOT NULL is checked
      if !(IsStrOrInt(genre) && IsStrOrInt(age) && IsStrOrInt(choiceCount) && IsStrOrInt(segmentCount)) || !open {
        return Returned(false);
      }
      if BindOverflows([genre, age, choiceCount, segmentCount, content]) {
        return Overflowed;
      }
      if !SaveAccepted(open, genre, age, choiceCount, segmentCount, content) {
        return Returned(false);
      }
      SaveOutcomesExclusive(open, genre, age, choiceCount, segmentCount, content);
      file.Insert(genre, age, choiceCount, segmentCount, content);
      outcome := Returned(true);
    }

    /** `fetch_story`: the SELECT with one condition per argument that is not None,
        then a loop that turns each row into its dict. Any `sqlite3.Error` (a closed
        connection, a list or dict argument) yields []; an int argument out of range
        raises OverflowError past the handler. */
    method FetchStory(storyId: Value, genre: Value, age: Value) returns (outcome: Outcome<seq<StoryRecord>>)
      requires Valid()
      ensures !open ==> outcome == Returned([])
      ensures open && BindOverflows(FetchParams(storyId, genre, age)) ==> outcome == Overflowed
      ensures open && !BindOverflows(FetchParams(storyId, genre, age)) && FilterOf(storyId, genre, age) == None ==>
                outcome == Returned([])
      ensures open && FilterOf(storyId, genre, age).Some? ==>
                outcome == Returned(Records(Select(file.rows, FilterOf(storyId, genre, age).value)))
    {
      if !open {
        return Returned([]);
      }
      var filter := FilterOf(storyId, genre, age);
      FilterOfBinds(storyId, genre, age);
      if BindOverflows(FetchParams(storyId, genre, age)) {
        return Overflowed;
      }
      if filter == None {
        return Returned([]);
      }
      var stories := FormatRows(Select(file.rows, filter.value));
      outcome := Returned(stories);
    }

    /** `fetch_all_stories`: every row as its dict, or [] on a closed connection. */
    method FetchAllStories() returns (stories: seq<StoryRecord>)
      requires Valid()
      ensures !open ==> stories == []
      ensures open ==> |stories| == |file.rows|
      ensures open ==> forall k :: 0 <= k < |stories| ==> stories[k] == ToRecord(file.rows[k])
    {
      if !open {
        return [];
      }
      stories := Records(file.rows);
    }

    /** `delete_story`: remove every row with that id. True whether or not a row
        matched; False when the statement raised a `sqlite3.Error` (a closed connection,
        a list or dict id); an id out of range raises OverflowError past the handler. */
    method DeleteStory(storyId: Value) returns (outcome: Outcome<bool>)
      requires Valid()
      modifies file
      ensures Valid()
      ensures outcome == Overflowed <==> open && TooLarge(storyId)
      ensures outcome.Returned? ==> outcome.value == (open && Bind(storyId).Some?)
      ensures outcome == Returned(true) ==> file.rows == Without(old(file.rows), Bind(storyId).value)
      ensures outcome != Returned(true) ==> file.rows == old(file.rows)
      ensures file.nextId == old(file.nextId) && file.issued == old(file.issued)
      ensures file.hasTable == old(file.hasTable)
    {
      if !open {
        return Returned(false);
      }
      if TooLarge(storyId) {
        return Overflowed;
      }
      var id := Bind(storyId);
      if id == None {
        return Returned(false);
      }
      FilterKeepsIncreasing(file.rows, (r: Row) => SqlInteger(r.storyId) != id.value);
      file.rows := Without(file.rows, id.value);
      outcome := Returned(true);
    }

    /** `close`: the connection is closed; closing it again is harmless. */
    method Close()
      requires Valid()
      modifies this
      ensures Valid() && !open && closes == old(closes) + 1
    {
      open := false;
      closes := closes + 1;
    }
  }

  /** The test's story: ("Fantasy", 10, 3, 5, "Once upon a time in a magical forest...")
      saved into a new database and read back with `SELECT *`: one row, id 1, each
      column equal to its input. */
  method FantasyExample() returns (stories: seq<StoryRecord>)
    ensures |stories| == 1
    ensures stories[0] == StoryRecord(1, SqlText("Fantasy"), SqlInteger(10), SqlInteger(3), SqlInteger(5),
                                      SqlText("Once " + "upon a " + "time in a " + "magical " + "forest..."))
  {
    var content := "Once " + "upon a " + "time in a " + "magical " + "forest...";
    var file := new StoryFile();
    var db := new StoryDatabase(file);
    BoundNoOverflow([Str("Fantasy"), Int(10), Int(3), Int(5), Str(content)]);
    var saved := db.SaveStory(Str("Fantasy"), Int(10), Int(3), Int(5), Str(content));
    assert saved == Returned(true);
    stories := db.FetchAllStories();
  }
}
