/**
 * What the `sqlite3` module does with a Python value bound to a `?` parameter.
 * Column type affinity (a text '5' read as 5 in an INTEGER column) is not modelled:
 * a cell keeps the kind of value it was bound from.
 */
module Sqlite {
  import opened PyValue

  /** A value stored in a cell or compared in a WHERE clause. */
  datatype SqlValue = SqlNull | SqlInteger(n: int) | SqlText(t: string)

  /** SQLite's INTEGER is a signed 64-bit value. */
  const MinInteger: int := -0x8000_0000_0000_0000
  const MaxInteger: int := 0x7FFF_FFFF_FFFF_FFFF

  /** The text of the OverflowError sqlite3 raises for an int it cannot store. */
  const OverflowText := "Python int too large to convert to SQLite INTEGER"

  /** A Python int outside SQLite's INTEGER range. Binding it raises OverflowError,
      which is not a `sqlite3.Error`. */
  predicate TooLarge(v: Value) {
    v.Int? && !(MinInteger <= v.i <= MaxInteger)
  }

  /** The SQL value a Python argument is bound to; None when sqlite3 refuses the
      argument: a list or dict ("Error binding parameter", a `sqlite3.Error`) or an
      int out of range (OverflowError). */
  function Bind(v: Value): (x: Option<SqlValue>)
    ensures x == None <==> v.Container? || TooLarge(v)
  {
    match v
    case Null => Some(SqlNull)
    case Bool(b) => Some(SqlInteger(if b then 1 else 0))
    case Int(i) => if MinInteger <= i <= MaxInteger then Some(SqlInteger(i)) else None
    case Str(s) => Some(SqlText(s))
    case Container(_, _) => None
  }

  /** The cell a bound argument is stored in (NULL for one that cannot be bound,
      which never reaches a table). */
  function Cell(v: Value): SqlValue {
    match Bind(v)
    case Some(x) => x
    case None => SqlNull
  }

  /** A value that can be stored in a NOT NULL column. */
  predicate BindsNotNull(v: Value) {
    Bind(v).Some? && Bind(v).value != SqlNull
  }

  /** Parameters are bound left to right and the first one that cannot be bound ends
      the statement: the statement raises OverflowError exactly when that first
      failure is an int out of range. */
  predicate BindOverflows(params: seq<Value>)
    decreases |params|
  {
    params != [] && if Bind(params[0]).None? then TooLarge(params[0]) else BindOverflows(params[1..])
  }

  /** The statement overflows exactly when some parameter is an int out of range and
      every parameter before it can be bound. */
  lemma {:induction false} BindOverflowsIff(params: seq<Value>)
    ensures BindOverflows(params) <==>
              exists k :: 0 <= k < |params| && TooLarge(params[k]) && forall j :: 0 <= j < k ==> Bind(params[j]).Some?
    decreases |params|
  {
    if params != [] {
      BindOverflowsIff(params[1..]);
      if BindOverflows(params) && Bind(params[0]).Some? {
        var k :| 0 <= k < |params[1..]| && TooLarge(params[1..][k]) && forall j :: 0 <= j < k ==> Bind(params[1..][j]).Some?;
        assert forall j :: 0 <= j < k + 1 ==> Bind(params[j]).Some? by {
          forall j | 0 <= j < k + 1 ensures Bind(params[j]).Some? {
            if j > 0 {
              assert params[j] == params[1..][j - 1];
            }
          }
        }
        assert TooLarge(params[k + 1]);
      }
      if !BindOverflows(params) && Bind(params[0]).Some? {
        forall k | 0 <= k < |params| && TooLarge(params[k]) ensures exists j :: 0 <= j < k && Bind(params[j]).None? {
          assert k > 0;
          assert params[k] == params[1..][k - 1];
          var j :| 0 <= j < k - 1 && Bind(params[1..][j]).None?;
          assert Bind(params[j + 1]).None?;
        }
      }
    }
  }

  /** A statement whose parameters all bind does not overflow. */
  lemma {:induction false} BoundNoOverflow(params: seq<Value>)
    requires forall k :: 0 <= k < |params| ==> Bind(params[k]).Some?
    ensures !BindOverflows(params)
    decreases |params|
  {
    if params != [] {
      assert forall k :: 0 <= k < |params[1..]| ==> Bind(params[1..][k]).Some? by {
        forall k | 0 <= k < |params[1..]| ensures Bind(params[1..][k]).Some? {
          assert params[1..][k] == params[k + 1];
        }
      }
      BoundNoOverflow(params[1..]);
    }
  }

  /** How a store call ends: it returns, or the OverflowError of an out-of-range int
      escapes it, since its handler catches only `sqlite3.Error`. */
  datatype Outcome<T> = Returned(value: T) | Overflowed
}
