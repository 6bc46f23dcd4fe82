/**
  Records: the values, record shapes and table store that the ORM layer of log2sql works on.

  SQLAlchemy and the database behind it are replaced by an in-memory store of three tables,
  each a sequence of records. A record is a map from column name to value, and every stored
  record carries all the columns of its entity, an integer `id` among them.
*/
module Records {

  datatype Option<T> = None | Some(value: T)

  /** The exceptions the modelled code can raise, by kind. */
  datatype Error =
    | KeyError(key: string)        // a dict lookup of a key the dict does not hold
    | StorageError                 // the session refuses to run a statement (it needs a rollback, or a commit failed)
    | NotPersisted                 // session.delete of a record that the table does not hold
    | NotAnIndex                   // a list indexed by something that is not an integer
    | IndexOutOfRange              // a list indexed past either end
    | NotCallable(name: string)    // a call of a value that is a string, not a function
    | UnknownFilterKey             // `filter_by` on a name that is not a column of the entity

  datatype Result<T> = Ok(value: T) | Err(error: Error)

  /** Column values: SQL NULL (Python None), integers, floats, strings, booleans. */
  datatype Value = Null | Int(i: int) | Real(r: real) | Str(s: string) | Bool(b: bool)

  /** The three mapped classes. */
  datatype Entity = User | LoggingLevel | LoggingEvent

  /** A record, a filter or a caller's dict: column (or key) name to value. */
  type Fields = map<string, Value>

  /** The columns each mapped class declares; each has the integer primary key `id`. */
  function Columns(e: Entity): (c: set<string>)
    ensures "id" in c
  {
    match e
    case User => {"id", "alias", "first_name", "last_name"}
    case LoggingLevel => {"id", "num", "name"}
    case LoggingEvent =>
      {"id", "user_id", "logging_level_id",
       "args", "created", "exc_info", "exc_text", "filename", "funcName", "lineno",
       "module", "msecs", "msg", "name", "pathname", "process", "processName",
       "relativeCreated", "stack_info", "thread", "threadName"}
  }

  /** `filter_by` semantics: the record equals the filter on every key the filter names. */
  predicate Matches(row: Fields, filter: Fields)
    ensures Matches(row, filter) ==> filter.Keys <= row.Keys
    ensures filter == map[] ==> Matches(row, filter)
  {
    forall k :: k in filter ==> k in row && row[k] == filter[k]
  }

  /** The records of a table that a `filter_by` query returns, in table order. */
  function Select(rows: seq<Fields>, filter: Fields): (r: seq<Fields>)
    ensures |r| <= |rows|
    ensures forall x :: x in r <==> x in rows && Matches(x, filter)
  {
    if rows == [] then []
    else if Matches(rows[0], filter) then [rows[0]] + Select(rows[1..], filter)
    else Select(rows[1..], filter)
  }

  /** A query with no filter at all returns every record of the table. */
  lemma {:induction false} SelectAll(rows: seq<Fields>)
    ensures Select(rows, map[]) == rows
  {
    if rows != [] {
      SelectAll(rows[1..]);
      assert rows == [rows[0]] + rows[1..];
    }
  }

  /** Appending a record to a table adds it to a query's answer exactly when it matches. */
  lemma {:induction false} SelectAppend(rows: seq<Fields>, x: Fields, filter: Fields)
    ensures Select(rows + [x], filter) == Select(rows, filter) + (if Matches(x, filter) then [x] else [])
  {
    if rows == [] {
      assert rows + [x] == [x];
    } else {
      assert (rows + [x])[1..] == rows[1..] + [x];
      SelectAppend(rows[1..], x, filter);
    }
  }

  /** A stored record of entity `e`: all of its columns, and a positive integer id. */
  predicate Shaped(e: Entity, row: Fields)
  {
    row.Keys == Columns(e) && "id" in row && row["id"].Int? && row["id"].i >= 1
  }

  /** A table: every record shaped, and no two records with the same id (the primary key). */
  ghost predicate WellFormed(e: Entity, rows: seq<Fields>)
  {
    && (forall i :: 0 <= i < |rows| ==> Shaped(e, rows[i]))
    && (forall i, j :: 0 <= i < j < |rows| ==> rows[i]["id"] != rows[j]["id"])
  }

  /** A filter naming a non-column matches no record of a well-formed table. */
  lemma SelectUnknownColumn(e: Entity, rows: seq<Fields>, filter: Fields)
    requires WellFormed(e, rows) && !(filter.Keys <= Columns(e))
    ensures Select(rows, filter) == []
  {
    forall r | r in rows ensures !Matches(r, filter) {
      var i :| 0 <= i < |rows| && rows[i] == r;
      assert r.Keys == Columns(e);
    }
    if Select(rows, filter) != [] {
      assert Select(rows, filter)[0] in Select(rows, filter);
    }
  }

  /** The largest id in a table, 0 for an empty table. */
  function MaxId(rows: seq<Fields>): (m: nat)
    requires forall i :: 0 <= i < |rows| ==> "id" in rows[i] && rows[i]["id"].Int?
    ensures forall r: Fields :: r in rows ==> r["id"].i <= m
    ensures m == 0 || exists r: Fields :: r in rows && r["id"].i == m
  {
    if rows == [] then 0
    else
      var rest := MaxId(rows[1..]);
      if rows[0]["id"].i > rest then rows[0]["id"].i else rest
  }

  /** SQLite's rowid rule for an INTEGER PRIMARY KEY: one more than the largest id in use. */
  function NextId(rows: seq<Fields>): (n: nat)
    requires forall i :: 0 <= i < |rows| ==> "id" in rows[i] && rows[i]["id"].Int?
    ensures n >= 1
    ensures forall r :: r in rows ==> r["id"] != Int(n)
  {
    MaxId(rows) + 1
  }

  /**
    The record `entity(**data)` constructs, with the given id: it holds exactly the columns of
    its entity, each declared column takes its value from `data`, and a column `data` does not
    mention is NULL.
  */
  function Build(e: Entity, data: Fields, id: Value): (r: Fields)
    ensures r.Keys == Columns(e) && r["id"] == id
    ensures forall c :: c in Columns(e) && c != "id" && c in data ==> r[c] == data[c]
    ensures forall c :: c in Columns(e) && c != "id" && c !in data ==> r[c] == Null
  {
    map c | c in Columns(e) :: if c == "id" then id else if c in data then data[c] else Null
  }

  /** A record built from `data` matches `data` as a filter when `data` names only non-id columns. */
  lemma BuildMatches(e: Entity, data: Fields, id: Value)
    requires data.Keys <= Columns(e) - {"id"}
    ensures Matches(Build(e, data, id), data)
  {
  }

  /** Appending a record with the next id keeps a table well-formed: the new id is fresh. */
  lemma AppendKeepsWellFormed(e: Entity, rows: seq<Fields>, data: Fields)
    requires WellFormed(e, rows)
    ensures WellFormed(e, rows + [Build(e, data, Int(NextId(rows)))])
  {
    var rec := Build(e, data, Int(NextId(rows)));
    var rows' := rows + [rec];
    forall i | 0 <= i < |rows'| ensures Shaped(e, rows'[i]) {
      if i < |rows| {
        assert rows'[i] == rows[i];
      }
    }
    forall i, j | 0 <= i < j < |rows'| ensures rows'[i]["id"] != rows'[j]["id"] {
      assert rows'[i] == rows[i];
      if j == |rows| {
        assert rows'[j] == rec;
      } else {
        assert rows'[j] == rows[j];
      }
    }
  }

  /** The position of a record in a table. */
  function IndexOf(rows: seq<Fields>, row: Fields): (i: nat)
    requires row in rows
    ensures i < |rows| && rows[i] == row
    ensures forall j :: 0 <= j < i ==> rows[j] != row
  {
    if rows[0] == row then 0 else 1 + IndexOf(rows[1..], row)
  }

  /** The table with the record at position `i` taken out. */
  function RemoveAt(rows: seq<Fields>, i: nat): (r: seq<Fields>)
    requires i < |rows|
    ensures |r| == |rows| - 1
    ensures forall k :: 0 <= k < i ==> r[k] == rows[k]
    ensures forall k :: i <= k < |r| ==> r[k] == rows[k + 1]
  {
    rows[..i] + rows[i + 1..]
  }

  /**
    Taking a record out of a well-formed table removes that record and no other: every other
    record stays, and the table stays well-formed.
  */
  lemma RemoveKeepsOthers(e: Entity, rows: seq<Fields>, row: Fields)
    requires WellFormed(e, rows) && row in rows
    ensures var r := RemoveAt(rows, IndexOf(rows, row));
      && WellFormed(e, r)
      && |r| == |rows| - 1
      && row !in r
      && forall x :: x in r <==> x in rows && x != row
  {
    var i := IndexOf(rows, row);
    var r := RemoveAt(rows, i);
    // the position in `rows` of the record at position k of `r`
    assert forall k :: 0 <= k < |r| ==> r[k] == rows[if k < i then k else k + 1];
    forall x | x in r ensures x in rows && x != row {
      var k :| 0 <= k < |r| && r[k] == x;
      var p := if k < i then k else k + 1;
      assert rows[p] == x && p != i;
      if p < i {
        assert rows[p]["id"] != rows[i]["id"];
      } else {
        assert rows[i]["id"] != rows[p]["id"];
      }
    }
    forall x | x in rows && x != row ensures x in r {
      var p :| 0 <= p < |rows| && rows[p] == x;
      if p < i {
        assert r[p] == x;
      } else {
        assert p != i;
        assert r[p - 1] == x;
      }
    }
    forall k1, k2 | 0 <= k1 < k2 < |r| ensures r[k1]["id"] != r[k2]["id"] {
      var p1 := if k1 < i then k1 else k1 + 1;
      var p2 := if k2 < i then k2 else k2 + 1;
      assert r[k1] == rows[p1] && r[k2] == rows[p2] && p1 < p2;
    }
  }

  /** The database: the three tables. */
  datatype Tables = Tables(users: seq<Fields>, levels: seq<Fields>, events: seq<Fields>)
  {
    function Get(e: Entity): seq<Fields>
    {
      match e
      case User => users
      case LoggingLevel => levels
      case LoggingEvent => events
    }

    /** The database with the table of `e` replaced and the other two kept. */
    function Put(e: Entity, rows: seq<Fields>): (t: Tables)
      ensures t.Get(e) == rows
      ensures forall e' :: e' != e ==> t.Get(e') == Get(e')
    {
      match e
      case User => this.(users := rows)
      case LoggingLevel => this.(levels := rows)
      case LoggingEvent => this.(events := rows)
    }

    ghost predicate Valid()
      ensures Valid() ==> forall e :: WellFormed(e, Get(e))
    {
      WellFormed(User, users) && WellFormed(LoggingLevel, levels) && WellFormed(LoggingEvent, events)
    }
  }
}
