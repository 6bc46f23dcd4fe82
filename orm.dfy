/**
  Orm: the generic create / query / delete interface of log2sql (class ORM), over the
  in-memory store of module Records instead of a SQLAlchemy session.

  The session state is the database contents plus one flag, `needsRollback`: a commit that
  fails leaves a SQLAlchemy session refusing every later statement until it is rolled back,
  and this code never rolls back. Whether a commit goes through is not decided by the code,
  so each operation that commits takes its outcome as a parameter, `commitOk`.
*/
module Orm {
  import opened Records

  /** A caller's Python dict, which the ORM may update in place. */
  class Dict {
    var entries: Fields

    constructor (entries: Fields)
      ensures this.entries == entries
    {
      this.entries := entries;
    }
  }

  /**
    The filter `query` applies: `data or {}` updated with the keyword filters. Its keys are the
    union of both, and a keyword filter wins over `data` on a key they share. With no `data`
    (None, or an empty dict) it is exactly the keyword filters.
  */
  function QueryFilter(data: Option<Fields>, kw: Fields): (f: Fields)
    ensures f.Keys == kw.Keys + (if data.Some? then data.value.Keys else {})
    ensures forall k :: k in kw ==> f[k] == kw[k]
    ensures data.Some? ==> forall k :: k in data.value && k !in kw ==> f[k] == data.value[k]
    ensures data.None? ==> f == kw
  {
    match data
    case None => kw
    case Some(d) => d + kw
  }

  /** The session state after an operation, and what the operation returned or raised. */
  datatype Step<T> = Step(db: Tables, needsRollback: bool, result: Result<T>)

  /**
    `create(entity, data, return_existing)`. With `return_existing`, the existence query raises
    when `data` names a non-column, or when the session needs a rollback; a record matching every
    field of `data` is returned and nothing changes. Otherwise the record `entity(**data)` is
    constructed and added; a failed commit is swallowed, the record is still returned (with no
    id), the table is unchanged and the session is left needing a rollback.
  */
  function CreateEffect(db: Tables, needsRollback: bool, e: Entity, data: Fields,
                        returnExisting: bool, commitOk: bool): (s: Step<Fields>)
    requires db.Valid()
    ensures s.db.Valid()
    ensures forall e' :: e' != e ==> s.db.Get(e') == db.Get(e')
    ensures needsRollback ==> s.needsRollback && s.db == db
    // only the existence query can raise: `filter_by` on a non-column, or a session that needs a rollback
    ensures s.result.Err? <==> returnExisting && (!(data.Keys <= Columns(e)) || needsRollback)
    ensures s.result.Err? ==>
      && s.db == db && s.needsRollback == needsRollback
      && s.result.error == if data.Keys <= Columns(e) then StorageError else UnknownFilterKey
    // an existing match is returned and nothing changes
    ensures returnExisting && !needsRollback && Select(db.Get(e), data) != [] ==>
      && s.db == db && !s.needsRollback
      && s.result.Ok? && s.result.value in db.Get(e) && Matches(s.result.value, data)
    // otherwise a new record is built from `data`, and stored exactly when the commit succeeds
    ensures s.result.Ok? && !(returnExisting && Select(db.Get(e), data) != []) ==>
      var rec := s.result.value;
      && "id" in rec && rec == Build(e, data, rec["id"])
      && if needsRollback || !commitOk then
           s.db == db && s.needsRollback && rec["id"] == Null
         else
           && s.db.Get(e) == db.Get(e) + [rec] && !s.needsRollback
           && forall r :: r in db.Get(e) ==> r["id"] != rec["id"]
  {
    if returnExisting && !(data.Keys <= Columns(e)) then
      SelectUnknownColumn(e, db.Get(e), data);
      Step(db, needsRollback, Err(UnknownFilterKey))
    else if returnExisting && needsRollback then
      Step(db, needsRollback, Err(StorageError))
    else if returnExisting && Select(db.Get(e), data) != [] then
      Step(db, needsRollback, Ok(Select(db.Get(e), data)[0]))
    else if needsRollback || !commitOk then
      Step(db, true, Ok(Build(e, data, Null)))
    else
      var rows := db.Get(e);
      assert forall r :: r in rows ==> Shaped(e, r);
      var rec := Build(e, data, Int(NextId(rows)));
      AppendKeepsWellFormed(e, rows, data);
      Step(db.Put(e, rows + [rec]), false, Ok(rec))
  }

  /**
    `delete(record)`: a record the table does not hold cannot be deleted; otherwise it is removed
    and committed. A failed commit raises and leaves the table as it was.
  */
  function DeleteEffect(db: Tables, needsRollback: bool, e: Entity, row: Fields, commitOk: bool): (s: Step<()>)
    requires db.Valid()
    ensures s.db.Valid()
    ensures forall e' :: e' != e ==> s.db.Get(e') == db.Get(e')
    ensures row !in db.Get(e) ==> s == Step(db, needsRollback, Err(NotPersisted))
    ensures row in db.Get(e) && (needsRollback || !commitOk) ==> s == Step(db, true, Err(StorageError))
    ensures row in db.Get(e) && !needsRollback && commitOk ==>
      && s.result == Ok(()) && !s.needsRollback
      && |s.db.Get(e)| == |db.Get(e)| - 1
      && row !in s.db.Get(e)
      && forall x :: x in s.db.Get(e) <==> x in db.Get(e) && x != row
  {
    var rows := db.Get(e);
    if row !in rows then
      Step(db, needsRollback, Err(NotPersisted))
    else if needsRollback || !commitOk then
      Step(db, true, Err(StorageError))
    else
      RemoveKeepsOthers(e, rows, row);
      Step(db.Put(e, RemoveAt(rows, IndexOf(rows, row))), false, Ok(()))
  }

  /** The ORM: a session over the three tables. */
  class ORM {
    var db: Tables
    var needsRollback: bool

    ghost predicate Valid()
      reads this
    {
      db.Valid()
    }

    constructor (db: Tables)
      requires db.Valid()
      ensures Valid() && this.db == db && !needsRollback
    {
      this.db := db;
      this.needsRollback := false;
    }

    /**
      `query(entity, data, **kw)`. A non-empty caller dict `data` is updated in place with the
      keyword filters; an empty one is replaced by a fresh dict and so stays empty. `filter_by`
      raises at once on a name that is not a column; otherwise the answer is the records
      matching the merged filter. (The source runs the query lazily; every caller runs it at
      once, so the model runs it here.)
    */
    method Query(e: Entity, data: Dict?, kw: Fields) returns (r: Result<seq<Fields>>)
      modifies data
      ensures data != null && old(data.entries) != map[] ==> data.entries == old(data.entries) + kw
      ensures data != null && old(data.entries) == map[] ==> data.entries == map[]
      ensures var f := QueryFilter(if data == null then None else Some(old(data.entries)), kw);
        r == if !(f.Keys <= Columns(e)) then Err(UnknownFilterKey)
             else if needsRollback then Err(StorageError)
             else Ok(Select(db.Get(e), f))
    {
      var filter: Fields;
      if data != null && data.entries != map[] {
        data.entries := data.entries + kw;
        filter := data.entries;
      } else {
        // `data or {}`: an empty dict is falsy, so the merge happens on a fresh dict
        assert data != null ==> data.entries + kw == kw;
        filter := kw;
      }
      // _query: session.query(entity).filter_by(**filter)
      if !(filter.Keys <= Columns(e)) {
        r := Err(UnknownFilterKey);
      } else if needsRollback {
        r := Err(StorageError);
      } else {
        r := Ok(Select(db.Get(e), filter));
      }
    }

    /** `create(entity, data, return_existing)`, as CreateEffect states. */
    method Create(e: Entity, data: Fields, returnExisting: bool, commitOk: bool) returns (r: Result<Fields>)
      requires Valid()
      modifies this
      ensures Valid()
      ensures Step(db, needsRollback, r) == CreateEffect(old(db), old(needsRollback), e, data, returnExisting, commitOk)
    {
      if returnExisting {
        // `query(entity, data)` updates the caller's dict with no keyword filters: nothing changes
        var probe := new Dict(data);
        var existing := Query(e, probe, map[]);
        assert QueryFilter(Some(data), map[]) == data;
        if existing.Err? {
          return Err(existing.error);
        }
        if existing.value != [] {
          return Ok(existing.value[0]);
        }
      }
      var rec: Fields;
      if needsRollback || !commitOk {
        // the failed add/commit is swallowed; the record never got an id
        rec := Build(e, data, Null);
        needsRollback := true;
      } else {
        var rows := db.Get(e);
        assert forall r :: r in rows ==> Shaped(e, r);
        rec := Build(e, data, Int(NextId(rows)));
        AppendKeepsWellFormed(e, rows, data);
        db := db.Put(e, rows + [rec]);
      }
      r := Ok(rec);
    }

    /** `delete(record)` of a record of entity `e`, as DeleteEffect states. */
    method Delete(e: Entity, row: Fields, commitOk: bool) returns (r: Result<()>)
      requires Valid()
      modifies this
      ensures Valid()
      ensures Step(db, needsRollback, r) == DeleteEffect(old(db), old(needsRollback), e, row, commitOk)
    {
      var rows := db.Get(e);
      if row !in rows {
        return Err(NotPersisted);
      }
      if needsRollback || !commitOk {
        needsRollback := true;
        return Err(StorageError);
      }
      RemoveKeepsOthers(e, rows, row);
      db := db.Put(e, RemoveAt(rows, IndexOf(rows, row)));
      r := Ok(());
    }
  }

  /**
    `create` without `return_existing` on a healthy session appends a record even when an
    identical one is already stored: the records matching `data` grow by exactly one.
  */
  lemma CreateAddsDuplicate(db: Tables, e: Entity, data: Fields)
    requires db.Valid()
    requires data.Keys <= Columns(e) - {"id"}
    ensures var s := CreateEffect(db, false, e, data, false, true);
      |Select(s.db.Get(e), data)| == |Select(db.Get(e), data)| + 1
  {
    var s := CreateEffect(db, false, e, data, false, true);
    var rec := s.result.value;
    BuildMatches(e, data, rec["id"]);
    SelectAppend(db.Get(e), rec, data);
  }

  /**
    `create` with `return_existing` is idempotent: once a record exists (created by the first
    call), a second call with the same data returns a matching record and adds nothing.
  */
  lemma CreateReturnExistingIdempotent(db: Tables, e: Entity, data: Fields, commitOk: bool, commitOk': bool)
    requires db.Valid()
    requires data.Keys <= Columns(e) - {"id"}
    ensures var s1 := CreateEffect(db, false, e, data, true, commitOk);
      !s1.needsRollback ==>
        var s2 := CreateEffect(s1.db, false, e, data, true, commitOk');
        && s2.db == s1.db && !s2.needsRollback
        && s2.result.Ok? && Matches(s2.result.value, data)
  {
    var s1 := CreateEffect(db, false, e, data, true, commitOk);
    if !s1.needsRollback {
      var rec := s1.result.value;
      if Select(db.Get(e), data) == [] {
        BuildMatches(e, data, rec["id"]);
        assert rec in s1.db.Get(e);
      }
      assert rec in s1.db.Get(e) && Matches(rec, data);
      assert rec in Select(s1.db.Get(e), data);
    }
  }
}
