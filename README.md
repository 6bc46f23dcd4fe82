# log2sql: the record store and log-event submission, in Dafny

log2sql files Python log records into a relational database through SQLAlchemy. This project
models its core and proves properties about it:

- the generic CRUD layer, class `ORM`: `query` (built on `_query`), `create` (with
  `return_existing`) and `delete`;
- the log2sql layer, class `DB`: `submit_new_logging_event` and the `batch` dispatcher.

The SQLAlchemy session and the database are replaced by an in-memory store with three tables:
`User`, `LoggingLevel` and `LoggingEvent`. Each table is a sequence of records. A record maps
column names to values. Its columns are the ones the entity classes declare:
`entities/user.py:11-14`, `entities/logging_level.py:11-13` and `entities/logging_event.py:12-34`.
Ids follow SQLite's rule for an integer primary key: one more than the largest id in use, and 1
in an empty table.

Files:

- `records.dfy` (module `Records`): values, entities, column shapes and `filter_by` matching
  (`Select`). It also has the id rule, the record that `entity(**data)` builds (`Build`), record
  removal, and the store `Tables` with its invariant. The invariant: every record has all of its
  entity's columns, and ids are positive and distinct.
- `orm.dfy` (module `Orm`): class `ORM`, the session. Its state is the tables plus a
  `needsRollback` flag. `Dict` is a caller's mutable dict. `CreateEffect` and `DeleteEffect`
  specify `create` and `delete`, and the methods `ORM.Query`, `ORM.Create` and `ORM.Delete` are
  proved against them.
- `db.dfy` (module `Db`): `Batch`, plus the submission. The submission is specified by
  `ResolveUser`, `ResolveLevel`, `EventPayload` and `SubmitEffect`. The imperative
  `SubmitNewLoggingEvent` (with its four steps) is proved to have exactly that effect. Lemmas
  about `SubmitEffect` give the row counts, the foreign keys, idempotence and where each error
  occurs.

Modelling choices:

- Whether a commit succeeds is not decided by this code. Each committing operation takes the
  outcome as a parameter (`commitOk`, or `Commits` for the three commits of a submission).
- `create` swallows a failed add/commit (`orm.py:170-174`) and still returns the record it
  built. That record has no id (NULL). The session then needs a rollback, and this code never
  issues one. So from then on every query raises `StorageError`, and every later `create`
  swallows its own failure too.
- `query` merges into the caller's dict only when that dict is non-empty. `data or {}` replaces
  an empty dict, which is falsy, with a fresh one (`orm.py:205-206`).
- `filter_by` raises at once when a filter names something that is not a column of the entity
  (`orm.py:139`). The model returns `UnknownFilterKey` before it looks at the session.
- A commit, and the rollback that a failed flush performs, expire every record the session has
  loaded. A later attribute read reloads the record through the session, and a session that
  needs a rollback refuses that reload.
- `DB` inherits from `ORM` in the source. Here the `Db` methods take the `ORM` object as a
  parameter.

Behaviour of the submission worth knowing:

- A record without `levelno` raises `KeyError` at the level lookup (`db.py:47`). By then the
  `User` may already have been created (`SubmitWithoutLevelnoKeepsUser`).
- A record without `levelname` fails only when its level is new. The name is read only on that
  path (`db.py:50-53`), and the deletions at `db.py:60-63` are guarded by `in`.
- `create` swallows a failed insert. If the User's insert fails, the level lookup that follows
  raises `StorageError`. If a new level's insert fails, the call raises `StorageError` when it
  reads `user_record.id` (`db.py:64`). At that point the caller's dict has already lost `levelno`
  and `levelname` but has not gained the two ids (`SubmitFailedLevelCommit`). A failed event
  insert is swallowed, and the call returns normally.

## Model

| member | source | states |
|---|---|---|
| `Records.Columns` | python/log2sql/entities/logging_event.py:12-34 | the column names that each mapped class declares (`user.py:11-14` and `logging_level.py:11-13` for the other two); every class has the integer primary key `id` |
| `Records.Matches` | python/log2sql/orm.py:139 | `filter_by` equality: a matching record has every key of the filter, and the empty filter matches every record |
| `Records.Select` | python/log2sql/orm.py:126-139 | `filter_by` returns a record exactly when it is in the table and equals the filter on every filter key; it never returns more records than the table holds |
| `Records.SelectUnknownColumn` | python/log2sql/orm.py:139 | a filter that names a non-column matches no record of a well-formed table |
| `Records.SelectAll` | python/log2sql/orm.py:205-209 | a query with no `data` and no keyword filters returns every record of the entity |
| `Records.SelectAppend` | python/log2sql/orm.py:171-172 | adding a record to a table adds it to a query's answer exactly when it matches the filter |
| `Records.MaxId` | python/log2sql/entities/user.py:11 | the largest primary key in use: no record's id exceeds it, and it is some record's id (or 0 for an empty table) |
| `Records.NextId` | python/log2sql/entities/logging_level.py:11 | the id given to a new record is at least 1 and differs from every id in its table |
| `Records.Build` | python/log2sql/orm.py:169 | `entity(**data)` has exactly the entity's columns and the given id, takes each other column's value from `data`, and leaves any column that `data` does not mention NULL |
| `Records.BuildMatches` | python/log2sql/orm.py:162-169 | a record built from `data` matches `data` as a query filter |
| `Records.AppendKeepsWellFormed` | python/log2sql/orm.py:169-172 | storing a new record with the next id keeps the table well-formed: ids stay distinct |
| `Records.RemoveKeepsOthers` | python/log2sql/orm.py:187-188 | deleting a stored record removes that record and no other; the table shrinks by one and stays well-formed |
| `Orm.QueryFilter` | python/log2sql/orm.py:205-206 | the query filter has the union of the keys of `data` and the keyword filters; a keyword value wins over a `data` value for the same key; with `data=None` it is exactly the keyword filters |
| `Orm.ORM.Query` | python/log2sql/orm.py:190-209 | a non-empty caller dict `data` gains the keyword filters in place, and an empty one stays empty. A merged filter naming a non-column raises `UnknownFilterKey`, on any session. Otherwise, a session needing a rollback raises `StorageError`, and a healthy one answers with the records matching the merged filter |
| `Orm.CreateEffect` | python/log2sql/orm.py:144-177 | with `return_existing`, the existence query raises `UnknownFilterKey` if `data` names a non-column, or `StorageError` on a session needing a rollback; either way nothing changes. With a match, it returns a matching stored record and changes nothing. Otherwise it returns the record built from `data`: appended with a fresh id if the commit succeeds, or with no id, table unchanged and the session needing a rollback if it fails. Other tables never change, and the store stays well-formed |
| `Orm.ORM.Create` | python/log2sql/orm.py:144-177 | the session method has exactly the effect and result `CreateEffect` gives |
| `Orm.CreateAddsDuplicate` | python/log2sql/orm.py:168-172 | without `return_existing`, a committed create appends a record even when an identical one exists: the records matching `data` grow by exactly one |
| `Orm.CreateReturnExistingIdempotent` | python/log2sql/orm.py:161-172 | after a healthy `create(..., return_existing=True)`, a second identical call returns a matching record and changes nothing |
| `Orm.DeleteEffect` | python/log2sql/orm.py:179-188 | deleting a record the table does not hold raises `NotPersisted`; a failed commit raises `StorageError` and keeps the table; otherwise exactly that record is gone and every other record stays |
| `Orm.ORM.Delete` | python/log2sql/orm.py:179-188 | the session method has exactly the effect and result `DeleteEffect` gives |
| `Db.Batch` | python/log2sql/db.py:9-24 | `batch([])` returns `[]`; any non-empty batch raises on its first instruction: a missing key, a non-integer or out-of-range index, or a call of the string it looked up (negative indices count from the end) |
| `Db.ResolveUser` | python/log2sql/db.py:29-44 | if a User with alias `username` exists, nothing changes; otherwise exactly one User with that alias and a fresh id is appended if the commit succeeds. The returned record has that alias; the other tables never change |
| `Db.ResolveLevel` | python/log2sql/db.py:46-56 | a missing `levelno` raises first; an existing level with that `num` is returned unchanged; otherwise a missing `levelname` raises, or exactly one level with `name = levelname, num = levelno` is appended if the commit succeeds |
| `Db.EventPayload` | python/log2sql/db.py:58-65 | the payload is the log record without `levelno`/`levelname`, with `user_id` and `logging_level_id` added; every other key keeps its value |
| `Db.SubmitEffect` | python/log2sql/db.py:26-66 | a failed submission leaves the events table unchanged. It also leaves the caller's dict unchanged, except after a failed level commit, where only `levelno`/`levelname` are gone. A completed submission has removed `levelno`/`levelname` from the caller's dict and added the two id keys. The store stays well-formed |
| `Db.FindOrCreateUser` | python/log2sql/db.py:29-44 | the imperative user lookup-or-create has exactly the effect `ResolveUser` gives |
| `Db.FindOrCreateLevel` | python/log2sql/db.py:46-56 | the imperative level lookup-or-create has exactly the effect `ResolveLevel` gives |
| `Db.DropLevelFields` | python/log2sql/db.py:59-63 | the caller's dict itself (aliased as `logging_event_data`) loses `levelno` and `levelname` and keeps every other key |
| `Db.AddForeignKeys` | python/log2sql/db.py:64-65 | the caller's dict itself gains `user_id` and `logging_level_id` with the given ids |
| `Db.SubmitNewLoggingEvent` | python/log2sql/db.py:26-66 | the method leaves the session, the caller's log-record dict and its result exactly as `SubmitEffect` gives. It raises between the deletions and the id assignments when the session refuses to reload the User |
| `Db.SubmitErrorPositions` | python/log2sql/db.py:29-66 | the outcome, in order: `StorageError` on a session needing a rollback; `KeyError("levelno")`; `StorageError` after a failed User commit; `KeyError("levelname")` only for a new level; `StorageError` after a failed commit of a new level; otherwise success |
| `Db.SubmitWithoutLevelnoKeepsUser` | python/log2sql/db.py:29-47 | without `levelno` the call raises at the level lookup after the User step: a new User row can be left with no event; levels and events are unchanged |
| `Db.SubmitStoresLinkedEvent` | python/log2sql/db.py:59-66 | a completed submission on a healthy session appends exactly one event. That event is the edited log record. Its `user_id` is the id of a stored User with alias `username`, and its `logging_level_id` is the id of a stored level with that `num`. If the event commit failed, no event is stored |
| `Db.CompletedSubmitStoresReferences` | python/log2sql/db.py:29-56 | after a submission that completed on a healthy session, a User with alias `username` and a LoggingLevel with `num = levelno` are stored |
| `Db.SubmitWithKnownReferences` | python/log2sql/db.py:29-66 | when that User and that level already exist, a submission on a healthy session leaves the users and levels tables unchanged and completes, even without `levelname`. It adds one event if the event commit succeeds and none if it fails |
| `Db.SubmitReusesReferenceRows` | python/log2sql/db.py:29-66 | after a healthy completed submission, a second one with the same username and levelno creates no User and no LoggingLevel and completes, even without `levelname`. It adds exactly one LoggingEvent when its event commit succeeds |
| `Db.NewUserIsUnique` | python/log2sql/db.py:37-43 | a new alias with a successful commit leaves exactly one User with that alias |
| `Db.NewLevelIsUnique` | python/log2sql/db.py:48-56 | a new levelno with a successful commit leaves exactly one LoggingLevel with that num |
| `Db.SubmitNewAliasNewLevel` | python/log2sql/db.py:26-66 | new username and new levelno, all commits succeeding: exactly one matching User, exactly one matching LoggingLevel, and each of the three tables gains one row |
| `Db.SubmitKnownUserNewLevel` | python/log2sql/db.py:29-66 | a known User with a new levelno and a successful level commit: the users table is unchanged, and exactly one level is appended after the earlier ones; it is the only level with that `num` |
| `Db.SubmitFailedLevelCommit` | python/log2sql/db.py:46-64 | a new level whose commit fails: the call raises `StorageError` with the session needing a rollback. The caller's dict has lost `levelno`/`levelname` but has no id keys, and no level or event is stored |
| `Db.ResolveLevelKeepsOtherLevels` | python/log2sql/db.py:47-56 | the level lookup-or-create never adds or removes a LoggingLevel whose `num` differs from `levelno` |
| `Db.SubmitKeepsOtherLevels` | python/log2sql/db.py:47-56 | a submission never adds or removes a LoggingLevel whose `num` differs from its record's `levelno` |
| `Db.SameUserTwoLevels` | python/log2sql/db.py:26-66 | two records from the same new username with two different new levelnos, every commit succeeding: one User and two LoggingLevels in all, one per `num`, and two events |

## Left out

- Connection lifecycle, engine and session construction, directory creation, database existence checks and table creation (`orm.py:40-124`): I/O and SQLAlchemy calls.
- Environment-variable configuration (`orm.py:23-33`) and the build metadata in `package.py`: configuration only.
- `get_model` (`orm.py:141-142`): it reads SQLAlchemy's private class registry.
- All `LOGGER` calls and the `print` in `create`: they have no effect on the state modelled.
- `convert_to_dict_recursive` (`utils.py`): it rests on `isinstance` checks against SQLAlchemy classes and on a shared mutable default argument, which is Python object identity.
- Row order of `.first()`: the SQL has no `ORDER BY`. The model returns the earliest match in table order, and the contracts only promise "a matching record".
- Foreign-key enforcement: SQLite does not enforce foreign keys here, and the entity files are used only for record shapes.
- Orm.DeleteEffect: it promises that other tables never change. In the source, the one-to-many relationships `User.logging_events` and `LoggingLevel.logging_events` also act on delete: deleting a User or a LoggingLevel sets `user_id` or `logging_level_id` to NULL on the events that refer to it. The model does not make that change.
- Records.Build: SQLAlchemy raises `TypeError` for a constructor key that is not a column (`orm.py:169`, reached by `create` without `return_existing`, or with it and no error from the query). The model drops such keys instead. It also ignores an explicit `id` in `data` and always assigns the next id.
- Records.Matches: it compares values structurally, with no SQL type coercion (an integer 20 and a float 20.0 do not match) and no enforcement of string column lengths.
- Orm.ORM.Query: the source runs the query lazily. A session that needs a rollback raises only when `.first()` or `.count()` runs the query, while a non-column filter key raises at once. The model raises both at the call. Every caller runs the query immediately, so no caller can tell the difference.
- Orm.ORM.Query: `filter_by` also accepts the relationship names (`logging_events`, `user`, `logging_level`), compared against mapped objects. The model's values hold no object references, so the model treats those names as non-columns.
- Orm.ORM.Delete: it deletes by value, not by Python object identity. Ids are distinct, so a value names one stored record.
- Commit failures come in as parameters, so what makes a commit fail is not modelled. No rollback is modelled either, because the code never issues one.
- Log-record payload values (tuples, JSON, exception info) are abstracted to `Value`.
- Db.Batch: the `OperationType` enum (`enums.py`) is not part of this model. An operation is either an integer index (an `IntEnum` member behaves as one) or some non-integer value.
- Concurrent submissions and races on duplicate aliases or levels: the code is sequential and has no locking.
