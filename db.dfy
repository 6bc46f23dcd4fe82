/**
  Db: the log2sql-specific layer on top of the ORM (class DB): filing one log record as a
  `LoggingEvent` linked to its `User` and `LoggingLevel`, and the `batch` dispatcher.

  DB inherits from ORM in the source; here its methods take the ORM session as a parameter.
*/
module Db {
  import opened Records
  import opened Orm

  // ---------------------------------------------------------------------------------------
  // batch
  // ---------------------------------------------------------------------------------------

  /** The values an instruction dict can hold under its keys. */
  datatype Operand = Index(n: int) | EntityArg(entity: Entity) | DataArg(data: Fields) | Text(s: string)

  /** One instruction of a batch: a dict with keys "operation", "entity" and "data". */
  type Instruction = map<string, Operand>

  /** `__operation_callables__`: the operation names, stored as strings. */
  const OperationCallables: seq<string> := ["create", "read", "update", "delete"]

  /**
    `batch(instructions)`. Each instruction's operation is looked up in OperationCallables, and
    what it finds is a string, which cannot be called: the first instruction always raises
    (a missing key, a non-integer or out-of-range index, or a call of a string), so only the
    empty batch returns, with no results.
  */
  method Batch(instructions: seq<Instruction>) returns (r: Result<seq<Fields>>)
    ensures r.Ok? <==> instructions == []
    ensures r.Ok? ==> r.value == []
    ensures instructions != [] ==>
      var ins := instructions[0];
      && ("operation" !in ins ==> r.error == KeyError("operation"))
      && ("operation" in ins && "entity" !in ins ==> r.error == KeyError("entity"))
      && ("operation" in ins && "entity" in ins && "data" !in ins ==> r.error == KeyError("data"))
      && ("operation" in ins && "entity" in ins && "data" in ins ==>
            match ins["operation"]
            case Index(n) =>
              if -4 <= n < 4 then r.error == NotCallable(OperationCallables[(n + 4) % 4])
              else r.error == IndexOutOfRange
            case _ => r.error == NotAnIndex)
  {
    var results: seq<Fields> := [];
    for i := 0 to |instructions|
      invariant i == 0 && results == []
    {
      var instruction := instructions[i];
      if "operation" !in instruction {
        return Err(KeyError("operation"));
      }
      var operation := instruction["operation"];
      if "entity" !in instruction {
        return Err(KeyError("entity"));
      }
      if "data" !in instruction {
        return Err(KeyError("data"));
      }
      if !operation.Index? {
        return Err(NotAnIndex);
      }
      var n := operation.n;
      // Python list indexing: -len <= n < len, negative indices count from the end
      if !(-|OperationCallables| <= n < |OperationCallables|) {
        return Err(IndexOutOfRange);
      }
      var operationCallable := OperationCallables[if n < 0 then n + |OperationCallables| else n];
      // `operation_callable(entity, data)`: a str object is not callable
      return Err(NotCallable(operationCallable));
    }
    return Ok(results);
  }

  // ---------------------------------------------------------------------------------------
  // submit_new_logging_event
  // ---------------------------------------------------------------------------------------

  /** Whether each commit the submission may issue goes through: User, LoggingLevel, LoggingEvent. */
  datatype Commits = Commits(user: bool, level: bool, event: bool)

  /** The session state, the caller's log-record dict and the outcome after a submission. */
  datatype Outcome = Outcome(db: Tables, needsRollback: bool, logRecord: Fields, result: Result<()>)

  function UserFilter(username: string): Fields
  {
    map["alias" := Str(username)]
  }

  function LevelFilter(levelno: Value): Fields
  {
    map["num" := levelno]
  }

  /** Foreign key `fk` of `ev` holds the id of `target`. */
  predicate RefersTo(ev: Fields, fk: string, target: Fields)
  {
    fk in ev && "id" in target && ev[fk] == target["id"]
  }

  predicate UserExists(db: Tables, username: string)
  {
    Select(db.users, UserFilter(username)) != []
  }

  predicate LevelExists(db: Tables, levelno: Value)
  {
    Select(db.levels, LevelFilter(levelno)) != []
  }

  /**
    Find the User whose alias is `username`, or create one. Only the users table can change,
    and it gains a record exactly when none matched and the commit succeeds.
  */
  function ResolveUser(db: Tables, needsRollback: bool, username: string, commitOk: bool): (s: Step<Fields>)
    requires db.Valid()
    ensures s.db.Valid()
    ensures s.db.levels == db.levels && s.db.events == db.events
    ensures s.result.Ok? <==> !needsRollback
    ensures needsRollback ==> s == Step(db, true, Err(StorageError))
    ensures s.result.Ok? ==>
      var u := s.result.value;
      && u.Keys == Columns(User) && u["alias"] == Str(username)
      && (!s.needsRollback ==> u in s.db.users)
    ensures !needsRollback && UserExists(db, username) ==> s.db == db && !s.needsRollback
    ensures !needsRollback && !UserExists(db, username) ==>
      var u := s.result.value;
      if commitOk then
        && s.db.users == db.users + [u] && !s.needsRollback
        && u == Build(User, UserFilter(username), Int(NextId(db.users)))
      else
        s.db == db && s.needsRollback && u["id"] == Null
  {
    if needsRollback then
      Step(db, true, Err(StorageError))
    else
      var found := Select(db.users, UserFilter(username));
      if found != [] then
        assert found[0] in db.users;
        Step(db, false, Ok(found[0]))
      else
        CreateEffect(db, false, User, UserFilter(username), false, commitOk)
  }

  /**
    Find the LoggingLevel whose num is `log["levelno"]`, or create one named `log["levelname"]`.
    A missing "levelno" raises first; a missing "levelname" raises only when the level is new.
  */
  function ResolveLevel(db: Tables, needsRollback: bool, log: Fields, commitOk: bool): (s: Step<Fields>)
    requires db.Valid()
    ensures s.db.Valid()
    ensures s.db.users == db.users && s.db.events == db.events
    ensures needsRollback ==> s.needsRollback
    ensures s.result.Ok? ==>
      && "levelno" in log && s.result.value.Keys == Columns(LoggingLevel)
      && s.result.value["num"] == log["levelno"]
      && (!s.needsRollback ==> s.result.value in s.db.levels)
    ensures "levelno" !in log ==> s == Step(db, needsRollback, Err(KeyError("levelno")))
    ensures "levelno" in log && needsRollback ==> s == Step(db, true, Err(StorageError))
    ensures "levelno" in log && !needsRollback && LevelExists(db, log["levelno"]) ==>
      && s.db == db && !s.needsRollback && s.result.Ok?
      && s.result.value in db.levels && s.result.value["num"] == log["levelno"]
    ensures "levelno" in log && !needsRollback && !LevelExists(db, log["levelno"]) ==>
      if "levelname" !in log then
        s == Step(db, false, Err(KeyError("levelname")))
      else
        s.result.Ok? &&
        var l := s.result.value;
        && l.Keys == Columns(LoggingLevel)
        && l["num"] == log["levelno"] && l["name"] == log["levelname"]
        && if commitOk then
             s.db.levels == db.levels + [l] && !s.needsRollback && l["id"] == Int(NextId(db.levels))
           else
             s.db == db && s.needsRollback && l["id"] == Null
  {
    if "levelno" !in log then
      Step(db, needsRollback, Err(KeyError("levelno")))
    else if needsRollback then
      Step(db, true, Err(StorageError))
    else
      var found := Select(db.levels, LevelFilter(log["levelno"]));
      if found != [] then
        assert found[0] in db.levels;
        Step(db, false, Ok(found[0]))
      else if "levelname" !in log then
        Step(db, false, Err(KeyError("levelname")))
      else
        CreateEffect(db, false, LoggingLevel, map["name" := log["levelname"], "num" := log["levelno"]], false, commitOk)
  }

  /** The event payload: the log record without "levelno"/"levelname", with the two foreign keys. */
  function EventPayload(log: Fields, userId: Value, levelId: Value): (p: Fields)
    ensures p.Keys == log.Keys - {"levelno", "levelname"} + {"user_id", "logging_level_id"}
    ensures p["user_id"] == userId && p["logging_level_id"] == levelId
    ensures forall k :: k in log && k !in {"levelno", "levelname", "user_id", "logging_level_id"} ==> p[k] == log[k]
  {
    (log - {"levelno", "levelname"})["user_id" := userId]["logging_level_id" := levelId]
  }

  /**
    `submit_new_logging_event(log_record, username)`: resolve the User, resolve the
    LoggingLevel, turn the caller's log record into the event payload in place, create the
    LoggingEvent. Nothing is rolled back when a later step raises.

    A commit, and the rollback a failed flush performs, expire every loaded record, so reading
    `user_record.id` after the level step reloads the User through the session. After a failed
    level commit the session refuses that reload: the call raises with the level fields already
    deleted from the caller's dict and the ids not yet added.
  */
  function SubmitEffect(db: Tables, needsRollback: bool, log: Fields, username: string, commits: Commits): (o: Outcome)
    requires db.Valid()
    ensures o.db.Valid()
    // an error leaves the events table as it was, and the caller's dict as it was or (when the
    // User cannot be reloaded) without the level fields
    ensures o.result.Err? ==> o.db.events == db.events
    ensures o.result.Err? ==>
      o.logRecord == log || (o.result.error == StorageError && o.logRecord == log - {"levelno", "levelname"})
    // success: the caller's dict lost the level fields and gained the two foreign keys
    ensures o.result.Ok? ==>
      && "levelno" in log
      && o.logRecord.Keys == log.Keys - {"levelno", "levelname"} + {"user_id", "logging_level_id"}
      && forall k :: k in log && k !in {"levelno", "levelname", "user_id", "logging_level_id"} ==> o.logRecord[k] == log[k]
  {
    var u := ResolveUser(db, needsRollback, username, commits.user);
    if u.result.Err? then
      Outcome(u.db, u.needsRollback, log, Err(u.result.error))
    else
      var l := ResolveLevel(u.db, u.needsRollback, log, commits.level);
      if l.result.Err? then
        Outcome(l.db, l.needsRollback, log, Err(l.result.error))
      else if l.needsRollback then
        // the level commit failed: lines 60-63 run, then the reload of `user_record` raises
        Outcome(l.db, true, log - {"levelno", "levelname"}, Err(StorageError))
      else
        var payload := EventPayload(log, u.result.value["id"], l.result.value["id"]);
        var ev := CreateEffect(l.db, l.needsRollback, LoggingEvent, payload, false, commits.event);
        Outcome(ev.db, ev.needsRollback, payload, Ok(()))
  }

  /** Lines that create or retrieve the User, on an ORM session, as ResolveUser states. */
  method FindOrCreateUser(orm: ORM, username: string, commitOk: bool) returns (r: Result<Fields>)
    requires orm.Valid()
    modifies orm
    ensures orm.Valid()
    ensures Step(orm.db, orm.needsRollback, r) == ResolveUser(old(orm.db), old(orm.needsRollback), username, commitOk)
  {
    var userQuery := new Dict(UserFilter(username));
    var users := orm.Query(User, userQuery, map[]);
    assert QueryFilter(Some(UserFilter(username)), map[]) == UserFilter(username);
    if users.Err? {
      // raised by `.first()`
      return Err(users.error);
    }
    if users.value != [] {
      return Ok(users.value[0]);
    }
    r := orm.Create(User, UserFilter(username), false, commitOk);
  }

  /** Lines that create or retrieve the LoggingLevel, on an ORM session, as ResolveLevel states. */
  method FindOrCreateLevel(orm: ORM, logRecord: Dict, commitOk: bool) returns (r: Result<Fields>)
    requires orm.Valid()
    modifies orm
    ensures orm.Valid()
    ensures Step(orm.db, orm.needsRollback, r) == ResolveLevel(old(orm.db), old(orm.needsRollback), logRecord.entries, commitOk)
  {
    if "levelno" !in logRecord.entries {
      return Err(KeyError("levelno"));
    }
    var levels := orm.Query(LoggingLevel, null, LevelFilter(logRecord.entries["levelno"]));
    if levels.Err? {
      return Err(levels.error);
    }
    if levels.value != [] {
      return Ok(levels.value[0]);
    }
    // the warning that announces the new level reads log_record["levelname"]
    if "levelname" !in logRecord.entries {
      return Err(KeyError("levelname"));
    }
    var levelData := map["name" := logRecord.entries["levelname"], "num" := logRecord.entries["levelno"]];
    r := orm.Create(LoggingLevel, levelData, false, commitOk);
  }

  /** Lines that delete the level fields from the caller's log record, in place. */
  method DropLevelFields(loggingEventData: Dict)
    modifies loggingEventData
    ensures loggingEventData.entries == old(loggingEventData.entries) - {"levelno", "levelname"}
  {
    ghost var log := loggingEventData.entries;
    if "levelno" in loggingEventData.entries {
      loggingEventData.entries := loggingEventData.entries - {"levelno"};
    }
    assert loggingEventData.entries == log - {"levelno"};
    if "levelname" in loggingEventData.entries {
      loggingEventData.entries := loggingEventData.entries - {"levelname"};
    }
  }

  /** Lines that add the two foreign keys to the caller's log record, in place. */
  method AddForeignKeys(loggingEventData: Dict, userId: Value, levelId: Value)
    modifies loggingEventData
    ensures loggingEventData.entries == old(loggingEventData.entries)["user_id" := userId]["logging_level_id" := levelId]
  {
    loggingEventData.entries := loggingEventData.entries["user_id" := userId];
    loggingEventData.entries := loggingEventData.entries["logging_level_id" := levelId];
  }

  /** `submit_new_logging_event(log_record, username)` on an ORM session, as SubmitEffect states. */
  method SubmitNewLoggingEvent(orm: ORM, logRecord: Dict, username: string, commits: Commits) returns (r: Result<()>)
    requires orm.Valid()
    modifies orm, logRecord
    ensures orm.Valid()
    ensures var o := SubmitEffect(old(orm.db), old(orm.needsRollback), old(logRecord.entries), username, commits);
      orm.db == o.db && orm.needsRollback == o.needsRollback && logRecord.entries == o.logRecord && r == o.result
  {
    var userRecord := FindOrCreateUser(orm, username, commits.user);
    if userRecord.Err? {
      return Err(userRecord.error);
    }
    var levelRecord := FindOrCreateLevel(orm, logRecord, commits.level);
    if levelRecord.Err? {
      return Err(levelRecord.error);
    }

    // the event data is the caller's dict itself, edited in place
    var loggingEventData := logRecord;
    DropLevelFields(loggingEventData);
    if orm.needsRollback {
      // only a failed level commit gets here: the expired `user_record` cannot be reloaded
      return Err(StorageError);
    }
    AddForeignKeys(loggingEventData, userRecord.value["id"], levelRecord.value["id"]);
    var eventRecord := orm.Create(LoggingEvent, loggingEventData.entries, false, commits.event);
    r := Ok(());
  }

  // ---------------------------------------------------------------------------------------
  // properties of a submission
  // ---------------------------------------------------------------------------------------

  /**
    Where a submission raises: on a session that needs a rollback, at the User lookup; without
    "levelno", at the level lookup; after a failed User commit, at the level lookup; without
    "levelname", only when the level is new; after a failed commit of a new level, when the
    User's id is read back. Otherwise it completes.
  */
  lemma SubmitErrorPositions(db: Tables, needsRollback: bool, log: Fields, username: string, commits: Commits)
    requires db.Valid()
    ensures SubmitEffect(db, needsRollback, log, username, commits).result ==
      if needsRollback then Err(StorageError)
      else if "levelno" !in log then Err(KeyError("levelno"))
      else if !UserExists(db, username) && !commits.user then Err(StorageError)
      else if !LevelExists(db, log["levelno"]) && "levelname" !in log then Err(KeyError("levelname"))
      else if !LevelExists(db, log["levelno"]) && !commits.level then Err(StorageError)
      else Ok(())
  {
  }

  /**
    A record without "levelno" fails only after the User was looked up or created: a new User
    row can be left with no event, and nothing else changes.
  */
  lemma SubmitWithoutLevelnoKeepsUser(db: Tables, log: Fields, username: string, commits: Commits)
    requires db.Valid() && "levelno" !in log
    ensures var o := SubmitEffect(db, false, log, username, commits);
      && o.result == Err(KeyError("levelno"))
      && o.logRecord == log && o.db.levels == db.levels && o.db.events == db.events
      && (!UserExists(db, username) && commits.user ==>
            |o.db.users| == |db.users| + 1 && o.db.users[|db.users|]["alias"] == Str(username))
      && (UserExists(db, username) || !commits.user ==> o.db.users == db.users)
  {
    var u := ResolveUser(db, false, username, commits.user);
    if !UserExists(db, username) && commits.user {
      assert u.db.users == db.users + [u.result.value];
    }
  }

  /**
    A submission that completes on a healthy session stores exactly one new LoggingEvent: the
    caller's edited log record, whose `user_id` is the id of a User with alias `username` and
    whose `logging_level_id` is the id of a LoggingLevel with num `levelno`, both stored. When
    a commit failed on the way, no event is stored.
  */
  lemma SubmitStoresLinkedEvent(db: Tables, log: Fields, username: string, commits: Commits)
    requires db.Valid()
    ensures var o := SubmitEffect(db, false, log, username, commits);
      o.result.Ok? ==>
        if o.needsRollback then o.db.events == db.events
        else
          && |o.db.events| == |db.events| + 1 && o.db.events[..|db.events|] == db.events
          && var ev := o.db.events[|db.events|];
          && "id" in ev && ev == Build(LoggingEvent, o.logRecord, ev["id"])
          && (exists u :: u in o.db.users && Matches(u, UserFilter(username)) && RefersTo(ev, "user_id", u))
          && "levelno" in log
          && (exists l :: l in o.db.levels && Matches(l, LevelFilter(log["levelno"])) && RefersTo(ev, "logging_level_id", l))
  {
    var o := SubmitEffect(db, false, log, username, commits);
    if o.result.Ok? {
      var u := ResolveUser(db, false, username, commits.user);
      var l := ResolveLevel(u.db, u.needsRollback, log, commits.level);
      assert u.result.Ok? && l.result.Ok? && !l.needsRollback;
      var user, level := u.result.value, l.result.value;
      var payload := EventPayload(log, user["id"], level["id"]);
      var ev := CreateEffect(l.db, false, LoggingEvent, payload, false, commits.event);
      assert o == Outcome(ev.db, ev.needsRollback, payload, Ok(()));
      if !o.needsRollback {
        var rec := ev.result.value;
        assert o.db.events == db.events + [rec];
        assert o.db.events[..|db.events|] == db.events;
        assert "id" in rec && rec == Build(LoggingEvent, payload, rec["id"]);
        assert user in o.db.users && Matches(user, UserFilter(username)) && RefersTo(rec, "user_id", user);
        assert level in o.db.levels && Matches(level, LevelFilter(log["levelno"])) && RefersTo(rec, "logging_level_id", level);
      }
    }
  }

  /** After a submission that completed on a healthy session, its User and its LoggingLevel are stored. */
  lemma CompletedSubmitStoresReferences(db: Tables, log: Fields, username: string, commits: Commits)
    requires db.Valid()
    ensures var o := SubmitEffect(db, false, log, username, commits);
      o.result.Ok? && !o.needsRollback ==> UserExists(o.db, username) && LevelExists(o.db, log["levelno"])
  {
    var o := SubmitEffect(db, false, log, username, commits);
    if o.result.Ok? && !o.needsRollback {
      var u := ResolveUser(db, false, username, commits.user);
      var l := ResolveLevel(u.db, u.needsRollback, log, commits.level);
      assert u.result.Ok? && l.result.Ok? && !l.needsRollback;
      var user, level := u.result.value, l.result.value;
      var ev := CreateEffect(l.db, false, LoggingEvent, EventPayload(log, user["id"], level["id"]), false, commits.event);
      assert o.db.users == ev.db.users && o.db.levels == ev.db.levels;
      assert user in o.db.users && Matches(user, UserFilter(username));
      assert user in Select(o.db.users, UserFilter(username));
      assert level in o.db.levels && Matches(level, LevelFilter(log["levelno"]));
      assert level in Select(o.db.levels, LevelFilter(log["levelno"]));
    }
  }

  /**
    When the User and the LoggingLevel already exist, a submission on a healthy session creates
    neither, and it completes even when the record has no "levelname". It adds one LoggingEvent
    when the event commit succeeds, and none when it fails.
  */
  lemma SubmitWithKnownReferences(db: Tables, log: Fields, username: string, commits: Commits)
    requires db.Valid() && "levelno" in log
    requires UserExists(db, username) && LevelExists(db, log["levelno"])
    ensures var o := SubmitEffect(db, false, log, username, commits);
      && o.db.users == db.users && o.db.levels == db.levels && o.result == Ok(())
      && |o.db.events| == |db.events| + (if commits.event then 1 else 0)
  {
    var u := ResolveUser(db, false, username, commits.user);
    assert u.db == db && !u.needsRollback;
    var l := ResolveLevel(db, false, log, commits.level);
    assert l.db == db && !l.needsRollback;
  }

  /**
    Lookup-or-create is idempotent: after a submission that completed on a healthy session, a
    second one with the same username and levelno creates no User and no LoggingLevel, and
    completes even when its record has no "levelname"; only a LoggingEvent is added, when its
    commit succeeds.
  */
  lemma SubmitReusesReferenceRows(db: Tables, log: Fields, log': Fields, username: string, commits: Commits, commits': Commits)
    requires db.Valid()
    requires "levelno" in log' && "levelno" in log && log'["levelno"] == log["levelno"]
    ensures var o := SubmitEffect(db, false, log, username, commits);
      o.result.Ok? && !o.needsRollback ==>
        var o' := SubmitEffect(o.db, false, log', username, commits');
        && o'.db.users == o.db.users && o'.db.levels == o.db.levels && o'.result == Ok(())
        && |o'.db.events| == |o.db.events| + (if commits'.event then 1 else 0)
  {
    var o := SubmitEffect(db, false, log, username, commits);
    if o.result.Ok? && !o.needsRollback {
      CompletedSubmitStoresReferences(db, log, username, commits);
      SubmitWithKnownReferences(o.db, log', username, commits');
    }
  }

  /**
    A known User with a new levelno, the level commit succeeding: no User is created, exactly one
    LoggingLevel is appended (the earlier levels kept), and it is the only one with that num.
  */
  lemma SubmitKnownUserNewLevel(db: Tables, log: Fields, username: string, commits: Commits)
    requires db.Valid() && "levelno" in log && "levelname" in log && commits.level
    requires UserExists(db, username) && !LevelExists(db, log["levelno"])
    ensures var o := SubmitEffect(db, false, log, username, commits);
      && o.result == Ok(())
      && o.db.users == db.users
      && |o.db.levels| == |db.levels| + 1 && o.db.levels[..|db.levels|] == db.levels
      && |Select(o.db.levels, LevelFilter(log["levelno"]))| == 1
      && |o.db.events| == |db.events| + (if commits.event then 1 else 0)
  {
    var u := ResolveUser(db, false, username, commits.user);
    assert u.db == db && !u.needsRollback;
    NewLevelIsUnique(db, log);
    var l := ResolveLevel(db, false, log, true);
    assert l.db.levels[..|db.levels|] == db.levels;
  }

  /**
    A new level whose commit fails: the call raises when it reads the User's id back, after the
    level fields were deleted from the caller's dict and before the ids were added. No level and
    no event is stored, and the session is left needing a rollback.
  */
  lemma SubmitFailedLevelCommit(db: Tables, log: Fields, username: string, commits: Commits)
    requires db.Valid() && "levelno" in log && "levelname" in log && !commits.level
    requires (UserExists(db, username) || commits.user) && !LevelExists(db, log["levelno"])
    ensures var o := SubmitEffect(db, false, log, username, commits);
      && o.result == Err(StorageError) && o.needsRollback
      && o.logRecord == log - {"levelno", "levelname"}
      && o.db.levels == db.levels && o.db.events == db.events
  {
    var u := ResolveUser(db, false, username, commits.user);
    assert u.result.Ok? && !u.needsRollback && u.db.levels == db.levels;
  }

  /** Resolving a new alias with a successful commit leaves exactly one User with that alias. */
  lemma NewUserIsUnique(db: Tables, username: string)
    requires db.Valid() && !UserExists(db, username)
    ensures var u := ResolveUser(db, false, username, true);
      && u.result.Ok? && !u.needsRollback
      && |u.db.users| == |db.users| + 1
      && |Select(u.db.users, UserFilter(username))| == 1
  {
    var u := ResolveUser(db, false, username, true);
    BuildMatches(User, UserFilter(username), u.result.value["id"]);
    SelectAppend(db.users, u.result.value, UserFilter(username));
  }

  /** Resolving a new levelno with a successful commit leaves exactly one LoggingLevel with that num. */
  lemma NewLevelIsUnique(db: Tables, log: Fields)
    requires db.Valid() && "levelno" in log && "levelname" in log && !LevelExists(db, log["levelno"])
    ensures var l := ResolveLevel(db, false, log, true);
      && l.result.Ok? && !l.needsRollback
      && |l.db.levels| == |db.levels| + 1
      && |Select(l.db.levels, LevelFilter(log["levelno"]))| == 1
  {
    var l := ResolveLevel(db, false, log, true);
    assert Matches(l.result.value, LevelFilter(log["levelno"]));
    SelectAppend(db.levels, l.result.value, LevelFilter(log["levelno"]));
  }

  /**
    A record with a new username and a new levelno, all commits succeeding: afterwards exactly
    one User has that alias, exactly one LoggingLevel has that num, and each table gained one row.
  */
  lemma SubmitNewAliasNewLevel(db: Tables, log: Fields, username: string)
    requires db.Valid() && "levelno" in log && "levelname" in log
    requires !UserExists(db, username) && !LevelExists(db, log["levelno"])
    ensures var o := SubmitEffect(db, false, log, username, Commits(true, true, true));
      && o.result == Ok(())
      && |Select(o.db.users, UserFilter(username))| == 1
      && |Select(o.db.levels, LevelFilter(log["levelno"]))| == 1
      && |o.db.users| == |db.users| + 1
      && |o.db.levels| == |db.levels| + 1
      && |o.db.events| == |db.events| + 1
  {
    var u := ResolveUser(db, false, username, true);
    NewUserIsUnique(db, username);
    var l := ResolveLevel(u.db, false, log, true);
    NewLevelIsUnique(u.db, log);
    var payload := EventPayload(log, u.result.value["id"], l.result.value["id"]);
    var ev := CreateEffect(l.db, false, LoggingEvent, payload, false, true);
    assert SubmitEffect(db, false, log, username, Commits(true, true, true)) == Outcome(ev.db, false, payload, Ok(()));
  }

  /** The level lookup-or-create never adds or removes a LoggingLevel whose num is not `log["levelno"]`. */
  lemma ResolveLevelKeepsOtherLevels(db: Tables, needsRollback: bool, log: Fields, commitOk: bool, n: Value)
    requires db.Valid() && "levelno" in log && n != log["levelno"]
    ensures Select(ResolveLevel(db, needsRollback, log, commitOk).db.levels, LevelFilter(n)) == Select(db.levels, LevelFilter(n))
  {
    var l := ResolveLevel(db, needsRollback, log, commitOk);
    if l.db.levels != db.levels {
      SelectAppend(db.levels, l.result.value, LevelFilter(n));
    }
  }

  /** A submission never adds or removes a LoggingLevel whose num is not its record's levelno. */
  lemma SubmitKeepsOtherLevels(db: Tables, needsRollback: bool, log: Fields, username: string, commits: Commits, n: Value)
    requires db.Valid() && "levelno" in log && n != log["levelno"]
    ensures var o := SubmitEffect(db, needsRollback, log, username, commits);
      Select(o.db.levels, LevelFilter(n)) == Select(db.levels, LevelFilter(n))
  {
    var o := SubmitEffect(db, needsRollback, log, username, commits);
    var u := ResolveUser(db, needsRollback, username, commits.user);
    if u.result.Ok? {
      var l := ResolveLevel(u.db, u.needsRollback, log, commits.level);
      ResolveLevelKeepsOtherLevels(u.db, u.needsRollback, log, commits.level, n);
      if l.result.Ok? && !l.needsRollback {
        var payload := EventPayload(log, u.result.value["id"], l.result.value["id"]);
        var ev := CreateEffect(l.db, false, LoggingEvent, payload, false, commits.event);
        assert ev.db.Get(LoggingLevel) == l.db.Get(LoggingLevel);
        assert o.db == ev.db;
      } else {
        assert o.db == l.db;
      }
    } else {
      assert o.db == u.db;
    }
  }

  /**
    Two records from the same new username with two different new levelnos, every commit
    succeeding: one User and two LoggingLevels are created in all, one per num, and two events.
  */
  lemma SameUserTwoLevels(db: Tables, log1: Fields, log2: Fields, username: string)
    requires db.Valid() && "levelno" in log1 && "levelname" in log1 && "levelno" in log2 && "levelname" in log2
    requires log1["levelno"] != log2["levelno"]
    requires !UserExists(db, username) && !LevelExists(db, log1["levelno"]) && !LevelExists(db, log2["levelno"])
    ensures var o1 := SubmitEffect(db, false, log1, username, Commits(true, true, true));
      var o2 := SubmitEffect(o1.db, false, log2, username, Commits(true, true, true));
      && o1.result == Ok(()) && o2.result == Ok(())
      && |o2.db.users| == |db.users| + 1 && |Select(o2.db.users, UserFilter(username))| == 1
      && |o2.db.levels| == |db.levels| + 2
      && |Select(o2.db.levels, LevelFilter(log1["levelno"]))| == 1
      && |Select(o2.db.levels, LevelFilter(log2["levelno"]))| == 1
      && |o2.db.events| == |db.events| + 2
  {
    var all := Commits(true, true, true);
    var n1, n2 := log1["levelno"], log2["levelno"];
    var o1 := SubmitEffect(db, false, log1, username, all);
    SubmitNewAliasNewLevel(db, log1, username);
    SubmitKeepsOtherLevels(db, false, log1, username, all, n2);
    SubmitKnownUserNewLevel(o1.db, log2, username, all);
    SubmitKeepsOtherLevels(o1.db, false, log2, username, all, n1);
  }
}
