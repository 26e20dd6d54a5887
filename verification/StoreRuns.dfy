/** What the two stores hold after any sequence of successful Sets. */
module StoreRuns {
  import opened Prelude
  import opened Timestamps
  import opened Stores

  datatype SetCall = SetCall(rec: TaskRecord, now: Instant)

  function JsonRun(sets: seq<SetCall>): Table
  {
    if sets == [] then map[] else JsonSet(JsonRun(Front(sets)), Last(sets).rec, Last(sets).now)
  }

  function SqliteRun(sets: seq<SetCall>): Table
  {
    if sets == [] then map[] else SqliteSet(SqliteRun(Front(sets)), Last(sets).rec, Last(sets).now)
  }

  /** The last record Set for the task, if any. */
  function LastSet(sets: seq<SetCall>, id: Text): Option<TaskRecord>
  {
    if sets == [] then None
    else if Last(sets).rec.taskID == id then Some(Last(sets).rec)
    else LastSet(Front(sets), id)
  }

  /** The last non-empty value Set for the field of the task, or the empty string. */
  function LastNonEmpty(sets: seq<SetCall>, id: Text, f: Field): Text
  {
    if sets == [] then EMPTY
    else if Last(sets).rec.taskID == id && Get(Last(sets).rec, f) != EMPTY then Get(Last(sets).rec, f)
    else LastNonEmpty(Front(sets), id, f)
  }

  lemma {:induction false} NeverSet(sets: seq<SetCall>, id: Text, f: Field)
    requires LastSet(sets, id).None?
    ensures LastNonEmpty(sets, id, f) == EMPTY
  {
    if sets != [] {
      NeverSet(Front(sets), id, f);
    }
  }

  /** The JSON store holds, field by field, the last non-empty value. */
  lemma {:induction false} JsonFields(sets: seq<SetCall>, id: Text, f: Field)
    ensures WellKeyed(JsonRun(sets))
    ensures id in JsonRun(sets) <==> LastSet(sets, id).Some?
    ensures id in JsonRun(sets) ==> Get(JsonRun(sets)[id], f) == LastNonEmpty(sets, id, f)
  {
    if sets != [] {
      JsonFields(Front(sets), id, f);
      if id !in JsonRun(Front(sets)) {
        NeverSet(Front(sets), id, f);
      }
    }
  }

  /** The SQLite store holds the last record, its time to the second. */
  lemma {:induction false} SqliteRecords(sets: seq<SetCall>, id: Text)
    ensures WellKeyed(SqliteRun(sets))
    ensures id in SqliteRun(sets) <==> LastSet(sets, id).Some?
    ensures id in SqliteRun(sets) ==>
      SqliteRun(sets)[id].(updatedAt := None) == LastSet(sets, id).value.(updatedAt := None)
  {
    if sets != [] {
      SqliteRecords(Front(sets), id);
    }
  }

  /** The stores agree on a field of a task exactly when its last Set carried the field or no
      Set ever did. */
  lemma StoresAgreeOnField(sets: seq<SetCall>, id: Text, f: Field)
    requires LastSet(sets, id).Some?
    ensures id in JsonRun(sets) && id in SqliteRun(sets)
    ensures Get(JsonRun(sets)[id], f) == Get(SqliteRun(sets)[id], f)
      <==> Get(LastSet(sets, id).value, f) != EMPTY || LastNonEmpty(sets, id, f) == EMPTY
  {
    JsonFields(sets, id, f);
    SqliteRecords(sets, id);
    assert Get(SqliteRun(sets)[id].(updatedAt := None), f) == Get(SqliteRun(sets)[id], f);
    assert Get(LastSet(sets, id).value.(updatedAt := None), f) == Get(LastSet(sets, id).value, f);
    if Get(LastSet(sets, id).value, f) != EMPTY {
      LastCarried(sets, id, f);
    }
  }

  lemma {:induction false} LastCarried(sets: seq<SetCall>, id: Text, f: Field)
    requires LastSet(sets, id).Some? && Get(LastSet(sets, id).value, f) != EMPTY
    ensures LastNonEmpty(sets, id, f) == Get(LastSet(sets, id).value, f)
  {
    if Last(sets).rec.taskID != id {
      LastCarried(Front(sets), id, f);
    }
  }

  predicate AllFieldsSet(sets: seq<SetCall>)
  {
    forall i :: 0 <= i < |sets| ==>
      sets[i].rec.channelID != EMPTY && sets[i].rec.slackTS != EMPTY && sets[i].rec.userID != EMPTY
      && sets[i].rec.prompt != EMPTY && sets[i].rec.status != EMPTY
  }

  lemma {:induction false} LastIsFull(sets: seq<SetCall>, id: Text, f: Field)
    requires AllFieldsSet(sets) && LastSet(sets, id).Some?
    ensures Get(LastSet(sets, id).value, f) != EMPTY
  {
    if Last(sets).rec.taskID == id {
      assert Last(sets) == sets[|sets| - 1];
    } else {
      LastIsFull(Front(sets), id, f);
    }
  }

  /** On runs whose Sets carry every string field, the stores hold the same tasks with the
      same fields. */
  lemma StoresAgree(sets: seq<SetCall>, id: Text)
    requires AllFieldsSet(sets)
    ensures id in JsonRun(sets) <==> id in SqliteRun(sets)
    ensures id in JsonRun(sets) ==>
      JsonRun(sets)[id].(updatedAt := None) == SqliteRun(sets)[id].(updatedAt := None)
  {
    JsonFields(sets, id, ChannelField);
    SqliteRecords(sets, id);
    if LastSet(sets, id).Some? {
      forall f: Field
        ensures Get(JsonRun(sets)[id], f) == Get(SqliteRun(sets)[id], f)
      {
        LastIsFull(sets, id, f);
        StoresAgreeOnField(sets, id, f);
      }
      SameFields(JsonRun(sets)[id], SqliteRun(sets)[id]);
    }
  }

  lemma SameFields(a: TaskRecord, b: TaskRecord)
    requires a.taskID == b.taskID && forall f: Field :: Get(a, f) == Get(b, f)
    ensures a.(updatedAt := None) == b.(updatedAt := None)
  {
    assert Get(a, ChannelField) == Get(b, ChannelField) && Get(a, SlackTSField) == Get(b, SlackTSField);
    assert Get(a, UserField) == Get(b, UserField) && Get(a, PromptField) == Get(b, PromptField);
    assert Get(a, StatusField) == Get(b, StatusField);
  }

  /** Such runs also leave the two queries with the same answers. */
  lemma QueriesAgree(sets: seq<SetCall>, id: Text, c: Text)
    requires AllFieldsSet(sets)
    ensures id in JsonRun(sets) && JsonRun(sets)[id].status == RUNNING
      <==> id in SqliteRun(sets) && SqliteRun(sets)[id].status == RUNNING
    ensures ActiveOn(JsonRun(sets), c) <==> ActiveOn(SqliteRun(sets), c)
  {
    forall k
      ensures k in JsonRun(sets) <==> k in SqliteRun(sets)
      ensures k in JsonRun(sets) ==>
        && JsonRun(sets)[k].status == SqliteRun(sets)[k].status
        && JsonRun(sets)[k].channelID == SqliteRun(sets)[k].channelID
    {
      StoresAgree(sets, k);
      if k in JsonRun(sets) {
        assert JsonRun(sets)[k].(updatedAt := None).status == SqliteRun(sets)[k].(updatedAt := None).status;
        assert JsonRun(sets)[k].(updatedAt := None).channelID == SqliteRun(sets)[k].(updatedAt := None).channelID;
      }
    }
  }

  // ---------------------------------------------------------------- the time of the last update

  /** A Set moves the update time to now, unless the caller gives a time and the store takes it:
      the JSON store for a new record only, the SQLite store always, to the second. */
  lemma UpdateTimes(t: Table, rec: TaskRecord, now: Instant)
    ensures JsonSet(t, rec, now)[rec.taskID].updatedAt
      == if rec.taskID !in t && rec.updatedAt.Some? then rec.updatedAt else Some(now)
    ensures SqliteSet(t, rec, now)[rec.taskID].updatedAt
      == Some(Truncated(if rec.updatedAt.Some? then rec.updatedAt.value else now))
  {
  }

  /** A channel is active iff one of its records says running or paused. */
  lemma ActiveStatuses(t: Table, c: Text)
    ensures ActiveOn(t, c)
      <==> exists k :: k in t && t[k].channelID == c
             && (t[k].status == Text("running") || t[k].status == Text("paused"))
  {
  }

  /** What was just set on a channel is its latest record, when the clock is past every stored
      time: GetByChannel then returns it. */
  lemma JustSetIsLatest(t: Table, rec: TaskRecord, now: Instant, c: Text, latest: TaskRecord)
    requires rec.updatedAt == None && JsonSet(t, rec, now)[rec.taskID].channelID == c
    requires forall k :: k in t && t[k].updatedAt.Some? ==>
      FieldsBefore(t[k].updatedAt.value, now)
      || (!FieldsBefore(now, t[k].updatedAt.value) && t[k].updatedAt.value.nanos < now.nanos)
    requires IsLatest(JsonSet(t, rec, now), c, latest, false)
    ensures latest == JsonSet(t, rec, now)[rec.taskID]
  {
    var t' := JsonSet(t, rec, now);
    var k :| k in t' && t'[k] == latest;
    if k != rec.taskID {
      assert t[k] == latest && TimeOf(t'[rec.taskID], false) <= TimeOf(latest, false);
      NoTimeIsFirst(now);
      if latest.updatedAt.Some? {
        NanosecondsAreChronological(latest.updatedAt.value, now);
      }
    }
  }

  lemma NoTimeIsFirst(now: Instant)
    ensures Nanoseconds(now) >= 0
  {
  }
}
