/** The two state stores behind the gateway: the JSON store merges a record into the stored
    one, the SQLite store replaces the whole row. */
module Stores {
  import opened Prelude
  import opened Timestamps

  /** A record as callers see it. An UpdatedAt that is the zero time is None. */
  datatype TaskRecord = TaskRecord(
    taskID: Text,
    channelID: Text,
    slackTS: Text,
    userID: Text,
    prompt: Text,
    status: Text,
    updatedAt: Option<Instant>)

  /** A row of the table, keyed by its task ID. */
  datatype Row = Row(
    channelID: Text, slackTS: Text, userID: Text, prompt: Text, status: Text, updatedAt: string)

  type Table = map<Text, TaskRecord>

  const RUNNING := Text("running")
  const PAUSED := Text("paused")

  datatype Field = ChannelField | SlackTSField | UserField | PromptField | StatusField

  function Get(r: TaskRecord, f: Field): Text
  {
    match f
    case ChannelField => r.channelID
    case SlackTSField => r.slackTS
    case UserField => r.userID
    case PromptField => r.prompt
    case StatusField => r.status
  }

  // ---------------------------------------------------------------- Set

  function Overwrite(old_: Text, new_: Text): Text
  {
    if new_ != EMPTY then new_ else old_
  }

  /** The stored record after a record for the same task has been merged into it. */
  function Merged(stored: TaskRecord, rec: TaskRecord, now: Instant): TaskRecord
  {
    TaskRecord(stored.taskID,
               Overwrite(stored.channelID, rec.channelID),
               Overwrite(stored.slackTS, rec.slackTS),
               Overwrite(stored.userID, rec.userID),
               Overwrite(stored.prompt, rec.prompt),
               Overwrite(stored.status, rec.status),
               Some(now))
  }

  function Stamped(rec: TaskRecord, now: Instant): TaskRecord
  {
    if rec.updatedAt.None? then rec.(updatedAt := Some(now)) else rec
  }

  function JsonSet(t: Table, rec: TaskRecord, now: Instant): Table
  {
    t[rec.taskID := if rec.taskID in t then Merged(t[rec.taskID], rec, now) else Stamped(rec, now)]
  }

  /** The SQLite store keeps the record as it is, its time to the second. */
  function SqliteSet(t: Table, rec: TaskRecord, now: Instant): Table
  {
    t[rec.taskID := rec.(updatedAt := Some(Truncated(Stamped(rec, now).updatedAt.value)))]
  }

  function ToRow(rec: TaskRecord, now: Instant): Row
  {
    Row(rec.channelID, rec.slackTS, rec.userID, rec.prompt, rec.status, Format(Stamped(rec, now).updatedAt.value))
  }

  /** A row as the queries return it; a text that is not a timestamp reads as the zero time. */
  function FromRow(id: Text, r: Row): TaskRecord
  {
    TaskRecord(id, r.channelID, r.slackTS, r.userID, r.prompt, r.status, Parse(r.updatedAt))
  }

  // ---------------------------------------------------------------- the queries

  predicate WellKeyed(t: Table)
  {
    forall k :: k in t ==> t[k].taskID == k
  }

  /** list holds every record of the table with status running, each once. */
  ghost predicate IsActiveList(t: Table, list: seq<TaskRecord>)
  {
    && (forall i :: 0 <= i < |list| ==>
          list[i].taskID in t && t[list[i].taskID] == list[i] && list[i].status == RUNNING)
    && (forall i, j :: 0 <= i < j < |list| ==> list[i].taskID != list[j].taskID)
    && (forall k :: k in t && t[k].status == RUNNING ==> t[k] in list)
  }

  /** keys are the keys of the records with status running, and list holds these records. */
  ghost predicate ListedUnder(t: Table, keys: seq<Text>, list: seq<TaskRecord>)
  {
    && |keys| == |list|
    && (forall i, j :: 0 <= i < j < |keys| ==> keys[i] != keys[j])
    && (forall i :: 0 <= i < |keys| ==> keys[i] in t && t[keys[i]] == list[i] && list[i].status == RUNNING)
    && (forall k :: k in t && t[k].status == RUNNING ==> k in keys)
  }

  /** list holds the records with status running, once for each key they are stored under. */
  ghost predicate ListsRunning(t: Table, list: seq<TaskRecord>)
  {
    exists keys :: ListedUnder(t, keys, list)
  }

  /** In a table whose keys are the task IDs of its records the list is the active list. */
  lemma ListOfWellKeyed(t: Table, list: seq<TaskRecord>)
    requires WellKeyed(t) && ListsRunning(t, list)
    ensures IsActiveList(t, list)
  {
    var keys :| ListedUnder(t, keys, list);
    forall k | k in t && t[k].status == RUNNING
      ensures t[k] in list
    {
      var i :| 0 <= i < |keys| && keys[i] == k;
      assert list[i] == t[k];
    }
  }

  lemma ActiveListIsList(t: Table, list: seq<TaskRecord>)
    requires WellKeyed(t) && IsActiveList(t, list)
    ensures ListsRunning(t, list)
  {
    var keys := seq(|list|, i requires 0 <= i < |list| => list[i].taskID);
    forall k | k in t && t[k].status == RUNNING
      ensures k in keys
    {
      var i :| 0 <= i < |list| && list[i] == t[k];
      assert keys[i] == k;
    }
    assert ListedUnder(t, keys, list);
  }

  ghost predicate ActiveOn(t: Table, c: Text)
  {
    exists k :: k in t && t[k].channelID == c && (t[k].status == RUNNING || t[k].status == PAUSED)
  }

  /** The time of the last update, in seconds or in nanoseconds; the zero time is first. */
  function TimeOf(r: TaskRecord, inSeconds: bool): int
  {
    if r.updatedAt.None? then -1
    else if inSeconds then Seconds(r.updatedAt.value)
    else Nanoseconds(r.updatedAt.value)
  }

  /** r is a record of the channel with a maximal update time. */
  ghost predicate IsLatest(t: Table, c: Text, r: TaskRecord, inSeconds: bool)
  {
    && r in t.Values && r.channelID == c
    && forall k :: k in t && t[k].channelID == c ==> TimeOf(t[k], inSeconds) <= TimeOf(r, inSeconds)
  }

  class JSONStateManager {
    var records: map<Text, TaskRecord>

    ghost function View(): Table
      reads this
    {
      records
    }

    constructor ()
      ensures records == map[]
    {
      records := map[];
    }

    /** saveFails says whether writing the file fails; the record in memory changes anyway. */
    method Set(rec: TaskRecord, now: Instant, saveFails: bool) returns (ok: bool)
      modifies this
      ensures View() == JsonSet(old(View()), rec, now)
      ensures ok == !saveFails
    {
      if rec.taskID in records {
        var existing := records[rec.taskID];
        if rec.channelID != EMPTY {
          existing := existing.(channelID := rec.channelID);
        }
        if rec.slackTS != EMPTY {
          existing := existing.(slackTS := rec.slackTS);
        }
        if rec.userID != EMPTY {
          existing := existing.(userID := rec.userID);
        }
        if rec.prompt != EMPTY {
          existing := existing.(prompt := rec.prompt);
        }
        if rec.status != EMPTY {
          existing := existing.(status := rec.status);
        }
        existing := existing.(updatedAt := Some(now));
        records := records[rec.taskID := existing];
      } else {
        var cpy := rec;
        if cpy.updatedAt.None? {
          cpy := cpy.(updatedAt := Some(now));
        }
        records := records[rec.taskID := cpy];
      }
      ok := !saveFails;
    }

    method ListActive() returns (result: seq<TaskRecord>)
      ensures ListsRunning(View(), result)
    {
      result := [];
      ghost var keys: seq<Text> := [];
      var left := records.Keys;
      while left != {}
        invariant left <= records.Keys && |keys| == |result|
        invariant forall i :: 0 <= i < |keys| ==>
          keys[i] in records && keys[i] !in left && records[keys[i]] == result[i] && result[i].status == RUNNING
        invariant forall i, j :: 0 <= i < j < |keys| ==> keys[i] != keys[j]
        invariant forall k :: k in records && k !in left && records[k].status == RUNNING ==> k in keys
        decreases left
      {
        var k :| k in left;
        if records[k].status == RUNNING {
          result := result + [records[k]];
          keys := keys + [k];
        }
        left := left - {k};
      }
      assert ListedUnder(View(), keys, result);
    }

    method HasActiveTask(channelID: Text) returns (active: bool)
      ensures active <==> ActiveOn(View(), channelID)
    {
      var left := records.Keys;
      while left != {}
        invariant left <= records.Keys
        invariant forall k :: k in records && k !in left ==>
          !(records[k].channelID == channelID && (records[k].status == RUNNING || records[k].status == PAUSED))
        decreases left
      {
        var k :| k in left;
        if records[k].channelID == channelID && (records[k].status == RUNNING || records[k].status == PAUSED) {
          return true;
        }
        left := left - {k};
      }
      return false;
    }

    method GetByChannel(channelID: Text) returns (latest: Option<TaskRecord>)
      ensures latest.None? <==> forall k :: k in records ==> records[k].channelID != channelID
      ensures latest.Some? ==> IsLatest(View(), channelID, latest.value, false)
    {
      latest := None;
      var left := records.Keys;
      while left != {}
        invariant left <= records.Keys
        invariant latest.None? ==> forall k :: k in records && k !in left ==> records[k].channelID != channelID
        invariant latest.Some? ==>
          && latest.value in records.Values && latest.value.channelID == channelID
          && forall k :: k in records && k !in left && records[k].channelID == channelID ==>
               TimeOf(records[k], false) <= TimeOf(latest.value, false)
        decreases left
      {
        var k :| k in left;
        if records[k].channelID == channelID {
          if latest.None? || TimeOf(records[k], false) > TimeOf(latest.value, false) {
            latest := Some(records[k]);
          }
        }
        left := left - {k};
      }
    }
  }

  class SQLiteStore {
    var rows: map<Text, Row>

    ghost function View(): Table
      reads this
    {
      map k | k in rows :: FromRow(k, rows[k])
    }

    /** Every text in the time column was written by Set. */
    ghost predicate Valid()
      reads this
    {
      forall k :: k in rows ==> exists t: Instant :: rows[k].updatedAt == Format(t)
    }

    constructor ()
      ensures rows == map[] && Valid()
    {
      rows := map[];
    }

    /** execFails says whether the statement fails, in which case the table is unchanged. */
    method Set(rec: TaskRecord, now: Instant, execFails: bool) returns (ok: bool)
      modifies this
      ensures old(Valid()) ==> Valid()
      ensures View() == if execFails then old(View()) else SqliteSet(old(View()), rec, now)
      ensures ok == !execFails
    {
      if !execFails {
        ParseOfFormat(Stamped(rec, now).updatedAt.value);
        assert FromRow(rec.taskID, ToRow(rec, now)) == SqliteSet(View(), rec, now)[rec.taskID];
        rows := rows[rec.taskID := ToRow(rec, now)];
      }
      ok := !execFails;
    }

    /** A query that fails lists nothing. */
    method ListActive(queryFails: bool) returns (result: seq<TaskRecord>)
      ensures if queryFails then result == [] else IsActiveList(View(), result)
    {
      result := [];
      if queryFails {
        return;
      }
      var left := rows.Keys;
      while left != {}
        invariant left <= rows.Keys
        invariant forall i :: 0 <= i < |result| ==>
          result[i].taskID in rows && result[i].taskID !in left
          && FromRow(result[i].taskID, rows[result[i].taskID]) == result[i] && result[i].status == RUNNING
        invariant forall i, j :: 0 <= i < j < |result| ==> result[i].taskID != result[j].taskID
        invariant forall k :: k in rows && k !in left && rows[k].status == RUNNING ==> FromRow(k, rows[k]) in result
        decreases left
      {
        var k :| k in left;
        if rows[k].status == RUNNING {
          result := result + [FromRow(k, rows[k])];
        }
        left := left - {k};
      }
    }

    /** A query that fails answers false. */
    method HasActiveTask(channelID: Text, queryFails: bool) returns (active: bool)
      ensures active <==> !queryFails && ActiveOn(View(), channelID)
    {
      if queryFails {
        return false;
      }
      ghost var t := View();
      var left := rows.Keys;
      while left != {}
        invariant left <= rows.Keys
        invariant forall k :: k in t && k !in left ==>
          !(t[k].channelID == channelID && (t[k].status == RUNNING || t[k].status == PAUSED))
        decreases left
      {
        var k :| k in left;
        if rows[k].channelID == channelID && (rows[k].status == RUNNING || rows[k].status == PAUSED) {
          assert t[k].channelID == channelID;
          return true;
        }
        left := left - {k};
      }
      return false;
    }

    /** ORDER BY updated_at DESC LIMIT 1: the first row in the order of the texts. A query that
        fails finds nothing. */
    method GetByChannel(channelID: Text, queryFails: bool) returns (latest: Option<TaskRecord>)
      ensures latest.None? <==> queryFails || forall k :: k in rows ==> rows[k].channelID != channelID
      ensures latest.Some? ==> exists first :: FirstOf(channelID, first) && latest.value == FromRow(first, rows[first])
      ensures latest.Some? && Valid() ==> IsLatest(View(), channelID, latest.value, true)
    {
      if queryFails {
        return None;
      }
      var matching := set k | k in rows && rows[k].channelID == channelID;
      if matching == {} {
        assert forall k :: k in rows && rows[k].channelID == channelID ==> k in matching;
        return None;
      }
      var first := FirstByTime(matching);
      latest := Some(FromRow(first, rows[first]));
      assert FirstOf(channelID, first);
      if Valid() {
        FirstIsLatest(channelID, first);
      }
    }

    /** The row is one of the channel's, and none of them comes before it in descending order
        of the time column. */
    ghost predicate FirstOf(channelID: Text, first: Text)
      reads this
    {
      && first in rows && rows[first].channelID == channelID
      && forall k :: k in rows && rows[k].channelID == channelID ==>
           !TextBefore(rows[first].updatedAt, rows[k].updatedAt)
    }

    lemma FirstIsLatest(channelID: Text, first: Text)
      requires Valid() && FirstOf(channelID, first)
      ensures IsLatest(View(), channelID, FromRow(first, rows[first]), true)
    {
      assert View()[first] == FromRow(first, rows[first]);
      forall k | k in View() && View()[k].channelID == channelID
        ensures TimeOf(View()[k], true) <= TimeOf(View()[first], true)
      {
        RowOrder(first, k);
      }
    }

    /** The first of these rows in descending order of the time column. */
    method FirstByTime(keys: set<Text>) returns (first: Text)
      requires keys <= rows.Keys && keys != {}
      ensures first in keys && forall k :: k in keys ==> !TextBefore(rows[first].updatedAt, rows[k].updatedAt)
    {
      first :| first in keys;
      var left := keys - {first};
      TextIrreflexive(rows[first].updatedAt);
      while left != {}
        invariant left <= keys && first in keys
        invariant forall k :: k in keys && k !in left ==> !TextBefore(rows[first].updatedAt, rows[k].updatedAt)
        decreases left
      {
        var k :| k in left;
        if TextBefore(rows[first].updatedAt, rows[k].updatedAt) {
          LaterText(rows[first].updatedAt, rows[k].updatedAt, keys - left);
          first := k;
        }
        left := left - {k};
      }
    }

    /** What comes before an earlier text comes before a later one. */
    lemma LaterText(a: string, b: string, keys: set<Text>)
      requires TextBefore(a, b) && keys <= rows.Keys
      ensures !TextBefore(b, b)
      ensures forall k :: k in keys && !TextBefore(a, rows[k].updatedAt) ==> !TextBefore(b, rows[k].updatedAt)
    {
      TextIrreflexive(b);
      forall k | k in keys && TextBefore(b, rows[k].updatedAt)
        ensures TextBefore(a, rows[k].updatedAt)
      {
        TextTransitive(a, b, rows[k].updatedAt);
      }
    }

    /** The texts of two rows compare as their times do, to the second. */
    lemma RowOrder(i: Text, j: Text)
      requires Valid() && i in rows && j in rows
      ensures TextBefore(rows[i].updatedAt, rows[j].updatedAt)
        <==> TimeOf(View()[i], true) < TimeOf(View()[j], true)
    {
      var s: Instant :| rows[i].updatedAt == Format(s);
      var t: Instant :| rows[j].updatedAt == Format(t);
      ParseOfFormat(s);
      ParseOfFormat(t);
      TextOrderIsChronological(s, t);
    }
  }
}
