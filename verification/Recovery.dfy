/** Crash recovery and shutdown, as far as they rewrite the persisted records. */
module Recovery {
  import opened Prelude
  import opened Timestamps
  import opened Stores

  /** The store behind the interface. */
  datatype StateManager = Json(json: JSONStateManager) | Sqlite(sqlite: SQLiteStore)

  ghost function Repr(sm: StateManager): set<object>
  {
    match sm case Json(j) => {j} case Sqlite(s) => {s}
  }

  ghost function Contents(sm: StateManager): Table
    reads Repr(sm)
  {
    match sm case Json(j) => j.View() case Sqlite(s) => s.View()
  }

  /** What a Set leaves in the store; a failing Set of the JSON store has changed its memory. */
  function SetResult(json: bool, t: Table, rec: TaskRecord, now: Instant, fails: bool): Table
  {
    if json then JsonSet(t, rec, now) else if fails then t else SqliteSet(t, rec, now)
  }

  method SetRecord(sm: StateManager, rec: TaskRecord, now: Instant, fails: bool) returns (ok: bool)
    modifies Repr(sm)
    ensures Contents(sm) == SetResult(sm.Json?, old(Contents(sm)), rec, now, fails)
    ensures ok == !fails
  {
    match sm {
      case Json(j) => ok := j.Set(rec, now, fails);
      case Sqlite(s) => ok := s.Set(rec, now, fails);
    }
  }

  /** The query of the SQLite store lists nothing when it fails. */
  predicate NoList(json: bool, queryFails: bool)
  {
    !json && queryFails
  }

  method ListActive(sm: StateManager, queryFails: bool) returns (active: seq<TaskRecord>)
    ensures if NoList(sm.Json?, queryFails) then active == [] else ListsRunning(Contents(sm), active)
    ensures WellKeyed(Contents(sm)) && !NoList(sm.Json?, queryFails) ==> IsActiveList(Contents(sm), active)
  {
    match sm {
      case Json(j) => active := j.ListActive();
      case Sqlite(s) =>
        active := s.ListActive(queryFails);
        if queryFails {
          return;
        }
        ActiveListIsList(Contents(sm), active);
    }
    if WellKeyed(Contents(sm)) {
      ListOfWellKeyed(Contents(sm), active);
    }
  }

  // ---------------------------------------------------------------- recovery

  const DONE := Text("done")
  const ERROR := Text("error")
  const STOPPED := Text("stopped")
  const INTERRUPTED := Text("interrupted")

  /** The answer of the worker about a task: a status, or a failed check. */
  datatype Answer = Status(text: string) | CheckFailed

  datatype RecoveryResult = RecoveryResult(taskID: Text, channelID: Text, finalStatus: Text)

  function FinalStatus(a: Answer): Text
  {
    match a
    case CheckFailed => ERROR
    case Status(s) =>
      if s == "done" || s == "completed" then DONE
      else if s == "running" || s == "in_progress" then RUNNING
      else ERROR
  }

  /** What recovery depends on: the worker's answers, whether the query for active records
      fails, and for the i-th active record the clock, whether its Set fails, and whether the
      context is cancelled before it. */
  datatype Surroundings = Surroundings(
    answer: Text -> Answer, listFails: bool, clock: nat -> Instant, setFails: nat -> bool, cancelled: nat -> bool)

  function RecoveredRecord(rec: TaskRecord, env: Surroundings): TaskRecord
  {
    TaskRecord(rec.taskID, rec.channelID, rec.slackTS, EMPTY, EMPTY, FinalStatus(env.answer(rec.taskID)), None)
  }

  function ResultFor(rec: TaskRecord, env: Surroundings): RecoveryResult
  {
    RecoveryResult(rec.taskID, rec.channelID, FinalStatus(env.answer(rec.taskID)))
  }

  /** The store after the first n active records have been dealt with. */
  function StoreAfter(json: bool, t: Table, active: seq<TaskRecord>, n: nat, env: Surroundings): Table
    requires n <= |active|
  {
    if n == 0 then t
    else SetResult(json, StoreAfter(json, t, active, n - 1, env), RecoveredRecord(active[n - 1], env),
                   env.clock(n - 1), env.setFails(n - 1))
  }

  function ResultsAfter(active: seq<TaskRecord>, n: nat, env: Surroundings): seq<RecoveryResult>
    requires n <= |active|
  {
    if n == 0 then []
    else if env.setFails(n - 1) then ResultsAfter(active, n - 1, env)
    else ResultsAfter(active, n - 1, env) + [ResultFor(active[n - 1], env)]
  }

  /** How many records recovery gets to before the context is cancelled. */
  function Reached(active: seq<TaskRecord>, env: Surroundings, from_: nat): (n: nat)
    requires from_ <= |active|
    ensures from_ <= n <= |active|
    decreases |active| - from_
  {
    if from_ == |active| || env.cancelled(from_) then from_ else Reached(active, env, from_ + 1)
  }

  /** Recovery stops at the first record before which the context is cancelled. */
  lemma {:induction false} StopsWhenCancelled(active: seq<TaskRecord>, env: Surroundings, from_: nat)
    requires from_ <= |active|
    ensures
      var n := Reached(active, env, from_);
      (forall i :: from_ <= i < n ==> !env.cancelled(i)) && (n < |active| ==> env.cancelled(n))
    decreases |active| - from_
  {
    if from_ < |active| && !env.cancelled(from_) {
      StopsWhenCancelled(active, env, from_ + 1);
    }
  }

  method RecoverActiveTasks(sm: StateManager, env: Surroundings)
    returns (results: seq<RecoveryResult>, cancelled: bool, active: seq<TaskRecord>)
    modifies Repr(sm)
    ensures
      if NoList(sm.Json?, env.listFails) then active == [] else ListsRunning(old(Contents(sm)), active)
    ensures WellKeyed(old(Contents(sm))) && !NoList(sm.Json?, env.listFails) ==>
      IsActiveList(old(Contents(sm)), active)
    ensures Contents(sm) == StoreAfter(sm.Json?, old(Contents(sm)), active, Reached(active, env, 0), env)
    ensures results == ResultsAfter(active, Reached(active, env, 0), env)
    ensures cancelled == (Reached(active, env, 0) < |active|)
  {
    active := ListActive(sm, env.listFails);
    results, cancelled := RecoverAll(sm, active, env);
  }

  /** The same, for callers whose store keeps each record under its task ID. */
  method RecoverKeyed(sm: StateManager, env: Surroundings)
    returns (results: seq<RecoveryResult>, active: seq<TaskRecord>)
    modifies Repr(sm)
    ensures NoList(sm.Json?, env.listFails) ==> active == []
    ensures WellKeyed(old(Contents(sm))) && !NoList(sm.Json?, env.listFails) ==>
      IsActiveList(old(Contents(sm)), active)
    ensures Contents(sm) == StoreAfter(sm.Json?, old(Contents(sm)), active, Reached(active, env, 0), env)
    ensures results == ResultsAfter(active, Reached(active, env, 0), env)
  {
    var cancelled;
    results, cancelled, active := RecoverActiveTasks(sm, env);
  }

  method RecoverAll(sm: StateManager, active: seq<TaskRecord>, env: Surroundings)
    returns (results: seq<RecoveryResult>, cancelled: bool)
    modifies Repr(sm)
    ensures
      var n := Reached(active, env, 0);
      && Contents(sm) == StoreAfter(sm.Json?, old(Contents(sm)), active, n, env)
      && results == ResultsAfter(active, n, env)
      && cancelled == (n < |active|)
  {
    results := [];
    ghost var t := Contents(sm);
    for i := 0 to |active|
      invariant Contents(sm) == StoreAfter(sm.Json?, t, active, i, env)
      invariant results == ResultsAfter(active, i, env)
      invariant Reached(active, env, 0) == Reached(active, env, i)
    {
      if env.cancelled(i) {
        return results, true;
      }
      var result, ok := RecoverSingle(sm, active[i], env, i);
      if ok {
        results := results + [result];
      }
    }
    cancelled := false;
  }

  method RecoverSingle(sm: StateManager, rec: TaskRecord, env: Surroundings, i: nat)
    returns (result: RecoveryResult, ok: bool)
    modifies Repr(sm)
    ensures Contents(sm)
      == SetResult(sm.Json?, old(Contents(sm)), RecoveredRecord(rec, env), env.clock(i), env.setFails(i))
    ensures ok == !env.setFails(i) && result == ResultFor(rec, env)
  {
    var finalStatus := ERROR;
    match env.answer(rec.taskID) {
      case CheckFailed =>
      case Status(status) =>
        if status == "done" || status == "completed" {
          finalStatus := DONE;
        } else if status == "running" || status == "in_progress" {
          finalStatus := RUNNING;
        }
    }
    ok := SetRecord(sm, TaskRecord(rec.taskID, rec.channelID, rec.slackTS, EMPTY, EMPTY, finalStatus, None),
                    env.clock(i), env.setFails(i));
    result := RecoveryResult(rec.taskID, rec.channelID, finalStatus);
  }

  /** Whether the task is among the first n active records. */
  predicate Among(active: seq<TaskRecord>, n: nat, id: Text)
    requires n <= |active|
  {
    exists i :: 0 <= i < n && active[i].taskID == id
  }

  lemma AmongNext(active: seq<TaskRecord>, n: nat, id: Text)
    requires 0 < n <= |active|
    ensures Among(active, n, id) <==> Among(active, n - 1, id) || active[n - 1].taskID == id
  {
  }

  /** A Set of a stored task touches no other task, and writes the status unless it fails. */
  lemma OneSet(json: bool, t: Table, rec: TaskRecord, now: Instant, fails: bool, k: Text)
    requires rec.taskID in t && k in t && rec.status != EMPTY
    ensures SetResult(json, t, rec, now, fails).Keys == t.Keys
    ensures k != rec.taskID ==> SetResult(json, t, rec, now, fails)[k] == t[k]
    ensures SetResult(json, t, rec, now, fails)[rec.taskID].status
      == if !json && fails then t[rec.taskID].status else rec.status
  {
  }

  lemma OneRecovery(json: bool, t: Table, rec: TaskRecord, env: Surroundings, i: nat, k: Text)
    requires rec.taskID in t && k in t
    ensures
      var t' := SetResult(json, t, RecoveredRecord(rec, env), env.clock(i), env.setFails(i));
      && t'.Keys == t.Keys
      && (k != rec.taskID ==> t'[k] == t[k])
      && t'[rec.taskID].status
         == if !json && env.setFails(i) then t[rec.taskID].status else FinalStatus(env.answer(rec.taskID))
  {
    OneSet(json, t, RecoveredRecord(rec, env), env.clock(i), env.setFails(i), k);
  }

  /** Recovery leaves alone the records it does not reach. */
  lemma {:induction false} OthersUntouched(
      json: bool, t: Table, active: seq<TaskRecord>, n: nat, env: Surroundings, k: Text)
    requires IsActiveList(t, active) && n <= |active| && k in t
    ensures StoreAfter(json, t, active, n, env).Keys == t.Keys
    ensures !Among(active, n, k) ==> StoreAfter(json, t, active, n, env)[k] == t[k]
  {
    if n > 0 {
      OthersUntouched(json, t, active, n - 1, env, k);
      AmongNext(active, n, k);
      OneRecovery(json, StoreAfter(json, t, active, n - 1, env), active[n - 1], env, n - 1, k);
    }
  }

  lemma NextKeeps(json: bool, t: Table, active: seq<TaskRecord>, n: nat, env: Surroundings, k: Text)
    requires IsActiveList(t, active) && n < |active| && k in t && k != active[n].taskID
    ensures k in StoreAfter(json, t, active, n, env) && k in StoreAfter(json, t, active, n + 1, env)
    ensures StoreAfter(json, t, active, n + 1, env)[k] == StoreAfter(json, t, active, n, env)[k]
  {
    OthersUntouched(json, t, active, n, env, k);
    OneRecovery(json, StoreAfter(json, t, active, n, env), active[n], env, n, k);
  }

  lemma StatusWritten(json: bool, t: Table, active: seq<TaskRecord>, i: nat, env: Surroundings)
    requires IsActiveList(t, active) && i < |active|
    ensures active[i].taskID in StoreAfter(json, t, active, i + 1, env)
    ensures StoreAfter(json, t, active, i + 1, env)[active[i].taskID].status
      == if !json && env.setFails(i) then RUNNING else FinalStatus(env.answer(active[i].taskID))
  {
    var k := active[i].taskID;
    assert !Among(active, i, k);
    OthersUntouched(json, t, active, i, env, k);
    OneRecovery(json, StoreAfter(json, t, active, i, env), active[i], env, i, k);
  }

  /** Recovery writes each record it reaches with its final status, unless the Set fails and
      the store then leaves the record as it was. */
  lemma {:induction false} FinalStatusStored(
      json: bool, t: Table, active: seq<TaskRecord>, n: nat, env: Surroundings, i: nat)
    requires IsActiveList(t, active) && i < n <= |active|
    ensures active[i].taskID in StoreAfter(json, t, active, n, env)
    ensures StoreAfter(json, t, active, n, env)[active[i].taskID].status
      == if !json && env.setFails(i) then RUNNING else FinalStatus(env.answer(active[i].taskID))
  {
    if i == n - 1 {
      StatusWritten(json, t, active, i, env);
    } else {
      FinalStatusStored(json, t, active, n - 1, env, i);
      NextKeeps(json, t, active, n - 1, env, active[i].taskID);
    }
  }

  /** The results are those of the records whose Set succeeded, in order. */
  lemma {:induction false} ResultsOfRecovery(t: Table, active: seq<TaskRecord>, n: nat, env: Surroundings)
    requires IsActiveList(t, active) && n <= |active|
    ensures forall r :: r in ResultsAfter(active, n, env) ==>
      exists i :: 0 <= i < n && !env.setFails(i) && r == ResultFor(active[i], env)
    ensures forall i :: 0 <= i < n && !env.setFails(i) ==> ResultFor(active[i], env) in ResultsAfter(active, n, env)
    ensures DistinctResults(ResultsAfter(active, n, env))
  {
    if n > 0 {
      ResultsOfRecovery(t, active, n - 1, env);
      var before := ResultsAfter(active, n - 1, env);
      forall i | 0 <= i < |before|
        ensures before[i].taskID != active[n - 1].taskID
      {
        assert before[i] in before;
      }
    }
  }

  predicate DistinctResults(results: seq<RecoveryResult>)
  {
    forall i, j :: 0 <= i < j < |results| ==> results[i].taskID != results[j].taskID
  }

  /** The tasks the store says are running. */
  ghost function StoredRunning(t: Table): set<Text>
  {
    set k | k in t && t[k].status == RUNNING
  }

  ghost function ReportedRunning(results: seq<RecoveryResult>): set<Text>
  {
    set r | r in results && r.finalStatus == RUNNING :: r.taskID
  }

  /** Every task reported running is stored as running; without a cancellation or a failed Set
      the two sets are the same. */
  lemma ReportsMatchStore(json: bool, t: Table, active: seq<TaskRecord>, env: Surroundings)
    requires IsActiveList(t, active) && WellKeyed(t)
    ensures
      var n := Reached(active, env, 0);
      var t' := StoreAfter(json, t, active, n, env);
      var results := ResultsAfter(active, n, env);
      && ReportedRunning(results) <= StoredRunning(t')
      && (n == |active| && (forall i :: 0 <= i < n ==> !env.setFails(i)) ==>
            ReportedRunning(results) == StoredRunning(t'))
  {
    var n := Reached(active, env, 0);
    var t' := StoreAfter(json, t, active, n, env);
    var results := ResultsAfter(active, n, env);
    ResultsOfRecovery(t, active, n, env);
    forall id | id in ReportedRunning(results)
      ensures id in StoredRunning(t')
    {
      var r :| r in results && r.finalStatus == RUNNING && r.taskID == id;
      var i :| 0 <= i < n && !env.setFails(i) && r == ResultFor(active[i], env);
      FinalStatusStored(json, t, active, n, env, i);
    }
    if n == |active| && forall i :: 0 <= i < n ==> !env.setFails(i) {
      forall id | id in StoredRunning(t')
        ensures id in ReportedRunning(results)
      {
        StoredWasReached(json, t, active, env, id);
      }
    }
  }

  lemma StoredWasReached(json: bool, t: Table, active: seq<TaskRecord>, env: Surroundings, id: Text)
    requires IsActiveList(t, active) && WellKeyed(t) && forall i :: 0 <= i < |active| ==> !env.setFails(i)
    requires id in StoredRunning(StoreAfter(json, t, active, |active|, env))
    ensures id in ReportedRunning(ResultsAfter(active, |active|, env))
  {
    ResultsOfRecovery(t, active, |active|, env);
    SameKeys(json, t, active, |active|, env);
    OthersUntouched(json, t, active, |active|, env, id);
    assert Among(active, |active|, id) by {
      if t[id].status == RUNNING {
        assert t[id] in active;
      }
    }
    var i :| 0 <= i < |active| && active[i].taskID == id;
    FinalStatusStored(json, t, active, |active|, env, i);
    assert ResultFor(active[i], env) in ResultsAfter(active, |active|, env);
  }

  lemma {:induction false} SameKeys(json: bool, t: Table, active: seq<TaskRecord>, n: nat, env: Surroundings)
    requires IsActiveList(t, active) && n <= |active|
    ensures StoreAfter(json, t, active, n, env).Keys == t.Keys
  {
    if n > 0 {
      OthersUntouched(json, t, active, n, env, active[n - 1].taskID);
    }
  }

  /** The i-th active record, once recovery has got to it, is what its own Set leaves. */
  lemma {:induction false} RecoveredIs(
      json: bool, t: Table, active: seq<TaskRecord>, n: nat, env: Surroundings, i: nat)
    requires IsActiveList(t, active) && i < n <= |active|
    ensures
      var k := active[i].taskID;
      && k in StoreAfter(json, t, active, n, env)
      && StoreAfter(json, t, active, n, env)[k]
         == SetResult(json, t, RecoveredRecord(active[i], env), env.clock(i), env.setFails(i))[k]
  {
    if i == n - 1 {
      NotReachedYet(json, t, active, i, env);
      SameSet(json, t, StoreAfter(json, t, active, i, env), RecoveredRecord(active[i], env), env.clock(i),
              env.setFails(i));
    } else {
      RecoveredIs(json, t, active, n - 1, env, i);
      NextKeeps(json, t, active, n - 1, env, active[i].taskID);
    }
  }

  lemma NotReachedYet(json: bool, t: Table, active: seq<TaskRecord>, i: nat, env: Surroundings)
    requires IsActiveList(t, active) && i < |active|
    ensures active[i].taskID in StoreAfter(json, t, active, i, env)
    ensures StoreAfter(json, t, active, i, env)[active[i].taskID] == t[active[i].taskID]
  {
    assert !Among(active, i, active[i].taskID);
    OthersUntouched(json, t, active, i, env, active[i].taskID);
  }

  /** What a Set leaves of its record depends on this record only. */
  lemma SameSet(json: bool, t: Table, u: Table, rec: TaskRecord, now: Instant, fails: bool)
    requires rec.taskID in t && rec.taskID in u && t[rec.taskID] == u[rec.taskID]
    ensures SetResult(json, u, rec, now, fails)[rec.taskID] == SetResult(json, t, rec, now, fails)[rec.taskID]
  {
  }

  /** A record that recovery gets to keeps its prompt and its user exactly when the store merges,
      or its Set fails, or there was none to lose: the SQLite store loses the prompt that a
      retry needs. Channel and message timestamp are always kept. */
  lemma RecoveryAndPrompts(json: bool, t: Table, active: seq<TaskRecord>, n: nat, env: Surroundings, i: nat)
    requires IsActiveList(t, active) && i < n <= |active|
    ensures active[i].taskID in StoreAfter(json, t, active, n, env)
    ensures
      var r := StoreAfter(json, t, active, n, env)[active[i].taskID];
      && (r.prompt == active[i].prompt <==> json || env.setFails(i) || active[i].prompt == EMPTY)
      && (r.userID == active[i].userID <==> json || env.setFails(i) || active[i].userID == EMPTY)
      && r.channelID == active[i].channelID && r.slackTS == active[i].slackTS
  {
    RecoveredIs(json, t, active, n, env, i);
  }

  // ---------------------------------------------------------------- the worker's answers

  predicate SaysFinished(a: Answer)
  {
    a == Status("done") || a == Status("completed")
  }

  predicate SaysRunning(a: Answer)
  {
    a == Status("running") || a == Status("in_progress")
  }

  /** A record that recovery gets to, if its Set takes effect, is stored as done, as running or
      as error by what the worker answers: failed, timed out, anything else, or no answer at
      all is an error. */
  lemma AnswerStored(json: bool, t: Table, active: seq<TaskRecord>, n: nat, env: Surroundings, i: nat)
    requires IsActiveList(t, active) && i < n <= |active| && (json || !env.setFails(i))
    ensures active[i].taskID in StoreAfter(json, t, active, n, env)
    ensures
      var status := StoreAfter(json, t, active, n, env)[active[i].taskID].status;
      var answer := env.answer(active[i].taskID);
      && (status == Text("done") <==> SaysFinished(answer))
      && (status == Text("running") <==> SaysRunning(answer))
      && (status == Text("error") <==> !SaysFinished(answer) && !SaysRunning(answer))
  {
    FinalStatusStored(json, t, active, n, env, i);
  }

  /** The result that recovery reports for a record names its task, its channel, and the status
      that the worker's answer stands for. */
  lemma ResultMeans(rec: TaskRecord, env: Surroundings)
    ensures
      var r := ResultFor(rec, env);
      && r.taskID == rec.taskID && r.channelID == rec.channelID
      && (r.finalStatus == Text("running") <==> SaysRunning(env.answer(rec.taskID)))
      && (r.finalStatus == Text("done") <==> SaysFinished(env.answer(rec.taskID)))
  {
  }

  /** When nothing fails and nothing is cancelled, the tasks stored as running after recovery are
      those that were, and of which the worker says so. */
  lemma StoredRunningIs(json: bool, t: Table, active: seq<TaskRecord>, env: Surroundings, k: Text)
    requires IsActiveList(t, active) && WellKeyed(t) && forall i :: 0 <= i < |active| ==> !env.setFails(i)
    ensures
      var t' := StoreAfter(json, t, active, |active|, env);
      k in t' && t'[k].status == Text("running")
      <==> k in t && t[k].status == Text("running") && SaysRunning(env.answer(k))
  {
    SameKeys(json, t, active, |active|, env);
    if k in t {
      if t[k].status == RUNNING {
        assert t[k] in active;
        var i :| 0 <= i < |active| && active[i] == t[k];
        assert active[i].taskID == k;
        AnswerStored(json, t, active, |active|, env, i);
      } else {
        OthersUntouched(json, t, active, |active|, env, k);
      }
    }
  }

  /** Recovery keeps the channel of every record. */
  lemma ChannelsKept(json: bool, t: Table, active: seq<TaskRecord>, n: nat, env: Surroundings, k: Text)
    requires IsActiveList(t, active) && n <= |active| && k in t
    ensures k in StoreAfter(json, t, active, n, env)
    ensures StoreAfter(json, t, active, n, env)[k].channelID == t[k].channelID
  {
    OthersUntouched(json, t, active, n, env, k);
    if Among(active, n, k) {
      var i :| 0 <= i < n && active[i].taskID == k;
      RecoveryAndPrompts(json, t, active, n, env, i);
    }
  }

  /** Every status that Stop writes is the literal one. */
  lemma MarkMeans(json: bool, t: Table, id: Text, now: Instant)
    ensures SetResult(json, t, InterruptMark(id), now, false)[id].status == Text("interrupted")
  {
  }

  // ---------------------------------------------------------------- shutdown

  function InterruptMark(id: Text): TaskRecord
  {
    TaskRecord(id, EMPTY, EMPTY, EMPTY, EMPTY, INTERRUPTED, None)
  }

  function Interrupted(rec: TaskRecord): TaskRecord
  {
    InterruptMark(rec.taskID)
  }

  /** The store after the first n active records have been marked as interrupted. */
  function StoreStopped(json: bool, t: Table, active: seq<TaskRecord>, n: nat, env: Surroundings): Table
    requires n <= |active|
  {
    if n == 0 then t
    else SetResult(json, StoreStopped(json, t, active, n - 1, env), Interrupted(active[n - 1]),
                   env.clock(n - 1), env.setFails(n - 1))
  }

  /** The part of Stop that marks the running tasks. */
  method MarkInterrupted(sm: StateManager, env: Surroundings) returns (active: seq<TaskRecord>)
    modifies Repr(sm)
    ensures
      if NoList(sm.Json?, env.listFails) then active == [] else ListsRunning(old(Contents(sm)), active)
    ensures WellKeyed(old(Contents(sm))) && !NoList(sm.Json?, env.listFails) ==>
      IsActiveList(old(Contents(sm)), active)
    ensures Contents(sm) == StoreStopped(sm.Json?, old(Contents(sm)), active, |active|, env)
  {
    active := ListActive(sm, env.listFails);
    MarkAll(sm, active, env);
  }

  method MarkAll(sm: StateManager, active: seq<TaskRecord>, env: Surroundings)
    modifies Repr(sm)
    ensures Contents(sm) == StoreStopped(sm.Json?, old(Contents(sm)), active, |active|, env)
  {
    for i := 0 to |active|
      invariant Contents(sm) == StoreStopped(sm.Json?, old(Contents(sm)), active, i, env)
    {
      var _ := SetRecord(sm, Interrupted(active[i]), env.clock(i), env.setFails(i));
    }
  }

  lemma OneInterrupt(json: bool, t: Table, rec: TaskRecord, now: Instant, fails: bool, k: Text)
    requires rec.taskID in t && k in t
    ensures
      var t' := SetResult(json, t, Interrupted(rec), now, fails);
      && t'.Keys == t.Keys
      && if k == rec.taskID && (json || !fails) then t'[k].status == INTERRUPTED else t'[k] == t[k]
  {
    OneSet(json, t, Interrupted(rec), now, fails, k);
  }

  /** Whether the task is among the first n active records and its Set reaches the store: the
      JSON store changes its memory even when it cannot save, the SQLite store does not. */
  predicate Marked(json: bool, active: seq<TaskRecord>, n: nat, env: Surroundings, id: Text)
    requires n <= |active|
  {
    exists i :: 0 <= i < n && active[i].taskID == id && (json || !env.setFails(i))
  }

  lemma MarkedNext(json: bool, active: seq<TaskRecord>, n: nat, env: Surroundings, id: Text)
    requires 0 < n <= |active|
    ensures Marked(json, active, n, env, id)
      <==> Marked(json, active, n - 1, env, id) || (active[n - 1].taskID == id && (json || !env.setFails(n - 1)))
  {
  }

  lemma {:induction false} StopWrites(json: bool, t: Table, active: seq<TaskRecord>, n: nat, env: Surroundings, k: Text)
    requires IsActiveList(t, active) && n <= |active| && k in t
    ensures StoreStopped(json, t, active, n, env).Keys == t.Keys
    ensures
      if Marked(json, active, n, env, k) then StoreStopped(json, t, active, n, env)[k].status == INTERRUPTED
      else StoreStopped(json, t, active, n, env)[k] == t[k]
  {
    if n > 0 {
      StopWrites(json, t, active, n - 1, env, k);
      MarkedNext(json, active, n, env, k);
      var before := StoreStopped(json, t, active, n - 1, env);
      OneInterrupt(json, before, active[n - 1], env.clock(n - 1), env.setFails(n - 1), k);
    }
  }

  lemma StopKeepsKeys(json: bool, t: Table, active: seq<TaskRecord>, n: nat, env: Surroundings)
    requires IsActiveList(t, active) && n <= |active|
    ensures StoreStopped(json, t, active, n, env).Keys == t.Keys
  {
    if n > 0 {
      StopWrites(json, t, active, n, env, active[n - 1].taskID);
    }
  }

  /** Stop interrupts exactly the running records whose Set reaches the store, and leaves every
      other record alone: what runs afterwards is what ran and could not be written. */
  lemma StopMarks(json: bool, t: Table, active: seq<TaskRecord>, env: Surroundings)
    requires IsActiveList(t, active)
    ensures
      var t' := StoreStopped(json, t, active, |active|, env);
      && t'.Keys == t.Keys
      && (forall k :: k in t ==>
            if Marked(json, active, |active|, env, k) then t'[k].status == INTERRUPTED else t'[k] == t[k])
      && StoredRunning(t') == set k | k in StoredRunning(t) && !Marked(json, active, |active|, env, k)
  {
    var t' := StoreStopped(json, t, active, |active|, env);
    StopKeepsKeys(json, t, active, |active|, env);
    forall k | k in t
      ensures if Marked(json, active, |active|, env, k) then t'[k].status == INTERRUPTED else t'[k] == t[k]
    {
      StopWrites(json, t, active, |active|, env, k);
    }
  }

  /** After a Stop the next recovery finds exactly the records that the SQLite store failed to
      write, as they were. It finds nothing to do iff the store merges in memory or no Set
      fails. */
  lemma StopThenRestart(json: bool, t: Table, active: seq<TaskRecord>, env: Surroundings, again: seq<TaskRecord>)
    requires IsActiveList(t, active) && WellKeyed(t)
    requires IsActiveList(StoreStopped(json, t, active, |active|, env), again)
    ensures forall i :: 0 <= i < |active| ==> (active[i] in again <==> !json && env.setFails(i))
    ensures forall r :: r in again ==> r in active
    ensures again == [] <==> json || forall i :: 0 <= i < |active| ==> !env.setFails(i)
  {
    var t' := StoreStopped(json, t, active, |active|, env);
    StopMarks(json, t, active, env);
    forall i | 0 <= i < |active|
      ensures active[i] in again <==> !json && env.setFails(i)
    {
      var k := active[i].taskID;
      assert Marked(json, active, |active|, env, k) <==> json || !env.setFails(i);
      if json || !env.setFails(i) {
        assert t'[k].status == INTERRUPTED;
      } else {
        assert t'[k] == t[k] && t'[k] in again;
      }
    }
    forall r | r in again
      ensures r in active
    {
      assert r.taskID in StoredRunning(t');
      assert t[r.taskID] == r;
    }
    if again != [] {
      assert again[0] in again;
      var i :| 0 <= i < |active| && active[i] == again[0];
    }
  }

  lemma NotMarkedYet(json: bool, t: Table, active: seq<TaskRecord>, i: nat, env: Surroundings)
    requires IsActiveList(t, active) && i < |active|
    ensures active[i].taskID in StoreStopped(json, t, active, i, env)
    ensures StoreStopped(json, t, active, i, env)[active[i].taskID] == t[active[i].taskID]
  {
    assert !Marked(json, active, i, env, active[i].taskID);
    StopWrites(json, t, active, i, env, active[i].taskID);
  }

  lemma NextStops(json: bool, t: Table, active: seq<TaskRecord>, n: nat, env: Surroundings, k: Text)
    requires IsActiveList(t, active) && n < |active| && k in t && k != active[n].taskID
    ensures k in StoreStopped(json, t, active, n, env) && k in StoreStopped(json, t, active, n + 1, env)
    ensures StoreStopped(json, t, active, n + 1, env)[k] == StoreStopped(json, t, active, n, env)[k]
  {
    StopKeepsKeys(json, t, active, n, env);
    var before := StoreStopped(json, t, active, n, env);
    OneInterrupt(json, before, active[n], env.clock(n), env.setFails(n), k);
  }

  lemma {:induction false} StoppedIs(
      json: bool, t: Table, active: seq<TaskRecord>, n: nat, env: Surroundings, i: nat)
    requires IsActiveList(t, active) && i < n <= |active|
    ensures
      var k := active[i].taskID;
      && k in StoreStopped(json, t, active, n, env)
      && StoreStopped(json, t, active, n, env)[k]
         == SetResult(json, t, Interrupted(active[i]), env.clock(i), env.setFails(i))[k]
  {
    if i == n - 1 {
      NotMarkedYet(json, t, active, i, env);
      SameSet(json, t, StoreStopped(json, t, active, i, env), Interrupted(active[i]), env.clock(i), env.setFails(i));
    } else {
      StoppedIs(json, t, active, n - 1, env, i);
      NextStops(json, t, active, n - 1, env, active[i].taskID);
    }
  }

  /** Stop keeps the channel, message timestamp, user and prompt of a running record exactly when
      the store merges, or its Set fails, or there was nothing to lose. */
  lemma StopAndChannels(json: bool, t: Table, active: seq<TaskRecord>, env: Surroundings, i: nat)
    requires IsActiveList(t, active) && i < |active|
    ensures active[i].taskID in StoreStopped(json, t, active, |active|, env)
    ensures
      var r := StoreStopped(json, t, active, |active|, env)[active[i].taskID];
      var kept := json || env.setFails(i);
      && (r.channelID == active[i].channelID <==> kept || active[i].channelID == EMPTY)
      && (r.slackTS == active[i].slackTS <==> kept || active[i].slackTS == EMPTY)
      && (r.userID == active[i].userID <==> kept || active[i].userID == EMPTY)
      && (r.prompt == active[i].prompt <==> kept || active[i].prompt == EMPTY)
  {
    StoppedIs(json, t, active, |active|, env, i);
  }
}
