/** The gateway: mentions, the callback of directly run tasks, recovery and shutdown, as they
    drive the task queue and the store. */
module GatewayClass {
  import opened Prelude
  import opened Protocol
  import opened Decimals
  import opened Tasks
  import opened QueueSpec
  import opened QueueLemmas
  import opened Stores
  import opened Recovery
  import opened TaskQueueClass
  import G = GatewayRuns
  import GS = GatewaySteps
  import R = QueueRuns
  import S = Scheduler

  // ---------------------------------------------------------------- reconciling the queue

  function RecoveredTask(r: RecoveryResult, createdAt: Time): Task
  {
    Task(r.taskID, r.channelID, EMPTY, EMPTY, Running, createdAt, None)
  }

  /** A recovered task is registered; unless it still runs, it is released again at once. */
  function Reconciled(s: S.Sys, r: RecoveryResult, now: Time, env: S.Env): S.Sys
  {
    var s' := S.MarkRunningDirect(s, RecoveredTask(r, now), now);
    if r.finalStatus == RUNNING then s' else S.Release(s', r.taskID, r.finalStatus == DONE, env)
  }

  function ReconciledAll(s: S.Sys, results: seq<RecoveryResult>, clock: nat -> Time, env: S.Env): S.Sys
  {
    if results == [] then s
    else Reconciled(ReconciledAll(s, Front(results), clock, env), Last(results), clock(|results| - 1), env)
  }

  ghost function OnChannel(q: Queue, c: Text): set<Text>
  {
    set k | k in q.running && q.running[k].channel == c
  }

  /** Nothing waits, and every channel counter is the number of running tasks of the channel. */
  ghost predicate Clean(q: Queue)
  {
    && q.waiting == [] && q.limit >= 0
    && Consistent(q)
    && (forall c :: Count(q.channels, c) == |OnChannel(q, c)|)
    && (forall c :: c in q.channels ==> q.channels[c] > 0)
  }

  lemma RegisterCounts(q: Queue, t: Task, now: Time, c: Text)
    requires Clean(q) && DirectAccepted(q, t)
    ensures Count(RunDirectly(q, t, now).channels, c) == |OnChannel(RunDirectly(q, t, now), c)|
  {
    RegisterOn(q, t, now, c);
    var more := if c == t.channel then {t.id} else {};
    assert |OnChannel(q, c) + more| == |OnChannel(q, c)| + |more|;
  }

  lemma RegisterOn(q: Queue, t: Task, now: Time, c: Text)
    requires DirectAccepted(q, t)
    ensures OnChannel(RunDirectly(q, t, now), c) == OnChannel(q, c) + if c == t.channel then {t.id} else {}
    ensures t.id !in OnChannel(q, c)
  {
    var q' := RunDirectly(q, t, now);
    forall k
      ensures k in OnChannel(q', c) <==> k in OnChannel(q, c) || (k == t.id && c == t.channel)
    {
    }
  }

  lemma RegisterClean(q: Queue, t: Task, now: Time)
    requires Clean(q) && DirectAccepted(q, t)
    ensures Clean(RunDirectly(q, t, now))
  {
    forall c
      ensures Count(RunDirectly(q, t, now).channels, c) == |OnChannel(RunDirectly(q, t, now), c)|
    {
      RegisterCounts(q, t, now, c);
    }
  }

  /** Registering and releasing a task leaves the queue as it was. */
  lemma RegisterRelease(q: Queue, t: Task, now: Time)
    requires Clean(q) && DirectAccepted(q, t)
    ensures Released(RunDirectly(q, t, now), t.id) == q
  {
    assert q.running[t.id := StartedDirectly(t, now)] - {t.id} == q.running;
    assert Decremented(Incremented(q.channels, t.channel), t.channel) == q.channels;
  }

  /** A recovered task runs on the channel of its record, and has no start time. */
  predicate IsRecovered(t: Task, r: RecoveryResult)
  {
    t.id == r.taskID && t.channel == r.channelID && t.status == Running && t.startedAt == None
  }

  lemma ReconciledTask(s: S.Sys, r: RecoveryResult, now: Time, env: S.Env)
    requires Clean(s.q) && r.taskID !in s.q.running
    ensures
      var q' := Reconciled(s, r, now, env).q;
      && (forall k :: k in s.q.running ==> k in q'.running && q'.running[k] == s.q.running[k])
      && (r.taskID in q'.running ==> r.finalStatus == RUNNING && IsRecovered(q'.running[r.taskID], r))
      && (forall k :: k in q'.running ==> k in s.q.running || k == r.taskID)
  {
    if r.taskID != EMPTY && r.finalStatus != RUNNING {
      NoLongerRunning(s, r, now, env);
    }
  }

  lemma BeforeLast(s: S.Sys, results: seq<RecoveryResult>, clock: nat -> Time, env: S.Env)
    requires Clean(s.q) && s.q.running == map[] && DistinctResults(results) && results != []
    ensures
      var s1 := ReconciledAll(s, Front(results), clock, env);
      Clean(s1.q) && Last(results).taskID !in s1.q.running && DistinctResults(Front(results))
  {
    ReconciledQueue(s, Front(results), clock, env);
    ReportedSnoc(results);
  }

  /** Every running task of the reconciled queue is the recovered task of a result that says
      running. */
  lemma {:induction false} ReconciledTasks(
      s: S.Sys, results: seq<RecoveryResult>, clock: nat -> Time, env: S.Env, k: Text) returns (i: nat)
    requires Clean(s.q) && s.q.running == map[] && DistinctResults(results)
    requires k in ReconciledAll(s, results, clock, env).q.running
    ensures i < |results| && results[i].finalStatus == RUNNING
    ensures IsRecovered(ReconciledAll(s, results, clock, env).q.running[k], results[i]) && results[i].taskID == k
  {
    var s1, r := ReconciledAll(s, Front(results), clock, env), Last(results);
    BeforeLast(s, results, clock, env);
    ReconciledTask(s1, r, clock(|results| - 1), env);
    if k == r.taskID {
      i := |results| - 1;
    } else {
      i := ReconciledTasks(s, Front(results), clock, env, k);
    }
  }

  lemma StillRunning(s: S.Sys, r: RecoveryResult, now: Time, env: S.Env)
    requires Clean(s.q) && r.taskID !in s.q.running && r.finalStatus == RUNNING && r.taskID != EMPTY
    ensures Clean(Reconciled(s, r, now, env).q) && Reconciled(s, r, now, env).log == s.log
    ensures Reconciled(s, r, now, env).q.running.Keys == s.q.running.Keys + {r.taskID}
  {
    RegisterClean(s.q, RecoveredTask(r, now), now);
  }

  lemma NothingToDequeue(s: S.Sys, env: S.Env)
    requires s.q.waiting == []
    ensures S.TryDequeue(s, env) == s
  {
  }

  lemma NoLongerRunning(s: S.Sys, r: RecoveryResult, now: Time, env: S.Env)
    requires Clean(s.q) && r.taskID !in s.q.running && r.finalStatus != RUNNING && r.taskID != EMPTY
    ensures Reconciled(s, r, now, env).q == s.q && Reconciled(s, r, now, env).log == s.log
  {
    var t := RecoveredTask(r, now);
    RegisterRelease(s.q, t, now);
    NothingToDequeue(S.ReleaseSlot(S.MarkRunningDirect(s, t, now), r.taskID), env);
  }

  lemma ReconciledEffect(s: S.Sys, r: RecoveryResult, now: Time, env: S.Env)
    requires Clean(s.q) && r.taskID !in s.q.running
    ensures Clean(Reconciled(s, r, now, env).q)
    ensures Reconciled(s, r, now, env).q.running.Keys
      == s.q.running.Keys + if r.finalStatus == RUNNING && r.taskID != EMPTY then {r.taskID} else {}
    ensures Reconciled(s, r, now, env).log == s.log
  {
    if r.taskID == EMPTY {
      assert Reconciled(s, r, now, env) == s;
    } else if r.finalStatus == RUNNING {
      StillRunning(s, r, now, env);
    } else {
      NoLongerRunning(s, r, now, env);
    }
  }

  lemma ReportedSnoc(results: seq<RecoveryResult>)
    requires results != [] && DistinctResults(results)
    ensures Last(results).taskID !in ReportedRunning(Front(results))
    ensures ReportedRunning(results)
      == ReportedRunning(Front(results)) + if Last(results).finalStatus == RUNNING then {Last(results).taskID} else {}
  {
    assert results == Front(results) + [Last(results)];
  }

  lemma {:induction false} ReconciledQueue(s: S.Sys, results: seq<RecoveryResult>, clock: nat -> Time, env: S.Env)
    requires Clean(s.q) && s.q.running == map[] && DistinctResults(results)
    ensures Clean(ReconciledAll(s, results, clock, env).q)
    ensures ReconciledAll(s, results, clock, env).q.running.Keys == ReportedRunning(results) - {EMPTY}
    ensures ReconciledAll(s, results, clock, env).log == s.log
  {
    if results != [] {
      ReconciledQueue(s, Front(results), clock, env);
      ReportedSnoc(results);
      var s1, r := ReconciledAll(s, Front(results), clock, env), Last(results);
      ReconciledEffect(s1, r, clock(|results| - 1), env);
      OneMoreReported(ReportedRunning(Front(results)), r);
    }
  }

  lemma OneMoreReported(reported: set<Text>, r: RecoveryResult)
    ensures reported - {EMPTY} + (if r.finalStatus == RUNNING && r.taskID != EMPTY then {r.taskID} else {})
      == reported + (if r.finalStatus == RUNNING then {r.taskID} else {}) - {EMPTY}
  {
  }

  lemma RecoveryTouchesActiveOnly(json: bool, t: Table, active: seq<TaskRecord>, n: nat, world: Surroundings)
    requires IsActiveList(t, active) && n <= |active|
    ensures StoreAfter(json, t, active, n, world).Keys == t.Keys
    ensures forall k :: k in t && t[k].status != RUNNING ==> StoreAfter(json, t, active, n, world)[k] == t[k]
  {
    SameKeys(json, t, active, n, world);
    forall k | k in t && t[k].status != RUNNING
      ensures StoreAfter(json, t, active, n, world)[k] == t[k]
    {
      OthersUntouched(json, t, active, n, world, k);
    }
  }

  /** No query and no Set fails, and the context is never cancelled. */
  ghost predicate AllWell(world: Surroundings)
  {
    !world.listFails && forall i :: !world.cancelled(i) && !world.setFails(i)
  }

  /** The queue and the store agree on what runs: always every running task is stored as
      running, and when all went well and no ID is empty the converse holds too. */
  ghost predicate Agree(q: Queue, t: Table, allWell: bool)
  {
    && EMPTY !in q.running && q.running.Keys <= StoredRunning(t)
    && (allWell && EMPTY !in t ==> q.running.Keys == StoredRunning(t))
  }

  /** After recovery and reconciliation of an empty queue, every running task is stored as
      running; if no Set failed, nothing was cancelled and no ID is empty, the two sets are
      equal. Each channel counter is its number of running tasks, and only active records
      have been touched. */
  lemma RecoveryAgreement(
      json: bool, t: Table, active: seq<TaskRecord>, world: Surroundings, s: S.Sys, clock: nat -> Time, env: S.Env)
    requires IsActiveList(t, active) && WellKeyed(t)
    requires Clean(s.q) && s.q.running == map[]
    ensures
      var n := Reached(active, world, 0);
      var t' := StoreAfter(json, t, active, n, world);
      var s' := ReconciledAll(s, ResultsAfter(active, n, world), clock, env);
      && Clean(s'.q)
      && Agree(s'.q, t', n == |active| && forall i :: 0 <= i < n ==> !world.setFails(i))
      && t'.Keys == t.Keys && forall k :: k in t && t[k].status != RUNNING ==> t'[k] == t[k]
  {
    var n := Reached(active, world, 0);
    ReportsMatchStore(json, t, active, world);
    ResultsOfRecovery(t, active, n, world);
    ReconciledQueue(s, ResultsAfter(active, n, world), clock, env);
    RecoveryTouchesActiveOnly(json, t, active, n, world);
  }

  lemma {:induction false} NotCancelled(active: seq<TaskRecord>, world: Surroundings, from_: nat)
    requires from_ <= |active|
    ensures AllWell(world) ==> Reached(active, world, from_) == |active|
    decreases |active| - from_
  {
    if from_ < |active| {
      NotCancelled(active, world, from_ + 1);
    }
  }

  lemma StartupAgrees(
      json: bool, t: Table, active: seq<TaskRecord>, world: Surroundings, s: S.Sys, clock: nat -> Time, env: S.Env)
    requires IsActiveList(t, active) && WellKeyed(t)
    requires Clean(s.q) && s.q.running == map[]
    ensures
      var n := Reached(active, world, 0);
      var q := ReconciledAll(s, ResultsAfter(active, n, world), clock, env).q;
      Clean(q) && Agree(q, StoreAfter(json, t, active, n, world), AllWell(world))
  {
    RecoveryAgreement(json, t, active, world, s, clock, env);
    NotCancelled(active, world, 0);
  }

  /** At most one task per channel runs, and no ID is empty or of the generated form. */
  ghost predicate Startable(q: Queue)
  {
    && G.OnePerChannel(q) && EMPTY !in q.running
    && forall n: nat :: n > 0 ==> GeneratedID(n) !in q.running
  }

  /** Every running task is on the channel that the store had for it. */
  ghost predicate OnStoredChannels(q: Queue, t: Table)
  {
    forall k :: k in q.running ==> k in t && q.running[k].channel == t[k].channelID && q.running[k].status == Running
  }

  /** The running tasks are the active ones, with an ID, of which the worker says that they run. */
  ghost predicate RunsWhatWorkersSay(q: Queue, t: Table, world: Surroundings)
  {
    forall k :: k in q.running
      <==> k in t && k != EMPTY && t[k].status == Text("running") && SaysRunning(world.answer(k))
  }

  ghost function StoredRunningOn(t: Table, c: Text): set<Text>
  {
    set k | k in t && t[k].status == Text("running") && t[k].channelID == c
  }

  /** The counter of a channel is the number of records stored as running on it. */
  ghost predicate CountersMatchStore(q: Queue, t: Table)
  {
    forall c :: Count(q.channels, c) == |StoredRunningOn(t, c)|
  }

  /** The queue after the start of the program, with the store before and after recovery. */
  ghost predicate StartedUp(q: Queue, before: Table, t: Table, world: Surroundings)
  {
    && Clean(q) && Agree(q, t, AllWell(world))
    && OnStoredChannels(q, before)
    && (AllWell(world) ==> RunsWhatWorkersSay(q, before, world))
    && (AllWell(world) && EMPTY !in before ==> CountersMatchStore(q, t))
  }

  lemma ReconciledChannels(
      json: bool, t: Table, active: seq<TaskRecord>, n: nat, world: Surroundings, s: S.Sys, clock: nat -> Time,
      env: S.Env)
    requires IsActiveList(t, active) && WellKeyed(t) && n <= |active|
    requires Clean(s.q) && s.q.running == map[]
    ensures OnStoredChannels(ReconciledAll(s, ResultsAfter(active, n, world), clock, env).q, t)
  {
    var results := ResultsAfter(active, n, world);
    ResultsOfRecovery(t, active, n, world);
    forall k | k in ReconciledAll(s, results, clock, env).q.running
      ensures
        var q := ReconciledAll(s, results, clock, env).q;
        k in t && q.running[k].channel == t[k].channelID && q.running[k].status == Running
    {
      var j := ReconciledTasks(s, results, clock, env, k);
      assert results[j] in results;
      var i :| 0 <= i < n && !world.setFails(i) && results[j] == ResultFor(active[i], world);
      ResultMeans(active[i], world);
    }
  }

  lemma ReconciledAnswers(
      json: bool, t: Table, active: seq<TaskRecord>, world: Surroundings, s: S.Sys, clock: nat -> Time, env: S.Env)
    requires IsActiveList(t, active) && WellKeyed(t) && AllWell(world)
    requires Clean(s.q) && s.q.running == map[]
    ensures RunsWhatWorkersSay(ReconciledAll(s, ResultsAfter(active, |active|, world), clock, env).q, t, world)
  {
    var results := ResultsAfter(active, |active|, world);
    NotCancelled(active, world, 0);
    ReportsMatchStore(json, t, active, world);
    ResultsOfRecovery(t, active, |active|, world);
    ReconciledQueue(s, results, clock, env);
    forall k
      ensures k in ReportedRunning(results)
        <==> k in t && t[k].status == Text("running") && SaysRunning(world.answer(k))
    {
      StoredRunningIs(json, t, active, world, k);
    }
  }

  lemma CountersOfStore(q: Queue, before: Table, t: Table, c: Text)
    requires Clean(q) && OnStoredChannels(q, before) && q.running.Keys == StoredRunning(t)
    requires forall k :: k in t ==> k in before && t[k].channelID == before[k].channelID
    ensures Count(q.channels, c) == |StoredRunningOn(t, c)|
  {
    assert OnChannel(q, c) == StoredRunningOn(t, c);
  }

  lemma ReconciledCounters(
      json: bool, t: Table, active: seq<TaskRecord>, world: Surroundings, s: S.Sys, clock: nat -> Time, env: S.Env)
    requires IsActiveList(t, active) && WellKeyed(t) && AllWell(world) && EMPTY !in t
    requires Clean(s.q) && s.q.running == map[]
    ensures CountersMatchStore(ReconciledAll(s, ResultsAfter(active, |active|, world), clock, env).q,
                               StoreAfter(json, t, active, |active|, world))
  {
    var q, t' := ReconciledAll(s, ResultsAfter(active, |active|, world), clock, env).q,
                 StoreAfter(json, t, active, |active|, world);
    NotCancelled(active, world, 0);
    RecoveryAgreement(json, t, active, world, s, clock, env);
    ReconciledChannels(json, t, active, |active|, world, s, clock, env);
    forall k | k in t'
      ensures k in t && t'[k].channelID == t[k].channelID
    {
      ChannelsKept(json, t, active, |active|, world, k);
    }
    forall c
      ensures Count(q.channels, c) == |StoredRunningOn(t', c)|
    {
      CountersOfStore(q, t, t', c);
    }
  }

  lemma KeyedStartup(
      json: bool, t: Table, active: seq<TaskRecord>, world: Surroundings, s: S.Sys, clock: nat -> Time, env: S.Env)
    requires WellKeyed(t) && !NoList(json, world.listFails) ==> IsActiveList(t, active)
    requires NoList(json, world.listFails) ==> active == []
    requires Clean(s.q) && s.q.running == map[]
    ensures
      var n := Reached(active, world, 0);
      var q := ReconciledAll(s, ResultsAfter(active, n, world), clock, env).q;
      WellKeyed(t) ==> StartedUp(q, t, StoreAfter(json, t, active, n, world), world)
  {
    if WellKeyed(t) && !NoList(json, world.listFails) {
      StartupAgrees(json, t, active, world, s, clock, env);
      ReconciledChannels(json, t, active, Reached(active, world, 0), world, s, clock, env);
      if AllWell(world) {
        NotCancelled(active, world, 0);
        ReconciledAnswers(json, t, active, world, s, clock, env);
        if EMPTY !in t {
          ReconciledCounters(json, t, active, world, s, clock, env);
        }
      }
    }
  }

  /** A reconciled queue with at most one task per channel and no generated ID is a state from
      which the gateway keeps one running task per channel. */
  lemma RecoveredGatewayIsSound(q: Queue) returns (g: G.Gateway)
    requires Clean(q) && Startable(q)
    ensures g.h.q == q && g.counter == 0 && g.mention.None? && g.owed == 0
    ensures g.workers == map[] && g.pending == multiset{} && g.marks == {} && g.h.marked == {}
    ensures GS.Sound(g) && R.Covered(g.h)
  {
    var slots := multiset(BusyChannels(q.running));
    var h := R.Hist(q, [], [], q.running.Keys, {}, {}, slots, q.running.Keys);
    g := G.Gateway(h, 0, None, {}, map[], multiset{}, {}, 0);
    forall c
      ensures R.CounterLaw(h, c)
    {
      RecoveredCounter(h, c);
    }
  }

  lemma RecoveredCounter(h: R.Hist, c: Text)
    requires Clean(h.q) && G.OnePerChannel(h.q)
    requires h.direct == h.q.running.Keys && h.slots == multiset(BusyChannels(h.q.running))
    ensures R.CounterLaw(h, c)
  {
    assert R.DirectOn(h, c) == OnChannel(h.q, c);
    if c in BusyChannels(h.q.running) {
      var k :| k in h.q.running && h.q.running[k].channel == c;
      assert OnChannel(h.q, c) == {k};
    } else {
      assert OnChannel(h.q, c) == {};
    }
  }

  // ---------------------------------------------------------------- the gateway object

  /** A result of FindByChannel: some task of the channel, or none when there is none. */
  predicate LookedUp(q: Queue, c: Text, found: Option<Text>)
  {
    match found case Some(id) => G.FoundByChannel(q, c, id) case None => !G.Occupied(q, c)
  }

  /** A result of findRunningTaskID. */
  predicate RunningLookedUp(q: Queue, c: Text, id: Text)
  {
    (id in q.running && q.running[id].channel == c) || (id == EMPTY && c !in BusyChannels(q.running))
  }

  /** What one callback call of a directly run task does to the queue. */
  ghost predicate DirectCallEffect(
      s: S.Sys, s': S.Sys, c: Text, call: WorkerCall, found: Option<Text>, env: S.Env)
  {
    if call == CallError then
      LookedUp(s.q, c, found) && s' == if found.None? then s else S.MarkDone(s, found.value, env)
    else if call == CallEvent(EventStart) then
      LookedUp(s.q, c, found) && s' == if found.None? then s else S.MarkRunning(s, found.value, env.clock(found.value))
    else if call == CallEvent(EventDone) || call == CallEvent(EventError) then
      found.Some? && RunningLookedUp(s.q, c, found.value) && s' == S.MarkDone(s, found.value, env)
    else
      found.None? && s' == s
  }

  /** What a mention does to the queue. */
  predicate MentionEffect(
      s: S.Sys, s': S.Sys, streamWorker: bool, counter: nat, c: Text, user: Text, prompt: Text, now: Time)
  {
    var t := NewTask(GeneratedID(counter + 1), c, user, prompt, now);
    s' == if Count(s.q.channels, c) > 0 then S.EnqueueTask(s, t)
          else if streamWorker then S.MarkRunningDirect(s, t, now)
          else s
  }

  /** Recovery does not touch the queue. */
  method RecoverBeside(queue: TaskQueue, sm: StateManager, world: Surroundings)
    returns (results: seq<RecoveryResult>, active: seq<TaskRecord>)
    requires queue.Valid()
    modifies Repr(sm)
    ensures queue.Valid() && queue.View() == old(queue.View())
    ensures NoList(sm.Json?, world.listFails) ==> active == []
    ensures WellKeyed(old(Contents(sm))) && !NoList(sm.Json?, world.listFails) ==>
      IsActiveList(old(Contents(sm)), active)
    ensures
      var n := Reached(active, world, 0);
      && Contents(sm) == StoreAfter(sm.Json?, old(Contents(sm)), active, n, world)
      && results == ResultsAfter(active, n, world)
  {
    results, active := RecoverKeyed(sm, world);
  }

  class SlackGateway {
    const taskQueue: TaskQueue
    const stateMgr: StateManager
    const streamWorker: bool  // whether there is a stream worker
    var taskCounter: nat
    var stopped: bool

    constructor (stateMgr: StateManager, streamWorker: bool, metrics: Counters)
      ensures this.stateMgr == stateMgr && this.streamWorker == streamWorker
      ensures fresh(taskQueue) && taskQueue.Valid() && taskQueue.pool == {}
      ensures taskQueue.View() == S.Sys(Queue([], map[], map[], 5), metrics, [])
      ensures taskCounter == 0 && !stopped
    {
      taskQueue := new TaskQueue(5, 1, metrics);
      this.stateMgr := stateMgr;
      this.streamWorker := streamWorker;
      taskCounter := 0;
      stopped := false;
    }

    method GenerateTaskID() returns (id: Text)
      modifies this`taskCounter
      ensures taskCounter == old(taskCounter) + 1 && id == GeneratedID(taskCounter)
    {
      taskCounter := taskCounter + 1;
      id := GeneratedID(taskCounter);
    }

    /** A mention up to the point where it has been queued or its worker is about to start. */
    method HandleMention(channel: Text, user: Text, prompt: Text, now: Time)
      returns (queued: bool, position: nat, err: Option<EnqueueError>)
      requires taskQueue.Valid()
      modifies this`taskCounter, taskQueue
      ensures taskQueue.Valid()
      ensures queued == (Count(old(taskQueue.channels), channel) > 0)
      ensures taskCounter == old(taskCounter) + if queued || streamWorker then 1 else 0
      ensures MentionEffect(old(taskQueue.View()), taskQueue.View(), streamWorker, old(taskCounter),
                            channel, user, prompt, now)
      ensures
        var id := GeneratedID(taskCounter);
        queued ==>
          && err == EnqueueCheck(old(taskQueue.Q()), NewTask(id, channel, user, prompt, now))
          && (err.None? ==> position == PositionOf(taskQueue.Q().waiting, id))
    {
      position, err := 0, None;
      queued := taskQueue.ChannelHasActiveTask(channel);
      if queued || streamWorker {
        position, err := AddTask(channel, user, prompt, now, queued);
      }
    }

    /** Creates the task of a mention and hands it to the queue. */
    method AddTask(channel: Text, user: Text, prompt: Text, now: Time, queued: bool)
      returns (position: nat, err: Option<EnqueueError>)
      requires taskQueue.Valid() && queued == (Count(taskQueue.channels, channel) > 0)
      modifies this`taskCounter, taskQueue
      ensures taskQueue.Valid() && taskCounter == old(taskCounter) + 1
      ensures
        var t := NewTask(GeneratedID(taskCounter), channel, user, prompt, now);
        if queued then
          && taskQueue.View() == S.EnqueueTask(old(taskQueue.View()), t)
          && err == EnqueueCheck(old(taskQueue.Q()), t)
          && (err.None? ==> position == PositionOf(taskQueue.Q().waiting, t.id))
        else taskQueue.View() == S.MarkRunningDirect(old(taskQueue.View()), t, now)
    {
      position, err := 0, None;
      var id := GenerateTaskID();
      var task := new QueuedTask.NewQueuedTask(id, channel, user, prompt, now);
      if queued {
        position, err := taskQueue.Enqueue(task);
      } else {
        FreshIsNotWaiting(task);
        taskQueue.MarkRunningDirect(task, now);
      }
    }

    twostate lemma FreshIsNotWaiting(new task: QueuedTask)
      requires old(taskQueue.Valid()) && fresh(task) && unchanged(taskQueue)
      ensures task !in taskQueue.waiting
    {
      assert forall i :: 0 <= i < |taskQueue.waiting| ==> old(taskQueue.waiting)[i] in old(taskQueue.pool);
    }

    /** FindByChannel, as an ID. */
    method Lookup(channel: Text) returns (found: Option<Text>)
      requires taskQueue.Valid()
      ensures LookedUp(taskQueue.Q(), channel, found)
    {
      var t := taskQueue.FindByChannel(channel);
      if t == null {
        return None;
      }
      return Some(t.taskID);
    }

    /** One call of the stream callback of a directly run task, which looks tasks up by the
        channel of the mention; found is the ID it acts on. */
    method OnDirectCall(channel: Text, call: WorkerCall, env: S.Env) returns (found: Option<Text>)
      requires taskQueue.Valid()
      modifies taskQueue, taskQueue.pool
      ensures taskQueue.Valid()
      ensures DirectCallEffect(old(taskQueue.View()), taskQueue.View(), channel, call, found, env)
    {
      found := None;
      match call {
        case CallError =>
          found := Lookup(channel);
          if found.Some? {
            taskQueue.MarkError(found.value, env);
          }
        case CallNil =>
        case CallEvent(kind) =>
          match kind {
            case EventStart =>
              found := Lookup(channel);
              if found.Some? {
                var _ := taskQueue.MarkRunning(found.value, env.clock(found.value));
              }
            case EventDone =>
              var id := taskQueue.FindRunningTaskID(channel);
              found := Some(id);
              taskQueue.MarkDone(id, env);
            case EventError =>
              var id := taskQueue.FindRunningTaskID(channel);
              found := Some(id);
              taskQueue.MarkError(id, env);
            case _ =>
          }
      }
    }

    /** The worker of a directly run task returns an error. */
    method OnDirectError(taskID: Text, env: S.Env)
      requires taskQueue.Valid()
      modifies taskQueue, taskQueue.pool
      ensures taskQueue.Valid()
      ensures taskQueue.View() == S.MarkDone(old(taskQueue.View()), taskID, env)
    {
      taskQueue.MarkError(taskID, env);
    }

    method ReconcileAfterRecovery(results: seq<RecoveryResult>, clock: nat -> Time, env: S.Env)
      requires taskQueue.Valid()
      modifies taskQueue, taskQueue.pool
      ensures taskQueue.Valid()
      ensures taskQueue.View() == ReconciledAll(old(taskQueue.View()), results, clock, env)
    {
      ghost var pool := taskQueue.pool;
      for i := 0 to |results|
        invariant taskQueue.Valid() && fresh(taskQueue.pool - pool)
        invariant taskQueue.View() == ReconciledAll(old(taskQueue.View()), results[..i], clock, env)
      {
        assert Front(results[..i + 1]) == results[..i] && Last(results[..i + 1]) == results[i];
        ReconcileOne(results[i], clock(i), env);
      }
      assert results[..|results|] == results;
    }

    method ReconcileOne(r: RecoveryResult, now: Time, env: S.Env)
      requires taskQueue.Valid()
      modifies taskQueue, taskQueue.pool
      ensures taskQueue.Valid() && fresh(taskQueue.pool - old(taskQueue.pool))
      ensures taskQueue.View() == Reconciled(old(taskQueue.View()), r, now, env)
    {
      var task := new QueuedTask.Literal(RecoveredTask(r, now));
      FreshIsNotWaiting(task);
      taskQueue.MarkRunningDirect(task, now);
      if r.finalStatus == DONE || r.finalStatus == ERROR || r.finalStatus == STOPPED {
        taskQueue.ReleaseTerminalTask(r.taskID, r.finalStatus == DONE, env);
      } else if r.finalStatus != RUNNING {
        taskQueue.ReleaseTerminalTask(r.taskID, false, env);
      }
    }

    /** The start of the program: recovery, then reconciliation. In a store whose keys are the
        task IDs of its records, queue and store then agree. */
    method Startup(world: Surroundings, clock: nat -> Time, env: S.Env)
      requires taskQueue.Valid() && Clean(taskQueue.Q()) && taskQueue.Q().running == map[]
      modifies taskQueue, taskQueue.pool, Repr(stateMgr)
      ensures taskQueue.Valid()
      ensures WellKeyed(old(Contents(stateMgr))) ==>
        StartedUp(taskQueue.Q(), old(Contents(stateMgr)), Contents(stateMgr), world)
    {
      ghost var t, s := Contents(stateMgr), taskQueue.View();
      var active := RecoverAndReconcile(world, clock, env);
      KeyedStartup(stateMgr.Json?, t, active, world, s, clock, env);
    }

    method RecoverAndReconcile(world: Surroundings, clock: nat -> Time, env: S.Env) returns (active: seq<TaskRecord>)
      requires taskQueue.Valid()
      modifies taskQueue, taskQueue.pool, Repr(stateMgr)
      ensures taskQueue.Valid()
      ensures NoList(stateMgr.Json?, world.listFails) ==> active == []
      ensures WellKeyed(old(Contents(stateMgr))) && !NoList(stateMgr.Json?, world.listFails) ==>
        IsActiveList(old(Contents(stateMgr)), active)
      ensures
        var n := Reached(active, world, 0);
        && Contents(stateMgr) == StoreAfter(stateMgr.Json?, old(Contents(stateMgr)), active, n, world)
        && taskQueue.View() == ReconciledAll(old(taskQueue.View()), ResultsAfter(active, n, world), clock, env)
    {
      var results;
      results, active := RecoverBeside(taskQueue, stateMgr, world);
      ReconcileOnly(results, clock, env);
    }

    /** Reconciliation does not touch the store. */
    method ReconcileOnly(results: seq<RecoveryResult>, clock: nat -> Time, env: S.Env)
      requires taskQueue.Valid()
      modifies taskQueue, taskQueue.pool
      ensures taskQueue.Valid() && Contents(stateMgr) == old(Contents(stateMgr))
      ensures taskQueue.View() == ReconciledAll(old(taskQueue.View()), results, clock, env)
    {
      ReconcileAfterRecovery(results, clock, env);
    }

    /** The first Stop marks the running tasks as interrupted; a later one does nothing. */
    method Stop(world: Surroundings) returns (active: seq<TaskRecord>)
      modifies this`stopped, Repr(stateMgr)
      ensures stopped
      ensures old(stopped) ==> active == [] && Contents(stateMgr) == old(Contents(stateMgr))
      ensures !old(stopped) ==>
        if NoList(stateMgr.Json?, world.listFails) then active == []
        else ListsRunning(old(Contents(stateMgr)), active)
      ensures Contents(stateMgr)
        == StoreStopped(stateMgr.Json?, old(Contents(stateMgr)), active, |active|, world)
    {
      if stopped {
        return [];
      }
      stopped := true;
      active := MarkInterrupted(stateMgr, world);
    }
  }

  // ---------------------------------------------------------------- what statuses and calls mean

  /** Of the recovered tasks that run no longer only one that is done looks for the next task. */
  lemma OnlyDoneLooksForNext(s: S.Sys, r: RecoveryResult, now: Time, env: S.Env)
    requires r.taskID != EMPTY && r.taskID !in s.q.running && r.finalStatus != Text("running")
    ensures r.finalStatus != Text("done") ==>
      Reconciled(s, r, now, env).log == s.log && Reconciled(s, r, now, env).q.waiting == s.q.waiting
    ensures r.finalStatus == Text("done") && env.onDequeue.None? ==>
      Reconciled(s, r, now, env).log
      == s.log + match FindNextEligible(s.q) case None => [] case Some(t) => [t.id]
  {
    var s1 := S.MarkRunningDirect(s, RecoveredTask(r, now), now);
    SameNext(s.q, RecoveredTask(r, now), now);
    assert S.ReleaseSlot(s1, r.taskID).log == s.log && S.ReleaseSlot(s1, r.taskID).q.waiting == s.q.waiting;
  }

  lemma SameNext(q: Queue, t: Task, now: Time)
    requires DirectAccepted(q, t)
    ensures FindNextEligible(Released(RunDirectly(q, t, now), t.id)) == FindNextEligible(q)
  {
    assert Released(RunDirectly(q, t, now), t.id).running == q.running;
  }

  /** A start event of a directly run task on whose channel nothing runs marks the first waiting
      task of the channel as running, with the status it had. */
  lemma LateStartMarksFirst(s: S.Sys, s': S.Sys, c: Text, found: Option<Text>, env: S.Env, i: nat)
    requires DirectCallEffect(s, s', c, CallEvent(EventStart), found, env) && Consistent(s.q)
    requires c !in BusyChannels(s.q.running) && R.FirstOfChannel(s.q, i) && s.q.waiting[i].channel == c
    ensures found == Some(s.q.waiting[i].id)
    ensures s'.q.waiting == RemoveAt(s.q.waiting, i) && s.q.waiting[i].id in s'.q.running
  {
    assert G.Occupied(s.q, c);
    var j :| 0 <= j < |s.q.waiting| && R.FirstOfChannel(s.q, j) && s.q.waiting[j].channel == c
      && s.q.waiting[j].id == found.value;
    assert i == j;
    IndexOfDistinct(s.q.waiting, i);
  }

  /** When nothing of the channel runs any more, done and error complete the empty ID, that is,
      no task, and an error call completes what FindByChannel yields: the first waiting task of
      the channel, which keeps waiting, or nothing at all. */
  lemma LateEndsFindNoTask(s: S.Sys, s': S.Sys, c: Text, call: WorkerCall, found: Option<Text>, env: S.Env)
    requires DirectCallEffect(s, s', c, call, found, env) && c !in BusyChannels(s.q.running)
    ensures call == CallEvent(EventDone) || call == CallEvent(EventError) ==>
      found == Some(EMPTY) && s' == S.MarkDone(s, EMPTY, env)
    ensures call == CallError && (forall i :: 0 <= i < |s.q.waiting| ==> s.q.waiting[i].channel != c) ==> s' == s
    ensures call == CallError && (exists i :: 0 <= i < |s.q.waiting| && s.q.waiting[i].channel == c) ==>
      exists i :: R.FirstOfChannel(s.q, i) && s.q.waiting[i].channel == c
        && s' == S.MarkDone(s, s.q.waiting[i].id, env)
  {
    assert forall k :: k in s.q.running ==> s.q.running[k].channel in BusyChannels(s.q.running);
  }

  /** Calls of a directly run task that neither start nor end it leave the queue alone. */
  lemma OtherDirectCalls(s: S.Sys, s': S.Sys, c: Text, call: WorkerCall, found: Option<Text>, env: S.Env)
    requires DirectCallEffect(s, s', c, call, found, env)
    requires
      || call == CallNil || call == CallEvent(EventProgress) || call == CallEvent(EventPaused)
      || call == CallEvent(EventToolCall) || (call.CallEvent? && call.kind.EventOther?)
    ensures s' == s
  {
  }
}
