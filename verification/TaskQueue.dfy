/** The task queue and the gateway steps that drive it, as they update their fields. */
module TaskQueueClass {
  import opened Prelude
  import opened Protocol
  import opened Tasks
  import opened QueueSpec
  import opened QueueLemmas
  import S = Scheduler

  ghost predicate IsView(ts: seq<QueuedTask>, w: seq<Task>, pool: set<QueuedTask>)
    reads pool
  {
    |ts| == |w| && forall i :: 0 <= i < |ts| ==> ts[i] in pool && w[i] == ts[i].Snap()
  }

  ghost predicate IsViewMap(m: map<Text, QueuedTask>, r: map<Text, Task>, pool: set<QueuedTask>)
    reads pool
  {
    && (forall k :: k in m <==> k in r)
    && (forall k :: k in m ==> m[k] in pool && r[k] == m[k].Snap())
  }

  /** No task object is both waiting and running. */
  ghost predicate Apart(ts: seq<QueuedTask>, m: map<Text, QueuedTask>)
  {
    forall i :: 0 <= i < |ts| && ts[i].taskID in m ==> m[ts[i].taskID] != ts[i]
  }

  lemma AppendApart(ts: seq<QueuedTask>, m: map<Text, QueuedTask>, task: QueuedTask)
    requires Apart(ts, m) && task.taskID !in m
    ensures Apart(ts + [task], m)
  {
  }

  lemma AppendView(ts: seq<QueuedTask>, w: seq<Task>, pool: set<QueuedTask>, task: QueuedTask)
    requires IsView(ts, w, pool)
    ensures IsView(ts + [task], w + [task.Snap()], pool + {task})
  {
  }

  lemma MoreInPool(m: map<Text, QueuedTask>, r: map<Text, Task>, pool: set<QueuedTask>, task: QueuedTask)
    requires IsViewMap(m, r, pool)
    ensures IsViewMap(m, r, pool + {task})
  {
  }

  lemma DequeueView(s: S.Sys, i: nat, env: S.Env)
    requires i < |s.q.waiting| && FindNextEligible(s.q) == Some(s.q.waiting[i])
    requires IndexOf(s.q.waiting, s.q.waiting[i].id) == i
    ensures
      var id := s.q.waiting[i].id;
      S.Dequeue(s, env) == S.Sys(
        Promoted(s.q, i, Dispatching, env.clock(id)),
        s.m.(active := s.m.active + 1, queued := s.m.queued - 1),
        s.log + [id])
  {
    DequeueIsPromotion(s.q, i, env.clock(s.q.waiting[i].id));
  }

  class TaskQueue {
    var maxConcurrentTasks: int
    var maxPerChannel: int
    var waiting: seq<QueuedTask>
    var running: map<Text, QueuedTask>
    var channels: map<Text, int>
    var metrics: Counters  // the package-level counters

    ghost var waitingTasks: seq<Task>  // the values of the waiting tasks
    ghost var runningTasks: map<Text, Task>  // the values of the running tasks
    ghost var dispatched: seq<Text>  // the task IDs tryDequeue has moved so far
    ghost var pool: set<QueuedTask>  // every task handed over so far

    ghost function Q(): Queue
      reads this
    {
      Queue(waitingTasks, runningTasks, channels, maxConcurrentTasks)
    }

    ghost function View(): S.Sys
      reads this
    {
      S.Sys(Q(), metrics, dispatched)
    }

    /** The task values are those of the objects; waiting task IDs are distinct, running keys
        are task IDs, and no task object is both waiting and running. */
    ghost predicate Valid()
      reads this, pool
    {
      && IsView(waiting, waitingTasks, pool)
      && IsViewMap(running, runningTasks, pool)
      && Consistent(Q())
      && Apart(waiting, running)
    }

    constructor (maxConcurrent: int, maxPerChannel: int, metrics: Counters)
      ensures Valid() && pool == {}
      ensures View() == S.Sys(
        Queue([], map[], map[], if maxConcurrent <= 0 then 5 else maxConcurrent), metrics, [])
      ensures this.maxPerChannel == if maxPerChannel <= 0 then 1 else maxPerChannel
    {
      maxConcurrentTasks := if maxConcurrent <= 0 then 5 else maxConcurrent;
      this.maxPerChannel := if maxPerChannel <= 0 then 1 else maxPerChannel;
      waiting, running, channels := [], map[], map[];
      this.metrics := metrics;
      waitingTasks, runningTasks, dispatched, pool := [], map[], [], {};
    }

    /** The 1-based position of a task in the waiting queue, 0 when it is not there. */
    method Position(taskID: Text) returns (pos: nat)
      requires Valid()
      ensures pos == PositionOf(Q().waiting, taskID)
    {
      for i := 0 to |waiting|
        invariant forall j :: 0 <= j < i ==> Q().waiting[j].id != taskID
      {
        if waiting[i].taskID == taskID {
          return i + 1;
        }
      }
      return 0;
    }

    method Enqueue(task: QueuedTask?) returns (pos: nat, err: Option<EnqueueError>)
      requires Valid()
      modifies this
      ensures Valid()
      ensures err == if task == null then Some(NilTask) else EnqueueCheck(old(Q()), task.Snap())
      ensures View() == if task == null then old(View()) else S.EnqueueTask(old(View()), task.Snap())
      ensures pos == if err.Some? then 0 else PositionOf(Q().waiting, task.taskID)
      ensures pool == if err.Some? then old(pool) else old(pool) + {task}
    {
      if task == null {
        return 0, Some(NilTask);
      }
      if task.taskID == EMPTY {
        return 0, Some(EmptyTaskID);
      }
      if task.taskID in running {
        return 0, Some(AlreadyRunning);
      }
      var at := Position(task.taskID);
      if at != 0 {
        return 0, Some(AlreadyQueued);
      }
      Append(task);
      pos := Position(task.taskID);
      err := None;
    }

    /** Adds to the metric counters. */
    method Account(enqueued: int, completed: int, active: int, queued: int)
      requires Valid()
      modifies this`metrics
      ensures Valid()
      ensures metrics == Counters(old(metrics).enqueued + enqueued, old(metrics).completed + completed,
                                  old(metrics).active + active, old(metrics).queued + queued)
    {
      metrics := Counters(metrics.enqueued + enqueued, metrics.completed + completed,
                          metrics.active + active, metrics.queued + queued);
    }

    /** The status change of a task that is between the waiting and the running ones. */
    method Advance(t: QueuedTask, next: TaskStatus, now: Time)
      requires Valid() && Outside(t)
      modifies t
      ensures Valid() && Outside(t)
      ensures t.Snap() == Transitioned(old(t.Snap()), next, now)
    {
      var _ := t.Transition(next, now);
    }

    method StartOutside(t: QueuedTask, now: Time)
      requires Valid() && Outside(t)
      modifies t
      ensures Valid() && Outside(t)
      ensures t.Snap() == StartedDirectly(old(t.Snap()), now)
    {
      t.StartDirectly(now);
    }

    method Append(task: QueuedTask)
      requires Valid() && EnqueueCheck(Q(), task.Snap()).None?
      modifies this
      ensures Valid() && pool == old(pool) + {task}
      ensures View() == S.EnqueueTask(old(View()), task.Snap())
    {
      Join(task);
      CountOn(task.channelID);
      Account(1, 0, 0, 1);
    }

    method CountOn(c: Text)
      requires Valid()
      modifies this`channels
      ensures Valid() && channels == Incremented(old(channels), c)
    {
      channels := Incremented(channels, c);
    }

    /** Adds the task at the end of the waiting queue. */
    method Join(task: QueuedTask)
      requires Valid() && EnqueueCheck(Q(), task.Snap()).None?
      modifies this`waiting, this`waitingTasks, this`pool
      ensures Valid() && pool == old(pool) + {task} && waitingTasks == old(waitingTasks) + [task.Snap()]
    {
      EnqueueKeepsConsistent(Q(), task.Snap());
      AppendView(waiting, waitingTasks, pool, task);
      MoreInPool(running, runningTasks, pool, task);
      AppendApart(waiting, running, task);
      waiting := waiting + [task];
      pool := pool + {task};
      waitingTasks := waitingTasks + [task.Snap()];
    }

    /** Deletes position i from the waiting queue and gives back its channel slot. */
    method Unqueue(i: nat) returns (t: QueuedTask)
      requires Valid() && i < |waiting|
      modifies this`waiting, this`waitingTasks, this`channels
      ensures Valid() && t == old(waiting)[i] && Outside(t)
      ensures t in pool && t.Snap() == old(waitingTasks)[i]
      ensures waitingTasks == RemoveAt(old(waitingTasks), i)
      ensures channels == Decremented(old(channels), t.channelID)
    {
      t := waiting[i];
      waiting := waiting[..i] + waiting[i + 1..];
      waitingTasks := RemoveAt(waitingTasks, i);
      GiveBack(t.channelID);
    }

    method GiveBack(c: Text)
      modifies this`channels
      ensures channels == Decremented(old(channels), c)
    {
      channels := channels[c := Count(channels, c) - 1];
      if channels[c] <= 0 {
        channels := channels - {c};
      }
      assert channels == Decremented(old(channels), c);
    }

    /** The channel slot and the counters of a task that bypasses the queue. */
    method TakeSlot(c: Text)
      requires Valid()
      modifies this`channels, this`metrics
      ensures Valid()
      ensures channels == Incremented(old(channels), c)
      ensures metrics == old(metrics).(enqueued := old(metrics).enqueued + 1, active := old(metrics).active + 1)
    {
      channels := Incremented(channels, c);
      metrics := metrics.(enqueued := metrics.enqueued + 1);
      metrics := metrics.(active := metrics.active + 1);
    }

    /** The task object is neither waiting nor running. */
    ghost predicate Outside(t: QueuedTask)
      reads this
    {
      t !in waiting && (t.taskID in running ==> running[t.taskID] != t)
    }

    method Admit(t: QueuedTask)
      requires Valid() && Outside(t)
      modifies this`running, this`runningTasks, this`pool
      ensures Valid() && pool == old(pool) + {t}
      ensures runningTasks == old(runningTasks)[t.taskID := t.Snap()]
    {
      running := running[t.taskID := t];
      runningTasks := runningTasks[t.taskID := t.Snap()];
      pool := pool + {t};
    }

    /** The task at position i stops waiting and runs, with its status moved on. */
    method Promote(i: nat, next: TaskStatus, now: Time)
      requires Valid() && i < |waiting|
      modifies this, pool
      ensures Valid() && pool == old(pool)
      ensures View() == old(View()).(
        q := Promoted(old(Q()), i, next, now),
        m := old(View()).m.(active := old(View()).m.active + 1, queued := old(View()).m.queued - 1))
    {
      Exchange(i, next, now);
      Account(0, 0, 1, -1);
    }

    method Exchange(i: nat, next: TaskStatus, now: Time)
      requires Valid() && i < |waiting|
      modifies this`waiting, this`waitingTasks, this`channels, this`running, this`runningTasks, this`pool, pool
      ensures Valid() && pool == old(pool)
      ensures Q() == Promoted(old(Q()), i, next, now)
    {
      var t := Detach(i, next, now);
      Admit(t);
    }

    method Detach(i: nat, next: TaskStatus, now: Time) returns (t: QueuedTask)
      requires Valid() && i < |waiting|
      modifies this`waiting, this`waitingTasks, this`channels, pool
      ensures Valid() && Outside(t) && t in pool && t.Snap() == Transitioned(old(waitingTasks)[i], next, now)
      ensures waitingTasks == RemoveAt(old(waitingTasks), i)
      ensures channels == Decremented(old(channels), old(waitingTasks)[i].channel)
    {
      t := Unqueue(i);
      Advance(t, next, now);
    }

    method MarkRunning(taskID: Text, now: Time) returns (found: bool)
      requires Valid()
      modifies this, pool
      ensures Valid() && pool == old(pool)
      ensures found == (IndexOf(old(Q()).waiting, taskID) < |old(Q()).waiting|)
      ensures View() == S.MarkRunning(old(View()), taskID, now)
    {
      for i := 0 to |waiting|
        invariant forall j :: 0 <= j < i ==> Q().waiting[j].id != taskID
      {
        if waiting[i].taskID == taskID {
          assert IndexOf(Q().waiting, taskID) == i;
          Promote(i, Running, now);
          return true;
        }
      }
      return false;
    }

    method FindNextEligibleLocked() returns (next: QueuedTask?)
      requires Valid()
      ensures next == null <==> FindNextEligible(Q()).None?
      ensures next != null ==> next in waiting && FindNextEligible(Q()) == Some(next.Snap())
    {
      assert Q().running.Keys == running.Keys;
      if |running| >= maxConcurrentTasks {
        return null;
      }
      var runningChannels: set<Text> := {};
      var left := running.Keys;
      while left != {}
        invariant left <= running.Keys
        invariant runningChannels == set k | k in running && k !in left :: running[k].channelID
        decreases left
      {
        var k :| k in left;
        runningChannels := runningChannels + {running[k].channelID};
        left := left - {k};
      }
      assert runningChannels == BusyChannels(Q().running);
      for i := 0 to |waiting|
        invariant forall j :: 0 <= j < i ==> Q().waiting[j].channel in runningChannels
      {
        if waiting[i].channelID !in runningChannels {
          assert FirstFree(Q().waiting, runningChannels) == i;
          return waiting[i];
        }
      }
      return null;
    }

    /** The first position that holds the task ID of a waiting task. */
    method Locate(t: QueuedTask) returns (i: nat)
      requires Valid() && t in waiting
      ensures i < |waiting| && waiting[i] == t && IndexOf(waitingTasks, t.taskID) == i
    {
      i := 0;
      while waiting[i].taskID != t.taskID
        invariant i < |waiting|
        invariant forall j :: 0 <= j < i ==> waitingTasks[j].id != t.taskID
        invariant t in waiting[i..]
        decreases |waiting| - i
      {
        i := i + 1;
      }
      var k :| i <= k < |waiting| && waiting[k] == t;
      assert waitingTasks[k].id == waitingTasks[i].id;
    }

    /** The task selected by eligibility, and the position found for it by task ID. */
    method FindAndLocate() returns (next: QueuedTask?, i: nat)
      requires Valid()
      ensures next == null <==> FindNextEligible(Q()).None?
      ensures next != null ==>
        && i < |waiting| && waitingTasks[i].id == next.taskID && FindNextEligible(Q()) == Some(waitingTasks[i])
        && IndexOf(waitingTasks, next.taskID) == i
    {
      i := 0;
      next := FindNextEligibleLocked();
      if next != null {
        i := Locate(next);
      }
    }

    /** The locked part of tryDequeue. */
    method MoveNext(env: S.Env) returns (next: QueuedTask?)
      requires Valid()
      modifies this, pool
      ensures Valid() && pool == old(pool)
      ensures next == null <==> FindNextEligible(old(Q())).None?
      ensures next != null ==> next.taskID == FindNextEligible(old(Q())).value.id
      ensures View() == S.Dequeue(old(View()), env)
    {
      var i;
      next, i := FindAndLocate();
      if next == null {
        return;
      }
      DequeueView(View(), i, env);
      Promote(i, Dispatching, env.clock(next.taskID));
      Log(next.taskID);
    }

    method Log(taskID: Text)
      requires Valid()
      modifies this`dispatched
      ensures Valid() && dispatched == old(dispatched) + [taskID]
    {
      dispatched := dispatched + [taskID];
    }

    method TryDequeue(env: S.Env)
      requires Valid()
      modifies this, pool
      ensures Valid() && pool == old(pool)
      ensures View() == S.TryDequeue(old(View()), env)
      decreases |waiting|, 1
    {
      var next := MoveNext(env);
      if next != null && env.onDequeue.Some? {
        DispatchQueuedTask(next.taskID, env);
      }
    }

    /** The locked delete of MarkDone and MarkError, after their two counter updates. */
    method Remove(taskID: Text)
      requires Valid()
      modifies this
      ensures Valid() && pool == old(pool) && waiting == old(waiting)
      ensures View() == S.Complete(old(View()), taskID)
    {
      Account(0, 1, -1, 0);
      running := running - {taskID};
      runningTasks := runningTasks - {taskID};
    }

    method MarkDone(taskID: Text, env: S.Env)
      requires Valid()
      modifies this, pool
      ensures Valid() && pool == old(pool)
      ensures View() == S.MarkDone(old(View()), taskID, env)
      decreases |waiting|, 2
    {
      Remove(taskID);
      TryDequeue(env);
    }

    method MarkError(taskID: Text, env: S.Env)
      requires Valid()
      modifies this, pool
      ensures Valid() && pool == old(pool)
      ensures View() == S.MarkDone(old(View()), taskID, env)
      decreases |waiting|, 2
    {
      Remove(taskID);
      TryDequeue(env);
    }

    method MarkDispatched(taskID: Text, now: Time) returns (ok: bool)
      requires Valid()
      modifies this`runningTasks, pool
      ensures Valid() && pool == old(pool)
      ensures ok == DispatchAccepted(old(Q()), taskID)
      ensures View() == old(View()).(q := MarkedDispatched(old(Q()), taskID, now))
    {
      if taskID !in running {
        return false;
      }
      assert forall k :: k in running && k != taskID ==> running[k] != running[taskID];
      assert forall i :: 0 <= i < |waiting| ==> waiting[i] != running[taskID];
      ok := running[taskID].Transition(Running, now);
      runningTasks := runningTasks[taskID := running[taskID].Snap()];
    }

    /** The dequeue callback: streams the task's worker and reacts to each callback call. */
    method DispatchQueuedTask(taskID: Text, env: S.Env)
      requires Valid() && env.onDequeue.Some?
      modifies this, pool
      ensures Valid() && pool == old(pool)
      ensures View() == S.Dispatch(old(View()), taskID, env)
      decreases |waiting|, 4
    {
      match env.onDequeue.value(taskID) {
        case NoStreamWorker =>
        case Ran(calls, failed) =>
          var i := 0;
          while i < |calls|
            invariant 0 <= i <= |calls|
            invariant Valid() && pool == old(pool)
            invariant |waiting| <= old(|waiting|)
            invariant S.Calls(View(), taskID, calls[i..], env) == S.Calls(old(View()), taskID, calls, env)
          {
            OnCall(taskID, calls[i], env);
            assert calls[i..][1..] == calls[i + 1..];
            i := i + 1;
          }
          if failed {
            MarkError(taskID, env);
          }
      }
    }

    /** One call of the stream callback of dispatchQueuedTask. */
    method OnCall(taskID: Text, call: WorkerCall, env: S.Env)
      requires Valid()
      modifies this, pool
      ensures Valid() && pool == old(pool)
      ensures View() == S.Call(old(View()), taskID, call, env)
      decreases |waiting|, 3
    {
      match call {
        case CallError => MarkError(taskID, env);
        case CallNil =>
        case CallEvent(kind) =>
          match kind {
            case EventStart => var _ := MarkDispatched(taskID, env.clock(taskID));
            case EventDone => MarkDone(taskID, env);
            case EventError => MarkError(taskID, env);
            case _ =>
          }
      }
    }

    method ReleaseTerminalTask(taskID: Text, isDone: bool, env: S.Env)
      requires Valid()
      modifies this, pool
      ensures Valid() && pool == old(pool)
      ensures View() == S.Release(old(View()), taskID, isDone, env)
    {
      if taskID in running {
        ReleaseSlot(taskID);
        if isDone {
          TryDequeue(env);
        }
      }
    }

    /** releaseTerminalTask up to the point where it looks for the next task. */
    method ReleaseSlot(taskID: Text)
      requires Valid() && taskID in running
      modifies this
      ensures Valid() && pool == old(pool)
      ensures View() == S.ReleaseSlot(old(View()), taskID)
    {
      var c := running[taskID].channelID;
      running := running - {taskID};
      runningTasks := runningTasks - {taskID};
      GiveBack(c);
      Account(0, 0, -1, 0);
    }

    /** Every caller hands over a task it has just built, so it is not one of the waiting ones. */
    method MarkRunningDirect(task: QueuedTask, now: Time)
      requires Valid() && task !in waiting
      modifies this, task
      ensures Valid() && old(pool) <= pool <= old(pool) + {task}
      ensures View() == S.MarkRunningDirect(old(View()), old(task.Snap()), now)
    {
      if task.taskID == EMPTY {
        return;
      }
      if task.taskID in running {
        return;
      }
      StartOutside(task, now);
      Admit(task);
      TakeSlot(task.channelID);
    }

    /** A running task of the channel, otherwise its first waiting task. */
    method FindByChannel(channelID: Text) returns (t: QueuedTask?)
      ensures t == null <==>
        && (forall o :: o in waiting ==> o.channelID != channelID)
        && (forall k :: k in running ==> running[k].channelID != channelID)
      ensures t != null ==> (t in waiting || t in running.Values) && t.channelID == channelID
      ensures t != null && t !in running.Values ==>
        && (forall k :: k in running ==> running[k].channelID != channelID)
        && exists i :: 0 <= i < |waiting| && waiting[i] == t
             && forall j :: 0 <= j < i ==> waiting[j].channelID != channelID
    {
      var left := running.Keys;
      while left != {}
        invariant left <= running.Keys
        invariant forall k :: k in running && k !in left ==> running[k].channelID != channelID
        decreases left
      {
        var k :| k in left;
        if running[k].channelID == channelID {
          return running[k];
        }
        left := left - {k};
      }
      for i := 0 to |waiting|
        invariant forall j :: 0 <= j < i ==> waiting[j].channelID != channelID
      {
        if waiting[i].channelID == channelID {
          return waiting[i];
        }
      }
      return null;
    }

    method ChannelHasActiveTask(channelID: Text) returns (active: bool)
      ensures active == (Count(channels, channelID) > 0)
    {
      active := channelID in channels && channels[channelID] > 0;
    }

    /** findRunningTaskID of the gateway: the ID of some running task of the channel, or "". */
    method FindRunningTaskID(channelID: Text) returns (taskID: Text)
      requires Valid()
      ensures (taskID in running && running[taskID].channelID == channelID)
        || (taskID == EMPTY && forall k :: k in running ==> running[k].channelID != channelID)
    {
      var left := running.Keys;
      while left != {}
        invariant left <= running.Keys
        invariant forall k :: k in running && k !in left ==> running[k].channelID != channelID
        decreases left
      {
        var k :| k in left;
        if running[k].channelID == channelID {
          return running[k].taskID;
        }
        left := left - {k};
      }
      return EMPTY;
    }
  }
}
