/** The metric counters through the recursive scheduler, when no other thread interferes. */
module SchedulerCounters {
  import opened Prelude
  import opened Protocol
  import opened Tasks
  import opened QueueSpec
  import opened QueueLemmas
  import opened Scheduler
  import M = MetricLaws

  /** The counters say what the queue holds, up to the completions of IDs that were not
      running and the tasks that were released. */
  predicate Balanced(s: Sys, absent: nat, released: nat)
  {
    && s.m.enqueued == |s.q.waiting| + |s.q.running| + (s.m.completed - absent) + released
    && s.m.queued == |s.q.waiting|
    && s.m.active == |s.q.running| - absent
  }

  predicate Sound(s: Sys)
  {
    Consistent(s.q) && Disjoint(s.q)
  }

  lemma CompleteBalanced(s: Sys, id: Text, absent: nat, released: nat)
    requires Sound(s) && Balanced(s, absent, released)
    ensures Sound(Complete(s, id))
    ensures Balanced(Complete(s, id), if id in s.q.running then absent else absent + 1, released)
  {
    if id in s.q.running {
      M.MapSizes(s.q.running, id, s.q.running[id]);
    } else {
      assert s.q.running - {id} == s.q.running;
    }
  }

  lemma DequeueBalanced(s: Sys, env: Env, absent: nat, released: nat)
    requires Sound(s) && Balanced(s, absent, released)
    ensures Sound(Dequeue(s, env)) && Balanced(Dequeue(s, env), absent, released)
  {
    var next := FindNextEligible(s.q);
    if next.Some? {
      var now := env.clock(next.value.id);
      DequeueMovesLeastEligible(s.q, now);
      var i := FirstFree(s.q.waiting, BusyChannels(s.q.running));
      PromoteKeepsConsistent(s.q, i, Dispatching, now);
      M.MapSizes(s.q.running, next.value.id, Transitioned(next.value, Dispatching, now));
    }
  }

  lemma MarkDispatchedBalanced(s: Sys, id: Text, now: Time, absent: nat, released: nat)
    requires Sound(s) && Balanced(s, absent, released)
    ensures Sound(s.(q := MarkedDispatched(s.q, id, now)))
    ensures Balanced(s.(q := MarkedDispatched(s.q, id, now)), absent, released)
  {
    if id in s.q.running {
      M.MapSizes(s.q.running, id, Transitioned(s.q.running[id], Running, now));
    }
  }

  function DoneAndFailed(id: Text): WorkerRun
  {
    Ran([CallEvent(EventDone)], true)
  }

  /** A worker that reports done and then returns an error completes its task twice; the second
      completion finds nothing, and the active gauge ends below the number of running tasks. */
  lemma CompletedTwice(t: Task)
    requires t.id != EMPTY
    ensures
      var empty := Sys(Queue([], map[], map[], 1), Counters(0, 0, 0, 0), []);
      var s := TryDequeue(EnqueueTask(empty, t), Env(_ => 0, Some(DoneAndFailed)));
      && s.q.running == map[] && s.q.waiting == []
      && s.m == Counters(1, 2, -1, 0) && Balanced(s, 1, 0)
  {
    var env := Env(_ => 0, Some(DoneAndFailed));
    var s1 := EnqueueTask(Sys(Queue([], map[], map[], 1), Counters(0, 0, 0, 0), []), t);
    assert s1.q.waiting == [t] && FirstFree([t], {}) == 0;
    assert FindNextEligible(s1.q) == Some(t);
    var s2 := Dequeue(s1, env);
    assert s2.q.waiting == [] && s2.q.running.Keys == {t.id};
    OnlyTaskFails(s2, t.id, env);
  }

  lemma OnlyTaskFails(s: Sys, id: Text, env: Env)
    requires s.q.waiting == [] && s.q.running.Keys == {id} && env.onDequeue == Some(DoneAndFailed)
    ensures
      Dispatch(s, id, env) == s.(
        q := s.q.(running := map[]), m := s.m.(completed := s.m.completed + 2, active := s.m.active - 2))
  {
    var s1, calls := Complete(s, id), [CallEvent(EventDone)];
    assert s1.q.running == map[];
    NothingLeft(s, id, env);
    NothingLeft(s1, id, env);
    assert calls[1..] == [] && Calls(s1, id, [], env) == s1;
    assert Call(s, id, calls[0], env) == s1;
    assert Complete(s1, id).q.running == map[];
  }

  lemma NothingLeft(s: Sys, id: Text, env: Env)
    requires s.q.waiting == []
    ensures MarkDone(s, id, env) == Complete(s, id)
  {
    assert TryDequeue(Complete(s, id), env) == Complete(s, id);
  }

  /** A fresh task that is enqueued or registered. */
  lemma EnqueueBalanced(s: Sys, t: Task, absent: nat, released: nat)
    requires Sound(s) && Balanced(s, absent, released)
    ensures Sound(EnqueueTask(s, t)) && Balanced(EnqueueTask(s, t), absent, released)
  {
    if EnqueueCheck(s.q, t).None? {
      EnqueueKeepsConsistent(s.q, t);
    }
  }

  lemma DirectBalanced(s: Sys, t: Task, now: Time, absent: nat, released: nat)
    requires Sound(s) && Balanced(s, absent, released) && IndexOf(s.q.waiting, t.id) == |s.q.waiting|
    ensures Sound(MarkRunningDirect(s, t, now)) && Balanced(MarkRunningDirect(s, t, now), absent, released)
  {
    M.MapSizes(s.q.running, t.id, StartedDirectly(t, now));
  }

  lemma ReleaseBalanced(s: Sys, id: Text, absent: nat, released: nat)
    requires Sound(s) && Balanced(s, absent, released) && id in s.q.running
    ensures Sound(ReleaseSlot(s, id)) && Balanced(ReleaseSlot(s, id), absent, released + 1)
  {
    M.MapSizes(s.q.running, id, s.q.running[id]);
  }

  lemma MarkRunningBalanced(s: Sys, id: Text, now: Time, absent: nat, released: nat)
    requires Sound(s) && Balanced(s, absent, released)
    ensures Sound(MarkRunning(s, id, now)) && Balanced(MarkRunning(s, id, now), absent, released)
  {
    var i := IndexOf(s.q.waiting, id);
    if i < |s.q.waiting| {
      PromoteKeepsConsistent(s.q, i, Running, now);
      M.MapSizes(s.q.running, id, Transitioned(s.q.waiting[i], Running, now));
    }
  }

  /** Whatever the workers do, one MarkDone leaves the counters balanced. */
  lemma MarkDoneBalanced(s: Sys, id: Text, env: Env, absent: nat, released: nat) returns (absent': nat)
    requires Sound(s) && Balanced(s, absent, released)
    ensures Sound(MarkDone(s, id, env)) && Balanced(MarkDone(s, id, env), absent', released)
    ensures absent' >= absent
    decreases |s.q.waiting|, 2
  {
    CompleteBalanced(s, id, absent, released);
    absent' := TryDequeueBalanced(Complete(s, id), env, if id in s.q.running then absent else absent + 1, released);
  }

  lemma TryDequeueBalanced(s: Sys, env: Env, absent: nat, released: nat) returns (absent': nat)
    requires Sound(s) && Balanced(s, absent, released)
    ensures Sound(TryDequeue(s, env)) && Balanced(TryDequeue(s, env), absent', released)
    ensures absent' >= absent
    decreases |s.q.waiting|, 1
  {
    DequeueBalanced(s, env, absent, released);
    var next := FindNextEligible(s.q);
    if next.Some? && env.onDequeue.Some? {
      absent' := DispatchBalanced(Dequeue(s, env), next.value.id, env, absent, released);
    } else {
      absent' := absent;
    }
  }

  lemma DispatchBalanced(s: Sys, id: Text, env: Env, absent: nat, released: nat) returns (absent': nat)
    requires Sound(s) && Balanced(s, absent, released) && env.onDequeue.Some?
    ensures Sound(Dispatch(s, id, env)) && Balanced(Dispatch(s, id, env), absent', released)
    ensures absent' >= absent
    decreases |s.q.waiting|, 4
  {
    match env.onDequeue.value(id)
    case NoStreamWorker => absent' := absent;
    case Ran(calls, failed) =>
      absent' := CallsBalanced(s, id, calls, env, absent, released);
      if failed {
        absent' := MarkDoneBalanced(Calls(s, id, calls, env), id, env, absent', released);
      }
  }

  lemma CallsBalanced(s: Sys, id: Text, calls: seq<WorkerCall>, env: Env, absent: nat, released: nat)
    returns (absent': nat)
    requires Sound(s) && Balanced(s, absent, released)
    ensures Sound(Calls(s, id, calls, env)) && Balanced(Calls(s, id, calls, env), absent', released)
    ensures absent' >= absent
    decreases |s.q.waiting|, 3, |calls|
  {
    absent' := absent;
    if calls != [] {
      var call := calls[0];
      if IsTerminal(call) {
        absent' := MarkDoneBalanced(s, id, env, absent, released);
      } else if call == CallEvent(EventStart) {
        MarkDispatchedBalanced(s, id, env.clock(id), absent, released);
      }
      absent' := CallsBalanced(Call(s, id, call, env), id, calls[1..], env, absent', released);
    }
  }
}
