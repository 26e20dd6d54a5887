/** What the callback calls and the return value of a dispatched worker do to its task. */
module Dispatches {
  import opened Prelude
  import opened Protocol
  import opened Tasks
  import opened QueueSpec
  import opened Scheduler

  // ---------------------------------------------------------------- nothing comes back

  predicate NotWaiting(q: Queue, id: Text)
  {
    IndexOf(q.waiting, id) == |q.waiting|
  }

  /** Later states: completions are only added, and a task that does not wait neither waits
      again nor runs again once it has stopped running. */
  predicate After(s: Sys, s': Sys, id: Text)
  {
    && s'.m.completed >= s.m.completed
    && (NotWaiting(s.q, id) ==> NotWaiting(s'.q, id) && (id !in s.q.running ==> id !in s'.q.running))
  }

  lemma NotInRest(w: seq<Task>, i: nat, id: Text)
    requires i < |w| && IndexOf(w, id) == |w|
    ensures IndexOf(RemoveAt(w, i), id) == |w| - 1 && w[i].id != id
  {
  }

  lemma DequeueAfter(s: Sys, env: Env, id: Text)
    ensures After(s, Dequeue(s, env), id)
  {
    if NotWaiting(s.q, id) && FindNextEligible(s.q).Some? {
      NotInRest(s.q.waiting, IndexOf(s.q.waiting, FindNextEligible(s.q).value.id), id);
    }
  }

  lemma MarkDoneAfter(s: Sys, done: Text, env: Env, id: Text)
    ensures After(Complete(s, done), MarkDone(s, done, env), id) && After(s, MarkDone(s, done, env), id)
    ensures MarkDone(s, done, env).m.completed >= s.m.completed + 1
    decreases |s.q.waiting|, 2
  {
    TryDequeueAfter(Complete(s, done), env, id);
  }

  lemma TryDequeueAfter(s: Sys, env: Env, id: Text)
    ensures After(s, TryDequeue(s, env), id)
    decreases |s.q.waiting|, 1
  {
    DequeueAfter(s, env, id);
    var next := FindNextEligible(s.q);
    if next.Some? && env.onDequeue.Some? {
      DispatchAfter(Dequeue(s, env), next.value.id, env, id);
    }
  }

  lemma DispatchAfter(s: Sys, task: Text, env: Env, id: Text)
    requires env.onDequeue.Some?
    ensures After(s, Dispatch(s, task, env), id)
    decreases |s.q.waiting|, 4
  {
    match env.onDequeue.value(task)
    case NoStreamWorker =>
    case Ran(calls, failed) =>
      CallsAfter(s, task, calls, env, id);
      if failed {
        MarkDoneAfter(Calls(s, task, calls, env), task, env, id);
      }
  }

  lemma CallsAfter(s: Sys, task: Text, calls: seq<WorkerCall>, env: Env, id: Text)
    ensures After(s, Calls(s, task, calls, env), id)
    decreases |s.q.waiting|, 3, |calls|
  {
    if calls != [] {
      CallAfter(s, task, calls[0], env, id);
      CallsAfter(Call(s, task, calls[0], env), task, calls[1..], env, id);
    }
  }

  lemma CallAfter(s: Sys, task: Text, call: WorkerCall, env: Env, id: Text)
    ensures After(s, Call(s, task, call, env), id)
    decreases |s.q.waiting|, 3, 0
  {
    if IsTerminal(call) {
      MarkDoneAfter(s, task, env, id);
    }
  }

  // ---------------------------------------------------------------- what a call means

  /** An error call, done and error end the task and count one completion at least. Start turns
      a dispatching task into a running one and touches nothing else. Every other call leaves
      the queue alone. */
  lemma CallMeaning(s: Sys, id: Text, call: WorkerCall, env: Env)
    requires Disjoint(s.q) && id in s.q.running
    ensures call == CallError || call == CallEvent(EventDone) || call == CallEvent(EventError) ==>
      id !in Call(s, id, call, env).q.running && Call(s, id, call, env).m.completed >= s.m.completed + 1
    ensures call == CallEvent(EventStart) && s.q.running[id].status == Dispatching ==>
      var q' := Call(s, id, call, env).q;
      id in q'.running && q'.running[id].status == Running && q' == s.q.(running := s.q.running[id := q'.running[id]])
    ensures
      (|| call == CallNil || call == CallEvent(EventProgress) || call == CallEvent(EventPaused)
       || call == CallEvent(EventToolCall) || (call.CallEvent? && call.kind.EventOther?))
      ==> Call(s, id, call, env) == s
  {
    if call != CallNil && call != CallEvent(EventStart) {
      MarkDoneAfter(s, id, env, id);
    }
    assert NotWaiting(s.q, id);
  }

  lemma {:induction false} CallsEnd(s: Sys, id: Text, calls: seq<WorkerCall>, env: Env, at: nat)
    requires NotWaiting(s.q, id) && at < |calls|
    requires calls[at] == CallError || calls[at] == CallEvent(EventDone) || calls[at] == CallEvent(EventError)
    ensures id !in Calls(s, id, calls, env).q.running
    ensures Calls(s, id, calls, env).m.completed >= s.m.completed + 1
    decreases at
  {
    var s1 := Call(s, id, calls[0], env);
    CallAfter(s, id, calls[0], env, id);
    if at == 0 {
      MarkDoneAfter(s, id, env, id);
      CallsAfter(s1, id, calls[1..], env, id);
    } else {
      CallsEnd(s1, id, calls[1..], env, at - 1);
    }
  }

  /** A worker that reports done, an error event or an error call, or that returns an error, ends
      its task: the task runs no longer, whatever it set off, and a completion was counted. */
  lemma DispatchEnds(s: Sys, id: Text, env: Env)
    requires Disjoint(s.q) && id in s.q.running && env.onDequeue.Some? && env.onDequeue.value(id).Ran?
    requires
      var run := env.onDequeue.value(id);
      || run.failed
      || exists i :: 0 <= i < |run.calls| &&
           (run.calls[i] == CallError || run.calls[i] == CallEvent(EventDone) || run.calls[i] == CallEvent(EventError))
    ensures id !in Dispatch(s, id, env).q.running
    ensures Dispatch(s, id, env).m.completed >= s.m.completed + 1
  {
    var run := env.onDequeue.value(id);
    var s1 := Calls(s, id, run.calls, env);
    assert NotWaiting(s.q, id);
    CallsAfter(s, id, run.calls, env, id);
    if run.failed {
      MarkDoneAfter(s1, id, env, id);
    } else {
      var i :| 0 <= i < |run.calls| &&
        (run.calls[i] == CallError || run.calls[i] == CallEvent(EventDone) || run.calls[i] == CallEvent(EventError));
      CallsEnd(s, id, run.calls, env, i);
    }
  }

  /** Calls that report no end leave the task running and count nothing. */
  lemma {:induction false} DispatchGoesOn(s: Sys, id: Text, calls: seq<WorkerCall>, env: Env)
    requires id in s.q.running
    requires forall i :: 0 <= i < |calls| ==>
      calls[i] != CallError && calls[i] != CallEvent(EventDone) && calls[i] != CallEvent(EventError)
    ensures id in Calls(s, id, calls, env).q.running && Calls(s, id, calls, env).m == s.m
    decreases |calls|
  {
    if calls != [] {
      DispatchGoesOn(Call(s, id, calls[0], env), id, calls[1..], env);
    }
  }

  /** Without a stream worker nothing happens to the dispatched task. */
  lemma NoWorkerLeavesTask(s: Sys, id: Text, env: Env)
    requires env.onDequeue.Some? && env.onDequeue.value(id) == NoStreamWorker
    ensures Dispatch(s, id, env) == s
  {
  }

  // ---------------------------------------------------------------- releasing recovered tasks

  /** Only a task released as done looks for the next task, and then it is the dequeue that
      follows; a task released with an error dispatches nothing. */
  lemma OnlyDoneDequeues(s: Sys, id: Text, env: Env)
    requires id in s.q.running
    ensures Release(s, id, false, env).log == s.log
    ensures Release(s, id, false, env).q.waiting == s.q.waiting
    ensures env.onDequeue.None? && FindNextEligible(Released(s.q, id)).Some? ==>
      Release(s, id, true, env).log == s.log + [FindNextEligible(Released(s.q, id)).value.id]
  {
  }
}
