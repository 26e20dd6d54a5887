/** The scheduler as a function: completing a task dequeues the next one, whose worker
    completes tasks in turn, all on one call stack. */
module Scheduler {
  import opened Prelude
  import opened Protocol
  import opened Tasks
  import opened QueueSpec

  /** What the scheduler cannot see: the clock, read at most once for each task (when its
      start time is written), and the dequeue callback with the worker behind it. */
  datatype Env = Env(clock: Text -> Time, onDequeue: Option<Text -> WorkerRun>)

  /** The queue, its metric counters, and the task IDs tryDequeue has moved so far. */
  datatype Sys = Sys(q: Queue, m: Counters, log: seq<Text>)

  function Complete(s: Sys, id: Text): Sys
  {
    s.(q := Completed(s.q, id),
       m := s.m.(completed := s.m.completed + 1, active := s.m.active - 1))
  }

  function Dequeue(s: Sys, env: Env): (r: Sys)
    ensures |r.q.waiting| == |s.q.waiting| - if FindNextEligible(s.q).Some? then 1 else 0
  {
    match FindNextEligible(s.q)
    case None => s
    case Some(t) =>
      s.(q := Dequeued(s.q, env.clock(t.id)),
         m := s.m.(queued := s.m.queued - 1, active := s.m.active + 1),
         log := s.log + [t.id])
  }

  /** MarkDone, which MarkError repeats. */
  function MarkDone(s: Sys, id: Text, env: Env): (r: Sys)
    ensures |r.q.waiting| <= |s.q.waiting|
    decreases |s.q.waiting|, 2
  {
    TryDequeue(Complete(s, id), env)
  }

  function TryDequeue(s: Sys, env: Env): (r: Sys)
    ensures |r.q.waiting| <= |s.q.waiting|
    decreases |s.q.waiting|, 1
  {
    var next := FindNextEligible(s.q);
    if next.Some? && env.onDequeue.Some? then Dispatch(Dequeue(s, env), next.value.id, env)
    else Dequeue(s, env)
  }

  /** dispatchQueuedTask: the worker's callback calls in order, then its return value. */
  function Dispatch(s: Sys, id: Text, env: Env): (r: Sys)
    requires env.onDequeue.Some?
    ensures |r.q.waiting| <= |s.q.waiting|
    decreases |s.q.waiting|, 4
  {
    match env.onDequeue.value(id)
    case NoStreamWorker => s
    case Ran(calls, failed) =>
      var s' := Calls(s, id, calls, env);
      if failed then MarkDone(s', id, env) else s'
  }

  function Calls(s: Sys, id: Text, calls: seq<WorkerCall>, env: Env): (r: Sys)
    ensures |r.q.waiting| <= |s.q.waiting|
    decreases |s.q.waiting|, 3, |calls|
  {
    if calls == [] then s else Calls(Call(s, id, calls[0], env), id, calls[1..], env)
  }

  /** What one callback call does to the queue. */
  function Call(s: Sys, id: Text, call: WorkerCall, env: Env): (r: Sys)
    ensures |r.q.waiting| <= |s.q.waiting|
    decreases |s.q.waiting|, 3, 0
  {
    if IsTerminal(call) then MarkDone(s, id, env)
    else if call == CallEvent(EventStart) then s.(q := MarkedDispatched(s.q, id, env.clock(id)))
    else s
  }

  /** The part of releaseTerminalTask before it looks for the next task. */
  function ReleaseSlot(s: Sys, id: Text): Sys
    requires id in s.q.running
  {
    s.(q := Released(s.q, id), m := s.m.(active := s.m.active - 1))
  }

  /** releaseTerminalTask. */
  function Release(s: Sys, id: Text, isDone: bool, env: Env): Sys
  {
    if id !in s.q.running then s
    else if isDone then TryDequeue(ReleaseSlot(s, id), env)
    else ReleaseSlot(s, id)
  }

  function EnqueueTask(s: Sys, t: Task): Sys
  {
    if EnqueueCheck(s.q, t).Some? then s
    else s.(q := Enqueued(s.q, t),
            m := s.m.(enqueued := s.m.enqueued + 1, queued := s.m.queued + 1))
  }

  function MarkRunning(s: Sys, id: Text, now: Time): Sys
  {
    if IndexOf(s.q.waiting, id) == |s.q.waiting| then s
    else s.(q := MarkedRunning(s.q, id, now),
            m := s.m.(active := s.m.active + 1, queued := s.m.queued - 1))
  }

  function MarkRunningDirect(s: Sys, t: Task, now: Time): Sys
  {
    if !DirectAccepted(s.q, t) then s
    else s.(q := RunDirectly(s.q, t, now),
            m := s.m.(enqueued := s.m.enqueued + 1, active := s.m.active + 1))
  }
}
