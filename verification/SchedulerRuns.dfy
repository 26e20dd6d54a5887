/** The recursive scheduler takes only steps of the queue, so it inherits what holds of runs. */
module SchedulerRuns {
  import opened Prelude
  import opened Protocol
  import opened QueueSpec
  import R = QueueRuns
  import S = Scheduler

  /** The steps the scheduler takes on its own: completions, dequeues and confirmations. */
  predicate OwnSteps(ops: seq<R.Op>)
  {
    forall i :: 0 <= i < |ops| ==> ops[i].Complete? || ops[i].Dequeue? || ops[i].MarkDispatched?
  }

  lemma {:induction false} RunConcat(h: R.Hist, a: seq<R.Op>, b: seq<R.Op>)
    ensures R.Run(h, a + b) == R.Run(R.Run(h, a), b)
  {
    if b == [] {
      assert a + b == a;
    } else {
      assert Front(a + b) == a + Front(b);
      RunConcat(h, a, Front(b));
    }
  }

  lemma RunOne(h: R.Hist, op: R.Op)
    ensures R.Run(h, [op]) == R.Step(h, op)
  {
    assert Front([op]) == [];
  }

  /** The run ends in the scheduler's queue, and has dequeued what the scheduler logged. */
  predicate Matches(h: R.Hist, s: S.Sys)
  {
    h.q == s.q && |h.left| == |s.log| && forall i :: 0 <= i < |s.log| ==> h.left[i].id == s.log[i]
  }

  lemma Append(h: R.Hist, s: S.Sys, a: seq<R.Op>, b: seq<R.Op>)
    requires OwnSteps(a) && OwnSteps(b) && Matches(R.Run(R.Run(h, a), b), s)
    ensures OwnSteps(a + b) && Matches(R.Run(h, a + b), s)
  {
    RunConcat(h, a, b);
  }

  lemma MarkDoneRuns(h: R.Hist, s: S.Sys, id: Text, env: S.Env) returns (ops: seq<R.Op>)
    requires Matches(h, s)
    ensures OwnSteps(ops) && Matches(R.Run(h, ops), S.MarkDone(s, id, env))
    decreases |s.q.waiting|, 2
  {
    RunOne(h, R.Complete(id));
    var rest := TryDequeueRuns(R.Step(h, R.Complete(id)), S.Complete(s, id), env);
    ops := [R.Complete(id)] + rest;
    Append(h, S.MarkDone(s, id, env), [R.Complete(id)], rest);
  }

  lemma DequeueRuns(h: R.Hist, s: S.Sys, env: S.Env) returns (op: R.Op)
    requires Matches(h, s) && FindNextEligible(s.q).Some?
    ensures op.Dequeue? && Matches(R.Step(h, op), S.Dequeue(s, env))
  {
    op := R.Dequeue(env.clock(FindNextEligible(s.q).value.id));
  }

  lemma TryDequeueRuns(h: R.Hist, s: S.Sys, env: S.Env) returns (ops: seq<R.Op>)
    requires Matches(h, s)
    ensures OwnSteps(ops) && Matches(R.Run(h, ops), S.TryDequeue(s, env))
    decreases |s.q.waiting|, 1
  {
    var next := FindNextEligible(s.q);
    if next.None? {
      return [];
    }
    var op := DequeueRuns(h, s, env);
    RunOne(h, op);
    if env.onDequeue.None? {
      return [op];
    }
    var rest := DispatchRuns(R.Step(h, op), S.Dequeue(s, env), next.value.id, env);
    ops := [op] + rest;
    Append(h, S.TryDequeue(s, env), [op], rest);
  }

  lemma DispatchRuns(h: R.Hist, s: S.Sys, id: Text, env: S.Env) returns (ops: seq<R.Op>)
    requires Matches(h, s) && env.onDequeue.Some?
    ensures OwnSteps(ops) && Matches(R.Run(h, ops), S.Dispatch(s, id, env))
    decreases |s.q.waiting|, 4
  {
    match env.onDequeue.value(id)
    case NoStreamWorker => ops := [];
    case Ran(calls, failed) =>
      ops := CallsRun(h, s, id, calls, env);
      if failed {
        var s' := S.Calls(s, id, calls, env);
        var rest := MarkDoneRuns(R.Run(h, ops), s', id, env);
        Append(h, S.MarkDone(s', id, env), ops, rest);
        ops := ops + rest;
      }
  }

  lemma CallsRun(h: R.Hist, s: S.Sys, id: Text, calls: seq<WorkerCall>, env: S.Env) returns (ops: seq<R.Op>)
    requires Matches(h, s)
    ensures OwnSteps(ops) && Matches(R.Run(h, ops), S.Calls(s, id, calls, env))
    decreases |s.q.waiting|, 3, |calls|
  {
    if calls == [] {
      return [];
    }
    var first := CallRuns(h, s, id, calls[0], env);
    var s' := S.Call(s, id, calls[0], env);
    var rest := CallsRun(R.Run(h, first), s', id, calls[1..], env);
    Append(h, S.Calls(s', id, calls[1..], env), first, rest);
    ops := first + rest;
  }

  lemma CallRuns(h: R.Hist, s: S.Sys, id: Text, call: WorkerCall, env: S.Env) returns (ops: seq<R.Op>)
    requires Matches(h, s)
    ensures OwnSteps(ops) && Matches(R.Run(h, ops), S.Call(s, id, call, env))
    decreases |s.q.waiting|, 3, 0
  {
    if IsTerminal(call) {
      ops := MarkDoneRuns(h, s, id, env);
    } else if call == CallEvent(EventStart) {
      ops := [R.MarkDispatched(id, env.clock(id))];
      RunOne(h, ops[0]);
    } else {
      ops := [];
    }
  }

  lemma {:induction false} OwnStepsAreHarmless(h: R.Hist, ops: seq<R.Op>)
    requires OwnSteps(ops)
    ensures R.Along(h, ops, R.InTurn) && R.Along(h, ops, R.Fresh) && R.Along(h, ops, R.ReleasesDirect)
    ensures R.Run(h, ops).enqueued == h.enqueued && R.Run(h, ops).slots == h.slots
    ensures R.Run(h, ops).marked <= h.marked
  {
    if ops != [] {
      assert Last(ops) == ops[|ops| - 1];
      OwnStepsAreHarmless(h, Front(ops));
    }
  }

  lemma {:induction false} RunCounterLaw(h: R.Hist, ops: seq<R.Op>, c: Text)
    requires R.Basic(h) && R.CounterLaw(h, c) && R.Along(h, ops, R.ReleasesDirect)
    ensures R.CounterLaw(R.Run(h, ops), c)
  {
    if ops != [] {
      RunCounterLaw(h, Front(ops), c);
      R.RunBasic(h, Front(ops));
      R.StepCounterLaw(R.Run(h, Front(ops)), Last(ops), c);
    }
  }

  /** Whatever workers it meets, one MarkDone is a run of queue steps: it keeps the structure,
      the capacity bound and the channel counters, dequeues every channel in the order of its
      queue, and the tasks it logs as dispatched are the ones the run dequeued. */
  lemma MarkDoneKeepsQueueLaws(h: R.Hist, s: S.Sys, id: Text, env: S.Env, c: Text) returns (h': R.Hist)
    requires R.Structured(h) && R.InOrder(h, c) && R.CounterLaw(h, c) && Matches(h, s)
    ensures Matches(h', S.MarkDone(s, id, env))
    ensures R.Structured(h') && R.InOrder(h', c) && R.CounterLaw(h', c)
    ensures h'.enqueued == h.enqueued && h'.slots == h.slots && h'.marked <= h.marked
  {
    var ops := MarkDoneRuns(h, s, id, env);
    OwnStepsAreHarmless(h, ops);
    R.RunStructured(h, ops);
    R.RunInOrder(h, ops, c);
    RunCounterLaw(h, ops, c);
    h' := R.Run(h, ops);
  }
}
