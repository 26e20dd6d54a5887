/** One task over a run: its status, its start time and its place in the queue. */
module Lifecycle {
  import opened Prelude
  import opened Tasks
  import opened QueueSpec
  import opened QueueLemmas
  import opened QueueRuns

  /** The task with this ID, running or waiting. */
  function Lookup(q: Queue, id: Text): Option<Task>
  {
    var i := IndexOf(q.waiting, id);
    if id in q.running then Some(q.running[id])
    else if i < |q.waiting| then Some(q.waiting[i])
    else None
  }

  /** What may happen between q and a later q' to the task with this ID: it stays away once
      it has left, its status and start time only move forward, and it never goes back in
      the queue. */
  predicate Later(q: Queue, q': Queue, id: Text)
  {
    && (Lookup(q', id).Some? ==> Lookup(q, id).Some? && Forward(Lookup(q, id).value, Lookup(q', id).value))
    && (PositionOf(q'.waiting, id) != 0 ==> 0 < PositionOf(q'.waiting, id) <= PositionOf(q.waiting, id))
  }

  lemma LaterTransitive(a: Queue, b: Queue, c: Queue, id: Text)
    requires Later(a, b, id) && Later(b, c, id)
    ensures Later(a, c, id)
  {
  }

  lemma IndexOfRemoved(w: seq<Task>, i: nat, id: Text)
    requires DistinctIds(w) && i < |w|
    ensures
      var k := IndexOf(w, id);
      IndexOf(RemoveAt(w, i), id) == if k == |w| || k == i then |w| - 1 else if k < i then k else k - 1
  {
    var w', k := RemoveAt(w, i), IndexOf(w, id);
    var k' := IndexOf(w', id);
    if k < i {
      assert w'[k].id == id;
    } else if i < k < |w| {
      assert w'[k - 1].id == id;
    }
    if k' < |w'| {
      assert w[if k' < i then k' else k' + 1].id == id;
    }
  }

  lemma IndexOfAppended(w: seq<Task>, t: Task, id: Text)
    ensures
      var k := IndexOf(w, id);
      IndexOf(w + [t], id) == if k < |w| then k else if t.id == id then |w| else |w| + 1
  {
    var w', k := w + [t], IndexOf(w, id);
    var k' := IndexOf(w', id);
    if k < |w| {
      assert w'[k].id == id;
    } else if t.id == id {
      assert w'[|w|].id == id;
    }
    if k' < |w| {
      assert w[k'].id == id;
    }
  }

  lemma EnqueueLater(h: Hist, t: Task, id: Text)
    requires Structured(h) && t.id !in h.used && id in h.used
    ensures Later(h.q, Step(h, Enqueue(t)).q, id)
  {
    IndexOfAppended(h.q.waiting, t, id);
  }

  lemma MovedForward(q: Queue, i: nat, next: TaskStatus, now: Time)
    requires Consistent(q) && Disjoint(q) && i < |q.waiting|
    ensures Later(q, Promoted(q, i, next, now), q.waiting[i].id)
  {
    var t := q.waiting[i];
    IndexOfDistinct(q.waiting, i);
    IndexOfRemoved(q.waiting, i, t.id);
    assert Lookup(q, t.id) == Some(t);
    assert Forward(t, Transitioned(t, next, now));
  }

  lemma OthersStay(q: Queue, i: nat, next: TaskStatus, now: Time, id: Text)
    requires Consistent(q) && i < |q.waiting| && id != q.waiting[i].id
    ensures Lookup(Promoted(q, i, next, now), id) == Lookup(q, id)
    ensures PositionOf(Promoted(q, i, next, now).waiting, id) <= PositionOf(q.waiting, id)
  {
    IndexOfRemoved(q.waiting, i, id);
  }

  lemma MoveLater(q: Queue, i: nat, next: TaskStatus, now: Time, id: Text)
    requires Consistent(q) && Disjoint(q) && i < |q.waiting|
    ensures Later(q, Promoted(q, i, next, now), id)
  {
    if id == q.waiting[i].id {
      MovedForward(q, i, next, now);
    } else {
      OthersStay(q, i, next, now, id);
    }
  }

  lemma CompleteLater(q: Queue, done: Text, id: Text)
    ensures Disjoint(q) ==> Later(q, Completed(q, done), id)
    ensures Disjoint(q) ==> Later(q, Released(q, done), id)
  {
  }

  lemma ConfirmLater(q: Queue, mark: Text, now: Time, id: Text)
    requires Consistent(q)
    ensures Later(q, MarkedDispatched(q, mark, now), id)
  {
    if id in q.running {
      assert Forward(q.running[id], Transitioned(q.running[id], Running, now));
    }
  }

  lemma DirectLater(q: Queue, t: Task, now: Time, id: Text)
    requires t.id != id
    ensures Later(q, QueueSpec.RunDirectly(q, t, now), id)
  {
  }

  lemma StepLater(h: Hist, op: Op, id: Text)
    requires Structured(h) && Fresh(h, op) && id in h.used
    ensures Later(h.q, Step(h, op).q, id)
  {
    match op {
      case Enqueue(t) =>
        EnqueueLater(h, t, id);
      case Dequeue(now) =>
        DequeueStep(h, now);
        if FindNextEligible(h.q).Some? {
          MoveLater(h.q, NextPosition(h.q), Dispatching, now, id);
        }
      case MarkRunning(mark, now) =>
        MarkStep(h, mark, now);
        if IndexOf(h.q.waiting, mark) < |h.q.waiting| {
          MoveLater(h.q, IndexOf(h.q.waiting, mark), Running, now, id);
        }
      case Complete(done) => CompleteLater(h.q, done, id);
      case Release(done) => CompleteLater(h.q, done, id);
      case MarkDispatched(mark, now) => ConfirmLater(h.q, mark, now, id);
      case RunDirectly(t, now) => DirectLater(h.q, t, now, id);
    }
  }

  lemma {:induction false} RunUsed(h: Hist, ops: seq<Op>)
    ensures h.used <= Run(h, ops).used
  {
    if ops != [] {
      RunUsed(h, Front(ops));
    }
  }

  /** Over any run with fresh IDs, every task of its first state only moves forward: status,
      start time and queue position, and it does not return once it has left. */
  lemma {:induction false} NeverBackwards(h: Hist, ops: seq<Op>, id: Text)
    requires Structured(h) && Along(h, ops, Fresh) && id in h.used
    ensures Later(h.q, Run(h, ops).q, id)
  {
    if ops != [] {
      NeverBackwards(h, Front(ops), id);
      RunStructured(h, Front(ops));
      RunUsed(h, Front(ops));
      StepLater(Run(h, Front(ops)), Last(ops), id);
      LaterTransitive(h.q, Run(h, Front(ops)).q, Run(h, ops).q, id);
    }
  }

  // ---------------------------------------------------------------- runs that enqueue new tasks

  predicate FreshNew(h: Hist, op: Op)
  {
    Fresh(h, op) && (op.Enqueue? ==> op.t.status == Queued && op.t.startedAt.None?)
  }

  predicate AllQueued(q: Queue)
  {
    forall i :: 0 <= i < |q.waiting| ==> q.waiting[i].status == Queued && q.waiting[i].startedAt.None?
  }

  lemma StepAllQueued(h: Hist, op: Op)
    requires Structured(h) && FreshNew(h, op) && AllQueued(h.q)
    ensures AllQueued(Step(h, op).q)
  {
    StepWaiting(h, op);
    var w := Step(h, op).q.waiting;
    forall i | 0 <= i < |w|
      ensures w[i].status == Queued && w[i].startedAt.None?
    {
      assert w[i] in w;
    }
  }

  /** When only new tasks are enqueued, every waiting task is queued and not started. */
  lemma {:induction false} WaitingTasksAreQueued(h: Hist, ops: seq<Op>)
    requires Structured(h) && AllQueued(h.q) && Along(h, ops, FreshNew)
    ensures Along(h, ops, Fresh)
    ensures Structured(Run(h, ops)) && AllQueued(Run(h, ops).q)
  {
    if ops != [] {
      WaitingTasksAreQueued(h, Front(ops));
      StepStructured(Run(h, Front(ops)), Last(ops));
      StepAllQueued(Run(h, Front(ops)), Last(ops));
    }
  }

  /** The transition whose error tryDequeue ignores succeeds, and stamps the start time. */
  lemma DequeueTransitionSucceeds(h: Hist, now: Time)
    requires Structured(h) && AllQueued(h.q) && FindNextEligible(h.q).Some?
    ensures
      var t := FindNextEligible(h.q).value;
      && IsValidTransition(t.status, Dispatching)
      && Lookup(Step(h, Dequeue(now)).q, t.id) == Some(t.(status := Dispatching, startedAt := Some(now)))
      && DispatchAccepted(Step(h, Dequeue(now)).q, t.id)
  {
    DequeueStep(h, now);
  }

  /** The transition of MarkRunning never succeeds: the task runs with status queued, and
      MarkDispatched will refuse it. */
  lemma MarkRunningTransitionFails(h: Hist, id: Text, now: Time)
    requires Structured(h) && AllQueued(h.q) && IndexOf(h.q.waiting, id) < |h.q.waiting|
    ensures
      var t := h.q.waiting[IndexOf(h.q.waiting, id)];
      && !IsValidTransition(t.status, Running)
      && Lookup(Step(h, MarkRunning(id, now)).q, id) == Some(t)
      && !DispatchAccepted(Step(h, MarkRunning(id, now)).q, id)
  {
  }

  /** No step of the run completes, releases or confirms the task. */
  ghost predicate Untouched(ops: seq<Op>, id: Text)
  {
    forall i :: 0 <= i < |ops| ==>
      ops[i] != Complete(id) && ops[i] != Release(id) && (ops[i].MarkDispatched? ==> ops[i].id != id)
  }

  lemma MoveKeepsRunning(q: Queue, i: nat, next: TaskStatus, now: Time, id: Text)
    requires Disjoint(q) && i < |q.waiting| && id in q.running
    ensures id in Promoted(q, i, next, now).running && Promoted(q, i, next, now).running[id] == q.running[id]
  {
  }

  lemma StepKeepsRunning(h: Hist, op: Op, id: Text)
    requires Structured(h) && Fresh(h, op) && id in h.q.running
    requires op != Complete(id) && op != Release(id) && (op.MarkDispatched? ==> op.id != id)
    ensures id in Step(h, op).q.running && Step(h, op).q.running[id] == h.q.running[id]
  {
    match op {
      case Dequeue(now) =>
        DequeueStep(h, now);
        if FindNextEligible(h.q).Some? {
          MoveKeepsRunning(h.q, NextPosition(h.q), Dispatching, now, id);
        }
      case MarkRunning(mark, now) =>
        MarkStep(h, mark, now);
        if IndexOf(h.q.waiting, mark) < |h.q.waiting| {
          MoveKeepsRunning(h.q, IndexOf(h.q.waiting, mark), Running, now, id);
        }
      case _ =>
    }
  }

  /** Whatever else happens in between, the first MarkDispatched after a dequeue succeeds and
      every further one fails. */
  lemma {:induction false} MarkDispatchedOnce(h: Hist, ops: seq<Op>, id: Text, now: Time)
    requires Structured(h) && Along(h, ops, Fresh) && Untouched(ops, id) && DispatchAccepted(h.q, id)
    ensures id in Run(h, ops).q.running && Run(h, ops).q.running[id] == h.q.running[id]
    ensures DispatchAccepted(Run(h, ops).q, id)
    ensures !DispatchAccepted(MarkedDispatched(Run(h, ops).q, id, now), id)
  {
    if ops != [] {
      MarkDispatchedOnce(h, Front(ops), id, now);
      RunStructured(h, Front(ops));
      assert Last(ops) == ops[|ops| - 1];
      StepKeepsRunning(Run(h, Front(ops)), Last(ops), id);
    }
    DispatchedOnce(Run(h, ops).q, id, now);
  }
}
