/** The metric counters at every point between the atomic steps of the threads. A step is one
    locked section of the queue or one atomic add. An add that a thread still has to perform,
    inside or outside the lock, is owed. */
module MetricLaws {
  import opened Prelude
  import opened Tasks
  import opened QueueSpec
  import opened QueueRuns

  datatype Owed = Owed(enqueued: nat, activeUp: nat, activeDown: nat, queuedUp: nat, queuedDown: nat)

  /** pending are the completions counted but not yet deleted from the running tasks; absent
      counts completions of IDs that were not running, released the tasks given back. */
  datatype State = State(
    h: Hist, c: Counters, owed: Owed, pending: multiset<Text>, absent: nat, released: nat)

  datatype Action =
    | Section(op: Op)
    | BeginComplete(id: Text)
    | Delete(id: Text)
    | ReleaseSection(id: Text)
    | AddEnqueued
    | AddActive
    | SubActive
    | AddQueued
    | SubQueued

  function Initial(limit: int): State
  {
    State(Start(limit), Counters(0, 0, 0, 0), Owed(0, 0, 0, 0, 0), multiset{}, 0, 0)
  }

  /** The steps a thread can take: IDs are fresh, a deletion follows its own completion, and
      an add is performed only while it is owed. */
  predicate Enabled(s: State, a: Action)
  {
    match a
    case Section(op) => !op.Complete? && !op.Release? && Fresh(s.h, op)
    case BeginComplete(_) => true
    case Delete(id) => id in s.pending
    case ReleaseSection(_) => true
    case AddEnqueued => s.owed.enqueued > 0
    case AddActive => s.owed.activeUp > 0
    case SubActive => s.owed.activeDown > 0
    case AddQueued => s.owed.queuedUp > 0
    case SubQueued => s.owed.queuedDown > 0
  }

  /** The adds a locked section of the queue has to perform. */
  function Owes(h: Hist, op: Op): Owed
  {
    match op
    case Enqueue(t) => if EnqueueCheck(h.q, t).Some? then Owed(0, 0, 0, 0, 0) else Owed(1, 0, 0, 1, 0)
    case MarkRunning(id, _) =>
      if IndexOf(h.q.waiting, id) == |h.q.waiting| then Owed(0, 0, 0, 0, 0) else Owed(0, 1, 0, 0, 1)
    case Dequeue(_) => if FindNextEligible(h.q).None? then Owed(0, 0, 0, 0, 0) else Owed(0, 1, 0, 0, 1)
    case RunDirectly(t, _) => if !DirectAccepted(h.q, t) then Owed(0, 0, 0, 0, 0) else Owed(1, 1, 0, 0, 0)
    case _ => Owed(0, 0, 0, 0, 0)
  }

  function Plus(a: Owed, b: Owed): Owed
  {
    Owed(a.enqueued + b.enqueued, a.activeUp + b.activeUp, a.activeDown + b.activeDown,
         a.queuedUp + b.queuedUp, a.queuedDown + b.queuedDown)
  }

  function Act(s: State, a: Action): State
    requires Enabled(s, a)
  {
    match a
    case Section(op) => s.(h := Step(s.h, op), owed := Plus(s.owed, Owes(s.h, op)))
    case BeginComplete(id) =>
      s.(c := s.c.(completed := s.c.completed + 1), pending := s.pending + multiset{id},
         owed := s.owed.(activeDown := s.owed.activeDown + 1))
    case Delete(id) =>
      s.(h := Step(s.h, Complete(id)), pending := s.pending - multiset{id},
         absent := if id in s.h.q.running then s.absent else s.absent + 1)
    case ReleaseSection(id) =>
      if id !in s.h.q.running then s
      else s.(h := Step(s.h, Release(id)), released := s.released + 1,
              owed := s.owed.(activeDown := s.owed.activeDown + 1))
    case AddEnqueued =>
      s.(c := s.c.(enqueued := s.c.enqueued + 1), owed := s.owed.(enqueued := s.owed.enqueued - 1))
    case AddActive =>
      s.(c := s.c.(active := s.c.active + 1), owed := s.owed.(activeUp := s.owed.activeUp - 1))
    case SubActive =>
      s.(c := s.c.(active := s.c.active - 1), owed := s.owed.(activeDown := s.owed.activeDown - 1))
    case AddQueued =>
      s.(c := s.c.(queued := s.c.queued + 1), owed := s.owed.(queuedUp := s.owed.queuedUp - 1))
    case SubQueued =>
      s.(c := s.c.(queued := s.c.queued - 1), owed := s.owed.(queuedDown := s.owed.queuedDown - 1))
  }

  ghost predicate Possible(limit: int, acts: seq<Action>)
    decreases |acts|, 0
  {
    acts == [] || (Possible(limit, Front(acts)) && Enabled(After(limit, Front(acts)), Last(acts)))
  }

  ghost function After(limit: int, acts: seq<Action>): State
    requires Possible(limit, acts)
    decreases |acts|, 1
  {
    if acts == [] then Initial(limit) else Act(After(limit, Front(acts)), Last(acts))
  }

  /** Nothing gets lost: every task ever counted as enqueued waits, runs, has been completed
      or has been released; the two gauges are the sizes of the two structures. */
  predicate Conserved(s: State)
  {
    && s.c.enqueued + s.owed.enqueued
       == |s.h.q.waiting| + |s.h.q.running| + (s.c.completed - |s.pending| - s.absent) + s.released
    && s.c.queued + s.owed.queuedUp - s.owed.queuedDown == |s.h.q.waiting|
    && s.c.active + s.owed.activeUp - s.owed.activeDown == |s.h.q.running| - s.absent - |s.pending|
  }

  lemma MapSizes<T>(m: map<Text, T>, k: Text, v: T)
    ensures |m[k := v]| == |m| + if k in m then 0 else 1
    ensures |m - {k}| == |m| - if k in m then 1 else 0
  {
    assert |m.Keys| == |m|;
    assert m[k := v].Keys == m.Keys + {k} && |m[k := v].Keys| == |m[k := v]|;
    assert (m - {k}).Keys == m.Keys - {k} && |(m - {k}).Keys| == |m - {k}|;
  }

  lemma MoveSizes(h: Hist, i: nat, next: TaskStatus, now: Time)
    requires Structured(h) && i < |h.q.waiting|
    ensures |Move(h, i, next, now).q.waiting| == |h.q.waiting| - 1
    ensures |Move(h, i, next, now).q.running| == |h.q.running| + 1
  {
    var t := h.q.waiting[i];
    MapSizes(h.q.running, t.id, Transitioned(t, next, now));
  }

  /** What a locked section does to the sizes of the queue is what it owes the counters. */
  ghost predicate Accounted(h: Hist, op: Op)
  {
    var o := Owes(h, op);
    && |Step(h, op).q.waiting| == |h.q.waiting| + o.queuedUp - o.queuedDown
    && |Step(h, op).q.running| == |h.q.running| + o.activeUp - o.activeDown
    && o.enqueued == o.queuedUp - o.queuedDown + o.activeUp - o.activeDown
  }

  lemma MarkAccounted(h: Hist, id: Text, now: Time)
    requires Structured(h)
    ensures Accounted(h, MarkRunning(id, now))
  {
    MarkStep(h, id, now);
    if IndexOf(h.q.waiting, id) < |h.q.waiting| {
      MoveSizes(h, IndexOf(h.q.waiting, id), Running, now);
    }
  }

  lemma DequeueAccounted(h: Hist, now: Time)
    requires Structured(h)
    ensures Accounted(h, Dequeue(now))
  {
    DequeueStep(h, now);
    if FindNextEligible(h.q).Some? {
      MoveSizes(h, NextPosition(h.q), Dispatching, now);
    }
  }

  lemma EnqueueAccounted(h: Hist, t: Task)
    ensures Accounted(h, Enqueue(t))
  {
  }

  lemma DirectAccounted(h: Hist, t: Task, now: Time)
    ensures Accounted(h, RunDirectly(t, now))
  {
    MapSizes(h.q.running, t.id, StartedDirectly(t, now));
  }

  lemma DispatchedAccounted(h: Hist, id: Text, now: Time)
    ensures Accounted(h, MarkDispatched(id, now))
  {
    if id in h.q.running {
      MapSizes(h.q.running, id, Transitioned(h.q.running[id], Running, now));
    }
  }

  lemma SectionAccounted(h: Hist, op: Op)
    requires Structured(h) && !op.Complete? && !op.Release?
    ensures Accounted(h, op)
  {
    match op {
      case MarkRunning(id, now) => MarkAccounted(h, id, now);
      case Dequeue(now) => DequeueAccounted(h, now);
      case MarkDispatched(id, now) => DispatchedAccounted(h, id, now);
      case RunDirectly(t, now) => DirectAccounted(h, t, now);
      case Enqueue(t) => EnqueueAccounted(h, t);
    }
  }

  lemma SectionConserves(s: State, op: Op)
    requires Structured(s.h) && Conserved(s) && Enabled(s, Section(op))
    ensures Conserved(Act(s, Section(op)))
  {
    SectionAccounted(s.h, op);
  }

  lemma DeleteConserves(s: State, id: Text)
    requires Conserved(s) && Enabled(s, Delete(id))
    ensures Conserved(Act(s, Delete(id)))
  {
    if id in s.h.q.running {
      MapSizes(s.h.q.running, id, s.h.q.running[id]);
    } else {
      assert s.h.q.running - {id} == s.h.q.running;
    }
  }

  lemma ReleaseConserves(s: State, id: Text)
    requires Conserved(s)
    ensures Conserved(Act(s, ReleaseSection(id)))
  {
    if id in s.h.q.running {
      MapSizes(s.h.q.running, id, s.h.q.running[id]);
    }
  }

  lemma ActConserves(s: State, a: Action)
    requires Structured(s.h) && Conserved(s) && Enabled(s, a)
    ensures Structured(Act(s, a).h) && Conserved(Act(s, a))
  {
    match a {
      case Section(op) =>
        SectionConserves(s, op);
        StepStructured(s.h, op);
      case Delete(id) =>
        DeleteConserves(s, id);
        StepStructured(s.h, Complete(id));
      case ReleaseSection(id) =>
        ReleaseConserves(s, id);
        StepStructured(s.h, Release(id));
      case _ =>
    }
  }

  /** The conservation laws hold between any two atomic steps of any threads. */
  lemma {:induction false} CountersConserved(limit: nat, acts: seq<Action>)
    requires Possible(limit, acts)
    ensures Structured(After(limit, acts).h) && Conserved(After(limit, acts))
  {
    if acts != [] {
      CountersConserved(limit, Front(acts));
      ActConserves(After(limit, Front(acts)), Last(acts));
    }
  }

  /** With no call in progress the counters are exact, except that every completion of an ID
      that was not running lowers the active gauge by one for good. */
  lemma QuietCounters(limit: nat, acts: seq<Action>)
    requires Possible(limit, acts)
    requires After(limit, acts).owed == Owed(0, 0, 0, 0, 0) && After(limit, acts).pending == multiset{}
    ensures
      var s := After(limit, acts);
      && s.c.enqueued == |s.h.q.waiting| + |s.h.q.running| + (s.c.completed - s.absent) + s.released
      && s.c.queued == |s.h.q.waiting|
      && s.c.active == |s.h.q.running| - s.absent
      && (s.c.active == |s.h.q.running| <==> s.absent == 0)
  {
    CountersConserved(limit, acts);
  }
}
