/** Runs of the gateway: mentions arrive one at a time on the event loop, while completions,
    dequeues and start events of any task interleave with them and with each other. */
module GatewayRuns {
  import opened Prelude
  import opened Decimals
  import opened Tasks
  import opened QueueSpec
  import opened QueueLemmas
  import R = QueueRuns

  /** What a mention decided when it looked at its channel: to queue, or to run directly. */
  datatype Decision = Decision(channel: Text, queue: bool)

  /** A terminal call of the worker of owner, which has looked up the task to complete. */
  datatype Completion = Completion(owner: Text, id: Text)

  /** The queue with its history, the task counter, and the mention in progress; the task IDs
      that start events have looked up and are about to mark as running; the worker of each
      mention that has been acted on, the terminal calls that still have to complete a task,
      the workers that made one, and the number of completions that have yet to look for the
      next task. */
  datatype Gateway = Gateway(
    h: R.Hist, counter: nat, mention: Option<Decision>, marks: set<Text>,
    workers: map<Text, Decision>, pending: multiset<Completion>, ended: set<Text>, owed: nat)

  datatype Event =
    | MentionCheck(channel: Text)
    | MentionAct(user: Text, prompt: Text, now: Time)
    | MentionFallback
    | Terminal(owner: Text, id: Text)
    | Finish(owner: Text, id: Text)
    | DequeueNext(now: Time)
    | Confirm(id: Text, now: Time)
    | StartLookup(owner: Text, id: Text)
    | StartMark(id: Text, now: Time)

  /** What FindByChannel can return. */
  predicate FoundByChannel(q: Queue, c: Text, id: Text)
  {
    || (id in q.running && q.running[id].channel == c)
    || (&& c !in BusyChannels(q.running)
        && exists i ::
             0 <= i < |q.waiting| && R.FirstOfChannel(q, i) && q.waiting[i].channel == c && q.waiting[i].id == id)
  }

  /** What a terminal call can complete: its own task, or, when the task was run directly,
      what a lookup by channel finds, which is the empty ID when nothing runs. */
  predicate CanComplete(g: Gateway, owner: Text, id: Text)
    requires owner in g.workers
  {
    var c := g.workers[owner].channel;
    || id == owner
    || (!g.workers[owner].queue && (FoundByChannel(g.h.q, c, id) || (id == EMPTY && c !in BusyChannels(g.h.q.running))))
  }

  predicate Enabled(g: Gateway, e: Event)
  {
    match e
    case MentionCheck(_) => g.mention.None?
    case MentionAct(_, _, _) => g.mention.Some?
    case MentionFallback => g.mention.Some? && !g.mention.value.queue
    case StartLookup(owner, id) =>
      owner in g.workers && !g.workers[owner].queue && FoundByChannel(g.h.q, g.workers[owner].channel, id)
    case StartMark(id, _) => id in g.marks
    case Terminal(owner, id) => owner in g.workers && CanComplete(g, owner, id)
    case Finish(owner, id) => Completion(owner, id) in g.pending
    case DequeueNext(_) => g.owed > 0
    case Confirm(_, _) => true
  }

  /** The task a mention creates, and what the mention does with it. */
  function MentionTask(g: Gateway, user: Text, prompt: Text, now: Time): Task
    requires g.mention.Some?
  {
    NewTask(GeneratedID(g.counter + 1), g.mention.value.channel, user, prompt, now)
  }

  function MentionOp(g: Gateway, user: Text, prompt: Text, now: Time): R.Op
    requires g.mention.Some?
  {
    var t := MentionTask(g, user, prompt, now);
    if g.mention.value.queue then R.Enqueue(t) else R.RunDirectly(t, now)
  }

  function Handle(g: Gateway, e: Event): Gateway
    requires Enabled(g, e)
  {
    match e
    case MentionCheck(c) => g.(mention := Some(Decision(c, Count(g.h.q.channels, c) > 0)))
    case MentionAct(user, prompt, now) =>
      g.(h := R.Step(g.h, MentionOp(g, user, prompt, now)), counter := g.counter + 1, mention := None,
         workers := g.workers[MentionTask(g, user, prompt, now).id := g.mention.value])
    case MentionFallback => g.(mention := None)
    case Terminal(owner, id) =>
      g.(pending := g.pending + multiset{Completion(owner, id)}, ended := g.ended + {owner})
    case Finish(owner, id) =>
      g.(h := R.Step(g.h, R.Complete(id)), pending := g.pending - multiset{Completion(owner, id)}, owed := g.owed + 1)
    case DequeueNext(now) => g.(h := R.Step(g.h, R.Dequeue(now)), owed := g.owed - 1)
    case Confirm(id, now) => g.(h := R.Step(g.h, R.MarkDispatched(id, now)))
    case StartLookup(_, id) => g.(marks := g.marks + {id})
    case StartMark(id, now) => g.(h := R.Step(g.h, R.MarkRunning(id, now)))
  }

  ghost predicate Possible(g: Gateway, events: seq<Event>)
    decreases |events|, 0
  {
    events == [] || (Possible(g, Front(events)) && Enabled(After(g, Front(events)), Last(events)))
  }

  ghost function After(g: Gateway, events: seq<Event>): Gateway
    requires Possible(g, events)
    decreases |events|, 1
  {
    if events == [] then g else Handle(After(g, Front(events)), Last(events))
  }

  // ---------------------------------------------------------------- the invariant

  /** Every task in the queue is of a channel that holds a direct registration. */
  predicate Rooted(h: R.Hist)
  {
    && (forall i :: 0 <= i < |h.q.waiting| ==> h.slots[h.q.waiting[i].channel] > 0)
    && (forall k :: k in h.q.running ==> h.slots[h.q.running[k].channel] > 0)
  }

  predicate OnePerChannel(q: Queue)
  {
    forall j, k :: j in q.running && k in q.running && q.running[j].channel == q.running[k].channel ==> j == k
  }

  /** A task that a start event is about to mark, if it still waits, is the first of its
      channel, and nothing of the channel runs. */
  predicate Markable(q: Queue, marks: set<Text>)
  {
    forall i :: 0 <= i < |q.waiting| && q.waiting[i].id in marks ==>
      R.FirstOfChannel(q, i) && q.waiting[i].channel !in BusyChannels(q.running)
  }

  predicate MentionSound(g: Gateway)
  {
    g.mention.Some? ==> (g.mention.value.queue <==> g.h.slots[g.mention.value.channel] > 0)
  }

  ghost predicate FreshCounter(g: Gateway)
  {
    forall n: nat :: n > g.counter ==> GeneratedID(n) !in g.h.used
  }

  ghost predicate Invariant(g: Gateway)
  {
    && R.Structured(g.h)
    && (forall c :: R.CounterLaw(g.h, c))
    && Rooted(g.h)
    && OnePerChannel(g.h.q)
    && Markable(g.h.q, g.marks)
    && g.marks <= g.h.used
    && MentionSound(g)
    && FreshCounter(g)
  }

  // ---------------------------------------------------------------- its preservation

  lemma CounterMeansSlot(h: R.Hist, c: Text)
    requires Rooted(h) && R.CounterLaw(h, c)
    ensures Count(h.q.channels, c) > 0 <==> h.slots[c] > 0
  {
    if IdsOn(h.q.waiting, c) != [] {
      IdsOnSome(h.q.waiting, c);
    }
  }

  /** A queue operation whose new tasks have fresh IDs keeps the laws of the queue. */
  lemma StepLaws(h: R.Hist, op: R.Op)
    requires R.Structured(h) && R.Fresh(h, op) && !op.Release? && forall c :: R.CounterLaw(h, c)
    ensures R.Structured(R.Step(h, op)) && forall c :: R.CounterLaw(R.Step(h, op), c)
  {
    R.StepStructured(h, op);
    forall c
      ensures R.CounterLaw(R.Step(h, op), c)
    {
      R.StepCounterLaw(h, op, c);
    }
  }

  lemma MoveRooted(h: R.Hist, i: nat, next: TaskStatus, now: Time)
    requires Rooted(h) && i < |h.q.waiting|
    ensures Rooted(R.Move(h, i, next, now))
  {
  }

  lemma MoveOnePerChannel(q: Queue, i: nat, next: TaskStatus, now: Time)
    requires OnePerChannel(q) && i < |q.waiting| && q.waiting[i].channel !in BusyChannels(q.running)
    ensures OnePerChannel(Promoted(q, i, next, now))
  {
  }

  lemma MoveMarkable(q: Queue, marks: set<Text>, i: nat, next: TaskStatus, now: Time)
    requires Markable(q, marks) && R.FirstOfChannel(q, i)
    ensures Markable(Promoted(q, i, next, now), marks)
  {
    var t, q' := q.waiting[i], Promoted(q, i, next, now);
    assert BusyChannels(q'.running) <= BusyChannels(q.running) + {t.channel};
    forall j | 0 <= j < |q'.waiting| && q'.waiting[j].id in marks
      ensures R.FirstOfChannel(q', j) && q'.waiting[j].channel !in BusyChannels(q'.running)
    {
      var j' := if j < i then j else j + 1;
      assert R.FirstOfChannel(q, j');
      assert q'.waiting[j].channel != t.channel;
    }
  }

  /** Moving the first waiting task of a channel that does not run. */
  lemma MoveKeeps(h: R.Hist, marks: set<Text>, i: nat, next: TaskStatus, now: Time)
    requires R.Structured(h) && Rooted(h) && OnePerChannel(h.q) && Markable(h.q, marks)
    requires R.FirstOfChannel(h.q, i) && h.q.waiting[i].channel !in BusyChannels(h.q.running)
    ensures Rooted(R.Move(h, i, next, now)) && OnePerChannel(R.Move(h, i, next, now).q)
    ensures Markable(R.Move(h, i, next, now).q, marks)
  {
    MoveRooted(h, i, next, now);
    MoveOnePerChannel(h.q, i, next, now);
    MoveMarkable(h.q, marks, i, next, now);
  }

  lemma MentionIsFresh(g: Gateway, user: Text, prompt: Text, now: Time)
    requires Invariant(g) && g.mention.Some?
    ensures
      var t := MentionTask(g, user, prompt, now);
      t.id !in g.h.used && EnqueueCheck(g.h.q, t).None? && DirectAccepted(g.h.q, t)
  {
    var t := MentionTask(g, user, prompt, now);
    assert t.id !in g.h.used;
    assert |t.id.chars| >= 5;
    assert forall i :: 0 <= i < |g.h.q.waiting| ==> g.h.q.waiting[i].id != t.id;
  }

  lemma MentionKeeps(g: Gateway, user: Text, prompt: Text, now: Time)
    requires Invariant(g) && g.mention.Some?
    ensures Invariant(Handle(g, MentionAct(user, prompt, now)))
  {
    var t := MentionTask(g, user, prompt, now);
    var op := MentionOp(g, user, prompt, now);
    var g' := Handle(g, MentionAct(user, prompt, now));
    assert t.id !in g.h.used;
    StepLaws(g.h, op);
    MentionUsed(g, user, prompt, now);
    if g.mention.value.queue {
      EnqueueKeeps(g.h, g.marks, t);
    } else {
      DirectKeeps(g.h, g.marks, t, now);
    }
  }

  lemma MentionUsed(g: Gateway, user: Text, prompt: Text, now: Time)
    requires Invariant(g) && g.mention.Some?
    ensures FreshCounter(Handle(g, MentionAct(user, prompt, now)))
    ensures g.h.used <= Handle(g, MentionAct(user, prompt, now)).h.used
  {
    forall n: nat | n > g.counter + 1
      ensures GeneratedID(n) !in Handle(g, MentionAct(user, prompt, now)).h.used
    {
      if GeneratedID(n) == GeneratedID(g.counter + 1) {
        GeneratedIDInjective(n, g.counter + 1);
      }
    }
  }

  lemma EnqueueKeeps(h: R.Hist, marks: set<Text>, t: Task)
    requires R.Structured(h) && Rooted(h) && OnePerChannel(h.q) && Markable(h.q, marks)
    requires marks <= h.used && t.id !in h.used && h.slots[t.channel] > 0
    ensures Rooted(R.Step(h, R.Enqueue(t))) && OnePerChannel(R.Step(h, R.Enqueue(t)).q)
    ensures Markable(R.Step(h, R.Enqueue(t)).q, marks)
  {
    var q' := R.Step(h, R.Enqueue(t)).q;
    forall j | 0 <= j < |q'.waiting| && q'.waiting[j].id in marks
      ensures R.FirstOfChannel(q', j) && q'.waiting[j].channel !in BusyChannels(q'.running)
    {
      assert R.FirstOfChannel(h.q, j);
    }
  }

  lemma DirectKeeps(h: R.Hist, marks: set<Text>, t: Task, now: Time)
    requires R.Structured(h) && Rooted(h) && OnePerChannel(h.q) && Markable(h.q, marks)
    requires h.slots[t.channel] == 0
    ensures Rooted(R.Step(h, R.RunDirectly(t, now))) && OnePerChannel(R.Step(h, R.RunDirectly(t, now)).q)
    ensures Markable(R.Step(h, R.RunDirectly(t, now)).q, marks)
  {
    var q' := R.Step(h, R.RunDirectly(t, now)).q;
    forall j | 0 <= j < |q'.waiting| && q'.waiting[j].id in marks
      ensures R.FirstOfChannel(q', j) && q'.waiting[j].channel !in BusyChannels(q'.running)
    {
      assert R.FirstOfChannel(h.q, j);
    }
  }

  lemma FinishKeeps(h: R.Hist, marks: set<Text>, id: Text)
    requires Rooted(h) && OnePerChannel(h.q) && Markable(h.q, marks)
    ensures Rooted(R.Step(h, R.Complete(id))) && OnePerChannel(R.Step(h, R.Complete(id)).q)
    ensures Markable(R.Step(h, R.Complete(id)).q, marks)
  {
    var q' := R.Step(h, R.Complete(id)).q;
    forall j | 0 <= j < |q'.waiting| && q'.waiting[j].id in marks
      ensures R.FirstOfChannel(q', j) && q'.waiting[j].channel !in BusyChannels(q'.running)
    {
      assert R.FirstOfChannel(h.q, j);
    }
  }

  lemma ConfirmKeeps(h: R.Hist, marks: set<Text>, id: Text, now: Time)
    requires Rooted(h) && OnePerChannel(h.q) && Markable(h.q, marks)
    ensures Rooted(R.Step(h, R.MarkDispatched(id, now))) && OnePerChannel(R.Step(h, R.MarkDispatched(id, now)).q)
    ensures Markable(R.Step(h, R.MarkDispatched(id, now)).q, marks)
  {
    var q' := R.Step(h, R.MarkDispatched(id, now)).q;
    SameChannels(h.q, id, now);
    forall j | 0 <= j < |q'.waiting| && q'.waiting[j].id in marks
      ensures R.FirstOfChannel(q', j) && q'.waiting[j].channel !in BusyChannels(q'.running)
    {
      assert R.FirstOfChannel(h.q, j);
    }
  }

  lemma SameChannels(q: Queue, id: Text, now: Time)
    ensures
      var q' := MarkedDispatched(q, id, now);
      && q'.running.Keys == q.running.Keys
      && (forall k :: k in q.running ==> q'.running[k].channel == q.running[k].channel)
      && BusyChannels(q'.running) == BusyChannels(q.running)
  {
    var q' := MarkedDispatched(q, id, now);
    assert forall k :: k in q.running ==> q'.running[k].channel == q.running[k].channel;
  }

  lemma DequeueKeeps(g: Gateway, now: Time)
    requires Invariant(g) && g.owed > 0
    ensures Invariant(Handle(g, DequeueNext(now)))
  {
    StepLaws(g.h, R.Dequeue(now));
    R.DequeueStep(g.h, now);
    if FindNextEligible(g.h.q).Some? {
      var i := R.NextPosition(g.h.q);
      assert R.FirstOfChannel(g.h.q, i);
      MoveKeeps(g.h, g.marks, i, Dispatching, now);
    }
  }

  lemma MarkKeeps(g: Gateway, id: Text, now: Time)
    requires Invariant(g) && id in g.marks
    ensures Invariant(Handle(g, StartMark(id, now)))
  {
    StepLaws(g.h, R.MarkRunning(id, now));
    R.MarkStep(g.h, id, now);
    var i := IndexOf(g.h.q.waiting, id);
    if i < |g.h.q.waiting| {
      MoveKeeps(g.h, g.marks, i, Running, now);
    }
  }

  lemma LookupKeeps(g: Gateway, owner: Text, id: Text)
    requires Invariant(g) && Enabled(g, StartLookup(owner, id))
    ensures Invariant(Handle(g, StartLookup(owner, id)))
  {
    var q, c := g.h.q, g.workers[owner].channel;
    forall j | 0 <= j < |q.waiting| && q.waiting[j].id in g.marks + {id}
      ensures R.FirstOfChannel(q, j) && q.waiting[j].channel !in BusyChannels(q.running)
    {
      if q.waiting[j].id == id {
        assert id !in q.running;
        var i :| 0 <= i < |q.waiting| && R.FirstOfChannel(q, i) && q.waiting[i].channel == c && q.waiting[i].id == id;
        assert i == j;
      }
    }
  }

  lemma HandleKeeps(g: Gateway, e: Event)
    requires Invariant(g) && Enabled(g, e)
    ensures Invariant(Handle(g, e))
  {
    match e {
      case MentionCheck(c) => CounterMeansSlot(g.h, c);
      case MentionAct(user, prompt, now) => MentionKeeps(g, user, prompt, now);
      case MentionFallback =>
      case Terminal(_, _) =>
      case Finish(_, id) =>
        StepLaws(g.h, R.Complete(id));
        FinishKeeps(g.h, g.marks, id);
      case DequeueNext(now) => DequeueKeeps(g, now);
      case Confirm(id, now) =>
        StepLaws(g.h, R.MarkDispatched(id, now));
        ConfirmKeeps(g.h, g.marks, id, now);
      case StartLookup(owner, id) => LookupKeeps(g, owner, id);
      case StartMark(id, now) => MarkKeeps(g, id, now);
    }
  }

  /** In every gateway run at most one task per channel is running, at any moment. */
  lemma {:induction false} SingleTaskPerChannel(g: Gateway, events: seq<Event>)
    requires Invariant(g) && Possible(g, events)
    ensures Invariant(After(g, events)) && OnePerChannel(After(g, events).h.q)
  {
    if events != [] {
      SingleTaskPerChannel(g, Front(events));
      HandleKeeps(After(g, Front(events)), Last(events));
    }
  }

  lemma HandleInOrder(g: Gateway, e: Event, c: Text)
    requires Invariant(g) && Enabled(g, e) && R.InOrder(g.h, c)
    ensures R.InOrder(Handle(g, e).h, c)
  {
    match e {
      case MentionAct(user, prompt, now) => R.StepInOrder(g.h, MentionOp(g, user, prompt, now), c);
      case Finish(_, id) => R.StepInOrder(g.h, R.Complete(id), c);
      case DequeueNext(now) => R.StepInOrder(g.h, R.Dequeue(now), c);
      case Confirm(id, now) => R.StepInOrder(g.h, R.MarkDispatched(id, now), c);
      case StartMark(id, now) => R.StepInOrder(g.h, R.MarkRunning(id, now), c);
      case _ =>
    }
  }

  /** In every gateway run, late start events included, each channel's tasks leave the queue
      in the order in which they were queued. */
  lemma {:induction false} GatewayFifo(g: Gateway, events: seq<Event>, c: Text)
    requires Invariant(g) && Possible(g, events) && R.InOrder(g.h, c)
    ensures R.InOrder(After(g, events).h, c)
  {
    if events != [] {
      GatewayFifo(g, Front(events), c);
      SingleTaskPerChannel(g, Front(events));
      HandleInOrder(After(g, Front(events)), Last(events), c);
    }
  }

  // ---------------------------------------------------------------- what follows

  /** Looking up a running task by its channel, as its terminal event does, finds that task,
      whichever of the two lookups is used. */
  lemma LookupFindsOwnTask(g: Gateway, events: seq<Event>, id: Text, found: Text)
    requires Invariant(g) && Possible(g, events)
    requires id in After(g, events).h.q.running
    requires
      var q := After(g, events).h.q;
      || (found in q.running && q.running[found].channel == q.running[id].channel)
      || FoundByChannel(q, q.running[id].channel, found)
    ensures found == id
  {
    SingleTaskPerChannel(g, events);
  }

  /** Queueing a mention never fails, and the position it reports is the new queue length. */
  lemma MentionIsQueued(g: Gateway, events: seq<Event>, user: Text, prompt: Text, now: Time)
    requires Invariant(g) && Possible(g, events)
    requires After(g, events).mention.Some? && After(g, events).mention.value.queue
    ensures
      var g1 := After(g, events);
      var t := MentionTask(g1, user, prompt, now);
      var g2 := Handle(g1, MentionAct(user, prompt, now));
      && EnqueueCheck(g1.h.q, t).None?
      && g2.h.q.waiting == g1.h.q.waiting + [t]
      && PositionOf(g2.h.q.waiting, t.id) == |g2.h.q.waiting|
  {
    SingleTaskPerChannel(g, events);
    var g1 := After(g, events);
    MentionIsFresh(g1, user, prompt, now);
    EnqueuePosition(g1.h.q, MentionTask(g1, user, prompt, now));
  }

  /** A mention that runs directly finds its channel idle, up to the moment it registers. */
  lemma DirectMentionIsAlone(g: Gateway, events: seq<Event>)
    requires Invariant(g) && Possible(g, events)
    requires After(g, events).mention.Some? && !After(g, events).mention.value.queue
    ensures !Occupied(After(g, events).h.q, After(g, events).mention.value.channel)
  {
    SingleTaskPerChannel(g, events);
  }

  /** The channel has a running or a waiting task. */
  predicate Occupied(q: Queue, c: Text)
  {
    || (exists k :: k in q.running && q.running[k].channel == c)
    || (exists i :: 0 <= i < |q.waiting| && q.waiting[i].channel == c)
  }

  lemma Extend(g: Gateway, events: seq<Event>, e: Event)
    requires Possible(g, events) && Enabled(After(g, events), e)
    ensures Possible(g, events + [e]) && After(g, events + [e]) == Handle(After(g, events), e)
  {
    assert Front(events + [e]) == events;
  }

  lemma HandleCovered(g: Gateway, e: Event)
    requires Enabled(g, e) && R.Covered(g.h)
    ensures R.Covered(Handle(g, e).h)
  {
    match e {
      case MentionAct(user, prompt, now) => R.StepCovered(g.h, MentionOp(g, user, prompt, now));
      case Finish(_, id) => R.StepCovered(g.h, R.Complete(id));
      case DequeueNext(now) => R.StepCovered(g.h, R.Dequeue(now));
      case Confirm(id, now) => R.StepCovered(g.h, R.MarkDispatched(id, now));
      case StartMark(id, now) => R.StepCovered(g.h, R.MarkRunning(id, now));
      case _ =>
    }
  }

  lemma {:induction false} RunCovered(g: Gateway, events: seq<Event>)
    requires Possible(g, events) && R.Covered(g.h)
    ensures R.Covered(After(g, events).h)
  {
    if events != [] {
      RunCovered(g, Front(events));
      HandleCovered(After(g, Front(events)), Last(events));
    }
  }

  /** In every gateway run, start events included, the running tasks are at most the limit plus
      the ones that were run directly and the ones that start events marked. */
  lemma GatewayCapacity(g: Gateway, events: seq<Event>)
    requires Invariant(g) && Possible(g, events) && R.Covered(g.h)
    ensures
      var h := After(g, events).h;
      |h.q.running| <= h.q.limit + |h.direct| + |h.marked|
  {
    SingleTaskPerChannel(g, events);
    RunCovered(g, events);
    R.CoveredCapacity(After(g, events).h);
  }
}
