/** Which worker completes which task in a gateway run. */
module GatewayWorkers {
  import opened Prelude
  import opened Tasks
  import opened QueueSpec
  import opened GatewayRuns
  import R = QueueRuns

  /** Each worker has a task ID of its own, its task is of its channel, every waiting task is
      one that a mention queued, and at most one task per channel was run directly. */
  ghost predicate OwnersSound(h: R.Hist, workers: map<Text, Decision>)
  {
    && (forall id :: id in workers ==> id in h.used && id != EMPTY)
    && (forall id :: id in workers && id in h.q.running ==> h.q.running[id].channel == workers[id].channel)
    && (forall i :: 0 <= i < |h.q.waiting| ==>
          h.q.waiting[i].id in workers && workers[h.q.waiting[i].id] == Decision(h.q.waiting[i].channel, true))
    && (forall id :: id in workers && !workers[id].queue ==> h.slots[workers[id].channel] > 0)
    && (forall j, k :: j in workers && k in workers && !workers[j].queue && workers[j] == workers[k] ==> j == k)
  }

  /** Only the worker of a directly run task can be about to complete it, so the task runs until
      that worker makes a terminal call. */
  ghost predicate PendingSound(
      used: set<Text>, running: set<Text>, workers: map<Text, Decision>, pending: multiset<Completion>,
      ended: set<Text>)
  {
    && ended <= used
    && (forall p :: p in pending ==> (p.id == EMPTY || p.id in used) && p.owner in ended)
    && (forall p :: p in pending && p.id in workers && !workers[p.id].queue ==> p.owner == p.id)
    && (forall id :: id in workers && !workers[id].queue && id !in ended ==> id in running)
  }

  ghost predicate Attributed(g: Gateway)
  {
    && OwnersSound(g.h, g.workers)
    && PendingSound(g.h.used, g.h.q.running.Keys, g.workers, g.pending, g.ended)
  }

  lemma NewQueueOwner(h: R.Hist, workers: map<Text, Decision>, t: Task)
    requires OwnersSound(h, workers) && EnqueueCheck(h.q, t).None? && t.id !in h.used
    ensures OwnersSound(R.Step(h, R.Enqueue(t)), workers[t.id := Decision(t.channel, true)])
  {
    assert R.Step(h, R.Enqueue(t)).q.waiting == h.q.waiting + [t];
  }

  lemma NewDirectOwner(h: R.Hist, workers: map<Text, Decision>, t: Task, now: Time)
    requires OwnersSound(h, workers) && DirectAccepted(h.q, t) && t.id !in h.used && h.slots[t.channel] == 0
    ensures OwnersSound(R.Step(h, R.RunDirectly(t, now)), workers[t.id := Decision(t.channel, false)])
  {
  }

  lemma NewPending(used: set<Text>, running: set<Text>, workers: map<Text, Decision>, pending: multiset<Completion>,
                   ended: set<Text>, id: Text, d: Decision)
    requires PendingSound(used, running, workers, pending, ended) && id !in used && id != EMPTY
    ensures PendingSound(used + {id}, if d.queue then running else running + {id}, workers[id := d], pending, ended)
  {
  }

  lemma MentionWorkers(g: Gateway, user: Text, prompt: Text, now: Time)
    requires Invariant(g) && Attributed(g) && g.mention.Some?
    ensures Attributed(Handle(g, MentionAct(user, prompt, now)))
  {
    var t := MentionTask(g, user, prompt, now);
    MentionIsFresh(g, user, prompt, now);
    NewPending(g.h.used, g.h.q.running.Keys, g.workers, g.pending, g.ended, t.id, g.mention.value);
    var h' := R.Step(g.h, MentionOp(g, user, prompt, now));
    assert h'.used == g.h.used + {t.id};
    assert h'.q.running.Keys == if g.mention.value.queue then g.h.q.running.Keys else g.h.q.running.Keys + {t.id};
    if g.mention.value.queue {
      NewQueueOwner(g.h, g.workers, t);
    } else {
      NewDirectOwner(g.h, g.workers, t, now);
    }
  }

  lemma MovedOwner(h: R.Hist, h': R.Hist, workers: map<Text, Decision>, i: nat, next: TaskStatus, now: Time)
    requires OwnersSound(h, workers) && i < |h.q.waiting|
    requires h'.q == Promoted(h.q, i, next, now) && h'.used == h.used && h'.slots == h.slots
    ensures OwnersSound(h', workers) && h.q.running.Keys <= h'.q.running.Keys
  {
  }

  lemma DequeueOwners(h: R.Hist, workers: map<Text, Decision>, now: Time)
    requires R.Structured(h) && OwnersSound(h, workers)
    ensures
      var h' := R.Step(h, R.Dequeue(now));
      OwnersSound(h', workers) && h'.used == h.used && h.q.running.Keys <= h'.q.running.Keys
  {
    R.DequeueStep(h, now);
    if FindNextEligible(h.q).Some? {
      MovedOwner(h, R.Step(h, R.Dequeue(now)), workers, R.NextPosition(h.q), Dispatching, now);
    }
  }

  lemma MarkOwners(h: R.Hist, workers: map<Text, Decision>, id: Text, now: Time)
    requires OwnersSound(h, workers)
    ensures
      var h' := R.Step(h, R.MarkRunning(id, now));
      OwnersSound(h', workers) && h'.used == h.used && h.q.running.Keys <= h'.q.running.Keys
  {
    R.MarkStep(h, id, now);
    if IndexOf(h.q.waiting, id) < |h.q.waiting| {
      MovedOwner(h, R.Step(h, R.MarkRunning(id, now)), workers, IndexOf(h.q.waiting, id), Running, now);
    }
  }

  lemma ConfirmOwners(h: R.Hist, workers: map<Text, Decision>, id: Text, now: Time)
    requires OwnersSound(h, workers)
    ensures
      var h' := R.Step(h, R.MarkDispatched(id, now));
      OwnersSound(h', workers) && h'.used == h.used && h.q.running.Keys == h'.q.running.Keys
  {
  }

  /** What a terminal call of a directly run task finds by channel is no other such task. */
  lemma FoundIsOwn(h: R.Hist, workers: map<Text, Decision>, owner: Text, id: Text)
    requires OwnersSound(h, workers) && owner in workers && !workers[owner].queue
    requires FoundByChannel(h.q, workers[owner].channel, id) && id in workers && !workers[id].queue
    ensures id == owner
  {
    assert workers[id] == workers[owner];
  }

  lemma FinishOwners(h: R.Hist, workers: map<Text, Decision>, id: Text)
    requires OwnersSound(h, workers)
    ensures OwnersSound(R.Step(h, R.Complete(id)), workers)
  {
  }

  lemma TerminalWorkers(g: Gateway, owner: Text, id: Text)
    requires Invariant(g) && Attributed(g) && Enabled(g, Terminal(owner, id))
    ensures Attributed(Handle(g, Terminal(owner, id)))
  {
    if id != owner && id in g.workers && !g.workers[id].queue {
      FoundIsOwn(g.h, g.workers, owner, id);
    }
  }

  lemma FinishPending(
      used: set<Text>, running: set<Text>, workers: map<Text, Decision>, pending: multiset<Completion>,
      ended: set<Text>, p: Completion)
    requires PendingSound(used, running, workers, pending, ended) && p in pending
    ensures PendingSound(used, running - {p.id}, workers, pending - multiset{p}, ended)
  {
  }

  lemma FinishWorkers(g: Gateway, owner: Text, id: Text)
    requires Invariant(g) && Attributed(g) && Enabled(g, Finish(owner, id))
    ensures Attributed(Handle(g, Finish(owner, id)))
  {
    FinishOwners(g.h, g.workers, id);
    FinishPending(g.h.used, g.h.q.running.Keys, g.workers, g.pending, g.ended, Completion(owner, id));
    assert Completed(g.h.q, id).running.Keys == g.h.q.running.Keys - {id};
  }

  lemma MoreRunning(
      used: set<Text>, running: set<Text>, more: set<Text>, workers: map<Text, Decision>, pending: multiset<Completion>,
      ended: set<Text>)
    requires PendingSound(used, running, workers, pending, ended) && running <= more
    ensures PendingSound(used, more, workers, pending, ended)
  {
  }

  lemma HandleWorkers(g: Gateway, e: Event)
    requires Invariant(g) && Attributed(g) && Enabled(g, e)
    ensures Attributed(Handle(g, e))
  {
    match e {
      case MentionAct(user, prompt, now) => MentionWorkers(g, user, prompt, now);
      case Terminal(owner, id) => TerminalWorkers(g, owner, id);
      case Finish(owner, id) => FinishWorkers(g, owner, id);
      case DequeueNext(now) =>
        DequeueOwners(g.h, g.workers, now);
        MoreRunning(g.h.used, g.h.q.running.Keys, R.Step(g.h, R.Dequeue(now)).q.running.Keys, g.workers, g.pending,
                    g.ended);
      case StartMark(id, now) =>
        MarkOwners(g.h, g.workers, id, now);
        MoreRunning(g.h.used, g.h.q.running.Keys, R.Step(g.h, R.MarkRunning(id, now)).q.running.Keys, g.workers,
                    g.pending, g.ended);
      case Confirm(id, now) => ConfirmOwners(g.h, g.workers, id, now);
      case _ =>
    }
  }

  lemma {:induction false} RunAttributed(g: Gateway, events: seq<Event>)
    requires Invariant(g) && Attributed(g) && Possible(g, events)
    ensures Invariant(After(g, events)) && Attributed(After(g, events))
  {
    SingleTaskPerChannel(g, events);
    if events != [] {
      SingleTaskPerChannel(g, Front(events));
      RunAttributed(g, Front(events));
      HandleWorkers(After(g, Front(events)), Last(events));
    }
  }

  /** Until the worker of a directly run task makes its first terminal call, the task runs, and
      what that call completes is this very task. */
  lemma FirstTerminalCall(g: Gateway, events: seq<Event>, owner: Text, id: Text)
    requires Invariant(g) && Attributed(g) && Possible(g, events)
    requires
      var g1 := After(g, events);
      owner in g1.workers && !g1.workers[owner].queue && owner !in g1.ended && CanComplete(g1, owner, id)
    ensures
      var g1 := After(g, events);
      id == owner && owner in g1.h.q.running && g1.h.q.running[owner].channel == g1.workers[owner].channel
  {
    RunAttributed(g, events);
    var g1 := After(g, events);
    assert g1.h.q.running[owner].channel in BusyChannels(g1.h.q.running);
  }

  /** Nobody else completes the task of a directly run worker: a call that is about to complete
      it was made by that worker. */
  lemma OnlyOwnWorkerCompletes(g: Gateway, events: seq<Event>, p: Completion)
    requires Invariant(g) && Attributed(g) && Possible(g, events)
    requires
      var g1 := After(g, events);
      p in g1.pending && p.id in g1.workers && !g1.workers[p.id].queue
    ensures p.owner == p.id
  {
    RunAttributed(g, events);
  }

  // ---------------------------------------------------------------- start events

  /** A start event of a directly run worker that has made no terminal call finds its own
      running task, so marking that task as running then changes nothing. */
  lemma EarlyStartFindsOwnTask(g: Gateway, events: seq<Event>, owner: Text, id: Text, now: Time)
    requires Invariant(g) && Attributed(g) && Possible(g, events)
    requires Enabled(After(g, events), StartLookup(owner, id)) && owner !in After(g, events).ended
    ensures id == owner && id in After(g, events).h.q.running
    ensures R.Step(After(g, events).h, R.MarkRunning(id, now)) == After(g, events).h
  {
    FirstTerminalCall(g, events, owner, id);
    SingleTaskPerChannel(g, events);
    NotWaiting(After(g, events).h.q, id);
  }

  lemma NotWaiting(q: Queue, id: Text)
    requires Disjoint(q) && id in q.running
    ensures IndexOf(q.waiting, id) == |q.waiting|
  {
  }

  /** No start event comes after a terminal call of the same worker. */
  ghost predicate Punctual(g: Gateway, events: seq<Event>)
    requires Possible(g, events)
  {
    events == []
    || (&& Punctual(g, Front(events))
        && (Last(events).StartLookup? ==> Last(events).owner !in After(g, Front(events)).ended))
  }

  /** The tasks about to be marked were run directly, and nothing was ever marked. */
  predicate OnlyDirectMarks(marks: set<Text>, marked: set<Text>, workers: map<Text, Decision>)
  {
    marked == {} && forall id :: id in marks ==> id in workers && !workers[id].queue
  }

  lemma DirectIsNotWaiting(h: R.Hist, workers: map<Text, Decision>, id: Text)
    requires OwnersSound(h, workers) && id in workers && !workers[id].queue
    ensures IndexOf(h.q.waiting, id) == |h.q.waiting|
  {
  }

  lemma HandleMarks(g: Gateway, e: Event)
    requires Invariant(g) && Attributed(g) && Enabled(g, e) && (e.StartLookup? ==> e.owner !in g.ended)
    requires OnlyDirectMarks(g.marks, g.h.marked, g.workers)
    ensures OnlyDirectMarks(Handle(g, e).marks, Handle(g, e).h.marked, Handle(g, e).workers)
  {
    match e {
      case MentionAct(user, prompt, now) => MentionIsFresh(g, user, prompt, now);
      case StartLookup(owner, id) => EarlyStartFindsOwnTask(g, [], owner, id, 0);
      case StartMark(id, now) => DirectIsNotWaiting(g.h, g.workers, id);
      case _ =>
    }
  }

  lemma {:induction false} PunctualMarks(g: Gateway, events: seq<Event>)
    requires Invariant(g) && Attributed(g) && Possible(g, events) && Punctual(g, events)
    requires OnlyDirectMarks(g.marks, g.h.marked, g.workers)
    ensures
      var g' := After(g, events);
      OnlyDirectMarks(g'.marks, g'.h.marked, g'.workers)
  {
    if events != [] {
      PunctualMarks(g, Front(events));
      RunAttributed(g, Front(events));
      HandleMarks(After(g, Front(events)), Last(events));
    }
  }

  /** Without late start events, the running tasks of a gateway run are at most the limit plus
      the ones that were run directly. */
  lemma PunctualCapacity(g: Gateway, events: seq<Event>)
    requires Invariant(g) && Attributed(g) && Possible(g, events) && Punctual(g, events)
    requires R.Covered(g.h) && OnlyDirectMarks(g.marks, g.h.marked, g.workers)
    ensures |After(g, events).h.q.running| <= g.h.q.limit + |After(g, events).h.direct|
  {
    GatewayCapacity(g, events);
    PunctualMarks(g, events);
    SameLimit(g, events);
  }

  lemma {:induction false} SameLimit(g: Gateway, events: seq<Event>)
    requires Invariant(g) && Possible(g, events)
    ensures After(g, events).h.q.limit == g.h.q.limit
  {
    if events != [] {
      SameLimit(g, Front(events));
      SingleTaskPerChannel(g, Front(events));
      HandleLimit(After(g, Front(events)), Last(events));
    }
  }

  lemma HandleLimit(g: Gateway, e: Event)
    requires Invariant(g) && Enabled(g, e)
    ensures Handle(g, e).h.q.limit == g.h.q.limit
  {
    match e {
      case MentionAct(user, prompt, now) => R.StepOrigins(g.h, MentionOp(g, user, prompt, now));
      case Finish(_, id) => R.StepOrigins(g.h, R.Complete(id));
      case DequeueNext(now) => R.StepOrigins(g.h, R.Dequeue(now));
      case Confirm(id, now) => R.StepOrigins(g.h, R.MarkDispatched(id, now));
      case StartMark(id, now) => R.StepOrigins(g.h, R.MarkRunning(id, now));
      case _ =>
    }
  }
}
