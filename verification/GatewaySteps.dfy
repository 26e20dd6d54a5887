/** What the gateway's callbacks set off in the scheduler is a gateway run, so everything that
    holds of gateway runs holds of the gateway object. */
module GatewaySteps {
  import opened Prelude
  import opened Protocol
  import opened Decimals
  import opened Tasks
  import opened QueueSpec
  import opened GatewayRuns
  import opened GatewayWorkers
  import R = QueueRuns
  import S = Scheduler

  ghost predicate Sound(g: Gateway)
  {
    Invariant(g) && Attributed(g)
  }

  /** The events lead from g to a sound gateway with queue q; they settle the given number of
      owed dequeues, and leave the mentions and their workers as they were. */
  ghost predicate Leads(g: Gateway, events: seq<Event>, q: Queue, settled: nat)
    requires g.owed >= settled
  {
    && Possible(g, events)
    && var g' := After(g, events);
       Sound(g') && g'.h.q == q && g'.owed == g.owed - settled && SameMentions(g, g')
  }

  predicate SameMentions(g: Gateway, g': Gateway)
  {
    g'.workers == g.workers && g'.mention == g.mention && g'.counter == g.counter
  }

  lemma SplitLast(a: seq<Event>, b: seq<Event>)
    requires b != []
    ensures a + b == a + Front(b) + [Last(b)]
  {
  }

  lemma Snoc(g: Gateway, a: seq<Event>, b: seq<Event>)
    requires b != [] && Possible(g, a) && Possible(After(g, a), b)
    requires Possible(g, a + Front(b)) && After(g, a + Front(b)) == After(After(g, a), Front(b))
    ensures Possible(g, a + b) && After(g, a + b) == After(After(g, a), b)
  {
    Extend(g, a + Front(b), Last(b));
    SplitLast(a, b);
  }

  lemma {:induction false} RunConcat(g: Gateway, a: seq<Event>, b: seq<Event>)
    requires Possible(g, a) && Possible(After(g, a), b)
    ensures Possible(g, a + b) && After(g, a + b) == After(After(g, a), b)
  {
    if b == [] {
      assert a + b == a;
    } else {
      RunConcat(g, a, Front(b));
      Snoc(g, a, b);
    }
  }

  lemma Join(g: Gateway, a: seq<Event>, q1: Queue, n1: nat, b: seq<Event>, q2: Queue, n2: nat)
    requires g.owed >= n1 + n2 && Leads(g, a, q1, n1) && Leads(After(g, a), b, q2, n2)
    ensures Leads(g, a + b, q2, n1 + n2)
  {
    RunConcat(g, a, b);
  }

  lemma OneEvent(g: Gateway, e: Event)
    requires Sound(g) && Enabled(g, e)
    ensures Possible(g, [e]) && After(g, [e]) == Handle(g, e) && Sound(Handle(g, e))
  {
    Extend(g, [], e);
    assert [] + [e] == [e];
    HandleKeeps(g, e);
    HandleWorkers(g, e);
  }

  lemma TwoEvents(g: Gateway, d: Event, e: Event)
    requires Sound(g) && Enabled(g, d) && Enabled(Handle(g, d), e)
    ensures Possible(g, [d, e]) && After(g, [d, e]) == Handle(Handle(g, d), e) && Sound(After(g, [d, e]))
  {
    OneEvent(g, d);
    Extend(g, [d], e);
    assert [d] + [e] == [d, e];
    OneEvent(Handle(g, d), e);
  }

  lemma Nothing(g: Gateway)
    requires Sound(g)
    ensures Leads(g, [], g.h.q, 0)
  {
  }

  lemma FinishIsPending(g: Gateway, owner: Text, id: Text)
    requires owner in g.workers && CanComplete(g, owner, id)
    ensures Enabled(g, Terminal(owner, id)) && Enabled(Handle(g, Terminal(owner, id)), Finish(owner, id))
    ensures
      var g' := Handle(Handle(g, Terminal(owner, id)), Finish(owner, id));
      && g'.h == R.Step(g.h, R.Complete(id)) && g'.h.q == Completed(g.h.q, id)
      && g'.owed == g.owed + 1 && SameMentions(g, g')
  {
  }

  /** A terminal call and the deletion it leads to; the dequeue that follows is owed. */
  lemma CompleteEvents(g: Gateway, owner: Text, id: Text) returns (events: seq<Event>)
    requires Sound(g) && owner in g.workers && CanComplete(g, owner, id)
    ensures Possible(g, events) && SameMentions(g, After(g, events)) && Sound(After(g, events))
    ensures After(g, events).owed == g.owed + 1 && After(g, events).h.q == Completed(g.h.q, id)
  {
    FinishIsPending(g, owner, id);
    TwoEvents(g, Terminal(owner, id), Finish(owner, id));
    events := [Terminal(owner, id), Finish(owner, id)];
  }

  lemma MarkDoneEvents(g: Gateway, s: S.Sys, owner: Text, id: Text, env: S.Env) returns (events: seq<Event>)
    requires Sound(g) && g.h.q == s.q && owner in g.workers && CanComplete(g, owner, id)
    ensures Leads(g, events, S.MarkDone(s, id, env).q, 0)
    decreases |s.q.waiting|, 2
  {
    var first := CompleteEvents(g, owner, id);
    var g1 := After(g, first);
    var rest := TryDequeueEvents(g1, S.Complete(s, id), env);
    events := first + rest;
    RunConcat(g, first, rest);
  }

  lemma DequeueEvent(g: Gateway, s: S.Sys, env: S.Env) returns (e: Event)
    requires Sound(g) && g.h.q == s.q && g.owed > 0
    ensures Leads(g, [e], S.Dequeue(s, env).q, 1)
  {
    var next := FindNextEligible(s.q);
    var now := if next.Some? then env.clock(next.value.id) else 0;
    e := DequeueNext(now);
    assert R.Step(g.h, R.Dequeue(now)).q == S.Dequeue(s, env).q;
    OneEvent(g, e);
  }

  /** A task that can be dequeued is one that a mention queued, so it has a worker. */
  lemma NextHasWorker(g: Gateway)
    requires Sound(g) && FindNextEligible(g.h.q).Some?
    ensures FindNextEligible(g.h.q).value.id in g.workers
  {
    R.DequeueStep(g.h, 0);
    var i := IndexOf(g.h.q.waiting, FindNextEligible(g.h.q).value.id);
    assert g.h.q.waiting[i].id in g.workers;
  }

  lemma TryDequeueEvents(g: Gateway, s: S.Sys, env: S.Env) returns (events: seq<Event>)
    requires Sound(g) && g.h.q == s.q && g.owed > 0
    ensures Leads(g, events, S.TryDequeue(s, env).q, 1)
    decreases |s.q.waiting|, 1
  {
    var e := DequeueEvent(g, s, env);
    events := [e];
    var next := FindNextEligible(s.q);
    if next.Some? && env.onDequeue.Some? {
      NextHasWorker(g);
      var s1 := S.Dequeue(s, env);
      var rest := DispatchEvents(After(g, [e]), s1, next.value.id, env);
      Join(g, [e], s1.q, 1, rest, S.Dispatch(s1, next.value.id, env).q, 0);
      events := [e] + rest;
    }
  }

  lemma DispatchEvents(g: Gateway, s: S.Sys, id: Text, env: S.Env) returns (events: seq<Event>)
    requires Sound(g) && g.h.q == s.q && id in g.workers && env.onDequeue.Some?
    ensures Leads(g, events, S.Dispatch(s, id, env).q, 0)
    decreases |s.q.waiting|, 4
  {
    match env.onDequeue.value(id)
    case NoStreamWorker =>
      events := [];
      Nothing(g);
    case Ran(calls, failed) =>
      events := CallsEvents(g, s, id, calls, env);
      if failed {
        var s1 := S.Calls(s, id, calls, env);
        var rest := MarkDoneEvents(After(g, events), s1, id, id, env);
        Join(g, events, s1.q, 0, rest, S.MarkDone(s1, id, env).q, 0);
        events := events + rest;
      }
  }

  lemma CallsEvents(g: Gateway, s: S.Sys, id: Text, calls: seq<WorkerCall>, env: S.Env) returns (events: seq<Event>)
    requires Sound(g) && g.h.q == s.q && id in g.workers
    ensures Leads(g, events, S.Calls(s, id, calls, env).q, 0)
    decreases |s.q.waiting|, 3, |calls|
  {
    if calls == [] {
      Nothing(g);
      return [];
    }
    var s1 := S.Call(s, id, calls[0], env);
    var first := CallEvents(g, s, id, calls[0], env);
    var rest := CallsEvents(After(g, first), s1, id, calls[1..], env);
    Join(g, first, s1.q, 0, rest, S.Calls(s1, id, calls[1..], env).q, 0);
    events := first + rest;
  }

  lemma CallEvents(g: Gateway, s: S.Sys, id: Text, call: WorkerCall, env: S.Env) returns (events: seq<Event>)
    requires Sound(g) && g.h.q == s.q && id in g.workers
    ensures Leads(g, events, S.Call(s, id, call, env).q, 0)
    decreases |s.q.waiting|, 3, 0
  {
    if IsTerminal(call) {
      events := MarkDoneEvents(g, s, id, id, env);
    } else if call == CallEvent(EventStart) {
      events := [Confirm(id, env.clock(id))];
      OneEvent(g, events[0]);
    } else {
      events := [];
      Nothing(g);
    }
  }

  /** A start event of a directly run task: the lookup by channel, then MarkRunning. */
  lemma StartEvents(g: Gateway, s: S.Sys, owner: Text, id: Text, now: Time) returns (events: seq<Event>)
    requires Sound(g) && g.h.q == s.q && Enabled(g, StartLookup(owner, id))
    ensures Leads(g, events, S.MarkRunning(s, id, now).q, 0)
  {
    TwoEvents(g, StartLookup(owner, id), StartMark(id, now));
    events := [StartLookup(owner, id), StartMark(id, now)];
  }

  function AddedTask(q: Queue, t: Task, queued: bool, now: Time): Queue
  {
    if queued then Enqueued(q, t) else RunDirectly(q, t, now)
  }

  /** A mention: the look at the channel, then the action. */
  lemma MentionEvents(g: Gateway, c: Text, user: Text, prompt: Text, now: Time) returns (events: seq<Event>)
    requires Sound(g) && g.mention.None?
    ensures Possible(g, events) && Sound(After(g, events))
    ensures
      var g' := After(g, events);
      var t := NewTask(GeneratedID(g.counter + 1), c, user, prompt, now);
      && g'.counter == g.counter + 1 && g'.mention.None?
      && g'.h.q == AddedTask(g.h.q, t, Count(g.h.q.channels, c) > 0, now)
      && g'.workers == g.workers[t.id := Decision(c, Count(g.h.q.channels, c) > 0)]
      && t.id !in g'.ended && t.id !in g.workers && g'.owed == g.owed
  {
    var check, act := MentionCheck(c), MentionAct(user, prompt, now);
    TwoEvents(g, check, act);
    HandleKeeps(g, check);
    MentionFields(g, Handle(g, check), c, user, prompt, now);
    events := [check, act];
  }

  lemma MentionFields(g: Gateway, g1: Gateway, c: Text, user: Text, prompt: Text, now: Time)
    requires Attributed(g) && g.mention.None? && g1 == Handle(g, MentionCheck(c)) && Invariant(g1)
    ensures
      var g' := Handle(g1, MentionAct(user, prompt, now));
      var t := NewTask(GeneratedID(g.counter + 1), c, user, prompt, now);
      && g'.counter == g.counter + 1 && g'.mention.None?
      && g'.h.q == AddedTask(g.h.q, t, Count(g.h.q.channels, c) > 0, now)
      && g'.workers == g.workers[t.id := Decision(c, Count(g.h.q.channels, c) > 0)]
      && t.id !in g'.ended && t.id !in g.workers && g'.owed == g.owed
  {
    MentionIsFresh(g1, user, prompt, now);
  }
}
