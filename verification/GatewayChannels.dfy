/** What the gateway says about a channel, and what is true of it, over whole runs. */
module GatewayChannels {
  import opened Prelude
  import opened Decimals
  import opened Tasks
  import opened QueueSpec
  import opened GatewayRuns
  import R = QueueRuns

  // ---------------------------------------------------------------- direct registrations

  predicate DirectMention(g: Gateway, e: Event, c: Text)
  {
    e.MentionAct? && g.mention == Some(Decision(c, false))
  }

  /** How many mentions of the run were run directly on the channel. */
  ghost function DirectMentions(g: Gateway, events: seq<Event>, c: Text): nat
    requires Possible(g, events)
  {
    if events == [] then 0
    else DirectMentions(g, Front(events), c) + if DirectMention(After(g, Front(events)), Last(events), c) then 1 else 0
  }

  lemma HandleSlots(g: Gateway, e: Event, c: Text)
    requires Invariant(g) && Enabled(g, e)
    ensures Handle(g, e).h.slots[c] == g.h.slots[c] + if DirectMention(g, e, c) then 1 else 0
    ensures DirectMention(g, e, c) ==> g.h.slots[c] == 0
  {
    if e.MentionAct? {
      MentionIsFresh(g, e.user, e.prompt, e.now);
    }
  }

  /** A channel holds one slot for each direct mention, and there is at most one. */
  lemma {:induction false} SlotsOfRun(g: Gateway, events: seq<Event>, c: Text)
    requires Invariant(g) && Possible(g, events)
    ensures After(g, events).h.slots[c] == g.h.slots[c] + DirectMentions(g, events, c)
    ensures DirectMentions(g, events, c) <= if g.h.slots[c] > 0 then 0 else 1
  {
    if events != [] {
      SlotsOfRun(g, Front(events), c);
      SingleTaskPerChannel(g, Front(events));
      HandleSlots(After(g, Front(events)), Last(events), c);
    }
  }

  /** A mention runs at once iff its channel was never run directly, neither before the run nor
      in it; otherwise it is the last to wait. */
  lemma MentionRunsAtOnce(g: Gateway, events: seq<Event>, user: Text, prompt: Text, now: Time)
    requires Invariant(g) && Possible(g, events) && After(g, events).mention.Some?
    ensures
      var g1 := After(g, events);
      var t := MentionTask(g1, user, prompt, now);
      var q' := Handle(g1, MentionAct(user, prompt, now)).h.q;
      && (t.id in q'.running <==> g.h.slots[t.channel] == 0 && DirectMentions(g, events, t.channel) == 0)
      && (if t.id in q'.running then q'.waiting == g1.h.q.waiting && q'.running[t.id] == StartedDirectly(t, now)
          else q'.waiting == g1.h.q.waiting + [t])
  {
    SingleTaskPerChannel(g, events);
    var g1 := After(g, events);
    SlotsOfRun(g, events, g1.mention.value.channel);
    MentionIsFresh(g1, user, prompt, now);
    assert forall k :: k in g1.h.q.running ==> k in g1.h.used;
  }

  /** The task of a mention carries its channel, user and prompt. It runs with its start time
      set, or waits with none. */
  lemma MentionTaskMeans(g: Gateway, user: Text, prompt: Text, now: Time)
    requires Invariant(g) && g.mention.Some?
    ensures
      var c, id := g.mention.value.channel, GeneratedID(g.counter + 1);
      var q' := Handle(g, MentionAct(user, prompt, now)).h.q;
      && (!g.mention.value.queue ==>
            id in q'.running && q'.running[id] == Task(id, c, user, prompt, Running, now, Some(now)))
      && (g.mention.value.queue ==>
            |q'.waiting| == |g.h.q.waiting| + 1 && Last(q'.waiting) == Task(id, c, user, prompt, Queued, now, None))
  {
    MentionIsFresh(g, user, prompt, now);
  }

  // ---------------------------------------------------------------- the tasks of a channel

  /** The IDs of the channel's running and waiting tasks. */
  ghost function Live(q: Queue, c: Text): set<Text>
  {
    (set k | k in q.running && q.running[k].channel == c)
    + (set i | 0 <= i < |q.waiting| && q.waiting[i].channel == c :: q.waiting[i].id)
  }

  /** The task IDs that a step adds to the channel's tasks, and the ones it completes. */
  ghost function Entering(g: Gateway, e: Event, c: Text): set<Text>
  {
    if e.MentionAct? && g.mention.Some? && g.mention.value.channel == c then {GeneratedID(g.counter + 1)} else {}
  }

  ghost function Completing(g: Gateway, e: Event): set<Text>
  {
    if e.Finish? && e.id in g.h.q.running then {e.id} else {}
  }

  /** The tasks the channel had at first, and those its mentions added. */
  ghost function Entered(g: Gateway, events: seq<Event>, c: Text): set<Text>
    requires Possible(g, events)
  {
    if events == [] then Live(g.h.q, c)
    else Entered(g, Front(events), c) + Entering(After(g, Front(events)), Last(events), c)
  }

  /** The tasks that were completed while they were running. */
  ghost function CompletedIn(g: Gateway, events: seq<Event>): set<Text>
    requires Possible(g, events)
  {
    if events == [] then {} else CompletedIn(g, Front(events)) + Completing(After(g, Front(events)), Last(events))
  }

  lemma MovedStays(q: Queue, i: nat, next: TaskStatus, now: Time, c: Text, id: Text)
    requires i < |q.waiting| && id in Live(q, c) && Disjoint(q)
    ensures id in Live(Promoted(q, i, next, now), c)
  {
    var q' := Promoted(q, i, next, now);
    if !(id in q.running && q.running[id].channel == c) {
      var j :| 0 <= j < |q.waiting| && q.waiting[j].channel == c && q.waiting[j].id == id;
      if j != i {
        var k := if j < i then j else j - 1;
        assert q'.waiting[k] == q.waiting[j];
      }
    }
  }

  lemma NothingAppears(q: Queue, i: nat, next: TaskStatus, now: Time, c: Text, id: Text)
    requires i < |q.waiting| && id in Live(Promoted(q, i, next, now), c)
    ensures id in Live(q, c)
  {
    var q' := Promoted(q, i, next, now);
    if id in q'.running && q'.running[id].channel == c {
      assert id == q.waiting[i].id ==> q.waiting[i].channel == c;
    } else {
      var k :| 0 <= k < |q'.waiting| && q'.waiting[k].channel == c && q'.waiting[k].id == id;
      assert q'.waiting[k] == q.waiting[if k < i then k else k + 1];
    }
  }

  lemma MoveLive(q: Queue, i: nat, next: TaskStatus, now: Time, c: Text)
    requires i < |q.waiting| && Disjoint(q)
    ensures Live(Promoted(q, i, next, now), c) == Live(q, c)
  {
    forall id
      ensures id in Live(Promoted(q, i, next, now), c) <==> id in Live(q, c)
    {
      if id in Live(q, c) {
        MovedStays(q, i, next, now, c, id);
      } else if id in Live(Promoted(q, i, next, now), c) {
        NothingAppears(q, i, next, now, c, id);
      }
    }
  }

  lemma EnqueueLive(q: Queue, t: Task, c: Text)
    requires EnqueueCheck(q, t).None?
    ensures Live(Enqueued(q, t), c) == Live(q, c) + if t.channel == c then {t.id} else {}
  {
    var q' := Enqueued(q, t);
    assert q'.waiting == q.waiting + [t];
    assert q'.waiting[|q.waiting|] == t;
    forall id | id in Live(q, c)
      ensures id in Live(q', c)
    {
      if !(id in q.running && q.running[id].channel == c) {
        var j :| 0 <= j < |q.waiting| && q.waiting[j].channel == c && q.waiting[j].id == id;
        assert q'.waiting[j] == q.waiting[j];
      }
    }
  }

  lemma DirectLive(q: Queue, t: Task, now: Time, c: Text)
    requires DirectAccepted(q, t)
    ensures Live(RunDirectly(q, t, now), c) == Live(q, c) + if t.channel == c then {t.id} else {}
  {
  }

  lemma CompleteLive(q: Queue, id: Text, c: Text)
    requires Disjoint(q) && Consistent(q)
    ensures Live(Completed(q, id), c) == Live(q, c) - if id in q.running then {id} else {}
  {
  }

  lemma ConfirmLive(q: Queue, id: Text, now: Time, c: Text)
    ensures Live(MarkedDispatched(q, id, now), c) == Live(q, c)
  {
  }

  lemma MentionLive(g: Gateway, user: Text, prompt: Text, now: Time, c: Text)
    requires Invariant(g) && g.mention.Some?
    ensures
      var e := MentionAct(user, prompt, now);
      Live(Handle(g, e).h.q, c) == Live(g.h.q, c) + Entering(g, e, c)
  {
    MentionIsFresh(g, user, prompt, now);
    var t := MentionTask(g, user, prompt, now);
    if g.mention.value.queue {
      assert Handle(g, MentionAct(user, prompt, now)).h.q == Enqueued(g.h.q, t);
      EnqueueLive(g.h.q, t, c);
    } else {
      assert Handle(g, MentionAct(user, prompt, now)).h.q == RunDirectly(g.h.q, t, now);
      DirectLive(g.h.q, t, now, c);
    }
  }

  lemma DequeueLive(h: R.Hist, now: Time, c: Text)
    requires R.Structured(h)
    ensures Live(R.Step(h, R.Dequeue(now)).q, c) == Live(h.q, c)
  {
    R.DequeueStep(h, now);
    if FindNextEligible(h.q).Some? {
      MoveLive(h.q, R.NextPosition(h.q), Dispatching, now, c);
    }
  }

  lemma MarkLive(h: R.Hist, id: Text, now: Time, c: Text)
    requires R.Structured(h)
    ensures Live(R.Step(h, R.MarkRunning(id, now)).q, c) == Live(h.q, c)
  {
    R.MarkStep(h, id, now);
    if IndexOf(h.q.waiting, id) < |h.q.waiting| {
      MoveLive(h.q, IndexOf(h.q.waiting, id), Running, now, c);
    }
  }

  lemma HandleLive(g: Gateway, e: Event, c: Text)
    requires Invariant(g) && Enabled(g, e)
    ensures Live(Handle(g, e).h.q, c) == Live(g.h.q, c) + Entering(g, e, c) - Completing(g, e)
  {
    match e {
      case MentionAct(user, prompt, now) => MentionLive(g, user, prompt, now, c);
      case Finish(_, id) => CompleteLive(g.h.q, id, c);
      case _ =>
        OtherLive(g, e, c);
        assert Entering(g, e, c) == {} && Completing(g, e) == {};
    }
  }

  lemma OtherLive(g: Gateway, e: Event, c: Text)
    requires Invariant(g) && Enabled(g, e) && !e.MentionAct? && !e.Finish?
    ensures Live(Handle(g, e).h.q, c) == Live(g.h.q, c)
  {
    match e {
      case DequeueNext(now) => DequeueLive(g.h, now, c);
      case StartMark(id, now) => MarkLive(g.h, id, now, c);
      case Confirm(id, now) => ConfirmLive(g.h.q, id, now, c);
      case _ =>
    }
  }

  /** What a step adds is new, and what it completes is not. */
  lemma HandleUsed(g: Gateway, e: Event, c: Text)
    requires Invariant(g) && Enabled(g, e)
    ensures Entering(g, e, c) !! g.h.used && Completing(g, e) <= g.h.used <= Handle(g, e).h.used
  {
    if e.MentionAct? {
      MentionIsFresh(g, e.user, e.prompt, e.now);
    }
  }

  lemma Rearranged(entered: set<Text>, completed: set<Text>, more: set<Text>, less: set<Text>)
    requires more !! completed
    ensures entered - completed + more - less == entered + more - (completed + less)
  {
  }

  /** Tasks are neither lost nor made up: what runs or waits on a channel is what entered it
      and has not been completed. */
  lemma {:induction false} LiveTasks(g: Gateway, events: seq<Event>, c: Text)
    requires Invariant(g) && Possible(g, events)
    ensures Live(After(g, events).h.q, c) == Entered(g, events, c) - CompletedIn(g, events)
    ensures CompletedIn(g, events) <= After(g, events).h.used
  {
    if events != [] {
      LiveTasks(g, Front(events), c);
      SingleTaskPerChannel(g, Front(events));
      var g1, e := After(g, Front(events)), Last(events);
      HandleLive(g1, e, c);
      HandleUsed(g1, e, c);
      Rearranged(Entered(g, Front(events), c), CompletedIn(g, Front(events)), Entering(g1, e, c), Completing(g1, e));
    }
  }

  /** ChannelHasActiveTask says that the channel was run directly, before the run or in it. This
      is wrong about the channel exactly when it was and all its tasks have been completed. */
  lemma ActiveMeansRegistered(g: Gateway, events: seq<Event>, c: Text)
    requires Invariant(g) && Possible(g, events)
    ensures
      var q := After(g, events).h.q;
      var active := Count(q.channels, c) > 0;
      var registered := g.h.slots[c] > 0 || DirectMentions(g, events, c) > 0;
      && (active <==> registered)
      && (Occupied(q, c) ==> active)
      && ((active <==> Occupied(q, c)) <==> !(registered && Entered(g, events, c) <= CompletedIn(g, events)))
  {
    SingleTaskPerChannel(g, events);
    CounterMeansSlot(After(g, events).h, c);
    SlotsOfRun(g, events, c);
    LiveTasks(g, events, c);
    OccupiedIsLive(After(g, events).h.q, c);
  }

  lemma OccupiedIsLive(q: Queue, c: Text)
    ensures Occupied(q, c) <==> Live(q, c) != {}
  {
    if Occupied(q, c) {
      if k :| k in q.running && q.running[k].channel == c {
        assert k in Live(q, c);
      } else {
        var i :| 0 <= i < |q.waiting| && q.waiting[i].channel == c;
        assert q.waiting[i].id in Live(q, c);
      }
    }
  }

  // ---------------------------------------------------------------- waiting for ever

  /** Nothing completes, and no start event marks the task. */
  predicate NothingStarts(events: seq<Event>, id: Text)
  {
    forall i :: 0 <= i < |events| ==> !events[i].Finish? && !(events[i].StartMark? && events[i].id == id)
  }

  lemma HandleKeepsWaiting(g: Gateway, e: Event, t: Task)
    requires Enabled(g, e) && g.owed == 0 && t in g.h.q.waiting && NothingStarts([e], t.id)
    ensures Handle(g, e).owed == 0 && t in Handle(g, e).h.q.waiting
  {
    assert !([e][0].Finish?) && !([e][0].StartMark? && [e][0].id == t.id);
    if e.StartMark? {
      R.MarkStep(g.h, e.id, e.now);
      var w, i := g.h.q.waiting, IndexOf(g.h.q.waiting, e.id);
      var j :| 0 <= j < |w| && w[j] == t;
      if i < |w| {
        assert RemoveAt(w, i)[if j < i then j else j - 1] == t;
      }
    }
  }

  /** With no completion left to look for the next task, a waiting task waits until some task
      completes or a start event marks it: mentions never start it. */
  lemma {:induction false} WaitsUntilCompletion(g: Gateway, events: seq<Event>, t: Task)
    requires Possible(g, events) && g.owed == 0 && t in g.h.q.waiting && NothingStarts(events, t.id)
    ensures After(g, events).owed == 0 && t in After(g, events).h.q.waiting
  {
    if events != [] {
      WaitsUntilCompletion(g, Front(events), t);
      assert Last(events) == events[|events| - 1];
      HandleKeepsWaiting(After(g, Front(events)), Last(events), t);
    }
  }

  /** A gateway that has just started on an empty store. */
  function New(limit: nat): Gateway
  {
    Gateway(R.Start(limit), 0, None, {}, map[], multiset{}, {}, 0)
  }

  lemma NewIsSound(limit: nat)
    ensures Invariant(New(limit))
  {
  }

  /** A first mention that runs directly and completes. */
  function UsedOnce(c: Text, user: Text, prompt: Text, now: Time): seq<Event>
  {
    var id := GeneratedID(1);
    [MentionCheck(c), MentionAct(user, prompt, now)] + [Terminal(id, id), Finish(id, id), DequeueNext(now)]
  }

  lemma FirstMention(g: Gateway, c: Text, user: Text, prompt: Text, now: Time) returns (g2: Gateway)
    requires g.h.q.running == map[] && g.h.q.channels == map[] && g.mention.None? && g.counter == 0
    ensures
      var g1 := Handle(g, MentionCheck(c));
      g1.mention.Some? && g2 == Handle(g1, MentionAct(user, prompt, now))
    ensures g2.h.q.running.Keys == {GeneratedID(1)} == g2.workers.Keys - g.workers.Keys + {GeneratedID(1)}
    ensures g2.h.q == g.h.q.(running := g2.h.q.running, channels := map[c := 1])
    ensures g2.h.slots == g.h.slots + multiset{c}
    ensures GeneratedID(1) in g2.workers && g2.pending == g.pending && g2.owed == g.owed && g2.mention.None?
  {
    assert |GeneratedID(1).chars| >= 5;
    g2 := Handle(Handle(g, MentionCheck(c)), MentionAct(user, prompt, now));
  }

  lemma DoneAndDequeued(g: Gateway, id: Text, now: Time) returns (g3: Gateway)
    requires g.h.q.waiting == [] && g.h.q.running.Keys == {id} && id in g.workers && g.owed == 0
    ensures
      var g1 := Handle(g, Terminal(id, id));
      Enabled(g1, Finish(id, id)) && g3 == Handle(Handle(g1, Finish(id, id)), DequeueNext(now))
    ensures g3.h.q == g.h.q.(running := map[]) && g3.owed == 0 && g3.mention == g.mention && g3.h.slots == g.h.slots
  {
    var g1 := Handle(g, Terminal(id, id));
    var g2 := Handle(g1, Finish(id, id));
    assert g2.h.q.running == map[];
    g3 := Handle(g2, DequeueNext(now));
  }

  lemma UseOnce(limit: nat, c: Text, user: Text, prompt: Text, now: Time)
    ensures
      var es := UsedOnce(c, user, prompt, now);
      && Possible(New(limit), es)
      && var g := After(New(limit), es);
         g.h.q == Queue([], map[], map[c := 1], limit) && g.owed == 0 && g.mention.None? && g.h.slots[c] == 1
  {
    var g2 := MentionedOnce(limit, c, user, prompt, now);
    FinishOnce(New(limit), [MentionCheck(c), MentionAct(user, prompt, now)], GeneratedID(1), now);
  }

  lemma FinishOnce(g: Gateway, events: seq<Event>, id: Text, now: Time)
    requires Possible(g, events)
    requires
      var g2 := After(g, events);
      g2.h.q.waiting == [] && g2.h.q.running.Keys == {id} && id in g2.workers && g2.owed == 0
    ensures
      var es := events + [Terminal(id, id), Finish(id, id), DequeueNext(now)];
      && Possible(g, es)
      && var g2, g3 := After(g, events), After(g, es);
         g3.h.q == g2.h.q.(running := map[]) && g3.owed == 0 && g3.mention == g2.mention && g3.h.slots == g2.h.slots
  {
    var _ := DoneAndDequeued(After(g, events), id, now);
    ExtendByThree(g, events, Terminal(id, id), Finish(id, id), DequeueNext(now));
  }

  lemma ExtendByThree(g: Gateway, events: seq<Event>, d: Event, e: Event, f: Event)
    requires Possible(g, events) && Enabled(After(g, events), d) && Enabled(Handle(After(g, events), d), e)
    requires Enabled(Handle(Handle(After(g, events), d), e), f)
    ensures Possible(g, events + [d, e, f])
    ensures After(g, events + [d, e, f]) == Handle(Handle(Handle(After(g, events), d), e), f)
  {
    ExtendByTwo(g, events, d, e);
    Extend(g, events + [d, e], f);
    assert events + [d, e, f] == events + [d, e] + [f];
  }

  lemma MentionedOnce(limit: nat, c: Text, user: Text, prompt: Text, now: Time) returns (g2: Gateway)
    ensures
      var first := [MentionCheck(c), MentionAct(user, prompt, now)];
      Possible(New(limit), first) && g2 == After(New(limit), first)
    ensures g2.h.q == Queue([], g2.h.q.running, map[c := 1], limit) && g2.h.q.running.Keys == {GeneratedID(1)}
    ensures GeneratedID(1) in g2.workers && g2.owed == 0 && g2.mention.None? && g2.h.slots[c] == 1
  {
    g2 := FirstMention(New(limit), c, user, prompt, now);
    ExtendByTwo(New(limit), [], MentionCheck(c), MentionAct(user, prompt, now));
    assert [] + [MentionCheck(c), MentionAct(user, prompt, now)] == [MentionCheck(c), MentionAct(user, prompt, now)];
  }

  lemma ExtendByTwo(g: Gateway, events: seq<Event>, d: Event, e: Event)
    requires Possible(g, events) && Enabled(After(g, events), d) && Enabled(Handle(After(g, events), d), e)
    ensures Possible(g, events + [d, e])
    ensures After(g, events + [d, e]) == Handle(Handle(After(g, events), d), e)
  {
    Extend(g, events, d);
    Extend(g, events + [d], e);
    assert events + [d, e] == events + [d] + [e];
  }

  /** From a new gateway: a mention runs and completes, which leaves its channel idle but active;
      the next mention of the channel is queued, and it waits although nothing runs, until a
      task of another channel completes or a late start event marks it. */
  lemma IdleChannelStillQueues(
      limit: nat, c: Text, user: Text, prompt: Text, now: Time, more: seq<Event>) returns (events: seq<Event>, t: Task)
    ensures t.channel == c && Possible(New(limit), UsedOnce(c, user, prompt, now))
    ensures
      var idle := After(New(limit), UsedOnce(c, user, prompt, now)).h.q;
      !Occupied(idle, c) && Count(idle.channels, c) > 0
    ensures events == UsedOnce(c, user, prompt, now) + [MentionCheck(c), MentionAct(user, prompt, now)]
    ensures Possible(New(limit), events)
    ensures
      var g := After(New(limit), events);
      && g.h.q.running == map[] && g.h.q.waiting == [t] && g.owed == 0
      && (Possible(g, more) && NothingStarts(more, t.id) ==> t in After(g, more).h.q.waiting)
  {
    var es, check, act := UsedOnce(c, user, prompt, now), MentionCheck(c), MentionAct(user, prompt, now);
    UseOnce(limit, c, user, prompt, now);
    NewIsSound(limit);
    SingleTaskPerChannel(New(limit), es);
    Extend(New(limit), es, check);
    SingleTaskPerChannel(New(limit), es + [check]);
    var g1 := After(New(limit), es + [check]);
    MentionIsFresh(g1, user, prompt, now);
    Extend(New(limit), es + [check], act);
    events, t := es + [check, act], MentionTask(g1, user, prompt, now);
    assert events == es + [check] + [act];
    var g := After(New(limit), events);
    if Possible(g, more) && NothingStarts(more, t.id) {
      WaitsUntilCompletion(g, more, t);
    }
  }
}
