/** A task recovered as still running has no worker in this process: nothing completes it, and
    its channel is blocked for good. */
module RecoveredTasks {
  import opened Prelude
  import opened Tasks
  import opened QueueSpec
  import opened GatewayRuns
  import opened GatewayWorkers
  import opened GatewayChannels
  import R = QueueRuns

  /** Task k runs on channel c, and no worker can complete it: it has none of its own, no call
      is about to complete it, and no task of the channel was run directly. */
  ghost predicate Orphaned(g: Gateway, k: Text, c: Text)
  {
    && k in g.h.q.running && g.h.q.running[k].channel == c && k != EMPTY
    && k !in g.workers && (forall p :: p in g.pending ==> p.id != k)
    && g.h.slots[c] > 0
    && (forall id :: id in g.workers && !g.workers[id].queue ==> g.workers[id].channel != c)
  }

  lemma MentionOrphaned(g: Gateway, user: Text, prompt: Text, now: Time, k: Text, c: Text)
    requires Invariant(g) && Orphaned(g, k, c) && g.mention.Some?
    ensures Orphaned(Handle(g, MentionAct(user, prompt, now)), k, c)
    ensures g.h.q.waiting <= Handle(g, MentionAct(user, prompt, now)).h.q.waiting
  {
    MentionIsFresh(g, user, prompt, now);
    assert k in g.h.used;
  }

  lemma TerminalOrphaned(g: Gateway, owner: Text, id: Text, k: Text, c: Text)
    requires Invariant(g) && Orphaned(g, k, c) && Enabled(g, Terminal(owner, id))
    ensures Orphaned(Handle(g, Terminal(owner, id)), k, c)
  {
    assert id != k;
  }

  /** Moving a task whose channel is not busy touches nothing of the busy channel c. */
  lemma MoveSpares(q: Queue, i: nat, next: TaskStatus, now: Time, k: Text, c: Text)
    requires Disjoint(q) && i < |q.waiting| && q.waiting[i].channel !in BusyChannels(q.running)
    requires k in q.running && q.running[k].channel == c
    ensures
      var q' := Promoted(q, i, next, now);
      && k in q'.running && q'.running[k].channel == c
      && forall t :: t in q.waiting && t.channel == c ==> t in q'.waiting
  {
    var q' := Promoted(q, i, next, now);
    assert q.waiting[i].channel != c && q.waiting[i].id != k;
    forall t | t in q.waiting && t.channel == c
      ensures t in q'.waiting
    {
      var j :| 0 <= j < |q.waiting| && q.waiting[j] == t;
      assert q'.waiting[if j < i then j else j - 1] == t;
    }
  }

  lemma DequeueSpares(h: R.Hist, now: Time, k: Text, c: Text)
    requires R.Structured(h) && k in h.q.running && h.q.running[k].channel == c
    ensures
      var h' := R.Step(h, R.Dequeue(now));
      && k in h'.q.running && h'.q.running[k].channel == c && h'.slots == h.slots
      && forall t :: t in h.q.waiting && t.channel == c ==> t in h'.q.waiting
  {
    R.DequeueStep(h, now);
    if FindNextEligible(h.q).Some? {
      MoveSpares(h.q, R.NextPosition(h.q), Dispatching, now, k, c);
    }
  }

  lemma MarkSpares(h: R.Hist, marks: set<Text>, id: Text, now: Time, k: Text, c: Text)
    requires R.Structured(h) && Markable(h.q, marks) && id in marks && k in h.q.running && h.q.running[k].channel == c
    ensures
      var h' := R.Step(h, R.MarkRunning(id, now));
      && k in h'.q.running && h'.q.running[k].channel == c && h'.slots == h.slots
      && forall t :: t in h.q.waiting && t.channel == c ==> t in h'.q.waiting
  {
    R.MarkStep(h, id, now);
    if IndexOf(h.q.waiting, id) < |h.q.waiting| {
      MoveSpares(h.q, IndexOf(h.q.waiting, id), Running, now, k, c);
    }
  }

  lemma HandleOrphaned(g: Gateway, e: Event, k: Text, c: Text)
    requires Invariant(g) && Orphaned(g, k, c) && Enabled(g, e)
    ensures Orphaned(Handle(g, e), k, c)
    ensures forall t :: t in g.h.q.waiting && t.channel == c ==> t in Handle(g, e).h.q.waiting
  {
    match e {
      case MentionAct(user, prompt, now) => MentionOrphaned(g, user, prompt, now, k, c);
      case Terminal(owner, id) => TerminalOrphaned(g, owner, id, k, c);
      case Finish(owner, id) => assert Completion(owner, id) in g.pending;
      case DequeueNext(now) => DequeueSpares(g.h, now, k, c);
      case StartMark(id, now) => MarkSpares(g.h, g.marks, id, now, k, c);
      case Confirm(id, now) => SameChannels(g.h.q, id, now);
      case _ =>
    }
  }

  /** In every gateway run such a task runs to the end, and every task that waits on its channel
      still waits. */
  lemma {:induction false} OrphanBlocksChannel(g: Gateway, events: seq<Event>, k: Text, c: Text)
    requires Invariant(g) && Orphaned(g, k, c) && Possible(g, events)
    ensures Orphaned(After(g, events), k, c)
    ensures forall t :: t in g.h.q.waiting && t.channel == c ==> t in After(g, events).h.q.waiting
  {
    if events != [] {
      OrphanBlocksChannel(g, Front(events), k, c);
      SingleTaskPerChannel(g, Front(events));
      HandleOrphaned(After(g, Front(events)), Last(events), k, c);
    }
  }

  /** After a restart, a task recovered as running runs for ever, every mention of its channel
      is queued, and none of them is ever started. */
  lemma RecoveredTaskBlocksChannel(
      g: Gateway, events: seq<Event>, later: seq<Event>, k: Text, user: Text, prompt: Text, now: Time)
    requires Invariant(g) && g.workers == map[] && g.pending == multiset{} && k in g.h.q.running && k != EMPTY
    requires Possible(g, events)
    requires
      var g1 := After(g, events);
      && g1.mention.Some? && g1.mention.value.channel == g.h.q.running[k].channel
      && Possible(Handle(g1, MentionAct(user, prompt, now)), later)
    ensures
      var g1 := After(g, events);
      var g2 := Handle(g1, MentionAct(user, prompt, now));
      k in After(g2, later).h.q.running && MentionTask(g1, user, prompt, now) in After(g2, later).h.q.waiting
  {
    var c := g.h.q.running[k].channel;
    assert g.h.slots[c] > 0;
    OrphanBlocksChannel(g, events, k, c);
    SingleTaskPerChannel(g, events);
    var g1, act := After(g, events), MentionAct(user, prompt, now);
    HandleOrphaned(g1, act, k, c);
    HandleKeeps(g1, act);
    MentionRunsAtOnce(g1, [], user, prompt, now);
    OrphanBlocksChannel(Handle(g1, act), later, k, c);
  }
}
