/** Runs of the queue: any sequence of its critical sections, in any order, so every
    interleaving of the threads that use it. */
module QueueRuns {
  import opened Prelude
  import opened Tasks
  import opened QueueSpec
  import opened QueueLemmas

  datatype Op =
    | Enqueue(t: Task)
    | MarkRunning(id: Text, now: Time)
    | Complete(id: Text)
    | Dequeue(now: Time)
    | Release(id: Text)
    | MarkDispatched(id: Text, now: Time)
    | RunDirectly(t: Task, now: Time)

  /** The queue with its history: the tasks enqueued so far and the ones that have left the
      waiting queue; which running tasks came in directly, which through tryDequeue and which
      through MarkRunning; the channel of each direct registration that releaseTerminalTask
      has not given back; and every task ID used so far. */
  datatype Hist = Hist(
    q: Queue,
    enqueued: seq<Task>,
    left: seq<Task>,
    direct: set<Text>,
    viaQueue: set<Text>,
    marked: set<Text>,
    slots: multiset<Text>,
    used: set<Text>)

  function Start(limit: int): Hist
  {
    Hist(Queue([], map[], map[], limit), [], [], {}, {}, {}, multiset{}, {})
  }

  function Step(h: Hist, op: Op): Hist
  {
    match op
    case Enqueue(t) =>
      if EnqueueCheck(h.q, t).Some? then h
      else h.(q := Enqueued(h.q, t), enqueued := h.enqueued + [t], used := h.used + {t.id})
    case MarkRunning(id, now) =>
      var i := IndexOf(h.q.waiting, id);
      if i == |h.q.waiting| then h
      else h.(q := MarkedRunning(h.q, id, now), left := h.left + [h.q.waiting[i]],
              direct := h.direct - {id}, viaQueue := h.viaQueue - {id}, marked := h.marked + {id})
    case Complete(id) =>
      h.(q := Completed(h.q, id), direct := h.direct - {id}, viaQueue := h.viaQueue - {id},
         marked := h.marked - {id})
    case Dequeue(now) =>
      (match FindNextEligible(h.q)
       case None => h
       case Some(t) =>
         h.(q := Dequeued(h.q, now), left := h.left + [t],
            direct := h.direct - {t.id}, viaQueue := h.viaQueue + {t.id}, marked := h.marked - {t.id}))
    case Release(id) =>
      if id !in h.q.running then h
      else h.(q := Released(h.q, id), direct := h.direct - {id}, viaQueue := h.viaQueue - {id},
              marked := h.marked - {id}, slots := h.slots - multiset{h.q.running[id].channel})
    case MarkDispatched(id, now) =>
      h.(q := MarkedDispatched(h.q, id, now))
    case RunDirectly(t, now) =>
      if !DirectAccepted(h.q, t) then h
      else h.(q := QueueSpec.RunDirectly(h.q, t, now), direct := h.direct + {t.id},
              slots := h.slots + multiset{t.channel}, used := h.used + {t.id})
  }

  function Run(h: Hist, ops: seq<Op>): Hist
  {
    if ops == [] then h else Step(Run(h, Front(ops)), Last(ops))
  }

  /** Every operation of the run satisfies p in the state it is applied to. */
  ghost predicate Along(h: Hist, ops: seq<Op>, p: (Hist, Op) -> bool)
  {
    ops == [] || (Along(h, Front(ops), p) && p(Run(h, Front(ops)), Last(ops)))
  }

  // ---------------------------------------------------------------- what every run keeps

  /** The bookkeeping of the history, and the capacity of the scheduler. */
  ghost predicate Basic(h: Hist)
  {
    && Consistent(h.q)
    && h.direct <= h.q.running.Keys
    && h.viaQueue <= h.q.running.Keys
    && |h.viaQueue| <= h.q.limit
    && AllPositive(h.q.channels)
  }

  /** The position tryDequeue moves, when there is one. */
  function NextPosition(q: Queue): nat
  {
    FirstFree(q.waiting, BusyChannels(q.running))
  }

  /** The history after the task at position i has been moved to the running ones. */
  function Move(h: Hist, i: nat, next: TaskStatus, now: Time): Hist
    requires i < |h.q.waiting|
  {
    var id := h.q.waiting[i].id;
    h.(q := Promoted(h.q, i, next, now), left := h.left + [h.q.waiting[i]],
       direct := h.direct - {id}, viaQueue := h.viaQueue - {id}, marked := h.marked - {id})
  }

  lemma DequeueStep(h: Hist, now: Time)
    requires Consistent(h.q)
    ensures FindNextEligible(h.q).None? ==> Step(h, Dequeue(now)) == h
    ensures FindNextEligible(h.q).Some? ==>
      var i := NextPosition(h.q);
      && Eligible(h.q, i)
      && Step(h, Dequeue(now)) == Move(h, i, Dispatching, now).(
           viaQueue := h.viaQueue + {h.q.waiting[i].id})
  {
    DequeueMovesLeastEligible(h.q, now);
  }

  lemma MarkStep(h: Hist, id: Text, now: Time)
    ensures
      var i := IndexOf(h.q.waiting, id);
      Step(h, MarkRunning(id, now))
        == if i == |h.q.waiting| then h else Move(h, i, Running, now).(marked := h.marked + {id})
  {
  }

  lemma StepConsistent(h: Hist, op: Op)
    requires Consistent(h.q)
    ensures Consistent(Step(h, op).q)
  {
    match op {
      case Enqueue(t) =>
        if EnqueueCheck(h.q, t).None? {
          EnqueueKeepsConsistent(h.q, t);
        }
      case Dequeue(now) =>
        DequeueStep(h, now);
        if FindNextEligible(h.q).Some? {
          PromoteKeepsConsistent(h.q, NextPosition(h.q), Dispatching, now);
        }
      case MarkRunning(id, now) =>
        MarkStep(h, id, now);
        if IndexOf(h.q.waiting, id) < |h.q.waiting| {
          PromoteKeepsConsistent(h.q, IndexOf(h.q.waiting, id), Running, now);
        }
      case _ =>
    }
  }

  lemma StepOrigins(h: Hist, op: Op)
    requires Basic(h)
    ensures Step(h, op).direct <= Step(h, op).q.running.Keys
    ensures Step(h, op).viaQueue <= Step(h, op).q.running.Keys
    ensures Step(h, op).q.limit == h.q.limit
  {
    match op {
      case Dequeue(now) =>
        DequeueStep(h, now);
        if FindNextEligible(h.q).Some? {
          MoveOrigins(h, NextPosition(h.q), Dispatching, now);
        }
      case MarkRunning(id, now) =>
        MarkStep(h, id, now);
        if IndexOf(h.q.waiting, id) < |h.q.waiting| {
          MoveOrigins(h, IndexOf(h.q.waiting, id), Running, now);
        }
      case _ =>
    }
  }

  lemma MoveOrigins(h: Hist, i: nat, next: TaskStatus, now: Time)
    requires Basic(h) && i < |h.q.waiting|
    ensures
      var h' := Move(h, i, next, now);
      && h'.direct <= h'.q.running.Keys && h'.viaQueue <= h'.q.running.Keys && h'.q.limit == h.q.limit
      && h.q.waiting[i].id in h'.q.running
  {
  }

  lemma OthersViaQueue(h: Hist, op: Op)
    requires !op.Dequeue? || FindNextEligible(h.q).None?
    ensures Step(h, op).viaQueue <= h.viaQueue
  {
  }

  lemma StepCapacity(h: Hist, op: Op)
    requires Basic(h)
    ensures |Step(h, op).viaQueue| <= h.q.limit
  {
    if op.Dequeue? && FindNextEligible(h.q).Some? {
      SubsetSize(h.viaQueue, h.q.running.Keys);
      assert |h.q.running.Keys| == |h.q.running| < h.q.limit;
      assert |h.viaQueue + {FindNextEligible(h.q).value.id}| <= |h.viaQueue| + 1;
    } else {
      OthersViaQueue(h, op);
      SubsetSize(Step(h, op).viaQueue, h.viaQueue);
    }
  }

  predicate AllPositive(channels: map<Text, int>)
  {
    forall c :: c in channels ==> channels[c] > 0
  }

  lemma SlotsPositive(channels: map<Text, int>, c: Text)
    requires AllPositive(channels)
    ensures AllPositive(Incremented(channels, c)) && AllPositive(Decremented(channels, c))
  {
  }

  lemma StepPositive(h: Hist, op: Op)
    requires Basic(h)
    ensures AllPositive(Step(h, op).q.channels)
  {
    match op {
      case Enqueue(t) => SlotsPositive(h.q.channels, t.channel);
      case RunDirectly(t, now) => SlotsPositive(h.q.channels, t.channel);
      case Release(id) =>
        if id in h.q.running {
          SlotsPositive(h.q.channels, h.q.running[id].channel);
        }
      case Dequeue(now) =>
        DequeueStep(h, now);
        if FindNextEligible(h.q).Some? {
          SlotsPositive(h.q.channels, h.q.waiting[NextPosition(h.q)].channel);
        }
      case MarkRunning(id, now) =>
        MarkStep(h, id, now);
        if IndexOf(h.q.waiting, id) < |h.q.waiting| {
          SlotsPositive(h.q.channels, h.q.waiting[IndexOf(h.q.waiting, id)].channel);
        }
      case _ =>
    }
  }

  lemma StepBasic(h: Hist, op: Op)
    requires Basic(h)
    ensures Basic(Step(h, op)) && Step(h, op).q.limit == h.q.limit
  {
    StepConsistent(h, op);
    StepOrigins(h, op);
    StepCapacity(h, op);
    StepPositive(h, op);
  }

  lemma {:induction false} SubsetSize<T>(a: set<T>, b: set<T>)
    requires a <= b
    ensures |a| <= |b|
  {
    if a != {} {
      var x :| x in a;
      SubsetSize(a - {x}, b - {x});
    }
  }

  /** In every state of every run: waiting IDs are distinct, running keys are task IDs, a
      channel key is present only with a positive count, and the running tasks that came
      through tryDequeue never exceed the limit. */
  lemma {:induction false} RunBasic(h: Hist, ops: seq<Op>)
    requires Basic(h)
    ensures Basic(Run(h, ops)) && Run(h, ops).q.limit == h.q.limit
  {
    if ops != [] {
      RunBasic(h, Front(ops));
      StepBasic(Run(h, Front(ops)), Last(ops));
    }
  }

  // ---------------------------------------------------------------- capacity

  /** Every running task came in directly, through tryDequeue or through MarkRunning. */
  ghost predicate Covered(h: Hist)
  {
    h.q.running.Keys == h.viaQueue + h.direct + h.marked
  }

  lemma StepCovered(h: Hist, op: Op)
    requires Covered(h)
    ensures Covered(Step(h, op))
  {
  }

  lemma CoveredCapacity(h: Hist)
    requires Basic(h) && Covered(h)
    ensures |h.q.running| <= h.q.limit + |h.direct| + |h.marked|
  {
    assert |h.q.running| == |h.q.running.Keys|;
    assert |h.viaQueue + h.direct| <= |h.viaQueue| + |h.direct|;
    assert |h.viaQueue + h.direct + h.marked| <= |h.viaQueue + h.direct| + |h.marked|;
  }

  /** In every run the running tasks are at most the limit plus the ones that were registered
      directly and the ones that MarkRunning moved. */
  lemma {:induction false} Capacity(limit: nat, ops: seq<Op>)
    ensures
      var h := Run(Start(limit), ops);
      Covered(h) && |h.q.running| <= limit + |h.direct| + |h.marked|
  {
    if ops != [] {
      Capacity(limit, Front(ops));
      StepCovered(Run(Start(limit), Front(ops)), Last(ops));
    }
    RunBasic(Start(limit), ops);
    CoveredCapacity(Run(Start(limit), ops));
  }

  // ---------------------------------------------------------------- first in, first out

  predicate InOrder(h: Hist, c: Text)
  {
    IdsOn(h.left, c) + IdsOn(h.q.waiting, c) == IdsOn(h.enqueued, c)
  }

  /** Position i holds the first waiting task of its channel. */
  predicate FirstOfChannel(q: Queue, i: int)
  {
    0 <= i < |q.waiting| && forall j :: 0 <= j < i ==> q.waiting[j].channel != q.waiting[i].channel
  }

  /** MarkRunning is only called for a task that is the first of its channel, or not waiting. */
  predicate InTurn(h: Hist, op: Op)
  {
    op.MarkRunning? && IndexOf(h.q.waiting, op.id) < |h.q.waiting| ==>
      FirstOfChannel(h.q, IndexOf(h.q.waiting, op.id))
  }

  lemma TakeInOrder(done: seq<Task>, w: seq<Task>, i: nat, c: Text)
    requires i < |w| && forall j :: 0 <= j < i ==> w[j].channel != w[i].channel
    ensures IdsOn(done + [w[i]], c) + IdsOn(RemoveAt(w, i), c) == IdsOn(done, c) + IdsOn(w, c)
  {
    IdsOnSplit(w, i, c);
    IdsOnConcat(done, [w[i]], c);
    IdsOnOne(w[i], c);
    if w[i].channel == c {
      IdsOnNone(w[..i], c);
      Reassociate(IdsOn(done, c), [w[i].id], IdsOn(w[..i], c), IdsOn(w[i + 1..], c));
    } else {
      Reassociate(IdsOn(done, c), [], IdsOn(w[..i], c), IdsOn(w[i + 1..], c));
    }
  }

  lemma Reassociate(done: seq<Text>, x: seq<Text>, ahead: seq<Text>, rest: seq<Text>)
    requires x == [] || ahead == []
    ensures done + x + (ahead + rest) == done + (ahead + x + rest)
  {
  }

  lemma EnqueueInOrder(h: Hist, t: Task, c: Text)
    requires InOrder(h, c)
    ensures IdsOn(h.left, c) + IdsOn(h.q.waiting + [t], c) == IdsOn(h.enqueued + [t], c)
  {
    IdsOnConcat(h.q.waiting, [t], c);
    IdsOnConcat(h.enqueued, [t], c);
  }

  lemma StepInOrder(h: Hist, op: Op, c: Text)
    requires Consistent(h.q) && InTurn(h, op) && InOrder(h, c)
    ensures InOrder(Step(h, op), c)
  {
    match op {
      case Enqueue(t) =>
        EnqueueInOrder(h, t, c);
      case Dequeue(now) =>
        DequeueStep(h, now);
        if FindNextEligible(h.q).Some? {
          TakeInOrder(h.left, h.q.waiting, NextPosition(h.q), c);
        }
      case MarkRunning(id, now) =>
        MarkStep(h, id, now);
        if IndexOf(h.q.waiting, id) < |h.q.waiting| {
          TakeInOrder(h.left, h.q.waiting, IndexOf(h.q.waiting, id), c);
        }
      case _ =>
    }
  }

  lemma {:induction false} RunInOrder(h: Hist, ops: seq<Op>, c: Text)
    requires Basic(h) && InOrder(h, c) && Along(h, ops, InTurn)
    ensures InOrder(Run(h, ops), c)
  {
    if ops != [] {
      RunInOrder(h, Front(ops), c);
      RunBasic(h, Front(ops));
      StepInOrder(Run(h, Front(ops)), Last(ops), c);
    }
  }

  /** Per channel, the tasks that have left the queue followed by the ones still waiting are
      the tasks enqueued, in the order they were enqueued. */
  lemma FifoPerChannel(limit: nat, ops: seq<Op>, c: Text)
    requires Along(Start(limit), ops, InTurn)
    ensures InOrder(Run(Start(limit), ops), c)
  {
    RunInOrder(Start(limit), ops, c);
  }

  /** A MarkRunning keeps the order of the task's channel only if the task is in turn. */
  lemma OutOfTurnBreaksOrder(h: Hist, id: Text, now: Time)
    requires Consistent(h.q) && IndexOf(h.q.waiting, id) < |h.q.waiting|
    requires InOrder(h, h.q.waiting[IndexOf(h.q.waiting, id)].channel)
    ensures InOrder(Step(h, MarkRunning(id, now)), h.q.waiting[IndexOf(h.q.waiting, id)].channel)
      <==> InTurn(h, MarkRunning(id, now))
  {
    var i := IndexOf(h.q.waiting, id);
    var c := h.q.waiting[i].channel;
    MarkStep(h, id, now);
    if FirstOfChannel(h.q, i) {
      TakeInOrder(h.left, h.q.waiting, i, c);
    } else {
      OvertakingShows(h.left, h.q.waiting, i, c);
    }
  }

  lemma RunSnoc(h: Hist, ops: seq<Op>, op: Op)
    ensures Run(h, ops + [op]) == Step(Run(h, ops), op)
  {
    assert Front(ops + [op]) == ops;
  }

  function NewOn(id: string, c: Text): Task
  {
    NewTask(Text(id), c, EMPTY, EMPTY, 0)
  }

  /** Two new tasks of one channel in an empty queue. */
  lemma TwoWaiting(c: Text) returns (h: Hist)
    ensures h == Run(Start(1), [Enqueue(NewOn("a", c)), Enqueue(NewOn("b", c))])
    ensures h.q.waiting == [NewOn("a", c), NewOn("b", c)] == h.enqueued && h.left == []
    ensures Consistent(h.q)
  {
    RunSnoc(Start(1), [], Enqueue(NewOn("a", c)));
    RunSnoc(Start(1), [Enqueue(NewOn("a", c))], Enqueue(NewOn("b", c)));
    h := Run(Start(1), [Enqueue(NewOn("a", c)), Enqueue(NewOn("b", c))]);
    RunBasic(Start(1), [Enqueue(NewOn("a", c)), Enqueue(NewOn("b", c))]);
  }

  /** A run that ends out of order: the second of two waiting tasks is marked as running. */
  lemma OutOfOrderRun(c: Text) returns (ops: seq<Op>)
    ensures !InOrder(Run(Start(1), ops), c)
  {
    var h := TwoWaiting(c);
    ops := [Enqueue(NewOn("a", c)), Enqueue(NewOn("b", c))] + [MarkRunning(Text("b"), 0)];
    RunSnoc(Start(1), ops[..2], ops[2]);
    var i := IndexOf(h.q.waiting, Text("b"));
    assert h.q.waiting[0].id != Text("b") && h.q.waiting[1].id == Text("b");
    assert i == 1 && h.q.waiting[0].channel == c;
    OutOfTurnBreaksOrder(h, Text("b"), 0);
  }

  lemma OvertakingShows(done: seq<Task>, w: seq<Task>, i: nat, c: Text)
    requires DistinctIds(w) && i < |w| && w[i].channel == c
    requires exists j :: 0 <= j < i && w[j].channel == c
    ensures IdsOn(done + [w[i]], c) + IdsOn(RemoveAt(w, i), c) != IdsOn(done, c) + IdsOn(w, c)
  {
    IdsOnSplit(w, i, c);
    IdsOnConcat(done, [w[i]], c);
    IdsOnOne(w[i], c);
    AheadIsAnother(w, i, c);
    MovedAhead(IdsOn(done, c), IdsOn(w[..i], c), w[i].id, IdsOn(w[i + 1..], c));
  }

  lemma AheadIsAnother(w: seq<Task>, i: nat, c: Text)
    requires DistinctIds(w) && i < |w|
    requires exists j :: 0 <= j < i && w[j].channel == c
    ensures IdsOn(w[..i], c) != [] && IdsOn(w[..i], c)[0] != w[i].id
  {
    var j :| 0 <= j < i && w[j].channel == c;
    IdsOnSplit(w[..i], j, c);
    IdsOnAreIds(w[..i], c);
    assert IdsOn(w[..i], c)[0] in IdsOn(w[..i], c);
  }

  lemma MovedAhead(done: seq<Text>, ahead: seq<Text>, x: Text, rest: seq<Text>)
    requires ahead != [] && ahead[0] != x
    ensures done + [x] + (ahead + rest) != done + (ahead + [x] + rest)
  {
    assert (done + [x] + (ahead + rest))[|done|] == x;
    assert (done + (ahead + [x] + rest))[|done|] == ahead[0];
  }

  lemma {:induction false} IdsOnAreIds(w: seq<Task>, c: Text)
    ensures forall id :: id in IdsOn(w, c) ==> exists i :: 0 <= i < |w| && w[i].id == id
  {
    if w != [] {
      IdsOnAreIds(Front(w), c);
      forall id | id in IdsOn(w, c)
        ensures exists i :: 0 <= i < |w| && w[i].id == id
      {
        if id in IdsOn(Front(w), c) {
          var i :| 0 <= i < |Front(w)| && Front(w)[i].id == id;
          assert w[i].id == id;
        } else {
          assert w[|w| - 1].id == id;
        }
      }
    }
  }

  // ---------------------------------------------------------------- the channel counters

  function DirectOn(h: Hist, c: Text): set<Text>
  {
    set k | k in h.direct && k in h.q.running && h.q.running[k].channel == c
  }

  /** The counter of a channel is its waiting tasks plus its direct registrations that were
      not given back; the latter cover the directly registered tasks still running. */
  predicate CounterLaw(h: Hist, c: Text)
  {
    && Count(h.q.channels, c) == |IdsOn(h.q.waiting, c)| + h.slots[c]
    && |DirectOn(h, c)| <= h.slots[c]
  }

  /** releaseTerminalTask is only called for a task that was registered directly. */
  predicate ReleasesDirect(h: Hist, op: Op)
  {
    op.Release? && op.id in h.q.running ==> op.id in h.direct
  }

  lemma MoveCounterLaw(h: Hist, i: nat, next: TaskStatus, now: Time, c: Text)
    requires CounterLaw(h, c) && i < |h.q.waiting|
    ensures CounterLaw(Move(h, i, next, now), c)
  {
    var h' := Move(h, i, next, now);
    IdsOnSplit(h.q.waiting, i, c);
    assert DirectOn(h', c) <= DirectOn(h, c);
    SubsetSize(DirectOn(h', c), DirectOn(h, c));
  }

  lemma ReleaseCounterLaw(h: Hist, id: Text, c: Text)
    requires CounterLaw(h, c) && id in h.q.running && id in h.direct
    ensures CounterLaw(Step(h, Release(id)), c)
  {
    var h' := Step(h, Release(id));
    if h.q.running[id].channel == c {
      assert id in DirectOn(h, c);
      assert DirectOn(h', c) == DirectOn(h, c) - {id};
    } else {
      assert DirectOn(h', c) == DirectOn(h, c);
    }
  }

  lemma DirectOnRegistered(h: Hist, t: Task, now: Time, c: Text)
    requires h.direct <= h.q.running.Keys && DirectAccepted(h.q, t)
    ensures DirectOn(Step(h, RunDirectly(t, now)), c) == DirectOn(h, c) + if t.channel == c then {t.id} else {}
    ensures t.id !in DirectOn(h, c)
  {
    var h' := Step(h, RunDirectly(t, now));
    forall k
      ensures k in DirectOn(h', c) <==> k in DirectOn(h, c) || (k == t.id && t.channel == c)
    {
      if k != t.id {
        assert k in h'.q.running <==> k in h.q.running;
      }
    }
  }

  lemma DirectCounterLaw(h: Hist, t: Task, now: Time, c: Text)
    requires CounterLaw(h, c) && h.direct <= h.q.running.Keys && DirectAccepted(h.q, t)
    ensures CounterLaw(Step(h, RunDirectly(t, now)), c)
  {
    DirectOnRegistered(h, t, now, c);
    var more := if t.channel == c then {t.id} else {};
    assert |DirectOn(h, c) + more| == |DirectOn(h, c)| + |more|;
  }

  lemma EnqueueCounterLaw(h: Hist, t: Task, c: Text)
    requires CounterLaw(h, c) && EnqueueCheck(h.q, t).None?
    ensures CounterLaw(Step(h, Enqueue(t)), c)
  {
    IdsOnConcat(h.q.waiting, [t], c);
    IdsOnOne(t, c);
    assert DirectOn(Step(h, Enqueue(t)), c) == DirectOn(h, c);
  }

  lemma DispatchedCounterLaw(h: Hist, id: Text, now: Time, c: Text)
    requires CounterLaw(h, c)
    ensures CounterLaw(Step(h, MarkDispatched(id, now)), c)
  {
    assert DirectOn(Step(h, MarkDispatched(id, now)), c) == DirectOn(h, c);
  }

  lemma StepCounterLaw(h: Hist, op: Op, c: Text)
    requires Basic(h) && ReleasesDirect(h, op) && CounterLaw(h, c)
    ensures CounterLaw(Step(h, op), c)
  {
    match op {
      case Enqueue(t) =>
        if EnqueueCheck(h.q, t).None? {
          EnqueueCounterLaw(h, t, c);
        }
      case MarkRunning(id, now) =>
        MarkStep(h, id, now);
        if IndexOf(h.q.waiting, id) < |h.q.waiting| {
          var i := IndexOf(h.q.waiting, id);
          MoveCounterLaw(h, i, Running, now, c);
          assert DirectOn(Step(h, op), c) == DirectOn(Move(h, i, Running, now), c);
        }
      case Dequeue(now) =>
        DequeueStep(h, now);
        if FindNextEligible(h.q).Some? {
          var i := NextPosition(h.q);
          MoveCounterLaw(h, i, Dispatching, now, c);
          assert DirectOn(Step(h, op), c) == DirectOn(Move(h, i, Dispatching, now), c);
        }
      case Complete(id) =>
        SubsetSize(DirectOn(Step(h, op), c), DirectOn(h, c));
      case Release(id) =>
        if id in h.q.running {
          ReleaseCounterLaw(h, id, c);
        }
      case MarkDispatched(id, now) =>
        DispatchedCounterLaw(h, id, now, c);
      case RunDirectly(t, now) =>
        if DirectAccepted(h.q, t) {
          DirectCounterLaw(h, t, now, c);
        }
    }
  }

  /** The exact value of every channel counter in every reachable state. */
  lemma {:induction false} ChannelCounters(limit: nat, ops: seq<Op>, c: Text)
    requires Along(Start(limit), ops, ReleasesDirect)
    ensures CounterLaw(Run(Start(limit), ops), c)
    ensures c in Run(Start(limit), ops).q.channels <==> Count(Run(Start(limit), ops).q.channels, c) > 0
  {
    RunBasic(Start(limit), ops);
    if ops != [] {
      ChannelCounters(limit, Front(ops), c);
      RunBasic(Start(limit), Front(ops));
      StepCounterLaw(Run(Start(limit), Front(ops)), Last(ops), c);
    }
  }

  /** A release of a task that was not registered directly keeps the counter exact iff the
      channel has neither a waiting task nor a direct registration to lose. */
  lemma ReleaseOfQueuedTask(h: Hist, id: Text)
    requires Basic(h) && id in h.q.running && id !in h.direct
    requires CounterLaw(h, h.q.running[id].channel)
    ensures
      var c := h.q.running[id].channel;
      (Count(Released(h.q, id).channels, c) == |IdsOn(h.q.waiting, c)| + h.slots[c])
      == ((forall i :: 0 <= i < |h.q.waiting| ==> h.q.waiting[i].channel != c) && h.slots[c] == 0)
  {
    var c := h.q.running[id].channel;
    if forall i :: 0 <= i < |h.q.waiting| ==> h.q.waiting[i].channel != c {
      IdsOnNone(h.q.waiting, c);
    } else {
      var i :| 0 <= i < |h.q.waiting| && h.q.waiting[i].channel == c;
      IdsOnSplit(h.q.waiting, i, c);
    }
  }

  lemma {:induction false} NoRelease(h: Hist, ops: seq<Op>)
    requires forall i :: 0 <= i < |ops| ==> !ops[i].Release?
    ensures Along(h, ops, ReleasesDirect)
  {
    if ops != [] {
      NoRelease(h, Front(ops));
      assert !ops[|ops| - 1].Release?;
    }
  }

  /** The channel has been used directly once, and its next task waits. */
  lemma UsedThenQueued(c: Text)
    ensures
      var h := Step(Step(Step(Start(1), RunDirectly(NewOn("a", c), 0)), Complete(Text("a"))), Enqueue(NewOn("b", c)));
      && h.q == Queue([NewOn("b", c)], map[], map[c := 2], 1)
      && h.direct == {}
  {
    var h := Step(Step(Start(1), RunDirectly(NewOn("a", c), 0)), Complete(Text("a")));
    assert h.q == Queue([], map[], map[c := 1], 1);
    assert h.direct == {};
  }

  lemma MarkOnlyWaiting(h: Hist, c: Text)
    requires h.q == Queue([NewOn("b", c)], map[], map[c := 2], 1) && h.direct == {}
    ensures
      var h' := Step(h, MarkRunning(Text("b"), 0));
      && Text("b") in h'.q.running && h'.q.running[Text("b")].channel == c && h'.direct == {}
      && Count(h'.q.channels, c) == 1 && Count(Released(h'.q, Text("b")).channels, c) == 0
  {
    MarkStep(h, Text("b"), 0);
    assert IndexOf(h.q.waiting, Text("b")) == 0;
    assert Decremented(map[c := 2], c) == map[c := 1];
  }

  lemma ForeignSlotRun(c: Text) returns (ops: seq<Op>)
    ensures forall i :: 0 <= i < |ops| ==> !ops[i].Release?
    ensures
      var h := Step(Step(Step(Start(1), RunDirectly(NewOn("a", c), 0)), Complete(Text("a"))), Enqueue(NewOn("b", c)));
      Run(Start(1), ops) == Step(h, MarkRunning(Text("b"), 0))
  {
    var a, b := RunDirectly(NewOn("a", c), 0), Enqueue(NewOn("b", c));
    var h1 := Step(Start(1), a);
    var h2 := Step(h1, Complete(Text("a")));
    var h3 := Step(h2, b);
    Next(Start(1), [], Start(1), a);
    Next(Start(1), [] + [a], h1, Complete(Text("a")));
    Next(Start(1), [] + [a] + [Complete(Text("a"))], h2, b);
    Next(Start(1), [] + [a] + [Complete(Text("a"))] + [b], h3, MarkRunning(Text("b"), 0));
    ops := [] + [a] + [Complete(Text("a"))] + [b] + [MarkRunning(Text("b"), 0)];
  }

  lemma Next(h: Hist, ops: seq<Op>, h1: Hist, op: Op)
    requires Run(h, ops) == h1
    ensures Run(h, ops + [op]) == Step(h1, op)
  {
    RunSnoc(h, ops, op);
  }

  /** A run after which a release takes a slot that its task never had: the channel was
      registered directly once, and a task that was queued on it is released. */
  lemma ReleaseTakesForeignSlot(c: Text) returns (ops: seq<Op>)
    ensures
      var h := Run(Start(1), ops);
      && Basic(h) && CounterLaw(h, c)
      && Text("b") in h.q.running && Text("b") !in h.direct && h.q.running[Text("b")].channel == c
      && Count(h.q.channels, c) == 1 && Count(Released(h.q, Text("b")).channels, c) == 0
  {
    ops := ForeignSlotRun(c);
    UsedThenQueued(c);
    var h := Step(Step(Step(Start(1), RunDirectly(NewOn("a", c), 0)), Complete(Text("a"))), Enqueue(NewOn("b", c)));
    MarkOnlyWaiting(h, c);
    NoRelease(Start(1), ops);
    RunBasic(Start(1), ops);
    ChannelCounters(1, ops, c);
  }

  // ---------------------------------------------------------------- fresh task IDs

  /** Every task handed to the queue has an ID never used before. */
  predicate Fresh(h: Hist, op: Op)
  {
    match op
    case Enqueue(t) => t.id !in h.used
    case RunDirectly(t, _) => t.id !in h.used
    case _ => true
  }

  ghost predicate Structured(h: Hist)
  {
    && Basic(h)
    && Disjoint(h.q)
    && (forall k :: k in h.q.running ==> k in h.used)
    && (forall i :: 0 <= i < |h.q.waiting| ==> h.q.waiting[i].id in h.used)
  }

  lemma StepDisjoint(h: Hist, op: Op)
    requires Structured(h) && Fresh(h, op)
    ensures Disjoint(Step(h, op).q)
  {
    match op {
      case Dequeue(now) =>
        DequeueStep(h, now);
        if FindNextEligible(h.q).Some? {
          PromoteKeepsConsistent(h.q, NextPosition(h.q), Dispatching, now);
        }
      case MarkRunning(id, now) =>
        MarkStep(h, id, now);
        if IndexOf(h.q.waiting, id) < |h.q.waiting| {
          PromoteKeepsConsistent(h.q, IndexOf(h.q.waiting, id), Running, now);
        }
      case _ =>
    }
  }

  /** A task that waits after a step waited before it, or the step enqueued it. */
  lemma StepWaiting(h: Hist, op: Op)
    requires Consistent(h.q)
    ensures forall t :: t in Step(h, op).q.waiting ==>
      t in h.q.waiting || (op.Enqueue? && t == op.t && EnqueueCheck(h.q, t).None?)
  {
    match op {
      case Dequeue(now) =>
        DequeueStep(h, now);
        if FindNextEligible(h.q).Some? {
          StillThere(h.q.waiting, NextPosition(h.q));
        }
      case MarkRunning(id, now) =>
        MarkStep(h, id, now);
        if IndexOf(h.q.waiting, id) < |h.q.waiting| {
          StillThere(h.q.waiting, IndexOf(h.q.waiting, id));
        }
      case _ =>
    }
  }

  lemma StillThere(w: seq<Task>, i: nat)
    requires i < |w|
    ensures forall t :: t in RemoveAt(w, i) ==> t in w
  {
  }

  lemma StepUsedRunning(h: Hist, op: Op)
    requires Structured(h)
    ensures forall k :: k in Step(h, op).q.running ==> k in Step(h, op).used
  {
    match op {
      case Dequeue(now) => DequeueStep(h, now);
      case MarkRunning(id, now) => MarkStep(h, id, now);
      case _ =>
    }
  }

  lemma StepUsed(h: Hist, op: Op)
    requires Structured(h)
    ensures forall i :: 0 <= i < |Step(h, op).q.waiting| ==> Step(h, op).q.waiting[i].id in Step(h, op).used
  {
    StepWaiting(h, op);
    var w := Step(h, op).q.waiting;
    assert h.used <= Step(h, op).used;
    forall i | 0 <= i < |w|
      ensures w[i].id in Step(h, op).used
    {
      assert w[i] in w;
    }
  }

  lemma StepStructured(h: Hist, op: Op)
    requires Structured(h) && Fresh(h, op)
    ensures Structured(Step(h, op))
  {
    StepBasic(h, op);
    StepDisjoint(h, op);
    StepUsed(h, op);
    StepUsedRunning(h, op);
  }

  /** With fresh IDs no task ID is both waiting and running. */
  lemma {:induction false} RunStructured(h: Hist, ops: seq<Op>)
    requires Structured(h) && Along(h, ops, Fresh)
    ensures Structured(Run(h, ops))
  {
    if ops != [] {
      RunStructured(h, Front(ops));
      StepStructured(Run(h, Front(ops)), Last(ops));
    }
  }
}
