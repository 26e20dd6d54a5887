/** Facts about single operations of the queue. */
module QueueLemmas {
  import opened Prelude
  import opened Tasks
  import opened QueueSpec

  /** A task the scheduler may start: there is room, and nothing of its channel runs. */
  predicate Eligible(q: Queue, i: nat)
  {
    i < |q.waiting| && |q.running| < q.limit && q.waiting[i].channel !in BusyChannels(q.running)
  }

  // ---------------------------------------------------------------- IdsOn

  lemma {:induction false} IdsOnConcat(a: seq<Task>, b: seq<Task>, c: Text)
    ensures IdsOn(a + b, c) == IdsOn(a, c) + IdsOn(b, c)
  {
    if b == [] {
      assert a + b == a;
    } else {
      assert Front(a + b) == a + Front(b);
      IdsOnConcat(a, Front(b), c);
    }
  }

  lemma IdsOnOne(t: Task, c: Text)
    ensures IdsOn([t], c) == if t.channel == c then [t.id] else []
  {
    assert Front([t]) == [];
  }

  /** Taking out one task takes out its ID, at its place, from the IDs of its channel. */
  lemma IdsOnSplit(w: seq<Task>, i: nat, c: Text)
    requires i < |w|
    ensures IdsOn(RemoveAt(w, i), c) == IdsOn(w[..i], c) + IdsOn(w[i + 1..], c)
    ensures IdsOn(w, c) == IdsOn(w[..i], c) + (if w[i].channel == c then [w[i].id] else []) + IdsOn(w[i + 1..], c)
  {
    IdsOnConcat(w[..i], w[i + 1..], c);
    assert w == w[..i] + [w[i]] + w[i + 1..];
    IdsOnConcat(w[..i] + [w[i]], w[i + 1..], c);
    IdsOnConcat(w[..i], [w[i]], c);
    IdsOnOne(w[i], c);
  }

  lemma {:induction false} IdsOnNone(w: seq<Task>, c: Text)
    requires forall i :: 0 <= i < |w| ==> w[i].channel != c
    ensures IdsOn(w, c) == []
  {
    if w != [] {
      IdsOnNone(Front(w), c);
    }
  }

  lemma {:induction false} IdsOnSome(w: seq<Task>, c: Text)
    requires IdsOn(w, c) != []
    ensures exists i :: 0 <= i < |w| && w[i].channel == c
  {
    if forall i :: 0 <= i < |w| ==> w[i].channel != c {
      IdsOnNone(w, c);
    }
  }

  // ---------------------------------------------------------------- tryDequeue

  lemma IndexOfDistinct(w: seq<Task>, i: nat)
    requires DistinctIds(w) && i < |w|
    ensures IndexOf(w, w[i].id) == i
  {
    var j := IndexOf(w, w[i].id);
    assert j <= i;
  }

  /** Selecting by eligibility and deleting by ID moves exactly the least eligible position,
      keeps the order of the others, and moves something iff some task is eligible. */
  lemma DequeueMovesLeastEligible(q: Queue, now: Time)
    requires Consistent(q)
    ensures FindNextEligible(q).Some? <==> exists i: nat :: Eligible(q, i)
    ensures FindNextEligible(q).None? ==> Dequeued(q, now) == q
    ensures FindNextEligible(q).Some? ==>
      var i := FirstFree(q.waiting, BusyChannels(q.running));
      && Eligible(q, i) && (forall j: nat :: j < i ==> !Eligible(q, j))
      && FindNextEligible(q) == Some(q.waiting[i])
      && Dequeued(q, now) == Promoted(q, i, Dispatching, now)
  {
    var i := FirstFree(q.waiting, BusyChannels(q.running));
    if |q.running| < q.limit && i < |q.waiting| {
      assert Eligible(q, i);
      IndexOfDistinct(q.waiting, i);
    }
  }

  lemma DequeueIsPromotion(q: Queue, i: nat, now: Time)
    requires i < |q.waiting| && FindNextEligible(q) == Some(q.waiting[i]) && IndexOf(q.waiting, q.waiting[i].id) == i
    ensures Dequeued(q, now) == Promoted(q, i, Dispatching, now)
  {
  }

  lemma EnqueueKeepsConsistent(q: Queue, t: Task)
    requires Consistent(q) && EnqueueCheck(q, t).None?
    ensures Consistent(Enqueued(q, t))
  {
  }

  lemma EnqueuePosition(q: Queue, t: Task)
    requires EnqueueCheck(q, t).None?
    ensures PositionOf(Enqueued(q, t).waiting, t.id) == |q.waiting| + 1 == |Enqueued(q, t).waiting|
  {
    var w := q.waiting + [t];
    var i := IndexOf(w, t.id);
    assert forall j :: 0 <= j < |q.waiting| ==> w[j].id == q.waiting[j].id != t.id;
    assert w[|q.waiting|].id == t.id;
  }

  /** MarkDispatched is refused once it has been accepted. */
  lemma DispatchedOnce(q: Queue, id: Text, now: Time)
    ensures !DispatchAccepted(MarkedDispatched(q, id, now), id)
  {
  }

  // ---------------------------------------------------------------- structure

  lemma PromoteKeepsConsistent(q: Queue, i: nat, next: TaskStatus, now: Time)
    requires Consistent(q) && i < |q.waiting|
    ensures Consistent(Promoted(q, i, next, now))
    ensures Disjoint(q) ==> Disjoint(Promoted(q, i, next, now))
  {
  }

  /** A task is accepted iff it has an ID and no running or waiting task has the same one. */
  lemma EnqueueAccepts(q: Queue, t: Task)
    ensures EnqueueCheck(q, t).None?
      <==> t.id != Text("") && t.id !in q.running && forall i :: 0 <= i < |q.waiting| ==> q.waiting[i].id != t.id
    ensures EnqueueCheck(q, t) == Some(EmptyTaskID) <==> t.id == Text("")
    ensures EnqueueCheck(q, t) == Some(AlreadyRunning) <==> t.id != Text("") && t.id in q.running
  {
    if exists i :: 0 <= i < |q.waiting| && q.waiting[i].id == t.id {
      assert IndexOf(q.waiting, t.id) < |q.waiting|;
    }
  }
}
