/** The task queue as a value: what each critical section of the queue does to it. */
module QueueSpec {
  import opened Prelude
  import opened Tasks

  /** The fields of the queue. limit is MaxConcurrentTasks. */
  datatype Queue = Queue(
    waiting: seq<Task>,
    running: map<Text, Task>,
    channels: map<Text, int>,
    limit: int)

  /** The global metric counters the queue maintains. */
  datatype Counters = Counters(enqueued: int, completed: int, active: int, queued: int)

  datatype EnqueueError = NilTask | EmptyTaskID | AlreadyRunning | AlreadyQueued

  // ---------------------------------------------------------------- the channel counters

  function Count(channels: map<Text, int>, c: Text): int
  {
    if c in channels then channels[c] else 0
  }

  function Incremented(channels: map<Text, int>, c: Text): map<Text, int>
  {
    channels[c := Count(channels, c) + 1]
  }

  function Decremented(channels: map<Text, int>, c: Text): map<Text, int>
  {
    if Count(channels, c) - 1 <= 0 then channels - {c} else channels[c := Count(channels, c) - 1]
  }

  // ---------------------------------------------------------------- searching the queue

  /** The least position that holds the given task ID, or the length when there is none. */
  function IndexOf(w: seq<Task>, id: Text): (i: nat)
    ensures i <= |w|
    ensures i < |w| ==> w[i].id == id
    ensures forall j :: 0 <= j < i ==> w[j].id != id
  {
    if w == [] then 0 else if w[0].id == id then 0 else 1 + IndexOf(w[1..], id)
  }

  function PositionOf(w: seq<Task>, id: Text): nat
  {
    var i := IndexOf(w, id);
    if i < |w| then i + 1 else 0
  }

  function Without(w: seq<Task>, id: Text): seq<Task>
  {
    var i := IndexOf(w, id);
    if i < |w| then RemoveAt(w, i) else w
  }

  /** The least position whose channel is not busy, or the length when there is none. */
  function FirstFree(w: seq<Task>, busy: set<Text>): (i: nat)
    ensures i <= |w|
    ensures i < |w| ==> w[i].channel !in busy
    ensures forall j :: 0 <= j < i ==> w[j].channel in busy
  {
    if w == [] then 0 else if w[0].channel !in busy then 0 else 1 + FirstFree(w[1..], busy)
  }

  function BusyChannels(running: map<Text, Task>): set<Text>
  {
    set k | k in running :: running[k].channel
  }

  function FindNextEligible(q: Queue): (next: Option<Task>)
    ensures next.Some? ==> IndexOf(q.waiting, next.value.id) < |q.waiting|
  {
    if |q.running| >= q.limit then None
    else
      var i := FirstFree(q.waiting, BusyChannels(q.running));
      if i < |q.waiting| then Some(q.waiting[i]) else None
  }

  // ---------------------------------------------------------------- the critical sections

  function EnqueueCheck(q: Queue, t: Task): Option<EnqueueError>
  {
    if t.id == EMPTY then Some(EmptyTaskID)
    else if t.id in q.running then Some(AlreadyRunning)
    else if IndexOf(q.waiting, t.id) < |q.waiting| then Some(AlreadyQueued)
    else None
  }

  function Enqueued(q: Queue, t: Task): Queue
  {
    if EnqueueCheck(q, t).Some? then q
    else q.(waiting := q.waiting + [t], channels := Incremented(q.channels, t.channel))
  }

  /** The task at position i stops waiting, gives back its channel slot and runs. */
  function Promoted(q: Queue, i: nat, next: TaskStatus, now: Time): Queue
    requires i < |q.waiting|
  {
    var t := q.waiting[i];
    q.(waiting := RemoveAt(q.waiting, i),
       channels := Decremented(q.channels, t.channel),
       running := q.running[t.id := Transitioned(t, next, now)])
  }

  /** Moves the waiting task with this ID, if any, to the running tasks. */
  function MarkedRunning(q: Queue, id: Text, now: Time): Queue
  {
    var i := IndexOf(q.waiting, id);
    if i == |q.waiting| then q else Promoted(q, i, Running, now)
  }

  /** The locked part of MarkDone and MarkError. */
  function Completed(q: Queue, id: Text): Queue
  {
    q.(running := q.running - {id})
  }

  /** The locked part of releaseTerminalTask. */
  function Released(q: Queue, id: Text): Queue
  {
    if id !in q.running then q
    else q.(running := q.running - {id}, channels := Decremented(q.channels, q.running[id].channel))
  }

  predicate DispatchAccepted(q: Queue, id: Text)
  {
    id in q.running && IsValidTransition(q.running[id].status, Running)
  }

  function MarkedDispatched(q: Queue, id: Text, now: Time): Queue
  {
    if id !in q.running then q
    else q.(running := q.running[id := Transitioned(q.running[id], Running, now)])
  }

  predicate DirectAccepted(q: Queue, t: Task)
  {
    t.id != EMPTY && t.id !in q.running
  }

  function RunDirectly(q: Queue, t: Task, now: Time): Queue
  {
    if !DirectAccepted(q, t) then q
    else q.(running := q.running[t.id := StartedDirectly(t, now)],
            channels := Incremented(q.channels, t.channel))
  }

  /** The locked part of tryDequeue: selects by eligibility, then deletes by task ID. */
  function Dequeued(q: Queue, now: Time): (r: Queue)
    ensures |r.waiting| == |q.waiting| - if FindNextEligible(q).Some? then 1 else 0
  {
    match FindNextEligible(q)
    case None => q
    case Some(t) =>
      q.(waiting := Without(q.waiting, t.id),
         channels := Decremented(q.channels, t.channel),
         running := q.running[t.id := Transitioned(t, Dispatching, now)])
  }

  // ---------------------------------------------------------------- views of a queue

  /** The task IDs of one channel, in order. */
  function IdsOn(w: seq<Task>, c: Text): seq<Text>
  {
    if w == [] then []
    else IdsOn(Front(w), c) + if Last(w).channel == c then [Last(w).id] else []
  }

  predicate DistinctIds(w: seq<Task>)
  {
    forall i, j :: 0 <= i < j < |w| ==> w[i].id != w[j].id
  }

  /** What every operation keeps, whatever it is called with. */
  predicate Consistent(q: Queue)
  {
    && DistinctIds(q.waiting)
    && (forall k :: k in q.running ==> q.running[k].id == k)
  }

  predicate Disjoint(q: Queue)
  {
    forall i :: 0 <= i < |q.waiting| ==> q.waiting[i].id !in q.running
  }
}
