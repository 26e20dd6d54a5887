/** A queued task and its life cycle: queued, dispatching, running, done or error. */
module Tasks {
  import opened Prelude

  datatype TaskStatus = Queued | Dispatching | Running | Done | Error

  predicate IsValidTransition(current: TaskStatus, next: TaskStatus)
  {
    match current
    case Queued => next == Dispatching
    case Dispatching => next == Running || next == Error
    case Running => next == Done || next == Error
    case Done => false
    case Error => false
  }

  /** The stage of the life cycle a status belongs to. */
  function Rank(s: TaskStatus): nat
  {
    match s
    case Queued => 0
    case Dispatching => 1
    case Running => 2
    case Done => 3
    case Error => 3
  }

  /** The valid transitions are the steps from one stage to the next, and from dispatching
      straight to error. */
  lemma TransitionsAreSteps(current: TaskStatus, next: TaskStatus)
    ensures IsValidTransition(current, next)
      <==> Rank(next) == Rank(current) + 1 || (current == Dispatching && next == Error)
  {
  }

  /** The value of a task at one moment. A StartedAt that is still the zero time is None. */
  datatype Task = Task(
    id: Text,
    channel: Text,
    user: Text,
    prompt: Text,
    status: TaskStatus,
    createdAt: Time,
    startedAt: Option<Time>)

  function NewTask(id: Text, channel: Text, user: Text, prompt: Text, now: Time): Task
  {
    Task(id, channel, user, prompt, Queued, now, None)
  }

  /** The task after an attempt to move it to status next at time now. */
  function Transitioned(t: Task, next: TaskStatus, now: Time): Task
  {
    if !IsValidTransition(t.status, next) then t
    else if (next == Running || next == Dispatching) && t.startedAt.None? then
      t.(status := next, startedAt := Some(now))
    else
      t.(status := next)
  }

  /** A task that bypasses the queue: it is running from now on if it was only queued. */
  function StartedDirectly(t: Task, now: Time): Task
  {
    if t.status != Queued then t
    else t.(status := Running, startedAt := if t.startedAt.None? then Some(now) else t.startedAt)
  }

  /** b can be a later value of the task a: same identity, no earlier stage, and a start
      time that has been written keeps its value. */
  predicate Forward(a: Task, b: Task)
  {
    && a.(status := b.status, startedAt := b.startedAt) == b
    && (Rank(a.status) < Rank(b.status) || a.status == b.status)
    && (a.startedAt.Some? ==> b.startedAt == a.startedAt)
  }

  class QueuedTask {
    const taskID: Text
    const channelID: Text
    const userID: Text
    const prompt: Text
    const createdAt: Time
    var status: TaskStatus
    var startedAt: Option<Time>

    function Snap(): Task
      reads this
    {
      Task(taskID, channelID, userID, prompt, status, createdAt, startedAt)
    }

    constructor NewQueuedTask(taskID: Text, channelID: Text, userID: Text, prompt: Text, now: Time)
      ensures Snap() == NewTask(taskID, channelID, userID, prompt, now)
    {
      this.taskID, this.channelID, this.userID, this.prompt := taskID, channelID, userID, prompt;
      this.createdAt := now;
      this.status := Queued;
      this.startedAt := None;
    }

    /** A task written out field by field, as crash recovery builds it. */
    constructor Literal(t: Task)
      ensures Snap() == t
    {
      taskID, channelID, userID, prompt := t.id, t.channel, t.user, t.prompt;
      createdAt := t.createdAt;
      status := t.status;
      startedAt := t.startedAt;
    }

    method Transition(next: TaskStatus, now: Time) returns (ok: bool)
      modifies this
      ensures ok == IsValidTransition(old(status), next)
      ensures Snap() == Transitioned(old(Snap()), next, now)
    {
      if !IsValidTransition(status, next) {
        return false;
      }
      status := next;
      if next == Running || next == Dispatching {
        if startedAt.None? {
          startedAt := Some(now);
        }
      }
      return true;
    }

    /** The status change of MarkRunningDirect, which does not go through Transition. */
    method StartDirectly(now: Time)
      modifies this
      ensures Snap() == StartedDirectly(old(Snap()), now)
    {
      if status == Queued {
        status := Running;
        if startedAt.None? {
          startedAt := Some(now);
        }
      }
    }
  }
}
