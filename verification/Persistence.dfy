/** What the stream callbacks write to the store, and what is stored once a task is over. */
module Persistence {
  import opened Prelude
  import opened Protocol
  import opened Timestamps
  import opened Stores
  import opened Recovery
  import opened Debounce
  import Throttler
  import StreamWorker

  /** What the callback knows of the mention it works for. */
  datatype Mention = Mention(channel: Text, user: Text, prompt: Text)

  /** What the i-th delivery meets: the timestamp of the message it is shown in, the clock of
      the progress cache (read for the test and for the record), the clock of the store, and
      whether the Set fails. */
  datatype Moment = Moment(slackTS: Text, tested: Time, stored: Time, now: Instant, fails: bool)

  const COOLDOWN: Time := 10_000_000_000

  /** The store, and the last writes that the progress cache remembers. */
  datatype Persisted = Persisted(table: Table, last: map<Text, Time>)

  /** The record that an event of this kind sets, if any. */
  function RecordOf(kind: EventKind, id: Text, m: Mention, slackTS: Text): Option<TaskRecord>
  {
    match kind
    case EventStart => Some(TaskRecord(id, m.channel, slackTS, m.user, m.prompt, RUNNING, None))
    case EventProgress => Some(TaskRecord(id, EMPTY, EMPTY, EMPTY, EMPTY, RUNNING, None))
    case EventPaused => Some(TaskRecord(id, m.channel, slackTS, EMPTY, EMPTY, PAUSED, None))
    case EventDone => Some(TaskRecord(id, m.channel, slackTS, EMPTY, EMPTY, DONE, None))
    case EventError => Some(TaskRecord(id, m.channel, slackTS, EMPTY, EMPTY, ERROR, None))
    case _ => None
  }

  /** Whether the event leads to a Set: it names its task, its kind is recorded, and if it is
      a progress event the last one written is old enough. */
  predicate Sets(last: map<Text, Time>, kind: EventKind, id: Text, w: Moment)
  {
    && id != EMPTY
    && RecordOf(kind, id, Mention(EMPTY, EMPTY, EMPTY), EMPTY).Some?
    && (kind == EventProgress ==> Allowed(last, Check(id, w.tested, w.stored), COOLDOWN))
  }

  function PersistOne(json: bool, p: Persisted, kind: EventKind, id: Text, m: Mention, w: Moment): Persisted
  {
    if !Sets(p.last, kind, id, w) then p
    else Persisted(
      SetResult(json, p.table, RecordOf(kind, id, m, w.slackTS).value, w.now, w.fails),
      if kind == EventProgress then p.last[id := w.stored] else p.last)
  }

  /** The store half of the stream callback, for one event; id is the task ID in its payload. */
  method PersistEvent(sm: StateManager, cache: ProgressCache, kind: EventKind, id: Text, m: Mention, w: Moment)
    requires cache !in Repr(sm)
    modifies Repr(sm), cache
    ensures Persisted(Contents(sm), cache.last)
      == PersistOne(sm.Json?, Persisted(old(Contents(sm)), old(cache.last)), kind, id, m, w)
  {
    if id == EMPTY {
      return;
    }
    var rec: TaskRecord;
    match kind {
      case EventStart =>
        rec := TaskRecord(id, m.channel, w.slackTS, m.user, m.prompt, RUNNING, None);
      case EventProgress =>
        var persist := cache.ShouldPersist(Check(id, w.tested, w.stored), COOLDOWN);
        if !persist {
          return;
        }
        rec := TaskRecord(id, EMPTY, EMPTY, EMPTY, EMPTY, RUNNING, None);
      case EventPaused =>
        rec := TaskRecord(id, m.channel, w.slackTS, EMPTY, EMPTY, PAUSED, None);
      case EventDone =>
        rec := TaskRecord(id, m.channel, w.slackTS, EMPTY, EMPTY, DONE, None);
      case EventError =>
        rec := TaskRecord(id, m.channel, w.slackTS, EMPTY, EMPTY, ERROR, None);
      case _ =>
        return;
    }
    var _ := SetRecord(sm, rec, w.now, w.fails);
  }

  // ---------------------------------------------------------------- many writers

  /** A write to the store: the mark that Stop puts on a task, or what a callback makes of an
      event. The writes of all callbacks and of Stop may interleave in any order. */
  datatype Write =
    | Mark(id: Text, now: Instant, fails: bool)
    | Delivery(kind: EventKind, id: Text, mention: Mention, moment: Moment)

  function WriteOne(json: bool, p: Persisted, x: Write): Persisted
  {
    match x
    case Mark(id, now, fails) => p.(table := SetResult(json, p.table, InterruptMark(id), now, fails))
    case Delivery(kind, id, m, w) => PersistOne(json, p, kind, id, m, w)
  }

  function WriteAll(json: bool, p: Persisted, writes: seq<Write>): Persisted
  {
    if writes == [] then p else WriteOne(json, WriteAll(json, p, Front(writes)), Last(writes))
  }

  function StatusOf(t: Table, id: Text): Text
  {
    if id in t then t[id].status else EMPTY
  }

  predicate IsFinal(status: Text)
  {
    status == DONE || status == ERROR
  }

  /** The status that a write stands for. */
  function StatusFor(x: Write): Text
  {
    if x.Mark? then INTERRUPTED
    else match x.kind
      case EventPaused => PAUSED
      case EventDone => DONE
      case EventError => ERROR
      case _ => RUNNING
  }

  /** The Set of the write is made and takes effect: the JSON store changes its memory even when
      it cannot save. */
  predicate Effective(json: bool, last: map<Text, Time>, x: Write)
  {
    match x
    case Mark(_, _, fails) => json || !fails
    case Delivery(kind, id, _, w) => Sets(last, kind, id, w) && (json || !w.fails)
  }

  lemma StatusAfterWrite(json: bool, p: Persisted, x: Write, k: Text)
    ensures StatusOf(WriteOne(json, p, x).table, k)
      == if k == x.id && Effective(json, p.last, x) then StatusFor(x) else StatusOf(p.table, k)
  {
  }

  /** The i-th write sets the status of the task. */
  predicate WritesStatus(json: bool, p: Persisted, writes: seq<Write>, i: nat, k: Text)
    requires i < |writes|
  {
    writes[i].id == k && Effective(json, WriteAll(json, p, writes[..i]).last, writes[i])
  }

  /** The i-th write is the last one that sets the status of the task. */
  predicate LastWrite(json: bool, p: Persisted, writes: seq<Write>, i: int, k: Text)
  {
    && 0 <= i < |writes| && WritesStatus(json, p, writes, i, k)
    && forall j :: i < j < |writes| ==> !WritesStatus(json, p, writes, j, k)
  }

  lemma EarlierWrites(json: bool, p: Persisted, front: seq<Write>, x: Write, i: nat, k: Text)
    requires i < |front|
    ensures WritesStatus(json, p, front + [x], i, k) <==> WritesStatus(json, p, front, i, k)
  {
    assert (front + [x])[..i] == front[..i];
  }

  lemma LastWriteNext(json: bool, p: Persisted, front: seq<Write>, x: Write, i: int, k: Text)
    requires 0 <= i <= |front|
    ensures LastWrite(json, p, front + [x], i, k)
      <==> if WritesStatus(json, p, front + [x], |front|, k) then i == |front| else LastWrite(json, p, front, i, k)
  {
    forall j | 0 <= j < |front|
      ensures WritesStatus(json, p, front + [x], j, k) <==> WritesStatus(json, p, front, j, k)
    {
      EarlierWrites(json, p, front, x, j, k);
    }
  }

  /** The stored status of a task is that of the last write that sets it, and the one from before
      all writes when there is none. */
  lemma {:induction false} LastWriteDecides(json: bool, p: Persisted, writes: seq<Write>, k: Text) returns (last: int)
    ensures -1 <= last < |writes|
    ensures forall i :: 0 <= i < |writes| ==> (LastWrite(json, p, writes, i, k) <==> i == last)
    ensures StatusOf(WriteAll(json, p, writes).table, k)
      == if last == -1 then StatusOf(p.table, k) else StatusFor(writes[last])
  {
    if writes == [] {
      return -1;
    }
    var front, x, n := Front(writes), Last(writes), |writes| - 1;
    var before := LastWriteDecides(json, p, front, k);
    assert writes == front + [x];
    forall i | 0 <= i <= n
      ensures LastWrite(json, p, writes, i, k)
        <==> if WritesStatus(json, p, writes, n, k) then i == n else i == before
    {
      LastWriteNext(json, p, front, x, i, k);
    }
    StatusAfterWrite(json, WriteAll(json, p, front), x, k);
    assert writes[..n] == front;
    last := if WritesStatus(json, p, writes, n, k) then n else before;
  }

  lemma WriteSnoc(json: bool, p: Persisted, writes: seq<Write>, x: Write)
    ensures WriteAll(json, p, writes + [x]) == WriteOne(json, WriteAll(json, p, writes), x)
  {
    assert Front(writes + [x]) == writes;
  }

  lemma {:induction false} WriteConcat(json: bool, p: Persisted, a: seq<Write>, b: seq<Write>)
    ensures WriteAll(json, p, a + b) == WriteAll(json, WriteAll(json, p, a), b)
  {
    if b == [] {
      assert a + b == a;
    } else {
      WriteConcat(json, p, a, Front(b));
      WriteSnoc(json, p, a + Front(b), Last(b));
      assert a + b == a + Front(b) + [Last(b)];
    }
  }

  // ---------------------------------------------------------------- how often progress is written

  predicate IsProgress(x: Write)
  {
    x.Delivery? && x.kind == EventProgress && x.id != EMPTY
  }

  function CheckOf(x: Write): Check
    requires IsProgress(x)
  {
    Check(x.id, x.moment.tested, x.moment.stored)
  }

  /** The checks of the progress cache that the writes make, in order. */
  function ProgressChecks(writes: seq<Write>): seq<Check>
  {
    if writes == [] then []
    else ProgressChecks(Front(writes)) + if IsProgress(Last(writes)) then [CheckOf(Last(writes))] else []
  }

  /** The times at which progress events of the task led to a Set, in order. */
  function ProgressWrites(json: bool, p: Persisted, writes: seq<Write>, k: Text): seq<Time>
  {
    if writes == [] then []
    else
      var x, earlier := Last(writes), ProgressWrites(json, p, Front(writes), k);
      if IsProgress(x) && x.id == k && Sets(WriteAll(json, p, Front(writes)).last, EventProgress, k, x.moment)
      then earlier + [x.moment.stored] else earlier
  }

  lemma CheckSnoc(checks: seq<Check>, c: Check, k: Text)
    ensures
      var last := LastAfter(checks, COOLDOWN);
      && LastAfter(checks + [c], COOLDOWN) == (if Allowed(last, c, COOLDOWN) then last[c.taskID := c.stored] else last)
      && Debounce.Writes(checks + [c], COOLDOWN, k)
         == Debounce.Writes(checks, COOLDOWN, k)
            + if c.taskID == k && Allowed(last, c, COOLDOWN) then [c.stored] else []
  {
    assert Front(checks + [c]) == checks;
  }

  /** What the callbacks remember and write is what the progress cache allows. */
  lemma {:induction false} CacheFollowsDebounce(json: bool, t: Table, writes: seq<Write>, k: Text)
    ensures WriteAll(json, Persisted(t, map[]), writes).last == LastAfter(ProgressChecks(writes), COOLDOWN)
    ensures ProgressWrites(json, Persisted(t, map[]), writes, k)
      == Debounce.Writes(ProgressChecks(writes), COOLDOWN, k)
  {
    if writes != [] {
      CacheFollowsDebounce(json, t, Front(writes), k);
      if IsProgress(Last(writes)) {
        CheckSnoc(ProgressChecks(Front(writes)), CheckOf(Last(writes)), k);
      } else {
        assert ProgressChecks(writes) == ProgressChecks(Front(writes));
      }
    }
  }

  /** Progress events of one task are written at least ten seconds apart, and a window of any
      length holds at most one more of these writes than ten seconds fit into it. Whatever
      callbacks deliver and Stop marks in between, all of them share one cache. */
  lemma ProgressIsDebounced(json: bool, t: Table, writes: seq<Write>, k: Text, start: Time, length: Time)
    requires ClockMovesOn(ProgressChecks(writes)) && length >= 0
    ensures
      var w := ProgressWrites(json, Persisted(t, map[]), writes, k);
      && (forall i :: 0 <= i < |w| - 1 ==> w[i + 1] - w[i] >= 10_000_000_000)
      && CountIn(w, start, start + length) <= length / 10_000_000_000 + 1
  {
    CacheFollowsDebounce(json, t, writes, k);
    WritesSpaced(ProgressChecks(writes), COOLDOWN, k);
    WindowBound(ProgressChecks(writes), COOLDOWN, k, start, length);
  }

  /** The first progress event of a task is written, and so is every one that comes ten seconds
      or more after all written before it. */
  lemma LateProgressIsWritten(json: bool, t: Table, writes: seq<Write>, x: Write)
    requires ClockMovesOn(ProgressChecks(writes)) && IsProgress(x)
    ensures
      var w := ProgressWrites(json, Persisted(t, map[]), writes, x.id);
      ProgressWrites(json, Persisted(t, map[]), writes + [x], x.id)
      == if forall i :: 0 <= i < |w| ==> x.moment.tested - w[i] >= 10_000_000_000 then w + [x.moment.stored] else w
  {
    CacheFollowsDebounce(json, t, writes, x.id);
    CacheFollowsDebounce(json, t, writes + [x], x.id);
    assert Front(writes + [x]) == writes;
    NeverRefusedLate(ProgressChecks(writes), CheckOf(x), COOLDOWN);
  }

  // ---------------------------------------------------------------- what is written

  /** The record after an effective delivery, by the kind of its event. */
  lemma RecordMeans(json: bool, p: Persisted, kind: EventKind, id: Text, m: Mention, w: Moment)
    requires Effective(json, p.last, Delivery(kind, id, m, w))
    ensures id in PersistOne(json, p, kind, id, m, w).table
    ensures
      var status := PersistOne(json, p, kind, id, m, w).table[id].status;
      && (kind == EventStart || kind == EventProgress ==> status == Text("running"))
      && (kind == EventPaused ==> status == Text("paused"))
      && (kind == EventDone ==> status == Text("done"))
      && (kind == EventError ==> status == Text("error"))
      && kind != EventToolCall && !kind.EventOther?
  {
  }

  /** A start event stores whom the task belongs to and what was asked, as far as it is known. */
  lemma StartStoresMention(json: bool, p: Persisted, id: Text, m: Mention, w: Moment)
    requires id != EMPTY && (json || !w.fails)
    requires m.channel != EMPTY && m.user != EMPTY && m.prompt != EMPTY && w.slackTS != EMPTY
    ensures id in PersistOne(json, p, EventStart, id, m, w).table
    ensures
      var r := PersistOne(json, p, EventStart, id, m, w).table[id];
      r.taskID == (if json && id in p.table then p.table[id].taskID else id)
      && r.channelID == m.channel && r.userID == m.user && r.prompt == m.prompt && r.slackTS == w.slackTS
  {
  }

  /** An event that names no task, and a tool call or other event, writes nothing. */
  lemma UnrecordedEvents(json: bool, p: Persisted, kind: EventKind, id: Text, m: Mention, w: Moment)
    requires id == Text("") || kind == EventToolCall || kind.EventOther?
    ensures PersistOne(json, p, kind, id, m, w) == p
  {
  }

  /** A paused, done or error event stores the channel and the message it is shown in. */
  lemma EndStoresMessage(json: bool, p: Persisted, kind: EventKind, id: Text, m: Mention, w: Moment)
    requires id != EMPTY && (json || !w.fails) && m.channel != EMPTY && w.slackTS != EMPTY
    requires kind == EventPaused || kind == EventDone || kind == EventError
    ensures id in PersistOne(json, p, kind, id, m, w).table
    ensures
      var r := PersistOne(json, p, kind, id, m, w).table[id];
      r.channelID == m.channel && r.slackTS == w.slackTS
  {
  }

  /** A later delivery keeps the prompt exactly when it is not written, the store merges, or
      there is none to lose; a written progress event also loses the channel of the record in
      the SQLite store, which paused, done and error events give again. */
  lemma LaterDeliveryAndPrompt(json: bool, p: Persisted, kind: EventKind, id: Text, m: Mention, w: Moment)
    requires id in p.table && kind != EventStart
    ensures id in PersistOne(json, p, kind, id, m, w).table
    ensures
      var r := PersistOne(json, p, kind, id, m, w).table[id];
      var written := Effective(json, p.last, Delivery(kind, id, m, w));
      && (r.prompt == p.table[id].prompt <==> json || !written || p.table[id].prompt == EMPTY)
      && (r.userID == p.table[id].userID <==> json || !written || p.table[id].userID == EMPTY)
      && (m.channel == p.table[id].channelID ==>
            (r.channelID == m.channel <==> json || !written || kind != EventProgress || m.channel == EMPTY))
  {
  }

  // ---------------------------------------------------------------- writes during and after Stop

  /** The marks of Stop, when nobody else writes, are those of the recovery model. */
  lemma {:induction false} StopIsMarks(
      json: bool, t: Table, last: map<Text, Time>, active: seq<TaskRecord>, n: nat, env: Surroundings)
    requires n <= |active|
    ensures WriteAll(json, Persisted(t, last), Marks(active, n, env))
      == Persisted(StoreStopped(json, t, active, n, env), last)
  {
    if n > 0 {
      StopIsMarks(json, t, last, active, n - 1, env);
      WriteSnoc(json, Persisted(t, last), Marks(active, n - 1, env),
                Mark(active[n - 1].taskID, env.clock(n - 1), env.setFails(n - 1)));
    }
  }

  function Marks(active: seq<TaskRecord>, n: nat, env: Surroundings): seq<Write>
    requires n <= |active|
  {
    if n == 0 then []
    else Marks(active, n - 1, env) + [Mark(active[n - 1].taskID, env.clock(n - 1), env.setFails(n - 1))]
  }

  /** Stop signals the workers and does not wait for them, so their last events may be delivered
      while it marks the tasks and afterwards. A task that Stop marks is stored as interrupted
      in the end iff no delivery after its mark sets its status, and the mark took effect or it
      was interrupted already; otherwise it has the status of the last such delivery. */
  lemma StopWithLateDeliveries(
      json: bool, p: Persisted, before: seq<Write>, k: Text, now: Instant, fails: bool, after: seq<Write>)
      returns (last: int)
    requires forall i :: 0 <= i < |after| ==> !(after[i].Mark? && after[i].id == k)
    ensures
      var p1 := WriteAll(json, p, before + [Mark(k, now, fails)]);
      var end := WriteAll(json, p, before + [Mark(k, now, fails)] + after);
      && -1 <= last < |after|
      && (last == -1 <==> forall i :: 0 <= i < |after| ==> !WritesStatus(json, p1, after, i, k))
      && (StatusOf(end.table, k) == INTERRUPTED
          <==> last == -1
               && (json || !fails || StatusOf(WriteAll(json, p, before).table, k) == INTERRUPTED))
      && (last >= 0 ==> LastWrite(json, p1, after, last, k) && StatusOf(end.table, k) == StatusFor(after[last]))
  {
    var mark := Mark(k, now, fails);
    var p1 := WriteAll(json, p, before + [mark]);
    WriteSnoc(json, p, before, mark);
    StatusAfterWrite(json, WriteAll(json, p, before), mark, k);
    WriteConcat(json, p, before + [mark], after);
    last := LastWriteDecides(json, p1, after, k);
    NoneIsLast(json, p1, after, last, k);
    if last >= 0 {
      assert LastWrite(json, p1, after, last, k);
      assert after[last].Delivery?;
    }
  }

  /** There is a last write of the task iff there is one at all. */
  lemma NoneIsLast(json: bool, p: Persisted, writes: seq<Write>, last: int, k: Text)
    requires -1 <= last < |writes|
    requires forall i :: 0 <= i < |writes| ==> (LastWrite(json, p, writes, i, k) <==> i == last)
    ensures last == -1 <==> forall i :: 0 <= i < |writes| ==> !WritesStatus(json, p, writes, i, k)
  {
    if last >= 0 {
      assert LastWrite(json, p, writes, last, k);
    } else if i :| 0 <= i < |writes| && WritesStatus(json, p, writes, i, k) {
      SomeIsLast(json, p, writes, i, k);
    }
  }

  lemma {:induction false} SomeIsLast(json: bool, p: Persisted, writes: seq<Write>, i: nat, k: Text)
    requires i < |writes| && WritesStatus(json, p, writes, i, k)
    ensures exists j :: LastWrite(json, p, writes, j, k)
    decreases |writes| - i
  {
    if j :| i < j < |writes| && WritesStatus(json, p, writes, j, k) {
      SomeIsLast(json, p, writes, j, k);
    } else {
      assert LastWrite(json, p, writes, i, k);
    }
  }

  /** A progress event that a stopped worker still delivers sets the task running again. */
  lemma RunningAfterStop(json: bool, p: Persisted, k: Text, now: Instant, m: Mention, w: Moment)
    requires k != EMPTY && k !in p.last && !w.fails
    ensures
      var late := Delivery(EventProgress, k, m, w);
      StatusOf(WriteAll(json, p, [Mark(k, now, false), late]).table, k) == RUNNING
  {
    var mark, late := Mark(k, now, false), Delivery(EventProgress, k, m, w);
    WriteSnoc(json, p, [], mark);
    WriteSnoc(json, p, [mark], late);
    assert [] + [mark] == [mark] && [mark] + [late] == [mark, late];
    StatusAfterWrite(json, WriteAll(json, p, [mark]), late, k);
  }

  // ---------------------------------------------------------------- a whole stream

  /** The task ID in the payload of each event, by its place among the events sent, and what
      each delivery meets, by its place among the events delivered. */
  datatype Stream = Stream(ids: nat -> Text, at: nat -> Moment, mention: Mention)

  function StreamWrites(delivered: seq<Throttler.Event>, s: Stream): seq<Write>
  {
    if delivered == [] then []
    else
      var e, n := Last(delivered), |delivered| - 1;
      StreamWrites(Front(delivered), s) + [Delivery(e.kind, s.ids(e.place), s.mention, s.at(n))]
  }

  function PersistAll(json: bool, p: Persisted, delivered: seq<Throttler.Event>, s: Stream): Persisted
  {
    WriteAll(json, p, StreamWrites(delivered, s))
  }

  lemma PersistSnoc(json: bool, p: Persisted, delivered: seq<Throttler.Event>, e: Throttler.Event, s: Stream)
    ensures PersistAll(json, p, delivered + [e], s)
      == PersistOne(json, PersistAll(json, p, delivered, s), e.kind, s.ids(e.place), s.mention, s.at(|delivered|))
  {
    assert Front(delivered + [e]) == delivered;
    WriteSnoc(json, p, StreamWrites(delivered, s), Delivery(e.kind, s.ids(e.place), s.mention, s.at(|delivered|)));
  }

  /** The event that waits in the buffer when the worker sends its last one is written to the
      same task after it: it names this task, and it is a paused event or a progress event that
      the cooldown lets through. */
  predicate LateWrite(json: bool, before: Persisted, late: Option<Throttler.Event>, s: Stream, id: Text, w: Moment)
  {
    && late.Some? && s.ids(late.value.place) == id && (json || !w.fails)
    && match late.value.kind
       case EventPaused => true
       case EventProgress => Allowed(before.last, Check(id, w.tested, w.stored), COOLDOWN)
       case _ => false
  }

  /** Of the events that are buffered only paused and progress events are recorded. */
  lemma LateIsEffective(
      json: bool, before: Persisted, late: Throttler.Event, s: Stream, id: Text, w: Moment)
    requires !Throttler.Immediate(late.kind) && id != EMPTY
    ensures
      var x := Delivery(late.kind, s.ids(late.place), s.mention, w);
      && (LateWrite(json, before, Some(late), s, id, w) <==> x.id == id && Effective(json, before.last, x))
      && !IsFinal(StatusFor(x))
  {
  }

  /** The status after the event that reports the end, and possibly a late one. */
  lemma StatusAtEnd(
      json: bool, p: Persisted, s: Stream, id: Text, kind: EventKind, late: Option<Throttler.Event>, n: nat)
    requires id != EMPTY && (kind == EventDone || kind == EventError)
    requires late.Some? ==> !Throttler.Immediate(late.value.kind)
    ensures
      var p1 := PersistOne(json, p, kind, id, s.mention, s.at(n));
      var end := if late.None? then p1
                 else PersistOne(json, p1, late.value.kind, s.ids(late.value.place), s.mention, s.at(n + 1));
      IsFinal(StatusOf(end.table, id))
      <==> && !LateWrite(json, p, late, s, id, s.at(n + 1))
           && (json || !s.at(n).fails || IsFinal(StatusOf(p.table, id)))
  {
    var p1 := PersistOne(json, p, kind, id, s.mention, s.at(n));
    StatusAfterWrite(json, p, Delivery(kind, id, s.mention, s.at(n)), id);
    assert p1.last == p.last;
    if late.Some? {
      var e := late.value;
      StatusAfterWrite(json, p1, Delivery(e.kind, s.ids(e.place), s.mention, s.at(n + 1)), id);
      LateIsEffective(json, p, e, s, id, s.at(n + 1));
    }
  }

  /** The status stored after a stream whose last event, which n events precede, reports the end
      of the task that it names. It is a final one iff no event about this task is left in the
      buffer that is written after the last, and the Set of the last one took effect or the
      task was already stored as over. */
  lemma FinalStatusStays(
      json: bool, p: Persisted, s: Stream, waitFails: bool, inputs: seq<StreamWorker.Input>,
      before: seq<StreamWorker.Input>, n: nat, kind: EventKind, after: seq<StreamWorker.Input>)
    requires kind == EventDone || kind == EventError
    requires StreamWorker.Seen(inputs) == before + [StreamWorker.Parsed(kind)] + after && StreamWorker.Silent(after)
    requires n == |StreamWorker.Sent(before)| && s.ids(n) != EMPTY
    ensures
      var earlier := StreamWorker.Scanned(Throttler.INITIAL, before).delivered;
      var p1 := PersistAll(json, p, earlier, s);
      var end := PersistAll(json, p, StreamWorker.Streamed(inputs, waitFails).delivered, s);
      IsFinal(StatusOf(end.table, s.ids(n)))
      <==> && !LateWrite(json, p1, StreamWorker.Pending(before), s, s.ids(n), s.at(|earlier| + 1))
           && (json || !s.at(|earlier|).fails || IsFinal(StatusOf(p1.table, s.ids(n))))
  {
    var earlier, late := EndOfStream(waitFails, inputs, before, n, kind, after);
    StatusAfterTail(json, p, earlier, Throttler.Event(kind, n), late, s);
  }

  lemma EndOfStream(
      waitFails: bool, inputs: seq<StreamWorker.Input>, before: seq<StreamWorker.Input>, n: nat, kind: EventKind,
      after: seq<StreamWorker.Input>) returns (earlier: seq<Throttler.Event>, late: Option<Throttler.Event>)
    requires kind == EventDone || kind == EventError
    requires StreamWorker.Seen(inputs) == before + [StreamWorker.Parsed(kind)] + after && StreamWorker.Silent(after)
    requires n == |StreamWorker.Sent(before)|
    ensures earlier == StreamWorker.Scanned(Throttler.INITIAL, before).delivered && late == StreamWorker.Pending(before)
    ensures late.Some? ==> !Throttler.Immediate(late.value.kind)
    ensures StreamWorker.Streamed(inputs, waitFails).delivered
      == earlier + [Throttler.Event(kind, n)] + Throttler.AsSeq(late)
  {
    earlier, late := StreamWorker.Scanned(Throttler.INITIAL, before).delivered, StreamWorker.Pending(before);
    StreamWorker.AfterLastEvent(inputs, waitFails, before, kind, after);
    StreamWorker.PendingIsBufferable(before);
  }

  lemma StatusAfterTail(
      json: bool, p: Persisted, earlier: seq<Throttler.Event>, last: Throttler.Event, late: Option<Throttler.Event>,
      s: Stream)
    requires last.kind == EventDone || last.kind == EventError
    requires s.ids(last.place) != EMPTY && (late.Some? ==> !Throttler.Immediate(late.value.kind))
    ensures
      var id, n := s.ids(last.place), |earlier|;
      var p1 := PersistAll(json, p, earlier, s);
      var end := PersistAll(json, p, earlier + [last] + Throttler.AsSeq(late), s);
      IsFinal(StatusOf(end.table, id))
      <==> !LateWrite(json, p1, late, s, id, s.at(n + 1)) && (json || !s.at(n).fails || IsFinal(StatusOf(p1.table, id)))
  {
    PersistTail(json, p, earlier, last, late, s);
    StatusAtEnd(json, PersistAll(json, p, earlier, s), s, s.ids(last.place), last.kind, late, |earlier|);
  }

  lemma PersistTail(
      json: bool, p: Persisted, earlier: seq<Throttler.Event>, last: Throttler.Event, late: Option<Throttler.Event>,
      s: Stream)
    ensures
      var n := |earlier|;
      var p1 := PersistOne(json, PersistAll(json, p, earlier, s), last.kind, s.ids(last.place), s.mention, s.at(n));
      PersistAll(json, p, earlier + [last] + Throttler.AsSeq(late), s)
      == if late.None? then p1
         else PersistOne(json, p1, late.value.kind, s.ids(late.value.place), s.mention, s.at(n + 1))
  {
    PersistSnoc(json, p, earlier, last, s);
    if late.Some? {
      PersistSnoc(json, p, earlier + [last], late.value, s);
    } else {
      assert earlier + [last] + [] == earlier + [last];
    }
  }

  /** In either store a task that has sent one progress event and then done is stored as
      running at the end, when nothing fails. */
  lemma DoneThenRunning(json: bool, s: Stream, id: Text)
    requires id != EMPTY && s.ids(0) == id == s.ids(1) && !s.at(0).fails && !s.at(1).fails
    ensures
      var inputs := [StreamWorker.Parsed(EventProgress), StreamWorker.Parsed(EventDone)];
      StatusOf(PersistAll(json, Persisted(map[], map[]), StreamWorker.Streamed(inputs, false).delivered, s).table, id)
        == RUNNING
  {
    StreamWorker.ProgressAfterDone();
    LateProgressWritten(json, s, id);
  }

  lemma LateProgressWritten(json: bool, s: Stream, id: Text)
    requires id != EMPTY && s.ids(0) == id == s.ids(1) && !s.at(0).fails && !s.at(1).fails
    ensures
      var delivered := [Throttler.Event(EventDone, 1), Throttler.Event(EventProgress, 0)];
      StatusOf(PersistAll(json, Persisted(map[], map[]), delivered, s).table, id) == RUNNING
  {
    var p, done, progress := Persisted(map[], map[]), Throttler.Event(EventDone, 1), Throttler.Event(EventProgress, 0);
    PersistSnoc(json, p, [], done, s);
    PersistSnoc(json, p, [done], progress, s);
    assert [] + [done] == [done] && [done] + [progress] == [done, progress];
    assert PersistAll(json, p, [], s) == p;
    ProgressSetsRunning(json, PersistOne(json, p, EventDone, id, s.mention, s.at(0)), id, s.mention, s.at(1));
  }

  /** A progress event of a task that was never written as running by one sets it running. */
  lemma ProgressSetsRunning(json: bool, p: Persisted, id: Text, m: Mention, w: Moment)
    requires id != EMPTY && id !in p.last && !w.fails
    ensures StatusOf(PersistOne(json, p, EventProgress, id, m, w).table, id) == RUNNING
  {
    StatusAfterWrite(json, p, Delivery(EventProgress, id, m, w), id);
  }
}
