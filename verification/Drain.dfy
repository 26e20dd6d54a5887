/** What one completion sets off when every dispatched worker ends its task once: it reports a
    single terminal event, or it reports none and returns an error. */
module Drain {
  import opened Prelude
  import opened Protocol
  import opened Tasks
  import opened QueueSpec
  import opened QueueLemmas
  import opened Scheduler

  // ---------------------------------------------------------------- splitting the queue

  /** The waiting tasks whose channel is not busy, in order. */
  function Free(w: seq<Task>, busy: set<Text>): seq<Task>
  {
    if w == [] then []
    else (if w[0].channel in busy then [] else [w[0]]) + Free(w[1..], busy)
  }

  /** The waiting tasks whose channel is busy, in order. */
  function Blocked(w: seq<Task>, busy: set<Text>): seq<Task>
  {
    if w == [] then []
    else (if w[0].channel in busy then [w[0]] else []) + Blocked(w[1..], busy)
  }

  function Ids(w: seq<Task>): seq<Text>
  {
    if w == [] then [] else [w[0].id] + Ids(w[1..])
  }

  function GivenBack(channels: map<Text, int>, w: seq<Task>): map<Text, int>
  {
    if w == [] then channels else GivenBack(Decremented(channels, w[0].channel), w[1..])
  }

  /** The state in which every free task has been dispatched and has completed. */
  function Drained(s: Sys): Sys
  {
    var busy := BusyChannels(s.q.running);
    var free := Free(s.q.waiting, busy);
    s.(q := s.q.(waiting := Blocked(s.q.waiting, busy), channels := GivenBack(s.q.channels, free)),
       m := s.m.(completed := s.m.completed + |free|, queued := s.m.queued - |free|),
       log := s.log + Ids(free))
  }

  lemma Grouped(x: seq<Task>, y: seq<Task>, z: seq<Task>)
    ensures x + (y + z) == x + y + z
  {
  }

  lemma {:induction false} FreeConcat(a: seq<Task>, b: seq<Task>, busy: set<Text>)
    ensures Free(a + b, busy) == Free(a, busy) + Free(b, busy)
  {
    if a == [] {
      assert a + b == b;
    } else {
      assert (a + b)[0] == a[0] && (a + b)[1..] == a[1..] + b;
      FreeConcat(a[1..], b, busy);
      Grouped(if a[0].channel in busy then [] else [a[0]], Free(a[1..], busy), Free(b, busy));
    }
  }

  lemma {:induction false} BlockedConcat(a: seq<Task>, b: seq<Task>, busy: set<Text>)
    ensures Blocked(a + b, busy) == Blocked(a, busy) + Blocked(b, busy)
  {
    if a == [] {
      assert a + b == b;
    } else {
      assert (a + b)[0] == a[0] && (a + b)[1..] == a[1..] + b;
      BlockedConcat(a[1..], b, busy);
      Grouped(if a[0].channel in busy then [a[0]] else [], Blocked(a[1..], busy), Blocked(b, busy));
    }
  }

  lemma SplitConcat(a: seq<Task>, b: seq<Task>, busy: set<Text>)
    ensures Free(a + b, busy) == Free(a, busy) + Free(b, busy)
    ensures Blocked(a + b, busy) == Blocked(a, busy) + Blocked(b, busy)
  {
    FreeConcat(a, b, busy);
    BlockedConcat(a, b, busy);
  }

  lemma {:induction false} AllBusy(a: seq<Task>, busy: set<Text>)
    requires forall i :: 0 <= i < |a| ==> a[i].channel in busy
    ensures Free(a, busy) == [] && Blocked(a, busy) == a
  {
    if a != [] {
      AllBusy(a[1..], busy);
    }
  }

  lemma FreeMiddle(a: seq<Task>, t: Task, b: seq<Task>, busy: set<Text>)
    requires Free(a, busy) == [] && t.channel !in busy
    ensures Free(a + [t] + b, busy) == [t] + Free(a + b, busy)
    ensures Blocked(a + [t] + b, busy) == Blocked(a + b, busy)
  {
    SplitConcat(a + [t], b, busy);
    SplitConcat(a, [t], busy);
    SplitConcat(a, b, busy);
    FreeOne(t, busy);
    NothingAhead(Free(b, busy), t);
    assert Blocked(a, busy) + [] == Blocked(a, busy);
  }

  lemma FreeOne(t: Task, busy: set<Text>)
    requires t.channel !in busy
    ensures Free([t], busy) == [t] && Blocked([t], busy) == []
  {
  }

  lemma NothingAhead(w: seq<Task>, t: Task)
    ensures [] + [t] + w == [t] + w && [] + w == w
  {
  }

  lemma FreeFirst(w: seq<Task>, busy: set<Text>)
    ensures
      var i := FirstFree(w, busy);
      if i == |w| then Free(w, busy) == [] && Blocked(w, busy) == w
      else
        && Free(w, busy) == [w[i]] + Free(RemoveAt(w, i), busy)
        && Blocked(w, busy) == Blocked(RemoveAt(w, i), busy)
  {
    var i := FirstFree(w, busy);
    AllBusy(w[..i], busy);
    if i == |w| {
      assert w[..i] == w;
    } else {
      FreeMiddle(w[..i], w[i], w[i + 1..], busy);
      assert w == w[..i] + [w[i]] + w[i + 1..];
    }
  }

  /** After the drain a channel's counter is down by its dispatched tasks. */
  lemma {:induction false} GivenBackCount(channels: map<Text, int>, w: seq<Task>, c: Text)
    requires Count(channels, c) >= |IdsOn(w, c)|
    ensures Count(GivenBack(channels, w), c) == Count(channels, c) - |IdsOn(w, c)|
  {
    if w != [] {
      FirstOnChannel(w, c);
      CountGivenBack(channels, w[0].channel, c);
      GivenBackCount(Decremented(channels, w[0].channel), w[1..], c);
    }
  }

  lemma FirstOnChannel(w: seq<Task>, c: Text)
    requires w != []
    ensures |IdsOn(w, c)| == |IdsOn(w[1..], c)| + if w[0].channel == c then 1 else 0
  {
    assert w == [w[0]] + w[1..];
    IdsOnConcat([w[0]], w[1..], c);
    IdsOnOne(w[0], c);
  }

  lemma CountGivenBack(channels: map<Text, int>, given: Text, c: Text)
    ensures given != c ==> Count(Decremented(channels, given), c) == Count(channels, c)
    ensures given == c && Count(channels, c) >= 1 ==> Count(Decremented(channels, given), c) == Count(channels, c) - 1
  {
  }

  lemma {:induction false} FreeOfChannel(w: seq<Task>, busy: set<Text>, c: Text)
    ensures IdsOn(Free(w, busy), c) == if c in busy then [] else IdsOn(w, c)
  {
    if w != [] {
      var rest := Free(w[1..], busy);
      FreeOfChannel(w[1..], busy, c);
      assert w == [w[0]] + w[1..];
      IdsOnConcat([w[0]], w[1..], c);
      IdsOnOne(w[0], c);
      if w[0].channel in busy {
        assert Free(w, busy) == rest;
        assert c !in busy ==> IdsOn([w[0]], c) == [];
      } else {
        assert Free(w, busy) == [w[0]] + rest;
        IdsOnConcat([w[0]], rest, c);
        assert c in busy ==> IdsOn([w[0]], c) == [];
      }
    }
  }

  /** The drain empties the counter of an idle channel by its waiting tasks and leaves the
      counter of a busy one alone. */
  lemma DrainedCounters(s: Sys, c: Text)
    requires Count(s.q.channels, c) >= |IdsOn(s.q.waiting, c)|
    ensures Count(Drained(s).q.channels, c)
      == Count(s.q.channels, c) - if c in BusyChannels(s.q.running) then 0 else |IdsOn(s.q.waiting, c)|
  {
    var busy := BusyChannels(s.q.running);
    FreeOfChannel(s.q.waiting, busy, c);
    GivenBackCount(s.q.channels, Free(s.q.waiting, busy), c);
  }

  // ---------------------------------------------------------------- workers that end once

  predicate NoTerminal(calls: seq<WorkerCall>)
  {
    forall i :: 0 <= i < |calls| ==> !IsTerminal(calls[i])
  }

  predicate OneTerminal(calls: seq<WorkerCall>)
  {
    exists i :: 0 <= i < |calls| && IsTerminal(calls[i]) && NoTerminal(calls[..i]) && NoTerminal(calls[i + 1..])
  }

  /** One terminal call and no error, or an error and no terminal call. */
  predicate EndsOnce(run: WorkerRun)
  {
    run.Ran? && if run.failed then NoTerminal(run.calls) else OneTerminal(run.calls)
  }

  ghost predicate OrderlyWorkers(env: Env)
  {
    env.onDequeue.Some? && forall id :: EndsOnce(env.onDequeue.value(id))
  }

  /** Calls that come after the terminal one no longer touch the queue. */
  lemma {:induction false} LateCalls(s: Sys, id: Text, calls: seq<WorkerCall>, env: Env)
    requires NoTerminal(calls) && id !in s.q.running
    ensures Calls(s, id, calls, env) == s
  {
    if calls != [] {
      LateCalls(s, id, calls[1..], env);
    }
  }

  lemma EarlyCall(s: Sys, id: Text, call: WorkerCall, env: Env)
    requires !IsTerminal(call)
    ensures Complete(Call(s, id, call, env), id) == Complete(s, id)
  {
    assert MarkedDispatched(s.q, id, env.clock(id)).running - {id} == s.q.running - {id};
  }

  /** Calls without a terminal one leave the task as it was, but for its status. */
  lemma {:induction false} EarlyCalls(s: Sys, id: Text, calls: seq<WorkerCall>, env: Env)
    requires NoTerminal(calls)
    ensures Complete(Calls(s, id, calls, env), id) == Complete(s, id)
    decreases |calls|
  {
    if calls != [] {
      EarlyCall(s, id, calls[0], env);
      EarlyCalls(Call(s, id, calls[0], env), id, calls[1..], env);
    }
  }

  /** Up to its terminal call a task changes nothing but its own status. */
  lemma {:induction false} StreamIsCompletion(s: Sys, id: Text, calls: seq<WorkerCall>, at: nat, env: Env)
    requires at < |calls| && IsTerminal(calls[at]) && NoTerminal(calls[..at]) && NoTerminal(calls[at + 1..])
    requires id !in MarkDone(s, id, env).q.running
    ensures Calls(s, id, calls, env) == MarkDone(s, id, env)
    decreases at
  {
    if at == 0 {
      LateCalls(MarkDone(s, id, env), id, calls[1..], env);
    } else {
      assert calls[..at][0] == calls[0];
      var s' := Call(s, id, calls[0], env);
      EarlyCall(s, id, calls[0], env);
      assert calls[1..][..at - 1] == calls[..at][1..];
      assert calls[1..][at..] == calls[at + 1..];
      StreamIsCompletion(s', id, calls[1..], at - 1, env);
    }
  }

  lemma DispatchIsCompletion(s: Sys, id: Text, env: Env)
    requires OrderlyWorkers(env) && id !in MarkDone(s, id, env).q.running
    ensures Dispatch(s, id, env) == MarkDone(s, id, env)
  {
    assert EndsOnce(env.onDequeue.value(id));
    var calls := env.onDequeue.value(id).calls;
    if env.onDequeue.value(id).failed {
      EarlyCalls(s, id, calls, env);
    } else {
      var at :| 0 <= at < |calls| && IsTerminal(calls[at]) && NoTerminal(calls[..at]) && NoTerminal(calls[at + 1..]);
      StreamIsCompletion(s, id, calls, at, env);
    }
  }

  // ---------------------------------------------------------------- the drain

  lemma PrependTask(t: Task, rest: seq<Task>, channels: map<Text, int>)
    ensures Ids([t] + rest) == [t.id] + Ids(rest)
    ensures GivenBack(channels, [t] + rest) == GivenBack(Decremented(channels, t.channel), rest)
  {
    assert ([t] + rest)[1..] == rest;
  }

  /** The state without its first free task, which has come and gone. */
  function OneGone(s: Sys, i: nat): Sys
    requires i < |s.q.waiting|
  {
    var t := s.q.waiting[i];
    s.(q := s.q.(waiting := RemoveAt(s.q.waiting, i), channels := Decremented(s.q.channels, t.channel)),
       m := s.m.(queued := s.m.queued - 1, completed := s.m.completed + 1),
       log := s.log + [t.id])
  }

  lemma RoundState(s: Sys, env: Env)
    requires Consistent(s.q) && Disjoint(s.q) && FindNextEligible(s.q).Some?
    ensures
      var i := FirstFree(s.q.waiting, BusyChannels(s.q.running));
      i < |s.q.waiting| &&
      var t := s.q.waiting[i];
      FindNextEligible(s.q) == Some(t) && Complete(Dequeue(s, env), t.id) == OneGone(s, i)
  {
    var t := FindNextEligible(s.q).value;
    DequeueMovesLeastEligible(s.q, env.clock(t.id));
    assert s.q.running[t.id := Transitioned(t, Dispatching, env.clock(t.id))] - {t.id} == s.q.running;
  }

  lemma OneGoneDrains(s: Sys)
    requires FirstFree(s.q.waiting, BusyChannels(s.q.running)) < |s.q.waiting|
    ensures Drained(OneGone(s, FirstFree(s.q.waiting, BusyChannels(s.q.running)))) == Drained(s)
  {
    var busy := BusyChannels(s.q.running);
    var i := FirstFree(s.q.waiting, busy);
    FreeFirst(s.q.waiting, busy);
    PrependTask(s.q.waiting[i], Free(RemoveAt(s.q.waiting, i), busy), s.q.channels);
  }

  lemma OneGoneSound(s: Sys, i: nat)
    requires i < |s.q.waiting|
    ensures Consistent(s.q) ==> Consistent(OneGone(s, i).q)
    ensures Disjoint(s.q) ==> Disjoint(OneGone(s, i).q)
  {
  }

  lemma NothingFree(s: Sys)
    requires FindNextEligible(s.q).None? && |s.q.running| < s.q.limit
    ensures Drained(s) == s
  {
    FreeFirst(s.q.waiting, BusyChannels(s.q.running));
  }

  lemma {:induction false} TryDequeueDrains(s: Sys, env: Env)
    requires Consistent(s.q) && Disjoint(s.q) && OrderlyWorkers(env) && |s.q.running| < s.q.limit
    ensures TryDequeue(s, env) == Drained(s)
    decreases |s.q.waiting|
  {
    var next := FindNextEligible(s.q);
    if next.None? {
      NothingFree(s);
    } else {
      var i := FirstFree(s.q.waiting, BusyChannels(s.q.running));
      RoundState(s, env);
      OneGoneSound(s, i);
      OneGoneDrains(s);
      TryDequeueDrains(OneGone(s, i), env);
      OneRound(s, next.value.id, env);
    }
  }

  /** The first round, when the rest of the drain is known. */
  lemma OneRound(s: Sys, id: Text, env: Env)
    requires OrderlyWorkers(env) && FindNextEligible(s.q).Some? && id == FindNextEligible(s.q).value.id
    requires var s2 := Complete(Dequeue(s, env), id);
      TryDequeue(s2, env) == Drained(s2) && Drained(s2) == Drained(s) && id !in Drained(s).q.running
    ensures TryDequeue(s, env) == Drained(s)
  {
    assert MarkDone(Dequeue(s, env), id, env) == Drained(s);
    DispatchIsCompletion(Dequeue(s, env), id, env);
  }

  /** One MarkDone ends. If it leaves room below the limit, it dispatches exactly the waiting
      tasks whose channel does not run, in order, and all of them complete; otherwise it
      dispatches nothing. */
  lemma MarkDoneDrains(s: Sys, id: Text, env: Env)
    requires Consistent(s.q) && Disjoint(s.q) && OrderlyWorkers(env)
    ensures
      var s1 := Complete(s, id);
      MarkDone(s, id, env) == if |s1.q.running| < s.q.limit then Drained(s1) else s1
  {
    var s1 := Complete(s, id);
    if |s1.q.running| < s.q.limit {
      TryDequeueDrains(s1, env);
    }
  }

  /** Whatever the workers do, no completion leaves more tasks waiting, and without a
      dequeue callback completing a running task does not make more tasks run. */
  lemma CompletionWithoutCallback(s: Sys, id: Text, env: Env)
    requires env.onDequeue.None? && id in s.q.running
    ensures |MarkDone(s, id, env).q.running| <= |s.q.running|
  {
    var s1 := Complete(s, id);
    WithoutOne(s.q.running, id);
    assert MarkDone(s, id, env) == Dequeue(s1, env);
    AtMostOneMore(s1, env);
  }

  lemma WithoutOne(m: map<Text, Task>, k: Text)
    requires k in m
    ensures |m - {k}| == |m| - 1
  {
    assert (m - {k}).Keys == m.Keys - {k};
    assert |(m - {k}).Keys| == |m - {k}|;
  }

  lemma WithOne(m: map<Text, Task>, k: Text, t: Task)
    ensures |m[k := t]| <= |m| + 1
  {
    assert m[k := t].Keys == m.Keys + {k};
    assert |m.Keys + {k}| <= |m.Keys| + 1;
  }

  lemma AtMostOneMore(s: Sys, env: Env)
    ensures |Dequeue(s, env).q.running| <= |s.q.running| + 1
  {
    if FindNextEligible(s.q).Some? {
      var t := FindNextEligible(s.q).value;
      WithOne(s.q.running, t.id, Transitioned(t, Dispatching, env.clock(t.id)));
    }
  }
}
