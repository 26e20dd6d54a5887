/** The throttler as an object, and the event loop of the Python worker that drives it. */
module StreamWorker {
  import opened Prelude
  import opened Protocol
  import opened Throttler

  /** The delivery of a taken event, if there was one to take. */
  function Delivering(s: State, o: Option<Event>): State
    requires o.Some? ==> o.value in s.taken
  {
    match o case None => s case Some(e) => Act(s, Deliver(e))
  }

  function Flushed(s: State): (r: State)
    requires s.holder.None?
    ensures r.delivered == s.delivered + AsSeq(s.buffer)
  {
    Delivering(Act(s, FlushTake), s.buffer)
  }

  function Fired(s: State): State
    requires s.holder.None? && s.firings > 0
  {
    Delivering(Act(s, Fire), s.buffer)
  }

  function Stopped(s: State): State
    requires s.holder.None?
  {
    var s' := Act(s, StopTake);
    if s'.holder.Some? then Act(s', StopDeliver) else s'
  }

  /** The throttler's own timer expires and its callback runs to the end. */
  function TimedOut(s: State): State
    requires s.holder.None?
  {
    if s.timer.Some? && s.timer.value in s.armed then Fired(Act(s, Expire(s.timer.value))) else s
  }

  class MessageThrottler {
    var buffer: Option<Event>
    var timer: Option<nat>
    var stopped: bool
    var delivered: seq<Event>  // the calls of flushFn
    var armed: set<nat>        // the timers of the runtime
    var timers: nat
    var pushes: nat
    ghost var view: State

    ghost predicate Valid()
      reads this
    {
      && view.buffer == buffer && view.timer == timer && view.stopped == stopped
      && view.delivered == delivered && view.armed == armed && view.timers == timers
      && |view.pushed| == pushes && view.holder.None?
    }

    constructor ()
      ensures Valid() && view == INITIAL
    {
      buffer, timer, stopped, delivered := None, None, false, [];
      armed, timers, pushes := {}, 0, 0;
      view := INITIAL;
    }

    method Push(kind: EventKind)
      requires Valid()
      modifies this
      ensures Valid() && view == Act(old(view), Throttler.Push(kind))
    {
      var event := Event(kind, pushes);
      pushes := pushes + 1;
      view := Act(view, Throttler.Push(kind));
      if Immediate(kind) {
        delivered := delivered + [event];
        return;
      }
      if stopped {
        return;
      }
      buffer := Some(event);
      if timer.None? {
        timer := Some(timers);
        timers := timers + 1;
      }
      armed := armed + {timer.value};
    }

    method StopTimer()
      modifies this`armed, this`timer
      ensures timer == None
      ensures armed == if old(timer).Some? then old(armed) - {old(timer).value} else old(armed)
    {
      if timer.Some? {
        armed := armed - {timer.value};
        timer := None;
      }
    }

    method Stop()
      requires Valid()
      modifies this
      ensures Valid() && view == Stopped(old(view))
    {
      view := Stopped(view);
      StopTimer();
      var buf := buffer;
      buffer := None;
      stopped := true;
      if buf.Some? {
        delivered := delivered + [buf.value];
      }
    }

    /** The locked part of Flush. */
    method TakeForFlush() returns (buf: Option<Event>)
      requires Valid()
      modifies this
      ensures Valid() && view == Act(old(view), FlushTake) && buf == old(buffer)
    {
      view := Act(view, FlushTake);
      buf := buffer;
      buffer := None;
      StopTimer();
    }

    /** The locked part of the timer callback. */
    method TakeOnTimer() returns (buf: Option<Event>)
      requires Valid() && view.firings > 0
      modifies this
      ensures Valid() && view == Act(old(view), Fire) && buf == old(buffer)
    {
      view := Act(view, Fire);
      buf := buffer;
      buffer := None;
      timer := None;
    }

    /** The call of flushFn after the lock has been given back. */
    method CallFlushFn(buf: Option<Event>)
      requires Valid() && (buf.Some? ==> buf.value in view.taken)
      modifies this
      ensures Valid() && view == Delivering(old(view), buf)
    {
      if buf.Some? {
        delivered := delivered + [buf.value];
        view := Act(view, Deliver(buf.value));
      }
    }

    method Flush()
      requires Valid()
      modifies this
      ensures Valid() && view == Flushed(old(view))
    {
      var buf := TakeForFlush();
      CallFlushFn(buf);
    }

    /** flush, the timer callback. */
    method OnTimer()
      requires Valid() && view.firings > 0
      modifies this
      ensures Valid() && view == Fired(old(view))
    {
      var buf := TakeOnTimer();
      CallFlushFn(buf);
    }

    /** The runtime lets the throttler's current timer expire. */
    method ExpireTimer()
      requires Valid()
      modifies this
      ensures Valid() && view == TimedOut(old(view))
    {
      if timer.Some? && timer.value in armed {
        view := Act(view, Expire(timer.value));
        armed := armed - {timer.value};
        OnTimer();
      }
    }
  }

  // ---------------------------------------------------------------- the event loop

  /** What the loop meets: a line of output (blank, not JSON, or an event), the timer, the
      worker being stopped, or the context running out of time. */
  datatype Input = Blank | Malformed | Parsed(kind: EventKind) | Timer | WorkerStopped | ContextDone

  datatype Outcome = Finished | StoppedEarly | ContextTimedOut | ProcessFailed

  predicate Ends(i: Input)
  {
    i == WorkerStopped || i == ContextDone
  }

  /** The inputs the loop gets to see: those before the first one that ends it. */
  function Seen(inputs: seq<Input>): (r: seq<Input>)
    ensures |r| <= |inputs| && r == inputs[..|r|]
    ensures forall i :: 0 <= i < |r| ==> !Ends(r[i])
    ensures |r| < |inputs| ==> Ends(inputs[|r|])
  {
    if inputs == [] || Ends(inputs[0]) then [] else [inputs[0]] + Seen(inputs[1..])
  }

  /** The kinds of the events the worker sent, in order. */
  function Sent(inputs: seq<Input>): seq<EventKind>
  {
    if inputs == [] then []
    else if inputs[0].Parsed? then [inputs[0].kind] + Sent(inputs[1..])
    else Sent(inputs[1..])
  }

  function Met(s: State, i: Input): (r: State)
    requires s.holder.None?
    ensures r.holder.None?
  {
    match i
    case Parsed(kind) => Act(s, Throttler.Push(kind))
    case Timer => TimedOut(s)
    case _ => s
  }

  function Scanned(s: State, inputs: seq<Input>): (r: State)
    requires s.holder.None?
    ensures r.holder.None?
    decreases |inputs|
  {
    if inputs == [] then s else Scanned(Met(s, inputs[0]), inputs[1..])
  }

  /** The throttler at the end of a whole run: the loop, the flush of a run that ends well,
      and the deferred Stop. */
  function Streamed(inputs: seq<Input>, waitFails: bool): State
  {
    var s := Scanned(INITIAL, Seen(inputs));
    Stopped(if Seen(inputs) == inputs && !waitFails then Flushed(s) else s)
  }

  lemma ScanStep(s: State, inputs: seq<Input>)
    requires s.holder.None? && inputs != [] && !Ends(inputs[0])
    ensures Scanned(s, Seen(inputs)) == Scanned(Met(s, inputs[0]), Seen(inputs[1..]))
    ensures Seen(inputs) == inputs <==> Seen(inputs[1..]) == inputs[1..]
  {
    var rest := Seen(inputs[1..]);
    assert ([inputs[0]] + rest)[1..] == rest;
    assert inputs == [inputs[0]] + inputs[1..];
  }

  lemma ScanStepAt(s: State, inputs: seq<Input>, i: nat)
    requires s.holder.None? && i < |inputs| && !Ends(inputs[i])
    ensures Scanned(s, Seen(inputs[i..])) == Scanned(Met(s, inputs[i]), Seen(inputs[i + 1..]))
    ensures |Seen(inputs[i..])| == 1 + |Seen(inputs[i + 1..])|
  {
    assert inputs[i..][1..] == inputs[i + 1..] && inputs[i..][0] == inputs[i];
    ScanStep(s, inputs[i..]);
  }

  /** The loop over the worker's output; early is how the loop was left before its end. */
  method Scan(throttler: MessageThrottler, inputs: seq<Input>) returns (early: Option<Outcome>)
    requires throttler.Valid()
    modifies throttler
    ensures throttler.Valid() && throttler.view == Scanned(old(throttler.view), Seen(inputs))
    ensures early.None? <==> Seen(inputs) == inputs
    ensures early.Some? ==> |Seen(inputs)| < |inputs|
    ensures early == Some(StoppedEarly) <==> |Seen(inputs)| < |inputs| && inputs[|Seen(inputs)|] == WorkerStopped
    ensures early == Some(ContextTimedOut) <==> |Seen(inputs)| < |inputs| && inputs[|Seen(inputs)|] == ContextDone
  {
    for i := 0 to |inputs|
      invariant throttler.Valid()
      invariant Scanned(throttler.view, Seen(inputs[i..])) == Scanned(old(throttler.view), Seen(inputs))
      invariant |Seen(inputs)| == i + |Seen(inputs[i..])|
    {
      if Ends(inputs[i]) {
        return Some(if inputs[i] == WorkerStopped then StoppedEarly else ContextTimedOut);
      }
      ScanStepAt(throttler.view, inputs, i);
      Meet(throttler, inputs[i]);
    }
    early := None;
  }

  method Meet(throttler: MessageThrottler, i: Input)
    requires throttler.Valid()
    modifies throttler
    ensures throttler.Valid() && throttler.view == Met(old(throttler.view), i)
  {
    match i {
      case Parsed(kind) => throttler.Push(kind);
      case Timer => throttler.ExpireTimer();
      case _ =>
    }
  }

  /** A process that exits badly counts as timed out when the context has expired by then. */
  method ExecutePython(inputs: seq<Input>, scanFails: bool, waitFails: bool, expired: bool)
    returns (outcome: Outcome, delivered: seq<Event>, scanErrorReported: bool)
    ensures delivered == Streamed(inputs, waitFails).delivered
    ensures
      var n := |Seen(inputs)|;
      && (outcome == Finished <==> n == |inputs| && !waitFails)
      && (outcome == StoppedEarly <==> n < |inputs| && inputs[n] == WorkerStopped)
      && (outcome == ContextTimedOut <==>
            if n < |inputs| then inputs[n] == ContextDone else waitFails && expired)
      && (outcome == ProcessFailed <==> n == |inputs| && waitFails && !expired)
    ensures scanErrorReported == (scanFails && |Seen(inputs)| == |inputs|)
  {
    var throttler := new MessageThrottler();
    var early := Scan(throttler, inputs);
    scanErrorReported := early.None? && scanFails;
    if early.Some? {
      outcome := early.value;
    } else if waitFails {
      outcome := if expired then ContextTimedOut else ProcessFailed;
    } else {
      throttler.Flush();
      outcome := Finished;
    }
    throttler.Stop();
    delivered := throttler.delivered;
  }

  // ---------------------------------------------------------------- the shape of the stream

  /** Between two steps of the loop nothing is on its way: what left the buffer is out. */
  predicate Calm(s: State)
  {
    && PlacesSound(s) && Ordered(s)
    && !s.stopped && s.holder.None? && s.taken == multiset{}
    && Bufferables(s.delivered) == s.takes
    && Immediates(s.delivered) == Immediates(s.pushed)
    && (s.buffer.Some? ==> !Immediate(s.buffer.value.kind))
  }

  lemma PushImmediateCalm(s: State, e: Event)
    requires Calm(s) && Immediate(e.kind) && e.place == |s.pushed|
    ensures Calm(s.(pushed := s.pushed + [e], delivered := s.delivered + [e]))
  {
    Snoc(s.pushed, e);
    Snoc(s.delivered, e);
  }

  lemma PushBufferedCalm(s: State, e: Event)
    requires Calm(s) && !Immediate(e.kind) && e.place == |s.pushed|
    ensures Calm(Buffered(s, e))
  {
    Snoc(s.pushed, e);
    BufferedOrder(s, e);
  }

  lemma PushCalm(s: State, kind: EventKind)
    requires Calm(s)
    ensures Calm(Act(s, Throttler.Push(kind)))
    ensures Act(s, Throttler.Push(kind)).pushed == s.pushed + [Event(kind, |s.pushed|)]
  {
    if Immediate(kind) {
      PushImmediateCalm(s, Event(kind, |s.pushed|));
    } else {
      PushBufferedCalm(s, Event(kind, |s.pushed|));
    }
  }

  lemma TakeCalm(s: State, s': State)
    requires Calm(s) && s'.pushed == s.pushed && !s'.stopped && s'.holder.None? && s'.taken == s.taken
    requires s'.buffer.None? && s'.takes == Line(s) && s'.delivered == s.delivered + AsSeq(s.buffer)
    ensures Calm(s')
  {
    assert Line(s') == Line(s);
    if s.buffer.Some? {
      Snoc(s.delivered, s.buffer.value);
    } else {
      assert s'.delivered == s.delivered && s'.takes == s.takes;
    }
  }

  lemma TimedOutFields(s: State)
    requires s.holder.None? && s.taken == multiset{} && s.timer.Some? && s.timer.value in s.armed
    ensures
      var r := TimedOut(s);
      && r.taken == multiset{} && r.takes == Line(s) && r.buffer.None? && r.delivered == s.delivered + AsSeq(s.buffer)
      && r.pushed == s.pushed && r.stopped == s.stopped && r.holder.None?
  {
    if s.buffer.Some? {
      assert multiset{} + multiset([s.buffer.value]) - multiset{s.buffer.value} == multiset{};
    } else {
      assert s.delivered + [] == s.delivered;
    }
  }

  lemma TimedOutCalm(s: State)
    requires Calm(s)
    ensures Calm(TimedOut(s)) && TimedOut(s).pushed == s.pushed
  {
    if s.timer.Some? && s.timer.value in s.armed {
      TimedOutFields(s);
      TakeCalm(s, TimedOut(s));
    }
  }

  function Kinds(s: seq<Event>): seq<EventKind>
  {
    seq(|s|, i requires 0 <= i < |s| => s[i].kind)
  }

  lemma KindsSnoc(s: seq<Event>, e: Event)
    ensures Kinds(s + [e]) == Kinds(s) + [e.kind]
  {
  }

  lemma MetCalm(s: State, i: Input)
    requires Calm(s)
    ensures Calm(Met(s, i))
  {
    match i {
      case Parsed(kind) => PushCalm(s, kind);
      case Timer => TimedOutCalm(s);
      case _ =>
    }
  }

  lemma {:induction false} ScannedCalm(s: State, inputs: seq<Input>)
    requires Calm(s)
    ensures Calm(Scanned(s, inputs))
    decreases |inputs|
  {
    if inputs != [] {
      MetCalm(s, inputs[0]);
      ScannedCalm(Met(s, inputs[0]), inputs[1..]);
    }
  }

  lemma MetKinds(s: State, i: Input)
    requires s.holder.None? && !s.stopped
    ensures !Met(s, i).stopped
    ensures Kinds(Met(s, i).pushed) == Kinds(s.pushed) + if i.Parsed? then [i.kind] else []
  {
    if i.Parsed? {
      assert Met(s, i).pushed == s.pushed + [Event(i.kind, |s.pushed|)];
      KindsSnoc(s.pushed, Event(i.kind, |s.pushed|));
    }
  }

  lemma {:induction false} ScannedKinds(s: State, inputs: seq<Input>)
    requires s.holder.None? && !s.stopped
    ensures Kinds(Scanned(s, inputs).pushed) == Kinds(s.pushed) + Sent(inputs)
    decreases |inputs|
  {
    if inputs != [] {
      MetKinds(s, inputs[0]);
      ScannedKinds(Met(s, inputs[0]), inputs[1..]);
    }
  }

  lemma FlushedFields(s: State)
    requires s.holder.None? && s.taken == multiset{}
    ensures
      var r := Flushed(s);
      && r.taken == multiset{} && r.takes == Line(s) && r.buffer.None?
      && r.pushed == s.pushed && r.stopped == s.stopped && r.holder.None?
  {
    if s.buffer.Some? {
      assert multiset{} + multiset([s.buffer.value]) - multiset{s.buffer.value} == multiset{};
    }
  }

  lemma FlushedCalm(s: State)
    requires Calm(s)
    ensures Calm(Flushed(s)) && Flushed(s).pushed == s.pushed
  {
    FlushedFields(s);
    TakeCalm(s, Flushed(s));
  }

  /** Nothing is left behind, the immediate events are all there in order, and the others are
      a selection of the ones sent that keeps their order and includes the last. */
  predicate WellShaped(delivered: seq<Event>, pushed: seq<Event>)
  {
    && Immediates(delivered) == Immediates(pushed)
    && IsSubsequence(Bufferables(delivered), Bufferables(pushed))
    && (Bufferables(pushed) != [] ==>
          Bufferables(delivered) != [] && Last(Bufferables(delivered)) == Last(Bufferables(pushed)))
  }

  /** What was delivered and what the buffer still holds, next to what was sent. */
  predicate InShape(d: seq<Event>, buffer: Option<Event>, pushed: seq<Event>)
  {
    var line := Bufferables(d) + AsSeq(buffer);
    && Immediates(d) == Immediates(pushed)
    && (buffer.Some? ==> !Immediate(buffer.value.kind))
    && IsSubsequence(line, Bufferables(pushed))
    && (Bufferables(pushed) != [] ==> line != [] && Last(line) == Last(Bufferables(pushed)))
  }

  lemma CalmShape(s: State)
    requires Calm(s)
    ensures InShape(s.delivered, s.buffer, s.pushed)
  {
    assert Line(s) == Bufferables(s.delivered) + AsSeq(s.buffer);
  }

  lemma StoppedShape(s: State)
    requires s.holder.None? && InShape(s.delivered, s.buffer, s.pushed)
    ensures Stopped(s).pushed == s.pushed && WellShaped(Stopped(s).delivered, s.pushed)
  {
    StopDelivers(s);
    ShapeWithBuffer(s.delivered, s.buffer, s.pushed);
  }

  lemma ShapeWithBuffer(d: seq<Event>, buffer: Option<Event>, pushed: seq<Event>)
    requires InShape(d, buffer, pushed)
    ensures WellShaped(d + AsSeq(buffer), pushed)
  {
    if buffer.Some? {
      Snoc(d, buffer.value);
    } else {
      assert d + [] == d && Bufferables(d) + [] == Bufferables(d);
    }
  }

  /** The output of a whole run, however it ends and whenever the timer fires. */
  lemma StreamShape(inputs: seq<Input>, waitFails: bool)
    ensures WellShaped(Streamed(inputs, waitFails).delivered, Streamed(inputs, waitFails).pushed)
    ensures Kinds(Streamed(inputs, waitFails).pushed) == Sent(Seen(inputs))
  {
    var s := Scanned(INITIAL, Seen(inputs));
    ScannedCalm(INITIAL, Seen(inputs));
    ScannedKinds(INITIAL, Seen(inputs));
    FlushedCalm(s);
    CalmShape(s);
    CalmShape(Flushed(s));
    StoppedShape(s);
    StoppedShape(Flushed(s));
  }

  // ---------------------------------------------------------------- push order

  predicate InPushOrder(d: seq<Event>)
  {
    forall i, j :: 0 <= i < j < |d| ==> d[i].place < d[j].place
  }

  /** Whether some event comes out after one that was sent later. An event may be waiting in the
      buffer, and an immediate event may have overtaken it; it matters only if the waiting
      event is then let out, by the timer or at the end, and not replaced first. */
  predicate Reorders(inputs: seq<Input>, pending: bool, overtaken: bool)
  {
    if inputs == [] then overtaken
    else match inputs[0]
      case Parsed(kind) =>
        if Immediate(kind) then Reorders(inputs[1..], pending, pending) else Reorders(inputs[1..], true, false)
      case Timer => overtaken || Reorders(inputs[1..], false, false)
      case _ => Reorders(inputs[1..], pending, overtaken)
  }

  /** Whether an event waits in the buffer, and whether the last one delivered overtook it. */
  predicate Tracked(s: State, pending: bool, overtaken: bool)
  {
    && s.holder.None? && !s.stopped
    && (forall i :: 0 <= i < |s.delivered| ==> s.delivered[i].place < |s.pushed|)
    && pending == s.buffer.Some?
    && (overtaken ==> pending)
    && (pending ==>
          && s.buffer.value.place < |s.pushed| && s.timer.Some? && s.timer.value in s.armed
          && Overtaken(s.delivered, s.buffer.value, overtaken))
  }

  predicate Overtaken(d: seq<Event>, e: Event, overtaken: bool)
  {
    if overtaken then d != [] && e.place < Last(d).place else d == [] || Last(d).place < e.place
  }

  lemma OrderSnoc(d: seq<Event>, e: Event)
    ensures InPushOrder(d + [e]) <==> InPushOrder(d) && (d == [] || Last(d).place < e.place)
  {
    var d' := d + [e];
    if InPushOrder(d') {
      forall i, j | 0 <= i < j < |d|
        ensures d[i].place < d[j].place
      {
        assert d'[i] == d[i] && d'[j] == d[j];
      }
      assert d != [] ==> d'[|d| - 1] == Last(d) && d'[|d|] == e;
    }
  }

  lemma TimedOutTracked(s: State, overtaken: bool)
    requires Tracked(s, true, overtaken)
    ensures Tracked(TimedOut(s), false, false)
    ensures TimedOut(s).delivered == s.delivered + [s.buffer.value]
  {
  }

  lemma PushTracked(s: State, kind: EventKind, pending: bool, overtaken: bool)
    requires Tracked(s, pending, overtaken)
    ensures
      var s' := Act(s, Throttler.Push(kind));
      if Immediate(kind) then
        Tracked(s', pending, pending) && s'.delivered == s.delivered + [Event(kind, |s.pushed|)]
      else Tracked(s', true, false) && s'.delivered == s.delivered
  {
  }

  /** One input: the event it lets out is late iff it was overtaken. */
  lemma MetInOrder(s: State, i: Input, pending: bool, overtaken: bool)
    requires Tracked(s, pending, overtaken)
    ensures
      match i
      case Parsed(kind) => Tracked(Met(s, i), pending || !Immediate(kind), pending && Immediate(kind))
      case Timer => Tracked(Met(s, i), false, false)
      case _ => Met(s, i) == s
    ensures InPushOrder(Met(s, i).delivered) <==> InPushOrder(s.delivered) && !(i == Timer && overtaken)
  {
    match i {
      case Parsed(kind) =>
        PushTracked(s, kind, pending, overtaken);
        OrderSnoc(s.delivered, Event(kind, |s.pushed|));
      case Timer =>
        if pending {
          TimedOutTracked(s, overtaken);
          OrderSnoc(s.delivered, s.buffer.value);
        }
      case _ =>
    }
  }

  lemma {:induction false} OrderOfScan(s: State, inputs: seq<Input>, pending: bool, overtaken: bool)
    requires Tracked(s, pending, overtaken)
    ensures InPushOrder(Stopped(Scanned(s, inputs)).delivered)
      <==> InPushOrder(s.delivered) && !Reorders(inputs, pending, overtaken)
    decreases |inputs|
  {
    if inputs == [] {
      OrderAtEnd(s, pending, overtaken);
    } else {
      var s' := Met(s, inputs[0]);
      MetInOrder(s, inputs[0], pending, overtaken);
      match inputs[0] {
        case Parsed(kind) =>
          OrderOfScan(s', inputs[1..], pending || !Immediate(kind), pending && Immediate(kind));
        case Timer => OrderOfScan(s', inputs[1..], false, false);
        case _ => OrderOfScan(s', inputs[1..], pending, overtaken);
      }
    }
  }

  lemma OrderAtEnd(s: State, pending: bool, overtaken: bool)
    requires Tracked(s, pending, overtaken)
    ensures InPushOrder(Stopped(s).delivered) <==> InPushOrder(s.delivered) && !overtaken
  {
    if pending {
      OrderSnoc(s.delivered, s.buffer.value);
      StopDelivers(s);
    } else {
      assert Stopped(s).delivered == s.delivered;
    }
  }

  lemma StopDelivers(s: State)
    requires s.holder.None?
    ensures Stopped(s).delivered == s.delivered + AsSeq(s.buffer)
  {
  }

  /** Whether the final flush happens or not, Stop lets out what is left. */
  lemma FlushThenStop(s: State)
    requires s.holder.None?
    ensures Flushed(s).holder.None? && Stopped(Flushed(s)).delivered == Stopped(s).delivered
  {
    StopDelivers(s);
    StopDelivers(Flushed(s));
  }

  /** The stream comes out in the order in which it was sent iff no event waits in the buffer
      while an immediate one overtakes it and is then let out without being replaced. */
  lemma StreamInPushOrder(inputs: seq<Input>, waitFails: bool)
    ensures InPushOrder(Streamed(inputs, waitFails).delivered) <==> !Reorders(Seen(inputs), false, false)
  {
    OrderOfScan(INITIAL, Seen(inputs), false, false);
    FlushThenStop(Scanned(INITIAL, Seen(inputs)));
  }

  /** The shortest such stream: the progress event comes out after the done event. */
  lemma ProgressAfterDone()
    ensures
      var inputs := [Parsed(EventProgress), Parsed(EventDone)];
      && Streamed(inputs, false).delivered == [Event(EventDone, 1), Event(EventProgress, 0)]
      && Reorders(Seen(inputs), false, false)
  {
    var inputs := [Parsed(EventProgress), Parsed(EventDone)];
    assert inputs[1..] == [Parsed(EventDone)];
    var s := Met(Met(INITIAL, inputs[0]), inputs[1]);
    assert Scanned(INITIAL, inputs) == s;
    FlushThenStop(s);
    StopDelivers(s);
  }

  // ---------------------------------------------------------------- the last event

  /** The last event delivered was sent after the one that waits in the buffer. */
  predicate IsOvertaken(s: State)
  {
    s.buffer.Some? && s.delivered != [] && s.buffer.value.place < Last(s.delivered).place
  }

  /** The event that waits in the buffer after these inputs, if any. */
  function Pending(inputs: seq<Input>): Option<Event>
  {
    if inputs == [] then None
    else match Last(inputs)
      case Parsed(kind) =>
        if Immediate(kind) then Pending(Front(inputs)) else Some(Event(kind, |Sent(Front(inputs))|))
      case Timer => None
      case _ => Pending(Front(inputs))
  }

  lemma {:induction false} ScanSnoc(s: State, inputs: seq<Input>, i: Input)
    requires s.holder.None?
    ensures Scanned(s, inputs + [i]) == Met(Scanned(s, inputs), i)
    decreases |inputs|
  {
    if inputs == [] {
      assert [i][1..] == [];
    } else {
      assert (inputs + [i])[1..] == inputs[1..] + [i];
      ScanSnoc(Met(s, inputs[0]), inputs[1..], i);
    }
  }

  lemma SentCount(inputs: seq<Input>)
    ensures |Scanned(INITIAL, inputs).pushed| == |Sent(inputs)|
  {
    ScannedKinds(INITIAL, inputs);
  }

  lemma {:induction false} ScanTracked(inputs: seq<Input>)
    ensures
      var s := Scanned(INITIAL, inputs);
      Tracked(s, s.buffer.Some?, IsOvertaken(s))
  {
    if inputs != [] {
      ScanTracked(Front(inputs));
      ScanFront(inputs);
      var s := Scanned(INITIAL, Front(inputs));
      NextPending(s, Last(inputs), IsOvertaken(s));
    }
  }

  lemma ScanFront(inputs: seq<Input>)
    requires inputs != []
    ensures Scanned(INITIAL, inputs) == Met(Scanned(INITIAL, Front(inputs)), Last(inputs))
  {
    assert inputs == Front(inputs) + [Last(inputs)];
    ScanSnoc(INITIAL, Front(inputs), Last(inputs));
  }

  /** The event in the buffer is the pending one. */
  lemma {:induction false} PendingIsBuffered(inputs: seq<Input>)
    ensures Scanned(INITIAL, inputs).buffer == Pending(inputs)
  {
    if inputs != [] {
      PendingIsBuffered(Front(inputs));
      ScanFront(inputs);
      ScanTracked(Front(inputs));
      SentCount(Front(inputs));
      var s := Scanned(INITIAL, Front(inputs));
      NextPending(s, Last(inputs), IsOvertaken(s));
    }
  }

  lemma {:induction false} PendingIsBufferable(inputs: seq<Input>)
    ensures Pending(inputs).Some? ==> !Immediate(Pending(inputs).value.kind)
  {
    if inputs != [] {
      PendingIsBufferable(Front(inputs));
    }
  }

  lemma NextPending(s: State, i: Input, overtaken: bool)
    requires Tracked(s, s.buffer.Some?, overtaken) && overtaken == IsOvertaken(s)
    ensures Tracked(Met(s, i), Met(s, i).buffer.Some?, IsOvertaken(Met(s, i)))
    ensures Met(s, i).buffer ==
      match i
      case Parsed(kind) => if Immediate(kind) then s.buffer else Some(Event(kind, |s.pushed|))
      case Timer => None
      case _ => s.buffer
  {
    match i {
      case Parsed(kind) => PushTracked(s, kind, s.buffer.Some?, overtaken);
      case Timer =>
        if s.buffer.Some? {
          TimedOutTracked(s, overtaken);
        }
      case _ =>
    }
  }

  predicate Silent(inputs: seq<Input>)
  {
    forall i :: 0 <= i < |inputs| ==> !inputs[i].Parsed?
  }

  /** Without further events from the worker, only the buffered event is still to come out. */
  lemma {:induction false} SilentEnd(s: State, inputs: seq<Input>, overtaken: bool)
    requires Tracked(s, s.buffer.Some?, overtaken) && Silent(inputs)
    ensures Stopped(Scanned(s, inputs)).delivered == s.delivered + AsSeq(s.buffer)
    decreases |inputs|
  {
    if inputs == [] {
      StopDelivers(s);
    } else if inputs[0] == Timer && s.buffer.Some? {
      TimedOutTracked(s, overtaken);
      SilentEnd(TimedOut(s), inputs[1..], false);
    } else {
      SilentEnd(Met(s, inputs[0]), inputs[1..], overtaken);
    }
  }

  lemma {:induction false} ScanConcat(s: State, a: seq<Input>, b: seq<Input>)
    requires s.holder.None?
    ensures Scanned(s, a + b) == Scanned(Scanned(s, a), b)
    decreases |a|
  {
    if a == [] {
      assert a + b == b;
    } else {
      assert (a + b)[1..] == a[1..] + b;
      ScanConcat(Met(s, a[0]), a[1..], b);
    }
  }

  /** When the last event of the worker is an immediate one, what waits in the buffer at that
      moment comes out right after it, as the last event of all. */
  lemma AfterLastEvent(inputs: seq<Input>, waitFails: bool, before: seq<Input>, kind: EventKind, after: seq<Input>)
    requires Seen(inputs) == before + [Parsed(kind)] + after && Immediate(kind) && Silent(after)
    ensures Streamed(inputs, waitFails).delivered
      == Scanned(INITIAL, before).delivered + [Event(kind, |Sent(before)|)] + AsSeq(Pending(before))
  {
    var s := Scanned(INITIAL, before);
    ScanTracked(before);
    PendingIsBuffered(before);
    SentCount(before);
    PushTracked(s, kind, s.buffer.Some?, IsOvertaken(s));
    ScanSnoc(INITIAL, before, Parsed(kind));
    ScanConcat(INITIAL, before + [Parsed(kind)], after);
    SilentEnd(Met(s, Parsed(kind)), after, s.buffer.Some?);
    FlushThenStop(Scanned(INITIAL, Seen(inputs)));
  }

  // ---------------------------------------------------------------- the critical kinds

  /** The start, done, error and tool call events among these kinds, in order. */
  function CriticalKinds(kinds: seq<EventKind>): seq<EventKind>
  {
    if kinds == [] then []
    else match Last(kinds)
      case EventStart => CriticalKinds(Front(kinds)) + [EventStart]
      case EventDone => CriticalKinds(Front(kinds)) + [EventDone]
      case EventError => CriticalKinds(Front(kinds)) + [EventError]
      case EventToolCall => CriticalKinds(Front(kinds)) + [EventToolCall]
      case _ => CriticalKinds(Front(kinds))
  }

  lemma {:induction false} KindsOfCritical(s: seq<Event>)
    ensures Kinds(CriticalEvents(s)) == CriticalKinds(Kinds(s))
  {
    if s != [] {
      KindsOfCritical(Front(s));
      KindsSnoc(Front(s), Last(s));
      assert s == Front(s) + [Last(s)];
      assert Front(Kinds(Front(s)) + [Last(s).kind]) == Kinds(Front(s));
      KindsSnoc(CriticalEvents(Front(s)), Last(s));
    }
  }

  /** For every output of the worker and every ending, the start, done, error and tool call
      events come out complete and in the order in which they were sent. */
  lemma CriticalEventsComeOut(inputs: seq<Input>, waitFails: bool)
    ensures CriticalKinds(Kinds(Streamed(inputs, waitFails).delivered)) == CriticalKinds(Sent(Seen(inputs)))
  {
    var s := Streamed(inputs, waitFails);
    StreamShape(inputs, waitFails);
    ImmediatesAreCritical(s.delivered);
    ImmediatesAreCritical(s.pushed);
    KindsOfCritical(s.delivered);
    KindsOfCritical(s.pushed);
  }

  lemma {:induction false} CriticalCount(kinds: seq<EventKind>, k: EventKind)
    requires k == EventStart || k == EventDone || k == EventError || k == EventToolCall
    ensures multiset(CriticalKinds(kinds))[k] == multiset(kinds)[k]
  {
    if kinds != [] {
      CriticalCount(Front(kinds), k);
      assert kinds == Front(kinds) + [Last(kinds)];
    }
  }

  /** So each of these kinds comes out as often as it was sent. */
  lemma NoCriticalEventLost(inputs: seq<Input>, waitFails: bool, k: EventKind)
    requires k == EventStart || k == EventDone || k == EventError || k == EventToolCall
    ensures multiset(Kinds(Streamed(inputs, waitFails).delivered))[k] == multiset(Sent(Seen(inputs)))[k]
  {
    CriticalEventsComeOut(inputs, waitFails);
    CriticalCount(Kinds(Streamed(inputs, waitFails).delivered), k);
    CriticalCount(Sent(Seen(inputs)), k);
  }

  // ---------------------------------------------------------------- bursts

  /** Progress, paused or other events, with nothing but blank or malformed lines between. */
  predicate Burst(inputs: seq<Input>)
  {
    forall i :: 0 <= i < |inputs| ==>
      || inputs[i] == Blank || inputs[i] == Malformed
      || inputs[i] == Parsed(EventProgress) || inputs[i] == Parsed(EventPaused)
      || (inputs[i].Parsed? && inputs[i].kind.EventOther?)
  }

  /** No event has its place in the range. */
  predicate NoneBetween(events: seq<Event>, lo: nat, hi: nat)
  {
    forall i :: 0 <= i < |events| ==> !(lo <= events[i].place < hi)
  }

  /** No event whose place lies in the range has come out or waits in the buffer. */
  predicate Absent(s: State, lo: nat, hi: nat)
  {
    NoneBetween(s.delivered, lo, hi) && (s.buffer.Some? ==> !(lo <= s.buffer.value.place < hi))
  }

  /** Nothing of the range has come out but possibly the event at its end, which surely has. */
  predicate OnlyLast(out: seq<Event>, lo: nat, hi: nat, kind: EventKind, surely: bool)
  {
    NoneBetween(out, lo, hi) && (surely ==> Event(kind, hi) in out)
  }

  /** During a burst nothing comes out, and afterwards its last event waits. */
  lemma {:induction false} BurstBuffers(s: State, burst: seq<Input>, overtaken: bool)
    requires Tracked(s, s.buffer.Some?, overtaken) && Burst(burst)
    ensures
      var s', n := Scanned(s, burst), |s.pushed| + |Sent(burst)|;
      && s'.delivered == s.delivered && |s'.pushed| == n
      && Tracked(s', s'.buffer.Some?, Sent(burst) == [] && overtaken)
      && s'.buffer == if Sent(burst) == [] then s.buffer else Some(Event(Last(Sent(burst)), n - 1))
    decreases |burst|
  {
    if burst != [] {
      var s1 := Met(s, burst[0]);
      if burst[0].Parsed? {
        PushTracked(s, burst[0].kind, s.buffer.Some?, overtaken);
        BurstBuffers(s1, burst[1..], false);
        LastSent(burst);
      } else {
        BurstBuffers(s1, burst[1..], overtaken);
      }
    }
  }

  lemma LastSent(inputs: seq<Input>)
    requires inputs != [] && inputs[0].Parsed?
    ensures |Sent(inputs)| == |Sent(inputs[1..])| + 1
    ensures Last(Sent(inputs)) == if Sent(inputs[1..]) == [] then inputs[0].kind else Last(Sent(inputs[1..]))
  {
  }

  lemma {:induction false} StaysAbsent(s: State, inputs: seq<Input>, lo: nat, hi: nat, overtaken: bool)
    requires Tracked(s, s.buffer.Some?, overtaken) && Absent(s, lo, hi) && |s.pushed| >= hi
    ensures Absent(Stopped(Scanned(s, inputs)), lo, hi)
    decreases |inputs|
  {
    if inputs == [] {
      StopDelivers(s);
    } else {
      MetAbsent(s, inputs[0], lo, hi, overtaken);
      match inputs[0] {
        case Parsed(kind) =>
          StaysAbsent(Met(s, inputs[0]), inputs[1..], lo, hi,
                      if Immediate(kind) then s.buffer.Some? else false);
        case Timer => StaysAbsent(Met(s, inputs[0]), inputs[1..], lo, hi, false);
        case _ => StaysAbsent(Met(s, inputs[0]), inputs[1..], lo, hi, overtaken);
      }
    }
  }

  lemma MetAbsent(s: State, i: Input, lo: nat, hi: nat, overtaken: bool)
    requires Tracked(s, s.buffer.Some?, overtaken) && Absent(s, lo, hi) && |s.pushed| >= hi
    ensures
      var s' := Met(s, i);
      && Absent(s', lo, hi) && |s'.pushed| >= hi
      && match i
         case Parsed(kind) => Tracked(s', s'.buffer.Some?, if Immediate(kind) then s.buffer.Some? else false)
         case Timer => Tracked(s', s'.buffer.Some?, false)
         case _ => s' == s
  {
    match i {
      case Parsed(kind) => PushTracked(s, kind, s.buffer.Some?, overtaken);
      case Timer =>
        if s.buffer.Some? {
          TimedOutTracked(s, overtaken);
        }
      case _ =>
    }
  }

  /** Of a burst of m progress, paused and other events that n events precede all but the last are
      lost, whatever comes before and after it; the last comes out if the timer fires next or
      nothing follows. */
  lemma BurstComesOutAsItsLast(
      inputs: seq<Input>, waitFails: bool, before: seq<Input>, n: nat, burst: seq<Input>, m: nat, after: seq<Input>)
    requires Seen(inputs) == before + burst + after && Burst(burst)
    requires n == |Sent(before)| && m == |Sent(burst)| > 0
    ensures OnlyLast(Streamed(inputs, waitFails).delivered, n, n + m - 1, Last(Sent(burst)),
                     after == [] || after[0] == Timer)
  {
    var s := Scanned(INITIAL, before);
    StreamInParts(inputs, waitFails, before, burst, after);
    TrackedAfter(s, before);
    BurstFate(s, n, burst, m, after, IsOvertaken(s), Last(Sent(burst)));
  }

  lemma TrackedAfter(s: State, before: seq<Input>)
    requires s == Scanned(INITIAL, before)
    ensures Tracked(s, s.buffer.Some?, IsOvertaken(s)) && |s.pushed| == |Sent(before)|
  {
    ScanTracked(before);
    SentCount(before);
  }

  lemma StreamInParts(inputs: seq<Input>, waitFails: bool, a: seq<Input>, b: seq<Input>, c: seq<Input>)
    requires Seen(inputs) == a + b + c
    ensures Streamed(inputs, waitFails).delivered
      == Stopped(Scanned(Scanned(Scanned(INITIAL, a), b), c)).delivered
  {
    ScanConcat(INITIAL, a, b);
    ScanConcat(INITIAL, a + b, c);
    FlushThenStop(Scanned(INITIAL, Seen(inputs)));
  }

  lemma BurstFate(
      s: State, n: nat, burst: seq<Input>, m: nat, after: seq<Input>, overtaken: bool, kind: EventKind)
    requires Tracked(s, s.buffer.Some?, overtaken) && Burst(burst)
    requires n == |s.pushed| && m == |Sent(burst)| > 0 && kind == Last(Sent(burst))
    ensures OnlyLast(Stopped(Scanned(Scanned(s, burst), after)).delivered, n, n + m - 1, kind,
                     after == [] || after[0] == Timer)
  {
    var s1 := BurstState(s, n, burst, m, overtaken, kind);
    FateFrom(s1, after, n, n + m - 1, kind);
  }

  lemma BurstState(s: State, n: nat, burst: seq<Input>, m: nat, overtaken: bool, kind: EventKind)
    returns (s1: State)
    requires Tracked(s, s.buffer.Some?, overtaken) && Burst(burst)
    requires n == |s.pushed| && m == |Sent(burst)| > 0 && kind == Last(Sent(burst))
    ensures s1 == Scanned(s, burst) && Tracked(s1, true, false) && s1.buffer == Some(Event(kind, n + m - 1))
    ensures Absent(s1, n, n + m - 1) && |s1.pushed| >= n + m - 1
  {
    BurstBuffers(s, burst, overtaken);
    s1 := Scanned(s, burst);
    NotYet(s, s1, n + m - 1);
  }

  lemma FateFrom(s: State, after: seq<Input>, lo: nat, hi: nat, kind: EventKind)
    requires Tracked(s, true, false) && s.buffer == Some(Event(kind, hi))
    requires Absent(s, lo, hi) && |s.pushed| >= hi
    ensures OnlyLast(Stopped(Scanned(s, after)).delivered, lo, hi, kind, after == [] || after[0] == Timer)
  {
    StaysAbsent(s, after, lo, hi, false);
    if after == [] || after[0] == Timer {
      LastComesOut(s, after, false);
    }
  }

  lemma NotYet(s: State, s1: State, hi: nat)
    requires s1.delivered == s.delivered && s1.buffer.Some? && s1.buffer.value.place == hi
    requires forall i :: 0 <= i < |s.delivered| ==> s.delivered[i].place < |s.pushed|
    ensures Absent(s1, |s.pushed|, hi)
  {
  }

  /** What waits comes out if the timer fires next or nothing follows. */
  lemma LastComesOut(s: State, after: seq<Input>, overtaken: bool)
    requires Tracked(s, s.buffer.Some?, overtaken) && s.buffer.Some? && (after == [] || after[0] == Timer)
    ensures s.buffer.value in Stopped(Scanned(s, after)).delivered
  {
    if after == [] {
      StopDelivers(s);
    } else {
      TimedOutTracked(s, overtaken);
      DeliveredStays(TimedOut(s), after[1..], s.buffer.value);
    }
  }

  lemma {:induction false} DeliveredStays(s: State, inputs: seq<Input>, e: Event)
    requires s.holder.None? && e in s.delivered
    ensures e in Stopped(Scanned(s, inputs)).delivered
    decreases |inputs|
  {
    if inputs == [] {
      StopDelivers(s);
    } else {
      DeliveredStays(Met(s, inputs[0]), inputs[1..], e);
    }
  }
}
