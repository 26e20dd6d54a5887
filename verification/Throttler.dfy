/** The message throttler: a buffer for one event, the last one pushed, and a timer that is
    set again by every push. */
module Throttler {
  import opened Prelude
  import opened Protocol

  /** An event of the stream, with its place in the order of the pushes. */
  datatype Event = Event(kind: EventKind, place: nat)

  predicate Immediate(kind: EventKind)
  {
    kind == EventStart || kind == EventDone || kind == EventError || kind == EventToolCall
  }

  /** The throttler and the timers behind it. armed are the timers that will still expire,
      including those the throttler no longer refers to; firings are the expired timers whose
      callback has not taken the lock yet; taken are the events removed from the buffer and
      not yet delivered; holder is the event Stop delivers while it keeps the lock. The last
      five fields are the history. */
  datatype State = State(
    buffer: Option<Event>,
    timer: Option<nat>,
    stopped: bool,
    holder: Option<Event>,
    armed: set<nat>,
    timers: nat,
    firings: nat,
    taken: multiset<Event>,
    delivered: seq<Event>,
    pushed: seq<Event>,
    takes: seq<Event>,
    superseded: seq<Event>,
    dropped: seq<Event>,
    stoppedAt: nat)

  const INITIAL :=
    State(None, None, false, None, {}, 0, 0, multiset{}, [], [], [], [], [], 0)

  datatype Action =
    | Push(kind: EventKind)
    | Expire(timer: nat)
    | Fire
    | FlushTake
    | StopTake
    | StopDeliver
    | Deliver(event: Event)

  predicate Enabled(s: State, a: Action)
  {
    match a
    case Push(kind) => Immediate(kind) || s.holder.None?
    case Expire(timer) => timer in s.armed
    case Fire => s.firings > 0 && s.holder.None?
    case FlushTake => s.holder.None?
    case StopTake => s.holder.None?
    case StopDeliver => s.holder.Some?
    case Deliver(event) => event in s.taken
  }

  function AsSeq(o: Option<Event>): seq<Event>
  {
    match o case None => [] case Some(e) => [e]
  }

  /** Push of an event that has to be buffered. */
  function Buffered(s: State, e: Event): State
  {
    if s.stopped then s.(pushed := s.pushed + [e], dropped := s.dropped + [e])
    else
      var t := if s.timer.None? then s.timers else s.timer.value;
      s.(pushed := s.pushed + [e], superseded := s.superseded + AsSeq(s.buffer), buffer := Some(e),
         timer := Some(t), armed := s.armed + {t},
         timers := if s.timer.None? then s.timers + 1 else s.timers)
  }

  function StopTimer(s: State): State
  {
    s.(armed := if s.timer.Some? then s.armed - {s.timer.value} else s.armed, timer := None)
  }

  /** Moves the buffered event, if any, to the taken ones. */
  function Take(s: State): State
  {
    s.(buffer := None, taken := s.taken + multiset(AsSeq(s.buffer)), takes := s.takes + AsSeq(s.buffer))
  }

  function Act(s: State, a: Action): State
    requires Enabled(s, a)
  {
    match a
    case Push(kind) =>
      var e := Event(kind, |s.pushed|);
      if Immediate(kind) then s.(pushed := s.pushed + [e], delivered := s.delivered + [e])
      else Buffered(s, e)
    case Expire(timer) => s.(armed := s.armed - {timer}, firings := s.firings + 1)
    case Fire => Take(s).(firings := s.firings - 1, timer := None)
    case FlushTake => StopTimer(Take(s))
    case StopTake =>
      StopTimer(s).(buffer := None, holder := s.buffer, takes := s.takes + AsSeq(s.buffer),
                    stopped := true, stoppedAt := if s.stopped then s.stoppedAt else |s.pushed|)
    case StopDeliver => s.(holder := None, delivered := s.delivered + [s.holder.value])
    case Deliver(e) => s.(taken := s.taken - multiset{e}, delivered := s.delivered + [e])
  }

  ghost predicate Possible(acts: seq<Action>)
    decreases |acts|, 0
  {
    acts == [] || (Possible(Front(acts)) && Enabled(After(Front(acts)), Last(acts)))
  }

  ghost function After(acts: seq<Action>): State
    requires Possible(acts)
    decreases |acts|, 1
  {
    if acts == [] then INITIAL else Act(After(Front(acts)), Last(acts))
  }

  // ---------------------------------------------------------------- conservation

  function Immediates(s: seq<Event>): seq<Event>
  {
    if s == [] then []
    else if Immediate(Last(s).kind) then Immediates(Front(s)) + [Last(s)]
    else Immediates(Front(s))
  }

  function Bufferables(s: seq<Event>): seq<Event>
  {
    if s == [] then []
    else if Immediate(Last(s).kind) then Bufferables(Front(s))
    else Bufferables(Front(s)) + [Last(s)]
  }

  lemma Snoc(s: seq<Event>, e: Event)
    ensures Immediates(s + [e]) == if Immediate(e.kind) then Immediates(s) + [e] else Immediates(s)
    ensures Bufferables(s + [e]) == if Immediate(e.kind) then Bufferables(s) else Bufferables(s) + [e]
  {
    assert Front(s + [e]) == s;
  }

  /** The bufferable events still on their way. */
  function InFlight(s: State): multiset<Event>
  {
    s.taken + multiset(AsSeq(s.holder)) + multiset(AsSeq(s.buffer))
  }

  /** What was pushed is delivered, superseded, dropped, or in flight. */
  predicate Balance(
      pushed: multiset<Event>, delivered: multiset<Event>, superseded: multiset<Event>, dropped: multiset<Event>,
      flight: multiset<Event>)
  {
    pushed == delivered + superseded + dropped + flight
  }

  /** Every bufferable event pushed is delivered, taken, held by Stop, buffered, superseded or
      dropped, as many times as it was pushed. Immediate events are delivered in push order. */
  predicate Conserved(s: State)
  {
    && Immediates(s.delivered) == Immediates(s.pushed)
    && Balance(multiset(Bufferables(s.pushed)), multiset(Bufferables(s.delivered)), multiset(s.superseded),
               multiset(s.dropped), InFlight(s))
  }

  /** Only bufferable events are ever held back. */
  predicate HeldBufferable(s: State)
  {
    && (forall e :: e in s.taken ==> !Immediate(e.kind))
    && (s.holder.Some? ==> !Immediate(s.holder.value.kind))
    && (s.buffer.Some? ==> !Immediate(s.buffer.value.kind))
  }

  lemma Joined(a: seq<Event>, b: seq<Event>)
    ensures multiset(a + b) == multiset(a) + multiset(b)
  {
  }

  /** The new events x are dropped. */
  lemma DroppedToo(p: multiset<Event>, d: multiset<Event>, s: multiset<Event>, r: multiset<Event>, f: multiset<Event>,
                   x: multiset<Event>)
    requires Balance(p, d, s, r, f)
    ensures Balance(p + x, d, s, r + x, f)
  {
  }

  /** The new events x take the place of old. */
  lemma Displaced(p: multiset<Event>, d: multiset<Event>, s: multiset<Event>, r: multiset<Event>, f: multiset<Event>,
                  old_: multiset<Event>, x: multiset<Event>)
    requires Balance(p, d, s, r, f + old_)
    ensures Balance(p + x, d, s + old_, r, f + x)
  {
  }

  /** The events x in flight are delivered. */
  lemma Landed(p: multiset<Event>, d: multiset<Event>, s: multiset<Event>, r: multiset<Event>, f: multiset<Event>,
               x: multiset<Event>)
    requires Balance(p, d, s, r, f + x)
    ensures Balance(p, d + x, s, r, f)
  {
  }

  lemma DropConserves(s: State, e: Event)
    requires Conserved(s) && !Immediate(e.kind)
    ensures Conserved(s.(pushed := s.pushed + [e], dropped := s.dropped + [e]))
  {
    Snoc(s.pushed, e);
    Joined(Bufferables(s.pushed), [e]);
    Joined(s.dropped, [e]);
    DroppedToo(multiset(Bufferables(s.pushed)), multiset(Bufferables(s.delivered)), multiset(s.superseded),
               multiset(s.dropped), InFlight(s), multiset([e]));
  }

  lemma ReplaceConserves(s: State, e: Event)
    requires Conserved(s) && !Immediate(e.kind) && !s.stopped
    ensures Conserved(Buffered(s, e))
  {
    Snoc(s.pushed, e);
    Joined(Bufferables(s.pushed), [e]);
    Joined(s.superseded, AsSeq(s.buffer));
    Displaced(multiset(Bufferables(s.pushed)), multiset(Bufferables(s.delivered)), multiset(s.superseded),
              multiset(s.dropped), s.taken + multiset(AsSeq(s.holder)), multiset(AsSeq(s.buffer)), multiset([e]));
  }

  lemma PushConserves(s: State, e: Event)
    requires Conserved(s) && !Immediate(e.kind)
    ensures Conserved(Buffered(s, e))
  {
    if s.stopped {
      DropConserves(s, e);
    } else {
      ReplaceConserves(s, e);
    }
  }

  lemma TakenFlight(taken: multiset<Event>, held: multiset<Event>, b: multiset<Event>)
    ensures taken + held + b == taken + b + held + multiset{}
  {
  }

  lemma TakeConserves(s: State)
    requires Conserved(s)
    ensures Conserved(Take(s))
  {
    TakenFlight(s.taken, multiset(AsSeq(s.holder)), multiset(AsSeq(s.buffer)));
    assert InFlight(Take(s)) == InFlight(s);
  }

  /** One more delivery of an event that was in flight. */
  lemma DeliveryConserves(s: State, e: Event, s': State)
    requires Conserved(s) && !Immediate(e.kind)
    requires s'.pushed == s.pushed && s'.delivered == s.delivered + [e]
    requires s'.superseded == s.superseded && s'.dropped == s.dropped
    requires InFlight(s) == InFlight(s') + multiset([e])
    ensures Conserved(s')
  {
    Snoc(s.delivered, e);
    Joined(Bufferables(s.delivered), [e]);
    Landed(multiset(Bufferables(s.pushed)), multiset(Bufferables(s.delivered)), multiset(s.superseded),
           multiset(s.dropped), InFlight(s'), multiset([e]));
  }

  lemma TakenOut(m: multiset<Event>, h: multiset<Event>, b: multiset<Event>, e: Event)
    requires e in m
    ensures m + h + b == (m - multiset{e}) + h + b + multiset([e])
  {
    assert multiset([e]) == multiset{e};
  }

  lemma HeldOut(m: multiset<Event>, b: multiset<Event>, e: Event)
    ensures m + multiset([e]) + b == m + multiset([]) + b + multiset([e])
  {
  }

  lemma DeliverConserves(s: State, e: Event)
    requires Conserved(s) && HeldBufferable(s) && e in s.taken
    ensures Conserved(s.(taken := s.taken - multiset{e}, delivered := s.delivered + [e]))
  {
    TakenOut(s.taken, multiset(AsSeq(s.holder)), multiset(AsSeq(s.buffer)), e);
    DeliveryConserves(s, e, s.(taken := s.taken - multiset{e}, delivered := s.delivered + [e]));
  }

  lemma StopDeliverConserves(s: State)
    requires Conserved(s) && HeldBufferable(s) && s.holder.Some?
    ensures Conserved(Act(s, StopDeliver))
  {
    HeldOut(s.taken, multiset(AsSeq(s.buffer)), s.holder.value);
    DeliveryConserves(s, s.holder.value, Act(s, StopDeliver));
  }

  lemma ImmediateConserves(s: State, e: Event)
    requires Conserved(s) && Immediate(e.kind)
    ensures Conserved(s.(pushed := s.pushed + [e], delivered := s.delivered + [e]))
  {
    Snoc(s.pushed, e);
    Snoc(s.delivered, e);
  }

  lemma StopTakeConserves(s: State)
    requires Conserved(s) && s.holder.None?
    ensures Conserved(Act(s, StopTake))
  {
    assert InFlight(Act(s, StopTake)) == InFlight(s);
  }

  lemma ActConserves(s: State, a: Action)
    requires Conserved(s) && HeldBufferable(s) && Enabled(s, a)
    ensures Conserved(Act(s, a))
  {
    match a {
      case Push(kind) =>
        var e := Event(kind, |s.pushed|);
        if Immediate(kind) {
          ImmediateConserves(s, e);
        } else {
          PushConserves(s, e);
        }
      case Expire(_) =>
      case Fire => TakeConserves(s);
      case FlushTake => TakeConserves(s);
      case StopTake => StopTakeConserves(s);
      case StopDeliver => StopDeliverConserves(s);
      case Deliver(e) => DeliverConserves(s, e);
    }
  }

  lemma ActHeld(s: State, a: Action)
    requires HeldBufferable(s) && Enabled(s, a)
    ensures HeldBufferable(Act(s, a))
  {
  }

  lemma {:induction false} RunConserves(acts: seq<Action>)
    requires Possible(acts)
    ensures Conserved(After(acts)) && HeldBufferable(After(acts))
  {
    if acts != [] {
      RunConserves(Front(acts));
      ActConserves(After(Front(acts)), Last(acts));
      ActHeld(After(Front(acts)), Last(acts));
    }
  }

  lemma {:induction false} PlacesArePositions(acts: seq<Action>)
    requires Possible(acts)
    ensures forall i :: 0 <= i < |After(acts).pushed| ==> After(acts).pushed[i].place == i
  {
    if acts != [] {
      PlacesArePositions(Front(acts));
    }
  }

  lemma {:induction false} CountBufferable(s: seq<Event>, i: nat)
    requires i < |s| && !Immediate(s[i].kind) && forall j :: 0 <= j < |s| ==> s[j].place == j
    ensures multiset(Bufferables(s))[s[i]] == 1
  {
    BufferablesOf(Front(s));
    if i < |s| - 1 {
      CountBufferable(Front(s), i);
    }
  }

  lemma {:induction false} BufferablesOf(s: seq<Event>)
    ensures forall e :: e in Bufferables(s) ==> e in s && !Immediate(e.kind)
  {
    if s != [] {
      BufferablesOf(Front(s));
    }
  }

  /** In every reachable state each bufferable event is in exactly one place, once. */
  lemma ExactlyOneFate(acts: seq<Action>, i: nat)
    requires Possible(acts) && i < |After(acts).pushed| && !Immediate(After(acts).pushed[i].kind)
    ensures
      var s := After(acts);
      var e := s.pushed[i];
      multiset(s.delivered)[e] + s.taken[e] + multiset(AsSeq(s.holder))[e] + multiset(AsSeq(s.buffer))[e]
        + multiset(s.superseded)[e] + multiset(s.dropped)[e] == 1
  {
    var s := After(acts);
    RunConserves(acts);
    PlacesArePositions(acts);
    CountBufferable(s.pushed, i);
    BufferableCount(s.delivered, s.pushed[i]);
  }

  lemma {:induction false} BufferableCount(s: seq<Event>, e: Event)
    requires !Immediate(e.kind)
    ensures multiset(Bufferables(s))[e] == multiset(s)[e]
  {
    if s != [] {
      assert s == Front(s) + [Last(s)];
      BufferableCount(Front(s), e);
    }
  }

  // ---------------------------------------------------------------- never stuck

  /** A buffered event has a timer of its own that is armed, or a firing on its way. */
  predicate Alive(s: State)
  {
    && (s.buffer.Some? ==> s.timer.Some? && (s.timer.value in s.armed || s.firings > 0))
    && (s.stopped ==> s.buffer.None? && s.timer.None?)
    && (s.holder.Some? ==> s.stopped)
  }

  lemma {:induction false} RunAlive(acts: seq<Action>)
    requires Possible(acts)
    ensures Alive(After(acts))
  {
    if acts != [] {
      RunAlive(Front(acts));
    }
  }

  predicate TimerStep(a: Action)
  {
    a.Expire? || a.Fire? || a.Deliver?
  }

  /** From every reachable state with a buffered event, timer steps alone can deliver it. */
  lemma NeverStuck(acts: seq<Action>) returns (more: seq<Action>)
    requires Possible(acts) && After(acts).buffer.Some?
    ensures forall i :: 0 <= i < |more| ==> TimerStep(more[i])
    ensures Possible(acts + more) && After(acts + more).delivered == After(acts).delivered + AsSeq(After(acts).buffer)
  {
    RunAlive(acts);
    var s := After(acts);
    if s.firings > 0 {
      more := FireAndDeliver(acts);
    } else {
      more := ExpireAndDeliver(acts, s.timer.value);
    }
  }

  lemma ExpireAndDeliver(acts: seq<Action>, timer: nat) returns (more: seq<Action>)
    requires Possible(acts)
    requires var s := After(acts); s.buffer.Some? && s.holder.None? && timer in s.armed
    ensures forall i :: 0 <= i < |more| ==> TimerStep(more[i])
    ensures Possible(acts + more) && After(acts + more).delivered == After(acts).delivered + AsSeq(After(acts).buffer)
  {
    Extend(acts, Expire(timer));
    var rest := FireAndDeliver(acts + [Expire(timer)]);
    more := [Expire(timer)] + rest;
    Regrouped(acts, Expire(timer), rest);
  }

  lemma Regrouped(acts: seq<Action>, a: Action, rest: seq<Action>)
    ensures acts + ([a] + rest) == acts + [a] + rest
  {
  }

  lemma FireAndDeliver(acts: seq<Action>) returns (more: seq<Action>)
    requires Possible(acts)
    requires var s := After(acts); s.buffer.Some? && s.firings > 0 && s.holder.None?
    ensures forall i :: 0 <= i < |more| ==> TimerStep(more[i])
    ensures Possible(acts + more) && After(acts + more).delivered == After(acts).delivered + AsSeq(After(acts).buffer)
  {
    var s := After(acts);
    var deliver := Deliver(s.buffer.value);
    Extend(acts, Fire);
    assert s.buffer.value in Act(s, Fire).taken;
    Extend(acts + [Fire], deliver);
    more := [Fire, deliver];
    assert acts + more == acts + [Fire] + [deliver];
  }

  lemma Extend(acts: seq<Action>, a: Action)
    requires Possible(acts) && Enabled(After(acts), a)
    ensures Possible(acts + [a]) && After(acts + [a]) == Act(After(acts), a)
  {
    assert Front(acts + [a]) == acts;
  }

  // ---------------------------------------------------------------- order

  /** The pushes made before the throttler was stopped. */
  function Accepted(s: State): seq<Event>
    requires s.stopped ==> s.stoppedAt <= |s.pushed|
  {
    if s.stopped then s.pushed[..s.stoppedAt] else s.pushed
  }

  /** The events that left the buffer, then the one in it. */
  function Line(s: State): seq<Event>
  {
    s.takes + AsSeq(s.buffer)
  }

  /** The bufferable or immediate events pushed after Stop. */
  function Late(s: State): seq<Event>
    requires s.stopped ==> s.stoppedAt <= |s.pushed|
  {
    if s.stopped then s.pushed[s.stoppedAt..] else []
  }

  predicate Placed(pushed: seq<Event>)
  {
    forall i :: 0 <= i < |pushed| ==> pushed[i].place == i
  }

  predicate PlacesSound(s: State)
  {
    && (s.stopped ==> s.stoppedAt <= |s.pushed| && s.buffer.None?)
    && Placed(s.pushed)
  }

  /** The line is a selection of the accepted events that keeps their order and the last one. */
  predicate InLine(line: seq<Event>, acc: seq<Event>)
  {
    IsSubsequence(line, acc) && (acc != [] ==> line != [] && Last(line) == Last(acc))
  }

  predicate Outdated(superseded: seq<Event>, acc: seq<Event>)
  {
    forall e :: e in superseded ==> acc != [] && e.place < Last(acc).place
  }

  /** Events leave the buffer in push order, and the last one accepted is the last to leave. */
  predicate Ordered(s: State)
    requires PlacesSound(s)
  {
    InLine(Line(s), Bufferables(Accepted(s)))
  }

  /** Dropped are exactly the bufferable events pushed after Stop; a superseded event was
      followed by a later accepted one. */
  predicate LossesExplained(s: State)
    requires PlacesSound(s)
  {
    s.dropped == Bufferables(Late(s)) && Outdated(s.superseded, Bufferables(Accepted(s)))
  }

  lemma PlacedSnoc(pushed: seq<Event>, e: Event)
    requires Placed(pushed) && e.place == |pushed|
    ensures Placed(pushed + [e])
    ensures forall x :: x in Bufferables(pushed) ==> x.place < e.place
  {
    BufferablesOf(pushed);
  }

  lemma SplitSnoc(pushed: seq<Event>, at: nat, e: Event)
    requires at <= |pushed|
    ensures (pushed + [e])[..at] == pushed[..at] && (pushed + [e])[at..] == pushed[at..] + [e]
  {
  }

  /** The last event in line gives way to e. */
  lemma LineReplaced(takes: seq<Event>, buffer: Option<Event>, acc: seq<Event>, e: Event)
    requires IsSubsequence(takes + AsSeq(buffer), acc)
    ensures InLine(takes + [e], acc + [e])
  {
    var line := takes + AsSeq(buffer);
    if buffer.Some? {
      assert Front(line) == takes;
      SubsequenceFront(line, acc);
    } else {
      assert line == takes;
    }
    SubsequenceSnoc(takes, acc, e);
  }

  lemma LineOutdated(takes: seq<Event>, buffer: Option<Event>, superseded: seq<Event>, acc: seq<Event>, e: Event)
    requires IsSubsequence(takes + AsSeq(buffer), acc) && Outdated(superseded, acc)
    requires forall x :: x in acc ==> x.place < e.place
    ensures Outdated(superseded + AsSeq(buffer), acc + [e])
  {
    SubsequenceElements(takes + AsSeq(buffer), acc);
    assert acc != [] ==> Last(acc) in acc;
    assert buffer.Some? ==> buffer.value in takes + AsSeq(buffer);
    assert Last(acc + [e]) == e;
  }

  lemma BufferedOrder(s: State, e: Event)
    requires PlacesSound(s) && Ordered(s) && !s.stopped && !Immediate(e.kind) && e.place == |s.pushed|
    ensures PlacesSound(Buffered(s, e)) && Ordered(Buffered(s, e))
  {
    Snoc(s.pushed, e);
    PlacedSnoc(s.pushed, e);
    LineReplaced(s.takes, s.buffer, Bufferables(s.pushed), e);
  }

  lemma BufferedLosses(s: State, e: Event)
    requires PlacesSound(s) && Ordered(s) && LossesExplained(s) && !s.stopped
    requires !Immediate(e.kind) && e.place == |s.pushed|
    ensures PlacesSound(Buffered(s, e)) && LossesExplained(Buffered(s, e))
  {
    Snoc(s.pushed, e);
    PlacedSnoc(s.pushed, e);
    LineOutdated(s.takes, s.buffer, s.superseded, Bufferables(s.pushed), e);
  }

  lemma {:induction false} SubsequenceElements(sub: seq<Event>, s: seq<Event>)
    requires IsSubsequence(sub, s)
    ensures forall e :: e in sub ==> e in s
  {
    if sub != [] {
      if Last(sub) == Last(s) && IsSubsequence(Front(sub), Front(s)) {
        SubsequenceElements(Front(sub), Front(s));
        assert sub == Front(sub) + [Last(sub)];
      } else {
        SubsequenceElements(sub, Front(s));
      }
    }
  }

  lemma DroppedPush(s: State, e: Event)
    requires PlacesSound(s) && Ordered(s) && LossesExplained(s) && e.place == |s.pushed| && s.stopped
    ensures
      var s' := s.(pushed := s.pushed + [e], dropped := if Immediate(e.kind) then s.dropped else s.dropped + [e]);
      PlacesSound(s') && Accepted(s') == Accepted(s) && Ordered(s') && LossesExplained(s')
  {
    PlacedSnoc(s.pushed, e);
    SplitSnoc(s.pushed, s.stoppedAt, e);
    Snoc(s.pushed[s.stoppedAt..], e);
  }

  lemma ImmediatePush(s: State, e: Event)
    requires PlacesSound(s) && Ordered(s) && LossesExplained(s) && e.place == |s.pushed|
    requires !s.stopped && Immediate(e.kind)
    ensures
      var s' := s.(pushed := s.pushed + [e]);
      PlacesSound(s') && Ordered(s') && LossesExplained(s')
  {
    PlacedSnoc(s.pushed, e);
    Snoc(s.pushed, e);
  }

  lemma StopOrder(s: State)
    requires PlacesSound(s) && Ordered(s) && LossesExplained(s) && s.holder.None?
    ensures PlacesSound(Act(s, StopTake)) && Ordered(Act(s, StopTake)) && LossesExplained(Act(s, StopTake))
  {
    assert s.pushed[..|s.pushed|] == s.pushed;
    assert Line(Act(s, StopTake)) == Line(s);
  }

  lemma TakeOrder(s: State, a: Action)
    requires PlacesSound(s) && Ordered(s) && LossesExplained(s) && Enabled(s, a) && (a.Fire? || a.FlushTake?)
    ensures PlacesSound(Act(s, a)) && Ordered(Act(s, a)) && LossesExplained(Act(s, a))
  {
    assert Line(Act(s, a)) == Line(s);
  }

  lemma ActOrder(s: State, a: Action)
    requires PlacesSound(s) && Ordered(s) && LossesExplained(s) && Enabled(s, a)
    ensures PlacesSound(Act(s, a)) && Ordered(Act(s, a)) && LossesExplained(Act(s, a))
  {
    match a {
      case Push(kind) =>
        var e := Event(kind, |s.pushed|);
        if s.stopped {
          DroppedPush(s, e);
        } else if Immediate(kind) {
          ImmediatePush(s, e);
        } else {
          BufferedOrder(s, e);
          BufferedLosses(s, e);
        }
      case Fire => TakeOrder(s, a);
      case FlushTake => TakeOrder(s, a);
      case StopTake => StopOrder(s);
      case _ =>
    }
  }

  /** Under every interleaving of pushes, flushes, stops and timers. */
  lemma {:induction false} RunOrder(acts: seq<Action>)
    requires Possible(acts)
    ensures PlacesSound(After(acts)) && Ordered(After(acts)) && LossesExplained(After(acts))
  {
    if acts != [] {
      RunOrder(Front(acts));
      ActOrder(After(Front(acts)), Last(acts));
    }
  }

  // ---------------------------------------------------------------- the critical kinds

  /** Start, done, error and tool call events, in order. */
  function CriticalEvents(s: seq<Event>): seq<Event>
  {
    if s == [] then []
    else match Last(s).kind
      case EventStart => CriticalEvents(Front(s)) + [Last(s)]
      case EventDone => CriticalEvents(Front(s)) + [Last(s)]
      case EventError => CriticalEvents(Front(s)) + [Last(s)]
      case EventToolCall => CriticalEvents(Front(s)) + [Last(s)]
      case _ => CriticalEvents(Front(s))
  }

  lemma {:induction false} ImmediatesAreCritical(s: seq<Event>)
    ensures Immediates(s) == CriticalEvents(s)
  {
    if s != [] {
      ImmediatesAreCritical(Front(s));
    }
  }

  /** Under every interleaving the start, done, error and tool call events come out at once:
      all those pushed have been delivered, in the order of the pushes. */
  lemma CriticalDelivered(acts: seq<Action>)
    requires Possible(acts)
    ensures CriticalEvents(After(acts).delivered) == CriticalEvents(After(acts).pushed)
  {
    RunConserves(acts);
    ImmediatesAreCritical(After(acts).delivered);
    ImmediatesAreCritical(After(acts).pushed);
  }

  /** Progress, paused and other events wait in the buffer, where each replaces the one before. */
  lemma ReplacedByNext(acts: seq<Action>, kind: EventKind)
    requires Possible(acts) && (kind == EventProgress || kind == EventPaused || kind.EventOther?)
    requires Enabled(After(acts), Push(kind)) && !After(acts).stopped
    ensures
      var s, e := After(acts), Event(kind, |After(acts).pushed|);
      var s' := Act(s, Push(kind));
      && Possible(acts + [Push(kind)]) && After(acts + [Push(kind)]) == s'
      && s'.delivered == s.delivered && s'.buffer == Some(e) && s'.taken == s.taken
      && s'.superseded == s.superseded + AsSeq(s.buffer)
  {
    Extend(acts, Push(kind));
  }

  predicate TimersKnown(s: State)
  {
    (s.timer.Some? ==> s.timer.value < s.timers) && forall t :: t in s.armed ==> t < s.timers
  }

  lemma ActTimers(s: State, a: Action)
    requires TimersKnown(s) && Enabled(s, a)
    ensures TimersKnown(Act(s, a))
  {
  }

  /** The timers that are named or armed are ones that were made. */
  lemma {:induction false} RunTimers(acts: seq<Action>)
    requires Possible(acts)
    ensures TimersKnown(After(acts))
  {
    if acts != [] {
      RunTimers(Front(acts));
      ActTimers(After(Front(acts)), Last(acts));
    }
  }

  /** Every buffered push sets the throttler's timer going again: the one it has, even if it
      has expired meanwhile, or a new one. */
  lemma PushArmsTimer(acts: seq<Action>, kind: EventKind)
    requires Possible(acts) && Enabled(After(acts), Push(kind)) && !After(acts).stopped
    requires kind == EventProgress || kind == EventPaused || kind.EventOther?
    ensures
      var s, s' := After(acts), Act(After(acts), Push(kind));
      && s'.timer.Some? && s'.timer.value in s'.armed && s.armed <= s'.armed
      && (if s.timer.Some? then s'.timer == s.timer else s'.timer.value !in s.armed)
  {
    RunTimers(acts);
  }

  /** A firing, Flush and Stop leave the throttler without a timer and with an empty buffer.
      Flush and Stop also disarm the timer it had; a firing leaves the others going, and the
      one whose name it forgets may be among them. */
  lemma TimerGivenUp(acts: seq<Action>, a: Action)
    requires Possible(acts) && Enabled(After(acts), a) && (a == Fire || a == FlushTake || a == StopTake)
    ensures
      var s, s' := After(acts), Act(After(acts), a);
      && s'.timer == None && s'.buffer == None
      && s'.armed == (if a == Fire || s.timer.None? then s.armed else s.armed - {s.timer.value})
      && (a == StopTake ==> s'.stopped && s'.holder == s.buffer)
      && (a != StopTake ==> s'.stopped == s.stopped && s'.taken == s.taken + multiset(AsSeq(s.buffer)))
  {
  }
}
