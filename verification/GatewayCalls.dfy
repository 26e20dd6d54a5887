/** The gateway object's calls, in any order, are gateway runs. */
module GatewayCalls {
  import opened Prelude
  import opened Protocol
  import opened Decimals
  import opened Tasks
  import opened QueueSpec
  import opened GatewayClass
  import G = GatewayRuns
  import GS = GatewaySteps
  import GW = GatewayWorkers
  import S = Scheduler

  /** In a gateway run the first terminal call of a directly run task finds that very task, which
      still runs, and completes it and no other. */
  lemma TerminalEventCompletesOwnTask(
      g: G.Gateway, events: seq<G.Event>, s: S.Sys, s': S.Sys, id: Text, call: WorkerCall, found: Option<Text>,
      env: S.Env)
    requires GS.Sound(g) && G.Possible(g, events) && s.q == G.After(g, events).h.q
    requires
      var g1 := G.After(g, events);
      && id in g1.workers && !g1.workers[id].queue && id !in g1.ended && IsTerminal(call)
      && DirectCallEffect(s, s', g1.workers[id].channel, call, found, env)
    ensures found == Some(id) && id in s.q.running && s' == S.MarkDone(s, id, env)
  {
    GW.RunAttributed(g, events);
    FirstCallIsOwn(G.After(g, events), s, s', id, call, found, env);
  }

  lemma FirstCallIsOwn(
      g: G.Gateway, s: S.Sys, s': S.Sys, id: Text, call: WorkerCall, found: Option<Text>, env: S.Env)
    requires GS.Sound(g) && s.q == g.h.q
    requires id in g.workers && !g.workers[id].queue && id !in g.ended && IsTerminal(call)
    requires DirectCallEffect(s, s', g.workers[id].channel, call, found, env)
    ensures found == Some(id) && id in s.q.running && s' == S.MarkDone(s, id, env)
  {
    var c := g.workers[id].channel;
    assert id in s.q.running && s.q.running[id].channel == c;
    assert c in BusyChannels(s.q.running) && G.Occupied(s.q, c);
    assert G.FoundByChannel(s.q, c, found.value);
    GW.FirstTerminalCall(g, [], id, found.value);
  }

  /** One callback call of a directly run task is a gateway run. */
  lemma DirectCallEvents(
      g: G.Gateway, s: S.Sys, s': S.Sys, owner: Text, call: WorkerCall, found: Option<Text>, env: S.Env)
      returns (events: seq<G.Event>)
    requires GS.Sound(g) && g.h.q == s.q && owner in g.workers && !g.workers[owner].queue
    requires DirectCallEffect(s, s', g.workers[owner].channel, call, found, env)
    ensures GS.Leads(g, events, s'.q, 0)
  {
    var c := g.workers[owner].channel;
    if found.None? {
      GS.Nothing(g);
      events := [];
    } else if IsTerminal(call) {
      assert G.CanComplete(g, owner, found.value);
      events := GS.MarkDoneEvents(g, s, owner, found.value, env);
    } else {
      events := GS.StartEvents(g, s, owner, found.value, env.clock(found.value));
    }
  }

  /** The calls the gateway receives, with what a direct call found. */
  datatype Call =
    | Mention(channel: Text, user: Text, prompt: Text, now: Time)
    | DirectCall(owner: Text, call: WorkerCall, found: Option<Text>)
    | DirectError(owner: Text)

  /** The queue, the task counter, and the directly run tasks with their channels. */
  datatype Moment = Moment(s: S.Sys, counter: nat, direct: map<Text, Text>)

  /** What each call leaves, as the contracts of HandleMention, OnDirectCall and OnDirectError
      have it. */
  ghost predicate Effect(x: Moment, c: Call, x': Moment, streamWorker: bool, env: S.Env)
  {
    match c
    case Mention(channel, user, prompt, now) =>
      var queued := Count(x.s.q.channels, channel) > 0;
      && MentionEffect(x.s, x'.s, streamWorker, x.counter, channel, user, prompt, now)
      && x'.counter == x.counter + (if queued || streamWorker then 1 else 0)
      && x'.direct == if !queued && streamWorker then x.direct[GeneratedID(x.counter + 1) := channel] else x.direct
    case DirectCall(owner, call, found) =>
      && owner in x.direct && DirectCallEffect(x.s, x'.s, x.direct[owner], call, found, env)
      && x'.counter == x.counter && x'.direct == x.direct
    case DirectError(owner) =>
      owner in x.direct && x' == x.(s := S.MarkDone(x.s, owner, env))
  }

  /** g is a sound gateway run that has led to this moment. */
  ghost predicate Tracks(g: G.Gateway, x: Moment)
  {
    && GS.Sound(g) && g.h.q == x.s.q && g.counter == x.counter && g.mention.None? && g.owed == 0
    && DirectKnown(x.direct, g.workers)
  }

  ghost predicate DirectKnown(direct: map<Text, Text>, workers: map<Text, G.Decision>)
  {
    forall id :: id in direct ==> id in workers && workers[id] == G.Decision(direct[id], false)
  }

  /** A mention that creates a task, queued or not. */
  lemma MentionMoment(
      x: Moment, c: Text, user: Text, prompt: Text, now: Time, x': Moment, streamWorker: bool, env: S.Env)
    requires Effect(x, Mention(c, user, prompt, now), x', streamWorker, env)
    ensures Count(x.s.q.channels, c) <= 0 && !streamWorker ==> x' == x
    ensures Count(x.s.q.channels, c) > 0 || streamWorker ==>
      var queued, id := Count(x.s.q.channels, c) > 0, GeneratedID(x.counter + 1);
      && x'.counter == x.counter + 1
      && x'.direct == (if queued then x.direct else x.direct[id := c])
      && x'.s.q == GS.AddedTask(x.s.q, NewTask(id, c, user, prompt, now), queued, now)
  {
  }

  lemma MentionRun(g: G.Gateway, x: Moment, c: Text, user: Text, prompt: Text, now: Time, x': Moment, queued: bool)
      returns (events: seq<G.Event>)
    requires Tracks(g, x) && x'.counter == g.counter + 1 && queued == (Count(g.h.q.channels, c) > 0)
    requires x'.direct == if queued then x.direct else x.direct[GeneratedID(g.counter + 1) := c]
    requires x'.s.q == GS.AddedTask(g.h.q, NewTask(GeneratedID(g.counter + 1), c, user, prompt, now), queued, now)
    ensures G.Possible(g, events) && Tracks(G.After(g, events), x')
  {
    events := GS.MentionEvents(g, c, user, prompt, now);
    MentionTracks(x.direct, g.workers, GeneratedID(g.counter + 1), c, queued);
    SoundTracks(G.After(g, events), x');
  }

  lemma SoundTracks(g: G.Gateway, x: Moment)
    requires GS.Sound(g) && g.h.q == x.s.q && g.counter == x.counter && g.mention.None? && g.owed == 0
    requires DirectKnown(x.direct, g.workers)
    ensures Tracks(g, x)
  {
  }

  /** A new worker leaves the directly run tasks known, and is one of them if run directly. */
  lemma MentionTracks(direct: map<Text, Text>, workers: map<Text, G.Decision>, id: Text, c: Text, queued: bool)
    requires DirectKnown(direct, workers) && id !in workers
    ensures DirectKnown(if queued then direct else direct[id := c], workers[id := G.Decision(c, queued)])
  {
  }

  lemma DirectCallRun(
      g: G.Gateway, x: Moment, owner: Text, call: WorkerCall, found: Option<Text>, x': Moment, streamWorker: bool,
      env: S.Env)
      returns (events: seq<G.Event>)
    requires Tracks(g, x) && Effect(x, DirectCall(owner, call, found), x', streamWorker, env)
    ensures G.Possible(g, events) && Tracks(G.After(g, events), x')
    ensures IsTerminal(call) && owner !in g.ended ==> found == Some(owner)
  {
    events := DirectCallEvents(g, x.s, x'.s, owner, call, found, env);
    if IsTerminal(call) && owner !in g.ended {
      FirstCallIsOwn(g, x.s, x'.s, owner, call, found, env);
    }
  }

  /** One call is a gateway run. */
  lemma CallIsRun(g: G.Gateway, x: Moment, c: Call, x': Moment, streamWorker: bool, env: S.Env)
      returns (events: seq<G.Event>)
    requires Tracks(g, x) && Effect(x, c, x', streamWorker, env)
    ensures G.Possible(g, events) && Tracks(G.After(g, events), x')
  {
    match c
    case Mention(channel, user, prompt, now) =>
      MentionMoment(x, channel, user, prompt, now, x', streamWorker, env);
      if x' == x {
        return [];
      }
      events := MentionRun(g, x, channel, user, prompt, now, x', Count(x.s.q.channels, channel) > 0);
    case DirectCall(owner, call, found) =>
      events := DirectCallRun(g, x, owner, call, found, x', streamWorker, env);
    case DirectError(owner) =>
      events := GS.MarkDoneEvents(g, x.s, owner, owner, env);
  }

  /** The calls lead from each moment to the next one. */
  ghost predicate Calls(moments: seq<Moment>, calls: seq<Call>, streamWorker: bool, env: S.Env)
  {
    && |moments| == |calls| + 1
    && (calls != [] ==>
          && Calls(Front(moments), Front(calls), streamWorker, env)
          && Effect(Last(Front(moments)), Last(calls), Last(moments), streamWorker, env))
  }

  /** Any sequence of calls of the gateway, whatever its workers do, is a gateway run. So at most
      one task of each channel ever runs. */
  lemma {:induction false} GatewayCallsAreRuns(
      g: G.Gateway, moments: seq<Moment>, calls: seq<Call>, streamWorker: bool, env: S.Env)
      returns (events: seq<G.Event>)
    requires Calls(moments, calls, streamWorker, env) && Tracks(g, moments[0])
    ensures G.Possible(g, events) && Tracks(G.After(g, events), Last(moments))
    ensures G.OnePerChannel(Last(moments).s.q)
  {
    if calls == [] {
      return [];
    }
    var before := GatewayCallsAreRuns(g, Front(moments), Front(calls), streamWorker, env);
    var g1 := G.After(g, before);
    var last := CallIsRun(g1, Last(Front(moments)), Last(calls), Last(moments), streamWorker, env);
    GS.RunConcat(g, before, last);
    events := before + last;
  }
}
