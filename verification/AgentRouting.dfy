/** How one agent's updates reach the prompts waiting for them (agentHandle in
    runtime/supervisor/manager.go): a table from run id to a 64-slot channel, filled by
    `subscribe`, emptied by `unsubscribe`, and written to by the reader's `routeEvent`.

    Prompt number `k` made channel number `k`; it is live until its deferred `unsubscribe`. */
module AgentRouting {
  import opened Control
  import opened Sequences
  import LossyChannel

  /** `start` and `end` are history: the span of routed updates the channel was registered for.
      `phantoms` counts receives that found the channel closed and empty, which yield a zero update. */
  datatype Prompt = Prompt(
    runId: string, channel: LossyChannel.Channel<StreamEvent>, live: bool, start: nat, end: nat, phantoms: nat)

  /** `routed` is history: every update handed to `routeEvent`. */
  datatype State = State(streams: map<string, nat>, prompts: seq<Prompt>, routed: seq<StreamEvent>, crashed: bool)

  datatype Step =
    | Subscribe(runId: string)
    | Unsubscribe(prompt: nat)
    | Route(update: StreamEvent)
    | Consume(prompt: nat)

  const INIT := State(map[], [], [], false)

  predicate Enabled(s: State, step: Step) {
    !s.crashed &&
    match step
    case Subscribe(_) => true
    case Unsubscribe(k) => k < |s.prompts| && s.prompts[k].live
    case Route(_) => true
    case Consume(k) =>
      k < |s.prompts| && s.prompts[k].live && (s.prompts[k].channel.buffer != [] || s.prompts[k].channel.closed)
  }

  /** Deletes and closes whatever channel the table holds for the run id. */
  function CloseStream(s: State, runId: string): State {
    if runId in s.streams && s.streams[runId] < |s.prompts| then
      var c := s.streams[runId];
      if s.prompts[c].channel.closed then s.(crashed := true)
      else s.(streams := s.streams - {runId},
              prompts := s.prompts[c := s.prompts[c].(channel := LossyChannel.Close(s.prompts[c].channel),
                end := |s.routed|)])
    else s
  }

  function RouteEvent(s: State, update: StreamEvent): State {
    var t := s.(routed := s.routed + [update]);
    if update.runId in s.streams && s.streams[update.runId] < |s.prompts| then
      var c := s.streams[update.runId];
      if s.prompts[c].channel.closed then t.(crashed := true)
      else t.(prompts := s.prompts[c := s.prompts[c].(channel := LossyChannel.Offer(s.prompts[c].channel, update))])
    else t
  }

  function Apply(s: State, step: Step): State
    requires Enabled(s, step)
  {
    match step
    case Subscribe(runId) =>
      s.(streams := s.streams[runId := |s.prompts|],
         prompts := s.prompts + [Prompt(runId, LossyChannel.Make(), true, |s.routed|, |s.routed|, 0)])
    case Unsubscribe(k) =>
      var t := CloseStream(s, s.prompts[k].runId);
      t.(prompts := t.prompts[k := t.prompts[k].(live := false)])
    case Route(update) => RouteEvent(s, update)
    case Consume(k) =>
      var p := s.prompts[k];
      if p.channel.buffer != []
      then s.(prompts := s.prompts[k := p.(channel := LossyChannel.Take(p.channel))])
      else s.(prompts := s.prompts[k := p.(phantoms := p.phantoms + 1)])
  }

  function Next(s: State, step: Step): State {
    if Enabled(s, step) then Apply(s, step) else s
  }

  function After(steps: seq<Step>): State {
    if steps == [] then INIT else Next(After(steps[..|steps| - 1]), steps[|steps| - 1])
  }

  predicate RunLive(s: State, runId: string) {
    exists k :: 0 <= k < |s.prompts| && s.prompts[k].live && s.prompts[k].runId == runId
  }

  /** Live prompts have distinct run ids: a prompt starts only when its id is not in use. */
  predicate Polite(s: State, step: Step) {
    step.Subscribe? ==> !RunLive(s, step.runId)
  }

  predicate PoliteRun(steps: seq<Step>) {
    steps == [] || (PoliteRun(steps[..|steps| - 1]) && Polite(After(steps[..|steps| - 1]), steps[|steps| - 1]))
  }

  /** The updates of one run. */
  function ForRun(runId: string, updates: seq<StreamEvent>): seq<StreamEvent> {
    Filter((u: StreamEvent) => u.runId == runId, updates)
  }

  /** Prompt `k` owns its table entry exactly while it is live; its channel is open exactly then,
      and was offered exactly its own run's updates from the span it was registered for. */
  ghost predicate PromptInv(s: State, k: nat)
    requires k < |s.prompts|
  {
    var p := s.prompts[k];
    && (p.live <==> p.runId in s.streams && s.streams[p.runId] == k)
    && (p.live <==> !p.channel.closed)
    && p.phantoms == 0
    && LossyChannel.Valid(p.channel)
    && p.start <= p.end <= |s.routed|
    && p.channel.offered == ForRun(p.runId, if p.live then s.routed[p.start..] else s.routed[p.start..p.end])
  }

  ghost predicate Inv(s: State) {
    && !s.crashed
    && (forall id :: id in s.streams ==> s.streams[id] < |s.prompts| && s.prompts[s.streams[id]].runId == id)
    && (forall k :: 0 <= k < |s.prompts| ==> PromptInv(s, k))
  }

  lemma InvSubscribe(s: State, runId: string)
    requires Inv(s) && !RunLive(s, runId)
    ensures Inv(Next(s, Subscribe(runId)))
  {
    var t := Next(s, Subscribe(runId));
    forall k | 0 <= k < |t.prompts| ensures PromptInv(t, k) {
      if k < |s.prompts| { assert PromptInv(s, k); }
      else { assert t.routed[t.prompts[k].start..] == []; }
    }
  }

  lemma InvUnsubscribe(s: State, k: nat)
    requires Inv(s) && Enabled(s, Unsubscribe(k))
    ensures Inv(Next(s, Unsubscribe(k)))
  {
    var t := Next(s, Unsubscribe(k));
    assert PromptInv(s, k);
    forall j | 0 <= j < |t.prompts| ensures PromptInv(t, j) {
      assert PromptInv(s, j);
      if j == k { assert s.routed[s.prompts[k].start..] == s.routed[s.prompts[k].start..|s.routed|]; }
    }
  }

  lemma InvRoute(s: State, update: StreamEvent)
    requires Inv(s)
    ensures Inv(Next(s, Route(update)))
  {
    var t := Next(s, Route(update));
    if update.runId in s.streams { assert PromptInv(s, s.streams[update.runId]); }
    forall k | 0 <= k < |t.prompts| ensures PromptInv(t, k) {
      assert PromptInv(s, k);
      var p := s.prompts[k];
      if p.live {
        assert t.routed[p.start..] == s.routed[p.start..] + [update];
        FilterSnoc((u: StreamEvent) => u.runId == p.runId, s.routed[p.start..], update);
        LossyChannel.OfferValid(p.channel, update);
      } else {
        assert t.routed[p.start..p.end] == s.routed[p.start..p.end];
      }
    }
  }

  lemma InvConsume(s: State, k: nat)
    requires Inv(s) && Enabled(s, Consume(k))
    ensures Inv(Next(s, Consume(k)))
  {
    var t := Next(s, Consume(k));
    assert PromptInv(s, k);
    LossyChannel.TakeValid(s.prompts[k].channel);
    forall j | 0 <= j < |t.prompts| ensures PromptInv(t, j) {
      assert PromptInv(s, j);
    }
  }

  lemma InvStep(s: State, step: Step)
    requires Inv(s) && Polite(s, step)
    ensures Inv(Next(s, step))
  {
    if Enabled(s, step) {
      match step
      case Subscribe(runId) => InvSubscribe(s, runId);
      case Unsubscribe(k) => InvUnsubscribe(s, k);
      case Route(update) => InvRoute(s, update);
      case Consume(k) => InvConsume(s, k);
    }
  }

  lemma {:induction false} InvAfter(steps: seq<Step>)
    requires PoliteRun(steps)
    ensures Inv(After(steps))
  {
    if steps != [] {
      InvAfter(steps[..|steps| - 1]);
      InvStep(After(steps[..|steps| - 1]), steps[|steps| - 1]);
    }
  }

  /** Over every history with distinct live run ids: nothing is sent on a closed channel, no prompt
      sees a phantom, and each prompt has consumed and queued an in-order, duplicate-free part of
      its own run's updates routed since it subscribed: exactly those whose own offer found fewer than
      64 queued. */
  lemma RoutingConserves(steps: seq<Step>, k: nat)
    requires PoliteRun(steps) && k < |After(steps).prompts|
    ensures var s := After(steps); var p := s.prompts[k]; var c := p.channel;
      && !s.crashed && p.phantoms == 0
      && p.start <= p.end <= |s.routed|
      && c.offered == ForRun(p.runId, s.routed[p.start..if p.live then |s.routed| else p.end])
      && |c.depths| == |c.offered| && c.taken + c.buffer == LossyChannel.Accepted(c.offered, c.depths)
      && Subsequence(c.taken + c.buffer, c.offered)
      && |c.buffer| <= LossyChannel.CAPACITY
      && |c.taken| + |c.buffer| + LossyChannel.Dropped(c.depths) == |c.offered|
      && (forall u :: u in c.taken + c.buffer ==> u.runId == p.runId)
  {
    InvAfter(steps);
    PromptConserves(After(steps), k);
  }

  lemma PromptConserves(s: State, k: nat)
    requires Inv(s) && k < |s.prompts|
    ensures var p := s.prompts[k]; var c := p.channel;
      && p.start <= p.end <= |s.routed| && p.phantoms == 0
      && c.offered == ForRun(p.runId, s.routed[p.start..if p.live then |s.routed| else p.end])
      && |c.depths| == |c.offered| && c.taken + c.buffer == LossyChannel.Accepted(c.offered, c.depths)
      && Subsequence(c.taken + c.buffer, c.offered)
      && |c.buffer| <= LossyChannel.CAPACITY
      && |c.taken| + |c.buffer| + LossyChannel.Dropped(c.depths) == |c.offered|
      && (forall u :: u in c.taken + c.buffer ==> u.runId == p.runId)
  {
    assert PromptInv(s, k);
    var p := s.prompts[k];
    var span := s.routed[p.start..if p.live then |s.routed| else p.end];
    assert p.live ==> s.routed[p.start..] == span;
    LossyChannel.Conservation(p.channel);
    FilterMembers((u: StreamEvent) => u.runId == p.runId, span);
    SubsequenceMembers(p.channel.taken + p.channel.buffer, p.channel.offered);
  }

  /** Every table entry names the channel of a prompt with that run id, and the channel is open. */
  predicate Attached(s: State) {
    && !s.crashed
    && forall id :: id in s.streams ==>
        s.streams[id] < |s.prompts| && s.prompts[s.streams[id]].runId == id && !s.prompts[s.streams[id]].channel.closed
  }

  lemma AttachedStep(s: State, step: Step)
    requires Attached(s)
    ensures Attached(Next(s, step))
  {
  }

  /** Over every history, run ids shared or not, nothing is sent on a closed channel and none is closed twice. */
  lemma {:induction false} RoutingNeverPanics(steps: seq<Step>)
    ensures Attached(After(steps))
  {
    if steps != [] {
      RoutingNeverPanics(steps[..|steps| - 1]);
      AttachedStep(After(steps[..|steps| - 1]), steps[|steps| - 1]);
    }
  }

  /** The condition is exact: starting a prompt keeps every live prompt attached to its own open
      channel if and only if the run id was not in use. */
  lemma SharedRunIdExact(s: State, runId: string)
    requires Inv(s)
    ensures Inv(Next(s, Subscribe(runId))) <==> !RunLive(s, runId)
  {
    if RunLive(s, runId) {
      var k :| 0 <= k < |s.prompts| && s.prompts[k].live && s.prompts[k].runId == runId;
      var t := Next(s, Subscribe(runId));
      assert t.streams[runId] == |s.prompts|;
      assert !PromptInv(t, k);
    } else {
      InvSubscribe(s, runId);
    }
  }

  /** Every live prompt is in the table under its run id, with its own channel open. */
  predicate OwnChannels(s: State) {
    forall k :: 0 <= k < |s.prompts| && s.prompts[k].live ==>
      s.prompts[k].runId in s.streams && s.streams[s.prompts[k].runId] == k && !s.prompts[k].channel.closed
  }

  predicate OwnThroughout(steps: seq<Step>) {
    OwnChannels(After(steps)) && (steps == [] || OwnThroughout(steps[..|steps| - 1]))
  }

  lemma SharedLosesChannel(s: State, step: Step)
    requires !s.crashed && !Polite(s, step)
    ensures !OwnChannels(Next(s, step))
  {
    var k :| 0 <= k < |s.prompts| && s.prompts[k].live && s.prompts[k].runId == step.runId;
    var t := Next(s, step);
    assert t.prompts[k] == s.prompts[k] && t.streams[step.runId] == |s.prompts|;
  }

  lemma InvOwnsChannels(s: State)
    requires Inv(s)
    ensures OwnChannels(s)
  {
    forall k | 0 <= k < |s.prompts| && s.prompts[k].live
      ensures s.prompts[k].runId in s.streams && s.streams[s.prompts[k].runId] == k && !s.prompts[k].channel.closed
    {
      assert PromptInv(s, k);
    }
  }

  /** Over every history: live prompts keep their own open channels throughout if and only if no prompt
      starts with a run id in use. */
  lemma {:induction false} OwnChannelsExact(steps: seq<Step>)
    ensures OwnThroughout(steps) <==> PoliteRun(steps)
  {
    if steps != [] {
      var init, last := steps[..|steps| - 1], steps[|steps| - 1];
      OwnChannelsExact(init);
      RoutingNeverPanics(init);
      if PoliteRun(steps) {
        InvAfter(steps);
        InvOwnsChannels(After(steps));
      } else if PoliteRun(init) {
        SharedLosesChannel(After(init), last);
      }
    }
  }

  /** Two live prompts on one run id: when the first finishes it closes the second's channel, and
      the second then receives an update nobody sent. */
  lemma SharedRunIdPhantom(runId: string)
    ensures var s := After([Subscribe(runId), Subscribe(runId), Unsubscribe(0), Consume(1)]);
      && |s.prompts| == 2
      && s.prompts[1].live && s.prompts[1].channel.closed && s.prompts[1].phantoms == 1
      && !s.prompts[0].channel.closed
  {
    var first, second, both := [Subscribe(runId)], [Subscribe(runId), Subscribe(runId)],
                               [Subscribe(runId), Subscribe(runId), Unsubscribe(0)];
    AfterSnoc([], Subscribe(runId));
    assert [] + first == first;
    AfterSnoc(first, Subscribe(runId));
    assert first + [Subscribe(runId)] == second;
    AfterSnoc(second, Unsubscribe(0));
    assert second + [Unsubscribe(0)] == both;
    AfterSnoc(both, Consume(1));
    assert both + [Consume(1)] == [Subscribe(runId), Subscribe(runId), Unsubscribe(0), Consume(1)];
  }

  lemma AfterSnoc(steps: seq<Step>, step: Step)
    ensures After(steps + [step]) == Next(After(steps), step)
  {
    assert (steps + [step])[..|steps|] == steps;
  }

  /** The handle object: its methods are the locked sections of the source. They work for any run
      ids; `Inv` is kept under the conditions of `InvStep`. */
  class AgentHandle {
    var streams: map<string, nat>
    var prompts: seq<Prompt>
    var routed: seq<StreamEvent>

    ghost function View(): State
      reads this
    {
      State(streams, prompts, routed, false)
    }

    ghost predicate Valid()
      reads this
    {
      Attached(View())
    }

    constructor ()
      ensures View() == INIT && Valid() && Inv(View())
    {
      streams, prompts, routed := map[], [], [];
    }

    method Subscribe(runId: string) returns (k: nat)
      requires Valid()
      modifies this
      ensures View() == Next(old(View()), Step.Subscribe(runId)) && Valid()
      ensures k == |old(prompts)|
    {
      k := |prompts|;
      prompts := prompts + [Prompt(runId, LossyChannel.Make(), true, |routed|, |routed|, 0)];
      streams := streams[runId := k];
    }

    method Unsubscribe(k: nat)
      requires Valid() && k < |prompts| && prompts[k].live
      modifies this
      ensures View() == Next(old(View()), Step.Unsubscribe(k)) && Valid()
    {
      var runId := prompts[k].runId;
      if runId in streams {
        var c := streams[runId];
        streams := streams - {runId};
        prompts := prompts[c := prompts[c].(channel := LossyChannel.Close(prompts[c].channel), end := |routed|)];
      }
      prompts := prompts[k := prompts[k].(live := false)];
    }

    method RouteEvent(update: StreamEvent)
      requires Valid()
      modifies this
      ensures View() == Next(old(View()), Route(update)) && Valid()
    {
      if update.runId in streams {
        var c := streams[update.runId];
        prompts := prompts[c := prompts[c].(channel := LossyChannel.Offer(prompts[c].channel, update))];
      }
      routed := routed + [update];
    }
  }
}
