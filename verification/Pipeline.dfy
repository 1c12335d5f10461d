/** The prompt pipeline from an agent's stdout to a broker subscriber, as one machine:
    the JSON-RPC client of AcpClient that reads it, the per-run channels of AgentRouting, the
    numbering loop of PromptLoop, the two hops of Relay, and the fan-out of SessionBroker. Every
    stage moves on its own; the reader can fail, streams can be cut, prompts ended and subscribers
    come and go at any moment. */
module Pipeline {
  import opened Control
  import opened Sequences
  import opened PromptLoop
  import LossyChannel
  import Acp = AcpClient
  import Routing = AgentRouting
  import Hops = Relay
  import Broker = SessionBroker

  /** Prompt `k` between the supervisor's loop and the worker. `run` is its record at dispatch,
      `last` the last record the node has seen. */
  datatype Pipe = Pipe(
    run: Run, looping: bool, hop1: seq<Item>, up1: bool, relaying: bool, last: Run, hop2: seq<Item>, up2: bool)

  /** `stdout` is what the agent has written and the reader not yet decoded. `written` and `missed` are
      history: all envelopes the agent has written, and the updates decoded before there was a handler. */
  datatype State = State(
    written: seq<Acp.Envelope>, stdout: seq<Acp.Envelope>, client: Acp.State, missed: seq<StreamEvent>,
    routing: Routing.State, pipes: seq<Pipe>, broker: Broker.State)

  datatype Step =
    | Write(envelope: Acp.Envelope)
    | Deliver
    | InClient(rpc: Acp.Step)
    | Open(session: Session, containerId: string, runId: string, input: string)
    | Number(prompt: nat)
    | Finish(prompt: nat)
    | RelayToNode(prompt: nat)
    | CutFirstHop(prompt: nat)
    | RelayToWorker(prompt: nat)
    | CutSecondHop(prompt: nat)
    | InBroker(step: Broker.Step)

  const INIT := State([], [], Acp.INIT, [], Routing.INIT, [], Broker.INIT)

  /** The reader decodes what the agent wrote and nothing else; an agent is prompted only after its
      handle has been set as the client's handler. */
  predicate Enabled(s: State, step: Step) {
    match step
    case Write(_) => true
    case Deliver => s.stdout != [] && Acp.Enabled(s.client, Acp.Decode(s.stdout[0]))
    case InClient(r) => !r.Decode?
    case Open(_, _, _, _) => s.client.handlerSet
    case Number(k) =>
      k < |s.pipes| && k < |s.routing.prompts| && s.pipes[k].looping && s.routing.prompts[k].channel.buffer != []
      && Routing.Enabled(s.routing, Routing.Consume(k))
    case Finish(k) => k < |s.pipes| && Routing.Enabled(s.routing, Routing.Unsubscribe(k))
    case RelayToNode(k) => k < |s.pipes| && s.pipes[k].relaying && s.pipes[k].hop1 != []
    case CutFirstHop(k) => k < |s.pipes| && s.pipes[k].up1
    case RelayToWorker(k) => k < |s.pipes| && s.pipes[k].hop2 != [] && Broker.Relay(k) !in s.broker.flights
    case CutSecondHop(k) => k < |s.pipes| && s.pipes[k].up2
    case InBroker(b) => !(b.Begin? && b.pub.Relay?)
  }

  function NewPipe(run: Run): Pipe {
    Pipe(run, true, [], true, true, ZERO_RUN, [], true)
  }

  function Frame(e: Event): Item {
    Item(e, ZERO_RUN, false, "")
  }

  function FinalFrame(run: Run): Item {
    Item(ZERO_EVENT, run, true, "")
  }

  function Push(p: Pipe, frames: seq<Item>): Pipe {
    if p.up2 then p.(hop2 := p.hop2 + frames) else p
  }

  /** The node takes one item: typed events go on, a final item also sends the run and ends the relay. */
  function NodeStep(p: Pipe): Pipe
    requires p.hop1 != []
  {
    var item := p.hop1[0];
    var frames := (if item.event.kind != "" then [Frame(item.event)] else [])
                + (if item.final then [FinalFrame(item.run)] else []);
    Push(p.(hop1 := p.hop1[1..], last := item.run, relaying := !item.final), frames)
  }

  /** The first hop breaks: items on it are lost, and the node settles for the last run it saw. */
  function CutFirst(p: Pipe): Pipe {
    var q := p.(hop1 := [], up1 := false, relaying := false);
    if p.relaying && p.last.id != "" then Push(q, [FinalFrame(p.last)]) else q
  }

  /** The reader decodes one envelope; an update it hands to the handler is routed there and then. */
  function Read(s: State): State
    requires Enabled(s, Deliver)
  {
    var env := s.stdout[0];
    var t := s.(stdout := s.stdout[1..], client := Acp.Next(s.client, Acp.Decode(env)));
    if !Acp.IsUpdate(env) then t
    else if s.client.handlerSet then t.(routing := Routing.Next(s.routing, Routing.Route(env.update.value)))
    else t.(missed := s.missed + [env.update.value])
  }

  function Apply(s: State, step: Step): State
    requires Enabled(s, step)
  {
    match step
    case Write(env) => s.(written := s.written + [env], stdout := s.stdout + [env])
    case Deliver => Read(s)
    case InClient(r) => s.(client := Acp.Next(s.client, r))
    case Open(session, containerId, runId, input) =>
      s.(routing := Routing.Next(s.routing, Routing.Subscribe(runId)),
         pipes := s.pipes + [NewPipe(NewRun(session, containerId, runId, input))])
    case Number(k) =>
      var p, c := s.pipes[k], s.routing.prompts[k].channel;
      var item := ItemFor(p.run, |c.taken| + 1, c.buffer[0]);
      s.(routing := Routing.Next(s.routing, Routing.Consume(k)),
         pipes := s.pipes[k := p.(looping := !item.final, hop1 := if p.up1 then p.hop1 + [item] else p.hop1)])
    case Finish(k) =>
      s.(routing := Routing.Next(s.routing, Routing.Unsubscribe(k)),
         pipes := s.pipes[k := s.pipes[k].(looping := false)])
    case RelayToNode(k) => s.(pipes := s.pipes[k := NodeStep(s.pipes[k])])
    case CutFirstHop(k) => s.(pipes := s.pipes[k := CutFirst(s.pipes[k])])
    case RelayToWorker(k) =>
      var e := s.pipes[k].hop2[0].event;
      var t := s.(pipes := s.pipes[k := s.pipes[k].(hop2 := s.pipes[k].hop2[1..])]);
      if e.kind != "" then t.(broker := Broker.Next(s.broker, Broker.Begin(Broker.Relay(k), e))) else t
    case CutSecondHop(k) => s.(pipes := s.pipes[k := s.pipes[k].(hop2 := [], up2 := false)])
    case InBroker(b) => s.(broker := Broker.Next(s.broker, b))
  }

  function Next(s: State, step: Step): State {
    if Enabled(s, step) then Apply(s, step) else s
  }

  function After(steps: seq<Step>): State {
    if steps == [] then INIT else Next(After(steps[..|steps| - 1]), steps[|steps| - 1])
  }

  /** Live prompts have distinct run ids and each cancel closure runs at most once. */
  predicate Polite(s: State, step: Step) {
    && (step.Open? ==> !Routing.RunLive(s.routing, step.runId))
    && (step.InBroker? ==> Broker.Polite(s.broker, step.step))
  }

  predicate PoliteRun(steps: seq<Step>) {
    steps == [] || (PoliteRun(steps[..|steps| - 1]) && Polite(After(steps[..|steps| - 1]), steps[|steps| - 1]))
  }

  // ----- The invariant -----

  function Untag(events: seq<Broker.Tagged>): seq<Event> {
    seq(|events|, i requires 0 <= i < |events| => events[i].event)
  }

  /** What prompt `k`'s relay has published so far. */
  function PublishedBy(b: Broker.State, k: nat): seq<Event> {
    Untag(Broker.By(Broker.Relay(k), b.begun))
  }

  /** Everything the numbering loop of prompt `k` has produced, typed events only. */
  function Produced(s: State, k: nat): seq<Event>
    requires k < |s.pipes| && k < |s.routing.prompts|
  {
    Hops.TypedEvents(Stream(s.pipes[k].run, s.routing.prompts[k].channel.taken))
  }

  /** Published, then on the second hop, then on the first: together what the loop produced, unless
      a hop was cut, after which what is left is the beginning of it. */
  ghost predicate Flows(p: Pipe, published: seq<Event>, produced: seq<Event>) {
    var onward := published + Hops.TypedEvents(p.hop2) + Hops.TypedEvents(p.hop1);
    && (!p.up1 ==> p.hop1 == []) && (!p.up2 ==> p.hop2 == [])
    && published <= produced
    && (p.up2 ==> onward <= produced)
    && (p.up1 && p.up2 ==> onward == produced)
  }

  ghost predicate PipeInv(s: State, k: nat)
    requires k < |s.pipes| && k < |s.routing.prompts|
  {
    s.pipes[k].run.id == s.routing.prompts[k].runId && Flows(s.pipes[k], PublishedBy(s.broker, k), Produced(s, k))
  }

  /** The updates on stdout that the reader has yet to come to. */
  function Unread(s: State): seq<StreamEvent> {
    Acp.Updates(s.stdout)
  }

  /** The updates routed, and those still to be. */
  function Emitted(s: State): seq<StreamEvent> {
    s.routing.routed + Unread(s)
  }

  /** What was routed is what the handler was given; with what it missed and what is unread, that is
      every update written. Prompts come only after the handler. */
  ghost predicate ReadInv(s: State) {
    && s.routing.routed == s.client.notified
    && Acp.Updates(s.written) == s.missed + Emitted(s)
    && (!s.client.handlerSet ==> s.routing.routed == [] && s.pipes == [])
  }

  ghost predicate Inv(s: State) {
    && Routing.Inv(s.routing)
    && Broker.Inv(s.broker)
    && |s.pipes| == |s.routing.prompts|
    && ReadInv(s)
    && (forall x :: x in s.broker.begun && x.pub.Relay? ==> x.pub.prompt < |s.pipes|)
    && (forall k :: 0 <= k < |s.pipes| ==> PipeInv(s, k))
  }

  lemma TypedSnoc(items: seq<Item>, x: Item)
    ensures Hops.TypedEvents(items + [x]) == Hops.TypedEvents(items) + Hops.Typed(x)
  {
    Hops.TypedConcat(items, [x]);
    assert Hops.TypedEvents([x]) == Hops.Typed(x) + Hops.TypedEvents([]);
  }

  /** Steps that leave every pipe, what each loop has taken and what each relay has published alone. */
  lemma PipesFramed(s: State, t: State)
    requires Inv(s) && t.pipes == s.pipes && |t.routing.prompts| == |s.routing.prompts|
    requires forall k :: 0 <= k < |s.pipes| ==>
      && t.routing.prompts[k].channel.taken == s.routing.prompts[k].channel.taken
      && t.routing.prompts[k].runId == s.routing.prompts[k].runId
      && PublishedBy(t.broker, k) == PublishedBy(s.broker, k)
    ensures forall k :: 0 <= k < |t.pipes| ==> PipeInv(t, k)
  {
    forall k | 0 <= k < |t.pipes| ensures PipeInv(t, k) {
      assert PipeInv(s, k);
    }
  }

  lemma UpdatesHead(envelopes: seq<Acp.Envelope>)
    requires envelopes != []
    ensures Acp.Updates(envelopes) ==
      (if Acp.IsUpdate(envelopes[0]) then [envelopes[0].update.value] else []) + Acp.Updates(envelopes[1..])
  {
    assert envelopes == [envelopes[0]] + envelopes[1..];
    Acp.UpdatesConcat([envelopes[0]], envelopes[1..]);
    Acp.UpdatesSnoc([], envelopes[0]);
    assert [] + [envelopes[0]] == [envelopes[0]];
  }

  lemma RouteIsRecorded(routing: Routing.State, u: StreamEvent)
    requires !routing.crashed
    ensures Routing.Next(routing, Routing.Route(u)).routed == routing.routed + [u]
  {
  }

  lemma ReadKept(s: State)
    requires ReadInv(s) && !s.routing.crashed && Enabled(s, Deliver)
    ensures ReadInv(Read(s))
  {
    var env, rest := s.stdout[0], Acp.Updates(s.stdout[1..]);
    UpdatesHead(s.stdout);
    if Acp.IsUpdate(env) {
      var u := env.update.value;
      RouteIsRecorded(s.routing, u);
      Associate(s.missed, s.routing.routed, [u], rest);
      if s.client.handlerSet {
        assert s.routing.routed + ([u] + rest) == s.routing.routed + [u] + rest;
      } else {
        assert s.missed + ([] + ([u] + rest)) == s.missed + [u] + ([] + rest);
      }
    } else {
      assert [] + rest == rest;
    }
  }

  lemma WriteKept(s: State, env: Acp.Envelope)
    requires ReadInv(s)
    ensures ReadInv(s.(written := s.written + [env], stdout := s.stdout + [env]))
  {
    Acp.UpdatesSnoc(s.written, env);
    Acp.UpdatesSnoc(s.stdout, env);
    Associate(s.missed, s.routing.routed, Unread(s), Acp.Updates([env]));
  }

  lemma Associate(a: seq<StreamEvent>, b: seq<StreamEvent>, c: seq<StreamEvent>, d: seq<StreamEvent>)
    ensures a + (b + c) + d == a + (b + (c + d))
  {
  }

  lemma InvDeliver(s: State)
    requires Inv(s) && Enabled(s, Deliver)
    ensures Inv(Next(s, Deliver))
  {
    var env := s.stdout[0];
    if Acp.IsUpdate(env) { Routing.InvStep(s.routing, Routing.Route(env.update.value)); }
    ReadKept(s);
    PipesFramed(s, Next(s, Deliver));
  }

  lemma InvClient(s: State, r: Acp.Step)
    requires Inv(s) && Enabled(s, InClient(r))
    ensures Inv(Next(s, InClient(r)))
  {
    PipesFramed(s, Next(s, InClient(r)));
  }

  lemma InvOpen(s: State, step: Step)
    requires Inv(s) && step.Open? && Polite(s, step)
    ensures Inv(Next(s, step))
  {
    Routing.InvStep(s.routing, Routing.Subscribe(step.runId));
    var t := Next(s, step);
    var n := |s.pipes|;
    NothingByFutureRelay(s, n);
    forall k | 0 <= k < |t.pipes| ensures PipeInv(t, k) {
      if k < n { assert PipeInv(s, k); }
    }
  }

  lemma NothingByFutureRelay(s: State, n: nat)
    requires Inv(s) && |s.pipes| <= n
    ensures PublishedBy(s.broker, n) == []
  {
    FilterNone((t: Broker.Tagged) => t.pub == Broker.Relay(n), s.broker.begun);
  }

  /** Numbering an update adds its item to what was produced and to the first hop. */
  lemma FlowsNumbered(p: Pipe, published: seq<Event>, taken: seq<StreamEvent>, u: StreamEvent, looping: bool)
    requires Flows(p, published, Hops.TypedEvents(Stream(p.run, taken)))
    ensures var item := ItemFor(p.run, |taken| + 1, u);
      Flows(p.(looping := looping, hop1 := if p.up1 then p.hop1 + [item] else p.hop1), published,
            Hops.TypedEvents(Stream(p.run, taken + [u])))
  {
    var item := ItemFor(p.run, |taken| + 1, u);
    StreamSnoc(p.run, taken, u);
    TypedSnoc(Stream(p.run, taken), item);
    TypedSnoc(p.hop1, item);
  }

  lemma InvNumber(s: State, k: nat)
    requires Inv(s) && Enabled(s, Number(k))
    ensures Inv(Next(s, Number(k)))
  {
    Routing.InvStep(s.routing, Routing.Consume(k));
    var t := Next(s, Number(k));
    var c := s.routing.prompts[k].channel;
    assert PipeInv(s, k);
    FlowsNumbered(s.pipes[k], PublishedBy(s.broker, k), c.taken, c.buffer[0], t.pipes[k].looping);
    assert PipeInv(t, k);
    forall j | 0 <= j < |t.pipes| && j != k ensures PipeInv(t, j) {
      assert PipeInv(s, j);
    }
  }

  lemma UnsubscribeKeepsTaken(routing: Routing.State, k: nat, j: nat)
    requires j < |routing.prompts|
    ensures var t := Routing.Next(routing, Routing.Unsubscribe(k));
      && |t.prompts| == |routing.prompts| && t.routed == routing.routed
      && t.prompts[j].runId == routing.prompts[j].runId
      && t.prompts[j].channel.taken == routing.prompts[j].channel.taken
  {
  }

  lemma InvFinish(s: State, k: nat)
    requires Inv(s) && Enabled(s, Finish(k))
    ensures Inv(Next(s, Finish(k)))
  {
    Routing.InvStep(s.routing, Routing.Unsubscribe(k));
    UnsubscribeKeepsTaken(s.routing, k, k);
    var t := Next(s, Finish(k));
    forall j | 0 <= j < |t.pipes| ensures PipeInv(t, j) {
      assert PipeInv(s, j);
      UnsubscribeKeepsTaken(s.routing, k, j);
    }
  }

  lemma NodeFrames(p: Pipe)
    requires p.hop1 != [] && p.up2
    ensures Hops.TypedEvents(NodeStep(p).hop2) == Hops.TypedEvents(p.hop2) + Hops.Typed(p.hop1[0])
  {
    var item := p.hop1[0];
    if item.event.kind != "" {
      TypedSnoc(p.hop2, Frame(item.event));
      if item.final {
        TypedSnoc(p.hop2 + [Frame(item.event)], FinalFrame(item.run));
        assert NodeStep(p).hop2 == p.hop2 + [Frame(item.event)] + [FinalFrame(item.run)];
      } else {
        assert NodeStep(p).hop2 == p.hop2 + [Frame(item.event)];
      }
    } else if item.final {
      TypedSnoc(p.hop2, FinalFrame(item.run));
      assert NodeStep(p).hop2 == p.hop2 + [FinalFrame(item.run)];
    } else {
      assert NodeStep(p).hop2 == p.hop2;
    }
  }

  lemma Regroup(a: seq<Event>, b: seq<Event>, c: seq<Event>, d: seq<Event>)
    ensures a + (b + c) + d == a + b + (c + d)
  {
  }

  /** Taking an item off the first hop moves its typed event to the second. */
  lemma FlowsToNode(p: Pipe, published: seq<Event>, produced: seq<Event>)
    requires p.hop1 != [] && Flows(p, published, produced)
    ensures Flows(NodeStep(p), published, produced)
  {
    var q := NodeStep(p);
    var head, mid, rest := Hops.Typed(p.hop1[0]), Hops.TypedEvents(p.hop2), Hops.TypedEvents(p.hop1[1..]);
    assert Hops.TypedEvents(p.hop1) == head + rest;
    assert q.hop1 == p.hop1[1..] && q.up1 == p.up1 && q.up2 == p.up2;
    if p.up2 {
      NodeFrames(p);
      Regroup(published, mid, head, rest);
    }
  }

  lemma InvRelayToNode(s: State, k: nat)
    requires Inv(s) && Enabled(s, RelayToNode(k))
    ensures Inv(Next(s, RelayToNode(k)))
  {
    var t := Next(s, RelayToNode(k));
    assert PipeInv(s, k);
    FlowsToNode(s.pipes[k], PublishedBy(s.broker, k), Produced(s, k));
    forall j | 0 <= j < |t.pipes| ensures PipeInv(t, j) {
      assert PipeInv(s, j);
    }
  }

  lemma FlowsCut(p: Pipe, published: seq<Event>, produced: seq<Event>)
    requires Flows(p, published, produced)
    ensures Flows(CutFirst(p), published, produced) && Flows(p.(hop2 := [], up2 := false), published, produced)
  {
    TypedSnoc(p.hop2, FinalFrame(p.last));
    assert Hops.TypedEvents([]) == [];
    var sent := published + Hops.TypedEvents(p.hop2);
    assert sent + [] == sent;
  }

  lemma CutPipe(s: State, step: Step, j: nat)
    requires Inv(s) && Enabled(s, step) && (step.CutFirstHop? || step.CutSecondHop?) && j < |s.pipes|
    ensures PipeInv(Next(s, step), j)
  {
    assert PipeInv(s, j);
    if j == step.prompt { FlowsCut(s.pipes[j], PublishedBy(s.broker, j), Produced(s, j)); }
  }

  lemma InvCut(s: State, step: Step)
    requires Inv(s) && Enabled(s, step) && (step.CutFirstHop? || step.CutSecondHop?)
    ensures Inv(Next(s, step))
  {
    var t := Next(s, step);
    forall j | 0 <= j < |t.pipes| ensures PipeInv(t, j) {
      CutPipe(s, step, j);
    }
  }

  lemma PublishedSnoc(b: Broker.State, x: Broker.Tagged, k: nat)
    ensures PublishedBy(b.(begun := b.begun + [x]), k) ==
      if x.pub == Broker.Relay(k) then PublishedBy(b, k) + [x.event] else PublishedBy(b, k)
  {
    Broker.BySnoc(Broker.Relay(k), b.begun, x);
  }

  /** Taking a frame off the second hop publishes its event, if it has one. */
  lemma FlowsToWorker(p: Pipe, published: seq<Event>, produced: seq<Event>)
    requires p.hop2 != [] && Flows(p, published, produced)
    ensures Flows(p.(hop2 := p.hop2[1..]), published + Hops.Typed(p.hop2[0]), produced)
  {
    var head, rest, tail := Hops.Typed(p.hop2[0]), Hops.TypedEvents(p.hop2[1..]), Hops.TypedEvents(p.hop1);
    assert Hops.TypedEvents(p.hop2) == head + rest;
    assert published + (head + rest) == published + head + rest;
  }

  lemma PublishedByRelay(s: State, k: nat, j: nat)
    requires Inv(s) && Enabled(s, RelayToWorker(k))
      && Broker.Enabled(s.broker, Broker.Begin(Broker.Relay(k), ZERO_EVENT))
    ensures PublishedBy(Next(s, RelayToWorker(k)).broker, j)
         == PublishedBy(s.broker, j) + if j == k then Hops.Typed(s.pipes[k].hop2[0]) else []
  {
    var e := s.pipes[k].hop2[0].event;
    var x := Broker.Tagged(Broker.Relay(k), e);
    PublishedSnoc(s.broker, x, j);
    if e.kind != "" {
      assert PublishedBy(Next(s, RelayToWorker(k)).broker, j) ==
        PublishedBy(s.broker.(begun := s.broker.begun + [x]), j);
    }
  }

  lemma RelayedPipe(s: State, k: nat, j: nat)
    requires Inv(s) && Enabled(s, RelayToWorker(k))
      && Broker.Enabled(s.broker, Broker.Begin(Broker.Relay(k), ZERO_EVENT))
    requires j < |s.pipes|
    ensures PipeInv(Next(s, RelayToWorker(k)), j)
  {
    assert PipeInv(s, j);
    PublishedByRelay(s, k, j);
    if j == k {
      FlowsToWorker(s.pipes[k], PublishedBy(s.broker, k), Produced(s, k));
    } else {
      assert PublishedBy(s.broker, j) + [] == PublishedBy(s.broker, j);
    }
  }

  lemma InvRelayToWorker(s: State, k: nat)
    requires Inv(s) && Enabled(s, RelayToWorker(k))
    ensures Inv(Next(s, RelayToWorker(k)))
  {
    Broker.InvStep(s.broker, Broker.Begin(Broker.Relay(k), s.pipes[k].hop2[0].event));
    var t := Next(s, RelayToWorker(k));
    forall j | 0 <= j < |t.pipes| ensures PipeInv(t, j) {
      RelayedPipe(s, k, j);
    }
  }

  lemma InvInBroker(s: State, b: Broker.Step)
    requires Inv(s) && Enabled(s, InBroker(b)) && Polite(s, InBroker(b))
    ensures Inv(Next(s, InBroker(b)))
  {
    Broker.InvStep(s.broker, b);
    var t := Next(s, InBroker(b));
    forall k | 0 <= k < |s.pipes| ensures PublishedBy(t.broker, k) == PublishedBy(s.broker, k) {
      if b.Begin? { PublishedSnoc(s.broker, Broker.Tagged(b.pub, b.event), k); }
    }
    PipesFramed(s, t);
  }

  lemma InvStep(s: State, step: Step)
    requires Inv(s) && Polite(s, step)
    ensures Inv(Next(s, step))
  {
    if Enabled(s, step) {
      match step
      case Write(env) => WriteKept(s, env); PipesFramed(s, Next(s, step));
      case Deliver => InvDeliver(s);
      case InClient(r) => InvClient(s, r);
      case Open(_, _, _, _) => InvOpen(s, step);
      case Number(k) => InvNumber(s, k);
      case Finish(k) => InvFinish(s, k);
      case RelayToNode(k) => InvRelayToNode(s, k);
      case CutFirstHop(_) => InvCut(s, step);
      case RelayToWorker(k) => InvRelayToWorker(s, k);
      case CutSecondHop(_) => InvCut(s, step);
      case InBroker(b) => InvInBroker(s, b);
    }
  }

  lemma {:induction false} InvAfter(steps: seq<Step>)
    requires PoliteRun(steps)
    ensures Inv(After(steps))
  {
    if steps != [] {
      InvAfter(steps[..|steps| - 1]);
      InvStep(After(steps[..|steps| - 1]), steps[|steps| - 1]);
    }
  }

  // ----- Step by step is the same as the relay loop -----

  /** The node reads until the stream runs dry or a final item ends the relay. */
  function Drain(p: Pipe): Pipe
    decreases |p.hop1|
  {
    if p.relaying && p.hop1 != [] then Drain(NodeStep(p)) else p
  }

  function FramesFrom(items: seq<Item>, last: Run): seq<Item> {
    Hops.EventFrames(Hops.Forwarded(items)) +
    match Hops.RunnerResult(items, last, "")
    case Ok(run) => [FinalFrame(run)]
    case Err(_) => []
  }

  lemma NodePushes(p: Pipe)
    requires p.hop1 != [] && p.up2 && p.relaying
    ensures var q, item := NodeStep(p), p.hop1[0];
      && q.hop2 == p.hop2 + (Head(item) + if item.final then [FinalFrame(item.run)] else [])
      && q.up2 && q.hop1 == p.hop1[1..] && q.last == item.run && q.relaying == !item.final
      && Drain(p) == Drain(q)
  {
  }

  /** What a relay that runs dry and is then cut has put on the second hop. */
  ghost predicate SendsFrames(p: Pipe) {
    CutFirst(Drain(p)).hop2 == p.hop2 + FramesFrom(p.hop1, p.last)
  }

  lemma DrainStops(p: Pipe)
    requires p.up2 && p.relaying && (p.hop1 == [] || p.hop1[0].final)
    ensures SendsFrames(p)
  {
    FramesFromHead(p.hop1, p.last);
    if p.hop1 != [] { NodePushes(p); }
  }

  lemma FramesGoOn(before: seq<Item>, items: seq<Item>, last: Run, sent: seq<Item>)
    requires items != [] && !items[0].final
    requires sent == before + Head(items[0]) + FramesFrom(items[1..], items[0].run)
    ensures sent == before + FramesFrom(items, last)
  {
    FramesFromHead(items, last);
    Join(before, Head(items[0]), FramesFrom(items[1..], items[0].run));
  }

  lemma Join(a: seq<Item>, b: seq<Item>, c: seq<Item>)
    ensures a + b + c == a + (b + c)
  {
  }

  lemma {:induction false} DrainSendsFrames(p: Pipe)
    requires p.up2 && p.relaying
    ensures SendsFrames(p)
    decreases |p.hop1|
  {
    if p.hop1 == [] || p.hop1[0].final {
      DrainStops(p);
    } else {
      var q := NodeStep(p);
      DrainSendsFrames(q);
      NodePushes(p);
      assert Head(p.hop1[0]) + [] == Head(p.hop1[0]);
      FramesGoOn(p.hop2, p.hop1, p.last, CutFirst(Drain(q)).hop2);
    }
  }

  /** Item by item and then the break, the node puts on the second hop exactly the frames the relay
      loop sends for the items it received. */
  lemma DrainSendsNodeFrames(p: Pipe)
    requires p.up2 && p.relaying
    ensures CutFirst(Drain(p)).hop2 == p.hop2 + FramesFrom(p.hop1, p.last)
    ensures p.last == ZERO_RUN ==> CutFirst(Drain(p)).hop2 == p.hop2 + Hops.NodeFrames(p.hop1)
  {
    DrainSendsFrames(p);
  }

  function Head(item: Item): seq<Item> {
    if item.event.kind != "" then [Frame(item.event)] else []
  }

  lemma FramesFromHead(items: seq<Item>, last: Run)
    ensures FramesFrom(items, last) ==
      if items == [] then (if last.id != "" then [FinalFrame(last)] else [])
      else Head(items[0]) + if items[0].final then [FinalFrame(items[0].run)] else FramesFrom(items[1..], items[0].run)
  {
    assert Hops.EventFrames([]) == [];
    if items != [] {
      FrameHead(items[0], if items[0].final then [] else Hops.Forwarded(items[1..]));
    }
  }

  lemma FrameHead(item: Item, events: seq<Event>)
    ensures Hops.EventFrames(Hops.Typed(item) + events) == Head(item) + Hops.EventFrames(events)
  {
  }

  // ----- What a subscriber sees -----

  /** `events` are numbered copies, in order, of some typed ones among `updates`; `at` says which. */
  ghost predicate ReflectsAt(run: Run, events: seq<Event>, updates: seq<StreamEvent>, at: seq<nat>) {
    && |at| == |events|
    && (forall i :: 0 <= i < |at| ==>
          && at[i] < |updates| && updates[at[i]].kind != ""
          && Carries(run, events[i], updates[at[i]]))
    && (forall i, j :: 0 <= i < j < |at| ==> at[i] < at[j] && events[i].sequence < events[j].sequence)
  }

  ghost predicate Reflects(run: Run, events: seq<Event>, updates: seq<StreamEvent>) {
    exists at :: ReflectsAt(run, events, updates, at)
  }

  /** `events` reflect `updates`, each numbered by the position of its update. */
  ghost predicate NumberedIn(run: Run, events: seq<Event>, updates: seq<StreamEvent>, at: seq<nat>) {
    ReflectsAt(run, events, updates, at) && forall i :: 0 <= i < |at| ==> events[i].sequence == at[i] + 1
  }

  lemma NumberedOneMore(run: Run, events: seq<Event>, updates: seq<StreamEvent>, at: seq<nat>, u: StreamEvent)
    requires NumberedIn(run, events, updates, at)
    ensures NumberedIn(run, events, updates + [u], at)
    ensures u.kind != "" ==>
      NumberedIn(run, events + [EventFor(run, |updates| + 1, u)], updates + [u], at + [|updates|])
  {
  }

  lemma TypedStreamSnoc(run: Run, init: seq<StreamEvent>, u: StreamEvent)
    ensures Hops.TypedEvents(Stream(run, init + [u]))
         == Hops.TypedEvents(Stream(run, init)) + if u.kind != "" then [EventFor(run, |init| + 1, u)] else []
  {
    StreamSnoc(run, init, u);
    TypedSnoc(Stream(run, init), ItemFor(run, |init| + 1, u));
  }

  lemma {:induction false} StreamReflects(run: Run, updates: seq<StreamEvent>) returns (at: seq<nat>)
    ensures NumberedIn(run, Hops.TypedEvents(Stream(run, updates)), updates, at)
  {
    if updates == [] {
      at := [];
    } else {
      var n := |updates| - 1;
      var init, u := updates[..n], updates[n];
      at := StreamReflects(run, init);
      NumberedOneMore(run, Hops.TypedEvents(Stream(run, init)), init, at, u);
      TypedStreamSnoc(run, init, u);
      SplitLast(updates);
      if u.kind != "" { at := at + [n]; }
    }
  }

  lemma ReflectsFewer(run: Run, fewer: seq<Event>, events: seq<Event>, updates: seq<StreamEvent>)
    requires Reflects(run, events, updates) && Subsequence(fewer, events)
    ensures Reflects(run, fewer, updates)
  {
    var at: seq<nat> :| ReflectsAt(run, events, updates, at);
    var f: seq<nat> :| Positions(fewer, events, f);
    var g := seq(|fewer|, i requires 0 <= i < |fewer| => at[f[i]]);
    assert ReflectsAt(run, fewer, updates, g);
  }

  lemma ReflectsMore(run: Run, events: seq<Event>, updates: seq<StreamEvent>, more: seq<StreamEvent>)
    requires Reflects(run, events, updates) && Subsequence(updates, more)
    ensures Reflects(run, events, more)
  {
    var at: seq<nat> :| ReflectsAt(run, events, updates, at);
    var f: seq<nat> :| Positions(updates, more, f);
    var g := seq(|events|, i requires 0 <= i < |events| => f[at[i]]);
    assert ReflectsAt(run, events, more, g);
  }

  lemma UntagSubsequence(a: seq<Broker.Tagged>, b: seq<Broker.Tagged>)
    requires Subsequence(a, b)
    ensures Subsequence(Untag(a), Untag(b))
  {
    var at: seq<nat> :| Positions(a, b, at);
    assert Positions(Untag(a), Untag(b), at);
  }

  /** The events of prompt `k` that subscriber `c` has received or holds in its buffer. */
  function Delivered(s: State, k: nat, c: nat): seq<Event>
    requires c < |s.broker.subscriptions|
  {
    var channel := s.broker.subscriptions[c].channel;
    Untag(Broker.By(Broker.Relay(k), channel.taken + channel.buffer))
  }

  /** Publications to a session while subscribed are among all publications. */
  lemma {:induction false} SessionThenPublisher(sessionId: string, pub: Broker.Publisher, events: seq<Broker.Tagged>)
    ensures Subsequence(Broker.By(pub, Broker.ForSession(sessionId, events)), Broker.By(pub, events))
  {
    if events == [] {
      SubsequenceRefl(events);
    } else {
      var init, x := events[..|events| - 1], events[|events| - 1];
      assert events == init + [x];
      SessionThenPublisher(sessionId, pub, init);
      Broker.BySnoc(pub, Broker.ForSession(sessionId, init), x);
      if x.pub == pub {
        SubsequenceSnoc(Broker.By(pub, Broker.ForSession(sessionId, init)), Broker.By(pub, init), x);
      }
    }
  }

  lemma ByMiddle(pub: Broker.Publisher, events: seq<Broker.Tagged>, lo: nat, hi: nat)
    requires lo <= hi <= |events|
    ensures Subsequence(Broker.By(pub, events[lo..hi]), Broker.By(pub, events))
  {
    var keep := (t: Broker.Tagged) => t.pub == pub;
    assert events == events[..lo] + events[lo..hi] + events[hi..];
    FilterConcat(keep, events[..lo] + events[lo..hi], events[hi..]);
    FilterConcat(keep, events[..lo], events[lo..hi]);
    SubsequenceMiddle(Broker.By(pub, events[..lo]), Broker.By(pub, events[lo..hi]), Broker.By(pub, events[hi..]));
  }

  lemma SpanAmongBegun(b: Broker.State, c: nat, pub: Broker.Publisher)
    requires Broker.Inv(b) && c < |b.subscriptions|
    ensures Subsequence(Broker.By(pub, Broker.Span(b, c)), Broker.By(pub, b.begun))
  {
    assert Broker.SubInv(b, c);
    var sub := b.subscriptions[c];
    var hi := if sub.channel.closed then sub.end else |b.begun|;
    SessionThenPublisher(sub.sessionId, pub, b.begun[sub.start..hi]);
    ByMiddle(pub, b.begun, sub.start, hi);
    SubsequenceTrans(Broker.By(pub, Broker.Span(b, c)), Broker.By(pub, b.begun[sub.start..hi]),
      Broker.By(pub, b.begun));
  }

  lemma SpanAmongWritten(s: State, runId: string, lo: nat, hi: nat)
    requires ReadInv(s) && lo <= hi <= |s.routing.routed|
    ensures Subsequence(Routing.ForRun(runId, s.routing.routed[lo..hi]), Routing.ForRun(runId, Acp.Updates(s.written)))
  {
    var routed := s.routing.routed;
    assert routed == routed[..lo] + routed[lo..hi] + routed[hi..];
    assert Acp.Updates(s.written) == (s.missed + routed[..lo]) + routed[lo..hi] + (routed[hi..] + Unread(s));
    ForRunMiddle(runId, s.missed + routed[..lo], routed[lo..hi], routed[hi..] + Unread(s));
  }

  /** What a prompt's loop took is among the updates the agent wrote for its run. */
  lemma TakenAmongWritten(s: State, k: nat)
    requires Inv(s) && k < |s.pipes|
    ensures Subsequence(s.routing.prompts[k].channel.taken, Routing.ForRun(s.pipes[k].run.id, Acp.Updates(s.written)))
  {
    var p := s.routing.prompts[k];
    var taken, offered := p.channel.taken, p.channel.offered;
    assert PipeInv(s, k);
    Routing.PromptConserves(s.routing, k);
    SpanAmongWritten(s, p.runId, p.start, if p.live then |s.routing.routed| else p.end);
    SubsequencePrefix(taken, taken + p.channel.buffer);
    SubsequenceTrans(taken, taken + p.channel.buffer, offered);
    SubsequenceTrans(taken, offered, Routing.ForRun(p.runId, Acp.Updates(s.written)));
  }

  lemma ForRunMiddle(runId: string, a: seq<StreamEvent>, b: seq<StreamEvent>, c: seq<StreamEvent>)
    ensures Subsequence(Routing.ForRun(runId, b), Routing.ForRun(runId, a + b + c))
  {
    var keep := (u: StreamEvent) => u.runId == runId;
    FilterConcat(keep, a + b, c);
    FilterConcat(keep, a, b);
    SubsequenceMiddle(Filter(keep, a), Filter(keep, b), Filter(keep, c));
  }

  lemma DeliveredAmongProduced(s: State, k: nat, c: nat)
    requires Inv(s) && k < |s.pipes| && c < |s.broker.subscriptions|
    ensures Subsequence(Delivered(s, k, c), Produced(s, k))
  {
    var pub := Broker.Relay(k);
    var channel := s.broker.subscriptions[c].channel;
    Broker.SubscriberInOrder(s.broker, c, pub);
    SpanAmongBegun(s.broker, c, pub);
    SubsequenceTrans(Broker.By(pub, channel.taken + channel.buffer), Broker.By(pub, Broker.Span(s.broker, c)),
                     Broker.By(pub, s.broker.begun));
    UntagSubsequence(Broker.By(pub, channel.taken + channel.buffer), Broker.By(pub, s.broker.begun));
    assert PipeInv(s, k);
    SubsequencePrefix(PublishedBy(s.broker, k), Produced(s, k));
    SubsequenceTrans(Delivered(s, k, c), PublishedBy(s.broker, k), Produced(s, k));
  }

  /** End to end, over every interleaving with distinct live run ids: what a subscriber has received
      and buffered from a prompt is an in-order, duplicate-free selection of the typed updates the
      agent wrote to its stdout for that run, each carried unchanged and numbered in increasing order. */
  lemma EndToEndOrder(steps: seq<Step>, k: nat, c: nat)
    requires PoliteRun(steps)
    requires k < |After(steps).pipes| && c < |After(steps).broker.subscriptions|
    ensures var s := After(steps); var run := s.pipes[k].run;
      Reflects(run, Delivered(s, k, c), Routing.ForRun(run.id, Acp.Updates(s.written)))
  {
    InvAfter(steps);
    var s := After(steps);
    var run, taken := s.pipes[k].run, s.routing.prompts[k].channel.taken;
    var at := StreamReflects(run, taken);
    DeliveredAmongProduced(s, k, c);
    ReflectsFewer(run, Delivered(s, k, c), Produced(s, k), taken);
    TakenAmongWritten(s, k);
    ReflectsMore(run, Delivered(s, k, c), taken, Routing.ForRun(run.id, Acp.Updates(s.written)));
  }

  // ----- What a subscriber can tell apart -----

  /** The kinds the control plane publishes about a run itself. */
  predicate OwnKind(kind: string) {
    kind == "run.started" || kind == "run.cancelling"
  }

  predicate AboutRun(runId: string, e: Event) {
    e.runId == runId && !OwnKind(e.kind)
  }

  /** The events of the run that subscriber `c` has received or buffered, told by run id and kind alone. */
  function Seen(s: State, runId: string, c: nat): seq<Event>
    requires c < |s.broker.subscriptions|
  {
    var channel := s.broker.subscriptions[c].channel;
    Filter((e: Event) => AboutRun(runId, e), Untag(channel.taken + channel.buffer))
  }

  /** No other prompt was opened with the run id of prompt `k`, the control plane published only its own
      kinds, and the agent used neither of them for the run. */
  ghost predicate TellsApart(s: State, k: nat)
    requires k < |s.pipes| && k < |s.routing.prompts|
  {
    && (forall j :: 0 <= j < |s.pipes| && j != k ==> s.pipes[j].run.id != s.pipes[k].run.id)
    && (forall x :: x in s.broker.begun && x.pub.ControlPlane? ==> OwnKind(x.event.kind))
    && (forall u :: u in s.routing.prompts[k].channel.taken ==> !OwnKind(u.kind))
  }

  /** Every publication by a relay is a numbered event of its own run. */
  lemma RelayedIsOfRun(s: State, j: nat, x: Broker.Tagged)
    requires Inv(s) && j < |s.pipes| && x in s.broker.begun && x.pub == Broker.Relay(j)
    ensures x.event.runId == s.pipes[j].run.id
    ensures exists u :: u in s.routing.prompts[j].channel.taken && x.event.kind == u.kind
  {
    var mine, taken := Broker.By(Broker.Relay(j), s.broker.begun), s.routing.prompts[j].channel.taken;
    assert PipeInv(s, j);
    FilterMembers((t: Broker.Tagged) => t.pub == Broker.Relay(j), s.broker.begun);
    var i :| 0 <= i < |mine| && mine[i] == x;
    var at := StreamReflects(s.pipes[j].run, taken);
    assert x.event == PublishedBy(s.broker, j)[i] == Produced(s, j)[i];
    assert taken[at[i]] in taken;
  }

  /** A subscriber holds nothing that was not published. */
  lemma HeldWasPublished(b: Broker.State, c: nat, x: Broker.Tagged)
    requires Broker.Inv(b) && c < |b.subscriptions|
    requires x in b.subscriptions[c].channel.taken + b.subscriptions[c].channel.buffer
    ensures x in b.begun
  {
    var channel, keep := b.subscriptions[c].channel, (t: Broker.Tagged) => t.pub == x.pub;
    Broker.SubscriberInOrder(b, c, x.pub);
    SpanAmongBegun(b, c, x.pub);
    FilterMembers(keep, channel.taken + channel.buffer);
    SubsequenceMembers(Broker.By(x.pub, channel.taken + channel.buffer), Broker.By(x.pub, Broker.Span(b, c)));
    SubsequenceMembers(Broker.By(x.pub, Broker.Span(b, c)), Broker.By(x.pub, b.begun));
    FilterMembers(keep, b.begun);
  }

  lemma {:induction false} SameSelection(k: nat, runId: string, xs: seq<Broker.Tagged>)
    requires forall x :: x in xs ==> (AboutRun(runId, x.event) <==> x.pub == Broker.Relay(k))
    ensures Filter((e: Event) => AboutRun(runId, e), Untag(xs)) == Untag(Broker.By(Broker.Relay(k), xs))
  {
    if xs != [] {
      var init, x := xs[..|xs| - 1], xs[|xs| - 1];
      SameSelection(k, runId, init);
      assert Untag(xs) == Untag(init) + [x.event];
      FilterSnoc((e: Event) => AboutRun(runId, e), Untag(init), x.event);
    }
  }

  lemma SeenIsDelivered(s: State, k: nat, c: nat)
    requires Inv(s) && k < |s.pipes| && c < |s.broker.subscriptions| && TellsApart(s, k)
    ensures Seen(s, s.pipes[k].run.id, c) == Delivered(s, k, c)
  {
    var channel, runId := s.broker.subscriptions[c].channel, s.pipes[k].run.id;
    forall x | x in channel.taken + channel.buffer ensures AboutRun(runId, x.event) <==> x.pub == Broker.Relay(k) {
      HeldWasPublished(s.broker, c, x);
      if x.pub.Relay? { RelayedIsOfRun(s, x.pub.prompt, x); }
    }
    SameSelection(k, runId, channel.taken + channel.buffer);
  }

  /** The end-to-end order in terms of what a subscriber sees: the events it has that carry the run's id
      and are not the control plane's own are an in-order, duplicate-free selection of the typed
      updates the agent wrote for the run, unchanged and numbered in increasing order. */
  lemma SeenInOrder(steps: seq<Step>, k: nat, c: nat)
    requires PoliteRun(steps)
    requires k < |After(steps).pipes| && k < |After(steps).routing.prompts| && c < |After(steps).broker.subscriptions|
    requires TellsApart(After(steps), k)
    ensures var s := After(steps); var run := s.pipes[k].run;
      Reflects(run, Seen(s, run.id, c), Routing.ForRun(run.id, Acp.Updates(s.written)))
  {
    EndToEndOrder(steps, k, c);
    InvAfter(steps);
    SeenIsDelivered(After(steps), k, c);
  }

  // ----- The client's own view -----

  /** The steps of the client in a run of the pipeline. */
  function ClientRun(steps: seq<Step>): seq<Acp.Step> {
    if steps == [] then []
    else
      var init, last := steps[..|steps| - 1], steps[|steps| - 1];
      var s := After(init);
      if !Enabled(s, last) then ClientRun(init)
      else if last.Deliver? then ClientRun(init) + [Acp.Decode(s.stdout[0])]
      else if last.InClient? then ClientRun(init) + [last.rpc]
      else ClientRun(init)
  }

  /** The client is where its own steps bring it, and has read what the agent wrote. */
  ghost predicate Follow(s: State, rpc: seq<Acp.Step>) {
    s.client == Acp.After(rpc) && s.written == Acp.Decoded(rpc) + s.stdout
  }

  lemma HeadMoves<T>(a: seq<T>, b: seq<T>)
    requires b != []
    ensures a + b == a + [b[0]] + b[1..]
  {
  }

  lemma ClientReads(s: State, rpc: seq<Acp.Step>)
    requires Follow(s, rpc) && Enabled(s, Deliver)
    ensures Follow(Next(s, Deliver), rpc + [Acp.Decode(s.stdout[0])])
  {
    ClientOneMore(rpc, Acp.Decode(s.stdout[0]));
    HeadMoves(Acp.Decoded(rpc), s.stdout);
  }

  lemma ClientMoves(s: State, step: Step, rpc: seq<Acp.Step>)
    requires Follow(s, rpc) && Enabled(s, step) && !step.Deliver?
    ensures Follow(Next(s, step), if step.InClient? then rpc + [step.rpc] else rpc)
  {
    if step.InClient? { ClientOneMore(rpc, step.rpc); }
    if step.Write? {
      assert Acp.Decoded(rpc) + s.stdout + [step.envelope] == Acp.Decoded(rpc) + (s.stdout + [step.envelope]);
    }
  }

  /** The pipeline's client is the client after its own steps, so all that is proved of it holds here;
      and the envelopes it decoded, then those still on stdout, are what the agent wrote. */
  lemma {:induction false} ClientIsRun(steps: seq<Step>)
    ensures After(steps).client == Acp.After(ClientRun(steps))
    ensures After(steps).written == Acp.Decoded(ClientRun(steps)) + After(steps).stdout
  {
    if steps != [] {
      var init, last := steps[..|steps| - 1], steps[|steps| - 1];
      ClientIsRun(init);
      var s := After(init);
      if Enabled(s, last) {
        if last.Deliver? { ClientReads(s, ClientRun(init)); } else { ClientMoves(s, last, ClientRun(init)); }
      }
    }
  }

  lemma ClientOneMore(run: seq<Acp.Step>, r: Acp.Step)
    ensures Acp.After(run + [r]) == Acp.Next(Acp.After(run), r)
    ensures Acp.Decoded(run + [r]) ==
      Acp.Decoded(run) + if r.Decode? && Acp.Enabled(Acp.After(run), r) then [r.envelope] else []
  {
    assert (run + [r])[..|run|] == run;
  }

  /** In every run what has been routed is, in order and once each, the decodable updates the client
      decoded since its handler was set; replies, callers and the drain do not disturb it. */
  lemma RoutedExact(steps: seq<Step>)
    requires PoliteRun(steps)
    ensures var rpc := ClientRun(steps);
      && Acp.Unheard(rpc) <= |Acp.Decoded(rpc)| && Acp.Decoded(rpc) <= After(steps).written
      && After(steps).routing.routed == Acp.Updates(After(steps).written[Acp.Unheard(rpc)..|Acp.Decoded(rpc)|])
  {
    InvAfter(steps);
    ClientIsRun(steps);
    Acp.NotifiedExact(ClientRun(steps));
    var rpc := ClientRun(steps);
    assert After(steps).written[Acp.Unheard(rpc)..|Acp.Decoded(rpc)|] == Acp.Decoded(rpc)[Acp.Unheard(rpc)..];
  }

  // ----- What goes missing -----

  /** The stretch of routed updates during which prompt `k` was subscribed. */
  function SpanEnd(s: State, k: nat): nat
    requires k < |s.routing.prompts|
  {
    if s.routing.prompts[k].live then |s.routing.routed| else s.routing.prompts[k].end
  }

  /** The event prompt `k` is publishing, if it is still owed to subscriber `c`. */
  function Owed(s: State, k: nat, c: nat): seq<Event> {
    Untag(Broker.OnTheWay(s.broker, c, Broker.Relay(k)))
  }

  lemma {:induction false} AllOfSession(sessionId: string, pub: Broker.Publisher, events: seq<Broker.Tagged>)
    requires forall x :: x in events && x.pub == pub ==> x.event.sessionId == sessionId
    ensures Broker.By(pub, Broker.ForSession(sessionId, events)) == Broker.By(pub, events)
  {
    if events != [] {
      var init, x := events[..|events| - 1], events[|events| - 1];
      assert events == init + [x];
      AllOfSession(sessionId, pub, init);
      Broker.BySnoc(pub, Broker.ForSession(sessionId, init), x);
    }
  }

  /** A prompt's relay publishes to its own session only. */
  lemma PublishesToOwnSession(s: State, k: nat, x: Broker.Tagged)
    requires Inv(s) && k < |s.pipes| && x in s.broker.begun && x.pub == Broker.Relay(k)
    ensures x.event.sessionId == s.pipes[k].run.sessionId
  {
    assert PipeInv(s, k);
    var mine := Broker.By(Broker.Relay(k), s.broker.begun);
    FilterMembers((t: Broker.Tagged) => t.pub == Broker.Relay(k), s.broker.begun);
    assert x in mine;
    var i :| 0 <= i < |mine| && mine[i] == x;
    var at := StreamReflects(s.pipes[k].run, s.routing.prompts[k].channel.taken);
    assert x.event == PublishedBy(s.broker, k)[i] == Produced(s, k)[i];
  }

  lemma UntagConcat(a: seq<Broker.Tagged>, b: seq<Broker.Tagged>)
    ensures Untag(a + b) == Untag(a) + Untag(b)
  {
  }

  /** What prompt `k` published in one stretch of the broker's history. */
  function PublishedIn(s: State, k: nat, lo: nat, hi: nat): seq<Event> {
    Untag(Broker.By(Broker.Relay(k), if lo <= hi <= |s.broker.begun| then s.broker.begun[lo..hi] else []))
  }

  /** What prompt `k` published before subscriber `c` came, and after it left. */
  function Earlier(s: State, k: nat, c: nat): seq<Event>
    requires c < |s.broker.subscriptions|
  {
    PublishedIn(s, k, 0, s.broker.subscriptions[c].start)
  }

  function Later(s: State, k: nat, c: nat): seq<Event>
    requires c < |s.broker.subscriptions|
  {
    var sub := s.broker.subscriptions[c];
    PublishedIn(s, k, if sub.channel.closed then sub.end else |s.broker.begun|, |s.broker.begun|)
  }

  /** What prompt `k` offered subscriber `c`. */
  function OfferedBy(s: State, k: nat, c: nat): seq<Event>
    requires c < |s.broker.subscriptions|
  {
    Untag(Broker.By(Broker.Relay(k), s.broker.subscriptions[c].channel.offered))
  }

  lemma PublishedSplit(s: State, k: nat, lo: nat, hi: nat)
    requires lo <= hi <= |s.broker.begun|
    ensures PublishedIn(s, k, 0, lo) + PublishedIn(s, k, lo, hi) + PublishedIn(s, k, hi, |s.broker.begun|)
         == PublishedBy(s.broker, k)
  {
    var begun, keep := s.broker.begun, (t: Broker.Tagged) => t.pub == Broker.Relay(k);
    assert begun == begun[0..lo] + begun[lo..hi] + begun[hi..|begun|];
    FilterConcat(keep, begun[0..lo] + begun[lo..hi], begun[hi..|begun|]);
    FilterConcat(keep, begun[0..lo], begun[lo..hi]);
    UntagConcat(Filter(keep, begun[0..lo]) + Filter(keep, begun[lo..hi]), Filter(keep, begun[hi..|begun|]));
    UntagConcat(Filter(keep, begun[0..lo]), Filter(keep, begun[lo..hi]));
  }

  /** Earlier, offered, owed and later publications make up all the prompt published. */
  lemma OfferedIsPublished(s: State, k: nat, c: nat)
    requires Inv(s) && k < |s.pipes| && c < |s.broker.subscriptions|
    requires s.broker.subscriptions[c].sessionId == s.pipes[k].run.sessionId
    ensures Earlier(s, k, c) + (OfferedBy(s, k, c) + Owed(s, k, c)) + Later(s, k, c) == PublishedBy(s.broker, k)
  {
    var sub, pub := s.broker.subscriptions[c], Broker.Relay(k);
    assert Broker.SubInv(s.broker, c) && Broker.OrderInv(s.broker, c, pub);
    var hi := if sub.channel.closed then sub.end else |s.broker.begun|;
    var span := s.broker.begun[sub.start..hi];
    forall x | x in span && x.pub == pub ensures x.event.sessionId == sub.sessionId {
      PublishesToOwnSession(s, k, x);
    }
    AllOfSession(sub.sessionId, pub, span);
    UntagConcat(Broker.By(pub, sub.channel.offered), Broker.OnTheWay(s.broker, c, pub));
    PublishedSplit(s, k, sub.start, hi);
  }

  /** Subscriber `c` subscribed to the session of prompt `k`. */
  predicate Follows(s: State, k: nat, c: nat) {
    && k < |s.pipes| && k < |s.routing.prompts| && c < |s.broker.subscriptions|
    && s.broker.subscriptions[c].sessionId == s.pipes[k].run.sessionId
  }

  /** The updates the agent wrote are those missed, routed before, during and after the prompt's
      subscription, and unread; the prompt was offered those of its run routed during it, and has
      taken or still queues exactly the ones whose own offer found room. */
  ghost predicate PromptAccount(s: State, k: nat)
    requires k < |s.pipes| && k < |s.routing.prompts|
  {
    var p, routed, hi := s.routing.prompts[k], s.routing.routed, SpanEnd(s, k);
    && p.start <= hi <= |routed|
    && Acp.Updates(s.written) == s.missed + (routed[..p.start] + routed[p.start..hi] + routed[hi..]) + Unread(s)
    && p.channel.offered == Routing.ForRun(s.pipes[k].run.id, routed[p.start..hi])
    && |p.channel.depths| == |p.channel.offered|
    && p.channel.taken + p.channel.buffer == LossyChannel.Accepted(p.channel.offered, p.channel.depths)
  }

  /** What the loop has produced is what was published, then what is on the second hop, then what is on
      the first; after a cut, what is left is the beginning of it. What was published is what came
      before the subscriber, was offered to it, is owed to it, or came after it left; and of what it
      was offered it has exactly the events whose own offer found room. */
  ghost predicate SubscriberAccount(s: State, k: nat, c: nat)
    requires Follows(s, k, c)
  {
    var p, b := s.pipes[k], s.broker.subscriptions[c].channel;
    var published := Earlier(s, k, c) + (OfferedBy(s, k, c) + Owed(s, k, c)) + Later(s, k, c);
    var onward := published + Hops.TypedEvents(p.hop2) + Hops.TypedEvents(p.hop1);
    && published <= Produced(s, k)
    && (p.up2 ==> onward <= Produced(s, k))
    && (p.up1 && p.up2 ==> onward == Produced(s, k))
    && |b.depths| == |b.offered|
    && Delivered(s, k, c) == Untag(Broker.By(Broker.Relay(k), LossyChannel.Accepted(b.offered, b.depths)))
  }

  lemma ThreeParts<T>(a: seq<T>, b: seq<T>, c: seq<T>, lo: nat, hi: nat)
    requires lo <= hi <= |b|
    ensures a + (b + c) == a + (b[..lo] + b[lo..hi] + b[hi..]) + c
  {
    assert b == b[..lo] + b[lo..hi] + b[hi..];
  }

  lemma PromptIsAccounted(s: State, k: nat)
    requires Inv(s) && k < |s.pipes|
    ensures PromptAccount(s, k)
  {
    assert PipeInv(s, k);
    Routing.PromptConserves(s.routing, k);
    ThreeParts(s.missed, s.routing.routed, Unread(s), s.routing.prompts[k].start, SpanEnd(s, k));
  }

  lemma SubscriberIsAccounted(s: State, k: nat, c: nat)
    requires Inv(s) && Follows(s, k, c)
    ensures SubscriberAccount(s, k, c)
  {
    OfferedIsPublished(s, k, c);
    assert PipeInv(s, k) && Broker.SubInv(s.broker, c);
  }

  /** Where every update is, in every state of every run and for every subscriber of the session,
      whenever it came and whether or not it left: nothing is lost but at a full channel, before or
      after a subscription, or by a cut. */
  lemma DeliveredExact(steps: seq<Step>, k: nat, c: nat)
    requires PoliteRun(steps) && Follows(After(steps), k, c)
    ensures PromptAccount(After(steps), k) && SubscriberAccount(After(steps), k, c)
  {
    InvAfter(steps);
    PromptIsAccounted(After(steps), k);
    SubscriberIsAccounted(After(steps), k, c);
  }

  lemma {:induction false} TypedHasAll(run: Run, updates: seq<StreamEvent>, j: nat)
    requires j < |updates| && updates[j].kind != ""
    ensures EventFor(run, j + 1, updates[j]) in Hops.TypedEvents(Stream(run, updates))
  {
    var n := |updates| - 1;
    assert updates == updates[..n] + [updates[n]];
    StreamSnoc(run, updates[..n], updates[n]);
    TypedSnoc(Stream(run, updates[..n]), ItemFor(run, n + 1, updates[n]));
    if j < n { TypedHasAll(run, updates[..n], j); }
  }

  lemma UntagMember(pub: Broker.Publisher, xs: seq<Broker.Tagged>, e: Event)
    ensures e in Untag(Broker.By(pub, xs)) <==> Broker.Tagged(pub, e) in xs
  {
    var mine := Broker.By(pub, xs);
    FilterMembers((t: Broker.Tagged) => t.pub == pub, xs);
    if e in Untag(mine) {
      var i :| 0 <= i < |mine| && Untag(mine)[i] == e;
      assert mine[i] in mine;
    }
    if Broker.Tagged(pub, e) in mine {
      var i :| 0 <= i < |mine| && mine[i] == Broker.Tagged(pub, e);
      assert Untag(mine)[i] == e;
    }
  }

  /** Offer number `j` is the one offer of `x` to the channel. */
  predicate OwnOffer<T(==)>(c: LossyChannel.Channel<T>, x: T, j: nat) {
    j < |c.offered| && forall i :: 0 <= i < |c.offered| ==> (c.offered[i] == x <==> i == j)
  }

  /** The numbered events of a run are all different. */
  lemma ProducedDistinct(s: State, k: nat)
    requires k < |s.pipes| && k < |s.routing.prompts|
    ensures forall p, q :: 0 <= p < q < |Produced(s, k)| ==> Produced(s, k)[p] != Produced(s, k)[q]
  {
    var at := StreamReflects(s.pipes[k].run, s.routing.prompts[k].channel.taken);
  }

  lemma OfferedDistinct(s: State, k: nat, c: nat)
    requires Follows(s, k, c) && SubscriberAccount(s, k, c)
    ensures var mine := Broker.By(Broker.Relay(k), s.broker.subscriptions[c].channel.offered);
      forall p, q :: 0 <= p < q < |mine| ==> mine[p] != mine[q]
  {
    var mine := Broker.By(Broker.Relay(k), s.broker.subscriptions[c].channel.offered);
    var n := |Earlier(s, k, c)|;
    ProducedDistinct(s, k);
    forall p, q | 0 <= p < q < |mine| ensures mine[p] != mine[q] {
      assert mine[p].event == OfferedBy(s, k, c)[p] == Produced(s, k)[n + p];
      assert mine[q].event == OfferedBy(s, k, c)[q] == Produced(s, k)[n + q];
    }
  }

  /** A prompt offers each of its numbered events to a subscriber at most once. */
  lemma OfferedOnce(s: State, k: nat, c: nat, e: Event, j: nat)
    requires Follows(s, k, c) && SubscriberAccount(s, k, c)
    requires j < |s.broker.subscriptions[c].channel.offered|
    requires s.broker.subscriptions[c].channel.offered[j] == Broker.Tagged(Broker.Relay(k), e)
    ensures OwnOffer(s.broker.subscriptions[c].channel, Broker.Tagged(Broker.Relay(k), e), j)
  {
    var offered, x := s.broker.subscriptions[c].channel.offered, Broker.Tagged(Broker.Relay(k), e);
    OfferedDistinct(s, k, c);
    forall i | 0 <= i < |offered| && offered[i] == x ensures i == j {
      FilterDistinct((t: Broker.Tagged) => t.pub == Broker.Relay(k), offered, i, j);
    }
  }

  /** An event offered to `c` was offered once, and `c` has it exactly if that offer found room. */
  ghost predicate OfferDecides(s: State, k: nat, c: nat, e: Event)
    requires c < |s.broker.subscriptions|
  {
    var b := s.broker.subscriptions[c].channel;
    |b.depths| == |b.offered| && exists j: nat ::
      OwnOffer(b, Broker.Tagged(Broker.Relay(k), e), j) && (e !in Delivered(s, k, c) <==> b.depths[j] == 64)
  }

  lemma OfferedIsDecided(s: State, k: nat, c: nat, e: Event)
    requires Inv(s) && Follows(s, k, c) && SubscriberAccount(s, k, c) && e in OfferedBy(s, k, c)
    ensures OfferDecides(s, k, c, e)
  {
    var b, x := s.broker.subscriptions[c].channel, Broker.Tagged(Broker.Relay(k), e);
    assert Broker.SubInv(s.broker, c);
    UntagMember(Broker.Relay(k), b.offered, e);
    var j :| 0 <= j < |b.offered| && b.offered[j] == x;
    OfferedOnce(s, k, c, e, j);
    UntagMember(Broker.Relay(k), b.taken + b.buffer, e);
    LossyChannel.AcceptedMember(b.offered, b.depths, x);
    assert OwnOffer(b, x, j);
  }

  /** How many of the offers to prompt `k` before number `i` found room. */
  function Rank(s: State, k: nat, i: nat): nat
    requires k < |s.routing.prompts| && i <= |s.routing.prompts[k].channel.depths|
  {
    i - LossyChannel.Dropped(s.routing.prompts[k].channel.depths[..i])
  }

  /** A numbered event is on one of the hops, owed to the subscriber, published before it came or after
      it left, lost to a cut, or was offered to the subscriber once and is missing there exactly if
      that very offer found 64 values queued. */
  ghost predicate Accounted(s: State, k: nat, c: nat, e: Event)
    requires Follows(s, k, c)
  {
    var p := s.pipes[k];
    || e in Hops.TypedEvents(p.hop1) || e in Hops.TypedEvents(p.hop2) || e in Owed(s, k, c)
    || e in Earlier(s, k, c) || e in Later(s, k, c)
    || (!(p.up1 && p.up2) && e !in PublishedBy(s.broker, k))
    || OfferDecides(s, k, c, e)
  }

  lemma ProducedIsAccounted(s: State, k: nat, c: nat, e: Event)
    requires Inv(s) && Follows(s, k, c) && e in Produced(s, k)
    ensures Accounted(s, k, c, e)
  {
    SubscriberIsAccounted(s, k, c);
    OfferedIsPublished(s, k, c);
    if e in OfferedBy(s, k, c) { OfferedIsDecided(s, k, c, e); }
  }

  lemma TakenIsProduced(s: State, k: nat, i: nat)
    requires k < |s.pipes| && k < |s.routing.prompts| && PromptAccount(s, k)
    requires i < |s.routing.prompts[k].channel.offered| && s.routing.prompts[k].channel.depths[i] < 64
    ensures var a := s.routing.prompts[k].channel; var n := Rank(s, k, i);
      && n < |a.taken| + |a.buffer| && (a.taken + a.buffer)[n] == a.offered[i]
      && (n < |a.taken| && a.offered[i].kind != "" ==> EventFor(s.pipes[k].run, n + 1, a.offered[i]) in Produced(s, k))
  {
    var a, n := s.routing.prompts[k].channel, Rank(s, k, i);
    LossyChannel.AcceptedAt(a.offered, a.depths, i);
    if n < |a.taken| && a.offered[i].kind != "" { TypedHasAll(s.pipes[k].run, a.taken, n); }
  }

  /** Offer number `i` to the prompt found 64 queued, or its update still waits in the prompt's channel, or
      was numbered and is accounted for. */
  ghost predicate UpdateAccounted(s: State, k: nat, c: nat, i: nat)
    requires Follows(s, k, c)
  {
    var a := s.routing.prompts[k].channel;
    && i < |a.offered| == |a.depths|
    && var n := Rank(s, k, i);
      || a.depths[i] == 64
      || (|a.taken| <= n < |a.taken| + |a.buffer| && a.buffer[n - |a.taken|] == a.offered[i])
      || Accounted(s, k, c, EventFor(s.pipes[k].run, n + 1, a.offered[i]))
  }

  lemma OfferIsAccounted(s: State, k: nat, c: nat, i: nat)
    requires Inv(s) && Follows(s, k, c)
    requires i < |s.routing.prompts[k].channel.offered| && s.routing.prompts[k].channel.offered[i].kind != ""
    ensures UpdateAccounted(s, k, c, i)
  {
    var a := s.routing.prompts[k].channel;
    PromptIsAccounted(s, k);
    assert a.depths[i] <= 64 by { assert Routing.PromptInv(s.routing, k); }
    if a.depths[i] < 64 {
      TakenIsProduced(s, k, i);
      var n := Rank(s, k, i);
      if n < |a.taken| { ProducedIsAccounted(s, k, c, EventFor(s.pipes[k].run, n + 1, a.offered[i])); }
    }
  }

  /** Update by update, in every state of every run: a typed update offered to a prompt found the
      prompt's channel with 64 queued, or still waits in it, or was numbered and is accounted for:
      under way, outside the subscription, lost to a cut, or offered to the subscriber once and
      missing exactly if that very offer found 64 queued. */
  lemma MissingOnlyWhenFull(steps: seq<Step>, k: nat, c: nat, i: nat)
    requires PoliteRun(steps) && Follows(After(steps), k, c)
    requires i < |After(steps).routing.prompts[k].channel.offered|
    requires After(steps).routing.prompts[k].channel.offered[i].kind != ""
    ensures UpdateAccounted(After(steps), k, c, i)
  {
    InvAfter(steps);
    OfferIsAccounted(After(steps), k, c, i);
  }

  /** Nothing of prompt `k` is under way past its channel, and both hops are up. */
  predicate Quiet(s: State, k: nat)
    requires k < |s.pipes| && k < |s.routing.prompts|
  {
    && s.routing.prompts[k].channel.buffer == []
    && s.pipes[k].up1 && s.pipes[k].up2 && s.pipes[k].hop1 == [] && s.pipes[k].hop2 == []
    && Broker.Relay(k) !in s.broker.flights
  }

  /** Once all is quiet: the typed updates that found room at the prompt are what was published before
      the subscriber came, offered to it, and published after it left. */
  lemma QuietExact(steps: seq<Step>, k: nat, c: nat)
    requires PoliteRun(steps) && Follows(After(steps), k, c) && Quiet(After(steps), k)
    ensures var s := After(steps); var a := s.routing.prompts[k].channel;
      && |a.depths| == |a.offered|
      && Earlier(s, k, c) + OfferedBy(s, k, c) + Later(s, k, c)
         == Hops.TypedEvents(Stream(s.pipes[k].run, LossyChannel.Accepted(a.offered, a.depths)))
  {
    DeliveredExact(steps, k, c);
    var s := After(steps);
    var a := s.routing.prompts[k].channel;
    assert a.taken + a.buffer == a.taken;
    assert Owed(s, k, c) == [] && OfferedBy(s, k, c) + [] == OfferedBy(s, k, c);
    var published := Earlier(s, k, c) + OfferedBy(s, k, c) + Later(s, k, c);
    assert published + [] + [] == published;
  }
}
