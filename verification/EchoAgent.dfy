/** The echo agent (examples/echo-agent/main.go), the other end of the protocol: one goroutine per
    prompt that emits two chunks on a timer and then completes, or reports cancellation if its
    context is cancelled before a chunk. It closes the system the pipeline leaves open. */
module EchoAgent {
  import opened Control
  import opened Sequences
  import opened PromptLoop
  import Acp = AcpClient
  import LossyChannel
  import Routing = AgentRouting
  import Pipeline

  /** How a goroutine ended; `Leaving` is between its last update and its deferred cleanup. */
  datatype Stage = Running | Leaving(cancelled: bool) | Gone(cancelled: bool)

  datatype Routine = Routine(sessionId: string, prompt: string, sent: nat, contextDone: bool, stage: Stage)

  /** `runs` is the table of cancel functions; `out` everything written as `session/update`. */
  datatype State = State(runs: set<string>, routines: map<string, Routine>, out: seq<StreamEvent>)

  datatype Step =
    | Prompt(sessionId: string, runId: string, prompt: string)
    | Cancel(runId: string)
    | Timer(runId: string)
    | Abort(runId: string)
    | Complete(runId: string)
    | Cleanup(runId: string)

  const INIT := State({}, map[], [])

  function Chunk(r: Routine, runId: string, i: nat): StreamEvent {
    StreamEvent(r.sessionId, runId, "chunk", if i == 0 then "echo:" else r.prompt, "", false, "")
  }

  function Cancelled(r: Routine, runId: string): StreamEvent {
    StreamEvent(r.sessionId, runId, "cancelled", "", "", true, "")
  }

  function Completed(r: Routine, runId: string): StreamEvent {
    StreamEvent(r.sessionId, runId, "completed", r.prompt, r.prompt, true, "")
  }

  /** Run ids are distinct: a prompt uses an id no earlier prompt used. */
  predicate Enabled(s: State, step: Step) {
    match step
    case Prompt(_, runId, _) => runId !in s.routines
    case Cancel(_) => true
    case Timer(id) => id in s.routines && s.routines[id].stage.Running? && s.routines[id].sent < 2
    case Abort(id) =>
      id in s.routines && s.routines[id].stage.Running? && s.routines[id].sent < 2 && s.routines[id].contextDone
    case Complete(id) => id in s.routines && s.routines[id].stage.Running? && s.routines[id].sent == 2
    case Cleanup(id) => id in s.routines && s.routines[id].stage.Leaving?
  }

  function Apply(s: State, step: Step): State
    requires Enabled(s, step)
  {
    match step
    case Prompt(sessionId, runId, prompt) =>
      s.(runs := s.runs + {runId}, routines := s.routines[runId := Routine(sessionId, prompt, 0, false, Running)])
    case Cancel(id) =>
      if id in s.runs && id in s.routines then s.(routines := s.routines[id := s.routines[id].(contextDone := true)])
        else s
    case Timer(id) =>
      var r := s.routines[id];
      s.(routines := s.routines[id := r.(sent := r.sent + 1)], out := s.out + [Chunk(r, id, r.sent)])
    case Abort(id) =>
      var r := s.routines[id];
      s.(routines := s.routines[id := r.(stage := Leaving(true))], out := s.out + [Cancelled(r, id)])
    case Complete(id) =>
      var r := s.routines[id];
      s.(routines := s.routines[id := r.(stage := Leaving(false))], out := s.out + [Completed(r, id)])
    case Cleanup(id) =>
      var r := s.routines[id];
      s.(runs := s.runs - {id}, routines := s.routines[id := r.(stage := Gone(r.stage.cancelled))])
  }

  function Next(s: State, step: Step): State {
    if Enabled(s, step) then Apply(s, step) else s
  }

  function After(steps: seq<Step>): State {
    if steps == [] then INIT else Next(After(steps[..|steps| - 1]), steps[|steps| - 1])
  }

  /** The updates a goroutine in state `r` has emitted. */
  function Script(r: Routine, runId: string): seq<StreamEvent> {
    (if r.sent == 0 then [] else if r.sent == 1 then [Chunk(r, runId, 0)] else [Chunk(r, runId, 0), Chunk(r, runId, 1)])
    + match r.stage
      case Running => []
      case Leaving(cancelled) => [if cancelled then Cancelled(r, runId) else Completed(r, runId)]
      case Gone(cancelled) => [if cancelled then Cancelled(r, runId) else Completed(r, runId)]
  }

  /** A cancel for the run came after its prompt and before its final update. */
  ghost predicate CancelReached(steps: seq<Step>, runId: string) {
    exists n :: 0 <= n < |steps| && CancelAt(steps, runId, n)
  }

  predicate CancelAt(steps: seq<Step>, runId: string, n: nat)
    requires n < |steps|
  {
    var before := After(steps[..n]);
    steps[n] == Cancel(runId) && runId in before.routines && before.routines[runId].stage.Running?
  }

  lemma CancelReachedGrows(steps: seq<Step>, step: Step, runId: string)
    ensures CancelReached(steps, runId) ==> CancelReached(steps + [step], runId)
    ensures step == Cancel(runId) && runId in After(steps).routines && After(steps).routines[runId].stage.Running? ==>
      CancelReached(steps + [step], runId)
  {
    var more := steps + [step];
    if n :| 0 <= n < |steps| && CancelAt(steps, runId, n) {
      assert more[..n] == steps[..n];
      assert CancelAt(more, runId, n);
    }
    assert more[..|steps|] == steps && more[|steps|] == step;
    assert CancelAt(more, runId, |steps|) <==>
      step == Cancel(runId) && runId in After(steps).routines && After(steps).routines[runId].stage.Running?;
  }

  ghost predicate RoutineInv(steps: seq<Step>, s: State, runId: string)
    requires runId in s.routines
  {
    var r := s.routines[runId];
    && Routing.ForRun(runId, s.out) == Script(r, runId)
    && r.sent <= 2
    && Prompt(r.sessionId, runId, r.prompt) in steps
    && (r.stage.Running? && r.contextDone ==> CancelReached(steps, runId))
    && (!r.stage.Running? ==> if r.stage.cancelled then CancelReached(steps, runId) && r.sent < 2 else r.sent == 2)
  }

  ghost predicate Inv(steps: seq<Step>, s: State) {
    && (forall id :: id in s.routines ==> RoutineInv(steps, s, id))
    && (forall u :: u in s.out ==> u.runId in s.routines)
  }

  lemma ForRunSnoc(runId: string, out: seq<StreamEvent>, u: StreamEvent)
    ensures Routing.ForRun(runId, out + [u])
         == if u.runId == runId then Routing.ForRun(runId, out) + [u] else Routing.ForRun(runId, out)
  {
    FilterSnoc((x: StreamEvent) => x.runId == runId, out, u);
  }

  /** Each way of emitting extends the script by the update emitted. */
  lemma ScriptGrows(r: Routine, id: string)
    requires r.stage.Running? && r.sent <= 2
    ensures r.sent < 2 ==> Script(r.(sent := r.sent + 1), id) == Script(r, id) + [Chunk(r, id, r.sent)]
    ensures Script(r.(stage := Leaving(true)), id) == Script(r, id) + [Cancelled(r, id)]
    ensures Script(r.(stage := Leaving(false)), id) == Script(r, id) + [Completed(r, id)]
  {
  }

  lemma EmitOwn(steps: seq<Step>, s: State, step: Step)
    requires Enabled(s, step) && (step.Timer? || step.Abort? || step.Complete?)
    requires RoutineInv(steps, s, step.runId)
    ensures RoutineInv(steps + [step], Apply(s, step), step.runId)
  {
    var id, t := step.runId, Apply(s, step);
    ForRunSnoc(id, s.out, t.out[|s.out|]);
    ScriptGrows(s.routines[id], id);
    CancelReachedGrows(steps, step, id);
  }

  /** The emitting routine adds one update to its own script and to nobody else's. */
  lemma EmitRoutine(steps: seq<Step>, s: State, step: Step, id: string)
    requires Enabled(s, step) && (step.Timer? || step.Abort? || step.Complete?)
    requires id in s.routines && RoutineInv(steps, s, id)
    ensures RoutineInv(steps + [step], Apply(s, step), id)
  {
    if id == step.runId {
      EmitOwn(steps, s, step);
    } else {
      ForRunSnoc(id, s.out, Apply(s, step).out[|s.out|]);
      CancelReachedGrows(steps, step, id);
    }
  }

  lemma InvEmit(steps: seq<Step>, s: State, step: Step)
    requires Inv(steps, s) && Enabled(s, step) && (step.Timer? || step.Abort? || step.Complete?)
    ensures Inv(steps + [step], Apply(s, step))
  {
    var t := Apply(s, step);
    forall id | id in t.routines ensures RoutineInv(steps + [step], t, id) {
      EmitRoutine(steps, s, step, id);
    }
  }

  lemma OtherRoutine(steps: seq<Step>, s: State, step: Step, id: string)
    requires s == After(steps) && Enabled(s, step) && (step.Prompt? || step.Cancel? || step.Cleanup?)
    requires id in s.routines && RoutineInv(steps, s, id)
    ensures id in Apply(s, step).routines && RoutineInv(steps + [step], Apply(s, step), id)
  {
    CancelReachedGrows(steps, step, id);
  }

  lemma InvOther(steps: seq<Step>, s: State, step: Step)
    requires s == After(steps) && Inv(steps, s) && Enabled(s, step) && (step.Prompt? || step.Cancel? || step.Cleanup?)
    ensures Inv(steps + [step], Apply(s, step))
  {
    var t := Apply(s, step);
    forall id | id in t.routines ensures RoutineInv(steps + [step], t, id) {
      if id in s.routines { OtherRoutine(steps, s, step, id); }
      else { FilterNone((u: StreamEvent) => u.runId == id, s.out); }
    }
  }

  lemma {:induction false} InvAfter(steps: seq<Step>)
    ensures Inv(steps, After(steps))
  {
    if steps != [] {
      var init, step := steps[..|steps| - 1], steps[|steps| - 1];
      InvAfter(init);
      assert steps == init + [step];
      var s := After(init);
      if Enabled(s, step) {
        if step.Timer? || step.Abort? || step.Complete? { InvEmit(init, s, step); } else { InvOther(init, s, step); }
      } else {
        forall id | id in s.routines ensures RoutineInv(steps, s, id) {
          assert RoutineInv(init, s, id);
          CancelReachedGrows(init, step, id);
        }
      }
    }
  }

  /** Update number `i` of a prompt: "echo:" and then the prompt itself as chunks, and in third place the
      completion with the prompt once more; or, in first or second place, the cancellation. */
  predicate Echoes(u: StreamEvent, i: nat, sessionId: string, runId: string, prompt: string) {
    && u.sessionId == sessionId && u.runId == runId && u.error == ""
    && if u.kind == "cancelled" then u.final && i < 2 && u.text == "" && u.metadata == ""
       else if i == 2 then u.final && u.kind == "completed" && u.text == prompt && u.metadata == prompt
       else !u.final && u.kind == "chunk" && u.text == (if i == 0 then "echo:" else prompt) && u.metadata == ""
  }

  lemma ScriptEchoes(r: Routine, runId: string)
    requires r.sent <= 2 && (!r.stage.Running? ==> if r.stage.cancelled then r.sent < 2 else r.sent == 2)
    ensures forall i :: 0 <= i < |Script(r, runId)| ==> Echoes(Script(r, runId)[i], i, r.sessionId, runId, r.prompt)
  {
  }

  /** Every prompt emits at most three updates; none but the last is final, the last is final once
      the goroutine is done, and a cancellation is only reported if one came for the run after its
      prompt and before that update. */
  lemma EchoEmits(steps: seq<Step>, runId: string)
    requires runId in After(steps).routines
    ensures var s := After(steps); var updates := Routing.ForRun(runId, s.out); var r := s.routines[runId];
      && |updates| <= 3
      && FinalOnlyLast(updates)
      && (r.stage.Running? <==> updates == [] || !IsFinal(updates[|updates| - 1]))
      && (!r.stage.Running? ==>
            var last := updates[|updates| - 1];
            (last.kind == "completed" || (last.kind == "cancelled" && CancelReached(steps, runId))))
    ensures var s := After(steps); var updates := Routing.ForRun(runId, s.out); var r := s.routines[runId];
      && Prompt(r.sessionId, runId, r.prompt) in steps
      && forall i :: 0 <= i < |updates| ==> Echoes(updates[i], i, r.sessionId, runId, r.prompt)
  {
    InvAfter(steps);
    assert RoutineInv(steps, After(steps), runId);
    ScriptEchoes(After(steps).routines[runId], runId);
  }

  lemma FinishedStream(run: Run, updates: seq<StreamEvent>)
    requires updates != [] && FinalOnlyLast(updates) && IsFinal(updates[|updates| - 1])
    ensures var items := Stream(run, updates);
      && |items| == |updates|
      && (forall i :: 0 <= i < |items| ==> (items[i].final <==> i == |items| - 1))
      && items[|items| - 1].run.state == FinalState(updates[|updates| - 1].kind)
  {
  }

  // ----- The closed system: the pipeline with the echo agent as its agent -----

  /** The histories of the two sides, and which prompt each run id was dispatched for. */
  datatype Joint = Joint(agent: seq<Step>, piped: seq<Pipeline.Step>, dispatched: map<string, nat>)

  datatype JointStep = Dispatch(prompt: nat) | InAgent(step: Step) | InPipe(piped: Pipeline.Step)

  predicate JointEnabled(j: Joint, step: JointStep) {
    var pipe, echo := Pipeline.After(j.piped), After(j.agent);
    match step
    case Dispatch(k) =>
      k < |pipe.pipes| && k < |pipe.routing.prompts| && pipe.routing.prompts[k].live
        && pipe.pipes[k].run.id !in echo.routines
    case InAgent(e) => !e.Prompt? && Enabled(echo, e)
    case InPipe(p) => !(p.Write? && Acp.IsUpdate(p.envelope)) && Pipeline.Polite(pipe, p)
  }

  /** A `session/update` notification as the agent encodes it. */
  function Notification(u: StreamEvent): Acp.Envelope {
    Acp.Envelope("", "session/update", Some(u), "", None)
  }

  /** `session/prompt` reaches the agent for a prompt that has subscribed; the updates it writes go to stdout,
      among its replies and whatever else it writes. */
  function JointNext(j: Joint, step: JointStep): Joint {
    if !JointEnabled(j, step) then j
    else
      match step
      case Dispatch(k) =>
        var run := Pipeline.After(j.piped).pipes[k].run;
        j.(agent := j.agent + [Prompt(run.sessionId, run.id, run.input)], dispatched := j.dispatched[run.id := k])
      case InAgent(e) =>
        var before, after := After(j.agent).out, Next(After(j.agent), e).out;
        j.(agent := j.agent + [e],
           piped := if |before| < |after| then j.piped + [Pipeline.Write(Notification(after[|before|]))] else j.piped)
      case InPipe(p) => j.(piped := j.piped + [p])
  }

  function JointAfter(steps: seq<JointStep>): Joint {
    if steps == [] then Joint([], [], map[]) else JointNext(JointAfter(steps[..|steps| - 1]), steps[|steps| - 1])
  }

  /** A run is dispatched after its prompt subscribed, so no update of it is older. */
  ghost predicate DispatchInv(pipe: Pipeline.State, id: string, k: nat) {
    && k < |pipe.pipes| && k < |pipe.routing.prompts|
    && pipe.pipes[k].run.id == id
    && pipe.client.handlerSet && Routing.ForRun(id, pipe.missed) == []
    && pipe.routing.prompts[k].start <= |pipe.routing.routed|
    && Routing.ForRun(id, pipe.routing.routed[..pipe.routing.prompts[k].start]) == []
  }

  ghost predicate JointInv(j: Joint) {
    var pipe, echo := Pipeline.After(j.piped), After(j.agent);
    && Pipeline.PoliteRun(j.piped)
    && Acp.Updates(pipe.written) == echo.out
    && (forall id :: id in j.dispatched ==> DispatchInv(pipe, id, j.dispatched[id]))
  }

  lemma AfterSnoc(steps: seq<Step>, step: Step)
    ensures After(steps + [step]) == Next(After(steps), step)
  {
    assert (steps + [step])[..|steps|] == steps;
  }

  lemma PipedSnoc(piped: seq<Pipeline.Step>, p: Pipeline.Step)
    ensures Pipeline.After(piped + [p]) == Pipeline.Next(Pipeline.After(piped), p)
    ensures Pipeline.PoliteRun(piped) && Pipeline.Polite(Pipeline.After(piped), p) ==> Pipeline.PoliteRun(piped + [p])
  {
    assert (piped + [p])[..|piped|] == piped;
  }

  lemma RoutedGrows(routing: Routing.State, step: Routing.Step, k: nat)
    requires k < |routing.prompts|
    ensures var t := Routing.Next(routing, step);
      routing.routed <= t.routed && k < |t.prompts| && t.prompts[k].start == routing.prompts[k].start
  {
  }

  lemma RoutingMoves(pipe: Pipeline.State, p: Pipeline.Step, k: nat)
    requires k < |pipe.routing.prompts|
    ensures var t := Pipeline.Next(pipe, p).routing;
      pipe.routing.routed <= t.routed && k < |t.prompts| && t.prompts[k].start == pipe.routing.prompts[k].start
  {
    if Pipeline.Enabled(pipe, p) {
      match p
      case Deliver =>
        if Acp.IsUpdate(pipe.stdout[0]) { RoutedGrows(pipe.routing, Routing.Route(pipe.stdout[0].update.value), k); }
      case Open(_, _, runId, _) => RoutedGrows(pipe.routing, Routing.Subscribe(runId), k);
      case Number(i) => RoutedGrows(pipe.routing, Routing.Consume(i), k);
      case Finish(i) => RoutedGrows(pipe.routing, Routing.Unsubscribe(i), k);
      case _ =>
    }
  }

  lemma HandlerStays(pipe: Pipeline.State, p: Pipeline.Step)
    requires pipe.client.handlerSet
    ensures Pipeline.Next(pipe, p).client.handlerSet && Pipeline.Next(pipe, p).missed == pipe.missed
  {
  }

  lemma PipeKeepsRun(pipe: Pipeline.State, p: Pipeline.Step, k: nat)
    requires k < |pipe.pipes|
    ensures k < |Pipeline.Next(pipe, p).pipes| && Pipeline.Next(pipe, p).pipes[k].run == pipe.pipes[k].run
  {
  }

  /** A pipe keeps its run and its starting point, and routed updates are never revised. */
  lemma DispatchKept(pipe: Pipeline.State, p: Pipeline.Step, id: string, k: nat)
    requires DispatchInv(pipe, id, k)
    ensures DispatchInv(Pipeline.Next(pipe, p), id, k)
  {
    var t, start := Pipeline.Next(pipe, p), pipe.routing.prompts[k].start;
    RoutingMoves(pipe, p, k);
    HandlerStays(pipe, p);
    PipeKeepsRun(pipe, p, k);
    assert t.routing.routed[..start] == pipe.routing.routed[..start];
  }

  lemma JointPipe(j: Joint, p: Pipeline.Step)
    requires JointInv(j) && Pipeline.Polite(Pipeline.After(j.piped), p)
    ensures Pipeline.PoliteRun(j.piped + [p])
    ensures forall id :: id in j.dispatched ==> DispatchInv(Pipeline.After(j.piped + [p]), id, j.dispatched[id])
  {
    PipedSnoc(j.piped, p);
    forall id | id in j.dispatched ensures DispatchInv(Pipeline.After(j.piped + [p]), id, j.dispatched[id]) {
      DispatchKept(Pipeline.After(j.piped), p, id, j.dispatched[id]);
    }
  }

  lemma JointDispatch(j: Joint, k: nat)
    requires JointInv(j) && JointEnabled(j, Dispatch(k))
    ensures JointInv(JointNext(j, Dispatch(k)))
  {
    var t := JointNext(j, Dispatch(k));
    var pipe := Pipeline.After(j.piped);
    var run := pipe.pipes[k].run;
    AfterSnoc(j.agent, Prompt(run.sessionId, run.id, run.input));
    InvAfter(j.agent);
    Pipeline.InvAfter(j.piped);
    assert Routing.PromptInv(pipe.routing, k);
    forall u | u in pipe.missed || u in pipe.routing.routed ensures u.runId != run.id {
      assert u in Acp.Updates(pipe.written);
    }
    FilterNone((u: StreamEvent) => u.runId == run.id, pipe.missed);
    FilterNone((u: StreamEvent) => u.runId == run.id, pipe.routing.routed[..pipe.routing.prompts[k].start]);
  }

  lemma AgentWritesOne(s: State, e: Step)
    ensures Next(s, e).out == s.out || (|Next(s, e).out| == |s.out| + 1
      && Next(s, e).out == s.out + [Next(s, e).out[|s.out|]])
  {
  }

  lemma WriteIsSeen(j: Joint, env: Acp.Envelope)
    requires JointInv(j)
    ensures Pipeline.PoliteRun(j.piped + [Pipeline.Write(env)])
    ensures Acp.Updates(Pipeline.After(j.piped + [Pipeline.Write(env)]).written) == After(j.agent).out
      + Acp.Updates([env])
    ensures forall id :: id in j.dispatched ==>
      DispatchInv(Pipeline.After(j.piped + [Pipeline.Write(env)]), id, j.dispatched[id])
  {
    JointPipe(j, Pipeline.Write(env));
    PipedSnoc(j.piped, Pipeline.Write(env));
    Acp.UpdatesSnoc(Pipeline.After(j.piped).written, env);
  }

  lemma JointAgent(j: Joint, e: Step)
    requires JointInv(j) && JointEnabled(j, InAgent(e))
    ensures JointInv(JointNext(j, InAgent(e)))
  {
    AfterSnoc(j.agent, e);
    AgentWritesOne(After(j.agent), e);
    var before, after := After(j.agent).out, Next(After(j.agent), e).out;
    if |before| < |after| {
      WriteIsSeen(j, Notification(after[|before|]));
      Acp.UpdatesSnoc([], Notification(after[|before|]));
    }
  }

  lemma WrittenBy(pipe: Pipeline.State, p: Pipeline.Step)
    requires !(p.Write? && Acp.IsUpdate(p.envelope))
    ensures Acp.Updates(Pipeline.Next(pipe, p).written) == Acp.Updates(pipe.written)
  {
    if p.Write? { Acp.UpdatesSnoc(pipe.written, p.envelope); }
  }

  lemma JointInPipe(j: Joint, p: Pipeline.Step)
    requires JointInv(j) && JointEnabled(j, InPipe(p))
    ensures JointInv(JointNext(j, InPipe(p)))
  {
    JointPipe(j, p);
    PipedSnoc(j.piped, p);
    WrittenBy(Pipeline.After(j.piped), p);
  }

  lemma JointStepInv(j: Joint, step: JointStep)
    requires JointInv(j)
    ensures JointInv(JointNext(j, step))
  {
    if JointEnabled(j, step) {
      match step
      case Dispatch(k) => JointDispatch(j, k);
      case InAgent(e) => JointAgent(j, e);
      case InPipe(p) => JointInPipe(j, p);
    }
  }

  lemma {:induction false} JointInvAfter(steps: seq<JointStep>)
    ensures JointInv(JointAfter(steps))
  {
    if steps == [] {
      assert Pipeline.After([]) == Pipeline.INIT && After([]) == INIT;
    } else {
      JointInvAfter(steps[..|steps| - 1]);
      JointStepInv(JointAfter(steps[..|steps| - 1]), steps[|steps| - 1]);
    }
  }

  /** The prompt the run was dispatched for is live and has numbered everything emitted for it. */
  predicate CaughtUp(j: Joint, runId: string) {
    var pipe, echo := Pipeline.After(j.piped), After(j.agent);
    && runId in j.dispatched && runId in echo.routines
    && var k := j.dispatched[runId];
      && k < |pipe.pipes| && k < |pipe.routing.prompts| && pipe.routing.prompts[k].live
      && pipe.routing.prompts[k].channel.buffer == []
      && Routing.ForRun(runId, Pipeline.Unread(pipe)) == []
  }

  lemma ForRunConcat(runId: string, a: seq<StreamEvent>, b: seq<StreamEvent>)
    ensures Routing.ForRun(runId, a + b) == Routing.ForRun(runId, a) + Routing.ForRun(runId, b)
  {
    FilterConcat((u: StreamEvent) => u.runId == runId, a, b);
  }

  /** With none of its updates missed, the run's updates are those routed and those unread. */
  lemma WrittenForRun(pipe: Pipeline.State, runId: string)
    requires Pipeline.Inv(pipe) && Routing.ForRun(runId, pipe.missed) == []
    ensures Routing.ForRun(runId, Acp.Updates(pipe.written))
         == Routing.ForRun(runId, pipe.routing.routed) + Routing.ForRun(runId, Pipeline.Unread(pipe))
  {
    ForRunConcat(runId, pipe.missed, Pipeline.Emitted(pipe));
    ForRunConcat(runId, pipe.routing.routed, Pipeline.Unread(pipe));
  }

  /** With no update older than the prompt and none unread, its channel was offered them all. */
  lemma OfferedIsEmitted(pipe: Pipeline.State, runId: string, k: nat)
    requires Pipeline.Inv(pipe) && DispatchInv(pipe, runId, k)
    requires pipe.routing.prompts[k].live && Routing.ForRun(runId, Pipeline.Unread(pipe)) == []
    ensures pipe.routing.prompts[k].channel.offered == Routing.ForRun(runId, Acp.Updates(pipe.written))
  {
    assert Pipeline.PipeInv(pipe, k) && Routing.PromptInv(pipe.routing, k);
    var start, routed := pipe.routing.prompts[k].start, pipe.routing.routed;
    WrittenForRun(pipe, runId);
    assert routed == routed[..start] + routed[start..];
    ForRunConcat(runId, routed[..start], routed[start..]);
  }

  lemma NumberedIsEmitted(j: Joint, runId: string)
    requires JointInv(j) && CaughtUp(j, runId)
    ensures var c := Pipeline.After(j.piped).routing.prompts[j.dispatched[runId]].channel;
      c.taken == Routing.ForRun(runId, After(j.agent).out) && LossyChannel.Dropped(c.depths) == 0
  {
    Pipeline.InvAfter(j.piped);
    var pipe, k := Pipeline.After(j.piped), j.dispatched[runId];
    assert DispatchInv(pipe, runId, k);
    OfferedIsEmitted(pipe, runId, k);
    EchoEmits(j.agent, runId);
    ShortChannel(pipe.routing, k);
  }

  lemma ShortChannel(routing: Routing.State, k: nat)
    requires Routing.Inv(routing) && k < |routing.prompts|
    requires routing.prompts[k].channel.buffer == [] && |routing.prompts[k].channel.offered| <= 3
    ensures var c := routing.prompts[k].channel; c.taken == c.offered && LossyChannel.Dropped(c.depths) == 0
  {
    var c := routing.prompts[k].channel;
    assert Routing.PromptInv(routing, k);
    LossyChannel.ShortHistoryKeepsAll(c);
    assert c.taken + c.buffer == c.taken;
  }

  /** At most three items, the last and only the last of them final; Completed, or Cancelled on request. */
  predicate SettledStream(items: seq<Item>, cancelRequested: bool) {
    && 1 <= |items| <= 3
    && (forall i :: 0 <= i < |items| ==> (items[i].final <==> i == |items| - 1))
    && (items[|items| - 1].run.state == RunCompleted
      || (items[|items| - 1].run.state == RunCancelled && cancelRequested))
  }

  lemma EchoStream(steps: seq<Step>, runId: string, run: Run)
    requires runId in After(steps).routines && !After(steps).routines[runId].stage.Running?
    ensures SettledStream(Stream(run, Routing.ForRun(runId, After(steps).out)), CancelReached(steps, runId))
  {
    EchoEmits(steps, runId);
    SettlesFrom(run, Routing.ForRun(runId, After(steps).out), CancelReached(steps, runId));
  }

  lemma SettlesFrom(run: Run, updates: seq<StreamEvent>, cancelRequested: bool)
    requires 1 <= |updates| <= 3 && FinalOnlyLast(updates)
    requires updates[|updates| - 1].kind == "completed"
      || (updates[|updates| - 1].kind == "cancelled" && cancelRequested)
    ensures SettledStream(Stream(run, updates), cancelRequested)
  {
    FinishedStream(run, updates);
  }

  /** Over every interleaving of the closed system: once the agent is done with a run whose prompt is
      still live and caught up, no update was dropped, the supervisor's stream has at most three items
      and ends with its only final one, and the run is Completed, or Cancelled because a cancel for
      it reached the agent. */
  lemma EchoRunSettles(steps: seq<JointStep>, runId: string)
    requires CaughtUp(JointAfter(steps), runId)
    requires !After(JointAfter(steps).agent).routines[runId].stage.Running?
    ensures var j := JointAfter(steps); var pipe := Pipeline.After(j.piped); var k := j.dispatched[runId];
      && LossyChannel.Dropped(pipe.routing.prompts[k].channel.depths) == 0
      && SettledStream(Stream(pipe.pipes[k].run, pipe.routing.prompts[k].channel.taken), CancelReached(j.agent, runId))
  {
    var j := JointAfter(steps);
    JointInvAfter(steps);
    NumberedIsEmitted(j, runId);
    EchoStream(j.agent, runId, Pipeline.After(j.piped).pipes[j.dispatched[runId]].run);
  }

  lemma ForRunSpan(runId: string, updates: seq<StreamEvent>, lo: nat, hi: nat)
    requires lo <= hi <= |updates| && Routing.ForRun(runId, updates[..lo]) == []
    ensures Routing.ForRun(runId, updates[lo..hi]) <= Routing.ForRun(runId, updates)
  {
    var keep := (u: StreamEvent) => u.runId == runId;
    assert updates == updates[..lo] + updates[lo..hi] + updates[hi..];
    FilterConcat(keep, updates[..lo] + updates[lo..hi], updates[hi..]);
    FilterConcat(keep, updates[..lo], updates[lo..hi]);
  }

  /** However far the rest of the system has got, a prompt's channel was offered the run's first updates. */
  lemma OfferedIsPrefix(pipe: Pipeline.State, runId: string, k: nat)
    requires Pipeline.Inv(pipe) && DispatchInv(pipe, runId, k)
    ensures pipe.routing.prompts[k].channel.offered <= Routing.ForRun(runId, Acp.Updates(pipe.written))
  {
    var p := pipe.routing.prompts[k];
    assert Pipeline.PipeInv(pipe, k);
    Routing.PromptConserves(pipe.routing, k);
    var hi := if p.live then |pipe.routing.routed| else p.end;
    WrittenForRun(pipe, runId);
    ForRunSpan(runId, pipe.routing.routed, p.start, hi);
  }

  predicate EndsOnFinal(updates: seq<StreamEvent>) {
    updates != [] && IsFinal(updates[|updates| - 1])
  }

  lemma TakenToTheEnd(routing: Routing.State, k: nat, updates: seq<StreamEvent>)
    requires Routing.Inv(routing) && k < |routing.prompts| && EndsOnFinal(routing.prompts[k].channel.taken)
    requires routing.prompts[k].channel.offered <= updates && |updates| <= 3 && FinalOnlyLast(updates)
    ensures var c := routing.prompts[k].channel; c.taken == updates && LossyChannel.Dropped(c.depths) == 0
  {
    var c := routing.prompts[k].channel;
    assert Routing.PromptInv(routing, k);
    LossyChannel.ShortHistoryKeepsAll(c);
    var n := |c.taken| - 1;
    assert (c.taken + c.buffer)[n] == c.taken[n] && c.offered[n] == updates[n];
    assert n == |updates| - 1;
    assert c.taken == updates;
  }

  /** The loop of the prompt the run was dispatched for has taken a final update. */
  predicate TookFinal(j: Joint, runId: string) {
    var pipe, echo := Pipeline.After(j.piped), After(j.agent);
    && runId in j.dispatched && runId in echo.routines
    && var k := j.dispatched[runId];
      k < |pipe.pipes| && k < |pipe.routing.prompts| && EndsOnFinal(pipe.routing.prompts[k].channel.taken)
  }

  lemma TookFinalTookAll(j: Joint, runId: string)
    requires JointInv(j) && TookFinal(j, runId)
    ensures var c := Pipeline.After(j.piped).routing.prompts[j.dispatched[runId]].channel;
      c.taken == Routing.ForRun(runId, After(j.agent).out) && LossyChannel.Dropped(c.depths) == 0
  {
    Pipeline.InvAfter(j.piped);
    var pipe, k := Pipeline.After(j.piped), j.dispatched[runId];
    assert DispatchInv(pipe, runId, k);
    OfferedIsPrefix(pipe, runId, k);
    EchoEmits(j.agent, runId);
    TakenToTheEnd(pipe.routing, k, Routing.ForRun(runId, After(j.agent).out));
  }

  /** In every interleaving of the closed system, whether or not the prompt is still live: once its
      loop has taken a final update it has taken everything the agent emits for the run, none was
      dropped, and its stream settles in the same way. */
  lemma EchoFinalSettles(steps: seq<JointStep>, runId: string)
    requires TookFinal(JointAfter(steps), runId)
    ensures var j := JointAfter(steps); var pipe := Pipeline.After(j.piped);
            var k := j.dispatched[runId]; var c := pipe.routing.prompts[k].channel;
      && c.taken == Routing.ForRun(runId, After(j.agent).out)
      && LossyChannel.Dropped(c.depths) == 0
      && SettledStream(Stream(pipe.pipes[k].run, c.taken), CancelReached(j.agent, runId))
  {
    var j := JointAfter(steps);
    JointInvAfter(steps);
    TookFinalTookAll(j, runId);
    EchoEmits(j.agent, runId);
    EchoStream(j.agent, runId, Pipeline.After(j.piped).pipes[j.dispatched[runId]].run);
  }

  // ----- Progress -----

  /** The updates a goroutine has yet to write. */
  function Unsent(r: Routine): nat {
    if r.stage.Running? && r.sent <= 2 then 3 - r.sent else 0
  }

  /** The steps the reader has yet to take before it can decode again. */
  function ReaderWork(reader: Acp.Reader): nat {
    match reader
    case Sending(_, _) => 2
    case Closing(_) => 1
    case _ => 0
  }

  /** The run was dispatched for a prompt whose loop is running, and the reader has not failed. */
  predicate Underway(j: Joint, runId: string) {
    var pipe, echo := Pipeline.After(j.piped), After(j.agent);
    && runId in j.dispatched && runId in echo.routines
    && var k := j.dispatched[runId];
      && k < |pipe.pipes| && k < |pipe.routing.prompts|
      && pipe.routing.prompts[k].live && pipe.pipes[k].looping
      && (pipe.client.reader.Idle? || pipe.client.reader.Sending? || pipe.client.reader.Closing?)
  }

  /** What is left to do for the run: updates to write, envelopes to read, updates to number. */
  function Work(pipe: Pipeline.State, r: Routine, k: nat): nat
    requires k < |pipe.routing.prompts|
  {
    4 * Unsent(r) + 3 * |pipe.stdout| + ReaderWork(pipe.client.reader) + |pipe.routing.prompts[k].channel.buffer|
  }

  function WorkLeft(j: Joint, runId: string): nat {
    var pipe, echo := Pipeline.After(j.piped), After(j.agent);
    if runId in j.dispatched && runId in echo.routines && j.dispatched[runId] < |pipe.routing.prompts|
    then Work(pipe, echo.routines[runId], j.dispatched[runId]) else 0
  }

  /** The goroutine's next step: a chunk while there are any, then the completion. */
  function NextWrite(r: Routine, runId: string): Step {
    if r.sent < 2 then Timer(runId) else Complete(runId)
  }

  lemma RoutineShortens(steps: seq<Step>, runId: string)
    requires runId in After(steps).routines && After(steps).routines[runId].stage.Running?
    ensures var s := After(steps); var e := NextWrite(s.routines[runId], runId); var t := Next(s, e);
      && Enabled(s, e) && runId in t.routines && |t.out| == |s.out| + 1
      && Unsent(t.routines[runId]) < Unsent(s.routines[runId])
  {
    InvAfter(steps);
    assert RoutineInv(steps, After(steps), runId);
  }

  lemma WriteAddsOne(pipe: Pipeline.State, env: Acp.Envelope, r: Routine, k: nat)
    requires k < |pipe.routing.prompts|
    ensures var t := Pipeline.Next(pipe, Pipeline.Write(env));
      && t == pipe.(written := pipe.written + [env], stdout := pipe.stdout + [env])
      && Work(t, r, k) == Work(pipe, r, k) + 3
  {
  }

  lemma AgentShortens(j: Joint, runId: string)
    requires Underway(j, runId) && After(j.agent).routines[runId].stage.Running?
    ensures var step := InAgent(NextWrite(After(j.agent).routines[runId], runId));
      && JointEnabled(j, step) && WorkLeft(JointNext(j, step), runId) < WorkLeft(j, runId)
      && Underway(JointNext(j, step), runId)
  {
    var echo, pipe, k := After(j.agent), Pipeline.After(j.piped), j.dispatched[runId];
    var e := NextWrite(echo.routines[runId], runId);
    RoutineShortens(j.agent, runId);
    AfterSnoc(j.agent, e);
    var env := Notification(Next(echo, e).out[|echo.out|]);
    PipedSnoc(j.piped, Pipeline.Write(env));
    WriteAddsOne(pipe, env, Next(echo, e).routines[runId], k);
  }

  /** One step of the pipeline that reads or numbers shortens the work, and the run goes on or is done. */
  ghost predicate Shortens(pipe: Pipeline.State, t: Pipeline.State, r: Routine, k: nat)
    requires k < |pipe.routing.prompts|
  {
    && k < |t.routing.prompts| && k < |t.pipes| && Work(t, r, k) < Work(pipe, r, k)
    && (EndsOnFinal(t.routing.prompts[k].channel.taken) || (t.routing.prompts[k].live && t.pipes[k].looping))
    && (t.client.reader.Idle? || t.client.reader.Sending? || t.client.reader.Closing?)
  }

  lemma PipeShortens(j: Joint, runId: string, p: Pipeline.Step)
    requires Underway(j, runId) && JointEnabled(j, InPipe(p))
    requires var pipe, k := Pipeline.After(j.piped), j.dispatched[runId];
      Shortens(pipe, Pipeline.Next(pipe, p), After(j.agent).routines[runId], k)
    ensures WorkLeft(JointNext(j, InPipe(p)), runId) < WorkLeft(j, runId)
    ensures Underway(JointNext(j, InPipe(p)), runId) || TookFinal(JointNext(j, InPipe(p)), runId)
  {
    PipedSnoc(j.piped, p);
  }

  lemma RouteQueuesOne(routing: Routing.State, u: StreamEvent, k: nat)
    requires k < |routing.prompts|
    ensures var t := Routing.Next(routing, Routing.Route(u));
      && k < |t.prompts| && t.prompts[k].live == routing.prompts[k].live
      && |t.prompts[k].channel.buffer| <= |routing.prompts[k].channel.buffer| + 1
  {
  }

  lemma DecodeStaysAlive(client: Acp.State, env: Acp.Envelope)
    requires client.reader.Idle?
    ensures var t := Acp.Next(client, Acp.Decode(env)); t.reader.Idle? || t.reader.Sending?
  {
  }

  lemma ReadShortens(pipe: Pipeline.State, r: Routine, k: nat)
    requires k < |pipe.routing.prompts| && k < |pipe.pipes| && pipe.routing.prompts[k].live && pipe.pipes[k].looping
    requires pipe.stdout != [] && pipe.client.reader.Idle? && !pipe.client.crashed
    ensures Shortens(pipe, Pipeline.Next(pipe, Pipeline.Deliver), r, k)
  {
    var env := pipe.stdout[0];
    DecodeStaysAlive(pipe.client, env);
    if Acp.IsUpdate(env) { RouteQueuesOne(pipe.routing, env.update.value, k); }
  }

  /** The reader finishes with the reply it holds. */
  function ReaderStep(reader: Acp.Reader): Acp.Step {
    if reader.Sending? then Acp.SendReply else Acp.CloseReply
  }

  lemma ReplyShortens(pipe: Pipeline.State, r: Routine, k: nat)
    requires k < |pipe.routing.prompts| && k < |pipe.pipes| && pipe.routing.prompts[k].live && pipe.pipes[k].looping
    requires pipe.client.reader.Sending? || pipe.client.reader.Closing?
    requires Acp.Enabled(pipe.client, ReaderStep(pipe.client.reader))
    ensures Shortens(pipe, Pipeline.Next(pipe, Pipeline.InClient(ReaderStep(pipe.client.reader))), r, k)
  {
  }

  lemma NumberShortens(pipe: Pipeline.State, r: Routine, k: nat)
    requires Pipeline.Enabled(pipe, Pipeline.Number(k))
    requires pipe.client.reader.Idle? || pipe.client.reader.Sending? || pipe.client.reader.Closing?
    ensures Shortens(pipe, Pipeline.Next(pipe, Pipeline.Number(k)), r, k)
  {
  }

  /** Nothing to write, unread or queued: then the loop has taken the final update. */
  lemma IdleTookFinal(j: Joint, runId: string)
    requires JointInv(j) && Underway(j, runId) && !After(j.agent).routines[runId].stage.Running?
    requires var pipe := Pipeline.After(j.piped);
      pipe.stdout == [] && pipe.routing.prompts[j.dispatched[runId]].channel.buffer == []
    ensures TookFinal(j, runId)
  {
    assert CaughtUp(j, runId);
    NumberedIsEmitted(j, runId);
    EchoEmits(j.agent, runId);
  }

  /** The step to take next for a run that is under way. */
  function NextStep(j: Joint, runId: string): JointStep
    requires Underway(j, runId)
  {
    var pipe, r := Pipeline.After(j.piped), After(j.agent).routines[runId];
    if r.stage.Running? then InAgent(NextWrite(r, runId))
    else if !pipe.client.reader.Idle? then InPipe(Pipeline.InClient(ReaderStep(pipe.client.reader)))
    else if pipe.stdout != [] then InPipe(Pipeline.Deliver)
    else InPipe(Pipeline.Number(j.dispatched[runId]))
  }

  /** A step that can be taken, leaves less to do, and keeps the run under way unless it ends it. */
  ghost predicate Progresses(j: Joint, runId: string, step: JointStep) {
    && JointEnabled(j, step) && WorkLeft(JointNext(j, step), runId) < WorkLeft(j, runId)
    && (Underway(JointNext(j, step), runId) || TookFinal(JointNext(j, step), runId))
  }

  lemma NumberEnabled(j: Joint, runId: string)
    requires JointInv(j) && Underway(j, runId)
    requires Pipeline.After(j.piped).routing.prompts[j.dispatched[runId]].channel.buffer != []
    ensures Pipeline.Enabled(Pipeline.After(j.piped), Pipeline.Number(j.dispatched[runId]))
  {
    Pipeline.InvAfter(j.piped);
  }

  lemma ReaderReady(j: Joint)
    ensures var client := Pipeline.After(j.piped).client;
      && !client.crashed
      && (client.reader.Sending? || client.reader.Closing? ==> Acp.Enabled(client, ReaderStep(client.reader)))
  {
    Pipeline.ClientIsRun(j.piped);
    Acp.ReplySendsNeverBlock(Pipeline.ClientRun(j.piped));
  }

  lemma PipeProgress(j: Joint, runId: string)
    requires JointInv(j) && Underway(j, runId) && !TookFinal(j, runId)
    requires !After(j.agent).routines[runId].stage.Running?
    ensures Progresses(j, runId, NextStep(j, runId))
  {
    var pipe, r, k := Pipeline.After(j.piped), After(j.agent).routines[runId], j.dispatched[runId];
    ReaderReady(j);
    if !pipe.client.reader.Idle? {
      ReplyShortens(pipe, r, k);
      PipeShortens(j, runId, Pipeline.InClient(ReaderStep(pipe.client.reader)));
    } else if pipe.stdout != [] {
      ReadShortens(pipe, r, k);
      PipeShortens(j, runId, Pipeline.Deliver);
    } else {
      if pipe.routing.prompts[k].channel.buffer == [] { IdleTookFinal(j, runId); }
      NumberEnabled(j, runId);
      NumberShortens(pipe, r, k);
      PipeShortens(j, runId, Pipeline.Number(k));
    }
  }

  /** The closed system after some more steps. */
  function JointExec(j: Joint, more: seq<JointStep>): Joint
    decreases |more|
  {
    if more == [] then j else JointExec(JointNext(j, more[0]), more[1..])
  }

  lemma {:induction false} JointContinues(steps: seq<JointStep>, more: seq<JointStep>)
    ensures JointAfter(steps + more) == JointExec(JointAfter(steps), more)
    decreases |more|
  {
    if more == [] {
      assert steps + more == steps;
    } else {
      assert (steps + [more[0]])[..|steps|] == steps;
      JointContinues(steps + [more[0]], more[1..]);
      assert steps + [more[0]] + more[1..] == steps + more;
    }
  }

  /** Progress, for one reachable state. */
  lemma Progress(j: Joint, runId: string)
    requires JointInv(j) && Underway(j, runId) && !TookFinal(j, runId)
    ensures Progresses(j, runId, NextStep(j, runId))
  {
    if After(j.agent).routines[runId].stage.Running? { AgentShortens(j, runId); } else { PipeProgress(j, runId); }
  }

  lemma StepTaken(j: Joint, runId: string) returns (step: JointStep, t: Joint)
    requires JointInv(j) && Underway(j, runId) && !TookFinal(j, runId)
    ensures t == JointNext(j, step) && JointInv(t) && WorkLeft(t, runId) < WorkLeft(j, runId)
    ensures Underway(t, runId) || TookFinal(t, runId)
  {
    step := NextStep(j, runId);
    t := JointNext(j, step);
    Progress(j, runId);
    JointStepInv(j, step);
  }

  lemma {:induction false} ReachesFinal(j: Joint, runId: string) returns (more: seq<JointStep>)
    requires JointInv(j) && (Underway(j, runId) || TookFinal(j, runId))
    ensures TookFinal(JointExec(j, more), runId)
    decreases WorkLeft(j, runId)
  {
    more := [];
    if !TookFinal(j, runId) {
      var step, t := StepTaken(j, runId);
      var rest := ReachesFinal(t, runId);
      more := [step] + rest;
      assert more[1..] == rest;
    }
  }

  /** Progress, in every reachable state of the closed system: while a run is under way, its loop running
      and the reader alive, and the loop has not taken its final update, the agent, the reader or the
      loop can take a step, and that step leaves less to do. */
  lemma EchoProgress(steps: seq<JointStep>, runId: string)
    requires Underway(JointAfter(steps), runId) && !TookFinal(JointAfter(steps), runId)
    ensures Progresses(JointAfter(steps), runId, NextStep(JointAfter(steps), runId))
  {
    JointInvAfter(steps);
    Progress(JointAfter(steps), runId);
  }

  /** So from every such state some continuation brings the run to its final update. */
  lemma EchoReachesFinal(steps: seq<JointStep>, runId: string) returns (more: seq<JointStep>)
    requires Underway(JointAfter(steps), runId)
    ensures TookFinal(JointAfter(steps + more), runId)
  {
    JointInvAfter(steps);
    more := ReachesFinal(JointAfter(steps), runId);
    JointContinues(steps, more);
  }
}
