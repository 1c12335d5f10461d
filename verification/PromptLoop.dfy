/** `Manager.Prompt` in runtime/supervisor/manager.go: dispatch a prompt to the agent, then turn
    the updates of its run into numbered stream items that carry the run's state. */
module PromptLoop {
  import opened Control
  import opened Sequences

  /** The agent's answer to `session/prompt`; `sent` says whether the refusal item went out. */
  datatype Dispatch = Accepted | Refused(error: string, sent: bool)

  /** What the loop's `select` wakes up to; `sent` says whether `stream.Send` succeeded. */
  datatype Wake = Arrived(update: StreamEvent, sent: bool) | StreamDone

  datatype Outcome = Finished | Interrupted | StillWaiting

  predicate IsFinal(u: StreamEvent) {
    u.final || u.kind == "completed" || u.kind == "cancelled" || u.kind == "failed"
  }

  function FinalState(kind: string): RunState {
    if kind == "cancelled" then RunCancelled
    else if kind == "failed" then RunFailed
    else RunCompleted
  }

  function NewRun(session: Session, containerId: string, runId: string, input: string): Run {
    Run(runId, session.id, containerId, session.agentInstanceId, RunDispatching, input, "", false, 0)
  }

  /** The `n`-th update of a run, as subscribers see it. */
  function EventFor(run: Run, n: nat, u: StreamEvent): Event {
    Event(run.sessionId, run.id, u.kind, n, u.text, u.error, u.metadata)
  }

  /** The run record once its `n`-th update is `u`: earlier updates leave no trace in it. */
  function RunAt(run: Run, n: nat, u: StreamEvent): Run {
    if IsFinal(u) then run.(sequence := n, state := FinalState(u.kind), error := u.error, completed := true)
    else run.(sequence := n, state := RunStreaming)
  }

  function ItemFor(run: Run, n: nat, u: StreamEvent): Item {
    Item(EventFor(run, n, u), RunAt(run, n, u), IsFinal(u), u.error)
  }

  /** The items for a list of updates, each from its own position alone. */
  function Stream(run: Run, updates: seq<StreamEvent>): seq<Item> {
    seq(|updates|, i requires 0 <= i < |updates| => ItemFor(run, i + 1, updates[i]))
  }

  function RefusalItem(run: Run, error: string): Item {
    Item(ZERO_EVENT, run.(state := RunFailed, error := error, completed := true), true, error)
  }

  /** The updates the loop gets through: it ends at a final update, a dead stream or a failed send. */
  function Consumed(wakes: seq<Wake>): seq<StreamEvent> {
    if wakes == [] || wakes[0].StreamDone? || !wakes[0].sent then []
    else if IsFinal(wakes[0].update) then [wakes[0].update]
    else [wakes[0].update] + Consumed(wakes[1..])
  }

  predicate FinalOnlyLast(updates: seq<StreamEvent>) {
    forall i :: 0 <= i < |updates| - 1 ==> !IsFinal(updates[i])
  }

  /** The loop goes through the updates in order, never past a final one, and stops early only at a dead
      stream or a failed send. */
  lemma {:induction false} ConsumedFinalOnlyLast(wakes: seq<Wake>)
    ensures FinalOnlyLast(Consumed(wakes))
    ensures |Consumed(wakes)| <= |wakes|
    ensures forall i :: 0 <= i < |Consumed(wakes)| ==> wakes[i] == Arrived(Consumed(wakes)[i], true)
    ensures |Consumed(wakes)| < |wakes| ==>
      || (Consumed(wakes) != [] && IsFinal(Consumed(wakes)[|Consumed(wakes)| - 1]))
      || wakes[|Consumed(wakes)|].StreamDone? || !wakes[|Consumed(wakes)|].sent
  {
    if wakes != [] { ConsumedFinalOnlyLast(wakes[1..]); }
  }

  function States(items: seq<Item>): seq<RunState> {
    seq(|items|, i requires 0 <= i < |items| => items[i].run.state)
  }

  predicate RefusedStream(run: Run, items: seq<Item>) {
    |items| == 1 && items[0].event == ZERO_EVENT && items[0].run.state == RunFailed
      && items[0].run.sequence == run.sequence
  }

  predicate NumberedStream(run: Run, items: seq<Item>) {
    forall i :: 0 <= i < |items| ==>
      && items[i].event.sequence == i + 1 == items[i].run.sequence
      && items[i].event.runId == run.id && items[i].event.sessionId == run.sessionId
  }

  /** Every stream the supervisor sends: one final Failed item for a refused dispatch, or events
      numbered from 1 without gaps, final at most at the end and exactly when the run is terminal. */
  ghost predicate Grammar(run: Run, items: seq<Item>) {
    && (forall i :: 0 <= i < |items| ==>
          && items[i].run.id == run.id && items[i].run.sessionId == run.sessionId
          && items[i].run.containerId == run.containerId && items[i].run.agentInstanceId == run.agentInstanceId
          && items[i].run.input == run.input
          && (items[i].final <==> Terminal(items[i].run.state))
          && (items[i].final <==> items[i].run.completed)
          && (items[i].final ==> i == |items| - 1)
          && (!items[i].final ==> items[i].run.state == RunStreaming))
    && RunHistory([run.state] + States(items))
    && (RefusedStream(run, items) || NumberedStream(run, items))
  }

  lemma StreamGrammar(run: Run, updates: seq<StreamEvent>)
    requires run.state == RunDispatching && !run.completed
    requires FinalOnlyLast(updates)
    ensures Grammar(run, Stream(run, updates))
  {
    var items := Stream(run, updates);
    var states := [run.state] + States(items);
    forall i | 0 <= i < |states| - 1 ensures ValidRunTransition(states[i], states[i + 1]) {
      if i > 0 { assert !IsFinal(updates[i - 1]); }
      assert states[i + 1] == RunAt(run, i + 1, updates[i]).state;
    }
  }

  lemma RefusalGrammar(run: Run, error: string)
    requires run.state == RunDispatching && !run.completed
    ensures Grammar(run, [RefusalItem(run, error)])
  {
    assert [run.state] + States([RefusalItem(run, error)]) == [RunDispatching, RunFailed];
  }

  /** The event tells the update: its kind, text, error and metadata, for the run and its session. */
  predicate Carries(run: Run, e: Event, u: StreamEvent) {
    && e.sessionId == run.sessionId && e.runId == run.id
    && e.kind == u.kind && e.text == u.text && e.error == u.error && e.metadata == u.metadata
  }

  /** The item tells the update and what it means for the run: final if the update says so or by its
      kind; then Cancelled or Failed exactly by that kind and otherwise Completed, with the update's error. */
  predicate Tells(run: Run, item: Item, u: StreamEvent) {
    && Carries(run, item.event, u) && item.error == u.error
    && (item.final <==> u.final || u.kind in {"completed", "cancelled", "failed"})
    && (item.run.state == RunCancelled <==> u.kind == "cancelled")
    && (item.run.state == RunFailed <==> u.kind == "failed")
    && (item.final && u.kind != "cancelled" && u.kind != "failed" ==> item.run.state == RunCompleted)
    && item.run.error == if item.final then u.error else run.error
  }

  predicate TellsAll(run: Run, items: seq<Item>, updates: seq<StreamEvent>) {
    |items| == |updates| && forall i :: 0 <= i < |items| ==> Tells(run, items[i], updates[i])
  }

  lemma StreamTells(run: Run, updates: seq<StreamEvent>)
    ensures TellsAll(run, Stream(run, updates), updates)
  {
    var items := Stream(run, updates);
    forall i | 0 <= i < |items| ensures Tells(run, items[i], updates[i]) {
      assert items[i] == ItemFor(run, i + 1, updates[i]);
    }
  }

  /** What a prompt call sends, given how the agent answered and which updates it got through. */
  predicate PromptTells(run: Run, dispatch: Dispatch, wakes: seq<Wake>, items: seq<Item>) {
    match dispatch
    case Accepted => TellsAll(run, items, Consumed(wakes))
    case Refused(error, sent) =>
      if sent then
        && |items| == 1 && items[0].final
        && items[0].run.state == RunFailed && items[0].run.error == items[0].error == error
      else items == []
  }

  /** All items of one prompt call. */
  function Items(run: Run, dispatch: Dispatch, wakes: seq<Wake>): seq<Item> {
    match dispatch
    case Refused(error, sent) => if sent then [RefusalItem(run, error)] else []
    case Accepted => Stream(run, Consumed(wakes))
  }

  /** Whatever the agent answers and emits, and wherever the call is interrupted. */
  lemma PromptGrammar(session: Session, containerId: string, runId: string, input: string,
                      dispatch: Dispatch, wakes: seq<Wake>)
    ensures var run := NewRun(session, containerId, runId, input); var items := Items(run, dispatch, wakes);
      Grammar(run, items) && PromptTells(run, dispatch, wakes, items)
    ensures var run := NewRun(session, containerId, runId, input);
      && run.id == runId && run.sessionId == session.id && run.input == input
      && run.containerId == containerId && run.agentInstanceId == session.agentInstanceId
  {
    var run := NewRun(session, containerId, runId, input);
    match dispatch {
      case Refused(error, sent) =>
        RefusalGrammar(run, error);
        StreamGrammar(run, []);
      case Accepted =>
        ConsumedFinalOnlyLast(wakes);
        StreamGrammar(run, Consumed(wakes));
        StreamTells(run, Consumed(wakes));
    }
  }

  /** What the loop does next, after `n` updates none of which was final. */
  lemma {:induction false} ConsumedAt(wakes: seq<Wake>, n: nat)
    requires n < |wakes| && n <= |Consumed(wakes)|
    requires forall i :: 0 <= i < n ==> !IsFinal(Consumed(wakes)[i])
    ensures n < |Consumed(wakes)| <==> wakes[n].Arrived? && wakes[n].sent
    ensures n < |Consumed(wakes)| ==> Consumed(wakes)[n] == wakes[n].update
    ensures n < |Consumed(wakes)| && IsFinal(wakes[n].update) ==> |Consumed(wakes)| == n + 1
  {
    if n > 0 {
      assert !IsFinal(Consumed(wakes)[0]);
      var rest := Consumed(wakes[1..]);
      assert Consumed(wakes) == [wakes[0].update] + rest;
      assert forall i :: 0 <= i < n - 1 ==> rest[i] == Consumed(wakes)[i + 1];
      ConsumedAt(wakes[1..], n - 1);
    }
  }

  lemma EndsSnoc(items: seq<Item>, x: Item)
    ensures EndsFinal(items + [x]) <==> x.final
  {
  }

  lemma StreamSnoc(run: Run, updates: seq<StreamEvent>, u: StreamEvent)
    ensures Stream(run, updates + [u]) == Stream(run, updates) + [ItemFor(run, |updates| + 1, u)]
  {
  }

  predicate EndsFinal(items: seq<Item>) {
    items != [] && items[|items| - 1].final
  }

  /** One round of the loop: the item for the update that just arrived, and the run record after it. */
  method NumberUpdate(ghost run0: Run, run: Run, n: nat, update: StreamEvent) returns (item: Item, next: Run)
    requires run == run0.(sequence := run.sequence, state := run.state)
    ensures item == ItemFor(run0, n, update) && next == item.run && Tells(run0, item, update)
    ensures !item.final ==> next == run0.(sequence := next.sequence, state := next.state)
  {
    var event := Event(run.sessionId, run.id, update.kind, n, update.text, update.error, update.metadata);
    next := run.(sequence := n, state := RunStreaming);
    var final := update.final || update.kind == "completed" || update.kind == "cancelled" || update.kind == "failed";
    if final {
      var state := match update.kind
        case "cancelled" => RunCancelled
        case "failed" => RunFailed
        case _ => RunCompleted;
      next := next.(state := state, error := update.error, completed := true);
    }
    item := Item(event, next, final, update.error);
  }

  /** The loop of `Prompt`: one run record and one counter, both updated per event. */
  method StreamUpdates(run0: Run, wakes: seq<Wake>) returns (items: seq<Item>, outcome: Outcome)
    requires run0.state == RunDispatching && !run0.completed
    ensures items == Stream(run0, Consumed(wakes)) && TellsAll(run0, items, Consumed(wakes))
    ensures outcome == Finished <==> EndsFinal(items)
    ensures outcome == StillWaiting <==> |items| == |wakes| && !EndsFinal(items)
  {
    var run, n := run0, 0;
    items, outcome := [], StillWaiting;
    ghost var all := Consumed(wakes);
    ConsumedFinalOnlyLast(wakes);
    while n < |wakes| && outcome == StillWaiting
      invariant 0 <= n <= |wakes| && n <= |all|
      invariant items == Stream(run0, all[..n])
      invariant outcome != Finished ==> !EndsFinal(items) && forall i :: 0 <= i < n ==> !IsFinal(all[i])
      invariant outcome == StillWaiting ==> run == run0.(sequence := run.sequence, state := run.state)
      invariant outcome == Interrupted ==> n == |all| < |wakes|
      invariant outcome == Finished ==> n == |all| && EndsFinal(items)
      decreases |wakes| - n, outcome == StillWaiting
    {
      ConsumedAt(wakes, n);
      if wakes[n].StreamDone? || !wakes[n].sent {
        outcome := Interrupted;
      } else {
        var update := wakes[n].update;
        TakeOneMore(all, n);
        StreamSnoc(run0, all[..n], update);
        n := n + 1;
        var item;
        item, run := NumberUpdate(run0, run, n, update);
        EndsSnoc(items, item);
        items := items + [item];
        if item.final {
          outcome := Finished;
        }
      }
    }
    assert all[..n] == all;
    StreamTells(run0, all);
  }

  /** The whole call. Every item carries the run of this prompt. */
  method Prompt(session: Session, containerId: string, requestedId: string, freshId: string, input: string,
                dispatch: Dispatch, wakes: seq<Wake>)
    returns (items: seq<Item>, outcome: Outcome)
    requires freshId != ""
    ensures var run := NewRun(session, containerId, if requestedId == "" then freshId else requestedId, input);
      && items == Items(run, dispatch, wakes) && Grammar(run, items)
      && PromptTells(run, dispatch, wakes, items)
    ensures forall i :: 0 <= i < |items| ==>
      var run := items[i].run;
      && run.id == (if requestedId == "" then freshId else requestedId) && run.sessionId == session.id
      && run.containerId == containerId && run.agentInstanceId == session.agentInstanceId && run.input == input
    ensures outcome == Finished <==> EndsFinal(items)
  {
    var runId := requestedId;
    if runId == "" { runId := freshId; }
    PromptGrammar(session, containerId, runId, input, dispatch, wakes);
    var run := NewRun(session, containerId, runId, input);
    match dispatch {
      case Refused(error, sent) =>
        run := run.(state := RunFailed, error := error, completed := true);
        if sent {
          items, outcome := [Item(ZERO_EVENT, run, true, error)], Finished;
        } else {
          items, outcome := [], Interrupted;
        }
      case Accepted =>
        items, outcome := StreamUpdates(run, wakes);
    }
  }
}
