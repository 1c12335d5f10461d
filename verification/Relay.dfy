/** The two stream hops between the supervisor and the control plane: the node's `Runner.Prompt`
    re-framed by `NodeServer.Prompt` (runtime/local), and the worker's `RemoteNodeClient.Prompt`
    (runtime/client.go). A hop delivers some prefix of what was sent and then an error, be it the
    end of the stream or a cut connection. */
module Relay {
  import opened Control
  import opened PromptLoop
  import opened Sequences

  /** An item's event as a list: events without a type are not passed on. */
  function Typed(item: Item): seq<Event> {
    if item.event.kind != "" then [item.event] else []
  }

  function TypedEvents(items: seq<Item>): seq<Event> {
    if items == [] then [] else Typed(items[0]) + TypedEvents(items[1..])
  }

  /** The events either loop passes on: it stops after the first final item. */
  function Forwarded(items: seq<Item>): seq<Event> {
    if items == [] then []
    else Typed(items[0]) + if items[0].final then [] else Forwarded(items[1..])
  }

  /** What `Runner.Prompt` returns: a broken stream yields the last run record seen, if any. */
  function RunnerResult(items: seq<Item>, final: Run, error: string): Result<Run> {
    if items == [] then (if final.id != "" then Ok(final) else Err(error))
    else if items[0].final then Ok(items[0].run)
    else RunnerResult(items[1..], items[0].run, error)
  }

  /** What `RemoteNodeClient.Prompt` returns: run records without an id are skipped. */
  function WorkerResult(items: seq<Item>, final: Run, error: string): Result<Run> {
    if items == [] then (if final.id != "" then Ok(final) else Err(error))
    else
      var item := items[0];
      var seen := if item.run.id != "" then item.run else final;
      if item.error != "" && item.final && item.run.id == "" then Err(item.error)
      else if item.final then Ok(seen)
      else WorkerResult(items[1..], seen, error)
  }

  function EventFrames(events: seq<Event>): seq<Item> {
    seq(|events|, i requires 0 <= i < |events| => Item(events[i], ZERO_RUN, false, ""))
  }

  function AtMost<T>(s: seq<T>, n: nat): seq<T> {
    if n < |s| then s[..n] else s
  }

  // ----- The loops -----

  /** What reading one item does to the events passed on so far. */
  lemma ForwardedHead(published: seq<Event>, rest: seq<Item>)
    requires rest != []
    ensures published + Forwarded(rest) ==
      published + Typed(rest[0]) + if rest[0].final then [] else Forwarded(rest[1..])
  {
  }

  /** `budget` is how many sends to the next hop succeed. */
  method RunnerPrompt(items: seq<Item>, error: string, sendError: string, budget: nat)
    returns (published: seq<Event>, result: Result<Run>)
    ensures published == AtMost(Forwarded(items), budget)
    ensures result == if |Forwarded(items)| <= budget then RunnerResult(items, ZERO_RUN, error) else Err(sendError)
  {
    var final, rest := ZERO_RUN, items;
    published := [];
    ghost var all, end := Forwarded(items), RunnerResult(items, ZERO_RUN, error);
    while rest != []
      invariant published + Forwarded(rest) == all && |published| <= budget
      invariant RunnerResult(rest, final, error) == end
      decreases |rest|
    {
      var item := rest[0];
      ForwardedHead(published, rest);
      ghost var before := published;
      rest := rest[1..];
      final := item.run;
      if item.event.kind != "" {
        if |published| == budget {
          result := Err(sendError);
          return;
        }
        published := published + [item.event];
      }
      assert published == before + Typed(item);
      if item.final {
        result := Ok(item.run);
        return;
      }
    }
    if final.id != "" {
      result := Ok(final);
    } else {
      result := Err(error);
    }
  }

  /** The frames the node sends given no obstacle: one per event, then one with the run. */
  function NodeFrames(items: seq<Item>): seq<Item> {
    var events := EventFrames(Forwarded(items));
    match RunnerResult(items, ZERO_RUN, "")
    case Ok(run) => events + [Item(ZERO_EVENT, run, true, "")]
    case Err(_) => events
  }

  /** `NodeServer.Prompt` over `Runner.Prompt`; sends beyond `budget` fail and end the call. */
  method NodePrompt(items: seq<Item>, budget: nat) returns (frames: seq<Item>)
    ensures frames == AtMost(NodeFrames(items), budget)
  {
    var published, result := RunnerPrompt(items, "", "", budget);
    frames := EventFrames(published);
    match result {
      case Ok(run) =>
        if |frames| < budget {
          frames := frames + [Item(ZERO_EVENT, run, true, "")];
        }
      case Err(_) =>
    }
  }

  method WorkerPrompt(items: seq<Item>, error: string) returns (published: seq<Event>, result: Result<Run>)
    ensures published == Forwarded(items)
    ensures result == WorkerResult(items, ZERO_RUN, error)
  {
    var final, rest := ZERO_RUN, items;
    published := [];
    ghost var all, end := Forwarded(items), WorkerResult(items, ZERO_RUN, error);
    while rest != []
      invariant published + Forwarded(rest) == all
      invariant WorkerResult(rest, final, error) == end
      decreases |rest|
    {
      var item := rest[0];
      ForwardedHead(published, rest);
      ghost var before := published;
      rest := rest[1..];
      if item.event.kind != "" {
        published := published + [item.event];
      }
      assert published == before + Typed(item);
      if item.error != "" && item.final && item.run.id == "" {
        result := Err(item.error);
        return;
      }
      if item.run.id != "" {
        final := item.run;
      }
      if item.final {
        result := Ok(final);
        return;
      }
    }
    if final.id != "" {
      result := Ok(final);
    } else {
      result := Err(error);
    }
  }

  // ----- What the loops do on any stream -----

  /** Item `i` is the first final one. */
  predicate FirstFinal(items: seq<Item>, i: nat) {
    i < |items| && items[i].final && forall j :: 0 <= j < i ==> !items[j].final
  }

  predicate NoFinal(items: seq<Item>) {
    forall j :: 0 <= j < |items| ==> !items[j].final
  }

  function EventsOf(items: seq<Item>): seq<Event> {
    seq(|items|, i requires 0 <= i < |items| => items[i].event)
  }

  /** The typed events are the events with a type, in order. */
  lemma {:induction false} TypedIsFiltered(items: seq<Item>)
    ensures TypedEvents(items) == Filter((e: Event) => e.kind != "", EventsOf(items))
  {
    if items != [] {
      var keep := (e: Event) => e.kind != "";
      TypedIsFiltered(items[1..]);
      assert EventsOf(items) == [items[0].event] + EventsOf(items[1..]);
      FilterConcat(keep, [items[0].event], EventsOf(items[1..]));
      FilterSnoc(keep, [], items[0].event);
      assert [] + [items[0].event] == [items[0].event];
    }
  }

  /** What is passed on: the typed events up to the first final item, or all of them. */
  lemma {:induction false} ForwardedExact(items: seq<Item>, i: nat)
    ensures FirstFinal(items, i) ==> Forwarded(items) == TypedEvents(items[..i + 1])
    ensures NoFinal(items) ==> Forwarded(items) == TypedEvents(items)
  {
    if items != [] {
      ForwardedExact(items[1..], if i > 0 then i - 1 else 0);
      if FirstFinal(items, i) {
        assert items[..i + 1][1..] == items[1..][..i];
        if i > 0 { assert FirstFinal(items[1..], i - 1); }
      }
    }
  }

  /** What the node returns: the run of the first final item; without one the last run record seen, if it
      has an id, and otherwise the error. */
  lemma {:induction false} RunnerExact(items: seq<Item>, final: Run, error: string, i: nat)
    ensures FirstFinal(items, i) ==> RunnerResult(items, final, error) == Ok(items[i].run)
    ensures NoFinal(items) ==>
      var last := if items == [] then final else items[|items| - 1].run;
      RunnerResult(items, final, error) == if last.id != "" then Ok(last) else Err(error)
  {
    if items != [] {
      RunnerExact(items[1..], items[0].run, error, if i > 0 then i - 1 else 0);
      if FirstFinal(items, i) && i > 0 { assert FirstFinal(items[1..], i - 1); }
    }
  }

  /** The last run record with an id among the items, or what was there before. */
  function LastRun(items: seq<Item>, before: Run): Run {
    if items == [] then before
    else if items[|items| - 1].run.id != "" then items[|items| - 1].run
    else LastRun(items[..|items| - 1], before)
  }

  lemma {:induction false} LastRunHead(items: seq<Item>, before: Run)
    requires items != []
    ensures LastRun(items, before) == LastRun(items[1..], if items[0].run.id != "" then items[0].run else before)
  {
    var n := |items| - 1;
    if n > 0 && items[n].run.id == "" {
      LastRunHead(items[..n], before);
      assert items[..n][1..] == items[1..][..n - 1];
    }
  }

  /** What the worker returns: an error item with no run record is that error; otherwise the last run
      record with an id, up to the first final item; without a final item the error if there is none. */
  lemma {:induction false} WorkerExact(items: seq<Item>, final: Run, error: string, i: nat)
    ensures FirstFinal(items, i) ==>
      WorkerResult(items, final, error) ==
      if items[i].error != "" && items[i].run.id == "" then Err(items[i].error) else Ok(LastRun(items[..i + 1], final))
    ensures NoFinal(items) ==>
      WorkerResult(items, final, error) ==
      if LastRun(items, final).id != "" then Ok(LastRun(items, final)) else Err(error)
  {
    if items != [] {
      var seen := if items[0].run.id != "" then items[0].run else final;
      WorkerExact(items[1..], seen, error, if i > 0 then i - 1 else 0);
      LastRunHead(items, final);
      if FirstFinal(items, i) {
        LastRunHead(items[..i + 1], final);
        assert items[..i + 1][1..] == items[1..][..i];
        if i > 0 { assert FirstFinal(items[1..], i - 1); }
      }
    }
  }

  // ----- Streams whose only final item is the last -----

  predicate ItemsFinalOnlyLast(items: seq<Item>) {
    forall i :: 0 <= i < |items| - 1 ==> !items[i].final
  }

  lemma {:induction false} TypedConcat(a: seq<Item>, b: seq<Item>)
    ensures TypedEvents(a + b) == TypedEvents(a) + TypedEvents(b)
  {
    if a == [] {
      assert a + b == b;
    } else {
      assert (a + b)[1..] == a[1..] + b;
      TypedConcat(a[1..], b);
    }
  }

  lemma {:induction false} ForwardedAll(items: seq<Item>)
    requires ItemsFinalOnlyLast(items)
    ensures Forwarded(items) == TypedEvents(items)
  {
    if items != [] { ForwardedAll(items[1..]); }
  }

  lemma {:induction false} RunnerKeepsLast(items: seq<Item>, final: Run, error: string)
    requires ItemsFinalOnlyLast(items) && items != []
    requires items[|items| - 1].final || items[|items| - 1].run.id != ""
    ensures RunnerResult(items, final, error) == Ok(items[|items| - 1].run)
  {
    if |items| > 1 { RunnerKeepsLast(items[1..], items[0].run, error); }
  }

  lemma {:induction false} TypedAreTyped(items: seq<Item>)
    ensures forall e :: e in TypedEvents(items) ==> e.kind != ""
  {
    if items != [] { TypedAreTyped(items[1..]); }
  }

  /** Event frames alone: every event is passed on and no run record arrives. */
  lemma {:induction false} WorkerReadsEvents(events: seq<Event>, error: string)
    requires forall e :: e in events ==> e.kind != ""
    ensures Forwarded(EventFrames(events)) == events
    ensures WorkerResult(EventFrames(events), ZERO_RUN, error) == Err(error)
  {
    if events != [] {
      assert EventFrames(events)[1..] == EventFrames(events[1..]);
      WorkerReadsEvents(events[1..], error);
    }
  }

  /** Event frames and then the frame with the run record. */
  lemma {:induction false} WorkerReadsAll(events: seq<Event>, run: Run, error: string)
    requires run.id != "" && forall e :: e in events ==> e.kind != ""
    ensures var got := EventFrames(events) + [Item(ZERO_EVENT, run, true, "")];
      Forwarded(got) == events && WorkerResult(got, ZERO_RUN, error) == Ok(run)
  {
    if events != [] {
      var last := [Item(ZERO_EVENT, run, true, "")];
      assert (EventFrames(events) + last)[1..] == EventFrames(events[1..]) + last;
      WorkerReadsAll(events[1..], run, error);
    }
  }

  // ----- The two hops together -----

  /** What arrives at the worker when the first hop delivers `cut1` items and the second `cut2` frames. */
  function Received(items: seq<Item>, cut1: nat, cut2: nat): seq<Item> {
    AtMost(NodeFrames(AtMost(items, cut1)), cut2)
  }

  function Published(items: seq<Item>, cut1: nat, cut2: nat): seq<Event> {
    Forwarded(Received(items, cut1, cut2))
  }

  function Returned(items: seq<Item>, cut1: nat, cut2: nat, error: string): Result<Run> {
    WorkerResult(Received(items, cut1, cut2), ZERO_RUN, error)
  }

  /** The second hop lost nothing. */
  predicate SecondHopWhole(items: seq<Item>, cut1: nat, cut2: nat) {
    |NodeFrames(AtMost(items, cut1))| <= cut2
  }

  lemma NodeFramesShape(run: Run, items: seq<Item>)
    requires run.id != ""
    requires Relayable(run, items)
    ensures NodeFrames(items) ==
      EventFrames(TypedEvents(items)) + if items == [] then [] else [Item(ZERO_EVENT, items[|items| - 1].run, true, "")]
  {
    ForwardedAll(items);
    if items != [] { RunnerKeepsLast(items, ZERO_RUN, ""); }
  }

  /** For every supervisor stream and every pair of cuts. The relay returns a run without error
      exactly when the first hop delivered something and the second delivered everything; it is
      then the last run record the first hop delivered. What was published is a prefix of the
      typed events, and all of the delivered ones when nothing was lost on the second hop. */
  lemma RelayExact(run: Run, items: seq<Item>, cut1: nat, cut2: nat, error: string)
    requires run.id != "" && Grammar(run, items) && cut1 <= |items|
    ensures Returned(items, cut1, cut2, error) ==
      if cut1 > 0 && SecondHopWhole(items, cut1, cut2) then Ok(items[cut1 - 1].run) else Err(error)
    ensures Published(items, cut1, cut2) <= TypedEvents(items)
    ensures SecondHopWhole(items, cut1, cut2) ==> Published(items, cut1, cut2) == TypedEvents(items[..cut1])
  {
    RelayCut(run, items, cut1, cut2, error);
  }

  lemma RelayCut(run: Run, items: seq<Item>, cut1: nat, cut2: nat, error: string)
    requires run.id != "" && Relayable(run, items) && cut1 <= |items|
    ensures Returned(items, cut1, cut2, error) ==
      if cut1 > 0 && SecondHopWhole(items, cut1, cut2) then Ok(items[cut1 - 1].run) else Err(error)
    ensures Published(items, cut1, cut2) <= TypedEvents(items)
    ensures SecondHopWhole(items, cut1, cut2) ==> Published(items, cut1, cut2) == TypedEvents(items[..cut1])
  {
    var got := items[..cut1];
    assert AtMost(items, cut1) == got;
    RelayReads(run, got, cut2, error);
    TypedPrefix(items, cut1);
    AtMostWhole(run, got, cut2);
  }

  /** What the relay needs of a stream: one run id throughout, and nothing after a final item. */
  predicate Relayable(run: Run, items: seq<Item>) {
    ItemsFinalOnlyLast(items) && forall i :: 0 <= i < |items| ==> items[i].run.id == run.id
  }

  lemma AtMostWhole(run: Run, got: seq<Item>, cut2: nat)
    requires run.id != "" && Relayable(run, got)
    ensures AtMost(TypedEvents(got), cut2) <= TypedEvents(got)
    ensures |NodeFrames(got)| <= cut2 ==> AtMost(TypedEvents(got), cut2) == TypedEvents(got)
  {
    NodeFramesShape(run, got);
  }

  lemma TypedPrefix(items: seq<Item>, n: nat)
    requires n <= |items|
    ensures TypedEvents(items[..n]) <= TypedEvents(items)
  {
    TypedConcat(items[..n], items[n..]);
    assert items[..n] + items[n..] == items;
  }

  lemma RelayReads(run: Run, got: seq<Item>, cut2: nat, error: string)
    requires run.id != ""
    requires Relayable(run, got)
    ensures WorkerResult(AtMost(NodeFrames(got), cut2), ZERO_RUN, error) ==
      if got != [] && |NodeFrames(got)| <= cut2 then Ok(got[|got| - 1].run) else Err(error)
    ensures Forwarded(AtMost(NodeFrames(got), cut2)) == AtMost(TypedEvents(got), cut2)
  {
    NodeFramesShape(run, got);
    var typed := TypedEvents(got);
    TypedAreTyped(got);
    if got != [] && |NodeFrames(got)| <= cut2 {
      WorkerReadsAll(typed, got[|got| - 1].run, error);
    } else {
      assert AtMost(NodeFrames(got), cut2) == EventFrames(AtMost(typed, cut2));
      WorkerReadsEvents(AtMost(typed, cut2), error);
    }
  }

  /** A whole stream passes through unchanged: its typed events in order and its final run. */
  lemma WholeStreamIsIdentity(run: Run, items: seq<Item>, cut2: nat, error: string)
    requires run.id != "" && Grammar(run, items) && EndsFinal(items)
    requires SecondHopWhole(items, |items|, cut2)
    ensures Published(items, |items|, cut2) == TypedEvents(items)
    ensures Returned(items, |items|, cut2, error) == Ok(items[|items| - 1].run)
    ensures Terminal(items[|items| - 1].run.state)
  {
    RelayExact(run, items, |items|, cut2, error);
    assert items[..|items|] == items;
  }

  /** A broken first hop goes unnoticed: the run comes back without error and not terminal
      if and only if the cut fell after some item and before the final one, and the second hop held. */
  lemma SilentTruncationExact(run: Run, items: seq<Item>, cut1: nat, cut2: nat, error: string)
    requires run.id != "" && Grammar(run, items) && cut1 <= |items|
    ensures var r := Returned(items, cut1, cut2, error);
      && (r.Ok? && !Terminal(r.value.state) <==>
            0 < cut1 && !items[cut1 - 1].final && SecondHopWhole(items, cut1, cut2))
      && (r.Ok? && !Terminal(r.value.state) ==> r.value.state == RunStreaming)
  {
    RelayExact(run, items, cut1, cut2, error);
  }

  /** For instance: a chunk and a final update, and the first hop cut after the chunk. The prompt comes
      back without error and its run Streaming for good. */
  lemma TruncatedAfterChunk(error: string)
    ensures var run := Run("r", "s", "c", "a", RunDispatching, "hi", "", false, 0);
            var items := Stream(run, [StreamEvent("s", "r", "chunk", "hi", "", false, ""),
                                      StreamEvent("s", "r", "completed", "hi", "", true, "")]);
      && |items| == 2 && items[1].final && items[1].run.state == RunCompleted
      && Returned(items, 1, 2, error) == Ok(run.(state := RunStreaming, sequence := 1))
  {
    var run := Run("r", "s", "c", "a", RunDispatching, "hi", "", false, 0);
    var updates := [StreamEvent("s", "r", "chunk", "hi", "", false, ""),
      StreamEvent("s", "r", "completed", "hi", "", true, "")];
    var items := Stream(run, updates);
    StreamGrammar(run, updates);
    RelayExact(run, items, 1, 2, error);
    var got := items[..1];
    assert AtMost(items, 1) == got && got == [items[0]];
    assert TypedEvents(got) == Typed(items[0]) + TypedEvents(got[1..]);
    NodeFramesShape(run, got);
    assert |NodeFrames(got)| == 2;
  }
}
