/** The JSON-RPC client that talks to an agent subprocess over stdio (acp/stdio.go):
    callers that register a one-slot reply channel, a single reader that correlates replies,
    and the drain that answers every registered caller once decoding has failed.

    The client runs as interleaved atomic steps. Where the code drops its lock between two
    effects (the reader deletes a table entry, then sends, then closes) there are separate
    steps with other steps free to run in between. A send on a closed channel and a second
    close, which panic in Go, set `crashed`; a send on a full channel is not enabled. */
module AcpClient {
  import opened Control

  datatype RpcError = RpcError(code: int, message: string)

  /** `update` is the decoded payload of a `session/update`, absent when it does not decode. */
  datatype Envelope = Envelope(
    id: string, rpcMethod: string, update: Option<StreamEvent>, result: string, error: Option<RpcError>)

  datatype Outcome = EncodeFailed | ContextDone | EndOfChannel | Replied(envelope: Envelope)

  datatype Progress = Waiting | Returned(outcome: Outcome)

  /** A call and the one-slot channel it made. `sent` is history: all sends on the channel. */
  datatype Call = Call(id: string, buffer: seq<Envelope>, closed: bool, sent: seq<Envelope>, progress: Progress)

  /** Where the reader goroutine is. `Draining` and `DrainClosing` hold the lock. */
  datatype Reader =
    | Idle
    | Sending(call: nat, envelope: Envelope)
    | Closing(call: nat)
    | Draining(message: string)
    | DrainClosing(id: string, message: string)
    | Stopped

  datatype State = State(
    calls: seq<Call>, pending: map<string, nat>, reader: Reader, handlerSet: bool, notified: seq<StreamEvent>,
    crashed: bool)

  datatype Step =
    | SetHandler
    | BeginCall(id: string, encoded: bool)
    | GiveUp(call: nat)
    | Receive(call: nat)
    | Decode(envelope: Envelope)
    | SendReply
    | CloseReply
    | DecodeError(message: string, eof: bool)
    | DrainSend(id: string)
    | DrainClose
    | DrainDone

  const INIT := State([], map[], Idle, false, [], false)

  predicate LockFree(s: State) {
    !s.reader.Draining? && !s.reader.DrainClosing?
  }

  /** `NewID` never repeats itself and never returns the empty string. */
  predicate Fresh(s: State, id: string) {
    id != "" && forall k :: 0 <= k < |s.calls| ==> s.calls[k].id != id
  }

  function DrainReply(id: string, message: string): Envelope {
    Envelope(id, "", None, "", Some(RpcError(-32000, message)))
  }

  function DrainMessage(message: string, eof: bool): string {
    if eof then "acp subprocess exited" else message
  }

  predicate Enabled(s: State, step: Step) {
    !s.crashed &&
    match step
    case SetHandler => LockFree(s)
    case BeginCall(id, _) => LockFree(s) && Fresh(s, id)
    case GiveUp(k) => k < |s.calls| && s.calls[k].progress.Waiting?
    case Receive(k) =>
      k < |s.calls| && s.calls[k].progress.Waiting? && (s.calls[k].buffer != [] || s.calls[k].closed)
    case Decode(_) => s.reader.Idle?
    case SendReply => s.reader.Sending? && s.reader.call < |s.calls| && HasRoom(s.calls[s.reader.call])
    case CloseReply => s.reader.Closing? && s.reader.call < |s.calls|
    case DecodeError(_, _) => s.reader.Idle?
    case DrainSend(id) =>
      s.reader.Draining? && id in s.pending && s.pending[id] < |s.calls| && HasRoom(s.calls[s.pending[id]])
    case DrainClose => s.reader.DrainClosing? && s.reader.id in s.pending && s.pending[s.reader.id] < |s.calls|
    case DrainDone => s.reader.Draining? && s.pending == map[]
  }

  /** A send completes at once on a closed channel (by panicking) or with a free slot. */
  predicate HasRoom(c: Call) {
    c.closed || c.buffer == []
  }

  function SendOn(s: State, k: nat, env: Envelope): State
    requires k < |s.calls|
  {
    var c := s.calls[k];
    if c.closed then s.(crashed := true)
    else s.(calls := s.calls[k := c.(buffer := c.buffer + [env], sent := c.sent + [env])])
  }

  function CloseOn(s: State, k: nat): State
    requires k < |s.calls|
  {
    if s.calls[k].closed then s.(crashed := true)
    else s.(calls := s.calls[k := s.calls[k].(closed := true)])
  }

  /** One envelope off the wire: a reply is taken out of the table and held in hand;
      a decodable update goes to the handler, if there is one. */
  function Take(s: State, env: Envelope): State {
    if env.id != "" then
      if env.id in s.pending
      then s.(pending := s.pending - {env.id}, reader := Sending(s.pending[env.id], env))
      else s
    else if IsUpdate(env) && s.handlerSet
    then s.(notified := s.notified + [env.update.value])
    else s
  }

  /** A notification with a payload that decodes. */
  predicate IsUpdate(env: Envelope) {
    env.id == "" && env.rpcMethod == "session/update" && env.update.Some?
  }

  function Await(c: Call): Call
    requires c.buffer != [] || c.closed
  {
    if c.buffer != [] then c.(buffer := c.buffer[1..], progress := Returned(Replied(c.buffer[0])))
    else c.(progress := Returned(EndOfChannel))
  }

  function Apply(s: State, step: Step): State
    requires Enabled(s, step)
  {
    match step
    case SetHandler => s.(handlerSet := true)
    case BeginCall(id, encoded) =>
      var c := Call(id, [], false, [], if encoded then Waiting else Returned(EncodeFailed));
      s.(calls := s.calls + [c], pending := s.pending[id := |s.calls|])
    case GiveUp(k) => s.(calls := s.calls[k := s.calls[k].(progress := Returned(ContextDone))])
    case Receive(k) => s.(calls := s.calls[k := Await(s.calls[k])])
    case Decode(env) => Take(s, env)
    case SendReply => SendOn(s, s.reader.call, s.reader.envelope).(reader := Closing(s.reader.call))
    case CloseReply => CloseOn(s, s.reader.call).(reader := Idle)
    case DecodeError(message, eof) => s.(reader := Draining(DrainMessage(message, eof)))
    case DrainSend(id) =>
      SendOn(s, s.pending[id], DrainReply(id, s.reader.message)).(reader := DrainClosing(id, s.reader.message))
    case DrainClose =>
      CloseOn(s, s.pending[s.reader.id]).(pending := s.pending - {s.reader.id}, reader := Draining(s.reader.message))
    case DrainDone => s.(reader := Stopped)
  }

  /** A step that is not enabled does not happen. */
  function Next(s: State, step: Step): State {
    if Enabled(s, step) then Apply(s, step) else s
  }

  function Exec(s: State, steps: seq<Step>): State {
    if steps == [] then s else Next(Exec(s, steps[..|steps| - 1]), steps[|steps| - 1])
  }

  /** The client after any interleaving of steps. */
  function After(steps: seq<Step>): State {
    Exec(INIT, steps)
  }

  // ----- The invariant -----

  predicate Registered(s: State, k: nat)
    requires k < |s.calls|
  {
    s.calls[k].id in s.pending && s.pending[s.calls[k].id] == k
  }

  predicate InHand(s: State, k: nat) {
    (s.reader.Sending? || s.reader.Closing?) && s.reader.call == k
  }

  /** A call is registered, in the reader's hand, or answered, and its channel says which. */
  ghost predicate CallInv(s: State, k: nat)
    requires k < |s.calls|
  {
    var c := s.calls[k];
    && c.id != ""
    && (Registered(s, k) ==>
          && !InHand(s, k)
          && !c.closed
          && |c.sent| == (if s.reader.DrainClosing? && s.reader.id == c.id then 1 else 0))
    && (InHand(s, k) ==> !c.closed && |c.sent| == (if s.reader.Closing? then 1 else 0))
    && (!Registered(s, k) && !InHand(s, k) ==> c.closed && |c.sent| == 1)
    && (c.sent != [] ==> c.sent[0].id == c.id)
    && (match c.progress
        case Returned(Replied(env)) => c.buffer == [] && c.sent == [env]
        case Returned(EndOfChannel) => false
        case _ => c.buffer == c.sent)
  }

  ghost predicate Inv(s: State) {
    && !s.crashed
    && (forall j, k :: 0 <= j < k < |s.calls| ==> s.calls[j].id != s.calls[k].id)
    && (forall id :: id in s.pending ==> s.pending[id] < |s.calls| && s.calls[s.pending[id]].id == id)
    && (s.reader.Sending? || s.reader.Closing? ==> s.reader.call < |s.calls|)
    && (s.reader.Sending? ==> s.calls[s.reader.call].id == s.reader.envelope.id)
    && (s.reader.DrainClosing? ==> s.reader.id in s.pending)
    && (forall k :: 0 <= k < |s.calls| ==> CallInv(s, k))
  }

  lemma CallerMoves(s: State, k: nat, c: Call)
    requires Inv(s) && k < |s.calls| && c == s.calls[k].(buffer := c.buffer, progress := c.progress)
    requires match c.progress {
      case Returned(Replied(env)) => c.buffer == [] && c.sent == [env]
      case Returned(EndOfChannel) => false
      case _ => c.buffer == c.sent
    }
    ensures Inv(s.(calls := s.calls[k := c]))
  {
    var t := s.(calls := s.calls[k := c]);
    forall j | 0 <= j < |t.calls| ensures CallInv(t, j) {
      assert CallInv(s, j);
    }
  }

  /** Only the caller's side of a call moves. */
  lemma InvCaller(s: State, step: Step)
    requires Inv(s) && Enabled(s, step)
    requires step.GiveUp? || step.Receive?
    ensures Inv(Apply(s, step))
  {
    assert CallInv(s, step.call);
    CallerMoves(s, step.call, Apply(s, step).calls[step.call]);
  }

  lemma InvBegin(s: State, step: Step)
    requires Inv(s) && Enabled(s, step) && step.BeginCall?
    ensures Inv(Apply(s, step))
  {
    var t := Apply(s, step);
    forall k | 0 <= k < |t.calls| ensures CallInv(t, k) {
      if k < |s.calls| {
        assert CallInv(s, k);
        assert Registered(t, k) == Registered(s, k);
      }
    }
  }

  lemma InvTake(s: State, env: Envelope)
    requires Inv(s) && s.reader.Idle?
    ensures Inv(Take(s, env))
  {
    var t := Take(s, env);
    forall k | 0 <= k < |t.calls| ensures CallInv(t, k) {
      assert CallInv(s, k);
      if env.id in s.pending { assert s.calls[s.pending[env.id]].id == env.id; }
    }
  }

  lemma InvReply(s: State, step: Step)
    requires Inv(s) && Enabled(s, step)
    requires step.SendReply? || step.CloseReply?
    ensures Inv(Apply(s, step))
  {
    var t := Apply(s, step);
    assert CallInv(s, s.reader.call);
    forall k | 0 <= k < |t.calls| ensures CallInv(t, k) {
      assert CallInv(s, k);
    }
  }

  lemma InvDrainSend(s: State, id: string)
    requires Inv(s) && Enabled(s, DrainSend(id))
    ensures Inv(Apply(s, DrainSend(id)))
  {
    var t := Apply(s, DrainSend(id));
    assert CallInv(s, s.pending[id]);
    forall k | 0 <= k < |t.calls| ensures CallInv(t, k) {
      assert CallInv(s, k);
    }
  }

  lemma InvDrainClose(s: State)
    requires Inv(s) && Enabled(s, DrainClose)
    ensures Inv(Apply(s, DrainClose))
  {
    var t := Apply(s, DrainClose);
    assert CallInv(s, s.pending[s.reader.id]);
    forall k | 0 <= k < |t.calls| ensures CallInv(t, k) {
      assert CallInv(s, k);
    }
  }

  lemma InvReaderOnly(s: State, t: State)
    requires Inv(s)
    requires t == s.(reader := t.reader, handlerSet := t.handlerSet)
    requires s.reader == t.reader || (s.reader.Idle? && t.reader.Draining?) || (s.reader.Draining? && t.reader.Stopped?)
    ensures Inv(t)
  {
    forall k | 0 <= k < |t.calls| ensures CallInv(t, k) {
      assert CallInv(s, k);
    }
  }

  lemma InvStep(s: State, step: Step)
    requires Inv(s)
    ensures Inv(Next(s, step))
  {
    if Enabled(s, step) {
      match step
      case BeginCall(_, _) => InvBegin(s, step);
      case GiveUp(_) => InvCaller(s, step);
      case Receive(_) => InvCaller(s, step);
      case Decode(env) => InvTake(s, env);
      case SendReply => InvReply(s, step);
      case CloseReply => InvReply(s, step);
      case DrainSend(id) => InvDrainSend(s, id);
      case DrainClose => InvDrainClose(s);
      case _ => InvReaderOnly(s, Apply(s, step));
    }
  }

  lemma {:induction false} InvAfter(steps: seq<Step>)
    ensures Inv(After(steps))
  {
    if steps != [] {
      InvAfter(steps[..|steps| - 1]);
      InvStep(After(steps[..|steps| - 1]), steps[|steps| - 1]);
    }
  }

  // ----- Whole runs -----

  lemma {:induction false} ExecConcat(s: State, a: seq<Step>, b: seq<Step>)
    ensures Exec(s, a + b) == Exec(Exec(s, a), b)
  {
    if b == [] {
      assert a + b == a;
    } else {
      assert (a + b)[..|a + b| - 1] == a + b[..|b| - 1];
      ExecConcat(s, a, b[..|b| - 1]);
    }
  }

  lemma {:induction false} InvExec(s: State, steps: seq<Step>)
    requires Inv(s)
    ensures Inv(Exec(s, steps))
  {
    if steps != [] {
      InvExec(s, steps[..|steps| - 1]);
      InvStep(Exec(s, steps[..|steps| - 1]), steps[|steps| - 1]);
    }
  }

  /** No interleaving panics; every reply channel is sent to at most once; whenever the reader or the
      drain, which holds the lock, is about to send on one or close it, it can do so at once; and no
      caller finds its channel closed and empty. (To look a reply up the reader waits for the lock,
      which a call holds while it encodes its request.) */
  lemma ReplySendsNeverBlock(steps: seq<Step>)
    ensures var s := After(steps);
      && !s.crashed
      && (forall k :: 0 <= k < |s.calls| ==> |s.calls[k].sent| <= 1 && s.calls[k].progress != Returned(EndOfChannel))
      && (s.reader.Sending? ==> Enabled(s, SendReply) && !s.calls[s.reader.call].closed)
      && (s.reader.Closing? ==> Enabled(s, CloseReply) && !s.calls[s.reader.call].closed)
      && (s.reader.Draining? ==> forall id :: id in s.pending ==>
            Enabled(s, DrainSend(id)) && !s.calls[s.pending[id]].closed)
      && (s.reader.DrainClosing? ==> Enabled(s, DrainClose) && !s.calls[s.pending[s.reader.id]].closed)
  {
    InvAfter(steps);
    var s := After(steps);
    forall k | 0 <= k < |s.calls|
      ensures |s.calls[k].sent| <= 1 && s.calls[k].progress != Returned(EndOfChannel)
    {
      assert CallInv(s, k);
    }
    if s.reader.Sending? || s.reader.Closing? { assert CallInv(s, s.reader.call); }
    forall id | s.reader.Draining? && id in s.pending
      ensures Enabled(s, DrainSend(id)) && !s.calls[s.pending[id]].closed
    {
      assert CallInv(s, s.pending[id]);
    }
    if s.reader.DrainClosing? { assert CallInv(s, s.pending[s.reader.id]); }
  }

  /** An envelope that reached a reply channel was read off the wire or made by the drain. */
  predicate Sourced(steps: seq<Step>, env: Envelope) {
    Decode(env) in steps || (exists i :: 0 <= i < |steps| && FailedWith(steps[i], env))
  }

  /** An envelope that is nothing but an error for the call with this id. */
  predicate IsFailure(env: Envelope, id: string, message: string) {
    && env.id == id && env.rpcMethod == "" && env.update.None? && env.result == ""
    && env.error.Some? && env.error.value.code == -32000 && env.error.value.message == message
  }

  predicate FailedWith(step: Step, env: Envelope) {
    step.DecodeError? && IsFailure(env, env.id, if step.eof then "acp subprocess exited" else step.message)
  }

  ghost predicate SourceInv(steps: seq<Step>, s: State) {
    && (forall k :: 0 <= k < |s.calls| ==> forall env :: env in s.calls[k].sent ==> Sourced(steps, env))
    && (s.reader.Sending? ==> Sourced(steps, s.reader.envelope))
    && (s.reader.Draining? || s.reader.DrainClosing? ==>
          forall id :: Sourced(steps, DrainReply(id, s.reader.message)))
  }

  lemma SourceStep(before: seq<Step>, s: State, step: Step)
    requires SourceInv(before, s)
    ensures SourceInv(before + [step], Next(s, step))
  {
    var steps := before + [step];
    forall env | Sourced(before, env) ensures Sourced(steps, env) {
      if Decode(env) !in before {
        var i :| 0 <= i < |before| && FailedWith(before[i], env);
        assert FailedWith(steps[i], env);
      }
    }
    assert step == steps[|before|];
    if step.DecodeError? {
      forall id ensures Sourced(steps, DrainReply(id, DrainMessage(step.message, step.eof))) {
        assert FailedWith(steps[|before|], DrainReply(id, DrainMessage(step.message, step.eof)));
      }
    }
  }

  lemma {:induction false} SourceAfter(steps: seq<Step>)
    ensures SourceInv(steps, After(steps))
  {
    if steps != [] {
      var init, last := steps[..|steps| - 1], steps[|steps| - 1];
      SourceAfter(init);
      SourceStep(init, After(init), last);
      assert steps == init + [last];
    }
  }

  /** A call that returns from its channel got the one envelope ever sent on it; that envelope
      carries the call's own id and was read off the wire or made by the drain. */
  lemma RepliesCorrelate(steps: seq<Step>, k: nat)
    requires k < |After(steps).calls|
    requires After(steps).calls[k].progress.Returned? && After(steps).calls[k].progress.outcome.Replied?
    ensures var c := After(steps).calls[k]; var env := c.progress.outcome.envelope;
      c.sent == [env] && env.id == c.id && Sourced(steps, env)
  {
    InvAfter(steps);
    assert CallInv(After(steps), k);
    SourceAfter(steps);
    assert After(steps).calls[k].sent[0] in After(steps).calls[k].sent;
  }

  // ----- Notifications -----

  /** The update payloads among some envelopes, in order. */
  function Updates(envelopes: seq<Envelope>): seq<StreamEvent> {
    if envelopes == [] then []
    else
      var rest, last := Updates(envelopes[..|envelopes| - 1]), envelopes[|envelopes| - 1];
      if IsUpdate(last) then rest + [last.update.value] else rest
  }

  lemma UpdatesSnoc(envelopes: seq<Envelope>, env: Envelope)
    ensures Updates(envelopes + [env]) == Updates(envelopes) + Updates([env])
    ensures Updates([env]) == if IsUpdate(env) then [env.update.value] else []
  {
    assert (envelopes + [env])[..|envelopes|] == envelopes;
    assert [env][..0] == [];
  }

  lemma {:induction false} UpdatesConcat(a: seq<Envelope>, b: seq<Envelope>)
    ensures Updates(a + b) == Updates(a) + Updates(b)
  {
    if b == [] {
      assert a + b == a;
    } else {
      var init, last := b[..|b| - 1], b[|b| - 1];
      assert a + b == a + init + [last] && b == init + [last];
      UpdatesConcat(a, init);
      UpdatesSnoc(a + init, last);
      UpdatesSnoc(init, last);
    }
  }

  /** The envelopes the reader decoded over a run. */
  function Decoded(steps: seq<Step>): seq<Envelope> {
    if steps == [] then []
    else
      var init, last := steps[..|steps| - 1], steps[|steps| - 1];
      if last.Decode? && Enabled(After(init), last) then Decoded(init) + [last.envelope] else Decoded(init)
  }

  /** How many of them before there was a handler. */
  function Unheard(steps: seq<Step>): nat {
    if steps == [] then 0
    else
      var init := steps[..|steps| - 1];
      if After(init).handlerSet then Unheard(init) else |Decoded(steps)|
  }

  lemma {:induction false} UnheardBound(steps: seq<Step>)
    ensures Unheard(steps) <= |Decoded(steps)|
  {
    if steps != [] { UnheardBound(steps[..|steps| - 1]); }
  }

  lemma HandlerStays(s: State, step: Step)
    ensures s.handlerSet ==> Next(s, step).handlerSet
  {
  }

  lemma UnheardWhole(steps: seq<Step>)
    requires !After(steps).handlerSet
    ensures Unheard(steps) == |Decoded(steps)|
  {
    if steps != [] { HandlerStays(After(steps[..|steps| - 1]), steps[|steps| - 1]); }
  }

  /** In every interleaving with callers, replies and the drain, the handler has been given exactly the
      decodable updates among the envelopes decoded since it was set, in order and once each. */
  lemma {:induction false} NotifiedExact(steps: seq<Step>)
    ensures Unheard(steps) <= |Decoded(steps)|
    ensures After(steps).notified == Updates(Decoded(steps)[Unheard(steps)..])
  {
    UnheardBound(steps);
    if steps != [] {
      var init, last := steps[..|steps| - 1], steps[|steps| - 1];
      NotifiedExact(init);
      if After(init).handlerSet {
        NotifiedStep(init, last);
      } else {
        UnheardWhole(init);
        OnlyDecodeNotifies(After(init), last);
        assert Decoded(steps)[Unheard(steps)..] == [];
        assert Decoded(init)[Unheard(init)..] == [];
      }
    }
  }

  /** Nothing reaches the handler but the payload of a `session/update` that has no id and decodes. */
  lemma OnlyDecodeNotifies(s: State, step: Step)
    ensures Next(s, step).notified == s.notified +
      if step.Decode? && Enabled(s, step) && s.handlerSet then Updates([step.envelope]) else []
    ensures step.Decode? ==>
      var env := step.envelope;
      Updates([env]) ==
      if env.id == "" && env.rpcMethod == "session/update" && env.update.Some? then [env.update.value] else []
  {
    if step.Decode? { UpdatesSnoc([], step.envelope); }
  }

  lemma NotifiedStep(init: seq<Step>, last: Step)
    requires After(init).handlerSet && Unheard(init) <= |Decoded(init)|
    requires After(init).notified == Updates(Decoded(init)[Unheard(init)..])
    ensures Next(After(init), last).notified ==
      if last.Decode? && Enabled(After(init), last) then Updates((Decoded(init) + [last.envelope])[Unheard(init)..])
      else Updates(Decoded(init)[Unheard(init)..])
  {
    OnlyDecodeNotifies(After(init), last);
    if last.Decode? && Enabled(After(init), last) {
      var heard := Decoded(init)[Unheard(init)..];
      assert (Decoded(init) + [last.envelope])[Unheard(init)..] == heard + [last.envelope];
      UpdatesSnoc(heard, last.envelope);
    }
  }

  /** How one step can change a call. */
  ghost predicate CallEvolves(s: State, t: State, k: nat) {
    && k < |s.calls| && k < |t.calls|
    && t.calls[k].id == s.calls[k].id
    && s.calls[k].sent <= t.calls[k].sent
    && (Registered(t, k) ==> Registered(s, k))
  }

  lemma ReaderCallStep(s: State, step: Step, k: nat)
    requires Inv(s) && k < |s.calls| && Enabled(s, step)
    requires step.Decode? || step.SendReply? || step.CloseReply? || step.DrainSend? || step.DrainClose?
    ensures CallEvolves(s, Apply(s, step), k)
  {
  }

  lemma CallStep(s: State, step: Step, k: nat)
    requires Inv(s) && k < |s.calls|
    ensures CallEvolves(s, Next(s, step), k)
  {
    if Enabled(s, step) {
      match step
      case BeginCall(id, _) => assert s.calls[k].id != id;
      case SetHandler =>
      case GiveUp(_) =>
      case Receive(_) =>
      case DecodeError(_, _) =>
      case DrainDone =>
      case _ => ReaderCallStep(s, step, k);
    }
  }

  /** Calls are never forgotten, and a call once taken out of the table never comes back. */
  lemma {:induction false} CallPersists(s: State, steps: seq<Step>, k: nat)
    requires Inv(s) && k < |s.calls|
    ensures CallEvolves(s, Exec(s, steps), k)
  {
    if steps != [] {
      var init := steps[..|steps| - 1];
      CallPersists(s, init, k);
      InvExec(s, init);
      CallStep(Exec(s, init), steps[|steps| - 1], k);
    }
  }

  /** A call leaves the table exactly when the reader takes its reply or the drain is done with it:
      giving up, or failing to encode, leaves its entry behind. */
  lemma LeavesTableExact(s: State, step: Step, k: nat)
    requires Inv(s) && k < |s.calls| && Registered(s, k)
    ensures var t := Next(s, step);
      && k < |t.calls|
      && (!Registered(t, k) <==>
            && Enabled(s, step)
            && ((step.Decode? && step.envelope.id == s.calls[k].id)
                || (step.DrainClose? && s.reader.id == s.calls[k].id)))
  {
    CallStep(s, step, k);
    assert CallInv(s, k);
    if Enabled(s, step) && step.BeginCall? { assert s.calls[k].id != step.id; }
    if Enabled(s, step) && step.DrainClose? { assert CallInv(s, s.pending[s.reader.id]); }
    if Enabled(s, step) && step.DrainSend? { assert CallInv(s, s.pending[step.id]); }
  }

  /** A reply whose id is not in the table (never issued, already answered, or drained) changes
      nothing at all; and an id that has left the table stays out of it for the rest of any run. */
  lemma StrayRepliesIgnored(before: seq<Step>, after: seq<Step>, k: nat, env: Envelope)
    requires k < |After(before).calls| && !Registered(After(before), k)
    requires env.id == After(before).calls[k].id
    ensures Next(After(before + after), Decode(env)) == After(before + after)
  {
    InvAfter(before);
    ExecConcat(INIT, before, after);
    CallPersists(After(before), after, k);
    var t := After(before + after);
    InvAfter(before + after);
    assert CallInv(t, k);
    assert env.id !in t.pending;
  }

  lemma UnknownReplyIgnored(s: State, env: Envelope)
    requires env.id != "" && env.id !in s.pending
    ensures Next(s, Decode(env)) == s
  {
  }

  /** The three reader steps of one reply touch only the call whose id the envelope carries:
      it leaves the table and its channel, now closed, holds the envelope. */
  lemma ReplyTouchesOneCall(before: seq<Step>, env: Envelope)
    requires After(before).reader.Idle? && env.id in After(before).pending
    ensures After(before).pending[env.id] < |After(before).calls|
    ensures var s := After(before); var k := s.pending[env.id];
      After(before + [Decode(env)] + [SendReply] + [CloseReply])
      == s.(pending := s.pending - {env.id},
            calls := s.calls[k := s.calls[k].(buffer := [env], sent := [env], closed := true)])
  {
    InvAfter(before);
    var s := After(before);
    assert CallInv(s, s.pending[env.id]);
    var k := s.pending[env.id];
    var c := s.calls[k].(buffer := [env], sent := [env]);
    assert s.calls[k].buffer + [env] == [env] && s.calls[k].sent + [env] == [env];
    ExecSnoc(before, Decode(env));
    ExecSnoc(before + [Decode(env)], SendReply);
    var s2 := After(before + [Decode(env)] + [SendReply]);
    assert s2 == s.(pending := s.pending - {env.id}, calls := s.calls[k := c], reader := Closing(k));
    ExecSnoc(before + [Decode(env)] + [SendReply], CloseReply);
    assert s.calls[k := c][k := c.(closed := true)] == s.calls[k := c.(closed := true)];
  }

  lemma ExecSnoc(steps: seq<Step>, step: Step)
    ensures After(steps + [step]) == Next(After(steps), step)
  {
    assert (steps + [step])[..|steps|] == steps;
  }

  // ----- The terminal decode error -----

  /** What has become of call `k` of `s` at some point `t` after decoding failed with `message`. */
  ghost predicate DrainedCall(s: State, t: State, message: string, k: nat)
    requires k < |s.calls| && k < |t.calls|
  {
    && t.calls[k].id == s.calls[k].id
    && (Registered(t, k) ==> Registered(s, k) && !t.reader.Stopped?)
    && (!Registered(s, k) ==> t.calls[k].sent == s.calls[k].sent)
    && (Registered(s, k) && !Registered(t, k) ==> t.calls[k].sent == [DrainReply(s.calls[k].id, message)])
    && (Registered(t, k) ==>
          t.calls[k].sent ==
          if t.reader == DrainClosing(s.calls[k].id, message) then [DrainReply(s.calls[k].id, message)] else [])
  }

  ghost predicate Drained(s: State, t: State, message: string) {
    && |s.calls| <= |t.calls|
    && (t.reader == Draining(message) || (t.reader.DrainClosing? && t.reader.message == message) || t.reader.Stopped?)
    && (!t.reader.Stopped? ==> |t.calls| == |s.calls|)
    && (forall k :: 0 <= k < |s.calls| ==> DrainedCall(s, t, message, k))
    && (forall k :: |s.calls| <= k < |t.calls| ==> Registered(t, k))
  }

  lemma DrainedBySend(s: State, t: State, message: string, id: string, k: nat)
    requires Inv(t) && Enabled(t, DrainSend(id)) && t.reader == Draining(message)
    requires k < |s.calls| && k < |t.calls| && DrainedCall(s, t, message, k)
    ensures DrainedCall(s, Apply(t, DrainSend(id)), message, k)
  {
    assert CallInv(t, k) && CallInv(t, t.pending[id]);
    assert t.calls[t.pending[id]].sent + [DrainReply(id, message)] == [DrainReply(id, message)];
  }

  lemma DrainedByClose(s: State, t: State, message: string, k: nat)
    requires Inv(t) && Enabled(t, DrainClose) && t.reader.message == message
    requires k < |s.calls| && k < |t.calls| && DrainedCall(s, t, message, k)
    ensures DrainedCall(s, Apply(t, DrainClose), message, k)
  {
    assert CallInv(t, k) && CallInv(t, t.pending[t.reader.id]);
  }

  lemma DrainedByOther(s: State, t: State, message: string, step: Step, k: nat)
    requires Inv(t) && Enabled(t, step) && !step.DrainSend? && !step.DrainClose?
    requires t.reader.Draining? || t.reader.DrainClosing? || t.reader.Stopped?
    requires k < |s.calls| && k < |t.calls| && DrainedCall(s, t, message, k)
    ensures DrainedCall(s, Apply(t, step), message, k)
  {
    assert CallInv(t, k);
  }

  lemma DrainedCallStep(s: State, t: State, message: string, step: Step, k: nat)
    requires Inv(t) && Drained(s, t, message) && k < |s.calls|
    ensures |t.calls| <= |Next(t, step).calls|
    ensures DrainedCall(s, Next(t, step), message, k)
  {
    assert DrainedCall(s, t, message, k);
    if Enabled(t, step) {
      match step
      case DrainSend(id) => DrainedBySend(s, t, message, id, k);
      case DrainClose => DrainedByClose(s, t, message, k);
      case _ => DrainedByOther(s, t, message, step, k);
    }
  }

  lemma DrainedStep(s: State, t: State, message: string, step: Step)
    requires Inv(s) && Inv(t) && Drained(s, t, message)
    ensures Drained(s, Next(t, step), message)
  {
    var u := Next(t, step);
    forall k | 0 <= k < |s.calls| ensures k < |u.calls| && DrainedCall(s, u, message, k) {
      DrainedCallStep(s, t, message, step, k);
    }
    forall k | |s.calls| <= k < |u.calls| ensures Registered(u, k) {
      if k < |t.calls| { assert Registered(t, k) && t.reader.Stopped?; }
    }
  }

  lemma {:induction false} DrainedExec(s: State, t: State, message: string, steps: seq<Step>)
    requires Inv(s) && Inv(t) && Drained(s, t, message)
    ensures Drained(s, Exec(t, steps), message)
  {
    if steps != [] {
      var init := steps[..|steps| - 1];
      DrainedExec(s, t, message, init);
      InvExec(t, init);
      DrainedStep(s, Exec(t, init), message, steps[|steps| - 1]);
    }
  }

  lemma DrainBegins(s: State, message: string, eof: bool)
    requires Inv(s) && s.reader.Idle?
    ensures Drained(s, Next(s, DecodeError(message, eof)), DrainMessage(message, eof))
  {
    var failed := Next(s, DecodeError(message, eof));
    forall k | 0 <= k < |s.calls| ensures DrainedCall(s, failed, DrainMessage(message, eof), k) {
      assert CallInv(s, k);
    }
  }

  /** Once decoding has failed and the reader has stopped, every call that was in the table at the
      failure has been sent exactly one error reply, no call answered before it was sent another,
      and the table holds none of them; a call begun after the reader stopped is never answered. */
  lemma TerminalError(before: seq<Step>, message: string, eof: bool, after: seq<Step>)
    requires After(before).reader.Idle?
    requires After(before + [DecodeError(message, eof)] + after).reader.Stopped?
    ensures var s := After(before); var t := After(before + [DecodeError(message, eof)] + after);
      && |s.calls| <= |t.calls|
      && (forall k :: 0 <= k < |s.calls| ==>
            && !Registered(t, k)
            && (Registered(s, k) ==>
                  && |t.calls[k].sent| == 1
                  && IsFailure(t.calls[k].sent[0], s.calls[k].id, if eof then "acp subprocess exited" else message))
            && (!Registered(s, k) ==> t.calls[k].sent == s.calls[k].sent))
      && (forall k :: |s.calls| <= k < |t.calls| ==>
            t.calls[k].sent == [] && !(t.calls[k].progress.Returned? && t.calls[k].progress.outcome.Replied?))
  {
    var s := After(before);
    InvAfter(before);
    var failed := Next(s, DecodeError(message, eof));
    ExecSnoc(before, DecodeError(message, eof));
    InvStep(s, DecodeError(message, eof));
    DrainBegins(s, message, eof);
    DrainedExec(s, failed, DrainMessage(message, eof), after);
    ExecConcat(INIT, before + [DecodeError(message, eof)], after);
    var t := After(before + [DecodeError(message, eof)] + after);
    InvAfter(before + [DecodeError(message, eof)] + after);
    forall k | 0 <= k < |s.calls|
      ensures !Registered(t, k)
      ensures Registered(s, k) ==>
        && |t.calls[k].sent| == 1
        && IsFailure(t.calls[k].sent[0], s.calls[k].id, if eof then "acp subprocess exited" else message)
      ensures !Registered(s, k) ==> t.calls[k].sent == s.calls[k].sent
    {
      assert DrainedCall(s, t, DrainMessage(message, eof), k);
    }
    forall k | |s.calls| <= k < |t.calls|
      ensures t.calls[k].sent == [] && !(t.calls[k].progress.Returned? && t.calls[k].progress.outcome.Replied?)
    {
      assert CallInv(t, k);
    }
  }

  /** Reader steps the drain still has to take. Callers cannot make it grow. */
  function DrainWork(s: State): nat {
    2 * |s.pending| + (if s.reader.Draining? then 1 else 0)
  }

  /** The drain finishes: while it holds the lock one of its steps is always enabled, each such step
      shortens the work left, and whatever callers do meanwhile leaves it as it is. */
  lemma DrainTerminates(steps: seq<Step>, step: Step)
    requires var s := After(steps); s.reader.Draining? || s.reader.DrainClosing?
    ensures var s := After(steps);
      && (exists next :: Enabled(s, next) && DrainWork(Next(s, next)) < DrainWork(s))
      && (step.DrainSend? || step.DrainClose? || step.DrainDone? ==>
            Enabled(s, step) ==> DrainWork(Next(s, step)) < DrainWork(s))
      && (step.GiveUp? || step.Receive? ==> DrainWork(Next(s, step)) == DrainWork(s))
  {
    var s := After(steps);
    ReplySendsNeverBlock(steps);
    InvAfter(steps);
    if s.reader.DrainClosing? {
      DrainShortens(s, DrainClose);
      assert Enabled(s, DrainClose);
    } else if s.pending == map[] {
      DrainShortens(s, DrainDone);
      assert Enabled(s, DrainDone);
    } else {
      var id :| id in s.pending;
      DrainShortens(s, DrainSend(id));
      assert Enabled(s, DrainSend(id));
    }
    if step.DrainSend? || step.DrainClose? || step.DrainDone? { DrainShortens(s, step); }
  }

  lemma DrainShortens(s: State, step: Step)
    requires Inv(s)
    requires step.DrainSend? || step.DrainClose? || step.DrainDone?
    ensures Enabled(s, step) ==> DrainWork(Next(s, step)) < DrainWork(s)
  {
    if Enabled(s, step) && step.DrainSend? { assert CallInv(s, s.pending[step.id]); }
    if Enabled(s, step) && step.DrainClose? {
      assert CallInv(s, s.pending[s.reader.id]);
      var rest := s.pending - {s.reader.id};
      assert rest.Keys == s.pending.Keys - {s.reader.id};
      assert |rest.Keys| == |s.pending.Keys| - 1;
      assert |rest| == |rest.Keys| && |s.pending| == |s.pending.Keys|;
    }
  }

  /** The client object. Its methods are the atomic sections of the source; each is one step of
      the machine above, so everything proved of runs holds of any interleaving of method calls. */
  class StdioClient {
    var calls: seq<Call>
    var pending: map<string, nat>
    var reader: Reader
    var handlerSet: bool
    var notified: seq<StreamEvent>
    ghost var crashed: bool

    ghost function View(): State
      reads this
    {
      State(calls, pending, reader, handlerSet, notified, crashed)
    }

    ghost predicate Valid()
      reads this
    {
      Inv(View())
    }

    constructor ()
      ensures View() == INIT && Valid()
    {
      calls, pending, reader, handlerSet, notified, crashed := [], map[], Idle, false, [], false;
    }

    method SetNotificationHandler()
      requires Valid() && LockFree(View())
      modifies this
      ensures View() == Next(old(View()), SetHandler) && Valid()
    {
      InvStep(View(), SetHandler);
      handlerSet := true;
    }

    /** The locked section of `call`: register a fresh id, then encode the request. */
    method Begin(id: string, encoded: bool) returns (k: nat)
      requires Valid() && LockFree(View()) && Fresh(View(), id)
      modifies this
      ensures View() == Next(old(View()), BeginCall(id, encoded)) && Valid()
      ensures k == |old(calls)| && Registered(View(), k)
    {
      InvStep(View(), BeginCall(id, encoded));
      k := |calls|;
      pending := pending[id := k];
      calls := calls + [Call(id, [], false, [], if encoded then Waiting else Returned(EncodeFailed))];
    }

    /** The `ctx.Done()` branch of `call`: the entry stays in the table. */
    method Abandon(k: nat)
      requires Valid() && k < |calls| && calls[k].progress.Waiting?
      modifies this
      ensures View() == Next(old(View()), GiveUp(k)) && Valid()
      ensures pending == old(pending)
    {
      InvStep(View(), GiveUp(k));
      calls := calls[k := calls[k].(progress := Returned(ContextDone))];
    }

    /** The receive branch of `call`, once its channel is ready: it always yields a reply. */
    method AwaitReply(k: nat) returns (env: Envelope)
      requires Valid() && k < |calls| && calls[k].progress.Waiting? && (calls[k].buffer != [] || calls[k].closed)
      modifies this
      ensures View() == Next(old(View()), Receive(k)) && Valid()
      ensures calls[k].progress == Returned(Replied(env)) && env.id == calls[k].id
    {
      assert CallInv(View(), k);
      InvStep(View(), Receive(k));
      env := calls[k].buffer[0];
      calls := calls[k := Await(calls[k])];
    }

    /** The locked section of `readLoop`, or the handler call for an update. */
    method TakeEnvelope(env: Envelope)
      requires Valid() && reader.Idle?
      modifies this
      ensures View() == Next(old(View()), Decode(env)) && Valid()
    {
      InvStep(View(), Decode(env));
      if env.id != "" {
        if env.id in pending {
          reader := Sending(pending[env.id], env);
          pending := pending - {env.id};
        }
      } else if env.rpcMethod == "session/update" && env.update.Some? && handlerSet {
        notified := notified + [env.update.value];
      }
    }

    method SendInHand()
      requires Valid() && reader.Sending?
      modifies this
      ensures View() == Next(old(View()), SendReply) && Valid() && reader.Closing?
    {
      assert CallInv(View(), reader.call);
      InvStep(View(), SendReply);
      var k, env := reader.call, reader.envelope;
      calls := calls[k := calls[k].(buffer := calls[k].buffer + [env], sent := calls[k].sent + [env])];
      reader := Closing(k);
    }

    method CloseInHand()
      requires Valid() && reader.Closing?
      modifies this
      ensures View() == Next(old(View()), CloseReply) && Valid() && reader.Idle?
    {
      assert CallInv(View(), reader.call);
      InvStep(View(), CloseReply);
      calls := calls[reader.call := calls[reader.call].(closed := true)];
      reader := Idle;
    }

    /** One envelope through `readLoop`, with no other step in between. */
    method ReadOne(env: Envelope)
      requires Valid() && reader.Idle?
      modifies this
      ensures Valid() && reader.Idle?
      ensures View() == Next(Next(Next(old(View()), Decode(env)), SendReply), CloseReply)
    {
      TakeEnvelope(env);
      if reader.Sending? {
        SendInHand();
        CloseInHand();
      }
    }

    /** One round of the loop in `failAll`. */
    method FailOne(id: string)
      requires Valid() && reader.Draining? && id in pending
      modifies this
      ensures Valid() && reader == old(reader) && pending == old(pending) - {id}
      ensures View() == Next(Next(old(View()), DrainSend(id)), DrainClose)
      ensures SameCallers(old(View()), View())
      ensures old(pending)[id] < |calls| && calls[old(pending)[id]].closed && |calls[old(pending)[id]].sent| == 1
      ensures IsFailure(calls[old(pending)[id]].sent[0], id, reader.message)
    {
      ghost var s := View();
      var k, text := pending[id], reader.message;
      assert CallInv(s, k);
      InvStep(s, DrainSend(id));
      InvStep(Next(s, DrainSend(id)), DrainClose);
      var reply := DrainReply(id, text);
      var sent := calls[k].(buffer := calls[k].buffer + [reply], sent := calls[k].sent + [reply]);
      calls := calls[k := sent];
      calls := calls[k := sent.(closed := true)];
      pending := pending - {id};
    }

    /** `failAll`: answer every registered call with the error, in any order, and stop. */
    method FailAll(message: string, eof: bool)
      requires Valid() && reader.Idle?
      modifies this
      ensures Valid() && reader.Stopped? && pending == map[] && SameCallers(old(View()), View())
      ensures forall k :: 0 <= k < |calls| && Registered(old(View()), k) ==>
        && calls[k].closed && |calls[k].sent| == 1
        && IsFailure(calls[k].sent[0], calls[k].id, if eof then "acp subprocess exited" else message)
      ensures forall k :: 0 <= k < |calls| && !Registered(old(View()), k) ==> calls[k].sent == old(calls[k].sent)
    {
      ghost var s0 := View();
      DrainBegins(s0, message, eof);
      InvStep(s0, DecodeError(message, eof));
      reader := Draining(DrainMessage(message, eof));
      DrainAll(s0, DrainMessage(message, eof));
      DrainEnds(s0, View(), DrainMessage(message, eof));
      reader := Stopped;
    }

    /** The loop of `failAll`. */
    method DrainAll(ghost s0: State, text: string)
      requires Inv(s0) && Valid() && reader == Draining(text) && Drained(s0, View(), text)
      modifies this
      ensures Valid() && reader == Draining(text) && Drained(s0, View(), text) && pending == map[]
      ensures SameCallers(old(View()), View())
    {
      while pending != map[]
        invariant Valid() && reader == Draining(text) && Drained(s0, View(), text)
        invariant SameCallers(old(View()), View())
        decreases |pending.Keys|
      {
        var id :| id in pending;
        ghost var before := View();
        DrainedRound(s0, before, text, id);
        assert (pending - {id}).Keys == pending.Keys - {id};
        FailOne(id);
        SameCallersTrans(old(View()), before, View());
      }
    }
  }

  /** The callers are where they were: only tables, channels and the reader may differ. */
  predicate SameCallers(s: State, t: State) {
    && |s.calls| == |t.calls| && s.handlerSet == t.handlerSet && s.notified == t.notified
    && forall k :: 0 <= k < |s.calls| ==> s.calls[k].id == t.calls[k].id && s.calls[k].progress == t.calls[k].progress
  }

  lemma SameCallersTrans(s: State, t: State, u: State)
    requires SameCallers(s, t) && SameCallers(t, u)
    ensures SameCallers(s, u)
  {
  }

  lemma DrainedRound(s: State, t: State, message: string, id: string)
    requires Inv(s) && Inv(t) && Drained(s, t, message)
    ensures Drained(s, Next(Next(t, DrainSend(id)), DrainClose), message)
  {
    DrainedStep(s, t, message, DrainSend(id));
    InvStep(t, DrainSend(id));
    DrainedStep(s, Next(t, DrainSend(id)), message, DrainClose);
  }

  lemma DrainEnds(s: State, t: State, message: string)
    requires Inv(s) && Inv(t) && Drained(s, t, message) && t.reader.Draining? && t.pending == map[]
    ensures |s.calls| == |t.calls|
    ensures Inv(t.(reader := Stopped))
    ensures forall k :: 0 <= k < |t.calls| ==>
      && t.calls[k].sent == (if Registered(s, k) then [DrainReply(t.calls[k].id, message)] else s.calls[k].sent)
      && (Registered(s, k) ==> t.calls[k].closed)
  {
    InvStep(t, DrainDone);
    forall k | 0 <= k < |t.calls|
      ensures t.calls[k].sent == if Registered(s, k) then [DrainReply(t.calls[k].id, message)] else s.calls[k].sent
      ensures Registered(s, k) ==> t.calls[k].closed
    {
      assert DrainedCall(s, t, message, k) && CallInv(t, k);
    }
  }
}
