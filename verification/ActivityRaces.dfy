/** Activities that overlap (workflows/activities.go). `Prompt` and `Cancel` read the session record once
    and later write back the copy they read, each store call under a lock of its own, so any number of
    them can run into each other. Every store call is one step. */
module ActivityRaces {
  import opened Control
  import opened Activities
  import opened Sequences

  /** Why a session record was written: a prompt started or finished, or a cancel came. A finish records what
      was asked, the copy of the session its prompt had read, and what the node replied. */
  datatype Kind =
    | Started(runId: string)
    | Finished(runId: string, input: string, copy: Session, reply: Result<Run>)
    | Cancelled

  /** One write of a session record; `readAt` says after how many writes its author had read. */
  datatype Entry = Entry(sessionId: string, kind: Kind, readAt: nat)

  /** A running activity and the copy of the session it read. The stages of a prompt are its store calls:
      session and run at dispatch, run and session at the end, audit. */
  datatype Call =
    | PromptCall(req: PromptRequest, reply: Result<Run>, copy: Session, readAt: nat, stage: nat)
    | CancelCall(copy: Session, readAt: nat)

  /** `log` is history: all session writes, in order. */
  datatype State = State(store: Store, calls: map<nat, Call>, log: seq<Entry>)

  datatype Step =
    | BeginPrompt(call: nat, req: PromptRequest, world: World)
    | BeginCancel(call: nat, sessionId: string)
    | Advance(call: nat)

  function Init(st: Store): State {
    State(st, map[], [])
  }

  predicate Enabled(s: State, nodes: set<string>, step: Step) {
    match step
    case BeginPrompt(call, req, _) => call !in s.calls && Promptable(s.store, nodes, req.sessionId)
    case BeginCancel(call, sessionId) => call !in s.calls && Promptable(s.store, nodes, sessionId)
    case Advance(call) => call in s.calls
  }

  function Write(s: State, record: Session, kind: Kind, readAt: nat): State {
    s.(store := PutSession(s.store, record), log := s.log + [Entry(record.id, kind, readAt)])
  }

  function FinishOf(c: Call): Kind
    requires c.PromptCall?
  {
    Finished(c.req.runId, c.req.input, c.copy, c.reply)
  }

  /** The next store call of a prompt; after the last it is done. */
  function AdvancePrompt(s: State, call: nat, c: Call): State
    requires c.PromptCall?
  {
    var t := s.(calls := s.calls[call := c.(stage := c.stage + 1)]);
    if c.stage == 0 then Write(t, StreamingSession(c.copy, c.req.runId), Started(c.req.runId), c.readAt)
    else if c.stage == 1 then t.(store := PutRun(s.store, ActivityRun(c.copy, c.req)))
    else if c.stage == 2 then t.(store := PutRun(s.store, FinalRun(c.copy, c.req, c.reply)))
    else if c.stage == 3 then Write(t, FinalSession(c.copy, c.req, c.reply), FinishOf(c), c.readAt)
    else State(PutAudit(s.store, c.reply), s.calls - {call}, s.log)
  }

  function Apply(s: State, nodes: set<string>, step: Step): State
    requires Enabled(s, nodes, step)
  {
    match step
    case BeginPrompt(call, req, w) =>
      s.(calls := s.calls[call := PromptCall(req, NodeReply(req, w), s.store.sessions[req.sessionId], |s.log|, 0)])
    case BeginCancel(call, sessionId) =>
      s.(calls := s.calls[call := CancelCall(s.store.sessions[sessionId], |s.log|)])
    case Advance(call) =>
      var c := s.calls[call];
      if c.PromptCall? then AdvancePrompt(s, call, c)
      else Write(s.(calls := s.calls - {call}), c.copy.(state := SessionCancelling), Cancelled, c.readAt)
  }

  function Next(s: State, nodes: set<string>, step: Step): State {
    if Enabled(s, nodes, step) then Apply(s, nodes, step) else s
  }

  function After(st: Store, nodes: set<string>, steps: seq<Step>): State {
    if steps == [] then Init(st) else Next(After(st, nodes, steps[..|steps| - 1]), nodes, steps[|steps| - 1])
  }

  // ----- What a record holds, from the log alone -----

  function StateOf(kind: Kind): SessionState {
    match kind
    case Started(_) => SessionStreaming
    case Finished(_, _, _, Ok(run)) => if run.state == RunFailed then SessionFailed else SessionWaitingInput
    case Finished(_, _, _, Err(_)) => SessionFailed
    case Cancelled => SessionCancelling
  }

  /** The state after the first `n` writes: that of the last write to the session. */
  function StateAt(first: Session, log: seq<Entry>, n: nat): SessionState
    requires n <= |log|
  {
    if n == 0 then first.state
    else if log[n - 1].sessionId == first.id then StateOf(log[n - 1].kind)
    else StateAt(first, log, n - 1)
  }

  /** The active run id after the first `n` writes: a started or errored prompt leaves its own, a prompt
      that comes back clears it, and a cancel puts back the one that was there when it read. */
  function ActiveAt(first: Session, log: seq<Entry>, n: nat): string
    requires n <= |log|
  {
    if n == 0 then first.activeRunId
    else if log[n - 1].sessionId != first.id then ActiveAt(first, log, n - 1)
    else
      match log[n - 1].kind
      case Started(runId) => runId
      case Finished(runId, _, _, reply) => if reply.Ok? then "" else runId
      case Cancelled => if log[n - 1].readAt < n then ActiveAt(first, log, log[n - 1].readAt) else ""
  }

  function RecordAt(first: Session, log: seq<Entry>, n: nat): Session
    requires n <= |log|
  {
    first.(state := StateAt(first, log, n), activeRunId := ActiveAt(first, log, n))
  }

  lemma {:induction false} LogGrows(first: Session, log: seq<Entry>, e: Entry, n: nat)
    requires n <= |log|
    ensures RecordAt(first, log + [e], n) == RecordAt(first, log, n)
  {
    if n > 0 {
      LogGrows(first, log, e, n - 1);
      if log[n - 1].readAt < n { LogGrows(first, log, e, log[n - 1].readAt); }
    }
  }

  // ----- The invariant -----

  ghost predicate CallInv(st: Store, s: State, c: Call) {
    && c.readAt <= |s.log|
    && c.copy.id in st.sessions
    && c.copy == RecordAt(st.sessions[c.copy.id], s.log, c.readAt)
    && (c.PromptCall? ==> c.req.sessionId == c.copy.id)
  }

  ghost predicate Inv(st: Store, s: State) {
    && Keyed(st)
    && s.store.sessions.Keys == st.sessions.Keys
    && (forall id :: id in st.sessions ==> s.store.sessions[id] == RecordAt(st.sessions[id], s.log, |s.log|))
    && (forall call :: call in s.calls ==> CallInv(st, s, s.calls[call]))
    && (forall i :: 0 <= i < |s.log| ==> s.log[i].readAt <= i)
  }

  lemma CallKept(st: Store, s: State, e: Entry, t: State, c: Call)
    requires CallInv(st, s, c) && t.log == s.log + [e]
    ensures CallInv(st, t, c)
  {
    LogGrows(st.sessions[c.copy.id], s.log, e, c.readAt);
  }

  /** Writing back a copy, changed as its kind says, keeps records and log in step. */
  lemma WriteKeeps(st: Store, s: State, c: Call, record: Session, kind: Kind)
    requires Inv(st, s) && CallInv(st, s, c)
    requires record == c.copy.(state := StateOf(kind), activeRunId := record.activeRunId)
    requires record.activeRunId ==
      match kind {
        case Started(r) => r
        case Finished(r, _, _, reply) => if reply.Ok? then "" else r
        case Cancelled => c.copy.activeRunId
      }
    ensures Inv(st, Write(s, record, kind, c.readAt))
  {
    var e := Entry(record.id, kind, c.readAt);
    var t := Write(s, record, kind, c.readAt);
    forall id | id in st.sessions ensures t.store.sessions[id] == RecordAt(st.sessions[id], t.log, |t.log|) {
      LogGrows(st.sessions[id], s.log, e, |s.log|);
      LogGrows(st.sessions[id], s.log, e, c.readAt);
    }
    forall call | call in t.calls ensures CallInv(st, t, t.calls[call]) {
      CallKept(st, s, e, t, t.calls[call]);
    }
    assert t.store.sessions.Keys == s.store.sessions.Keys + {record.id};
  }

  lemma StageKept(st: Store, s: State, call: nat)
    requires Inv(st, s) && call in s.calls && s.calls[call].PromptCall?
    ensures Inv(st, s.(calls := s.calls[call := s.calls[call].(stage := s.calls[call].stage + 1)]))
  {
    var c := s.calls[call];
    var t := s.(calls := s.calls[call := c.(stage := c.stage + 1)]);
    forall d | d in t.calls ensures CallInv(st, t, t.calls[d]) {
      assert CallInv(st, s, s.calls[d]);
    }
  }

  lemma OtherStoreKept(st: Store, s: State, store: Store)
    requires Inv(st, s) && store.sessions == s.store.sessions
    ensures Inv(st, s.(store := store))
  {
    forall d | d in s.calls ensures CallInv(st, s.(store := store), s.calls[d]) {
      assert CallInv(st, s, s.calls[d]);
    }
  }

  lemma DoneKept(st: Store, s: State, call: nat)
    requires Inv(st, s)
    ensures Inv(st, s.(calls := s.calls - {call}))
  {
    var t := s.(calls := s.calls - {call});
    forall d | d in t.calls ensures CallInv(st, t, t.calls[d]) {
      assert CallInv(st, s, s.calls[d]);
    }
  }

  lemma SessionWriteKeeps(st: Store, s: State, c: Call)
    requires Inv(st, s) && CallInv(st, s, c) && c.PromptCall?
    ensures Inv(st, Write(s, StreamingSession(c.copy, c.req.runId), Started(c.req.runId), c.readAt))
    ensures Inv(st, Write(s, FinalSession(c.copy, c.req, c.reply), FinishOf(c), c.readAt))
  {
    WriteKeeps(st, s, c, StreamingSession(c.copy, c.req.runId), Started(c.req.runId));
    WriteKeeps(st, s, c, FinalSession(c.copy, c.req, c.reply), FinishOf(c));
  }

  lemma PromptKeeps(st: Store, s: State, call: nat)
    requires Inv(st, s) && call in s.calls && s.calls[call].PromptCall?
    ensures Inv(st, AdvancePrompt(s, call, s.calls[call]))
  {
    var c := s.calls[call];
    var t := s.(calls := s.calls[call := c.(stage := c.stage + 1)]);
    assert CallInv(st, s, c);
    StageKept(st, s, call);
    if c.stage == 0 || c.stage == 3 {
      SessionWriteKeeps(st, t, c);
    } else if c.stage == 1 {
      OtherStoreKept(st, t, PutRun(s.store, ActivityRun(c.copy, c.req)));
    } else if c.stage == 2 {
      OtherStoreKept(st, t, PutRun(s.store, FinalRun(c.copy, c.req, c.reply)));
    } else {
      OtherStoreKept(st, s, PutAudit(s.store, c.reply));
      DoneKept(st, s.(store := PutAudit(s.store, c.reply)), call);
    }
  }

  lemma InvStep(st: Store, nodes: set<string>, s: State, step: Step)
    requires Inv(st, s)
    ensures Inv(st, Next(s, nodes, step))
  {
    if Enabled(s, nodes, step) && step.Advance? {
      var c := s.calls[step.call];
      assert CallInv(st, s, c);
      if c.PromptCall? {
        PromptKeeps(st, s, step.call);
      } else {
        DoneKept(st, s, step.call);
        WriteKeeps(st, s.(calls := s.calls - {step.call}), c, c.copy.(state := SessionCancelling), Cancelled);
      }
    }
  }

  lemma {:induction false} InvAfter(st: Store, nodes: set<string>, steps: seq<Step>)
    requires Keyed(st)
    ensures Inv(st, After(st, nodes, steps))
  {
    if steps != [] {
      InvAfter(st, nodes, steps[..|steps| - 1]);
      InvStep(st, nodes, After(st, nodes, steps[..|steps| - 1]), steps[|steps| - 1]);
    }
  }

  // ----- Whole runs -----

  /** Over every interleaving of any prompts and cancels, a session record is fixed by the order of the
      session writes and by when each cancel read: nothing but state and active run id ever changes. */
  lemma RecordExact(st: Store, nodes: set<string>, steps: seq<Step>, id: string)
    requires Keyed(st) && id in st.sessions
    ensures var s := After(st, nodes, steps);
      id in s.store.sessions && s.store.sessions[id] == RecordAt(st.sessions[id], s.log, |s.log|)
  {
    InvAfter(st, nodes, steps);
  }

  /** The last write to the session among the first `n`. */
  ghost predicate LastWrite(log: seq<Entry>, id: string, n: nat, i: nat) {
    i < n <= |log| && log[i].sessionId == id && forall j :: i < j < n ==> log[j].sessionId != id
  }

  ghost predicate NoWrite(log: seq<Entry>, id: string, n: nat) {
    n <= |log| && forall j :: 0 <= j < n ==> log[j].sessionId != id
  }

  lemma {:induction false} LastWriteDecides(first: Session, log: seq<Entry>, n: nat, i: nat)
    requires LastWrite(log, first.id, n, i)
    ensures StateAt(first, log, n) == StateOf(log[i].kind) && ActiveAt(first, log, n) == ActiveAt(first, log, i + 1)
  {
    if i < n - 1 { LastWriteDecides(first, log, n - 1, i); }
  }

  lemma {:induction false} NoWriteKeeps(first: Session, log: seq<Entry>, n: nat)
    requires NoWrite(log, first.id, n)
    ensures RecordAt(first, log, n) == first
  {
    if n > 0 { NoWriteKeeps(first, log, n - 1); }
  }

  lemma {:induction false} FindLastWrite(log: seq<Entry>, id: string, n: nat) returns (i: nat)
    requires n <= |log| && !NoWrite(log, id, n)
    ensures LastWrite(log, id, n, i)
  {
    if log[n - 1].sessionId == id { i := n - 1; } else { i := FindLastWrite(log, id, n - 1); }
  }

  /** The last write to the session is a cancel's. */
  ghost predicate CancelledLast(log: seq<Entry>, id: string, n: nat) {
    exists i: nat :: LastWrite(log, id, n, i) && log[i].kind == Cancelled
  }

  lemma CancelledLastDecides(first: Session, log: seq<Entry>, n: nat)
    requires n <= |log| && CancelledLast(log, first.id, n)
    ensures StateAt(first, log, n) == SessionCancelling
  {
    var i: nat :| LastWrite(log, first.id, n, i) && log[i].kind == Cancelled;
    LastWriteDecides(first, log, n, i);
  }

  lemma CancellingHasCause(first: Session, log: seq<Entry>, n: nat)
    requires n <= |log| && StateAt(first, log, n) == SessionCancelling && !NoWrite(log, first.id, n)
    ensures CancelledLast(log, first.id, n)
  {
    var i := FindLastWrite(log, first.id, n);
    LastWriteDecides(first, log, n, i);
  }

  lemma CancellingExact(first: Session, log: seq<Entry>, n: nat)
    requires n <= |log|
    ensures StateAt(first, log, n) == SessionCancelling <==>
      CancelledLast(log, first.id, n) || (NoWrite(log, first.id, n) && first.state == SessionCancelling)
  {
    if CancelledLast(log, first.id, n) {
      CancelledLastDecides(first, log, n);
    } else if NoWrite(log, first.id, n) {
      NoWriteKeeps(first, log, n);
    } else if StateAt(first, log, n) == SessionCancelling {
      CancellingHasCause(first, log, n);
    }
  }

  /** A session ends up Cancelling if and only if the last write to it is a cancel's, or there was none and
      it started so: a cancel that is overwritten by a prompt leaves no trace in the state, and one
      that is not stays, even when its prompt has long finished. */
  lemma CancelSurvivesExact(st: Store, nodes: set<string>, steps: seq<Step>, id: string)
    requires Keyed(st) && id in st.sessions
    ensures var s := After(st, nodes, steps);
      id in s.store.sessions &&
      (s.store.sessions[id].state == SessionCancelling <==>
         || CancelledLast(s.log, id, |s.log|)
         || (NoWrite(s.log, id, |s.log|) && st.sessions[id].state == SessionCancelling))
  {
    RecordExact(st, nodes, steps, id);
    var log := After(st, nodes, steps).log;
    CancellingExact(st.sessions[id], log, |log|);
  }

  /** A run's id is stored as active if and only if the last write to the session is the start or the
      failed end of that run's prompt, or a cancel that read when it was active. So the id of a run
      that came back is put back exactly by a cancel that read it before and wrote after. */
  lemma ActiveRunExact(st: Store, nodes: set<string>, steps: seq<Step>, id: string, i: nat, runId: string)
    requires Keyed(st) && id in st.sessions && runId != ""
    requires LastWrite(After(st, nodes, steps).log, id, |After(st, nodes, steps).log|, i)
    ensures var s := After(st, nodes, steps);
      && id in s.store.sessions && s.log[i].readAt <= i
      && (s.store.sessions[id].activeRunId == runId <==>
            match s.log[i].kind
            case Started(r) => r == runId
            case Finished(r, _, _, reply) => r == runId && reply.Err?
            case Cancelled => RecordAt(st.sessions[id], s.log, s.log[i].readAt).activeRunId == runId)
  {
    InvAfter(st, nodes, steps);
    var s := After(st, nodes, steps);
    LastWriteDecides(st.sessions[id], s.log, |s.log|, i);
  }

  // ----- Run records -----

  /** The run records written under one id, in order. */
  function WritesOf(store: Store, runId: string): seq<Run> {
    Filter((r: Run) => r.id == runId, store.runWrites)
  }

  /** The store's history is its own: every run written is still there. */
  ghost predicate Recorded(store: Store) {
    forall r :: r in store.runWrites ==> r.id in store.runs
  }

  /** A prompt starts with a run id that no stored run and no running prompt has. */
  predicate FreshRun(s: State, step: Step) {
    step.BeginPrompt? ==>
      && step.req.runId != "" && step.req.runId !in s.store.runs
      && forall d :: d in s.calls && s.calls[d].PromptCall? ==> s.calls[d].req.runId != step.req.runId
  }

  predicate FreshRuns(st: Store, nodes: set<string>, steps: seq<Step>) {
    steps == [] ||
    var init := steps[..|steps| - 1];
    FreshRuns(st, nodes, init) && FreshRun(After(st, nodes, init), steps[|steps| - 1])
  }

  /** A run that comes back has the id and input it was asked with and has left Dispatching. */
  predicate ReplyFits(runId: string, input: string, reply: Result<Run>) {
    reply.Ok? ==>
      && reply.value.id == runId && reply.value.input == input
      && (reply.value.state == RunStreaming || Terminal(reply.value.state))
  }

  predicate IsFinish(e: Entry, runId: string) {
    e.kind.Finished? && e.kind.runId == runId
  }

  predicate IsStart(e: Entry, runId: string) {
    e.kind.Started? && e.kind.runId == runId
  }

  /** The run record of a running prompt is as far as its stage says. */
  ghost predicate RunStage(s: State, c: Call)
    requires c.PromptCall?
  {
    var r, first, final := c.req.runId, ActivityRun(c.copy, c.req), FinalRun(c.copy, c.req, c.reply);
    && ReplyFits(r, c.req.input, c.reply)
    && (c.stage <= 1 ==> r !in s.store.runs && WritesOf(s.store, r) == [])
    && (c.stage == 2 ==> r in s.store.runs && s.store.runs[r] == first && WritesOf(s.store, r) == [first])
    && (c.stage > 2 ==> r in s.store.runs && s.store.runs[r] == final && WritesOf(s.store, r) == [first, final])
    && (c.stage <= 3 ==> forall e :: e in s.log ==> !IsFinish(e, r))
  }

  /** One record under the run's id: written as dispatched, with the request's input and the session's
      container and agent, and once more, by a legal step, as it is now, which is the run the node
      returned or the dispatched one failed. */
  ghost predicate RunSettled(store: Store, copy: Session, runId: string, input: string, reply: Result<Run>) {
    && runId in store.runs
    && var run, writes := store.runs[runId], WritesOf(store, runId);
      && run.id == runId && run.input == input && (run.state == RunStreaming || Terminal(run.state))
      && |writes| == 2 && DispatchRecord(writes[0], copy, runId, input) && writes[1] == run
      && RunHistory([writes[0].state, writes[1].state])
      && (reply.Ok? ==> run == reply.value)
      && (reply.Err? ==> FailureRecord(run, copy, runId, input, reply.error))
  }

  /** The run a finishing entry of the log is about has settled. */
  ghost predicate EntrySettled(store: Store, e: Entry)
    requires e.kind.Finished?
  {
    e.kind.copy.id == e.sessionId && RunSettled(store, e.kind.copy, e.kind.runId, e.kind.input, e.kind.reply)
  }

  /** Two prompts under way have different run ids. */
  ghost predicate DistinctRuns(s: State) {
    forall c, d :: c in s.calls && d in s.calls && c != d && s.calls[c].PromptCall? && s.calls[d].PromptCall? ==>
      s.calls[c].req.runId != s.calls[d].req.runId
  }

  ghost predicate Stages(s: State) {
    forall c :: c in s.calls && s.calls[c].PromptCall? ==> RunStage(s, s.calls[c])
  }

  ghost predicate Finishes(s: State) {
    forall i :: 0 <= i < |s.log| && s.log[i].kind.Finished? ==> FinishAt(s, i)
  }

  /** What a finishing write stands for: its run has settled, and no later write starts or finishes it again. */
  ghost predicate FinishAt(s: State, i: nat)
    requires i < |s.log| && s.log[i].kind.Finished?
  {
    var r := s.log[i].kind.runId;
    && EntrySettled(s.store, s.log[i])
    && forall j :: i < j < |s.log| ==> !IsStart(s.log[j], r) && !IsFinish(s.log[j], r)
  }

  ghost predicate RunInv(s: State) {
    Recorded(s.store) && DistinctRuns(s) && Stages(s) && Finishes(s)
  }

  lemma UnusedHasNoWrites(store: Store, runId: string)
    requires Recorded(store) && runId !in store.runs
    ensures WritesOf(store, runId) == []
  {
    FilterNone((r: Run) => r.id == runId, store.runWrites);
  }

  lemma WriteIsRecorded(store: Store, run: Run, runId: string)
    ensures WritesOf(PutRun(store, run), runId) == WritesOf(store, runId) + if run.id == runId then [run] else []
  {
    FilterSnoc((r: Run) => r.id == runId, store.runWrites, run);
  }

  lemma RunBegins(s: State, nodes: set<string>, step: Step)
    requires RunInv(s) && Enabled(s, nodes, step) && step.BeginPrompt? && FreshRun(s, step)
    ensures RunInv(Next(s, nodes, step))
  {
    var t := Next(s, nodes, step);
    UnusedHasNoWrites(s.store, step.req.runId);
    if NodeReply(step.req, step.world).Ok? { ReplyIsSettled(step.req, step.world); }
    forall e | e in s.log ensures !IsFinish(e, step.req.runId) {
      var i :| 0 <= i < |s.log| && s.log[i] == e;
      if e.kind.Finished? { assert FinishAt(s, i); }
    }
    forall c | c in t.calls && t.calls[c].PromptCall? ensures RunStage(t, t.calls[c]) {
      if c != step.call { assert RunStage(s, s.calls[c]); }
    }
    forall i | 0 <= i < |t.log| && t.log[i].kind.Finished? ensures FinishAt(t, i) { assert FinishAt(s, i); }
  }

  /** A run write leaves every other run's record and history alone. */
  lemma OtherRunsKept(s: State, t: State, run: Run)
    requires t.store == PutRun(s.store, run) && t.log == s.log
    ensures forall c: Call :: c.PromptCall? && c.req.runId != run.id && RunStage(s, c) ==> RunStage(t, c)
    ensures forall e: Entry :: e.kind.Finished? && e.kind.runId != run.id && EntrySettled(s.store, e) ==>
      EntrySettled(t.store, e)
  {
    forall r ensures WritesOf(t.store, r) == WritesOf(s.store, r) + if run.id == r then [run] else [] {
      WriteIsRecorded(s.store, run, r);
    }
  }

  /** The two run writes of a prompt. */
  lemma RunWritten(s: State, call: nat)
    requires RunInv(s) && call in s.calls && s.calls[call].PromptCall? && 1 <= s.calls[call].stage <= 2
    ensures RunInv(AdvancePrompt(s, call, s.calls[call]))
  {
    var c := s.calls[call];
    var t, d := AdvancePrompt(s, call, c), c.(stage := c.stage + 1);
    var run := if c.stage == 1 then ActivityRun(c.copy, c.req) else FinalRun(c.copy, c.req, c.reply);
    assert RunStage(s, c) && run.id == c.req.runId;
    OtherRunsKept(s, t, run);
    WriteIsRecorded(s.store, run, c.req.runId);
    assert RunStage(t, d);
    forall i | 0 <= i < |t.log| && t.log[i].kind.Finished? ensures FinishAt(t, i) {
      assert FinishAt(s, i) && s.log[i] in s.log && !IsFinish(s.log[i], c.req.runId);
    }
    forall e | e in t.calls && t.calls[e].PromptCall? ensures RunStage(t, t.calls[e]) {
      if e != call { assert RunStage(s, s.calls[e]); }
    }
  }

  /** A session write that starts or finishes no run other than `c`'s keeps the run records. */
  lemma LogKeepsRuns(s: State, record: Session, kind: Kind, readAt: nat, t: State)
    requires RunInv(s) && t == Write(s, record, kind, readAt)
    requires kind.Started? ==> kind.runId !in s.store.runs
    requires kind.Finished? ==>
      && EntrySettled(s.store, Entry(record.id, kind, readAt))
      && (forall e :: e in s.log ==> !IsFinish(e, kind.runId))
      && (forall c :: c in s.calls && s.calls[c].PromptCall? && s.calls[c].req.runId == kind.runId ==>
        s.calls[c].stage > 3)
    ensures RunInv(t)
  {
    var e := Entry(record.id, kind, readAt);
    forall i | 0 <= i < |t.log| && t.log[i].kind.Finished? ensures FinishAt(t, i) {
      if i < |s.log| {
        assert FinishAt(s, i) && s.log[i] in s.log;
      }
    }
    forall c | c in t.calls && t.calls[c].PromptCall? ensures RunStage(t, t.calls[c]) {
      assert RunStage(s, s.calls[c]);
    }
  }

  lemma StageCounted(s: State, call: nat)
    requires RunInv(s) && call in s.calls && s.calls[call].PromptCall?
    requires s.calls[call].stage == 0 || s.calls[call].stage == 3
    ensures RunInv(s.(calls := s.calls[call := s.calls[call].(stage := s.calls[call].stage + 1)]))
  {
    var c := s.calls[call];
    var t := s.(calls := s.calls[call := c.(stage := c.stage + 1)]);
    assert RunStage(s, c);
    forall e | e in t.calls && t.calls[e].PromptCall? ensures RunStage(t, t.calls[e]) {
      if e != call { assert RunStage(s, s.calls[e]); }
    }
    forall i | 0 <= i < |t.log| && t.log[i].kind.Finished? ensures FinishAt(t, i) { assert FinishAt(s, i); }
  }

  lemma FinishedRunSettled(s: State, c: Call)
    requires c.PromptCall? && RunStage(s, c) && c.stage == 3
    ensures RunSettled(s.store, c.copy, c.req.runId, c.req.input, c.reply)
  {
  }

  lemma SessionWritten(s: State, call: nat)
    requires RunInv(s) && call in s.calls && s.calls[call].PromptCall?
    requires s.calls[call].stage == 0 || s.calls[call].stage == 3
    ensures RunInv(AdvancePrompt(s, call, s.calls[call]))
  {
    var c := s.calls[call];
    var t := s.(calls := s.calls[call := c.(stage := c.stage + 1)]);
    assert RunStage(s, c);
    StageCounted(s, call);
    if c.stage == 0 {
      LogKeepsRuns(t, StreamingSession(c.copy, c.req.runId), Started(c.req.runId), c.readAt, AdvancePrompt(s, call, c));
    } else {
      FinishedRunSettled(s, c);
      LogKeepsRuns(t, FinalSession(c.copy, c.req, c.reply), FinishOf(c), c.readAt,
                   AdvancePrompt(s, call, c));
    }
  }

  lemma CallDropped(s: State, call: nat, audits: seq<Audit>)
    requires RunInv(s)
    ensures RunInv(s.(calls := s.calls - {call}, store := s.store.(audits := audits)))
  {
    var t := s.(calls := s.calls - {call}, store := s.store.(audits := audits));
    forall e | e in t.calls && t.calls[e].PromptCall? ensures RunStage(t, t.calls[e]) {
      assert RunStage(s, s.calls[e]);
    }
    forall i | 0 <= i < |t.log| && t.log[i].kind.Finished? ensures FinishAt(t, i) { assert FinishAt(s, i); }
  }

  lemma CancelBegins(s: State, call: nat, c: Call)
    requires RunInv(s) && call !in s.calls && c.CancelCall?
    ensures RunInv(s.(calls := s.calls[call := c]))
  {
    var t := s.(calls := s.calls[call := c]);
    forall e | e in t.calls && t.calls[e].PromptCall? ensures RunStage(t, t.calls[e]) {
      assert RunStage(s, s.calls[e]);
    }
    forall i | 0 <= i < |t.log| && t.log[i].kind.Finished? ensures FinishAt(t, i) { assert FinishAt(s, i); }
  }

  lemma RunAdvances(s: State, nodes: set<string>, call: nat)
    requires RunInv(s) && call in s.calls
    ensures RunInv(Next(s, nodes, Advance(call)))
  {
    var c := s.calls[call];
    if c.CancelCall? {
      CallDropped(s, call, s.store.audits);
      LogKeepsRuns(s.(calls := s.calls - {call}), c.copy.(state := SessionCancelling), Cancelled, c.readAt,
                   Next(s, nodes, Advance(call)));
    } else if c.stage == 0 || c.stage == 3 {
      SessionWritten(s, call);
    } else if c.stage <= 2 {
      RunWritten(s, call);
    } else {
      CallDropped(s, call, PutAudit(s.store, c.reply).audits);
    }
  }

  lemma {:induction false} RunInvAfter(st: Store, nodes: set<string>, steps: seq<Step>)
    requires Recorded(st) && FreshRuns(st, nodes, steps)
    ensures RunInv(After(st, nodes, steps))
  {
    if steps != [] {
      var init, last := steps[..|steps| - 1], steps[|steps| - 1];
      RunInvAfter(st, nodes, init);
      var s := After(st, nodes, init);
      if Enabled(s, nodes, last) {
        match last
        case BeginPrompt(_, _, _) => RunBegins(s, nodes, last);
        case BeginCancel(call, id) => CancelBegins(s, call, CancelCall(s.store.sessions[id], |s.log|));
        case Advance(call) => RunAdvances(s, nodes, call);
      }
    }
  }

  predicate SameHome(a: Session, b: Session) {
    a.id == b.id && a.containerId == b.containerId && a.agentInstanceId == b.agentInstanceId
  }

  /** A session keeps its container and agent instance, so every finish is about the session as it began. */
  ghost predicate Homes(st: Store, s: State) {
    forall i :: 0 <= i < |s.log| && s.log[i].kind.Finished? ==>
      && s.log[i].sessionId in st.sessions && SameHome(s.log[i].kind.copy, st.sessions[s.log[i].sessionId])
  }

  lemma HomesStep(st: Store, nodes: set<string>, s: State, step: Step)
    requires Homes(st, s)
    requires forall c :: c in s.calls && s.calls[c].PromptCall? ==>
      s.calls[c].copy.id in st.sessions && SameHome(s.calls[c].copy, st.sessions[s.calls[c].copy.id])
    ensures Homes(st, Next(s, nodes, step))
  {
  }

  lemma {:induction false} HomesAfter(st: Store, nodes: set<string>, steps: seq<Step>)
    requires Keyed(st)
    ensures Homes(st, After(st, nodes, steps))
  {
    if steps != [] {
      var init, last := steps[..|steps| - 1], steps[|steps| - 1];
      HomesAfter(st, nodes, init);
      InvAfter(st, nodes, init);
      var s := After(st, nodes, init);
      forall c | c in s.calls
        ensures s.calls[c].copy.id in st.sessions && SameHome(s.calls[c].copy, st.sessions[s.calls[c].copy.id])
      {
        assert CallInv(st, s, s.calls[c]);
      }
      HomesStep(st, nodes, s, last);
    }
  }

  /** Whatever activities overlap, of this session or others: every prompt that finishes has one record
      under the run id it dispatched, equal to the run it returns, no longer Dispatching, and written
      exactly twice by a legal step, first with the input asked and the container and agent of the
      session, which never change. */
  lemma RunSettlesAnyway(st: Store, nodes: set<string>, steps: seq<Step>, i: nat)
    requires Recorded(st) && FreshRuns(st, nodes, steps)
    requires i < |After(st, nodes, steps).log| && After(st, nodes, steps).log[i].kind.Finished?
    ensures var s := After(st, nodes, steps); var k := s.log[i].kind;
      && k.copy.id == s.log[i].sessionId && RunSettled(s.store, k.copy, k.runId, k.input, k.reply)
      && (Keyed(st) ==> k.copy.id in st.sessions && SameHome(k.copy, st.sessions[k.copy.id]))
  {
    RunInvAfter(st, nodes, steps);
    assert FinishAt(After(st, nodes, steps), i);
    if Keyed(st) { HomesAfter(st, nodes, steps); }
  }

  /** The prompt a finish reports was begun in the run, with that id, input and session. */
  ghost predicate Begun(steps: seq<Step>, runId: string, input: string, sessionId: string) {
    exists n :: 0 <= n < |steps| && steps[n].BeginPrompt? && steps[n].req == PromptRequest(sessionId, runId, input)
  }

  ghost predicate AllBegun(steps: seq<Step>, s: State) {
    && (forall c :: c in s.calls && s.calls[c].PromptCall? ==>
          s.calls[c].req.sessionId == s.calls[c].copy.id
          && Begun(steps, s.calls[c].req.runId, s.calls[c].req.input, s.calls[c].req.sessionId))
    && (forall i :: 0 <= i < |s.log| && s.log[i].kind.Finished? ==>
          Begun(steps, s.log[i].kind.runId, s.log[i].kind.input, s.log[i].sessionId))
  }

  lemma BegunGrows(steps: seq<Step>, step: Step, runId: string, input: string, sessionId: string)
    ensures Begun(steps, runId, input, sessionId) ==> Begun(steps + [step], runId, input, sessionId)
    ensures step.BeginPrompt? && step.req == PromptRequest(sessionId, runId, input) ==>
      Begun(steps + [step], runId, input, sessionId)
  {
    var more := steps + [step];
    if n :| 0 <= n < |steps| && steps[n].BeginPrompt? && steps[n].req == PromptRequest(sessionId, runId, input) {
      assert more[n] == steps[n];
    }
    assert more[|steps|] == step;
  }

  lemma AllBegunGrows(steps: seq<Step>, step: Step, s: State)
    requires AllBegun(steps, s)
    ensures AllBegun(steps + [step], s)
  {
    forall c | c in s.calls && s.calls[c].PromptCall?
      ensures Begun(steps + [step], s.calls[c].req.runId, s.calls[c].req.input, s.calls[c].req.sessionId)
    {
      BegunGrows(steps, step, s.calls[c].req.runId, s.calls[c].req.input, s.calls[c].req.sessionId);
    }
    forall i | 0 <= i < |s.log| && s.log[i].kind.Finished?
      ensures Begun(steps + [step], s.log[i].kind.runId, s.log[i].kind.input, s.log[i].sessionId)
    {
      BegunGrows(steps, step, s.log[i].kind.runId, s.log[i].kind.input, s.log[i].sessionId);
    }
  }

  /** A step adds no call and no finish that was not begun. */
  lemma AllBegunStep(steps: seq<Step>, nodes: set<string>, s: State, step: Step)
    requires AllBegun(steps, s) && forall id :: id in s.store.sessions ==> s.store.sessions[id].id == id
    requires step.BeginPrompt? ==> Begun(steps, step.req.runId, step.req.input, step.req.sessionId)
    ensures AllBegun(steps, Next(s, nodes, step))
  {
  }

  /** Over every run, each finish answers a prompt that was asked: same run id, input and session. */
  lemma {:induction false} FinishAnswersPrompt(st: Store, nodes: set<string>, steps: seq<Step>)
    requires Keyed(st)
    ensures AllBegun(steps, After(st, nodes, steps))
  {
    if steps != [] {
      var init, last := steps[..|steps| - 1], steps[|steps| - 1];
      FinishAnswersPrompt(st, nodes, init);
      InvAfter(st, nodes, init);
      SplitLast(steps);
      AllBegunGrows(init, last, After(st, nodes, init));
      if last.BeginPrompt? { BegunGrows(init, last, last.req.runId, last.req.input, last.req.sessionId); }
      AllBegunStep(steps, nodes, After(st, nodes, init), last);
    }
  }

  /** And when every write to its session is the prompt's own, so that only activities of other sessions
      overlap, the session ends as the run did: Failed exactly if it failed, otherwise waiting for
      input, with the run id kept active exactly on a node error. */
  lemma SessionSettlesAlone(st: Store, nodes: set<string>, steps: seq<Step>, i: nat)
    requires Keyed(st) && Recorded(st) && FreshRuns(st, nodes, steps)
    requires i < |After(st, nodes, steps).log| && After(st, nodes, steps).log[i].kind.Finished?
    requires var log := After(st, nodes, steps).log; var r := log[i].kind.runId;
      log[i].sessionId in st.sessions &&
      forall j :: 0 <= j < |log| && log[j].sessionId == log[i].sessionId ==> IsStart(log[j], r) || IsFinish(log[j], r)
    ensures var s := After(st, nodes, steps); var id, r := s.log[i].sessionId, s.log[i].kind.runId;
      && id in s.store.sessions && r in s.store.runs
      && s.store.sessions[id] == st.sessions[id].(
           state := if s.store.runs[r].state == RunFailed then SessionFailed else SessionWaitingInput,
           activeRunId := if s.log[i].kind.reply.Ok? then "" else r)
  {
    RunInvAfter(st, nodes, steps);
    InvAfter(st, nodes, steps);
    var s := After(st, nodes, steps);
    assert FinishAt(s, i);
    assert LastWrite(s.log, s.log[i].sessionId, |s.log|, i);
    LastWriteDecides(st.sessions[s.log[i].sessionId], s.log, |s.log|, i);
  }

  // ----- Two runs -----

  lemma AfterSnoc(st: Store, nodes: set<string>, steps: seq<Step>, step: Step)
    ensures After(st, nodes, steps + [step]) == Next(After(st, nodes, steps), nodes, step)
  {
    assert (steps + [step])[..|steps|] == steps;
  }

  lemma AfterOne(st: Store, nodes: set<string>, step: Step)
    ensures After(st, nodes, [step]) == Next(Init(st), nodes, step)
  {
    AfterSnoc(st, nodes, [], step);
    assert [] + [step] == [step];
  }

  /** One prompt from its read to its last store call, with nothing in between. */
  function Alone(req: PromptRequest, w: World): seq<Step> {
    [BeginPrompt(0, req, w)] + [Advance(0)] + [Advance(0)] + [Advance(0)] + [Advance(0)] + [Advance(0)]
  }

  /** Without interference the steps add up to the whole activity. */
  lemma AloneIsPrompt(st: Store, nodes: set<string>, req: PromptRequest, w: World)
    requires Promptable(st, nodes, req.sessionId)
    ensures After(st, nodes, Alone(req, w)).store == PromptStore(st, req, w)
  {
    var c := PromptCall(req, NodeReply(req, w), st.sessions[req.sessionId], 0, 0);
    var r0 := [BeginPrompt(0, req, w)];
    AfterOne(st, nodes, r0[0]);
    assert After(st, nodes, r0) == Init(st).(calls := map[0 := c]);
    var r1 := r0 + [Advance(0)];
    AfterSnoc(st, nodes, r0, Advance(0));
    assert After(st, nodes, r1).calls == map[0 := c.(stage := 1)];
    var r2 := r1 + [Advance(0)];
    AfterSnoc(st, nodes, r1, Advance(0));
    assert After(st, nodes, r2).calls == map[0 := c.(stage := 2)];
    var r3 := r2 + [Advance(0)];
    AfterSnoc(st, nodes, r2, Advance(0));
    assert After(st, nodes, r3).calls == map[0 := c.(stage := 3)];
    AfterSnoc(st, nodes, r3, Advance(0));
    assert After(st, nodes, r3 + [Advance(0)]).calls == map[0 := c.(stage := 4)];
    AfterSnoc(st, nodes, r3 + [Advance(0)], Advance(0));
  }

  /** The same for a cancel. */
  lemma AloneIsCancel(st: Store, nodes: set<string>, sessionId: string)
    requires Promptable(st, nodes, sessionId)
    ensures After(st, nodes, [BeginCancel(0, sessionId)] + [Advance(0)]).store == CancelStore(st, sessionId)
  {
    AfterOne(st, nodes, BeginCancel(0, sessionId));
    AfterSnoc(st, nodes, [BeginCancel(0, sessionId)], Advance(0));
  }

  /** A prompt has written its session once, and then a cancel has read it. */
  function BothBegun(req: PromptRequest, w: World): seq<Step> {
    [BeginPrompt(0, req, w)] + [Advance(0)] + [BeginCancel(1, req.sessionId)]
  }

  /** A cancel that reads after the prompt's first session write and writes after its last. */
  function LateCancel(req: PromptRequest, w: World): seq<Step> {
    BothBegun(req, w) + [Advance(0)] + [Advance(0)] + [Advance(0)] + [Advance(1)]
  }

  lemma BothReading(st: Store, nodes: set<string>, req: PromptRequest, w: World)
    requires Keyed(st) && Promptable(st, nodes, req.sessionId)
    ensures var s := After(st, nodes, BothBegun(req, w)); var sess := st.sessions[req.sessionId];
      && s.calls == map[0 := PromptCall(req, NodeReply(req, w), sess, 0, 1),
        1 := CancelCall(StreamingSession(sess, req.runId), 1)]
      && s.log == [Entry(req.sessionId, Started(req.runId), 0)]
  {
    var c := PromptCall(req, NodeReply(req, w), st.sessions[req.sessionId], 0, 0);
    var r0 := [BeginPrompt(0, req, w)];
    AfterOne(st, nodes, r0[0]);
    assert After(st, nodes, r0) == Init(st).(calls := map[0 := c]);
    AfterSnoc(st, nodes, r0, Advance(0));
    assert After(st, nodes, r0 + [Advance(0)]).calls == map[0 := c.(stage := 1)];
    AfterSnoc(st, nodes, r0 + [Advance(0)], BeginCancel(1, req.sessionId));
  }

  lemma AdvanceFirst(s: State, nodes: set<string>, p: Call, x: Call)
    requires s.calls == map[0 := p, 1 := x] && p.PromptCall? && 1 <= p.stage <= 3
    ensures var t := Next(s, nodes, Advance(0));
      && t.calls == map[0 := p.(stage := p.stage + 1), 1 := x]
      && t.log == s.log + if p.stage == 3 then [Entry(p.copy.id, FinishOf(p), p.readAt)] else []
  {
    assert s.calls[0 := p.(stage := p.stage + 1)] == map[0 := p.(stage := p.stage + 1), 1 := x];
  }

  /** The prompt's last three store calls and then the cancel's. */
  lemma FinishThenCancel(s: State, nodes: set<string>, p: Call, x: Call)
    requires s.calls == map[0 := p, 1 := x] && p.PromptCall? && p.stage == 1 && x.CancelCall?
    ensures Next(Next(Next(Next(s, nodes, Advance(0)), nodes, Advance(0)), nodes, Advance(0)), nodes, Advance(1)).log ==
      s.log + [Entry(p.copy.id, FinishOf(p), p.readAt)] + [Entry(x.copy.id, Cancelled, x.readAt)]
  {
    var s1 := Next(s, nodes, Advance(0));
    AdvanceFirst(s, nodes, p, x);
    var s2 := Next(s1, nodes, Advance(0));
    AdvanceFirst(s1, nodes, p.(stage := 2), x);
    AdvanceFirst(s2, nodes, p.(stage := 3), x);
  }

  lemma AfterFour(st: Store, nodes: set<string>, steps: seq<Step>)
    ensures After(st, nodes, steps + [Advance(0)] + [Advance(0)] + [Advance(0)] + [Advance(1)]) ==
      var s := Next(Next(Next(After(st, nodes, steps), nodes, Advance(0)), nodes, Advance(0)), nodes, Advance(0));
      Next(s, nodes, Advance(1))
  {
    AfterSnoc(st, nodes, steps, Advance(0));
    AfterSnoc(st, nodes, steps + [Advance(0)], Advance(0));
    AfterSnoc(st, nodes, steps + [Advance(0)] + [Advance(0)], Advance(0));
    AfterSnoc(st, nodes, steps + [Advance(0)] + [Advance(0)] + [Advance(0)], Advance(1));
  }

  lemma LateCancelLog(st: Store, nodes: set<string>, req: PromptRequest, w: World)
    requires Keyed(st) && Promptable(st, nodes, req.sessionId)
    ensures After(st, nodes, LateCancel(req, w)).log ==
      [Entry(req.sessionId, Started(req.runId), 0)]
      + [Entry(req.sessionId, Finished(req.runId, req.input, st.sessions[req.sessionId], NodeReply(req, w)), 0)]
      + [Entry(req.sessionId, Cancelled, 1)]
  {
    var r3, sess := BothBegun(req, w), st.sessions[req.sessionId];
    BothReading(st, nodes, req, w);
    FinishThenCancel(After(st, nodes, r3), nodes, PromptCall(req, NodeReply(req, w), sess, 0, 1),
                     CancelCall(StreamingSession(sess, req.runId), 1));
    AfterFour(st, nodes, r3);
  }

  /** It leaves the session Cancelling with the run's id active again, whatever became of the run. */
  lemma LateCancelReinstates(st: Store, nodes: set<string>, req: PromptRequest, w: World)
    requires Keyed(st) && Promptable(st, nodes, req.sessionId)
    ensures var s := After(st, nodes, LateCancel(req, w));
      && req.sessionId in s.store.sessions
      && s.store.sessions[req.sessionId]
         == st.sessions[req.sessionId].(state := SessionCancelling, activeRunId := req.runId)
  {
    LateCancelLog(st, nodes, req, w);
    RecordExact(st, nodes, LateCancel(req, w), req.sessionId);
    var log, first := After(st, nodes, LateCancel(req, w)).log, st.sessions[req.sessionId];
    assert ActiveAt(first, log, 1) == req.runId;
  }
}
