/** The durable side of a prompt: the in-memory metadata store (store/memory.go), the `Prompt` and
    `Cancel` activities that write to it (workflows/activities.go), and the `SessionWorkflow`
    handlers that mirror its session record (workflows/workflows.go). */
module Activities {
  import opened Control
  import opened Sequences
  import opened PromptLoop
  import Relay

  datatype Audit = Audit(entityType: string, entityId: string, action: string)

  /** `containers` maps a container to its node. `runWrites` and `sessionWrites` are history:
      every record written, in order. */
  datatype Store = Store(
    sessions: map<string, Session>, runs: map<string, Run>, containers: map<string, string>, audits: seq<Audit>,
    runWrites: seq<Run>, sessionWrites: seq<Session>)

  function PutSession(st: Store, s: Session): Store {
    st.(sessions := st.sessions[s.id := s], sessionWrites := st.sessionWrites + [s])
  }

  function PutRun(st: Store, r: Run): Store {
    st.(runs := st.runs[r.id := r], runWrites := st.runWrites + [r])
  }

  /** Records are stored under their own ids. */
  ghost predicate Keyed(st: Store) {
    && (forall id :: id in st.sessions ==> st.sessions[id].id == id)
    && (forall id :: id in st.runs ==> st.runs[id].id == id)
  }

  /** What the node does with one prompt: how the supervisor dispatched it, what woke its loop, and
      where each hop was cut. A node that cannot find the session delivers nothing on the first hop. */
  datatype World = World(
    containerId: string, agentInstanceId: string, dispatch: Dispatch, wakes: seq<Wake>, cut1: nat, cut2: nat,
    error: string)

  datatype PromptRequest = PromptRequest(sessionId: string, runId: string, input: string)

  function SupervisorRun(req: PromptRequest, w: World): Run {
    Run(req.runId, req.sessionId, w.containerId, w.agentInstanceId, RunDispatching, req.input, "", false, 0)
  }

  function SupervisorItems(req: PromptRequest, w: World): seq<Item> {
    Items(SupervisorRun(req, w), w.dispatch, w.wakes)
  }

  function Cut1(req: PromptRequest, w: World): nat {
    if w.cut1 <= |SupervisorItems(req, w)| then w.cut1 else |SupervisorItems(req, w)|
  }

  /** `node.Prompt`, through both hops. */
  function NodeReply(req: PromptRequest, w: World): Result<Run> {
    Relay.Returned(SupervisorItems(req, w), Cut1(req, w), w.cut2, w.error)
  }

  function NodeEvents(req: PromptRequest, w: World): seq<Event> {
    Relay.Published(SupervisorItems(req, w), Cut1(req, w), w.cut2)
  }

  /** A run that comes back belongs to the request and has left Dispatching by a legal step. */
  lemma ReplyIsSettled(req: PromptRequest, w: World)
    requires req.runId != "" && NodeReply(req, w).Ok?
    ensures var r := NodeReply(req, w).value;
      && r.id == req.runId && r.sessionId == req.sessionId && r.input == req.input
      && r.containerId == w.containerId && r.agentInstanceId == w.agentInstanceId
      && (r.state == RunStreaming || Terminal(r.state))
      && ValidRunTransition(RunDispatching, r.state)
  {
    var run, items := SupervisorRun(req, w), SupervisorItems(req, w);
    var session := Session(req.sessionId, w.containerId, w.agentInstanceId, SessionActive, "");
    PromptGrammar(session, w.containerId, req.runId, req.input, w.dispatch, w.wakes);
    Relay.RelayExact(run, items, Cut1(req, w), w.cut2, w.error);
    var k := Cut1(req, w) - 1;
    assert items[k].final <==> Terminal(items[k].run.state);
  }

  /** What a prompt publishes besides `run.started`: a prefix of its typed events, all of its own run. */
  lemma PromptPublishes(req: PromptRequest, w: World)
    requires req.runId != ""
    ensures NodeEvents(req, w) <= Relay.TypedEvents(SupervisorItems(req, w))
    ensures NodeReply(req, w).Ok? ==> NodeEvents(req, w) == Relay.TypedEvents(SupervisorItems(req, w)[..Cut1(req, w)])
    ensures forall e :: e in NodeEvents(req, w) ==>
      e.runId == req.runId && e.sessionId == req.sessionId && e.sequence > 0
  {
    var run, items := SupervisorRun(req, w), SupervisorItems(req, w);
    var session := Session(req.sessionId, w.containerId, w.agentInstanceId, SessionActive, "");
    PromptGrammar(session, w.containerId, req.runId, req.input, w.dispatch, w.wakes);
    Relay.RelayExact(run, items, Cut1(req, w), w.cut2, w.error);
    TypedOfRun(run, items);
  }

  lemma {:induction false} TypedOfRun(run: Run, items: seq<Item>)
    requires forall i :: 0 <= i < |items| ==>
      items[i].event.kind != "" ==>
        items[i].event.runId == run.id && items[i].event.sessionId == run.sessionId && items[i].event.sequence > 0
    ensures forall e :: e in Relay.TypedEvents(items) ==>
      e.runId == run.id && e.sessionId == run.sessionId && e.sequence > 0
  {
    if items != [] { TypedOfRun(run, items[1..]); }
  }

  // ----- Activities.Prompt -----

  function ActivityRun(sess: Session, req: PromptRequest): Run {
    Run(req.runId, sess.id, sess.containerId, sess.agentInstanceId, RunDispatching, req.input, "", false, 0)
  }

  function StreamingSession(sess: Session, runId: string): Session {
    sess.(state := SessionStreaming, activeRunId := runId)
  }

  /** The writes before the node is called. */
  function Dispatched(st: Store, sess: Session, req: PromptRequest): Store {
    PutRun(PutSession(st, StreamingSession(sess, req.runId)), ActivityRun(sess, req))
  }

  function FinalRun(sess: Session, req: PromptRequest, reply: Result<Run>): Run {
    match reply
    case Ok(final) => final
    case Err(error) => ActivityRun(sess, req).(state := RunFailed, error := error, completed := true, sequence := 1)
  }

  /** The session as last written: an error from the node keeps the active run id. */
  function FinalSession(sess: Session, req: PromptRequest, reply: Result<Run>): Session {
    match reply
    case Ok(final) =>
      sess.(activeRunId := "", state := if final.state == RunFailed then SessionFailed else SessionWaitingInput)
    case Err(_) => sess.(activeRunId := req.runId, state := SessionFailed)
  }

  function RunAction(s: RunState): string {
    match s
    case RunUnset => ""
    case RunQueued => "queued"
    case RunDispatching => "dispatching"
    case RunStreaming => "streaming"
    case RunCompleted => "completed"
    case RunCancelled => "cancelled"
    case RunFailed => "failed"
  }

  /** The writes after it. `sess` is the copy read before dispatch. */
  function Settled(st: Store, sess: Session, req: PromptRequest, reply: Result<Run>): Store {
    PutAudit(PutSession(PutRun(st, FinalRun(sess, req, reply)), FinalSession(sess, req, reply)), reply)
  }

  /** A run that comes back is audited. */
  function PutAudit(st: Store, reply: Result<Run>): Store {
    if reply.Ok? then st.(audits := st.audits + [Audit("run", reply.value.id, RunAction(reply.value.state))]) else st
  }

  predicate NodeConfigured(nodes: set<string>, nodeId: string) {
    (nodeId != "" && nodeId in nodes) || |nodes| == 1
  }

  /** The session, its container and a node client for it are all known. */
  predicate Promptable(st: Store, nodes: set<string>, sessionId: string) {
    && sessionId in st.sessions
    && st.sessions[sessionId].containerId in st.containers
    && NodeConfigured(nodes, st.containers[st.sessions[sessionId].containerId])
  }

  function PromptStore(st: Store, req: PromptRequest, w: World): Store
    requires req.sessionId in st.sessions
  {
    var sess := st.sessions[req.sessionId];
    Settled(Dispatched(st, sess, req), sess, req, NodeReply(req, w))
  }

  predicate PromptFails(req: PromptRequest, w: World) {
    NodeReply(req, w).Err? || NodeReply(req, w).value.state == RunFailed
  }

  /** The record a prompt is dispatched with: the request's id and input, on the session's container and
      agent instance, with nothing seen yet. */
  predicate DispatchRecord(run: Run, sess: Session, runId: string, input: string) {
    && run.id == runId && run.sessionId == sess.id && run.input == input
    && run.containerId == sess.containerId && run.agentInstanceId == sess.agentInstanceId
    && run.state == RunDispatching && run.sequence == 0 && run.error == "" && !run.completed
  }

  /** The record of a prompt whose node call failed: the dispatched one, Failed with the node's error. */
  predicate FailureRecord(run: Run, sess: Session, runId: string, input: string, error: string) {
    && run.id == runId && run.sessionId == sess.id && run.input == input
    && run.containerId == sess.containerId && run.agentInstanceId == sess.agentInstanceId
    && run.state == RunFailed && run.sequence == 1 && run.error == error && run.completed
  }

  /** A prompt leaves one run record under the id chosen at dispatch, equal to the run it returns and
      no longer Dispatching; its session is Failed exactly when that run is Failed and otherwise waits
      for input; nothing else in the store changes; and the run was written twice, by a legal step. */
  lemma PromptSettles(st: Store, req: PromptRequest, w: World)
    requires Keyed(st) && req.sessionId in st.sessions && req.runId != ""
    ensures var sess := st.sessions[req.sessionId]; var t := PromptStore(st, req, w);
            var run := FinalRun(sess, req, NodeReply(req, w));
      && Keyed(t)
      && run.id == req.runId && run.sessionId == req.sessionId
      && t.runs == st.runs[req.runId := run]
      && (run.state == RunStreaming || Terminal(run.state))
      && t.sessions == st.sessions[req.sessionId := t.sessions[req.sessionId]]
      && t.sessions[req.sessionId] == sess.(
           state := if run.state == RunFailed then SessionFailed else SessionWaitingInput,
           activeRunId := if NodeReply(req, w).Ok? then "" else req.runId)
      && t.containers == st.containers
      && |t.runWrites| == |st.runWrites| + 2 && st.runWrites <= t.runWrites
      && DispatchRecord(t.runWrites[|st.runWrites|], sess, req.runId, req.input)
      && t.runWrites[|st.runWrites| + 1] == run
      && RunHistory([RunDispatching, run.state])
      && (run.state == RunFailed <==> PromptFails(req, w))
    ensures var sess := st.sessions[req.sessionId]; var t := PromptStore(st, req, w);
      match NodeReply(req, w)
      case Ok(run) =>
        && t.runs == st.runs[req.runId := run]
        && |t.audits| == |st.audits| + 1 && st.audits <= t.audits
        && var a := t.audits[|st.audits|];
          && a.entityType == "run" && a.entityId == req.runId
          && (a.action == "streaming" <==> run.state == RunStreaming)
          && (a.action == "completed" <==> run.state == RunCompleted)
          && (a.action == "cancelled" <==> run.state == RunCancelled)
          && (a.action == "failed" <==> run.state == RunFailed)
      case Err(error) =>
        && t.audits == st.audits
        && req.runId in t.runs && FailureRecord(t.runs[req.runId], sess, req.runId, req.input, error)
  {
    var sess, reply := st.sessions[req.sessionId], NodeReply(req, w);
    if reply.Ok? { ReplyIsSettled(req, w); }
    WritesCompose(st, sess, req, reply);
  }

  /** The four writes of a prompt, taken together, for any reply that belongs to the request. */
  lemma WritesCompose(st: Store, sess: Session, req: PromptRequest, reply: Result<Run>)
    requires Keyed(st) && req.sessionId in st.sessions && sess == st.sessions[req.sessionId]
    requires reply.Ok? ==> reply.value.id == req.runId
    ensures var t := Settled(Dispatched(st, sess, req), sess, req, reply); var run := FinalRun(sess, req, reply);
      && Keyed(t)
      && t.runs == st.runs[req.runId := run]
      && t.sessions == st.sessions[req.sessionId := FinalSession(sess, req, reply)]
      && t.containers == st.containers
      && t.runWrites == st.runWrites + [ActivityRun(sess, req), run]
  {
    var run, final := FinalRun(sess, req, reply), FinalSession(sess, req, reply);
    var streaming := StreamingSession(sess, req.runId);
    assert st.runs[req.runId := ActivityRun(sess, req)][req.runId := run] == st.runs[req.runId := run];
    assert st.sessions[req.sessionId := streaming][req.sessionId := final] == st.sessions[req.sessionId := final];
    assert st.runWrites + [ActivityRun(sess, req)] + [run] == st.runWrites + [ActivityRun(sess, req), run];
  }

  // ----- Activities.Cancel -----

  function CancelStore(st: Store, sessionId: string): Store
    requires sessionId in st.sessions
  {
    PutSession(st, st.sessions[sessionId].(state := SessionCancelling))
  }

  // ----- SessionWorkflow -----

  /** The state a session workflow holds. */
  datatype Mirror = Mirror(session: Session, lastRun: Run)

  /** What `NewID` returns. */
  type NewId = id: string | id != "" witness "run"

  /** An update to the workflow of a session; `nodeOk` says whether the node accepted the cancel. A
      prompt may come without a run id; `freshId` is the one generated for it then. */
  datatype Update =
    | PromptUpdate(runId: string, freshId: NewId, input: string, world: World)
    | CancelUpdate(runId: string, nodeOk: bool)

  function RequestOf(sessionId: string, u: Update): PromptRequest
    requires u.PromptUpdate?
  {
    PromptRequest(sessionId, if u.runId == "" then u.freshId else u.runId, u.input)
  }

  function AfterPrompt(m: Mirror, run: Run): Mirror {
    var state := if run.state == RunFailed then SessionFailed else SessionWaitingInput;
    Mirror(m.session.(activeRunId := "", state := state), run)
  }

  function AfterCancel(m: Mirror): Mirror {
    m.(session := m.session.(state := SessionCancelling))
  }

  /** Store and workflow after one update: an activity that errors leaves the workflow as it was. */
  function Handle(st: Store, nodes: set<string>, m: Mirror, sessionId: string, u: Update): (Store, Mirror) {
    if !Promptable(st, nodes, sessionId) then (st, m)
    else
      match u
      case PromptUpdate(_, _, _, w) =>
        var req := RequestOf(sessionId, u);
        (PromptStore(st, req, w), AfterPrompt(m, FinalRun(st.sessions[sessionId], req, NodeReply(req, w))))
      case CancelUpdate(_, nodeOk) =>
        (CancelStore(st, sessionId), if nodeOk then AfterCancel(m) else m)
  }

  function HandleAll(st: Store, nodes: set<string>, m: Mirror, sessionId: string, updates: seq<Update>)
    : (Store, Mirror)
  {
    if updates == [] then (st, m)
    else
      var before := HandleAll(st, nodes, m, sessionId, updates[..|updates| - 1]);
      Handle(before.0, nodes, before.1, sessionId, updates[|updates| - 1])
  }

  /** The workflow's session state is the stored one. */
  ghost predicate Mirrors(st: Store, m: Mirror, sessionId: string) {
    Keyed(st) && sessionId in st.sessions && st.sessions[sessionId].state == m.session.state
  }

  /** One update keeps the mirror, except exactly a cancel the node refuses after the store has been
      written, when the session was not already being cancelled. */
  lemma MirrorExact(st: Store, nodes: set<string>, m: Mirror, sessionId: string, u: Update)
    requires Mirrors(st, m, sessionId)
    ensures var after := Handle(st, nodes, m, sessionId, u);
      && Keyed(after.0)
      && (Mirrors(after.0, after.1, sessionId) <==> !Diverges(st, nodes, m, sessionId, u))
  {
    if Promptable(st, nodes, sessionId) && u.PromptUpdate? {
      PromptSettles(st, RequestOf(sessionId, u), u.world);
    }
  }

  /** A cancel that is written and then refused, on a session not already being cancelled. */
  predicate Diverges(st: Store, nodes: set<string>, m: Mirror, sessionId: string, u: Update) {
    u.CancelUpdate? && !u.nodeOk && Promptable(st, nodes, sessionId) && m.session.state != SessionCancelling
  }

  /** The workflow mirrors the store after every update of the sequence. */
  ghost predicate MirroredThroughout(
    st: Store, nodes: set<string>, m: Mirror, sessionId: string, updates: seq<Update>)
  {
    var after := HandleAll(st, nodes, m, sessionId, updates);
    && Mirrors(after.0, after.1, sessionId)
    && (updates == [] || MirroredThroughout(st, nodes, m, sessionId, updates[..|updates| - 1]))
  }

  predicate NeverDiverges(st: Store, nodes: set<string>, m: Mirror, sessionId: string, updates: seq<Update>) {
    updates == [] ||
    var init := updates[..|updates| - 1];
    var before := HandleAll(st, nodes, m, sessionId, init);
    && NeverDiverges(st, nodes, m, sessionId, init)
    && !Diverges(before.0, nodes, before.1, sessionId, updates[|updates| - 1])
  }

  /** Over every sequence of updates the workflow mirrors the store throughout if and only if no cancel
      among them is written and then refused, on a session not already being cancelled. */
  lemma {:induction false} MirrorKeptExact(
    st: Store, nodes: set<string>, m: Mirror, sessionId: string, updates: seq<Update>)
    requires Mirrors(st, m, sessionId)
    ensures MirroredThroughout(st, nodes, m, sessionId, updates) <==> NeverDiverges(st, nodes, m, sessionId, updates)
  {
    if updates != [] {
      var init := updates[..|updates| - 1];
      MirrorKeptExact(st, nodes, m, sessionId, init);
      var before := HandleAll(st, nodes, m, sessionId, init);
      if Mirrors(before.0, before.1, sessionId) {
        MirrorExact(before.0, nodes, before.1, sessionId, updates[|updates| - 1]);
      }
    }
  }

  /** From creation on, and after every update of any sequence in which nodes accept the cancels they
      are sent, the session state the workflow reports is the stored one. */
  lemma {:induction false} WorkflowMirrorsStore(st: Store, nodes: set<string>, created: Session, updates: seq<Update>)
    requires Keyed(st)
    requires forall u :: u in updates && u.CancelUpdate? ==> u.nodeOk
    ensures var after := HandleAll(PutSession(st, created), nodes, Mirror(created, ZERO_RUN), created.id, updates);
      Mirrors(after.0, after.1, created.id)
  {
    if updates != [] {
      var init := updates[..|updates| - 1];
      WorkflowMirrorsStore(st, nodes, created, init);
      var before := HandleAll(PutSession(st, created), nodes, Mirror(created, ZERO_RUN), created.id, init);
      MirrorExact(before.0, nodes, before.1, created.id, updates[|updates| - 1]);
    }
  }

  /** The last run the workflow reports is the zero run or the stored record under its id. */
  ghost predicate LastRunStored(st: Store, m: Mirror) {
    m.lastRun == ZERO_RUN || (m.lastRun.id in st.runs && st.runs[m.lastRun.id] == m.lastRun)
  }

  /** From creation on, after any sequence of updates, refused cancels or not. */
  lemma {:induction false} LastRunIsStored(st: Store, nodes: set<string>, created: Session, updates: seq<Update>)
    requires Keyed(st)
    ensures var after := HandleAll(PutSession(st, created), nodes, Mirror(created, ZERO_RUN), created.id, updates);
      Keyed(after.0) && LastRunStored(after.0, after.1)
  {
    if updates != [] {
      var init, u := updates[..|updates| - 1], updates[|updates| - 1];
      LastRunIsStored(st, nodes, created, init);
      var before := HandleAll(PutSession(st, created), nodes, Mirror(created, ZERO_RUN), created.id, init);
      if u.PromptUpdate? && Promptable(before.0, nodes, created.id) {
        PromptSettles(before.0, RequestOf(created.id, u), u.world);
      }
    }
  }

  /** The active run id is mirrored after a prompt exactly when the node call did not error. */
  lemma ActiveRunMirrorExact(st: Store, nodes: set<string>, m: Mirror, sessionId: string, u: Update)
    requires Mirrors(st, m, sessionId) && u.PromptUpdate? && Promptable(st, nodes, sessionId)
    ensures var after := Handle(st, nodes, m, sessionId, u);
      && sessionId in after.0.sessions
      && (after.0.sessions[sessionId].activeRunId == after.1.session.activeRunId
          <==> NodeReply(RequestOf(sessionId, u), u.world).Ok?)
  {
    PromptSettles(st, RequestOf(sessionId, u), u.world);
  }

  /** A store with one session, its container and its node "n". */
  function OneSession(session: Session): Store {
    Store(map[session.id := session], map[], map[session.containerId := "n"], [], [], [])
  }

  /** A cancel refused by the node: the store says Cancelling, the workflow still Active. */
  lemma RefusedCancelDiverges(runId: string)
    ensures var session := Session("s", "c", "a", SessionActive, "");
            var after := Handle(OneSession(session), {"n"}, Mirror(session, ZERO_RUN), "s", CancelUpdate(runId, false));
      && "s" in after.0.sessions && after.0.sessions["s"].state == SessionCancelling
      && after.1.session.state == SessionActive
  {
  }

  /** A prompt whose node sends nothing before it errs: the store keeps the run active, the workflow does not. */
  lemma NodeErrorDiverges(error: string)
    ensures var session := Session("s", "c", "a", SessionActive, "");
            var u := PromptUpdate("r", "r", "hi", World("c", "a", Accepted, [], 0, 0, error));
            var after := Handle(OneSession(session), {"n"}, Mirror(session, ZERO_RUN), "s", u);
      && "s" in after.0.sessions && after.0.sessions["s"].activeRunId == "r"
      && after.1.session.activeRunId == ""
  {
    var session := Session("s", "c", "a", SessionActive, "");
    var w := World("c", "a", Accepted, [], 0, 0, error);
    var req := PromptRequest("s", "r", "hi");
    PromptGrammar(session, "c", "r", "hi", Accepted, []);
    Relay.RelayExact(SupervisorRun(req, w), SupervisorItems(req, w), 0, 0, error);
    assert NodeReply(req, w).Err?;
    PromptSettles(OneSession(session), req, w);
  }

  // ----- Session histories -----

  function StatesOf(sessions: seq<Session>): seq<SessionState> {
    seq(|sessions|, i requires 0 <= i < |sessions| => sessions[i].state)
  }

  predicate Fails(sessionId: string, u: Update) {
    u.PromptUpdate? && PromptFails(RequestOf(sessionId, u), u.world)
  }

  /** The session states one update writes. */
  function Writes(sessionId: string, u: Update): seq<SessionState> {
    if u.CancelUpdate? then [SessionCancelling]
    else [SessionStreaming, if Fails(sessionId, u) then SessionFailed else SessionWaitingInput]
  }

  function AllWrites(sessionId: string, updates: seq<Update>): seq<SessionState> {
    if updates == [] then []
    else AllWrites(sessionId, updates[..|updates| - 1]) + Writes(sessionId, updates[|updates| - 1])
  }

  lemma HandleWrites(st: Store, nodes: set<string>, m: Mirror, sessionId: string, u: Update)
    requires Keyed(st) && Promptable(st, nodes, sessionId)
    ensures var t := Handle(st, nodes, m, sessionId, u).0;
      && Keyed(t) && Promptable(t, nodes, sessionId)
      && StatesOf(t.sessionWrites) == StatesOf(st.sessionWrites) + Writes(sessionId, u)
  {
    if u.PromptUpdate? {
      var req := RequestOf(sessionId, u);
      PromptSettles(st, req, u.world);
      var sess, reply := st.sessions[sessionId], NodeReply(req, u.world);
      assert PromptStore(st, req, u.world).sessionWrites
          == st.sessionWrites + [StreamingSession(sess, req.runId)] + [FinalSession(sess, req, reply)];
    }
  }

  lemma {:induction false} HandleAllWrites(
    st: Store, nodes: set<string>, m: Mirror, sessionId: string, updates: seq<Update>)
    requires Keyed(st) && Promptable(st, nodes, sessionId)
    ensures var t := HandleAll(st, nodes, m, sessionId, updates).0;
      && Keyed(t) && Promptable(t, nodes, sessionId)
      && StatesOf(t.sessionWrites) == StatesOf(st.sessionWrites) + AllWrites(sessionId, updates)
  {
    if updates != [] {
      var init, u := updates[..|updates| - 1], updates[|updates| - 1];
      HandleAllWrites(st, nodes, m, sessionId, init);
      var before := HandleAll(st, nodes, m, sessionId, init);
      HandleWrites(before.0, nodes, before.1, sessionId, u);
      assert StatesOf(st.sessionWrites) + AllWrites(sessionId, init) + Writes(sessionId, u)
          == StatesOf(st.sessionWrites) + (AllWrites(sessionId, init) + Writes(sessionId, u));
    }
  }

  lemma HistoryGrows(h: seq<SessionState>, w: seq<SessionState>)
    requires h != [] && 1 <= |w| <= 2
    ensures SessionHistory(h + w) <==>
      && SessionHistory(h) && ValidSessionTransition(h[|h| - 1], w[0])
      && (|w| == 2 ==> ValidSessionTransition(w[0], w[1]))
  {
    var all := h + w;
    if SessionHistory(all) {
      forall i | 0 <= i < |h| - 1 ensures ValidSessionTransition(h[i], h[i + 1]) {
        assert ValidSessionTransition(all[i], all[i + 1]);
      }
      assert ValidSessionTransition(all[|h| - 1], all[|h|]);
      assert |w| == 2 ==> ValidSessionTransition(all[|h|], all[|h| + 1]);
    }
  }

  /** No update may follow a failed prompt, and no prompt may follow a cancel. */
  predicate MayFollow(sessionId: string, u: Update, next: Update) {
    !Fails(sessionId, u) && !(u.CancelUpdate? && next.PromptUpdate?)
  }

  predicate LegalUpdates(sessionId: string, start: SessionState, updates: seq<Update>) {
    && (updates != [] ==> ValidSessionTransition(start, Writes(sessionId, updates[0])[0]))
    && forall i :: 0 <= i < |updates| - 1 ==> MayFollow(sessionId, updates[i], updates[i + 1])
  }

  lemma LegalOneMore(sessionId: string, start: SessionState, init: seq<Update>, u: Update)
    ensures LegalUpdates(sessionId, start, init + [u]) <==>
      && LegalUpdates(sessionId, start, init)
      && if init == [] then ValidSessionTransition(start, Writes(sessionId, u)[0])
        else MayFollow(sessionId, init[|init| - 1], u)
  {
    var all := init + [u];
    if LegalUpdates(sessionId, start, all) {
      forall i | 0 <= i < |init| - 1 ensures MayFollow(sessionId, init[i], init[i + 1]) {
        assert MayFollow(sessionId, all[i], all[i + 1]);
      }
      assert init != [] ==> MayFollow(sessionId, all[|init| - 1], all[|init|]);
    }
  }

  lemma TableAllows(sessionId: string, u: Update, next: Update)
    ensures var w := Writes(sessionId, u);
      && (|w| == 2 ==> ValidSessionTransition(w[0], w[1]))
      && (ValidSessionTransition(w[|w| - 1], Writes(sessionId, next)[0]) <==> MayFollow(sessionId, u, next))
  {
  }

  /** The state in force after some updates is the last one the last of them wrote. */
  function Latest(sessionId: string, start: SessionState, updates: seq<Update>): SessionState {
    if updates == [] then start
    else var w := Writes(sessionId, updates[|updates| - 1]); w[|w| - 1]
  }

  lemma LatestIsLast(sessionId: string, start: SessionState, updates: seq<Update>)
    ensures var states := [start] + AllWrites(sessionId, updates);
      states[|states| - 1] == Latest(sessionId, start, updates)
  {
  }

  lemma {:induction false} WritesLegal(sessionId: string, start: SessionState, updates: seq<Update>)
    ensures SessionHistory([start] + AllWrites(sessionId, updates)) <==> LegalUpdates(sessionId, start, updates)
  {
    if updates != [] {
      var init, u := updates[..|updates| - 1], updates[|updates| - 1];
      WritesLegal(sessionId, start, init);
      WritesLegalOneMore(sessionId, start, init, u);
      SplitLast(updates);
    }
  }

  lemma LatestAllows(sessionId: string, start: SessionState, init: seq<Update>, u: Update)
    ensures var w := Writes(sessionId, u);
      (ValidSessionTransition(Latest(sessionId, start, init), w[0])
        && (|w| == 2 ==> ValidSessionTransition(w[0], w[1]))) <==>
      if init == [] then ValidSessionTransition(start, w[0]) else MayFollow(sessionId, init[|init| - 1], u)
  {
    TableAllows(sessionId, u, u);
    if init != [] { TableAllows(sessionId, init[|init| - 1], u); }
  }

  lemma AllWritesOneMore(sessionId: string, init: seq<Update>, u: Update)
    ensures AllWrites(sessionId, init + [u]) == AllWrites(sessionId, init) + Writes(sessionId, u)
  {
    assert (init + [u])[..|init|] == init;
  }

  lemma WritesLegalOneMore(sessionId: string, start: SessionState, init: seq<Update>, u: Update)
    requires SessionHistory([start] + AllWrites(sessionId, init)) <==> LegalUpdates(sessionId, start, init)
    ensures SessionHistory([start] + AllWrites(sessionId, init + [u])) <==> LegalUpdates(sessionId, start, init + [u])
  {
    var written, w := AllWrites(sessionId, init), Writes(sessionId, u);
    AllWritesOneMore(sessionId, init, u);
    assert [start] + (written + w) == [start] + written + w;
    HistoryGrows([start] + written, w);
    LatestIsLast(sessionId, start, init);
    LegalOneMore(sessionId, start, init, u);
    LatestAllows(sessionId, start, init, u);
  }

  /** Over every sequence of prompts and cancels, the session states written obey the session table
      if and only if the first write is allowed, no update follows a failed prompt and no prompt
      follows a cancel. Nothing in the handlers refuses the other sequences. */
  lemma SessionHistoryExact(st: Store, nodes: set<string>, m: Mirror, sessionId: string, updates: seq<Update>)
    requires Keyed(st) && Promptable(st, nodes, sessionId)
    ensures var t := HandleAll(st, nodes, m, sessionId, updates).0;
      && |st.sessionWrites| <= |t.sessionWrites|
      && (SessionHistory([st.sessions[sessionId].state] + StatesOf(t.sessionWrites)[|st.sessionWrites|..])
          <==> LegalUpdates(sessionId, st.sessions[sessionId].state, updates))
  {
    HandleAllWrites(st, nodes, m, sessionId, updates);
    var t := HandleAll(st, nodes, m, sessionId, updates).0;
    assert StatesOf(t.sessionWrites)[|st.sessionWrites|..] == AllWrites(sessionId, updates);
    WritesLegal(sessionId, st.sessions[sessionId].state, updates);
  }

  /** For instance a prompt after a cancel on an Active session: Streaming is written over Cancelling. */
  lemma PromptAfterCancelIllegal(w: World)
    ensures var session := Session("s", "c", "a", SessionActive, "");
            var t := HandleAll(OneSession(session), {"n"}, Mirror(session, ZERO_RUN), "s",
                               [CancelUpdate("r", true), PromptUpdate("q", "q", "hi", w)]).0;
      !SessionHistory([SessionActive] + StatesOf(t.sessionWrites))
  {
    var session := Session("s", "c", "a", SessionActive, "");
    var updates := [CancelUpdate("r", true), PromptUpdate("q", "q", "hi", w)];
    SessionHistoryExact(OneSession(session), {"n"}, Mirror(session, ZERO_RUN), "s", updates);
    assert !MayFollow("s", updates[0], updates[1]);
    var t := HandleAll(OneSession(session), {"n"}, Mirror(session, ZERO_RUN), "s", updates).0;
    assert StatesOf(t.sessionWrites)[0..] == StatesOf(t.sessionWrites);
  }

  // ----- The objects -----

  class MemoryStore {
    var sessions: map<string, Session>
    var runs: map<string, Run>
    var containers: map<string, string>
    var audits: seq<Audit>
    ghost var runWrites: seq<Run>
    ghost var sessionWrites: seq<Session>

    ghost function View(): Store
      reads this
    {
      Store(sessions, runs, containers, audits, runWrites, sessionWrites)
    }

    method UpsertSession(s: Session)
      modifies this
      ensures View() == PutSession(old(View()), s)
    {
      sessions := sessions[s.id := s];
      sessionWrites := sessionWrites + [s];
    }

    method UpsertRun(r: Run)
      modifies this
      ensures View() == PutRun(old(View()), r)
    {
      runs := runs[r.id := r];
      runWrites := runWrites + [r];
    }

    method AppendAudit(a: Audit)
      modifies this
      ensures View() == old(View()).(audits := old(audits) + [a])
    {
      audits := audits + [a];
    }

    /** The node of the session's container, or why there is none. */
    method Locate(nodes: set<string>, sessionId: string) returns (r: Result<Session>)
      ensures r.Ok? <==> Promptable(View(), nodes, sessionId)
      ensures r.Ok? <==>
        && sessionId in sessions && sessions[sessionId].containerId in containers
        && (|nodes| == 1 || containers[sessions[sessionId].containerId] in nodes - {""})
      ensures r.Ok? ==> r.value == sessions[sessionId]
    {
      if sessionId !in sessions {
        return Err("not found");
      }
      var sess := sessions[sessionId];
      if sess.containerId !in containers {
        return Err("not found");
      }
      var nodeId := containers[sess.containerId];
      if nodeId != "" && nodeId in nodes {
        return Ok(sess);
      }
      if |nodes| == 1 {
        return Ok(sess);
      }
      return Err("node client not configured");
    }
  }

  class PromptActivities {
    const store: MemoryStore
    const nodes: set<string>

    constructor (store: MemoryStore, nodes: set<string>)
      ensures this.store == store && this.nodes == nodes
    {
      this.store, this.nodes := store, nodes;
    }

    /** `Activities.Prompt` with nobody else writing meanwhile; an empty run id is replaced by a fresh one. */
    method Prompt(request: PromptRequest, freshId: NewId, w: World) returns (r: Result<Run>, published: seq<Event>)
      requires Keyed(store.View())
      modifies store
      ensures Keyed(store.View())
      ensures r.Ok? <==> Promptable(old(store.View()), nodes, request.sessionId)
      ensures r.Err? ==> store.View() == old(store.View()) && published == []
      ensures r.Ok? ==>
        var req := request.(runId := if request.runId == "" then freshId else request.runId);
        && store.View() == PromptStore(old(store.View()), req, w)
        && (match NodeReply(req, w)
            case Ok(run) => r.value == run
            case Err(error) => FailureRecord(r.value, old(store.sessions)[req.sessionId], req.runId, req.input, error))
        && req.runId in store.runs && store.runs[req.runId] == r.value
        && published == [Event(req.sessionId, req.runId, "run.started", 1, "", "", "")] + NodeEvents(req, w)
        && var n := |old(store.runWrites)|;
          && |store.runWrites| == n + 2
          && DispatchRecord(store.runWrites[n], old(store.sessions)[req.sessionId], req.runId, req.input)
    {
      var located := store.Locate(nodes, request.sessionId);
      if located.Err? {
        return Err(located.error), [];
      }
      var sess, req := located.value, request;
      var run := Run(
        req.runId, sess.id, sess.containerId, sess.agentInstanceId, RunDispatching, req.input, "", false, 0);
      if run.id == "" {
        run := run.(id := freshId);
        req := req.(runId := freshId);
      }
      PromptSettles(store.View(), req, w);
      sess := sess.(state := SessionStreaming, activeRunId := run.id);
      store.UpsertSession(sess);
      store.UpsertRun(run);
      published := [Event(sess.id, run.id, "run.started", 1, "", "", "")];
      var reply := NodeReply(req, w);
      published := published + NodeEvents(req, w);
      match reply {
        case Err(error) =>
          run := run.(state := RunFailed, error := error, completed := true, sequence := run.sequence + 1);
          store.UpsertRun(run);
          sess := sess.(state := SessionFailed);
          store.UpsertSession(sess);
          r := Ok(run);
        case Ok(final) =>
          store.UpsertRun(final);
          var state := if final.state == RunFailed then SessionFailed else SessionWaitingInput;
          sess := sess.(activeRunId := "", state := state);
          store.UpsertSession(sess);
          store.AppendAudit(Audit("run", final.id, RunAction(final.state)));
          r := Ok(final);
      }
    }

    /** `Activities.Cancel` with nobody else writing meanwhile: the session is written before the node is asked. */
    method Cancel(sessionId: string, runId: string, nodeOk: bool) returns (ok: bool, published: seq<Event>)
      modifies store
      ensures published == if Promptable(old(store.View()), nodes, sessionId)
                           then [Event(sessionId, runId, "run.cancelling", 0, "", "", "")] else []
      ensures ok <==> nodeOk && Promptable(old(store.View()), nodes, sessionId)
      ensures store.View() == if Promptable(old(store.View()), nodes, sessionId)
                              then CancelStore(old(store.View()), sessionId) else old(store.View())
      ensures Promptable(old(store.View()), nodes, sessionId) && Keyed(old(store.View())) ==>
        && store.runs == old(store.runs) && store.audits == old(store.audits)
        && store.sessions == old(store.sessions)[
             sessionId := old(store.sessions)[sessionId].(state := SessionCancelling)]
    {
      var located := store.Locate(nodes, sessionId);
      if located.Err? {
        return false, [];
      }
      store.UpsertSession(located.value.(state := SessionCancelling));
      published := [Event(sessionId, runId, "run.cancelling", 0, "", "", "")];
      ok := nodeOk;
    }
  }

  class SessionWorkflow {
    const activities: PromptActivities
    var session: Session
    var lastRun: Run

    ghost function View(): Mirror
      reads this
    {
      Mirror(session, lastRun)
    }

    constructor (activities: PromptActivities, session: Session)
      ensures this.activities == activities && View() == Mirror(session, ZERO_RUN)
    {
      this.activities, this.session, this.lastRun := activities, session, ZERO_RUN;
    }

    method OnPrompt(sessionId: string, runId: string, freshId: NewId, input: string, w: World)
      requires Keyed(activities.store.View())
      modifies this, activities.store
      ensures (activities.store.View(), View()) ==
        Handle(old(activities.store.View()), activities.nodes, old(View()), sessionId,
          PromptUpdate(runId, freshId, input, w))
      ensures var id := if runId == "" then freshId else runId;
        if Promptable(old(activities.store.View()), activities.nodes, sessionId) then
          && id in activities.store.runs && lastRun == activities.store.runs[id]
          && session == old(session).(
               activeRunId := "", state := if lastRun.state == RunFailed then SessionFailed else SessionWaitingInput)
        else lastRun == old(lastRun) && session == old(session)
    {
      var r, _ := activities.Prompt(PromptRequest(sessionId, runId, input), freshId, w);
      if r.Ok? {
        lastRun := r.value;
        var state := if r.value.state == RunFailed then SessionFailed else SessionWaitingInput;
        session := session.(activeRunId := "", state := state);
      }
    }

    method OnCancel(sessionId: string, runId: string, nodeOk: bool)
      modifies this, activities.store
      ensures (activities.store.View(), View()) ==
        Handle(old(activities.store.View()), activities.nodes, old(View()), sessionId, CancelUpdate(runId, nodeOk))
      ensures lastRun == old(lastRun) && session ==
        if nodeOk && Promptable(old(activities.store.View()), activities.nodes, sessionId)
        then old(session).(state := SessionCancelling) else old(session)
    {
      var ok, _ := activities.Cancel(sessionId, runId, nodeOk);
      if ok {
        session := session.(state := SessionCancelling);
      }
    }
  }
}
