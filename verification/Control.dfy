/** Entities of the control plane and the transition tables of control/state.go.
    Wall-clock fields are left out, except that `completed` says whether `CompletedAt` is set. */
module Control {

  datatype Option<+T> = None | Some(value: T)

  datatype Result<+T> = Ok(value: T) | Err(error: string)

  /** `RunUnset` is the empty string a zero `Run` carries. */
  datatype RunState = RunUnset | RunQueued | RunDispatching | RunStreaming | RunCompleted | RunCancelled | RunFailed

  datatype SessionState =
    | SessionCreating | SessionActive | SessionWaitingInput | SessionStreaming
    | SessionCancelling | SessionCompleted | SessionFailed | SessionArchived

  datatype Run = Run(
    id: string, sessionId: string, containerId: string, agentInstanceId: string,
    state: RunState, input: string, error: string, completed: bool, sequence: nat)

  const ZERO_RUN := Run("", "", "", "", RunUnset, "", "", false, 0)

  datatype Session = Session(
    id: string, containerId: string, agentInstanceId: string, state: SessionState, activeRunId: string)

  /** `acp.StreamEvent`: one `session/update` an agent emits. */
  datatype StreamEvent = StreamEvent(
    sessionId: string, runId: string, kind: string, text: string, metadata: string, final: bool, error: string)

  /** The zero value a receive on a closed channel yields. */
  const ZERO_UPDATE := StreamEvent("", "", "", "", "", false, "")

  /** `session.Event`; `text`, `error` and `metadata` are the keys of its data map. */
  datatype Event = Event(
    sessionId: string, runId: string, kind: string, sequence: nat, text: string, error: string, metadata: string)

  const ZERO_EVENT := Event("", "", "", 0, "", "", "")

  /** `rpc.PromptStreamItem` */
  datatype Item = Item(event: Event, run: Run, final: bool, error: string)

  function RunTransitions(current: RunState): set<RunState> {
    match current
    case RunQueued => {RunDispatching, RunCancelled, RunFailed}
    case RunDispatching => {RunStreaming, RunCompleted, RunCancelled, RunFailed}
    case RunStreaming => {RunCompleted, RunCancelled, RunFailed}
    case _ => {}
  }

  function SessionTransitions(current: SessionState): set<SessionState> {
    match current
    case SessionCreating => {SessionActive, SessionFailed}
    case SessionActive =>
      {SessionWaitingInput, SessionStreaming, SessionCancelling, SessionCompleted, SessionFailed, SessionArchived}
    case SessionWaitingInput =>
      {SessionStreaming, SessionCancelling, SessionCompleted, SessionFailed, SessionArchived}
    case SessionStreaming =>
      {SessionWaitingInput, SessionActive, SessionCancelling, SessionCompleted, SessionFailed}
    case SessionCancelling => {SessionCompleted, SessionFailed, SessionArchived}
    case SessionCompleted => {SessionArchived, SessionActive}
    case SessionFailed => {SessionArchived, SessionActive}
    case SessionArchived => {}
  }

  predicate ValidRunTransition(current: RunState, next: RunState) {
    current == next || next in RunTransitions(current)
  }

  predicate ValidSessionTransition(current: SessionState, next: SessionState) {
    current == next || next in SessionTransitions(current)
  }

  predicate Terminal(s: RunState) {
    s == RunCompleted || s == RunCancelled || s == RunFailed
  }

  /** Every adjacent pair of a run history is accepted. */
  ghost predicate RunHistory(states: seq<RunState>) {
    forall i :: 0 <= i < |states| - 1 ==> ValidRunTransition(states[i], states[i + 1])
  }

  ghost predicate SessionHistory(states: seq<SessionState>) {
    forall i :: 0 <= i < |states| - 1 ==> ValidSessionTransition(states[i], states[i + 1])
  }

  /** The run table read by target: what a run can have been before. */
  lemma RunTableByTarget(current: RunState, next: RunState)
    ensures current == next ==> ValidRunTransition(current, next)
    ensures current != next ==>
      ValidRunTransition(current, next) ==
      match next
      case RunUnset => false
      case RunQueued => false
      case RunDispatching => current == RunQueued
      case RunStreaming => current == RunDispatching
      case RunCompleted => current in {RunDispatching, RunStreaming}
      case RunCancelled => current in {RunQueued, RunDispatching, RunStreaming}
      case RunFailed => current in {RunQueued, RunDispatching, RunStreaming}
  {
  }

  /** The session table read by target. */
  lemma SessionTableByTarget(current: SessionState, next: SessionState)
    ensures current == next ==> ValidSessionTransition(current, next)
    ensures current != next ==>
      ValidSessionTransition(current, next) ==
      match next
      case SessionCreating => false
      case SessionActive => current in {SessionCreating, SessionStreaming, SessionCompleted, SessionFailed}
      case SessionWaitingInput => current in {SessionActive, SessionStreaming}
      case SessionStreaming => current in {SessionActive, SessionWaitingInput}
      case SessionCancelling => current in {SessionActive, SessionWaitingInput, SessionStreaming}
      case SessionCompleted => current in {SessionActive, SessionWaitingInput, SessionStreaming, SessionCancelling}
      case SessionFailed =>
        current in {SessionCreating, SessionActive, SessionWaitingInput, SessionStreaming, SessionCancelling}
      case SessionArchived =>
        current in {SessionActive, SessionWaitingInput, SessionCancelling, SessionCompleted, SessionFailed}
  {
  }

  /** In a legal history a run that has ended stays as it ended, and an archived session archived. */
  lemma {:induction false} EndIsForever(runs: seq<RunState>, sessions: seq<SessionState>, i: nat, j: nat)
    requires RunHistory(runs) && SessionHistory(sessions)
    ensures i <= j < |runs| && Terminal(runs[i]) ==> runs[j] == runs[i]
    ensures i <= j < |sessions| && sessions[i] == SessionArchived ==> sessions[j] == SessionArchived
    decreases j
  {
    if i < j {
      EndIsForever(runs, sessions, i, j - 1);
      if j < |runs| { assert ValidRunTransition(runs[j - 1], runs[j - 1 + 1]); }
      if j < |sessions| { assert ValidSessionTransition(sessions[j - 1], sessions[j - 1 + 1]); }
    }
  }
}
