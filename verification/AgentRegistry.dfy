/** The supervisor's registries (Manager in runtime/supervisor/manager.go): agents by key, sessions by
    id. `EnsureAgent` looks its key up under one hold of the lock and installs the started agent under
    another; `CreateSession` and `LoadSession` look their agent up under one hold and store the session
    under another. Other calls can run in between. */
module AgentRegistry {
  import opened Control

  /** An installed agent instance. */
  datatype Handle = Handle(instanceId: string, agentId: string, digest: string)

  /** A session call that has found its agent and not yet stored the session. */
  datatype Opening = Opening(sessionId: string, instanceId: string)

  /** `installing` and `opening` hold the calls between their two lock holds; `issued` all instance ids ever made. */
  datatype State = State(
    agents: map<string, Handle>, sessions: map<string, string>, installing: map<nat, Handle>,
    opening: map<nat, Opening>, issued: set<string>)

  datatype Step =
    | BeginEnsure(call: nat, agentId: string, digest: string, freshId: string)
    | StartFails(call: nat)
    | Install(call: nat)
    | LookUp(call: nat, sessionId: string, instanceId: string)
    | Refuse(call: nat)
    | StoreSession(call: nat)

  const INIT := State(map[], map[], map[], map[], {})

  function AgentKey(agentId: string, digest: string): string {
    agentId + ":" + digest
  }

  function KeyOf(h: Handle): string {
    AgentKey(h.agentId, h.digest)
  }

  /** `agentByID` finds something. */
  predicate Findable(s: State, instanceId: string) {
    exists k :: k in s.agents && s.agents[k].instanceId == instanceId
  }

  predicate Enabled(s: State, step: Step) {
    match step
    case BeginEnsure(call, agentId, digest, freshId) => call !in s.installing && freshId !in s.issued
    case StartFails(call) => call in s.installing
    case Install(call) => call in s.installing
    case LookUp(call, _, _) => call !in s.opening
    case Refuse(call) => call in s.opening
    case StoreSession(call) => call in s.opening
  }

  function Apply(s: State, step: Step): State
    requires Enabled(s, step)
  {
    match step
    case BeginEnsure(call, agentId, digest, freshId) =>
      if AgentKey(agentId, digest) in s.agents then s
      else s.(installing := s.installing[call := Handle(freshId, agentId, digest)], issued := s.issued + {freshId})
    case StartFails(call) => s.(installing := s.installing - {call})
    case Install(call) =>
      var h := s.installing[call];
      s.(agents := s.agents[KeyOf(h) := h], installing := s.installing - {call})
    case LookUp(call, sessionId, instanceId) =>
      if Findable(s, instanceId) then s.(opening := s.opening[call := Opening(sessionId, instanceId)]) else s
    case Refuse(call) => s.(opening := s.opening - {call})
    case StoreSession(call) =>
      var o := s.opening[call];
      s.(sessions := s.sessions[o.sessionId := o.instanceId], opening := s.opening - {call})
  }

  function Next(s: State, step: Step): State {
    if Enabled(s, step) then Apply(s, step) else s
  }

  function Exec(s: State, steps: seq<Step>): State {
    if steps == [] then s else Next(Exec(s, steps[..|steps| - 1]), steps[|steps| - 1])
  }

  /** Calls with the same key do not overlap. */
  predicate Polite(s: State, step: Step) {
    step.BeginEnsure? ==>
      forall c :: c in s.installing ==> KeyOf(s.installing[c]) != AgentKey(step.agentId, step.digest)
  }

  predicate PoliteRun(s: State, steps: seq<Step>) {
    steps == [] ||
    (PoliteRun(s, steps[..|steps| - 1]) && Polite(Exec(s, steps[..|steps| - 1]), steps[|steps| - 1]))
  }

  /** Agents sit under their own keys, and instance ids are all distinct. Holds in every run. */
  ghost predicate Ids(s: State) {
    && (forall k :: k in s.agents ==> KeyOf(s.agents[k]) == k && s.agents[k].instanceId in s.issued)
    && (forall j, k :: j in s.agents && k in s.agents && j != k ==> s.agents[j].instanceId != s.agents[k].instanceId)
    && (forall c :: c in s.installing ==> s.installing[c].instanceId in s.issued)
    && (forall c, d :: c in s.installing && d in s.installing && c != d ==>
      s.installing[c].instanceId != s.installing[d].instanceId)
    && (forall c, k :: c in s.installing && k in s.agents ==> s.installing[c].instanceId != s.agents[k].instanceId)
  }

  /** The calls under way have keys of their own. Needs calls that do not overlap per key. */
  ghost predicate Keys(s: State) {
    && (forall c :: c in s.installing ==> KeyOf(s.installing[c]) !in s.agents)
    && (forall c, d :: c in s.installing && d in s.installing && c != d ==>
      KeyOf(s.installing[c]) != KeyOf(s.installing[d]))
  }

  /** The agent of every stored session, and of every session about to be stored, is found. */
  ghost predicate AllFound(s: State) {
    && (forall id :: id in s.sessions ==> Findable(s, s.sessions[id]))
    && (forall c :: c in s.opening ==> Findable(s, s.opening[c].instanceId))
  }

  ghost predicate Inv(s: State) {
    Ids(s) && Keys(s) && AllFound(s)
  }

  lemma IdsStep(s: State, step: Step)
    requires Ids(s)
    ensures Ids(Next(s, step))
  {
  }

  lemma {:induction false} IdsAfter(steps: seq<Step>)
    ensures Ids(Exec(INIT, steps))
  {
    if steps != [] {
      IdsAfter(steps[..|steps| - 1]);
      IdsStep(Exec(INIT, steps[..|steps| - 1]), steps[|steps| - 1]);
    }
  }

  lemma FindableGrows(s: State, t: State, instanceId: string)
    requires Findable(s, instanceId)
    requires forall k :: k in s.agents ==> k in t.agents && t.agents[k] == s.agents[k]
    ensures Findable(t, instanceId)
  {
    var k :| k in s.agents && s.agents[k].instanceId == instanceId;
    assert t.agents[k].instanceId == instanceId;
  }

  // ----- When sessions keep their agents -----

  /** A stored session, or one about to be stored, runs on the agent under key `k`. */
  predicate Serves(s: State, k: string) {
    && k in s.agents
    && ((exists id :: id in s.sessions && s.sessions[id] == s.agents[k].instanceId)
        || (exists c :: c in s.opening && s.opening[c].instanceId == s.agents[k].instanceId))
  }

  /** The step installs over an agent that some session runs on or is about to. */
  predicate TakesOver(s: State, step: Step) {
    step.Install? && Enabled(s, step) && Serves(s, KeyOf(s.installing[step.call]))
  }

  lemma TakeOverLoses(s: State, step: Step)
    requires Ids(s) && TakesOver(s, step)
    ensures !AllFound(Next(s, step))
  {
    var t, key := Next(s, step), KeyOf(s.installing[step.call]);
    var lost := s.agents[key].instanceId;
    assert !Findable(t, lost);
    if id :| id in s.sessions && s.sessions[id] == lost {
      assert id in t.sessions && t.sessions[id] == lost;
    } else {
      var c :| c in s.opening && s.opening[c].instanceId == lost;
      assert c in t.opening && t.opening[c].instanceId == lost;
    }
  }

  lemma InstallKeeps(s: State, step: Step)
    requires Ids(s) && AllFound(s) && step.Install? && Enabled(s, step) && !TakesOver(s, step)
    ensures AllFound(Next(s, step))
  {
    var t, key := Next(s, step), KeyOf(s.installing[step.call]);
    forall id | id in t.sessions ensures Findable(t, t.sessions[id]) {
      var k :| k in s.agents && s.agents[k].instanceId == s.sessions[id];
      assert k != key && t.agents[k] == s.agents[k];
    }
    forall c | c in t.opening ensures Findable(t, t.opening[c].instanceId) {
      var k :| k in s.agents && s.agents[k].instanceId == s.opening[c].instanceId;
      assert k != key && t.agents[k] == s.agents[k];
    }
  }

  lemma OtherKeeps(s: State, step: Step)
    requires AllFound(s) && !step.Install?
    ensures AllFound(Next(s, step))
  {
    var t := Next(s, step);
    assert t.agents == s.agents;
    forall id | id in t.sessions ensures Findable(t, t.sessions[id]) {
      if id in s.sessions { FindableGrows(s, t, s.sessions[id]); }
      if step.StoreSession? && Enabled(s, step) && id == s.opening[step.call].sessionId {
        FindableGrows(s, t, s.opening[step.call].instanceId);
      }
    }
    forall c | c in t.opening ensures Findable(t, t.opening[c].instanceId) {
      FindableGrows(s, t, t.opening[c].instanceId);
    }
  }

  /** One step loses the agent of a session, stored or about to be, if and only if it installs over
      an agent that such a session runs on. */
  lemma OverlapExact(s: State, step: Step)
    requires Ids(s) && AllFound(s)
    ensures AllFound(Next(s, step)) <==> !TakesOver(s, step)
  {
    if TakesOver(s, step) {
      TakeOverLoses(s, step);
    } else if step.Install? && Enabled(s, step) {
      InstallKeeps(s, step);
    } else if !step.Install? {
      OtherKeeps(s, step);
    }
  }

  /** Sessions keep their agents at every point of the run. */
  ghost predicate KeptThroughout(steps: seq<Step>) {
    AllFound(Exec(INIT, steps)) && (steps == [] || KeptThroughout(steps[..|steps| - 1]))
  }

  /** No step of the run installs over an agent in use. */
  ghost predicate NeverTakesOver(steps: seq<Step>) {
    steps == [] ||
    (NeverTakesOver(steps[..|steps| - 1]) && !TakesOver(Exec(INIT, steps[..|steps| - 1]), steps[|steps| - 1]))
  }

  /** Over every run, calls overlapping or not: sessions keep their agents throughout if and only if no
      step of the run installs over an agent in use. */
  lemma {:induction false} SessionsKeptExact(steps: seq<Step>)
    ensures KeptThroughout(steps) <==> NeverTakesOver(steps)
  {
    if steps == [] {
      assert AllFound(INIT);
    } else {
      var init := steps[..|steps| - 1];
      SessionsKeptExact(init);
      IdsAfter(init);
      if KeptThroughout(init) { OverlapExact(Exec(INIT, init), steps[|steps| - 1]); }
    }
  }

  // ----- Calls that do not overlap -----

  lemma KeysStep(s: State, step: Step)
    requires Ids(s) && Keys(s) && Polite(s, step)
    ensures Keys(Next(s, step)) && !TakesOver(s, step)
    ensures forall k :: k in s.agents ==> k in Next(s, step).agents && Next(s, step).agents[k] == s.agents[k]
  {
  }

  lemma InvStep(s: State, step: Step)
    requires Inv(s) && Polite(s, step)
    ensures Inv(Next(s, step))
    ensures forall k :: k in s.agents ==> k in Next(s, step).agents && Next(s, step).agents[k] == s.agents[k]
  {
    IdsStep(s, step);
    KeysStep(s, step);
    OverlapExact(s, step);
  }

  /** Over every run whose calls do not overlap per key: instance ids are unique, every session's agent
      is found, stored or about to be, and an agent once installed stays under its key for good, so
      ensuring it again returns the same instance. */
  lemma {:induction false} RegistryIsStable(s: State, steps: seq<Step>)
    requires Inv(s) && PoliteRun(s, steps)
    ensures var t := Exec(s, steps);
      && Inv(t)
      && (forall k :: k in s.agents ==> k in t.agents && t.agents[k] == s.agents[k])
  {
    if steps != [] {
      var init := steps[..|steps| - 1];
      RegistryIsStable(s, init);
      InvStep(Exec(s, init), steps[|steps| - 1]);
    }
  }

  lemma ExecSnoc(s: State, steps: seq<Step>, step: Step)
    ensures Exec(s, steps + [step]) == Next(Exec(s, steps), step)
  {
    assert (steps + [step])[..|steps|] == steps;
  }

  lemma {:induction false} ExecConcat(s: State, a: seq<Step>, b: seq<Step>)
    requires PoliteRun(s, a + b)
    ensures Exec(s, a + b) == Exec(Exec(s, a), b) && PoliteRun(s, a) && PoliteRun(Exec(s, a), b)
  {
    if b == [] {
      assert a + b == a;
    } else {
      var init, last := b[..|b| - 1], b[|b| - 1];
      assert (a + b)[..|a + b| - 1] == a + init;
      ExecConcat(s, a, init);
    }
  }

  /** From the start: whatever is installed after any part of such a run is there at its end. */
  lemma StableFromStart(first: seq<Step>, rest: seq<Step>)
    requires PoliteRun(INIT, first + rest)
    ensures var s := Exec(INIT, first); var t := Exec(INIT, first + rest);
      && Inv(s) && Inv(t)
      && (forall k :: k in s.agents ==> k in t.agents && t.agents[k] == s.agents[k])
  {
    ExecConcat(INIT, first, rest);
    RegistryIsStable(INIT, first);
    RegistryIsStable(Exec(INIT, first), rest);
  }

  // ----- Overlapping calls -----

  /** Two calls for one agent, the first of them done. */
  function TwoEnsures(agentId: string, digest: string): seq<Step> {
    [BeginEnsure(0, agentId, digest, "a")] + [BeginEnsure(1, agentId, digest, "b")] + [Install(0)]
  }

  lemma FirstInstalled(agentId: string, digest: string)
    ensures var h, g := Handle("a", agentId, digest), Handle("b", agentId, digest);
      Exec(INIT, TwoEnsures(agentId, digest)) ==
      State(map[AgentKey(agentId, digest) := h], map[], map[1 := g], map[], {"a", "b"})
  {
    var h, g := Handle("a", agentId, digest), Handle("b", agentId, digest);
    var r1 := [BeginEnsure(0, agentId, digest, "a")];
    ExecSnoc(INIT, [], r1[0]);
    assert [] + r1 == r1;
    assert Exec(INIT, r1) == State(map[], map[], map[0 := h], map[], {"a"});
    var r2 := r1 + [BeginEnsure(1, agentId, digest, "b")];
    ExecSnoc(INIT, r1, BeginEnsure(1, agentId, digest, "b"));
    assert {"a"} + {"b"} == {"a", "b"};
    assert Exec(INIT, r2).installing == map[0 := h, 1 := g];
    ExecSnoc(INIT, r2, Install(0));
    assert map[0 := h, 1 := g] - {0} == map[1 := g];
  }

  /** The second install takes over the key, and the session stored on the first instance can no
      longer be prompted. */
  lemma OverlapOrphansSession(agentId: string, digest: string)
    ensures var s := Exec(INIT, TwoEnsures(agentId, digest) + [LookUp(0, "s", "a")] + [StoreSession(0)] + [Install(1)]);
      "s" in s.sessions && !Findable(s, s.sessions["s"])
  {
    FirstInstalled(agentId, digest);
    var key, r3 := AgentKey(agentId, digest), TwoEnsures(agentId, digest);
    assert Exec(INIT, r3).agents[key].instanceId == "a";
    ExecSnoc(INIT, r3, LookUp(0, "s", "a"));
    ExecSnoc(INIT, r3 + [LookUp(0, "s", "a")], StoreSession(0));
    ExecSnoc(INIT, r3 + [LookUp(0, "s", "a")] + [StoreSession(0)], Install(1));
  }

  /** The same with no session stored when the second install happens: the session call has found the
      first instance and stores it afterwards. */
  lemma OverlapOrphansOpening(agentId: string, digest: string)
    ensures var before := Exec(INIT, TwoEnsures(agentId, digest) + [LookUp(0, "s", "a")]);
            var s := Exec(INIT, TwoEnsures(agentId, digest) + [LookUp(0, "s", "a")] + [Install(1)] + [StoreSession(0)]);
      before.sessions == map[] && "s" in s.sessions && !Findable(s, s.sessions["s"])
  {
    FirstInstalled(agentId, digest);
    var key, r3 := AgentKey(agentId, digest), TwoEnsures(agentId, digest);
    assert Exec(INIT, r3).agents[key].instanceId == "a";
    ExecSnoc(INIT, r3, LookUp(0, "s", "a"));
    ExecSnoc(INIT, r3 + [LookUp(0, "s", "a")], Install(1));
    ExecSnoc(INIT, r3 + [LookUp(0, "s", "a")] + [Install(1)], StoreSession(0));
  }

  /** Keys of digests of one length never collide, whatever colons the agent ids contain. */
  lemma AgentKeyInjective(a: string, d: string, b: string, e: string)
    requires |d| == |e| && AgentKey(a, d) == AgentKey(b, e)
    ensures a == b && d == e
  {
    var n := |a|;
    assert AgentKey(a, d)[..n] == a && AgentKey(b, e)[..n] == b;
    assert AgentKey(a, d)[n + 1..] == d && AgentKey(b, e)[n + 1..] == e;
  }

  /** With digests of different lengths they can. */
  lemma AgentKeyCollides()
    ensures AgentKey("a", "b:c") == AgentKey("a:b", "c")
  {
  }

  // ----- The manager object -----

  /** The manager's tables, with the calls that are between their two lock holds. The locked sections
      work for any overlap; `EnsureAgent` and `OpenSession` are whole calls that nothing interrupts. */
  class Manager {
    var agents: map<string, Handle>
    var sessions: map<string, string>
    var installing: map<nat, Handle>
    var opening: map<nat, Opening>
    var issued: set<string>

    ghost function View(): State
      reads this
    {
      State(agents, sessions, installing, opening, issued)
    }

    ghost predicate Valid()
      reads this
    {
      Ids(View())
    }

    constructor ()
      ensures Valid() && View() == INIT
    {
      agents, sessions, installing, opening, issued := map[], map[], map[], map[], {};
    }

    /** Scans the agents in any order; at most one can match. */
    method AgentById(instanceId: string) returns (h: Option<Handle>)
      requires Valid()
      ensures h.Some? <==> Findable(View(), instanceId)
      ensures h.Some? ==>
        h.value.instanceId == instanceId && KeyOf(h.value) in agents && agents[KeyOf(h.value)] == h.value
    {
      var left := agents.Keys;
      while left != {}
        invariant left <= agents.Keys
        invariant forall k :: k in agents && k !in left ==> agents[k].instanceId != instanceId
        decreases left
      {
        var k :| k in left;
        if agents[k].instanceId == instanceId {
          return Some(agents[k]);
        }
        left := left - {k};
      }
      return None;
    }

    /** The first lock hold of `EnsureAgent`: the known instance, or nothing and the call goes on to start one. */
    method BeginEnsure(call: nat, agentId: string, digest: string, freshId: string) returns (known: Option<Handle>)
      requires Valid() && call !in installing && freshId !in issued
      modifies this
      ensures Valid() && View() == Next(old(View()), Step.BeginEnsure(call, agentId, digest, freshId))
      ensures known == if AgentKey(agentId, digest) in agents then Some(agents[AgentKey(agentId, digest)]) else None
      ensures known.None? ==> call in installing
    {
      IdsStep(View(), Step.BeginEnsure(call, agentId, digest, freshId));
      var key := AgentKey(agentId, digest);
      if key in agents {
        return Some(agents[key]);
      }
      installing, issued := installing[call := Handle(freshId, agentId, digest)], issued + {freshId};
      return None;
    }

    /** The rest of it: the started agent goes into the table, whatever is there by now. */
    method FinishEnsure(call: nat, starts: bool) returns (h: Option<Handle>)
      requires Valid() && call in installing
      modifies this
      ensures Valid() && View() == Next(old(View()), if starts then Install(call) else StartFails(call))
      ensures h == if starts then Some(old(installing)[call]) else None
    {
      IdsStep(View(), if starts then Install(call) else StartFails(call));
      var handle := installing[call];
      installing := installing - {call};
      if !starts {
        return None;
      }
      agents := agents[AgentKey(handle.agentId, handle.digest) := handle];
      return Some(handle);
    }

    /** A call no other call overlaps: the known instance, a new one, or an error if it does not start.
        With digests of one length the instance is of the requested agent and digest. */
    method EnsureAgent(call: nat, agentId: string, digest: string, freshId: string, starts: bool)
      returns (h: Option<Handle>)
      requires Valid() && call !in installing && freshId !in issued
      modifies this
      ensures Valid() && sessions == old(sessions) && opening == old(opening) && installing == old(installing)
      ensures AgentKey(agentId, digest) in old(agents) ==>
        h == Some(old(agents)[AgentKey(agentId, digest)]) && agents == old(agents)
      ensures AgentKey(agentId, digest) !in old(agents) && starts ==>
        h == Some(Handle(freshId, agentId, digest)) && agents == old(agents)[AgentKey(agentId, digest) := h.value]
      ensures AgentKey(agentId, digest) !in old(agents) && !starts ==> h.None? && agents == old(agents)
      ensures h.Some? && (forall k :: k in old(agents) ==> |old(agents)[k].digest| == |digest|) ==>
        h.value.agentId == agentId && h.value.digest == digest
    {
      h := BeginEnsure(call, agentId, digest, freshId);
      if h.Some? {
        if |h.value.digest| == |digest| { AgentKeyInjective(h.value.agentId, h.value.digest, agentId, digest); }
        return;
      }
      h := FinishEnsure(call, starts);
      assert old(installing)[call := Handle(freshId, agentId, digest)] - {call} == old(installing);
    }

    /** The first lock hold of `CreateSession` and `LoadSession`. */
    method BeginOpen(call: nat, sessionId: string, instanceId: string) returns (found: bool)
      requires Valid() && call !in opening
      modifies this
      ensures Valid() && View() == Next(old(View()), LookUp(call, sessionId, instanceId))
      ensures found <==> Findable(old(View()), instanceId)
      ensures found ==> call in opening && opening[call] == Opening(sessionId, instanceId)
    {
      var h := AgentById(instanceId);
      if h.None? {
        return false;
      }
      opening := opening[call := Opening(sessionId, h.value.instanceId)];
      return true;
    }

    /** The second, after the agent has accepted or refused the session; the agent is not looked up again. */
    method FinishOpen(call: nat, accepted: bool)
      requires Valid() && call in opening
      modifies this
      ensures Valid() && View() == Next(old(View()), if accepted then StoreSession(call) else Refuse(call))
    {
      var o := opening[call];
      opening := opening - {call};
      if accepted {
        sessions := sessions[o.sessionId := o.instanceId];
      }
    }

    /** A whole session call: refused when the agent is unknown or refuses the session. */
    method OpenSession(call: nat, sessionId: string, instanceId: string, accepted: bool) returns (ok: bool)
      requires Valid() && call !in opening
      modifies this
      ensures Valid() && agents == old(agents) && issued == old(issued)
      ensures installing == old(installing) && opening == old(opening)
      ensures ok <==> accepted && Findable(old(View()), instanceId)
      ensures sessions == if ok then old(sessions)[sessionId := instanceId] else old(sessions)
    {
      ok := BeginOpen(call, sessionId, instanceId);
      if ok {
        FinishOpen(call, accepted);
        ok := accepted;
        assert old(opening)[call := Opening(sessionId, instanceId)] - {call} == old(opening);
      }
    }

    /** `sessionAgent`: the agent of a stored session, if it is still installed. */
    method SessionAgent(sessionId: string) returns (h: Option<Handle>)
      requires Valid()
      ensures h.Some? <==> sessionId in sessions && Findable(View(), sessions[sessionId])
      ensures h.Some? ==> h.value.instanceId == sessions[sessionId]
    {
      if sessionId !in sessions {
        return None;
      }
      h := AgentById(sessions[sessionId]);
    }
  }
}
