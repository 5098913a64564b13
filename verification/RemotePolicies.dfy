/** Policy agreement between the control plane and its agents, and the authority behind every tool an
    agent runs, over a network that duplicates and reorders. */
module RemotePolicies {
  import opened Options
  import opened RemoteTypes
  import opened ConnectionLifecycle
  import opened ControlPlane
  import opened AgentRunner
  import opened RemoteSystem
  import opened RemotePresence

  // ---------------------------------------------------------------------------------------------
  // The invariant
  // ---------------------------------------------------------------------------------------------

  /** `p` is exactly what was published for agent `a` under the version it carries. */
  ghost predicate IsPublished(published: map<AgentId, seq<Policy>>, a: AgentId, p: Policy) {
    a in published && 1 <= p.version <= |published[a]| && published[a][p.version - 1] == p
  }

  /** Version v of an agent's policy is at index v - 1. */
  ghost predicate Numbered(published: map<AgentId, seq<Policy>>) {
    forall a :: a in published ==>
      published[a] != [] && forall i :: 0 <= i < |published[a]| ==> published[a][i].version == i + 1
  }

  /** A stored row carries the latest published policy. */
  ghost predicate RowsCurrent(s: System) {
    forall a :: a in s.cp.agents ==>
      && IsPublished(s.h.published, a, s.cp.agents[a].policy)
      && s.cp.agents[a].policyVersion == s.cp.agents[a].policy.version == |s.h.published[a]|
  }

  ghost predicate UpdatesGenuine(s: System) {
    forall u :: Signed(s.controlKey, u) in s.signed && u.PolicyUpdate? ==>
      IsPublished(s.h.published, u.agentId, u.policy) && u.policyVersion == u.policy.version
  }

  /** What an agent enforces, or is about to install, was published for it. */
  ghost predicate AgentsAgree(s: System) {
    && (forall a :: a in s.responses ==> IsPublished(s.h.published, a, s.responses[a]))
    && (forall a :: a in s.procs ==> IsPublished(s.h.published, a, s.procs[a].policy))
  }

  ghost predicate Ascending(versions: seq<int>, bound: int) {
    && (forall i, j :: 0 <= i < j < |versions| ==> versions[i] < versions[j])
    && (forall i :: 0 <= i < |versions| ==> versions[i] <= bound)
  }

  ghost predicate AppliedAscending(s: System) {
    forall a :: a in s.procs ==> Ascending(AppliedBy(s, a), s.procs[a].policy.version)
  }

  /** At dispatch the user owned the agent, and the user's scopes and the stored policy granted the
      tool's capability. */
  ghost predicate Authorized(s: System, id: ActionId)
    requires id in s.h.dispatched
  {
    var d := s.h.dispatched[id];
    && d.request.ActionRequest?
    && d.request.actionId == id
    && d.request.userId == d.principal.userId == d.owner
    && d.request.capability == ToolCapability(d.request.tool)
    && Grants(d.principal, d.request.capability)
    && d.request.capability in d.storedPolicy.capabilities
    && d.request.policyVersion == d.storedPolicy.version
    && IsPublished(s.h.published, d.request.agentId, d.storedPolicy)
  }

  /** Every request the control plane signed is one dispatch. */
  ghost predicate RequestsGenuine(s: System) {
    forall r :: Signed(s.controlKey, r) in s.signed && r.ActionRequest? ==>
      r.actionId in s.h.dispatched && s.h.dispatched[r.actionId].request == r
  }

  /** A tool ran under a policy published for that agent, granting the tool's capability, at most one
      version behind the one the request was dispatched under. */
  ghost predicate ExecutionSound(s: System, x: Execution) {
    && x.request.ActionRequest?
    && x.request.agentId == x.agentId
    && Signed(s.controlKey, x.request) in s.signed
    && Runs(x.policy, x.request)
    && IsPublished(s.h.published, x.agentId, x.policy)
    && (x.request.policyVersion == x.policy.version || x.request.policyVersion == x.policy.version + 1)
  }

  ghost predicate Authority(s: System) {
    && RequestsGenuine(s)
    && (forall id :: id in s.h.dispatched ==> Authorized(s, id))
    && (forall i :: 0 <= i < |s.h.executions| ==> ExecutionSound(s, s.h.executions[i]))
  }

  ghost predicate PolicyInv(s: System) {
    && Numbered(s.h.published)
    && RowsCurrent(s)
    && UpdatesGenuine(s)
    && AgentsAgree(s)
    && AppliedAscending(s)
    && Authority(s)
  }

  lemma InitPolicies(maxConnections: nat, maxPerAgent: nat, clock: int, key: Key)
    ensures PolicyInv(Init(maxConnections, maxPerAgent, clock, key))
  {
  }

  // ---------------------------------------------------------------------------------------------
  // Frames
  // ---------------------------------------------------------------------------------------------

  ghost predicate Extends(x: map<AgentId, seq<Policy>>, y: map<AgentId, seq<Policy>>) {
    forall a :: a in x ==> a in y && x[a] <= y[a]
  }

  lemma StillPublished(x: map<AgentId, seq<Policy>>, y: map<AgentId, seq<Policy>>, a: AgentId, p: Policy)
    requires Extends(x, y) && IsPublished(x, a, p)
    ensures IsPublished(y, a, p)
  {
  }

  /** Agents and authority only look at tables that grow. */
  ghost predicate AgentsFrame(s: System, t: System) {
    && t.controlKey == s.controlKey
    && s.signed <= t.signed
    && Extends(s.h.published, t.h.published)
    && t.responses == s.responses
    && t.procs == s.procs
    && t.h.applied == s.h.applied
    && t.h.executions == s.h.executions
  }

  lemma AgentsFrameKeeps(s: System, t: System)
    requires AgentsFrame(s, t) && AgentsAgree(s) && AppliedAscending(s)
    requires forall i :: 0 <= i < |s.h.executions| ==> ExecutionSound(s, s.h.executions[i])
    ensures AgentsAgree(t) && AppliedAscending(t)
    ensures forall i :: 0 <= i < |t.h.executions| ==> ExecutionSound(t, t.h.executions[i])
  {
    forall a, p | IsPublished(s.h.published, a, p) ensures IsPublished(t.h.published, a, p) {
      StillPublished(s.h.published, t.h.published, a, p);
    }
    forall i | 0 <= i < |t.h.executions| ensures ExecutionSound(t, t.h.executions[i]) {
      assert ExecutionSound(s, s.h.executions[i]);
    }
  }

  lemma DispatchesKeep(s: System, t: System)
    requires t.h.dispatched == s.h.dispatched && Extends(s.h.published, t.h.published)
    requires forall id :: id in s.h.dispatched ==> Authorized(s, id)
    ensures forall id :: id in t.h.dispatched ==> Authorized(t, id)
  {
    forall id | id in t.h.dispatched ensures Authorized(t, id) {
      assert Authorized(s, id);
      StillPublished(s.h.published, t.h.published, s.h.dispatched[id].request.agentId, s.h.dispatched[id].storedPolicy);
    }
  }

  /** Rows may disappear or change, but not their policy. */
  ghost predicate SamePolicies(s: System, t: System) {
    forall a :: a in t.cp.agents ==>
      && a in s.cp.agents
      && t.cp.agents[a].policy == s.cp.agents[a].policy
      && t.cp.agents[a].policyVersion == s.cp.agents[a].policyVersion
  }

  lemma QuietPolicies(s: System, t: System)
    requires PolicyInv(s) && AgentsFrame(s, t) && SamePolicies(s, t)
    requires t.signed == s.signed && t.h.published == s.h.published && t.h.dispatched == s.h.dispatched
    ensures PolicyInv(t)
  {
    AgentsFrameKeeps(s, t);
    DispatchesKeep(s, t);
    hide ExecutionSound, Authorized, AgentsAgree, AppliedAscending, Numbered;
  }

  // ---------------------------------------------------------------------------------------------
  // Control-plane steps that publish nothing
  // ---------------------------------------------------------------------------------------------

  lemma HelloPolicies(s: System, c: ConnectionId, e: Envelope)
    requires PolicyInv(s) && e.Hello?
    ensures PolicyInv(HelloStep(s, c, e))
  {
    hide PolicyInv, HelloHandled;
    HelloRows(s.cp, c, e, s.signed, s.clock);
    QuietPolicies(s, HelloStep(s, c, e));
  }

  lemma HelloRows(s: State, c: ConnectionId, h: Envelope, signed: set<Signed>, now: int)
    requires h.Hello?
    ensures var t := HelloHandled(s, c, h, signed, now).0;
            forall a :: a in t.agents ==> a in s.agents && t.agents[a] == s.agents[a].(status := t.agents[a].status)
  {
    HelloCases(s, c, h, signed, now);
    hide HelloHandled, Claimed, MayClaim;
  }

  lemma ReceivePolicies(s: System, c: ConnectionId, m: Option<Envelope>)
    requires PolicyInv(s)
    ensures PolicyInv(ReceiveStep(s, c, m))
  {
    hide PolicyInv, HelloStep, ResultHandled;
    if m.Some? && m.value.Hello? {
      HelloPolicies(s, c, m.value);
    } else if m.Some? && m.value.ActionResult? {
      ResultSame(s.cp, c, m.value, s.signed, s.clock);
      QuietPolicies(s, ResultStep(s, c, m.value));
    }
  }

  lemma ClosePolicies(s: System, c: ConnectionId)
    requires PolicyInv(s)
    ensures PolicyInv(CloseEventStep(s, c))
  {
    hide PolicyInv, Closed;
    QuietPolicies(s, CloseEventStep(s, c));
  }

  lemma RowStepsPolicies(s: System, step: Step)
    requires PolicyInv(s)
    requires step.Revoke? || step.Remove?
    ensures PolicyInv(ControlPlaneStep(s, step))
  {
    hide PolicyInv, Grants;
    QuietPolicies(s, ControlPlaneStep(s, step));
  }

  lemma OtherStepsFrame(s: System, step: Step)
    requires step.Upgrade? || step.SocketGone? || step.Accept? || step.ActionTimer? || step.Resume?
          || step.Maintenance? || step.Shutdown?
    ensures NoPolicyChange(s, ControlPlaneStep(s, step))
  {
    hide UpgradeStep, SocketGoneStep, AcceptStep, ReceiveStep, CloseEventStep, CallToolStep, CreateTokenStep, EnrollStep,
         UpdatePolicyStep, RevokeStep, RemoveStep, ActionTimerStep, ResumeStep, MaintenanceStep, ShutdownStep;
    match step
    case Upgrade(socket) => SocketsFrame(s, socket, 0);
    case SocketGone(socket) => SocketsFrame(s, socket, 0);
    case Accept(socket, c) => SocketsFrame(s, socket, c);
    case ActionTimer(id) => TimersFrame(s, id);
    case Resume(id) => TimersFrame(s, id);
    case Maintenance => SweepsFrame(s);
    case Shutdown => SweepsFrame(s);
  }

  /** Nothing about policies, requests and agents changed. */
  ghost predicate NoPolicyChange(s: System, t: System) {
    && AgentsFrame(s, t) && SamePolicies(s, t) && t.signed == s.signed
    && t.h.published == s.h.published && t.h.dispatched == s.h.dispatched
  }

  lemma SocketsFrame(s: System, socket: SocketId, c: ConnectionId)
    ensures NoPolicyChange(s, UpgradeStep(s, socket))
    ensures NoPolicyChange(s, SocketGoneStep(s, socket))
    ensures NoPolicyChange(s, AcceptStep(s, socket, c))
  {
    hide NoPolicyChange;
    UpgradeFrame(s, socket);
    SocketGoneFrame(s, socket);
    AcceptFrame(s, socket, c);
  }

  lemma UpgradeFrame(s: System, socket: SocketId)
    ensures NoPolicyChange(s, UpgradeStep(s, socket))
  {
    hide Upgraded;
  }

  lemma SocketGoneFrame(s: System, socket: SocketId)
    ensures NoPolicyChange(s, SocketGoneStep(s, socket))
  {
    hide SocketReleased;
  }

  lemma AcceptFrame(s: System, socket: SocketId, c: ConnectionId)
    ensures NoPolicyChange(s, AcceptStep(s, socket, c))
  {
    hide Accepted;
  }

  lemma TimersFrame(s: System, id: ActionId)
    ensures NoPolicyChange(s, ActionTimerStep(s, id))
    ensures NoPolicyChange(s, ResumeStep(s, id))
  {
    hide NoPolicyChange;
    ActionTimerFrame(s, id);
    ResumeFrame(s, id);
  }

  lemma ActionTimerFrame(s: System, id: ActionId)
    ensures NoPolicyChange(s, ActionTimerStep(s, id))
  {
  }

  lemma ResumeFrame(s: System, id: ActionId)
    ensures NoPolicyChange(s, ResumeStep(s, id))
  {
    hide TerminalStatus;
  }

  lemma SweepsFrame(s: System)
    ensures NoPolicyChange(s, MaintenanceStep(s))
    ensures NoPolicyChange(s, ShutdownStep(s))
  {
    hide NoPolicyChange;
    MaintenanceFrame(s);
    ShutdownFrame(s);
  }

  lemma MaintenanceFrame(s: System)
    ensures NoPolicyChange(s, MaintenanceStep(s))
  {
    CleanedUpSame(s.cp, s.clock);
    hide CleanedUp;
  }

  lemma ShutdownFrame(s: System)
    ensures NoPolicyChange(s, ShutdownStep(s))
  {
    hide ShutDown;
  }

  lemma OtherStepsPolicies(s: System, step: Step)
    requires PolicyInv(s)
    requires step.Upgrade? || step.SocketGone? || step.Accept? || step.ActionTimer? || step.Resume?
          || step.Maintenance? || step.Shutdown?
    ensures PolicyInv(ControlPlaneStep(s, step))
  {
    hide PolicyInv;
    OtherStepsFrame(s, step);
    hide ControlPlaneStep, AgentsFrame, SamePolicies;
    QuietPolicies(s, ControlPlaneStep(s, step));
  }

  // ---------------------------------------------------------------------------------------------
  // Publishing
  // ---------------------------------------------------------------------------------------------

  /** A step that publishes: rows and updates are checked by the caller, the rest is carried over. */
  lemma PublishKeeps(s: System, t: System)
    requires PolicyInv(s) && AgentsFrame(s, t) && t.h.dispatched == s.h.dispatched
    requires Numbered(t.h.published) && RowsCurrent(t) && UpdatesGenuine(t)
    requires forall e :: e in t.signed && e !in s.signed ==> !e.envelope.ActionRequest?
    ensures PolicyInv(t)
  {
    AgentsFrameKeeps(s, t);
    DispatchesKeep(s, t);
    hide ExecutionSound, Authorized, AgentsAgree, AppliedAscending, Numbered, UpdatesGenuine, RowsCurrent, Extends;
  }

  lemma CreateTokenRows(s: System, p: Principal, alias: nat, a: AgentId, t: TokenHash,
                        caps: set<Capability>, ttlMs: int)
    requires Numbered(s.h.published) && RowsCurrent(s) && UpdatesGenuine(s)
    requires a !in s.h.published && t !in s.h.enrollments && MayCreateToken(s.cp, p, alias, a, t)
    ensures var w := CreateTokenStep(s, p, alias, a, t, caps, ttlMs);
            Extends(s.h.published, w.h.published) && Numbered(w.h.published) && RowsCurrent(w) && UpdatesGenuine(w)
  {
    hide MayCreateToken;
    var w := CreateTokenStep(s, p, alias, a, t, caps, ttlMs);
    assert w.h.published == s.h.published[a := [Policy(caps, 1)]];
  }

  lemma CreateTokenPolicies(s: System, p: Principal, alias: nat, a: AgentId, t: TokenHash,
                            caps: set<Capability>, ttlMs: int)
    requires PolicyInv(s)
    ensures PolicyInv(CreateTokenStep(s, p, alias, a, t, caps, ttlMs))
  {
    hide MayCreateToken, Numbered, RowsCurrent, UpdatesGenuine, Authority, AgentsAgree, AppliedAscending;
    if a !in s.h.published && t !in s.h.enrollments && MayCreateToken(s.cp, p, alias, a, t) {
      CreateTokenRows(s, p, alias, a, t, caps, ttlMs);
      hide PolicyInv, Extends;
      PublishKeeps(s, CreateTokenStep(s, p, alias, a, t, caps, ttlMs));
    }
  }

  lemma UpdateRows(s: System, p: Principal, a: AgentId, caps: set<Capability>, nonce: Nonce)
    requires Numbered(s.h.published) && RowsCurrent(s) && MayAdminister(s.cp, p, a)
    ensures var t := UpdatePolicyStep(s, p, a, caps, nonce);
            && Extends(s.h.published, t.h.published)
            && Numbered(t.h.published)
            && RowsCurrent(t)
            && IsPublished(t.h.published, a, NextPolicy(s.cp.agents[a], caps))
  {
    hide Grants;
    var t := UpdatePolicyStep(s, p, a, caps, nonce);
    assert IsPublished(s.h.published, a, s.cp.agents[a].policy);
    OneMoreVersion(s.h.published, a, NextPolicy(s.cp.agents[a], caps));
    assert t.h.published == s.h.published[a := s.h.published[a] + [NextPolicy(s.cp.agents[a], caps)]];
    hide Numbered, Extends, IsPublished;
    UpdateCurrent(s, p, a, caps, nonce);
  }

  lemma UpdateCurrent(s: System, p: Principal, a: AgentId, caps: set<Capability>, nonce: Nonce)
    requires RowsCurrent(s) && MayAdminister(s.cp, p, a)
    ensures RowsCurrent(UpdatePolicyStep(s, p, a, caps, nonce))
  {
    hide Grants;
    var t := UpdatePolicyStep(s, p, a, caps, nonce);
    forall b | b in t.cp.agents
      ensures IsPublished(t.h.published, b, t.cp.agents[b].policy)
      ensures t.cp.agents[b].policyVersion == t.cp.agents[b].policy.version == |t.h.published[b]|
    {
      assert b in s.cp.agents && IsPublished(s.h.published, b, s.cp.agents[b].policy);
    }
  }

  lemma OneMoreVersion(published: map<AgentId, seq<Policy>>, a: AgentId, p: Policy)
    requires Numbered(published) && a in published && p.version == |published[a]| + 1
    ensures var more := published[a := published[a] + [p]];
            Extends(published, more) && Numbered(more) && IsPublished(more, a, p)
  {
  }

  lemma UpdateGenuine(s: System, p: Principal, a: AgentId, caps: set<Capability>, nonce: Nonce)
    requires Numbered(s.h.published) && RowsCurrent(s) && UpdatesGenuine(s) && MayAdminister(s.cp, p, a)
    ensures UpdatesGenuine(UpdatePolicyStep(s, p, a, caps, nonce))
  {
    var t := UpdatePolicyStep(s, p, a, caps, nonce);
    UpdateRows(s, p, a, caps, nonce);
    hide Grants, RowsCurrent, Numbered;
    forall u | Signed(t.controlKey, u) in t.signed && u.PolicyUpdate?
      ensures IsPublished(t.h.published, u.agentId, u.policy) && u.policyVersion == u.policy.version
    {
      if Signed(s.controlKey, u) in s.signed {
        StillPublished(s.h.published, t.h.published, u.agentId, u.policy);
      }
    }
  }

  lemma UpdatePolicyPolicies(s: System, p: Principal, a: AgentId, caps: set<Capability>, nonce: Nonce)
    requires PolicyInv(s)
    ensures PolicyInv(UpdatePolicyStep(s, p, a, caps, nonce))
  {
    hide Grants, Numbered, RowsCurrent, UpdatesGenuine, Authority, AgentsAgree, AppliedAscending;
    if MayAdminister(s.cp, p, a) {
      UpdateRows(s, p, a, caps, nonce);
      UpdateGenuine(s, p, a, caps, nonce);
      hide PolicyInv, Extends, IsPublished;
      PublishKeeps(s, UpdatePolicyStep(s, p, a, caps, nonce));
    }
  }

  // ---------------------------------------------------------------------------------------------
  // Dispatching
  // ---------------------------------------------------------------------------------------------

  lemma CallToolAuthorized(s: System, p: Principal, a: AgentId, tool: Tool, id: ActionId, timeoutMs: int, nonce: Nonce)
    requires RowsCurrent(s) && RequestsGenuine(s)
    requires forall i :: i in s.h.dispatched ==> Authorized(s, i)
    requires id !in s.h.dispatched && MayDispatch(s.cp, p, a, tool, id)
    ensures var t := CallToolStep(s, p, a, tool, id, timeoutMs, nonce);
            RequestsGenuine(t) && forall i :: i in t.h.dispatched ==> Authorized(t, i)
  {
    hide Grants, ToolCapability;
    var t := CallToolStep(s, p, a, tool, id, timeoutMs, nonce);
    forall i | i in t.h.dispatched ensures Authorized(t, i) {
      assert i != id ==> Authorized(s, i);
    }
  }

  lemma CallToolPolicies(s: System, p: Principal, a: AgentId, tool: Tool, id: ActionId, timeoutMs: int, nonce: Nonce)
    requires PolicyInv(s)
    ensures PolicyInv(CallToolStep(s, p, a, tool, id, timeoutMs, nonce))
  {
    if id !in s.h.dispatched && MayDispatch(s.cp, p, a, tool, id) {
      var t := CallToolStep(s, p, a, tool, id, timeoutMs, nonce);
      CallToolAuthorized(s, p, a, tool, id, timeoutMs, nonce);
      AgentsFrameKeeps(s, t);
      hide MayDispatch, Authorized, ExecutionSound, AgentsAgree, AppliedAscending, RequestsGenuine, Numbered, IsPublished;
    }
  }

  // ---------------------------------------------------------------------------------------------
  // Agents
  // ---------------------------------------------------------------------------------------------

  lemma EnrollPolicies(s: System, t: TokenHash, key: Key)
    requires PolicyInv(s)
    ensures PolicyInv(EnrollStep(s, t, key))
  {
    if MayEnroll(s.cp, t, s.clock) {
      var w := EnrollStep(s, t, key);
      var a := s.cp.tokens[t].agentId;
      assert IsPublished(s.h.published, a, s.cp.agents[a].policy);
      EnrollTables(s, t, key);
      hide IsPublished, Authority, Numbered, UpdatesGenuine, RowsCurrent, AgentsAgree, EnrollStep, AppliedAscending;
      AuthorityKeeps(s, w);
      SameApplied(s, w);
    }
  }

  lemma EnrollTables(s: System, t: TokenHash, key: Key)
    requires RowsCurrent(s) && AgentsAgree(s) && MayEnroll(s.cp, t, s.clock)
    ensures var w := EnrollStep(s, t, key);
            && RowsCurrent(w) && AgentsAgree(w) && w.procs == s.procs && w.h.applied == s.h.applied
            && w.controlKey == s.controlKey && w.signed == s.signed && w.h.published == s.h.published
            && w.h.dispatched == s.h.dispatched && w.h.executions == s.h.executions
  {
    var a := s.cp.tokens[t].agentId;
    assert IsPublished(s.h.published, a, s.cp.agents[a].policy);
    hide IsPublished;
  }

  lemma SameApplied(s: System, t: System)
    requires AppliedAscending(s) && t.procs == s.procs && t.h.applied == s.h.applied
    ensures AppliedAscending(t)
  {
    hide Ascending;
    forall a | a in t.procs ensures Ascending(AppliedBy(t, a), t.procs[a].policy.version) {
      assert AppliedBy(t, a) == AppliedBy(s, a);
    }
  }

  lemma AuthorityKeeps(s: System, t: System)
    requires PolicyInv(s)
    requires t.controlKey == s.controlKey && t.signed == s.signed && t.h.published == s.h.published
    requires t.h.dispatched == s.h.dispatched && t.h.executions == s.h.executions
    ensures Authority(t) && UpdatesGenuine(t)
  {
    DispatchesKeep(s, t);
    forall i | 0 <= i < |t.h.executions| ensures ExecutionSound(t, t.h.executions[i]) {
      assert ExecutionSound(s, s.h.executions[i]);
    }
    hide ExecutionSound, Authorized, AgentsAgree, AppliedAscending, Numbered, RowsCurrent, IsPublished;
  }

  lemma InstallPolicies(s: System, a: AgentId)
    requires PolicyInv(s)
    ensures PolicyInv(InstallStep(s, a))
  {
    var t := InstallStep(s, a);
    AuthorityKeeps(s, t);
    hide Authority, UpdatesGenuine, Numbered, IsPublished;
  }

  lemma RestartPolicies(s: System, a: AgentId)
    requires PolicyInv(s)
    ensures PolicyInv(RestartStep(s, a))
  {
    var t := RestartStep(s, a);
    AuthorityKeeps(s, t);
    hide Authority, UpdatesGenuine, Numbered, IsPublished;
  }

  lemma ForeignGenuine(s: System, key: Key, e: Envelope)
    requires RequestsGenuine(s) && UpdatesGenuine(s)
    ensures RequestsGenuine(ForeignSignStep(s, key, e)) && UpdatesGenuine(ForeignSignStep(s, key, e))
  {
  }

  lemma ForeignPolicies(s: System, key: Key, e: Envelope)
    requires PolicyInv(s)
    ensures PolicyInv(ForeignSignStep(s, key, e))
  {
    var t := ForeignSignStep(s, key, e);
    ForeignGenuine(s, key, e);
    ForeignFrame(s, key, e);
    hide ExecutionSound, Authorized, AgentsAgree, AppliedAscending, Numbered, IsPublished, RequestsGenuine,
         UpdatesGenuine, RowsCurrent, AgentsFrame, ForeignSignStep, Extends;
    AgentsFrameKeeps(s, t);
    DispatchesKeep(s, t);
  }

  lemma ForeignFrame(s: System, key: Key, e: Envelope)
    ensures var t := ForeignSignStep(s, key, e);
            && AgentsFrame(s, t) && t.h == s.h && t.cp == s.cp && Extends(s.h.published, t.h.published)
            && (RowsCurrent(s) ==> RowsCurrent(t))
  {
    hide IsPublished;
  }

  /** The policy after a message is the old one or a newer published one. */
  lemma MessagePolicy(s: System, a: AgentId, e: Envelope)
    requires UpdatesGenuine(s) && a in s.procs && IsPublished(s.h.published, a, s.procs[a].policy)
    ensures var q := MessageHandled(s.procs[a], a, s.controlKey, e, s.signed, s.clock);
            && IsPublished(s.h.published, a, q.policy)
            && (q.policy != s.procs[a].policy ==> q.policy.version > s.procs[a].policy.version)
  {
  }

  /** What a message does to the agents: one process steps, and a new policy is recorded. */
  lemma ReceiveProcs(s: System, a: AgentId, e: Envelope)
    requires a in s.procs
    ensures var t := AgentReceiveStep(s, a, e);
            var q := MessageHandled(s.procs[a], a, s.controlKey, e, s.signed, s.clock);
            && t.procs == s.procs[a := q] && t.responses == s.responses && t.h.published == s.h.published
            && t.h.applied == if q.policy == s.procs[a].policy then s.h.applied
                              else s.h.applied[a := AppliedBy(s, a) + [q.policy.version]]
  {
    hide MessageHandled, MessageAccepted, Runs;
  }

  lemma ReceiveAgents(s: System, a: AgentId, e: Envelope)
    requires UpdatesGenuine(s) && AgentsAgree(s) && AppliedAscending(s) && a in s.procs
    ensures AgentsAgree(AgentReceiveStep(s, a, e)) && AppliedAscending(AgentReceiveStep(s, a, e))
  {
    MessagePolicy(s, a, e);
    ReceiveProcs(s, a, e);
    hide MessageHandled, AgentReceiveStep, IsPublished, UpdatesGenuine;
    var t := AgentReceiveStep(s, a, e);
    var q := MessageHandled(s.procs[a], a, s.controlKey, e, s.signed, s.clock);
    AppliedGrows(s, t, a, q);
    hide AppliedAscending, AppliedBy, Ascending;
  }

  lemma AppliedGrows(s: System, t: System, a: AgentId, q: Proc)
    requires AppliedAscending(s) && a in s.procs && t.procs == s.procs[a := q]
    requires q.policy != s.procs[a].policy ==> q.policy.version > s.procs[a].policy.version
    requires t.h.applied == if q.policy == s.procs[a].policy then s.h.applied
                            else s.h.applied[a := AppliedBy(s, a) + [q.policy.version]]
    ensures AppliedAscending(t)
  {
    assert Ascending(AppliedBy(s, a), s.procs[a].policy.version);
    if q.policy != s.procs[a].policy {
      AscendingGrows(AppliedBy(s, a), s.procs[a].policy.version, q.policy.version);
    }
    hide Ascending;
    forall b | b in t.procs ensures Ascending(AppliedBy(t, b), t.procs[b].policy.version) {
      assert b != a ==> Ascending(AppliedBy(s, b), s.procs[b].policy.version) && AppliedBy(t, b) == AppliedBy(s, b);
    }
  }

  lemma AscendingGrows(versions: seq<int>, bound: int, next: int)
    requires Ascending(versions, bound) && bound < next
    ensures Ascending(versions + [next], next)
  {
  }

  /** Everything but the agents' own state is untouched. */
  ghost predicate ControlFrame(s: System, t: System) {
    && t.controlKey == s.controlKey && t.signed == s.signed && t.cp == s.cp
    && t.h.published == s.h.published && t.h.dispatched == s.h.dispatched
  }

  lemma ControlFrameKeeps(s: System, t: System)
    requires ControlFrame(s, t) && PolicyInv(s)
    ensures Numbered(t.h.published) && RowsCurrent(t) && UpdatesGenuine(t) && RequestsGenuine(t)
    ensures forall id :: id in t.h.dispatched ==> Authorized(t, id)
  {
    hide ExecutionSound, AgentsAgree, AppliedAscending, IsPublished, Authorized;
    DispatchesKeep(s, t);
  }

  lemma AgentReceivePolicies(s: System, a: AgentId, e: Envelope)
    requires PolicyInv(s)
    ensures PolicyInv(AgentReceiveStep(s, a, e))
  {
    if a in s.procs {
      ReceiveAgents(s, a, e);
      ReceiveExecutions(s, a, e);
      ReceiveControl(s, a, e);
      hide AgentReceiveStep, ControlFrame, ExecutionSound, Authorized, IsPublished, Numbered, RowsCurrent, UpdatesGenuine, RequestsGenuine,
           AgentsAgree, AppliedAscending, MessageHandled, MessageAccepted, Runs;
      ControlFrameKeeps(s, AgentReceiveStep(s, a, e));
    }
  }

  lemma ReceiveControl(s: System, a: AgentId, e: Envelope)
    ensures ControlFrame(s, AgentReceiveStep(s, a, e))
  {
    hide MessageHandled, MessageAccepted, Runs, AppliedBy;
  }

  lemma ReceiveExecutions(s: System, a: AgentId, e: Envelope)
    requires a in s.procs && IsPublished(s.h.published, a, s.procs[a].policy)
    requires forall i :: 0 <= i < |s.h.executions| ==> ExecutionSound(s, s.h.executions[i])
    ensures var t := AgentReceiveStep(s, a, e);
            forall i :: 0 <= i < |t.h.executions| ==> ExecutionSound(t, t.h.executions[i])
  {
    var t := AgentReceiveStep(s, a, e);
    var p := s.procs[a];
    var x := Execution(a, e, p.policy);
    if MessageAccepted(p, a, s.controlKey, e, s.signed, s.clock) && Runs(p.policy, e) {
      assert ExecutionSound(t, x) by { hide MessageHandled, IsPublished; }
    }
    hide MessageHandled, IsPublished, MessageAccepted, Runs;
    assert t.h.executions == s.h.executions || (t.h.executions == s.h.executions + [x] && ExecutionSound(t, x));
    forall i | 0 <= i < |t.h.executions| ensures ExecutionSound(t, t.h.executions[i]) {
      assert i < |s.h.executions| ==> ExecutionSound(s, s.h.executions[i]);
    }
  }

  // ---------------------------------------------------------------------------------------------
  // Whole runs
  // ---------------------------------------------------------------------------------------------

  lemma ControlPlanePolicies(s: System, step: Step)
    requires PolicyInv(s)
    ensures PolicyInv(ControlPlaneStep(s, step))
  {
    hide PolicyInv, ReceiveStep, CloseEventStep, CreateTokenStep, EnrollStep, UpdatePolicyStep, CallToolStep;
    match step
    case Receive(c, m) => ReceivePolicies(s, c, m);
    case CloseEvent(c) => ClosePolicies(s, c);
    case CallTool(p, a, tool, id, t, n) => CallToolPolicies(s, p, a, tool, id, t, n);
    case CreateToken(p, alias, a, t, caps, ttl) => CreateTokenPolicies(s, p, alias, a, t, caps, ttl);
    case EnrollAgent(t, key) => EnrollPolicies(s, t, key);
    case UpdatePolicy(p, a, caps, n) => UpdatePolicyPolicies(s, p, a, caps, n);
    case Revoke(_, _) => hide ControlPlaneStep; RowStepsPolicies(s, step);
    case Remove(_, _) => hide ControlPlaneStep; RowStepsPolicies(s, step);
    case Upgrade(_) => hide ControlPlaneStep; OtherStepsPolicies(s, step);
    case SocketGone(_) => hide ControlPlaneStep; OtherStepsPolicies(s, step);
    case Accept(_, _) => hide ControlPlaneStep; OtherStepsPolicies(s, step);
    case ActionTimer(_) => hide ControlPlaneStep; OtherStepsPolicies(s, step);
    case Resume(_) => hide ControlPlaneStep; OtherStepsPolicies(s, step);
    case Maintenance => hide ControlPlaneStep; OtherStepsPolicies(s, step);
    case Shutdown => hide ControlPlaneStep; OtherStepsPolicies(s, step);
    case _ =>
  }

  lemma OutsidePolicies(s: System, step: Step)
    requires PolicyInv(s)
    ensures PolicyInv(OutsideStep(s, step))
  {
    hide PolicyInv, InstallStep, AgentReceiveStep, RestartStep, ForeignSignStep;
    match step
    case Install(a) => InstallPolicies(s, a);
    case AgentReceive(a, e) => AgentReceivePolicies(s, a, e);
    case Restart(a) => RestartPolicies(s, a);
    case ForeignSign(k, e) => ForeignPolicies(s, k, e);
    case _ =>
  }

  lemma ApplyPolicies(s: System, e: Event)
    requires PolicyInv(s)
    ensures PolicyInv(Apply(s, e))
  {
    hide PolicyInv, ControlPlaneStep, OutsideStep, AtControlPlane;
    if e.now >= s.clock {
      var t := s.(clock := e.now);
      QuietPolicies(s, t);
      if !AtControlPlane(e.step) {
        OutsidePolicies(t, e.step);
      } else if !t.cp.connections.shuttingDown {
        ControlPlanePolicies(t, e.step);
      }
    }
  }

  lemma {:induction false} RunPolicies(s: System, es: seq<Event>)
    requires PolicyInv(s)
    ensures PolicyInv(Run(s, es))
  {
    hide PolicyInv, Apply;
    if es != [] {
      RunPolicies(s, es[..|es| - 1]);
      ApplyPolicies(Run(s, es[..|es| - 1]), es[|es| - 1]);
    }
  }

  // ---------------------------------------------------------------------------------------------
  // An agent is installed once
  // ---------------------------------------------------------------------------------------------

  /** An unused token's agent has not been deployed, and a deployed agent has no reply on its way. */
  ghost predicate DeployInv(s: System) {
    && (forall t :: t in s.cp.tokens && !s.cp.tokens[t].used ==>
          s.cp.tokens[t].agentId !in s.responses && s.cp.tokens[t].agentId !in s.procs)
    && (forall a :: a in s.responses ==> a !in s.procs)
  }

  ghost predicate TokensShrink(s: System, t: System) {
    && (forall k :: k in t.cp.tokens ==> k in s.cp.tokens && t.cp.tokens[k] == s.cp.tokens[k])
    && t.responses.Keys == s.responses.Keys
    && t.procs.Keys == s.procs.Keys
  }

  lemma TokensShrinkKeeps(s: System, t: System)
    requires DeployInv(s) && TokensShrink(s, t)
    ensures DeployInv(t)
  {
  }

  lemma CreateTokenDeploys(s: System, p: Principal, alias: nat, a: AgentId, t: TokenHash,
                           caps: set<Capability>, ttlMs: int)
    requires DeployInv(s) && AgentsAgree(s)
    ensures DeployInv(CreateTokenStep(s, p, alias, a, t, caps, ttlMs))
  {
    hide MayCreateToken;
  }

  lemma EnrollDeploys(s: System, t: TokenHash, key: Key)
    requires DeployInv(s) && Enrollment(s.cp, s.h)
    ensures DeployInv(EnrollStep(s, t, key))
  {
  }

  lemma ReceiveDeploys(s: System, c: ConnectionId, m: Option<Envelope>)
    requires DeployInv(s)
    ensures DeployInv(ReceiveStep(s, c, m))
  {
    hide DeployInv, ResultHandled, HelloHandled;
    if m.Some? && m.value.Hello? {
      HelloFrame(s.cp, c, m.value, s.signed, s.clock);
    } else if m.Some? && m.value.ActionResult? {
      ResultSame(s.cp, c, m.value, s.signed, s.clock);
    }
    TokensShrinkKeeps(s, ReceiveStep(s, c, m));
  }

  lemma OtherDeploys(s: System, step: Step)
    requires DeployInv(s)
    requires !step.Receive? && !step.CreateToken? && !step.EnrollAgent?
    ensures DeployInv(ControlPlaneStep(s, step))
  {
    hide DeployInv;
    if UserStep(step) {
      UserStepTokens(s, step);
    } else {
      QuietStepTokens(s, step);
    }
    hide ControlPlaneStep, TokensShrink;
    TokensShrinkKeeps(s, ControlPlaneStep(s, step));
  }

  ghost predicate UserStep(step: Step) {
    step.CallTool? || step.UpdatePolicy? || step.Revoke? || step.Remove? || step.Maintenance?
  }

  lemma UserStepTokens(s: System, step: Step)
    requires UserStep(step)
    ensures TokensShrink(s, ControlPlaneStep(s, step))
  {
    hide CallToolStep, UpdatePolicyStep, RevokeStep, RemoveStep, MaintenanceStep, UpgradeStep, SocketGoneStep, AcceptStep,
         ReceiveStep, CloseEventStep, CreateTokenStep, EnrollStep, ActionTimerStep, ResumeStep, ShutdownStep;
    match step
    case CallTool(p, a, tool, id, t, n) => CallToolTokens(s, p, a, tool, id, t, n);
    case UpdatePolicy(p, a, caps, n) => AdminTokens(s, p, a, caps, n);
    case Revoke(p, a) => AdminTokens(s, p, a, {}, 0);
    case Remove(p, a) => AdminTokens(s, p, a, {}, 0);
    case Maintenance => MaintenanceTokens(s);
  }

  lemma CallToolTokens(s: System, p: Principal, a: AgentId, tool: Tool, id: ActionId, timeoutMs: int, nonce: Nonce)
    ensures TokensShrink(s, CallToolStep(s, p, a, tool, id, timeoutMs, nonce))
  {
    hide MayDispatch;
  }

  lemma AdminTokens(s: System, p: Principal, a: AgentId, caps: set<Capability>, nonce: Nonce)
    ensures TokensShrink(s, UpdatePolicyStep(s, p, a, caps, nonce))
    ensures TokensShrink(s, RevokeStep(s, p, a)) && TokensShrink(s, RemoveStep(s, p, a))
  {
    hide Grants, Published;
  }

  lemma MaintenanceTokens(s: System)
    ensures TokensShrink(s, MaintenanceStep(s))
  {
    hide CleanedUp;
    CleanedUpTokens(s.cp, s.clock);
  }

  lemma QuietStepTokens(s: System, step: Step)
    requires !step.Receive? && !step.CreateToken? && !step.EnrollAgent? && !UserStep(step)
    ensures TokensShrink(s, ControlPlaneStep(s, step))
  {
    hide Closed, Upgraded, Accepted, SocketReleased, ShutDown, TerminalStatus, Settle;
  }

  lemma CleanedUpTokens(s: State, now: int)
    ensures CleanedUp(s, now).tokens == s.tokens
  {
  }

  lemma OutsideDeploys(s: System, step: Step)
    requires DeployInv(s)
    ensures DeployInv(OutsideStep(s, step))
  {
    hide MessageHandled, MessageAccepted, Runs;
  }

  lemma ApplyDeploys(s: System, e: Event)
    requires DeployInv(s) && PolicyInv(s) && PresenceInv(s)
    ensures DeployInv(Apply(s, e))
  {
    assert AgentsAgree(s) && Enrollment(s.cp, s.h);
    hide PolicyInv, PresenceInv, Enrollment;
    if e.now >= s.clock {
      var t := s.(clock := e.now);
      assert AgentsAgree(t) && DeployInv(t);
      hide AgentsAgree, AtControlPlane, DeployInv;
      if !AtControlPlane(e.step) {
        OutsideDeploys(t, e.step);
      } else {
        ControlPlaneDeploys(t, e.step);
      }
      hide ControlPlaneStep, OutsideStep;
    }
  }

  lemma ControlPlaneDeploys(s: System, step: Step)
    requires DeployInv(s) && AgentsAgree(s) && Enrollment(s.cp, s.h)
    ensures DeployInv(ControlPlaneStep(s, step))
  {
    hide DeployInv, AgentsAgree, Enrollment;
    if step.Receive? {
      ReceiveDeploys(s, step.connection, step.message);
      hide ReceiveStep;
    } else if step.CreateToken? {
      CreateTokenDeploys(s, step.principal, step.alias, step.newAgent, step.token, step.capabilities, step.ttlMs);
      hide CreateTokenStep;
    } else if step.EnrollAgent? {
      EnrollDeploys(s, step.token, step.key);
      hide EnrollStep;
    } else {
      OtherDeploys(s, step);
      hide ControlPlaneStep;
    }
  }

  /** The process of an agent only moves forward: it stays installed, its enforced version never
      drops, and the versions it accepted are only added to. */
  ghost predicate Forward(s: System, t: System, a: AgentId) {
    a in s.procs ==>
      && a in t.procs
      && s.procs[a].policy.version <= t.procs[a].policy.version
      && AppliedBy(s, a) <= AppliedBy(t, a)
  }

  lemma ApplyForward(s: System, e: Event, a: AgentId)
    requires DeployInv(s)
    ensures Forward(s, Apply(s, e), a)
  {
    if e.now >= s.clock {
      var t := s.(clock := e.now);
      ControlPlaneLeavesAgents(t, e.step);
      OutsideForward(t, e.step, a);
      hide ControlPlaneStep, OutsideStep;
    }
  }

  lemma OutsideForward(s: System, step: Step, a: AgentId)
    requires DeployInv(s)
    ensures Forward(s, OutsideStep(s, step), a)
  {
    hide MessageAccepted, Runs;
    if step.AgentReceive? && step.agentId in s.procs {
      MessageForward(s.procs[step.agentId], step.agentId, s.controlKey, step.envelope, s.signed, s.clock);
    }
    hide MessageHandled;
  }

  lemma MessageForward(p: Proc, a: AgentId, key: Key, e: Envelope, signed: set<Signed>, now: int)
    ensures MessageHandled(p, a, key, e, signed, now).policy.version >= p.policy.version
  {
  }

  lemma ControlPlaneLeavesAgents(s: System, step: Step)
    ensures ControlPlaneStep(s, step).procs == s.procs
    ensures ControlPlaneStep(s, step).h.applied == s.h.applied
  {
    if CalledByUser(step) {
      UserCallsLeaveAgents(s, step);
    } else {
      OthersLeaveAgents(s, step);
    }
  }

  ghost predicate CalledByUser(step: Step) {
    step.CallTool? || step.CreateToken? || step.EnrollAgent? || step.UpdatePolicy? || step.Revoke? || step.Remove?
  }

  lemma UserCallsLeaveAgents(s: System, step: Step)
    requires CalledByUser(step)
    ensures ControlPlaneStep(s, step).procs == s.procs
    ensures ControlPlaneStep(s, step).h.applied == s.h.applied
  {
    hide MayDispatch, MayCreateToken, MayAdminister, MayEnroll, Dispatched, TokenCreated, AgentEnrolled, PolicyStored,
         AgentRevoked, AgentRemoved;
  }

  lemma OthersLeaveAgents(s: System, step: Step)
    requires !CalledByUser(step)
    ensures ControlPlaneStep(s, step).procs == s.procs
    ensures ControlPlaneStep(s, step).h.applied == s.h.applied
  {
    hide ReceiveStep, Unpended, RowUpdated, ConnectionClosed, Maintained, ClosedDown, Accepted, Upgraded,
         SocketReleased, TerminalStatus, CallToolStep, CreateTokenStep, EnrollStep, UpdatePolicyStep, RevokeStep, RemoveStep;
    if step.Receive? {
      ReceiveLeavesAgents(s, step.connection, step.message);
    }
  }

  lemma ReceiveLeavesAgents(s: System, c: ConnectionId, m: Option<Envelope>)
    ensures ReceiveStep(s, c, m).procs == s.procs && ReceiveStep(s, c, m).h.applied == s.h.applied
  {
    hide HelloHandled, ResultHandled;
  }

  ghost predicate Agreement(s: System) {
    PresenceInv(s) && PolicyInv(s) && DeployInv(s)
  }

  lemma {:induction false} RunAgreement(s: System, es: seq<Event>)
    requires Agreement(s)
    ensures Agreement(Run(s, es))
  {
    hide PresenceInv, PolicyInv, DeployInv, Apply;
    if es != [] {
      var t := Run(s, es[..|es| - 1]);
      RunAgreement(s, es[..|es| - 1]);
      ApplyPresence(t, es[|es| - 1]);
      ApplyPolicies(t, es[|es| - 1]);
      ApplyDeploys(t, es[|es| - 1]);
    }
  }

  lemma InitAgreement(maxConnections: nat, maxPerAgent: nat, clock: int, key: Key)
    ensures Agreement(Init(maxConnections, maxPerAgent, clock, key))
  {
    InitPresence(maxConnections, maxPerAgent, clock, key);
    InitPolicies(maxConnections, maxPerAgent, clock, key);
    hide PresenceInv, PolicyInv;
  }

  // ---------------------------------------------------------------------------------------------
  // What the invariants mean
  // ---------------------------------------------------------------------------------------------

  /** The policy agent `a` enforces is exactly the one published for it under that version, its version
      never exceeds the stored one, and the versions it accepted from updates strictly increase. */
  ghost predicate InAgreement(s: System, a: AgentId) {
    a in s.procs ==>
      var p := s.procs[a].policy;
      && a in s.h.published
      && 1 <= p.version <= |s.h.published[a]|
      && p == s.h.published[a][p.version - 1]
      && (a in s.cp.agents ==> p.version <= s.cp.agents[a].policyVersion == |s.h.published[a]|)
      && (forall i, j :: 0 <= i < j < |AppliedBy(s, a)| ==> AppliedBy(s, a)[i] < AppliedBy(s, a)[j])
      && (forall i :: 0 <= i < |AppliedBy(s, a)| ==> AppliedBy(s, a)[i] <= p.version)
  }

  lemma AgreementMeans(s: System, a: AgentId)
    requires PolicyInv(s)
    ensures InAgreement(s, a)
  {
    hide Authority, UpdatesGenuine, Numbered;
  }

  /** In every run every agent is in agreement, so that no update is ever applied twice. */
  lemma PolicyAgreement(maxConnections: nat, maxPerAgent: nat, clock: int, key: Key, es: seq<Event>, a: AgentId)
    ensures InAgreement(Run(Init(maxConnections, maxPerAgent, clock, key), es), a)
  {
    InitPolicies(maxConnections, maxPerAgent, clock, key);
    RunPolicies(Init(maxConnections, maxPerAgent, clock, key), es);
    hide Run, PolicyInv, InAgreement;
    AgreementMeans(Run(Init(maxConnections, maxPerAgent, clock, key), es), a);
  }

  /** Along every run an installed agent never returns to an older version. */
  lemma {:induction false} VersionsNeverRegress(s: System, es: seq<Event>, a: AgentId)
    requires Agreement(s) && a in s.procs
    ensures Forward(s, Run(s, es), a)
  {
    if es != [] {
      var t := Run(s, es[..|es| - 1]);
      hide PresenceInv, PolicyInv, DeployInv, Apply;
      VersionsNeverRegress(s, es[..|es| - 1], a);
      RunAgreement(s, es[..|es| - 1]);
      ApplyForward(t, es[|es| - 1], a);
    }
  }

  /** Every tool an agent ran traces back to one dispatch for that agent by its owner: the user's scopes
      and the policy stored at dispatch granted the tool's capability, and the policy the agent enforced when
      it ran the tool, published for that agent and at most one version behind, granted it too. */
  lemma AuthorityTrace(maxConnections: nat, maxPerAgent: nat, clock: int, key: Key, es: seq<Event>, i: nat)
    ensures var s := Run(Init(maxConnections, maxPerAgent, clock, key), es);
            i < |s.h.executions| ==>
              var x := s.h.executions[i];
              && x.request.ActionRequest?
              && x.request.actionId in s.h.dispatched
              && var d := s.h.dispatched[x.request.actionId];
              var capability := ToolCapability(x.request.tool);
              && d.request == x.request && d.request.agentId == x.agentId
              && d.principal.userId == d.owner
              && Grants(d.principal, capability)
              && capability in d.storedPolicy.capabilities
              && capability in x.policy.capabilities
              && IsPublished(s.h.published, x.agentId, d.storedPolicy)
              && IsPublished(s.h.published, x.agentId, x.policy)
              && x.policy.version <= d.storedPolicy.version <= x.policy.version + 1
  {
    var s := Run(Init(maxConnections, maxPerAgent, clock, key), es);
    InitPolicies(maxConnections, maxPerAgent, clock, key);
    RunPolicies(Init(maxConnections, maxPerAgent, clock, key), es);
    hide Run, Grants, RowsCurrent, UpdatesGenuine, Numbered, AgentsAgree, AppliedAscending;
    if i < |s.h.executions| {
      assert ExecutionSound(s, s.h.executions[i]);
      assert Authorized(s, s.h.executions[i].request.actionId);
    }
  }
}
