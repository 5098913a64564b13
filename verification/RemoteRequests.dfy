/** The policies the owners asked for are the policies that are stored, published and enforced. */
module RemoteRequests {
  import opened Options
  import opened RemoteTypes
  import opened ConnectionLifecycle
  import opened ControlPlane
  import opened AgentRunner
  import opened RemoteSystem
  import opened RemotePolicies
  import opened RemoteEffects

  // ---------------------------------------------------------------------------------------------
  // What was asked for
  // ---------------------------------------------------------------------------------------------

  /** The event makes a token, so it asks for an agent's first policy. */
  ghost predicate MakesToken(s: System, e: Event) {
    && Up(s, e) && e.step.CreateToken?
    && ScopeAgentsAdmin in e.step.principal.scopes
    && e.step.newAgent !in s.cp.agents && e.step.token !in s.cp.tokens
    && e.step.newAgent !in s.h.published && e.step.token !in s.h.enrollments
    && (forall b :: b in s.cp.agents && s.cp.agents[b].userId == e.step.principal.userId ==>
          s.cp.agents[b].alias != e.step.alias)
  }

  /** The event is an administering owner's, so it asks for a new policy. */
  ghost predicate AsksUpdate(s: System, e: Event) {
    Up(s, e) && e.step.UpdatePolicy? && Administers(s, e.step.principal, e.step.agentId)
  }

  ghost function AskedOf(asked: map<AgentId, seq<set<Capability>>>, a: AgentId): seq<set<Capability>> {
    if a in asked then asked[a] else []
  }

  ghost function AskedBy(s: System, asked: map<AgentId, seq<set<Capability>>>, e: Event): map<AgentId, seq<set<Capability>>> {
    if MakesToken(s, e) then asked[e.step.newAgent := [e.step.capabilities]]
    else if AsksUpdate(s, e) then asked[e.step.agentId := AskedOf(asked, e.step.agentId) + [e.step.capabilities]]
    else asked
  }

  /** For each agent, the capabilities asked for by the requests that took effect, in order. */
  ghost function Asked(s: System, es: seq<Event>): map<AgentId, seq<set<Capability>>> {
    if es == [] then map[]
    else AskedBy(Run(s, es[..|es| - 1]), Asked(s, es[..|es| - 1]), es[|es| - 1])
  }

  // ---------------------------------------------------------------------------------------------
  // Nothing else publishes
  // ---------------------------------------------------------------------------------------------

  lemma SocketsPublishNothing(s: System, socket: SocketId, c: ConnectionId)
    ensures UpgradeStep(s, socket).h.published == s.h.published && SocketGoneStep(s, socket).h.published == s.h.published
    ensures AcceptStep(s, socket, c).h.published == s.h.published && CloseEventStep(s, c).h.published == s.h.published
  {
    hide Upgraded, SocketReleased, Accepted, ConnectionClosed;
  }

  lemma MessagesPublishNothing(s: System, c: ConnectionId, m: Option<Envelope>)
    ensures ReceiveStep(s, c, m).h.published == s.h.published
  {
    if m.Some? && m.value.Hello? {
      assert HelloStep(s, c, m.value).h.published == s.h.published by { hide HelloHandled, HelloTimes; }
    } else if m.Some? && m.value.ActionResult? {
      assert ResultStep(s, c, m.value).h.published == s.h.published by { hide ResultHandled; }
    }
    hide HelloStep, ResultStep;
  }

  lemma CallsPublishNothing(s: System, p: Principal, a: AgentId, tool: Tool, id: ActionId, timeoutMs: int, nonce: Nonce)
    ensures CallToolStep(s, p, a, tool, id, timeoutMs, nonce).h.published == s.h.published
  {
    hide MayDispatch, Dispatched;
  }

  lemma RowsPublishNothing(s: System, p: Principal, a: AgentId, t: TokenHash, key: Key)
    ensures EnrollStep(s, t, key).h.published == s.h.published
    ensures RevokeStep(s, p, a).h.published == s.h.published && RemoveStep(s, p, a).h.published == s.h.published
  {
    hide MayEnroll, AgentEnrolled, MayAdminister, AgentRevoked, AgentRemoved, EnrolledBy;
  }

  lemma TimersPublishNothing(s: System, id: ActionId)
    ensures ActionTimerStep(s, id).h.published == s.h.published && ResumeStep(s, id).h.published == s.h.published
    ensures MaintenanceStep(s).h.published == s.h.published && ShutdownStep(s).h.published == s.h.published
  {
    hide Published;
    assert ActionTimerStep(s, id).h.published == s.h.published;
    ResumePublishesNothing(s, id);
    assert MaintenanceStep(s).h.published == s.h.published by { hide Maintained; }
    ShutdownPublishesNothing(s);
    hide ActionTimerStep, ResumeStep, MaintenanceStep, ShutdownStep;
  }

  lemma ResumePublishesNothing(s: System, id: ActionId)
    ensures ResumeStep(s, id).h.published == s.h.published
  {
    hide RowUpdated, TerminalStatus;
  }

  lemma ShutdownPublishesNothing(s: System)
    ensures ShutdownStep(s).h.published == s.h.published
  {
    hide ClosedDown;
  }

  lemma AgentsPublishNothing(s: System, a: AgentId, k: Key, e: Envelope)
    ensures InstallStep(s, a).h.published == s.h.published && RestartStep(s, a).h.published == s.h.published
    ensures ForeignSignStep(s, k, e).h.published == s.h.published && AgentReceiveStep(s, a, e).h.published == s.h.published
  {
    AgentReceivePublishesNothing(s, a, e);
    hide AgentReceiveStep;
  }

  lemma AgentReceivePublishesNothing(s: System, a: AgentId, e: Envelope)
    ensures AgentReceiveStep(s, a, e).h.published == s.h.published
  {
    hide MessageHandled, MessageAccepted, Runs, AppliedBy;
  }

  lemma StepPublishesNothing(s: System, step: Step)
    requires !step.CreateToken? && !step.UpdatePolicy?
    ensures Taken(s, step).h.published == s.h.published
  {
    hide ControlPlaneStep, OutsideStep;
    OutsidePublishesNothing(s, step);
    ControlPlanePublishesNothing(s, step);
  }

  lemma OutsidePublishesNothing(s: System, step: Step)
    ensures OutsideStep(s, step).h.published == s.h.published
  {
    hide InstallStep, AgentReceiveStep, RestartStep, ForeignSignStep;
    match step
    case Install(a) => AgentsPublishNothing(s, a, 0, Hello(0, 0, 0));
    case AgentReceive(a, e) => AgentsPublishNothing(s, a, 0, e);
    case Restart(a) => AgentsPublishNothing(s, a, 0, Hello(0, 0, 0));
    case ForeignSign(k, e) => AgentsPublishNothing(s, 0, k, e);
    case _ =>
  }

  lemma ControlPlanePublishesNothing(s: System, step: Step)
    requires !step.CreateToken? && !step.UpdatePolicy?
    ensures ControlPlaneStep(s, step).h.published == s.h.published
  {
    hide UpgradeStep, SocketGoneStep, AcceptStep, ReceiveStep, CloseEventStep, CallToolStep, CreateTokenStep, EnrollStep,
         UpdatePolicyStep, RevokeStep, RemoveStep, ActionTimerStep, ResumeStep, MaintenanceStep, ShutdownStep;
    match step
    case Upgrade(socket) => SocketsPublishNothing(s, socket, 0);
    case SocketGone(socket) => SocketsPublishNothing(s, socket, 0);
    case Accept(socket, c) => SocketsPublishNothing(s, socket, c);
    case Receive(c, m) => MessagesPublishNothing(s, c, m);
    case CloseEvent(c) => SocketsPublishNothing(s, 0, c);
    case CallTool(p, a, tool, id, t, n) => CallsPublishNothing(s, p, a, tool, id, t, n);
    case EnrollAgent(t, key) => RowsPublishNothing(s, Principal(0, {}), 0, t, key);
    case Revoke(p, a) => RowsPublishNothing(s, p, a, 0, 0);
    case Remove(p, a) => RowsPublishNothing(s, p, a, 0, 0);
    case ActionTimer(id) => TimersPublishNothing(s, id);
    case Resume(id) => TimersPublishNothing(s, id);
    case Maintenance => TimersPublishNothing(s, 0);
    case Shutdown => TimersPublishNothing(s, 0);
    case _ =>
  }

  // ---------------------------------------------------------------------------------------------
  // Published is what was asked for
  // ---------------------------------------------------------------------------------------------

  /** Version v is what the v-th request that took effect asked for. */
  ghost predicate AsAsked(published: seq<Policy>, asked: seq<set<Capability>>) {
    && |published| == |asked|
    && forall v :: 0 <= v < |asked| ==> published[v].capabilities == asked[v]
  }

  ghost predicate AllAsAsked(s: System, asked: map<AgentId, seq<set<Capability>>>) {
    forall a :: AsAsked(Published(s, a), AskedOf(asked, a))
  }

  lemma ApplyAsAsked(s: System, asked: map<AgentId, seq<set<Capability>>>, e: Event)
    requires AllAsAsked(s, asked)
    ensures AllAsAsked(Apply(s, e), AskedBy(s, asked, e))
  {
    var t, more := Apply(s, e), AskedBy(s, asked, e);
    PublishedStep(s, e);
    EventKinds(s, e);
    hide Apply, AskedBy, AsksUpdate, MakesToken, AsAsked;
    forall a ensures AsAsked(Published(t, a), AskedOf(more, a)) {
      assert AsAsked(Published(s, a), AskedOf(asked, a));
      AskedStep(s, asked, e, a);
      OneMoreAsked(Published(s, a), AskedOf(asked, a), e);
    }
  }

  lemma OneMoreAsked(published: seq<Policy>, asked: seq<set<Capability>>, e: Event)
    ensures e.step.CreateToken? ==> AsAsked([Policy(e.step.capabilities, 1)], [e.step.capabilities])
    ensures e.step.UpdatePolicy? && AsAsked(published, asked) ==>
              forall v :: AsAsked(published + [Policy(e.step.capabilities, v)], asked + [e.step.capabilities])
  {
  }

  lemma AskedStep(s: System, asked: map<AgentId, seq<set<Capability>>>, e: Event, a: AgentId)
    ensures AskedOf(AskedBy(s, asked, e), a)
            == if MakesToken(s, e) && a == e.step.newAgent then [e.step.capabilities]
               else if AsksUpdate(s, e) && a == e.step.agentId then AskedOf(asked, a) + [e.step.capabilities]
               else AskedOf(asked, a)
  {
    hide MakesToken, AsksUpdate;
    assert MakesToken(s, e) ==> e.step.CreateToken? by { EventKinds(s, e); }
    assert AsksUpdate(s, e) ==> e.step.UpdatePolicy? by { EventKinds(s, e); }
  }

  lemma EventKinds(s: System, e: Event)
    ensures MakesToken(s, e) ==> e.step.CreateToken?
    ensures AsksUpdate(s, e) ==> e.step.UpdatePolicy?
  {
  }

  /** How an event changes what is published. */
  lemma PublishedStep(s: System, e: Event)
    ensures forall a :: Published(Apply(s, e), a)
              == if MakesToken(s, e) && a == e.step.newAgent then [Policy(e.step.capabilities, 1)]
                 else if AsksUpdate(s, e) && a == e.step.agentId
                 then Published(s, a) + [Policy(e.step.capabilities, s.cp.agents[a].policyVersion + 1)]
                 else Published(s, a)
  {
    if e.now < s.clock || (s.cp.connections.shuttingDown && AtControlPlane(e.step)) {
    } else if e.step.CreateToken? {
      CreateTokenEffect(s, e);
      hide Apply;
    } else if e.step.UpdatePolicy? {
      UpdatePolicyEffect(s, e);
      hide Apply, Administers;
    } else {
      StepPublishesNothing(s.(clock := e.now), e.step);
      hide Taken;
    }
  }

  lemma {:induction false} RunAsAsked(s: System, es: seq<Event>)
    requires s.h.published == map[]
    ensures AllAsAsked(Run(s, es), Asked(s, es))
  {
    hide Apply, AskedBy;
    if es != [] {
      hide AllAsAsked;
      RunAsAsked(s, es[..|es| - 1]);
      ApplyAsAsked(Run(s, es[..|es| - 1]), Asked(s, es[..|es| - 1]), es[|es| - 1]);
    }
  }

  /** In every run, version v of an agent's published policy has exactly the capabilities that the v-th
      request that took effect asked for. */
  lemma PublishedAsAsked(maxConnections: nat, maxPerAgent: nat, clock: int, key: Key, es: seq<Event>, a: AgentId)
    ensures var s0 := Init(maxConnections, maxPerAgent, clock, key);
            AsAsked(Published(Run(s0, es), a), AskedOf(Asked(s0, es), a))
  {
    RunAsAsked(Init(maxConnections, maxPerAgent, clock, key), es);
    hide Run, Asked, AsAsked;
  }

  /** The agent enforces exactly what the request that its version counts asked for, and the stored row
      holds what the last one asked for. */
  ghost predicate EnforcesAsked(s: System, asked: seq<set<Capability>>, a: AgentId) {
    && (a in s.procs ==>
          && 1 <= s.procs[a].policy.version <= |asked|
          && s.procs[a].policy.capabilities == asked[s.procs[a].policy.version - 1])
    && (a in s.cp.agents ==>
          && 1 <= s.cp.agents[a].policyVersion == |asked|
          && s.cp.agents[a].policy == Policy(asked[|asked| - 1], |asked|))
  }

  lemma EnforcedIsAsked(s: System, asked: map<AgentId, seq<set<Capability>>>, a: AgentId)
    requires PolicyInv(s) && AllAsAsked(s, asked)
    ensures EnforcesAsked(s, AskedOf(asked, a), a)
  {
    assert AsAsked(Published(s, a), AskedOf(asked, a));
    hide Authority, UpdatesGenuine, AppliedAscending;
  }

  /** In every run every agent enforces, and every row stores, exactly what was asked for. */
  lemma EnforcedAsAsked(maxConnections: nat, maxPerAgent: nat, clock: int, key: Key, es: seq<Event>, a: AgentId)
    ensures var s0 := Init(maxConnections, maxPerAgent, clock, key);
            EnforcesAsked(Run(s0, es), AskedOf(Asked(s0, es), a), a)
  {
    var s0 := Init(maxConnections, maxPerAgent, clock, key);
    InitPolicies(maxConnections, maxPerAgent, clock, key);
    RunPolicies(s0, es);
    RunAsAsked(s0, es);
    hide Run, Asked, PolicyInv, AllAsAsked, EnforcesAsked;
    EnforcedIsAsked(Run(s0, es), Asked(s0, es), a);
  }
}
