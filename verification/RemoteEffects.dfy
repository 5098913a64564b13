/** What each event at the control plane does, and exactly when: the conditions are spelled out on the
    rows, connections and scopes themselves. */
module RemoteEffects {
  import opened Options
  import opened RemoteTypes
  import opened ConnectionLifecycle
  import opened ExpiringLog
  import opened NonceWindows
  import opened ControlPlane
  import opened AgentRunner
  import opened RemoteSystem
  import opened RemoteActions
  import opened RemoteResults
  import opened RemotePresence
  import opened RemoteHellos

  /** The control plane is up and the clock does not run backwards. */
  ghost predicate Up(s: System, e: Event) { e.now >= s.clock && !s.cp.connections.shuttingDown }

  /** Nothing happened but the passing of time. */
  ghost predicate OnlyTime(s: System, t: System, now: int) { t == s.(clock := now) }

  // ---------------------------------------------------------------------------------------------
  // Scopes
  // ---------------------------------------------------------------------------------------------

  function ScopeFor(tool: Tool): Scope {
    match tool
    case ListHosts => ScopeHostsRead
    case ListAgents => ScopeAgentsRead
    case CreateEnrollmentToken => ScopeAgentsAdmin
    case GetAgentInstallCommand => ScopeAgentsAdmin
    case GetSystemStatus => ScopeStatusRead
    case TailLogs => ScopeLogsRead
    case RestartService => ScopeServiceManage
    case DockerPs => ScopeDockerManage
    case DockerLogs => ScopeDockerManage
    case DockerRestart => ScopeDockerManage
    case FileRead => ScopeFilesRead
    case FileWrite => ScopeFilesWrite
    case RunShell => ScopeShellExec
    case RunShellAsRoot => ScopeSudoExec
    case UpdateAgentPolicy => ScopeAgentsAdmin
    case RevokeAgent => ScopeAgentsAdmin
    case GetAuditEvents => ScopeAgentsAdmin
  }

  /** Through both tables, each tool needs exactly one scope. */
  lemma OneScopePerTool(p: Principal, tool: Tool)
    ensures Grants(p, ToolCapability(tool)) <==> ScopeFor(tool) in p.scopes
  {
    OnlyScope(tool);
    hide ToolCapability, ScopeFor, ScopeCapabilities;
    assert Grants(p, ToolCapability(tool)) ==>
        exists scope :: scope in p.scopes && ToolCapability(tool) in ScopeCapabilities(scope);
  }

  lemma OnlyScope(tool: Tool)
    ensures forall scope :: ToolCapability(tool) in ScopeCapabilities(scope) <==> scope == ScopeFor(tool)
  {
    forall scope: Scope ensures ToolCapability(tool) in ScopeCapabilities(scope) <==> scope == ScopeFor(tool) {
    }
  }

  // ---------------------------------------------------------------------------------------------
  // From events to steps
  // ---------------------------------------------------------------------------------------------

  lemma UpApplies(s: System, e: Event)
    requires Up(s, e) && AtControlPlane(e.step)
    ensures Apply(s, e) == ControlPlaneStep(s.(clock := e.now), e.step)
  {
    hide ControlPlaneStep;
  }

  // ---------------------------------------------------------------------------------------------
  // Calls by users
  // ---------------------------------------------------------------------------------------------

  /** The user may run the tool on the agent: a scope for it, an agent tool, the user's own agent, a
      stored policy that allows it, not revoked, and connected. */
  ghost predicate CanRun(s: System, p: Principal, a: AgentId, tool: Tool) {
    && ScopeFor(tool) in p.scopes
    && tool in {GetSystemStatus, TailLogs, RestartService, DockerPs, DockerLogs, DockerRestart, FileRead, FileWrite,
                RunShell, RunShellAsRoot}
    && a in s.cp.agents && a in s.cp.live
    && s.cp.agents[a].userId == p.userId
    && s.cp.agents[a].status != Revoked
    && ToolCapability(tool) in s.cp.agents[a].policy.capabilities
  }

  lemma CanRunIsMayDispatch(s: System, p: Principal, a: AgentId, tool: Tool, id: ActionId)
    ensures MayDispatch(s.cp, p, a, tool, id) <==> CanRun(s, p, a, tool) && id !in s.cp.actions
  {
    OneScopePerTool(p, tool);
    hide Grants, ToolCapability, ScopeFor;
  }

  /** A call dispatches exactly when the user may run the tool and the id is fresh; then the row, the
      pending entry, the history and the signed request say who, where, what and until when, and
      otherwise nothing changes. */
  lemma CallToolEffect(s: System, e: Event)
    requires Up(s, e) && e.step.CallTool?
    ensures var (p, a, tool, id) := (e.step.principal, e.step.agentId, e.step.tool, e.step.actionId);
            var t := Apply(s, e);
            if CanRun(s, p, a, tool) && id !in s.cp.actions && id !in s.h.dispatched then
              var row := s.cp.agents[a];
              var request := ActionRequest(id, a, p.userId, tool, ToolCapability(tool), row.policyVersion,
                                           e.now + e.step.timeoutMs, e.step.nonce);
              && t.cp == s.cp.(actions := s.cp.actions[id := ActionRow(p.userId, a, tool, Sent)],
                               pending := s.cp.pending[id := ActionRow(p.userId, a, tool, Sent)])
              && t.h.dispatched == s.h.dispatched[id := Dispatch(p, request, row.policy, p.userId)]
              && t.signed == s.signed + {Signed(s.controlKey, request)}
            else OnlyTime(s, t, e.now)
  {
    UpApplies(s, e);
    CanRunIsMayDispatch(s, e.step.principal, e.step.agentId, e.step.tool, e.step.actionId);
    hide Apply, MayDispatch, ScopeFor, ToolCapability;
  }

  /** The user owns the agent and may administer. */
  ghost predicate Administers(s: System, p: Principal, a: AgentId) {
    ScopeAgentsAdmin in p.scopes && a in s.cp.agents && s.cp.agents[a].userId == p.userId
  }

  lemma AdministersIs(s: System, p: Principal, a: AgentId)
    ensures MayAdminister(s.cp, p, a) <==> Administers(s, p, a)
  {
    OneScopePerTool(p, UpdateAgentPolicy);
    hide Grants;
  }

  /** An update takes effect exactly for the administering owner. Then the row has the requested
      capabilities under the next version, and an update that says so is signed if the agent is live. */
  lemma UpdatePolicyEffect(s: System, e: Event)
    requires Up(s, e) && e.step.UpdatePolicy?
    ensures var (a, t) := (e.step.agentId, Apply(s, e));
            if Administers(s, e.step.principal, a) then
              var row := s.cp.agents[a];
              var policy := Policy(e.step.capabilities, row.policyVersion + 1);
              && t.cp == s.cp.(agents := s.cp.agents[a := row.(policy := policy, policyVersion := row.policyVersion + 1)])
              && t.h.published == s.h.published[a := Published(s, a) + [policy]]
              && t.signed == s.signed + (if a in s.cp.live
                   then {Signed(s.controlKey, PolicyUpdate(a, policy, row.policyVersion + 1, e.now, e.step.nonce))} else {})
            else OnlyTime(s, t, e.now)
  {
    UpApplies(s, e);
    AdministersIs(s, e.step.principal, e.step.agentId);
    hide Apply, MayAdminister;
  }

  /** A revocation takes effect exactly for the administering owner: the row is revoked, and the agent
      is not live any more. */
  lemma RevokeEffect(s: System, e: Event)
    requires Up(s, e) && e.step.Revoke?
    ensures var (a, t) := (e.step.agentId, Apply(s, e));
            if Administers(s, e.step.principal, a) then
              t == s.(clock := e.now, cp := s.cp.(agents := s.cp.agents[a := s.cp.agents[a].(status := Revoked)],
                                                  live := s.cp.live - {a}))
            else OnlyTime(s, t, e.now)
  {
    UpApplies(s, e);
    AdministersIs(s, e.step.principal, e.step.agentId);
    hide Apply, MayAdminister;
  }

  /** Nobody but the owner changes an agent: an update, a revocation or a removal by another user, and a
      call by another user, leave the system as it was. */
  lemma OthersChangeNothing(s: System, e: Event, a: AgentId)
    requires Up(s, e) && a in s.cp.agents
    requires (e.step.CallTool? || e.step.UpdatePolicy? || e.step.Revoke? || e.step.Remove?) && e.step.agentId == a
    requires s.cp.agents[a].userId != e.step.principal.userId
    ensures OnlyTime(s, Apply(s, e), e.now)
  {
    if e.step.CallTool? {
      CallToolEffect(s, e);
    } else if e.step.UpdatePolicy? {
      UpdatePolicyEffect(s, e);
    } else if e.step.Revoke? {
      RevokeEffect(s, e);
    } else {
      UpApplies(s, e);
    }
    hide Apply;
  }

  /** A token is made exactly when the scope allows, no row of the user's bears the alias, and the names
      are fresh. The agent is pending, without a key, under version 1 of the requested policy. */
  lemma CreateTokenEffect(s: System, e: Event)
    requires Up(s, e) && e.step.CreateToken?
    ensures var (p, a, k) := (e.step.principal, e.step.newAgent, e.step.token);
            var t := Apply(s, e);
            if ScopeAgentsAdmin in p.scopes && a !in s.cp.agents && k !in s.cp.tokens
               && a !in s.h.published && k !in s.h.enrollments
               && (forall b :: b in s.cp.agents && s.cp.agents[b].userId == p.userId ==> s.cp.agents[b].alias != e.step.alias)
            then
              && t.cp == s.cp.(agents := s.cp.agents[a := AgentRow(p.userId, e.step.alias, Pending, None,
                                                                   Policy(e.step.capabilities, 1), 1)],
                               tokens := s.cp.tokens[k := TokenRow(a, p.userId, e.now + e.step.ttlMs, false)])
              && t.h.published == s.h.published[a := [Policy(e.step.capabilities, 1)]]
              && t.signed == s.signed
            else OnlyTime(s, t, e.now)
  {
    UpApplies(s, e);
    OneScopePerTool(e.step.principal, CreateEnrollmentToken);
    hide Apply, Grants;
  }

  /** A token enrolls exactly when it is stored, unused, not past its expiry, and its agent is stored and
      not revoked. Then it is used, and the agent offline under the new key; no other row changes. */
  lemma EnrollEffect(s: System, e: Event)
    requires Up(s, e) && e.step.EnrollAgent?
    ensures var (k, t) := (e.step.token, Apply(s, e));
            if k in s.cp.tokens && !s.cp.tokens[k].used && e.now <= s.cp.tokens[k].expiresAt
               && s.cp.tokens[k].agentId in s.cp.agents && s.cp.agents[s.cp.tokens[k].agentId].status != Revoked
            then
              var a := s.cp.tokens[k].agentId;
              && t.cp == s.cp.(tokens := s.cp.tokens[k := s.cp.tokens[k].(used := true)],
                               agents := s.cp.agents[a := s.cp.agents[a].(status := Offline, publicKey := Some(e.step.key))])
              && t.responses == s.responses[a := s.cp.agents[a].policy]
            else OnlyTime(s, t, e.now)
  {
    UpApplies(s, e);
    hide Apply;
  }

  /** Removal takes effect exactly on the user's own revoked row, and takes its tokens and its actions
      with it. */
  lemma RemoveEffect(s: System, e: Event, k: TokenHash, i: ActionId)
    requires Up(s, e) && e.step.Remove?
    ensures var (p, a, t) := (e.step.principal, e.step.agentId, Apply(s, e));
            if a in s.cp.agents && s.cp.agents[a].userId == p.userId && s.cp.agents[a].status == Revoked then
              && t.cp.agents == s.cp.agents - {a}
              && (k in t.cp.tokens <==> k in s.cp.tokens && !(s.cp.tokens[k].userId == p.userId && s.cp.tokens[k].agentId == a))
              && (k in t.cp.tokens ==> t.cp.tokens[k] == s.cp.tokens[k])
              && (i in t.cp.actions <==> i in s.cp.actions && !(s.cp.actions[i].userId == p.userId && s.cp.actions[i].agentId == a))
              && (i in t.cp.actions ==> t.cp.actions[i] == s.cp.actions[i])
            else OnlyTime(s, t, e.now)
  {
    UpApplies(s, e);
    hide Apply;
  }

  // ---------------------------------------------------------------------------------------------
  // Connections and time
  // ---------------------------------------------------------------------------------------------

  /** A socket is reserved exactly below the limit. */
  lemma UpgradeEffect(s: System, e: Event)
    requires Up(s, e) && e.step.Upgrade?
    ensures var (k, t) := (s.cp.connections, Apply(s, e).cp.connections);
            t == k.(reserved := k.reserved + if |k.managed| + |k.reserved| < k.maxConnections then {e.step.socket} else {})
  {
    UpApplies(s, e);
    hide Apply;
  }

  /** An awaited accept gives the reservation back, and a new unauthenticated connection exactly when
      fewer than the limit are managed. */
  lemma AcceptEffect(s: System, e: Event)
    requires Up(s, e) && e.step.Accept?
    requires e.step.socket in s.h.upgrading && e.step.connection !in s.cp.connections.managed
    ensures var (k, t) := (s.cp.connections, Apply(s, e).cp.connections);
            t == k.(reserved := k.reserved - {e.step.socket},
                    managed := if |k.managed| < k.maxConnections
                               then k.managed[e.step.connection := Managed(false, None)] else k.managed)
  {
    UpApplies(s, e);
    hide Apply;
  }

  /** A close takes an agent offline exactly when the connection was authenticated and is the agent's live
      one; a revoked agent stays revoked, and every other agent, row and live entry stays as it was. */
  lemma CloseEffect(s: System, e: Event)
    requires Up(s, e) && e.step.CloseEvent?
    ensures var (c, t) := (e.step.connection, Apply(s, e));
            var k := s.cp.connections;
            if c in k.managed && k.managed[c].authenticated && k.managed[c].agentId.Some?
               && k.managed[c].agentId.value in s.cp.agents && k.managed[c].agentId.value in s.cp.live
               && s.cp.live[k.managed[c].agentId.value].connection == c
            then
              var a := k.managed[c].agentId.value;
              && t.cp.live == s.cp.live - {a}
              && t.cp.agents == s.cp.agents[a := s.cp.agents[a].(status := if s.cp.agents[a].status == Revoked then Revoked else Offline)]
            else t.cp.live == s.cp.live && t.cp.agents == s.cp.agents
  {
    UpApplies(s, e);
    hide Apply, Closed;
  }

  /** Maintenance drops exactly the tokens whose expiry has been reached, and prunes the windows. */
  lemma MaintenanceEffect(s: System, e: Event, k: TokenHash, a: AgentId)
    requires Up(s, e) && e.step.Maintenance?
    ensures var t := Apply(s, e);
            && (k in t.cp.tokens <==> k in s.cp.tokens && s.cp.tokens[k].expiresAt > e.now)
            && (k in t.cp.tokens ==> t.cp.tokens[k] == s.cp.tokens[k])
            && (a in t.cp.live <==> a in s.cp.live)
            && (a in t.cp.live ==>
                  && t.cp.live[a].connection == s.cp.live[a].connection
                  && forall x :: x in t.cp.live[a].seenNonces <==> x in s.cp.live[a].seenNonces && x.expiresAt > e.now)
            && (forall x :: x in HelloWindow(t.cp, a) <==> x in HelloWindow(s.cp, a) && x.expiresAt > e.now)
            && t.cp.agents == s.cp.agents && t.cp.actions == s.cp.actions && t.cp.pending == s.cp.pending
            && t.cp.connections == s.cp.connections
  {
    UpApplies(s, e);
    hide Apply, Unexpired;
    UnexpiredMembers(HelloWindow(s.cp, a), e.now);
    if a in s.cp.live {
      UnexpiredMembers(s.cp.live[a].seenNonces, e.now);
    }
  }

  // ---------------------------------------------------------------------------------------------
  // Hellos and results
  // ---------------------------------------------------------------------------------------------

  /** A hello brings its agent online exactly when the agent is enrolled, the connection may speak for it,
      the hello is signed with the enrolled key and within five minutes of the clock, the agent is not
      live here already, and no unexpired record bears the nonce. Then the agent is live on this
      connection, having seen one nonce, and online; no other row or live connection changes. Otherwise no
      row and no live connection does. */
  lemma HelloEffect(s: State, c: ConnectionId, h: Envelope, signed: set<Signed>, now: int)
    requires h.Hello?
    ensures var (t, ok) := HelloHandled(s, c, h, signed, now);
            var a := h.agentId;
            && (ok <==>
                  && a in s.agents && s.agents[a].status != Revoked && s.agents[a].publicKey.Some?
                  && MayClaim(s.connections, c, a)
                  && Signed(s.agents[a].publicKey.value, h) in signed
                  && h.timestamp - 300_000 <= now <= h.timestamp + 300_000
                  && !(a in s.live && s.live[a].connection == c)
                  && (forall x :: x in HelloWindow(s, a) && x.key == h.nonce ==> x.expiresAt <= now))
            && (ok ==>
                  && t.agents == s.agents[a := s.agents[a].(status := Online)]
                  && a in t.live && t.live[a] == Live(c, [Entry(h.nonce, now + 300_000)])
                  && Entry(h.nonce, now + 300_000) in HelloWindow(t, a))
            && (!ok ==> t.agents == s.agents && (a in t.live <==> a in s.live)
                        && (a in t.live ==> t.live[a].connection == s.live[a].connection))
            && (forall b :: b != a ==> (b in t.live <==> b in s.live) && (b in t.live ==> t.live[b].connection == s.live[b].connection))
            && t.tokens == s.tokens && t.actions == s.actions && t.pending == s.pending
  {
    HelloAcceptedExactly(s, c, h, signed, now);
    HelloEnds(s, c, h, signed, now);
    HelloFlag(s, c, h, signed, now);
    HelloKeepsWindows(s, c, h, signed, now);
    OneNonce(h.nonce, now);
    var u := s.(connections := Claimed(s.connections, c, h.agentId));
    CleanedUpSame(u, now);
    CleanedUpActions(u, now);
    hide HelloHandled, Claimed, MayClaim, Remembered, WindowsPruned, HelloWindow;
  }

  lemma OneNonce(nonce: Nonce, now: int)
    ensures Remembered([], nonce, now) == [Entry(nonce, now + 300_000)]
  {
    assert Unexpired([], now) == [];
  }

  /** What lets connection `c` speak for agent `a`: it is unmanaged, or it is unbound or already the
      agent's, and the agent has room for it. */
  lemma MayClaimExactly(k: Connections, c: ConnectionId, a: AgentId)
    ensures MayClaim(k, c, a) <==>
              c in k.managed ==>
                && (k.managed[c].agentId == None || k.managed[c].agentId == Some(a))
                && ((a in k.claims && c in k.claims[a]) || (if a in k.claims then |k.claims[a]| else 0) < k.maxPerAgent)
  {
    assert a !in k.claims ==> ClaimsOf(k, a) == {};
  }

  /** How a result settles the action it names, in the order of the checks: a bad signature, a wrong agent
      or connection, a nonce seen before, or success. */
  lemma ResultEffect(s: State, c: ConnectionId, r: Envelope, signed: set<Signed>, now: int)
    requires r.ActionResult?
    ensures var (t, o) := ResultHandled(s, c, r, signed, now);
            var a := r.agentId;
            if r.actionId !in s.pending then o == None && t == s
            else
              && t.pending == s.pending - {r.actionId}
              && o.Some?
              && o.value ==
                   if !(a in s.agents && s.agents[a].publicKey.Some? && Signed(s.agents[a].publicKey.value, r) in signed)
                   then Rejected(InternalError)
                   else if s.pending[r.actionId].agentId != a || !(a in s.live && s.live[a].connection == c)
                   then Rejected(SignatureInvalid)
                   else if exists x :: x in s.live[a].seenNonces && x.key == r.nonce && x.expiresAt > now
                   then Rejected(ReplayDetected)
                   else Resolved(r, s.agents[a].publicKey.value)
  {
    if r.agentId in s.live {
      UnexpiredMembers(s.live[r.agentId].seenNonces, now);
      HasIff(Unexpired(s.live[r.agentId].seenNonces, now), r.nonce);
    }
    hide Unexpired, Has, Remembered;
  }

  /** The timer settles an action exactly when it is still pending, as timed out. */
  lemma ActionTimerEffect(s: System, e: Event)
    requires Up(s, e) && e.step.ActionTimer?
    ensures var (id, t) := (e.step.actionId, Apply(s, e));
            if id in s.cp.pending then
              && t.cp == s.cp.(pending := s.cp.pending - {id})
              && (id in s.h.outcomes ==> t.h.outcomes == s.h.outcomes[id := s.h.outcomes[id] + [Rejected(AgentTimeout)]])
            else OnlyTime(s, t, e.now)
  {
    UpApplies(s, e);
    hide Apply;
  }

  /** The first continuation after a promise settled writes its row, if the row still exists. */
  lemma ResumeEffect(s: System, e: Event, o: Outcome)
    requires Up(s, e) && e.step.Resume?
    requires Outcomes(s, e.step.actionId) == [o] && e.step.actionId in s.h.rowWrites
    ensures var (id, t) := (e.step.actionId, Apply(s, e));
            if RowWrites(s, id) == [] then
              && (id in t.cp.actions <==> id in s.cp.actions)
              && (id in t.cp.actions ==> StatusTells(t.cp.actions[id].status, o))
              && |RowWrites(t, id)| == 1 && StatusTells(RowWrites(t, id)[0], o)
            else OnlyTime(s, t, e.now)
  {
    UpApplies(s, e);
    hide Apply;
  }

  // ---------------------------------------------------------------------------------------------
  // Agents
  // ---------------------------------------------------------------------------------------------

  /** The process has accepted the action and not forgotten it. */
  ghost predicate Seen(p: Proc, id: ActionId) { exists x :: x in p.seenActions && x.key == id }

  /** What makes an agent run a request: signed by its control plane, for it, not seen, in time, under its
      policy's version or the next one, for the tool's capability, which its policy grants. */
  ghost predicate WillRun(s: System, a: AgentId, r: Envelope, now: int) {
    && a in s.procs && r.ActionRequest? && r.agentId == a && Signed(s.controlKey, r) in s.signed
    && !Seen(s.procs[a], r.actionId) && now <= r.deadline
    && (r.policyVersion == s.procs[a].policy.version || r.policyVersion == s.procs[a].policy.version + 1)
    && r.capability == ToolCapability(r.tool) && r.capability in s.procs[a].policy.capabilities
  }

  /** What makes an agent take over a policy. */
  ghost predicate WillEnforce(s: System, a: AgentId, u: Envelope, now: int) {
    && a in s.procs && u.PolicyUpdate? && u.agentId == a && Signed(s.controlKey, u) in s.signed
    && (forall x :: x in s.procs[a].policyNonces && x.key == u.nonce ==> x.expiresAt <= now)
    && now - 300_000 <= u.issuedAt <= now + 30_000
    && u.policyVersion == u.policy.version > s.procs[a].policy.version
  }

  /** A message runs a tool exactly when it is such a request, changes the policy exactly when it is such
      an update, and changes no other agent and nothing at the control plane. */
  lemma AgentReceiveEffect(s: System, e: Event)
    requires e.now >= s.clock && e.step.AgentReceive? && e.step.agentId in s.procs
    ensures var (a, m, t) := (e.step.agentId, e.step.envelope, Apply(s, e));
            && t.h.executions == s.h.executions
                 + (if WillRun(s, a, m, e.now) then [Execution(a, m, s.procs[a].policy)] else [])
            && t.procs.Keys == s.procs.Keys
            && t.procs[a].policy == (if WillEnforce(s, a, m, e.now) then m.policy else s.procs[a].policy)
            && (forall b :: b in s.procs && b != a ==> t.procs[b] == s.procs[b])
            && t.cp == s.cp && t.signed == s.signed
  {
    var (a, m) := (e.step.agentId, e.step.envelope);
    if m.ActionRequest? {
      HasIff(s.procs[a].seenActions, m.actionId);
    }
    if m.PolicyUpdate? {
      UpdateAcceptedExactly(s.procs[a], m, e.now);
    }
    hide UpdateHandled, Insert, Has;
  }

  /** What an unmanaged connection sends changes nothing, and a connection that has not said hello can say
      nothing else: no message that is not a hello reaches a handler from it. */
  lemma StrangersAreIgnored(s: System, e: Event)
    requires e.now >= s.clock && e.step.Receive?
    requires || e.step.connection !in s.cp.connections.managed
             || e.step.message.None?
             || (!s.cp.connections.managed[e.step.connection].authenticated && !e.step.message.value.Hello?)
    ensures OnlyTime(s, Apply(s, e), e.now)
  {
    hide HelloStep, ResultStep;
  }

  /** Installing starts a process under the policy the enrollment answered with, that has seen nothing; a
      restart keeps the policy and forgets what was seen. */
  lemma StartEffect(s: System, e: Event)
    requires e.now >= s.clock && (e.step.Install? || e.step.Restart?)
    ensures var (a, t) := (e.step.agentId, Apply(s, e));
            if e.step.Install? then
              if a in s.responses then t.procs == s.procs[a := Proc(s.responses[a], [], [])] && a !in t.responses
              else OnlyTime(s, t, e.now)
            else if a in s.procs then t == s.(clock := e.now, procs := s.procs[a := Proc(s.procs[a].policy, [], [])])
            else OnlyTime(s, t, e.now)
  {
  }

  /** A request dispatched to an agent that enforces the stored version runs when it is delivered for the
      first time before its deadline. */
  lemma DispatchedActionRuns(s: System, e: Event, later: int)
    requires Up(s, e) && e.step.CallTool? && e.step.agentId in s.procs
    requires CanRun(s, e.step.principal, e.step.agentId, e.step.tool)
    requires e.step.actionId !in s.cp.actions && e.step.actionId !in s.h.dispatched
    requires !Seen(s.procs[e.step.agentId], e.step.actionId)
    requires s.procs[e.step.agentId].policy == s.cp.agents[e.step.agentId].policy
    requires s.cp.agents[e.step.agentId].policyVersion == s.cp.agents[e.step.agentId].policy.version
    requires e.now <= later <= e.now + e.step.timeoutMs
    ensures var (a, id) := (e.step.agentId, e.step.actionId);
            var t := Apply(s, e);
            && id in t.h.dispatched
            && Apply(t, Event(later, AgentReceive(a, t.h.dispatched[id].request))).h.executions
               == s.h.executions + [Execution(a, t.h.dispatched[id].request, s.procs[a].policy)]
  {
    CallToolEffect(s, e);
    OutsideUntouched(s, e);
    var t := Apply(s, e);
    hide Apply, CanRun;
    AgentReceiveEffect(t, Event(later, AgentReceive(e.step.agentId, t.h.dispatched[e.step.actionId].request)));
  }

  lemma OutsideUntouched(s: System, e: Event)
    requires Up(s, e) && (e.step.CallTool? || e.step.UpdatePolicy?)
    ensures var t := Apply(s, e);
            t.procs == s.procs && t.controlKey == s.controlKey && t.clock == e.now && t.h.executions == s.h.executions
  {
    UpApplies(s, e);
    hide Apply, MayDispatch, MayAdminister, Dispatched, PolicyStored;
  }

  /** An update for a live agent, delivered within five minutes to a process with an older version and no
      record of its nonce, puts exactly the requested capabilities in force. */
  lemma PublishedUpdateEnforced(s: System, e: Event, later: int)
    requires Up(s, e) && e.step.UpdatePolicy? && Administers(s, e.step.principal, e.step.agentId)
    requires e.step.agentId in s.cp.live && e.step.agentId in s.procs
    requires s.procs[e.step.agentId].policy.version <= s.cp.agents[e.step.agentId].policyVersion
    requires forall x :: x in s.procs[e.step.agentId].policyNonces ==> x.key != e.step.nonce
    requires e.now <= later <= e.now + 300_000
    ensures var (a, version) := (e.step.agentId, s.cp.agents[e.step.agentId].policyVersion + 1);
            var policy := Policy(e.step.capabilities, version);
            var t := Apply(s, e);
            && Apply(t, Event(later, AgentReceive(a, PolicyUpdate(a, policy, version, e.now, e.step.nonce)))).procs[a].policy
               == policy
  {
    var (a, version) := (e.step.agentId, s.cp.agents[e.step.agentId].policyVersion + 1);
    UpdatePolicyEffect(s, e);
    OutsideUntouched(s, e);
    var t := Apply(s, e);
    hide Apply, Administers;
    AgentReceiveEffect(t, Event(later, AgentReceive(a, PolicyUpdate(a, Policy(e.step.capabilities, version), version, e.now, e.step.nonce))));
  }

  // ---------------------------------------------------------------------------------------------
  // Over runs
  // ---------------------------------------------------------------------------------------------

  /** Whatever the state, an event that adds a dispatch is a call by the agent's owner, with a scope for
      the tool and a stored policy that allows it. */
  lemma DispatchedByOwner(s: System, e: Event, id: ActionId)
    requires id !in s.h.dispatched && id in Apply(s, e).h.dispatched
    ensures e.step.CallTool? && e.step.actionId == id
    ensures var (p, d) := (e.step.principal, Apply(s, e).h.dispatched[id]);
            && d.principal == p && d.request.ActionRequest? && d.request.agentId == e.step.agentId && d.request.tool == e.step.tool
            && e.step.agentId in s.cp.agents
            && s.cp.agents[e.step.agentId].userId == p.userId == d.owner == d.request.userId
            && ScopeFor(e.step.tool) in p.scopes
            && ToolCapability(e.step.tool) in s.cp.agents[e.step.agentId].policy.capabilities
  {
    if e.step.CallTool? && Up(s, e) {
      CallToolEffect(s, e);
      hide Apply;
    } else {
      OnlyCallsDispatch(s, e);
    }
  }

  lemma OnlyCallsDispatch(s: System, e: Event)
    requires !(e.step.CallTool? && Up(s, e))
    ensures Apply(s, e).h.dispatched == s.h.dispatched
  {
    if e.now >= s.clock {
      var t := s.(clock := e.now);
      hide ControlPlaneStep, OutsideStep, WindowsAside;
      OutsideAside(t, e.step);
      if e.step.Receive? {
        ReceiveDispatchesNothing(t, e.step.connection, e.step.message);
        ReceiveIs(t, e.step);
        hide ReceiveStep;
      } else {
        ControlPlaneAside(t, e.step);
      }
    }
  }

  lemma ReceiveIs(s: System, step: Step)
    requires step.Receive?
    ensures ControlPlaneStep(s, step) == ReceiveStep(s, step.connection, step.message)
  {
    hide ReceiveStep;
  }

  lemma ReceiveDispatchesNothing(s: System, c: ConnectionId, m: Option<Envelope>)
    ensures ReceiveStep(s, c, m).h.dispatched == s.h.dispatched
  {
    if m.Some? && m.value.Hello? {
      HelloDispatchesNothing(s, c, m.value);
    } else if m.Some? && m.value.ActionResult? {
      ResultDispatchesNothing(s, c, m.value);
    }
    hide HelloStep, ResultStep;
  }

  lemma HelloDispatchesNothing(s: System, c: ConnectionId, m: Envelope)
    requires m.Hello?
    ensures HelloStep(s, c, m).h.dispatched == s.h.dispatched
  {
    hide HelloHandled, HelloTimes;
  }

  lemma ResultDispatchesNothing(s: System, c: ConnectionId, m: Envelope)
    requires m.ActionResult?
    ensures ResultStep(s, c, m).h.dispatched == s.h.dispatched
  {
    hide ResultHandled;
  }

  /** Shutdown drops everything in memory, keeps every row, and lets nothing in again. */
  lemma ShutdownEffect(s: System, e: Event)
    requires Up(s, e) && e.step.Shutdown?
    ensures var (k, t) := (s.cp.connections, Apply(s, e));
            && t.cp == State(Connections(map[], map[], {}, true, k.maxConnections, k.maxPerAgent), map[], map[], map[],
                             s.cp.agents, s.cp.tokens, s.cp.actions)
            && t.signed == s.signed && t.procs == s.procs
  {
    UpApplies(s, e);
    hide Apply;
  }

  /** After the owner's revocation the agent is revoked or absent in every continuation. */
  lemma RevocationIsFinal(maxConnections: nat, maxPerAgent: nat, clock: int, key: Key, es: seq<Event>, e: Event,
                          more: seq<Event>)
    requires var s := Run(Init(maxConnections, maxPerAgent, clock, key), es);
             Up(s, e) && e.step.Revoke? && Administers(s, e.step.principal, e.step.agentId)
    ensures var t := Run(Apply(Run(Init(maxConnections, maxPerAgent, clock, key), es), e), more);
            e.step.agentId in t.cp.agents ==> t.cp.agents[e.step.agentId].status == Revoked
  {
    var s := Run(Init(maxConnections, maxPerAgent, clock, key), es);
    InitPresence(maxConnections, maxPerAgent, clock, key);
    RunPresence(Init(maxConnections, maxPerAgent, clock, key), es);
    assert e.step.agentId in s.h.published;
    RevokeEffect(s, e);
    hide Run, Apply, PresenceInv, Administers;
    RevokedIsForever(Apply(s, e), more, e.step.agentId);
  }
}
