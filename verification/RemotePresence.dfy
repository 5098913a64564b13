/** Connections, live agents, row status and enrollment agree in every reachable state. */
module RemotePresence {
  import opened Options
  import opened RemoteTypes
  import opened ConnectionLifecycle
  import opened ControlPlane
  import opened AgentRunner
  import opened RemoteSystem

  // ---------------------------------------------------------------------------------------------
  // The invariant
  // ---------------------------------------------------------------------------------------------

  /** Agent `a` is live over a managed, authenticated connection bound to `a`, and its row says so. */
  ghost predicate LiveIsSound(cp: State, a: AgentId)
    requires a in cp.live
  {
    var c := cp.live[a].connection;
    && BoundTo(cp.connections, c, a)
    && cp.connections.managed[c].authenticated
    && a in cp.agents && cp.agents[a].status == Online
  }

  /** Before shutdown a stored agent is online exactly when it has a live connection. */
  ghost predicate Presence(cp: State) {
    && Inv(cp.connections)
    && (!cp.connections.shuttingDown ==>
         && (forall a :: a in cp.live ==> LiveIsSound(cp, a))
         && (forall a :: a in cp.agents && cp.agents[a].status == Online ==> a in cp.live))
    && (forall a :: a in cp.agents && cp.agents[a].publicKey.None? ==>
          cp.agents[a].status == Pending || cp.agents[a].status == Revoked)
  }

  /** An unused token's agent has no key yet, no two tokens share an agent, and a token that enrolled
      an agent did so once and is marked used for as long as it is stored. */
  ghost predicate Enrollment(cp: State, h: History) {
    && cp.agents.Keys <= h.published.Keys
    && cp.tokens.Keys <= h.enrollments.Keys
    && (forall t :: t in cp.tokens ==> cp.tokens[t].agentId in h.published)
    && (forall t, u :: t in cp.tokens && u in cp.tokens && t != u ==> cp.tokens[t].agentId != cp.tokens[u].agentId)
    && (forall t :: t in cp.tokens && !cp.tokens[t].used && cp.tokens[t].agentId in cp.agents ==>
          cp.agents[cp.tokens[t].agentId].publicKey.None?)
    && (forall t :: t in h.enrollments ==> |h.enrollments[t]| <= 1)
    && (forall t :: t in h.enrollments && t in cp.tokens && h.enrollments[t] != [] ==> cp.tokens[t].used)
  }

  /** The global limit, up to the accepts that came after their reservation was gone. */
  ghost predicate Bounded(s: System) {
    Load(s.cp.connections) <= s.cp.connections.maxConnections + s.h.lateAccepts
  }

  ghost predicate PresenceInv(s: System) {
    Presence(s.cp) && Enrollment(s.cp, s.h) && Bounded(s)
  }

  lemma InitPresence(maxConnections: nat, maxPerAgent: nat, clock: int, controlKey: Key)
    ensures PresenceInv(Init(maxConnections, maxPerAgent, clock, controlKey))
  {
    InitialInv(maxConnections, maxPerAgent);
  }

  // ---------------------------------------------------------------------------------------------
  // Steps that leave presence alone
  // ---------------------------------------------------------------------------------------------

  /** Same connections, same rows, same live connections (their nonce windows may differ). */
  ghost predicate SamePresence(x: State, y: State) {
    && x.connections == y.connections
    && x.agents == y.agents
    && x.live.Keys == y.live.Keys
    && (forall a :: a in x.live ==> x.live[a].connection == y.live[a].connection)
  }

  lemma SamePresenceKeeps(x: State, y: State)
    requires Presence(x) && SamePresence(x, y)
    ensures Presence(y)
  {
    forall a | a in y.live && !y.connections.shuttingDown ensures LiveIsSound(y, a) {
      assert LiveIsSound(x, a);
    }
  }

  lemma QuietKeeps(s: System, t: System)
    requires PresenceInv(s) && SamePresence(s.cp, t.cp) && t.cp.tokens == s.cp.tokens
    requires t.h.published == s.h.published && t.h.enrollments == s.h.enrollments
    requires t.h.lateAccepts == s.h.lateAccepts
    ensures PresenceInv(t)
  {
    SamePresenceKeeps(s.cp, t.cp);
    hide Presence, Load;
  }

  lemma CleanedUpSame(s: State, now: int)
    ensures SamePresence(s, CleanedUp(s, now))
  {
    assert CleanedUp(s, now).live.Keys == s.live.Keys;
  }

  // ---------------------------------------------------------------------------------------------
  // Connections
  // ---------------------------------------------------------------------------------------------

  /** Connections may change as long as every bound, authenticated connection stays so. */
  lemma ConnectionsKeep(s: State, t: Connections)
    requires Presence(s) && Inv(t) && t.shuttingDown == s.connections.shuttingDown
    requires forall c, a :: BoundTo(s.connections, c, a) && s.connections.managed[c].authenticated ==>
               BoundTo(t, c, a) && t.managed[c].authenticated
    ensures Presence(s.(connections := t))
  {
    var u := s.(connections := t);
    forall a | a in u.live && !u.connections.shuttingDown ensures LiveIsSound(u, a) {
      assert LiveIsSound(s, a);
    }
  }

  lemma UpgradeKeeps(s: System, socket: SocketId)
    requires PresenceInv(s)
    ensures PresenceInv(UpgradeStep(s, socket))
  {
    var t := Upgraded(s.cp.connections, socket);
    UpgradedLoad(s.cp.connections, socket);
    assert t == s.cp.connections.(reserved := t.reserved);
    hide Enrollment, Load, Upgraded;
    SameTablesInv(s.cp.connections, t);
    ConnectionsKeep(s.cp, t);
    SameEnrollment(s, UpgradeStep(s, socket));
    hide Presence, Inv;
  }

  lemma SameEnrollment(s: System, t: System)
    requires Enrollment(s.cp, s.h)
    requires t.cp.agents == s.cp.agents && t.cp.tokens == s.cp.tokens
    requires t.h.published == s.h.published && t.h.enrollments == s.h.enrollments
    ensures Enrollment(t.cp, t.h)
  {
  }

  lemma SameTablesInv(x: Connections, y: Connections)
    requires Inv(x) && y == x.(reserved := y.reserved)
    ensures Inv(y)
  {
    forall c, a ensures BoundTo(y, c, a) <==> InClaims(y, c, a) {
      assert BoundTo(x, c, a) <==> InClaims(x, c, a);
    }
  }

  lemma SocketGoneKeeps(s: System, socket: SocketId)
    requires PresenceInv(s)
    ensures PresenceInv(SocketGoneStep(s, socket))
  {
    var t := SocketReleased(s.cp.connections, socket);
    SubsetSize(t.reserved, s.cp.connections.reserved);
    SameTablesInv(s.cp.connections, t);
    ConnectionsKeep(s.cp, t);
  }

  lemma AcceptKeeps(s: System, socket: SocketId, c: ConnectionId)
    requires PresenceInv(s)
    ensures PresenceInv(AcceptStep(s, socket, c))
  {
    if socket in s.h.upgrading && c !in s.cp.connections.managed {
      var r := SocketReleased(s.cp.connections, socket);
      SameTablesInv(s.cp.connections, r);
      AttachedInv(r, c);
      AcceptedLoad(s.cp.connections, socket, c);
      ConnectionsKeep(s.cp, Attached(r, c));
      SameEnrollment(s, AcceptStep(s, socket, c));
      hide Presence, Enrollment, Load, Inv, Attached, SocketReleased;
    }
  }

  lemma ClosedOthers(s: Connections, c: ConnectionId, d: ConnectionId, a: AgentId)
    requires BoundTo(s, d, a) && s.managed[d].authenticated && d != c
    ensures BoundTo(Closed(s, c), d, a) && Closed(s, c).managed[d].authenticated
  {
  }

  /** The closing connection served agent `a`, or nobody. */
  lemma ServesOnly(s: State, c: ConnectionId, a: AgentId)
    requires Presence(s) && !s.connections.shuttingDown && OnLiveConnection(s, c, a)
    ensures c in s.connections.managed && s.connections.managed[c] == Managed(true, Some(a)) && a in s.agents
  {
    assert LiveIsSound(s, a);
  }

  lemma ConnectionClosedLives(s: State, c: ConnectionId, a: AgentId)
    requires Presence(s) && !s.connections.shuttingDown
    ensures var t := ConnectionClosed(s, c);
            && (a in t.live ==> a in s.live && t.live[a] == s.live[a] && t.live[a].connection != c)
            && (a in s.live && a !in t.live ==> s.live[a].connection == c)
            && (a in t.agents <==> a in s.agents)
            && (a in s.agents ==>
                  t.agents[a] == if OnLiveConnection(s, c, a) && s.agents[a].status != Revoked
                                 then s.agents[a].(status := Offline) else s.agents[a])
  {
    if OnLiveConnection(s, c, a) {
      ServesOnly(s, c, a);
    }
  }

  lemma ConnectionClosedKeeps(s: State, c: ConnectionId)
    requires Presence(s)
    ensures Presence(ConnectionClosed(s, c))
  {
    ClosedInv(s.connections, c);
    var t := ConnectionClosed(s, c);
    assert t.connections == Closed(s.connections, c);
    if !s.connections.shuttingDown {
      forall a ensures a in t.live ==> LiveIsSound(t, a) {
        hide ConnectionClosed, Closed;
        ConnectionClosedLives(s, c, a);
        if a in t.live {
          assert LiveIsSound(s, a);
          ClosedOthers(s.connections, c, s.live[a].connection, a);
        }
      }
      forall a | a in t.agents
        ensures t.agents[a].status == Online ==> a in t.live
        ensures t.agents[a].publicKey.None? ==> t.agents[a].status == Pending || t.agents[a].status == Revoked
      {
        hide ConnectionClosed;
        ConnectionClosedLives(s, c, a);
        if a in s.live {
          assert LiveIsSound(s, a);
        }
      }
    }
  }

  lemma ConnectionClosedRows(s: State, c: ConnectionId)
    ensures ConnectionClosed(s, c).agents.Keys == s.agents.Keys
    ensures forall a :: a in s.agents ==> ConnectionClosed(s, c).agents[a].publicKey == s.agents[a].publicKey
  {
  }

  lemma CloseEventKeeps(s: System, c: ConnectionId)
    requires PresenceInv(s)
    ensures PresenceInv(CloseEventStep(s, c))
  {
    ConnectionClosedKeeps(s.cp, c);
    ConnectionClosedRows(s.cp, c);
    ClosedLoad(s.cp.connections, c);
  }

  // ---------------------------------------------------------------------------------------------
  // Hello
  // ---------------------------------------------------------------------------------------------

  lemma ClaimKeeps(s: State, c: ConnectionId, a: AgentId)
    requires Presence(s)
    ensures Presence(s.(connections := Claimed(s.connections, c, a)))
  {
    var t := Claimed(s.connections, c, a);
    ClaimedInv(s.connections, c, a);
    ConnectionsKeep(s, t);
  }

  lemma WentOnlineKeeps(s: State, c: ConnectionId, h: Envelope, now: int)
    requires Presence(s) && !s.connections.shuttingDown
    requires h.Hello? && h.agentId in s.agents && s.agents[h.agentId].publicKey.Some?
    requires BoundTo(s.connections, c, h.agentId)
    ensures Presence(WentOnline(s, c, h, now))
  {
    var t := WentOnline(s, c, h, now);
    AuthenticatedInv(s.connections, c, h.agentId);
    forall a | a in t.live ensures LiveIsSound(t, a) {
      if a != h.agentId {
        assert LiveIsSound(s, a);
      }
    }
  }

  /** The four ways a hello can end. */
  lemma HelloCases(s: State, c: ConnectionId, h: Envelope, signed: set<Signed>, now: int)
    requires h.Hello?
    ensures var r := HelloHandled(s, c, h, signed, now).0;
            var t := s.(connections := Claimed(s.connections, c, h.agentId));
            || r == s
            || r == t
            || r == CleanedUp(t, now)
            || (Enrolled(s, h.agentId) && MayClaim(s.connections, c, h.agentId)
                && r == WentOnline(CleanedUp(t, now), c, h, now))
  {
    hide Claimed, CleanedUp, WentOnline, MayClaim, Verifies, FreshTimestamp, HelloWindow;
  }

  lemma AdmittedKeeps(s: State, c: ConnectionId, h: Envelope, now: int)
    requires Presence(s) && !s.connections.shuttingDown && h.Hello? && c in s.connections.managed
    requires Enrolled(s, h.agentId) && MayClaim(s.connections, c, h.agentId)
    ensures var t := s.(connections := Claimed(s.connections, c, h.agentId));
            Presence(WentOnline(CleanedUp(t, now), c, h, now))
  {
    var t := s.(connections := Claimed(s.connections, c, h.agentId));
    ClaimKeeps(s, c, h.agentId);
    ClaimedInv(s.connections, c, h.agentId);
    CleanedUpSame(t, now);
    hide Presence, MayClaim, Claimed;
    SamePresenceKeeps(t, CleanedUp(t, now));
    WentOnlineKeeps(CleanedUp(t, now), c, h, now);
  }

  lemma HelloKeeps(s: State, c: ConnectionId, h: Envelope, signed: set<Signed>, now: int)
    requires Presence(s) && !s.connections.shuttingDown && h.Hello? && c in s.connections.managed
    ensures Presence(HelloHandled(s, c, h, signed, now).0)
  {
    hide Presence, HelloHandled, Claimed, MayClaim, WentOnline, SamePresence;
    var t := s.(connections := Claimed(s.connections, c, h.agentId));
    HelloCases(s, c, h, signed, now);
    ClaimKeeps(s, c, h.agentId);
    CleanedUpSame(t, now);
    SamePresenceKeeps(t, CleanedUp(t, now));
    if Enrolled(s, h.agentId) && MayClaim(s.connections, c, h.agentId) {
      AdmittedKeeps(s, c, h, now);
    }
  }

  /** What a hello leaves alone: the key and existence of every row, the tokens, the load. */
  ghost predicate HelloLeaves(s: State, t: State) {
    && t.agents.Keys == s.agents.Keys
    && (forall a :: a in s.agents ==> t.agents[a].publicKey == s.agents[a].publicKey)
    && t.tokens == s.tokens
    && Load(t.connections) == Load(s.connections)
    && t.connections.maxConnections == s.connections.maxConnections
  }

  lemma WentOnlineLeaves(s: State, c: ConnectionId, h: Envelope, now: int)
    requires h.Hello? && h.agentId in s.agents
    ensures HelloLeaves(s, WentOnline(s, c, h, now))
  {
    ClaimedLoad(s.connections, c, h.agentId);
  }

  lemma HelloFrame(s: State, c: ConnectionId, h: Envelope, signed: set<Signed>, now: int)
    requires h.Hello?
    ensures HelloLeaves(s, HelloHandled(s, c, h, signed, now).0)
  {
    hide HelloHandled, Claimed, MayClaim, WentOnline, Load;
    var t := s.(connections := Claimed(s.connections, c, h.agentId));
    HelloCases(s, c, h, signed, now);
    ClaimedLoad(s.connections, c, h.agentId);
    if Enrolled(s, h.agentId) {
      WentOnlineLeaves(CleanedUp(t, now), c, h, now);
    }
  }

  lemma ResultSame(s: State, c: ConnectionId, r: Envelope, signed: set<Signed>, now: int)
    requires r.ActionResult?
    ensures SamePresence(s, ResultHandled(s, c, r, signed, now).0)
    ensures ResultHandled(s, c, r, signed, now).0.tokens == s.tokens
  {
  }

  lemma HelloStepKeeps(s: System, c: ConnectionId, e: Envelope)
    requires PresenceInv(s) && !s.cp.connections.shuttingDown && e.Hello? && c in s.cp.connections.managed
    ensures PresenceInv(HelloStep(s, c, e))
  {
    hide HelloHandled, Presence, Load;
    HelloKeeps(s.cp, c, e, s.signed, s.clock);
    HelloFrame(s.cp, c, e, s.signed, s.clock);
    var t := HelloStep(s, c, e);
    assert Enrollment(t.cp, t.h);
  }

  lemma ResultStepKeeps(s: System, c: ConnectionId, e: Envelope)
    requires PresenceInv(s) && e.ActionResult?
    ensures PresenceInv(ResultStep(s, c, e))
  {
    hide PresenceInv, ResultHandled;
    ResultSame(s.cp, c, e, s.signed, s.clock);
    QuietKeeps(s, ResultStep(s, c, e));
  }

  lemma ReceiveKeeps(s: System, c: ConnectionId, m: Option<Envelope>)
    requires PresenceInv(s) && !s.cp.connections.shuttingDown
    ensures PresenceInv(ReceiveStep(s, c, m))
  {
    hide PresenceInv, HelloStep, ResultStep;
    if c in s.cp.connections.managed && m.Some? {
      if m.value.Hello? {
        HelloStepKeeps(s, c, m.value);
      } else if m.value.ActionResult? {
        ResultStepKeeps(s, c, m.value);
      }
    }
  }

  // ---------------------------------------------------------------------------------------------
  // Rows
  // ---------------------------------------------------------------------------------------------

  /** Changing one row of an agent that is not live, to a status other than online, is harmless. */
  lemma RowKeeps(s: State, a: AgentId, row: AgentRow)
    requires Presence(s) && a !in s.live && row.status != Online
    requires row.publicKey.None? ==> row.status == Pending || row.status == Revoked
    ensures Presence(s.(agents := s.agents[a := row]))
  {
    var t := s.(agents := s.agents[a := row]);
    forall b | b in t.live && !t.connections.shuttingDown ensures LiveIsSound(t, b) {
      assert LiveIsSound(s, b);
    }
  }

  lemma CreateTokenKeeps(s: System, p: Principal, alias: nat, a: AgentId, t: TokenHash,
                         caps: set<Capability>, ttlMs: int)
    requires PresenceInv(s) && !s.cp.connections.shuttingDown
    ensures PresenceInv(CreateTokenStep(s, p, alias, a, t, caps, ttlMs))
  {
    if a !in s.h.published && t !in s.h.enrollments && MayCreateToken(s.cp, p, alias, a, t) {
      UnknownIsNotLive(s.cp, a);
      RowKeeps(s.cp, a, AgentRow(p.userId, alias, Pending, None, Policy(caps, 1), 1));
      var w := CreateTokenStep(s, p, alias, a, t, caps, ttlMs);
      SamePresenceKeeps(s.cp.(agents := w.cp.agents), w.cp);
      CreateTokenTables(s, p, alias, a, t, caps, ttlMs);
      hide Presence, Enrollment, MayCreateToken, Load;
    }
  }

  lemma CreateTokenTables(s: System, p: Principal, alias: nat, a: AgentId, t: TokenHash,
                          caps: set<Capability>, ttlMs: int)
    requires Enrollment(s.cp, s.h)
    requires a !in s.h.published && t !in s.h.enrollments && MayCreateToken(s.cp, p, alias, a, t)
    ensures var w := CreateTokenStep(s, p, alias, a, t, caps, ttlMs); Enrollment(w.cp, w.h)
  {
    hide MayCreateToken;
  }

  lemma UnknownIsNotLive(s: State, a: AgentId)
    requires Presence(s) && !s.connections.shuttingDown && a !in s.agents
    ensures a !in s.live
  {
    assert a in s.live ==> LiveIsSound(s, a);
  }

  lemma KeylessIsNotLive(s: State, a: AgentId)
    requires Presence(s) && !s.connections.shuttingDown && a in s.agents && s.agents[a].publicKey.None?
    ensures a !in s.live
  {
    assert a in s.live ==> LiveIsSound(s, a);
  }

  lemma EnrollKeeps(s: System, t: TokenHash, key: Key)
    requires PresenceInv(s) && !s.cp.connections.shuttingDown
    ensures PresenceInv(EnrollStep(s, t, key))
  {
    if MayEnroll(s.cp, t, s.clock) {
      var a := s.cp.tokens[t].agentId;
      KeylessIsNotLive(s.cp, a);
      RowKeeps(s.cp, a, s.cp.agents[a].(status := Offline, publicKey := Some(key)));
      var w := EnrollStep(s, t, key);
      SamePresenceKeeps(s.cp.(agents := w.cp.agents), w.cp);
      EnrollTables(s, t, key);
    }
  }

  lemma EnrollTables(s: System, t: TokenHash, key: Key)
    requires Enrollment(s.cp, s.h) && MayEnroll(s.cp, t, s.clock)
    ensures Enrollment(EnrollStep(s, t, key).cp, EnrollStep(s, t, key).h)
  {
    assert s.h.enrollments[t] == [];
  }

  lemma PolicyKeeps(s: System, p: Principal, a: AgentId, caps: set<Capability>, nonce: Nonce)
    requires PresenceInv(s)
    ensures PresenceInv(UpdatePolicyStep(s, p, a, caps, nonce))
  {
    if MayAdminister(s.cp, p, a) {
      var t := PolicyStored(s.cp, a, caps);
      forall b | b in t.live && !t.connections.shuttingDown ensures LiveIsSound(t, b) {
        assert LiveIsSound(s.cp, b);
      }
    }
  }

  lemma RevokeKeeps(s: System, p: Principal, a: AgentId)
    requires PresenceInv(s)
    ensures PresenceInv(RevokeStep(s, p, a))
  {
    if MayAdminister(s.cp, p, a) {
      var t := AgentRevoked(s.cp, a);
      forall b | b in t.live && !t.connections.shuttingDown ensures LiveIsSound(t, b) {
        assert LiveIsSound(s.cp, b);
      }
    }
  }

  lemma RemoveKeeps(s: System, p: Principal, a: AgentId)
    requires PresenceInv(s)
    ensures PresenceInv(RemoveStep(s, p, a))
  {
    var t := AgentRemoved(s.cp, p.userId, a);
    forall b | b in t.live && !t.connections.shuttingDown ensures LiveIsSound(t, b) {
      assert LiveIsSound(s.cp, b);
    }
  }

  lemma MaintenanceKeeps(s: System)
    requires PresenceInv(s)
    ensures PresenceInv(MaintenanceStep(s))
  {
    CleanedUpSame(s.cp, s.clock);
    SamePresenceKeeps(s.cp, Maintained(s.cp, s.clock));
  }

  lemma ShutdownKeeps(s: System)
    requires PresenceInv(s)
    ensures PresenceInv(ShutdownStep(s))
  {
    var t := ShutDown(s.cp.connections);
    forall c, a ensures BoundTo(t, c, a) <==> InClaims(t, c, a) {
      assert BoundTo(s.cp.connections, c, a) <==> InClaims(s.cp.connections, c, a);
    }
  }

  // ---------------------------------------------------------------------------------------------
  // Whole runs
  // ---------------------------------------------------------------------------------------------

  /** Presence, tokens and their history are untouched. */
  ghost predicate PresenceAside(s: System, t: System) {
    && SamePresence(s.cp, t.cp) && t.cp.tokens == s.cp.tokens
    && t.h.published == s.h.published && t.h.enrollments == s.h.enrollments && t.h.lateAccepts == s.h.lateAccepts
  }

  lemma CallToolAside(s: System, p: Principal, a: AgentId, tool: Tool, id: ActionId, timeoutMs: int, nonce: Nonce)
    ensures PresenceAside(s, CallToolStep(s, p, a, tool, id, timeoutMs, nonce))
  {
    hide MayDispatch;
  }

  lemma TimerAside(s: System, id: ActionId)
    ensures PresenceAside(s, ActionTimerStep(s, id))
  {
  }

  lemma ResumeAside(s: System, id: ActionId)
    ensures PresenceAside(s, ResumeStep(s, id))
  {
    hide TerminalStatus;
  }

  lemma ActionStepsKeep(s: System, step: Step)
    requires PresenceInv(s) && (step.CallTool? || step.ActionTimer? || step.Resume?)
    ensures PresenceInv(ControlPlaneStep(s, step))
  {
    hide PresenceInv, UpgradeStep, SocketGoneStep, AcceptStep, ReceiveStep, CloseEventStep, CreateTokenStep,
         EnrollStep, UpdatePolicyStep, RevokeStep, RemoveStep, MaintenanceStep, ShutdownStep, CallToolStep,
         ActionTimerStep, ResumeStep;
    match step {
      case CallTool(p, a, tool, id, t, n) => CallToolAside(s, p, a, tool, id, t, n);
      case ActionTimer(id) => TimerAside(s, id);
      case Resume(id) => ResumeAside(s, id);
    }
    hide ControlPlaneStep;
    QuietKeeps(s, ControlPlaneStep(s, step));
  }

  lemma ControlPlaneKeeps(s: System, step: Step)
    requires PresenceInv(s) && !s.cp.connections.shuttingDown
    ensures PresenceInv(ControlPlaneStep(s, step))
  {
    hide PresenceInv, UpgradeStep, SocketGoneStep, AcceptStep, ReceiveStep, CloseEventStep, CreateTokenStep,
         EnrollStep, UpdatePolicyStep, RevokeStep, RemoveStep, MaintenanceStep, ShutdownStep, CallToolStep,
         ActionTimerStep, ResumeStep;
    match step
    case Upgrade(socket) => UpgradeKeeps(s, socket);
    case SocketGone(socket) => SocketGoneKeeps(s, socket);
    case Accept(socket, c) => AcceptKeeps(s, socket, c);
    case Receive(c, m) => ReceiveKeeps(s, c, m);
    case CloseEvent(c) => CloseEventKeeps(s, c);
    case CallTool(_, _, _, _, _, _) => ActionStepsKeep(s, step);
    case CreateToken(p, alias, a, t, caps, ttl) => CreateTokenKeeps(s, p, alias, a, t, caps, ttl);
    case EnrollAgent(t, key) => EnrollKeeps(s, t, key);
    case UpdatePolicy(p, a, caps, n) => PolicyKeeps(s, p, a, caps, n);
    case Revoke(p, a) => RevokeKeeps(s, p, a);
    case Remove(p, a) => RemoveKeeps(s, p, a);
    case ActionTimer(_) => ActionStepsKeep(s, step);
    case Resume(_) => ActionStepsKeep(s, step);
    case Maintenance => MaintenanceKeeps(s);
    case Shutdown => ShutdownKeeps(s);
    case _ =>
  }

  lemma OutsideKeeps(s: System, step: Step)
    requires PresenceInv(s)
    ensures PresenceInv(OutsideStep(s, step))
  {
    hide PresenceInv, MessageHandled, MessageAccepted, Runs;
    QuietKeeps(s, OutsideStep(s, step));
  }

  lemma ApplyPresence(s: System, e: Event)
    requires PresenceInv(s)
    ensures PresenceInv(Apply(s, e))
  {
    if e.now >= s.clock {
      var t := s.(clock := e.now);
      QuietKeeps(s, t);
      hide PresenceInv, ControlPlaneStep, OutsideStep, AtControlPlane;
      if !AtControlPlane(e.step) {
        OutsideKeeps(t, e.step);
      } else if !t.cp.connections.shuttingDown {
        ControlPlaneKeeps(t, e.step);
      }
    }
  }

  /** Every run, from any state in which tables and rows agree, keeps them in agreement. */
  lemma {:induction false} RunPresence(s: System, es: seq<Event>)
    requires PresenceInv(s)
    ensures PresenceInv(Run(s, es))
  {
    hide PresenceInv, Apply;
    if es != [] {
      RunPresence(s, es[..|es| - 1]);
      ApplyPresence(Run(s, es[..|es| - 1]), es[|es| - 1]);
    }
  }

  // ---------------------------------------------------------------------------------------------
  // What the invariant means
  // ---------------------------------------------------------------------------------------------

  /** In every reachable state before shutdown: binding is membership in the agent's claim set; claim
      sets hold managed connections, are disjoint, non-empty and within the per-agent limit; the
      global limit holds up to late accepts; every live entry is managed, authenticated and bound to
      its own agent. */
  lemma ConnectionsInEveryRun(maxConnections: nat, maxPerAgent: nat, clock: int, key: Key, es: seq<Event>,
                              c: ConnectionId, a: AgentId, b: AgentId)
    ensures var s := Run(Init(maxConnections, maxPerAgent, clock, key), es);
            var k := s.cp.connections;
            && (c in k.managed && k.managed[c].agentId == Some(a) <==> a in k.claims && c in k.claims[a])
            && (a in k.claims ==> k.claims[a] <= k.managed.Keys && 0 < |k.claims[a]| <= k.maxPerAgent)
            && (a in k.claims && b in k.claims && a != b ==> k.claims[a] !! k.claims[b])
            && |k.managed| <= k.maxConnections
            && |k.managed| + |k.reserved| <= k.maxConnections + s.h.lateAccepts
            && (a in s.cp.live && !k.shuttingDown ==>
                 var live := s.cp.live[a].connection;
                 live in k.managed && k.managed[live] == Managed(true, Some(a)))
  {
    var s := Run(Init(maxConnections, maxPerAgent, clock, key), es);
    InitPresence(maxConnections, maxPerAgent, clock, key);
    RunPresence(Init(maxConnections, maxPerAgent, clock, key), es);
    var k := s.cp.connections;
    assert BoundTo(k, c, a) <==> InClaims(k, c, a);
    if a in k.claims {
      ClaimsHoldManaged(k, a);
      if b in k.claims && a != b {
        ClaimsAreDisjoint(k, a, b);
      }
    }
    assert a in s.cp.live && !k.shuttingDown ==> LiveIsSound(s.cp, a);
  }

  /** One slot, four events: the first socket closes before the library accepts it, a second takes the
      slot, and the late accept is admitted because the guard of `attach` counts managed connections only. */
  function LateAccept(): seq<Event> {
    [Event(0, Upgrade(8)), Event(0, SocketGone(8)), Event(0, Upgrade(7)), Event(0, Accept(8, 3))]
  }

  lemma RunOfFour(s: System, a: Event, b: Event, c: Event, d: Event)
    ensures Run(s, [a, b, c, d]) == Apply(Apply(Apply(Apply(s, a), b), c), d)
  {
    var es := [a, b, c, d];
    assert es[..3] == [a, b, c] && [a, b, c][..2] == [a, b] && [a, b][..1] == [a] && [a][..0] == [];
    hide Apply;
    assert Run(s, [a]) == Apply(Run(s, []), a);
    assert Run(s, [a, b]) == Apply(Run(s, [a]), b);
    assert Run(s, [a, b, c]) == Apply(Run(s, [a, b]), c);
  }

  lemma SocketSteps(s: System, socket: SocketId, c: ConnectionId)
    requires s.clock == 0 && !s.cp.connections.shuttingDown
    ensures Apply(s, Event(0, Upgrade(socket))) == UpgradeStep(s, socket)
    ensures Apply(s, Event(0, SocketGone(socket))) == SocketGoneStep(s, socket)
    ensures Apply(s, Event(0, Accept(socket, c))) == AcceptStep(s, socket, c)
  {
    assert s.(clock := 0) == s;
    hide UpgradeStep, SocketGoneStep, AcceptStep;
  }

  /** Where each event leaves the sockets. */
  lemma SocketSlots(s: System, socket: SocketId, c: ConnectionId)
    requires s.clock == 0 && !s.cp.connections.shuttingDown
    ensures var t := Apply(s, Event(0, Upgrade(socket)));
            t.cp.connections == Upgraded(s.cp.connections, socket) && t.clock == 0
            && (socket in t.cp.connections.reserved ==> t.h.upgrading == s.h.upgrading + {socket})
    ensures var t := Apply(s, Event(0, SocketGone(socket)));
            t.cp.connections == SocketReleased(s.cp.connections, socket) && t.clock == 0 && t.h == s.h
    ensures var t := Apply(s, Event(0, Accept(socket, c)));
            socket in s.h.upgrading && c !in s.cp.connections.managed ==>
              t.cp.connections == Accepted(s.cp.connections, socket, c)
  {
    SocketSteps(s, socket, c);
    hide Apply, Upgraded, SocketReleased, Accepted;
  }

  lemma FourTables()
    ensures var k0 := Initial(1, 1);
            var k1 := Upgraded(k0, 8); var k2 := SocketReleased(k1, 8);
            var k3 := Upgraded(k2, 7); var k4 := Accepted(k3, 8, 3);
            && k1.reserved == {8} && k2.reserved == {} && k3.reserved == {7} && k3.managed == map[]
            && !k1.shuttingDown && !k2.shuttingDown && !k3.shuttingDown
            && |k4.managed| + |k4.reserved| == 2 && k4.maxConnections == 1
  {
    var k4 := Connections(map[3 := Managed(false, None)], map[], {7}, false, 1, 1);
    assert Upgraded(Initial(1, 1), 8) == Initial(1, 1).(reserved := {8});
    assert SocketReleased(Initial(1, 1).(reserved := {8}), 8) == Initial(1, 1);
    assert Upgraded(Initial(1, 1), 7) == Initial(1, 1).(reserved := {7});
    assert Accepted(Initial(1, 1).(reserved := {7}), 8, 3) == k4;
    assert |k4.managed| == 1 && |k4.reserved| == 1;
  }

  /** At the end of that run managed and reserved connections together exceed the limit. */
  lemma LateAcceptExceedsTheLimit(key: Key)
    ensures var k := Run(Init(1, 1, 0, key), LateAccept()).cp.connections;
            |k.managed| + |k.reserved| == 2 && k.maxConnections == 1
  {
    var s0 := Init(1, 1, 0, key);
    FourTables();
    RunOfFour(s0, Event(0, Upgrade(8)), Event(0, SocketGone(8)), Event(0, Upgrade(7)), Event(0, Accept(8, 3)));
    hide Run, Apply, Upgraded, SocketReleased, Accepted, Initial;
    SocketSlots(s0, 8, 3);
    var s1 := Apply(s0, Event(0, Upgrade(8)));
    SocketSlots(s1, 8, 3);
    var s2 := Apply(s1, Event(0, SocketGone(8)));
    SocketSlots(s2, 7, 3);
    var s3 := Apply(s2, Event(0, Upgrade(7)));
    SocketSlots(s3, 8, 3);
  }

  lemma ClaimsHoldManaged(k: Connections, a: AgentId)
    requires Inv(k) && a in k.claims
    ensures k.claims[a] <= k.managed.Keys && 0 < |k.claims[a]|
  {
    forall c | c in k.claims[a] ensures c in k.managed {
      assert InClaims(k, c, a) && BoundTo(k, c, a);
    }
  }

  /** In every reachable state before shutdown a stored agent is online exactly when it has a live
      connection, and a live agent is stored, keyed and not revoked. */
  lemma OnlineExactlyWhenLive(maxConnections: nat, maxPerAgent: nat, clock: int, key: Key, es: seq<Event>, a: AgentId)
    ensures var s := Run(Init(maxConnections, maxPerAgent, clock, key), es);
            !s.cp.connections.shuttingDown ==>
              && (a in s.cp.agents && s.cp.agents[a].status == Online <==> a in s.cp.live)
              && (a in s.cp.live ==> s.cp.agents[a].publicKey.Some?)
  {
    var s := Run(Init(maxConnections, maxPerAgent, clock, key), es);
    InitPresence(maxConnections, maxPerAgent, clock, key);
    RunPresence(Init(maxConnections, maxPerAgent, clock, key), es);
    assert a in s.cp.live && !s.cp.connections.shuttingDown ==> LiveIsSound(s.cp, a);
  }

  /** Each token enrolls at most one agent, once, in any run. */
  lemma TokenEnrollsAtMostOnce(maxConnections: nat, maxPerAgent: nat, clock: int, key: Key, es: seq<Event>, t: TokenHash)
    ensures var s := Run(Init(maxConnections, maxPerAgent, clock, key), es); |EnrolledBy(s, t)| <= 1
  {
    InitPresence(maxConnections, maxPerAgent, clock, key);
    RunPresence(Init(maxConnections, maxPerAgent, clock, key), es);
  }

  /** Enrolling never changes who is live or online. */
  lemma EnrollKnocksNobodyOffline(s: System, t: TokenHash, key: Key, a: AgentId)
    requires PresenceInv(s) && !s.cp.connections.shuttingDown
    ensures var w := EnrollStep(s, t, key);
            && w.cp.live == s.cp.live
            && (a in s.cp.agents && s.cp.agents[a].status == Online ==>
                  a in w.cp.agents && w.cp.agents[a] == s.cp.agents[a])
  {
    if MayEnroll(s.cp, t, s.clock) {
      KeylessIsNotLive(s.cp, s.cp.tokens[t].agentId);
    }
  }

  /** Shutdown drops the live table but not the status column: exactly the agents that were live
      keep an online row without a connection. */
  lemma ShutdownStrandsOnlineRows(s: System, a: AgentId)
    requires PresenceInv(s) && !s.cp.connections.shuttingDown
    ensures var w := ShutdownStep(s);
            && w.cp.live == map[]
            && (a in w.cp.agents && w.cp.agents[a].status == Online <==> a in s.cp.live)
  {
    assert a in s.cp.live ==> LiveIsSound(s.cp, a);
  }

  // ---------------------------------------------------------------------------------------------
  // Revocation is final
  // ---------------------------------------------------------------------------------------------

  /** The agent was issued once and is now revoked or removed. */
  ghost predicate Gone(cp: State, h: History, a: AgentId) {
    a in h.published && (a in cp.agents ==> cp.agents[a].status == Revoked)
  }

  ghost predicate StaysGone(s: System, t: System, a: AgentId) {
    Gone(s.cp, s.h, a) ==> Gone(t.cp, t.h, a)
  }

  lemma HelloStaysGone(s: System, c: ConnectionId, e: Envelope, a: AgentId)
    requires e.Hello?
    ensures StaysGone(s, HelloStep(s, c, e), a)
  {
    HelloCases(s.cp, c, e, s.signed, s.clock);
    hide HelloHandled, MayClaim, Claimed;
  }

  lemma CloseStaysGone(s: System, c: ConnectionId, a: AgentId)
    ensures StaysGone(s, CloseEventStep(s, c), a)
  {
    hide Closed;
  }

  lemma EnrollStaysGone(s: System, t: TokenHash, key: Key, a: AgentId)
    ensures StaysGone(s, EnrollStep(s, t, key), a)
  {
  }

  lemma AdminStaysGone(s: System, step: Step, a: AgentId)
    requires step.UpdatePolicy? || step.Revoke? || step.Remove? || step.CreateToken?
    ensures StaysGone(s, ControlPlaneStep(s, step), a)
  {
    hide MayCreateToken;
  }

  /** Steps that write no agent row. */
  lemma OtherStaysGone(s: System, step: Step, a: AgentId)
    requires !(step.UpdatePolicy? || step.Revoke? || step.Remove? || step.CreateToken? || step.EnrollAgent?
               || step.Receive? || step.CloseEvent?)
    ensures StaysGone(s, ControlPlaneStep(s, step), a)
  {
    hide MayDispatch, Accepted, Upgraded, ShutDown, CleanedUp;
    assert CleanedUp(s.cp, s.clock).agents == s.cp.agents by { CleanedUpSame(s.cp, s.clock); }
  }

  lemma ReceiveStaysGone(s: System, c: ConnectionId, m: Option<Envelope>, a: AgentId)
    ensures StaysGone(s, ReceiveStep(s, c, m), a)
  {
    hide HelloStep, ResultHandled;
    if m.Some? && m.value.Hello? {
      HelloStaysGone(s, c, m.value, a);
    } else if m.Some? && m.value.ActionResult? {
      ResultSame(s.cp, c, m.value, s.signed, s.clock);
    }
  }

  lemma ApplyStaysGone(s: System, e: Event, a: AgentId)
    ensures StaysGone(s, Apply(s, e), a)
  {
    var t := s.(clock := e.now);
    assert StaysGone(s, t, a);
    var step := e.step;
    if e.now < s.clock {
    } else if !AtControlPlane(step) {
      OutsideStaysGone(t, step, a);
    } else {
      ControlPlaneStaysGone(t, step, a);
    }
    hide ControlPlaneStep, OutsideStep;
  }

  lemma OutsideStaysGone(s: System, step: Step, a: AgentId)
    ensures StaysGone(s, OutsideStep(s, step), a)
  {
    hide MessageHandled, MessageAccepted, Runs;
  }

  lemma ControlPlaneStaysGone(s: System, step: Step, a: AgentId)
    ensures StaysGone(s, ControlPlaneStep(s, step), a)
  {
    hide ReceiveStep, CloseEventStep, EnrollStep;
    match step
    case Receive(c, m) => ReceiveStaysGone(s, c, m, a);
    case CloseEvent(c) => CloseStaysGone(s, c, a);
    case EnrollAgent(t, key) => EnrollStaysGone(s, t, key, a);
    case _ =>
      hide StaysGone, ControlPlaneStep;
      if step.UpdatePolicy? || step.Revoke? || step.Remove? || step.CreateToken? {
        AdminStaysGone(s, step, a);
      } else {
        OtherStaysGone(s, step, a);
      }
  }

  /** Once an agent is revoked it is revoked or absent for the rest of every run: only the removal of
      its row ends the status, and the row never returns. */
  lemma {:induction false} RevokedIsForever(s: System, es: seq<Event>, a: AgentId)
    requires Gone(s.cp, s.h, a)
    ensures Gone(Run(s, es).cp, Run(s, es).h, a)
  {
    hide Gone, Apply;
    if es != [] {
      RevokedIsForever(s, es[..|es| - 1], a);
      ApplyStaysGone(Run(s, es[..|es| - 1]), es[|es| - 1], a);
    }
  }
}
