/** The control plane as an object that updates its tables in place. Every method does to the tables
    what the function for the same stretch of code in ControlPlane.dfy does to the state. */
module RemoteControlPlane {
  import opened Options
  import opened RemoteTypes
  import opened ConnectionLifecycle
  import opened ExpiringLog
  import opened NonceWindows
  import opened ControlPlane
  import opened RemotePresence

  class Server {
    const lifecycle: AgentConnectionLifecycle
    var agentConnections: map<AgentId, Live>
    var agentHelloNonces: map<AgentId, seq<Entry>>
    var pendingActions: map<ActionId, ActionRow>
    var agents: map<AgentId, AgentRow>
    var tokens: map<TokenHash, TokenRow>
    var actions: map<ActionId, ActionRow>

    ghost function Value(): State
      reads this, lifecycle
    {
      State(lifecycle.Value(), agentConnections, agentHelloNonces, pendingActions, agents, tokens, actions)
    }

    constructor (maxConnections: nat, maxPerAgent: nat)
      ensures Value() == Empty(maxConnections, maxPerAgent) && fresh(lifecycle)
      ensures Presence(Value())
    {
      lifecycle := new AgentConnectionLifecycle(maxConnections, maxPerAgent);
      agentConnections := map[];
      agentHelloNonces := map[];
      pendingActions := map[];
      agents := map[];
      tokens := map[];
      actions := map[];
    }

    /** `pruneNonceWindow` on a window held in one of the tables. */
    method Pruned(w: seq<Entry>, now: int) returns (kept: seq<Entry>)
      ensures kept == Unexpired(w, now)
    {
      kept := [];
      for i := 0 to |w|
        invariant kept == Unexpired(w[..i], now)
      {
        assert w[..i + 1][..i] == w[..i];
        if w[i].expiresAt > now {
          kept := kept + [w[i]];
        }
      }
      assert w[..|w|] == w;
    }

    method CleanupEphemeralState(now: int)
      modifies this`agentHelloNonces, this`agentConnections
      ensures Value() == CleanedUp(old(Value()), now)
    {
      hide WindowsPruned, LivePruned;
      PruneHelloWindows(now);
      PruneLiveWindows(now);
    }

    method PruneHelloWindows(now: int)
      modifies this`agentHelloNonces
      ensures agentHelloNonces == WindowsPruned(old(agentHelloNonces), now)
    {
      var todo := agentHelloNonces.Keys;
      ghost var before := agentHelloNonces;
      while todo != {}
        invariant todo <= before.Keys
        invariant forall a :: a in agentHelloNonces ==> a in before
        invariant forall a :: a in todo ==> a in agentHelloNonces && agentHelloNonces[a] == before[a]
        invariant forall a :: a in before && a !in todo ==>
                    (a in agentHelloNonces <==> Unexpired(before[a], now) != [])
        invariant forall a :: a in agentHelloNonces && a !in todo ==> agentHelloNonces[a] == Unexpired(before[a], now)
        decreases todo
      {
        var a :| a in todo;
        var kept := Pruned(agentHelloNonces[a], now);
        agentHelloNonces := if kept == [] then agentHelloNonces - {a} else agentHelloNonces[a := kept];
        todo := todo - {a};
      }
    }

    method PruneLiveWindows(now: int)
      modifies this`agentConnections
      ensures agentConnections == LivePruned(old(agentConnections), now)
    {
      var todo := agentConnections.Keys;
      ghost var before := agentConnections;
      while todo != {}
        invariant todo <= before.Keys && agentConnections.Keys == before.Keys
        invariant forall a :: a in todo ==> agentConnections[a] == before[a]
        invariant forall a :: a in before && a !in todo ==>
                    agentConnections[a] == before[a].(seenNonces := Unexpired(before[a].seenNonces, now))
        decreases todo
      {
        var a :| a in todo;
        var kept := Pruned(agentConnections[a].seenNonces, now);
        agentConnections := agentConnections[a := agentConnections[a].(seenNonces := kept)];
        todo := todo - {a};
      }
    }

    // -------------------------------------------------------------------------------------------
    // Messages and close events
    // -------------------------------------------------------------------------------------------

    /** Called for a managed connection, while the server is up. */
    method HandleAgentHello(c: ConnectionId, h: Envelope, signed: set<Signed>, now: int) returns (accepted: bool)
      requires h.Hello? && c in lifecycle.managedConnections
      requires Presence(Value()) && !lifecycle.shuttingDown
      modifies this, lifecycle
      ensures (Value(), accepted) == HelloHandled(old(Value()), c, h, signed, now)
      ensures Presence(Value())
    {
      ghost var s := Value();
      HelloKeeps(s, c, h, signed, now);
      hide Presence;
      assert Inv(s.connections) by { PresenceMeansInv(s); }
      var a := h.agentId;
      if a !in agents || agents[a].status == Revoked || agents[a].publicKey.None? {
        return false;
      }
      var ok := lifecycle.Claim(c, a);
      if !ok {
        assert Value() == s;
        return false;
      }
      if !Verifies(signed, agents[a].publicKey.value, h) {
        return false;
      }
      if now - h.timestamp > HELLO_MAX_SKEW_MS || h.timestamp - now > HELLO_MAX_SKEW_MS {
        return false;
      }
      accepted := AdmitHello(c, h, now);
    }

    method AdmitHello(c: ConnectionId, h: Envelope, now: int) returns (accepted: bool)
      requires h.Hello? && h.agentId in agents
      requires Inv(lifecycle.Value()) && BoundTo(lifecycle.Value(), c, h.agentId)
      modifies this, lifecycle
      ensures (Value(), accepted) == HelloAdmitted(old(Value()), c, h, now)
    {
      var a := h.agentId;
      CleanupEphemeralState(now);
      if a in agentConnections && agentConnections[a].connection == c {
        return false;
      }
      var nonces := if a in agentHelloNonces then agentHelloNonces[a] else [];
      if exists i :: 0 <= i < |nonces| && nonces[i].key == h.nonce {
        return false;
      }
      GoOnline(c, h, now);
      return true;
    }

    method GoOnline(c: ConnectionId, h: Envelope, now: int)
      requires h.Hello? && h.agentId in agents
      requires Inv(lifecycle.Value()) && BoundTo(lifecycle.Value(), c, h.agentId)
      modifies this, lifecycle
      ensures Value() == WentOnline(old(Value()), c, h, now)
    {
      var a := h.agentId;
      var nonces := if a in agentHelloNonces then agentHelloNonces[a] else [];
      agentHelloNonces := agentHelloNonces[a := nonces + [Entry(h.nonce, now + NONCE_TTL_MS)]];
      var seen := new NonceWindow();
      seen.Remember(h.nonce, now);
      agentConnections := agentConnections[a := Live(c, seen.entries)];
      lifecycle.MarkAuthenticated(c, a);
      agents := agents[a := agents[a].(status := Online)];
    }

    method HandleActionResult(c: ConnectionId, r: Envelope, signed: set<Signed>, now: int)
      returns (outcome: Option<Outcome>)
      requires r.ActionResult?
      modifies this
      ensures (Value(), outcome) == ResultHandled(old(Value()), c, r, signed, now)
    {
      if r.actionId !in pendingActions {
        return None;
      }
      var pending := pendingActions[r.actionId];
      if r.agentId !in agents || agents[r.agentId].publicKey.None?
         || !Verifies(signed, agents[r.agentId].publicKey.value, r) {
        pendingActions := pendingActions - {r.actionId};
        return Some(Rejected(InternalError));
      }
      if pending.agentId != r.agentId || r.agentId !in agentConnections
         || agentConnections[r.agentId].connection != c {
        pendingActions := pendingActions - {r.actionId};
        return Some(Rejected(SignatureInvalid));
      }
      var live := agentConnections[r.agentId];
      var window := Pruned(live.seenNonces, now);
      if exists i :: 0 <= i < |window| && window[i].key == r.nonce {
        agentConnections := agentConnections[r.agentId := live.(seenNonces := window)];
        pendingActions := pendingActions - {r.actionId};
        return Some(Rejected(ReplayDetected));
      }
      agentConnections := agentConnections[r.agentId := live.(seenNonces := Remembered(live.seenNonces, r.nonce, now))];
      pendingActions := pendingActions - {r.actionId};
      return Some(Resolved(r, agents[r.agentId].publicKey.value));
    }

    method HandleLiveConnectionClosed(a: AgentId, c: ConnectionId)
      modifies this
      ensures Value() == WentOffline(old(Value()), a, c)
    {
      if a !in agents || a !in agentConnections || agentConnections[a].connection != c {
        return;
      }
      agentConnections := agentConnections - {a};
      if agents[a].status != Revoked {
        agents := agents[a := agents[a].(status := Offline)];
      }
    }

    method HandleClose(c: ConnectionId)
      requires Presence(Value())
      modifies this, lifecycle
      ensures Value() == ConnectionClosed(old(Value()), c) && Presence(Value())
    {
      ghost var s := Value();
      ConnectionClosedKeeps(s, c);
      assert Inv(s.connections) by { PresenceMeansInv(s); }
      hide Presence;
      var who := lifecycle.HandleClose(c);
      if who.Some? {
        HandleLiveConnectionClosed(who.value, c);
      }
    }

    // -------------------------------------------------------------------------------------------
    // Calls by users
    // -------------------------------------------------------------------------------------------

    /** `callRemoteTool` up to the promise of `dispatchAction`. */
    method CallRemoteTool(p: Principal, a: AgentId, tool: Tool, id: ActionId) returns (dispatched: bool)
      modifies this
      ensures dispatched <==> MayDispatch(old(Value()), p, a, tool, id)
      ensures Value() == if dispatched then Dispatched(old(Value()), p, a, tool, id) else old(Value())
    {
      var capability := ToolCapability(tool);
      if !Grants(p, capability) || AnsweredLocally(tool) {
        return false;
      }
      if a !in agents || agents[a].userId != p.userId {
        return false;
      }
      if capability !in agents[a].policy.capabilities {
        return false;
      }
      if agents[a].status == Revoked || a !in agentConnections || id in actions {
        return false;
      }
      var action := ActionRow(p.userId, a, tool, Sent);
      actions := actions[id := action];
      pendingActions := pendingActions[id := action];
      return true;
    }

    /** The timer of `dispatchAction`: settles only what is still pending. */
    method ActionTimedOut(id: ActionId) returns (settled: bool)
      modifies this
      ensures settled <==> id in old(pendingActions)
      ensures Value() == Unpended(old(Value()), id)
    {
      settled := id in pendingActions;
      pendingActions := pendingActions - {id};
      assert !settled ==> pendingActions == old(pendingActions);
    }

    /** `dispatchAction` after its promise settled. */
    method FinishAction(id: ActionId, outcome: Outcome)
      modifies this
      ensures Value() == RowUpdated(old(Value()), id, TerminalStatus(outcome))
    {
      var status := match outcome
                    case Resolved(r, _) => if r.ActionResult? && r.ok then Completed else Errored
                    case Rejected(failure) => if failure == AgentTimeout then TimedOut else Errored;
      if id in actions {
        actions := actions[id := actions[id].(status := status)];
      }
    }

    method CreateEnrollmentToken(p: Principal, alias: nat, a: AgentId, t: TokenHash, capabilities: set<Capability>,
                                 ttlMs: int, now: int)
      returns (created: bool)
      modifies this
      ensures created <==> MayCreateToken(old(Value()), p, alias, a, t)
      ensures Value() == if created then TokenCreated(old(Value()), p, alias, a, t, Policy(capabilities, 1), now + ttlMs)
                         else old(Value())
    {
      if !Grants(p, AgentsAdmin) {
        return false;
      }
      if exists b :: b in agents && agents[b].userId == p.userId && agents[b].alias == alias {
        return false;
      }
      if a in agents || t in tokens {
        return false;
      }
      agents := agents[a := AgentRow(p.userId, alias, Pending, None, Policy(capabilities, 1), 1)];
      tokens := tokens[t := TokenRow(a, p.userId, now + ttlMs, false)];
      return true;
    }

    /** One transaction over three tables. */
    method RemoveRevokedAgent(userId: UserId, a: AgentId) returns (removed: bool)
      modifies this
      ensures removed <==> a in old(agents) && old(agents)[a].userId == userId && old(agents)[a].status == Revoked
      ensures Value() == AgentRemoved(old(Value()), userId, a)
    {
      if a !in agents || agents[a].userId != userId || agents[a].status != Revoked {
        return false;
      }
      actions := map i | i in actions && !(actions[i].userId == userId && actions[i].agentId == a) :: actions[i];
      tokens := map t | t in tokens && !(tokens[t].userId == userId && tokens[t].agentId == a) :: tokens[t];
      agents := agents - {a};
      return true;
    }

    method HandleAgentEnroll(t: TokenHash, key: Key, now: int) returns (enrolled: bool)
      modifies this
      ensures enrolled <==> MayEnroll(old(Value()), t, now)
      ensures Value() == if enrolled then AgentEnrolled(old(Value()), t, key) else old(Value())
    {
      if t !in tokens || tokens[t].used || tokens[t].expiresAt < now {
        return false;
      }
      var a := tokens[t].agentId;
      if a !in agents || agents[a].status == Revoked {
        return false;
      }
      tokens := tokens[t := tokens[t].(used := true)];
      agents := agents[a := agents[a].(status := Offline, publicKey := Some(key))];
      return true;
    }

    method UpdatePolicy(p: Principal, a: AgentId, capabilities: set<Capability>) returns (updated: bool)
      modifies this
      ensures updated <==> MayAdminister(old(Value()), p, a)
      ensures Value() == if updated then PolicyStored(old(Value()), a, capabilities) else old(Value())
    {
      if !Grants(p, AgentsAdmin) || a !in agents || agents[a].userId != p.userId {
        return false;
      }
      var nextVersion := agents[a].policyVersion + 1;
      agents := agents[a := agents[a].(policy := Policy(capabilities, nextVersion), policyVersion := nextVersion)];
      return true;
    }

    method RevokeAgent(p: Principal, a: AgentId) returns (revoked: bool)
      modifies this
      ensures revoked <==> MayAdminister(old(Value()), p, a)
      ensures Value() == if revoked then AgentRevoked(old(Value()), a) else old(Value())
    {
      if !Grants(p, AgentsAdmin) || a !in agents || agents[a].userId != p.userId {
        return false;
      }
      agents := agents[a := agents[a].(status := Revoked)];
      agentConnections := agentConnections - {a};
      return true;
    }

    method Close()
      requires Presence(Value())
      modifies this, lifecycle
      ensures Value() == ClosedDown(old(Value()))
    {
      assert Inv(lifecycle.Value()) by { PresenceMeansInv(Value()); }
      lifecycle.Close();
      pendingActions := map[];
      agentConnections := map[];
      agentHelloNonces := map[];
    }
  }

  lemma PresenceMeansInv(s: State)
    requires Presence(s)
    ensures Inv(s.connections)
  {
  }
}
