/** Where results come from: an action resolves only on its agent's live connection, and on one live
    connection a nonce is good for one result. */
module RemoteResults {
  import opened Options
  import opened RemoteTypes
  import opened ConnectionLifecycle
  import opened ExpiringLog
  import opened NonceWindows
  import opened ControlPlane
  import opened AgentRunner
  import opened RemoteSystem
  import opened RemotePresence
  import opened RemoteActions

  // ---------------------------------------------------------------------------------------------
  // The live connection
  // ---------------------------------------------------------------------------------------------

  /** Event `e` brings result `r` to the connection that is live for the agent that signed it. */
  ghost predicate ArrivesLive(s: System, e: Event, r: Envelope) {
    && e.step.Receive? && e.step.message == Some(r)
    && r.ActionResult? && OnLiveConnection(s.cp, e.step.connection, r.agentId)
  }

  ghost predicate LiveIfResolved(s: System, e: Event, o: Outcome, id: ActionId) {
    && (o.Resolved? ==> ArrivesLive(s, e, o.result) && o.result.actionId == id)
    && (o == Rejected(AgentTimeout) <==> e.step == ActionTimer(id))
  }

  /** An event leaves the outcomes of an action alone, or settles it; resolving takes such a result. */
  ghost predicate OutcomesStep(s: System, e: Event, t: System, id: ActionId) {
    || Outcomes(t, id) == Outcomes(s, id)
    || exists o ::
         && Outcomes(t, id) == Outcomes(s, id) + [o]
         && LiveIfResolved(s, e, o, id)
  }

  lemma ResultOutcome(s: System, c: ConnectionId, r: Envelope)
    requires r.ActionResult?
    ensures var o := ResultHandled(s.cp, c, r, s.signed, s.clock).1;
            && (o.Some? && o.value.Resolved? ==> o.value.result == r && OnLiveConnection(s.cp, c, r.agentId))
            && o != Some(Rejected(AgentTimeout))
  {
  }

  lemma ReceiveOutcomes(s: System, e: Event, id: ActionId)
    requires e.step.Receive? && e.now == s.clock
    ensures OutcomesStep(s, e, ReceiveStep(s, e.step.connection, e.step.message), id)
  {
    var m := e.step.message;
    if m.Some? && m.value.ActionResult? {
      ResultOutcome(s, e.step.connection, m.value);
    }
    hide ResultHandled, HelloHandled, OnLiveConnection;
    var t := ReceiveStep(s, e.step.connection, m);
    if Outcomes(t, id) != Outcomes(s, id) {
      var o := ResultHandled(s.cp, e.step.connection, m.value, s.signed, s.clock).1.value;
      assert Outcomes(t, id) == Outcomes(s, id) + [o];
    }
  }

  lemma TimerOutcomes(s: System, e: Event, id: ActionId, other: ActionId)
    requires e.step == ActionTimer(other)
    ensures OutcomesStep(s, e, ActionTimerStep(s, other), id)
  {
    var t := ActionTimerStep(s, other);
    if Outcomes(t, id) != Outcomes(s, id) {
      assert Outcomes(t, id) == Outcomes(s, id) + [Rejected(AgentTimeout)];
    }
  }

  lemma ShutdownOutcomes(s: System, e: Event, id: ActionId)
    requires e.step == Shutdown
    ensures OutcomesStep(s, e, ShutdownStep(s), id)
  {
    var t := ShutdownStep(s);
    hide ClosedDown;
    if Outcomes(t, id) != Outcomes(s, id) {
      assert Outcomes(t, id) == Outcomes(s, id) + [Rejected(InternalError)];
    }
  }

  /** A live entry is gone, as it was, or pruned. */
  ghost predicate AtMostPruned(x: map<AgentId, Live>, y: map<AgentId, Live>, a: AgentId, now: int) {
    a in y ==> a in x && (y[a].seenNonces == x[a].seenNonces || y[a].seenNonces == Unexpired(x[a].seenNonces, now))
  }

  /** The step prunes windows or drops live entries, and touches no outcome and no dispatch. */
  ghost predicate Aside(s: System, t: System) {
    t.h.outcomes == s.h.outcomes && t.h.dispatched == s.h.dispatched && WindowsAside(s, t)
  }

  ghost predicate WindowsAside(s: System, t: System) {
    t.clock == s.clock && forall a :: AtMostPruned(s.cp.live, t.cp.live, a, s.clock)
  }

  lemma QuietOutcomes(s: System, step: Step, id: ActionId)
    requires ActionTables(s)
    requires !step.Receive? && !step.ActionTimer? && !step.Shutdown?
    ensures Outcomes(Taken(s, step), id) == Outcomes(s, id)
  {
    if step.CallTool? {
      CallToolOutcomes(s, step.principal, step.agentId, step.tool, step.actionId, step.timeoutMs, step.nonce, id);
      CallToolTaken(s, step);
      hide Taken, CallToolStep;
    } else {
      hide ControlPlaneStep, OutsideStep, ActionTables;
      OutsideAside(s, step);
      ControlPlaneAside(s, step);
      hide WindowsAside;
    }
  }

  lemma CallToolTaken(s: System, step: Step)
    requires step.CallTool?
    ensures Taken(s, step) == s
            || Taken(s, step) == CallToolStep(s, step.principal, step.agentId, step.tool, step.actionId, step.timeoutMs,
                                              step.nonce)
  {
    hide CallToolStep;
  }

  lemma CallToolOutcomes(s: System, p: Principal, a: AgentId, tool: Tool, other: ActionId, timeoutMs: int, nonce: Nonce,
                         id: ActionId)
    requires ActionTables(s)
    ensures Outcomes(CallToolStep(s, p, a, tool, other, timeoutMs, nonce), id) == Outcomes(s, id)
  {
    hide MayDispatch, Dispatched;
  }

  lemma CallToolWindows(s: System, p: Principal, a: AgentId, tool: Tool, other: ActionId, timeoutMs: int, nonce: Nonce)
    ensures WindowsAside(s, CallToolStep(s, p, a, tool, other, timeoutMs, nonce))
  {
    hide MayDispatch;
  }

  lemma SettlingWindows(s: System, id: ActionId)
    ensures WindowsAside(s, ActionTimerStep(s, id)) && WindowsAside(s, ShutdownStep(s))
    ensures ActionTimerStep(s, id).h.dispatched == s.h.dispatched && ShutdownStep(s).h.dispatched == s.h.dispatched
  {
    hide ShutDown;
  }

  lemma AgentAside(s: System, a: AgentId)
    ensures Aside(s, InstallStep(s, a)) && Aside(s, RestartStep(s, a))
  {
  }

  lemma ForeignAside(s: System, k: Key, e: Envelope)
    ensures Aside(s, ForeignSignStep(s, k, e))
  {
  }

  lemma AgentReceiveAside(s: System, a: AgentId, e: Envelope)
    ensures Aside(s, AgentReceiveStep(s, a, e))
  {
    hide MessageHandled, MessageAccepted, Runs, AppliedBy;
  }

  lemma SocketsAside(s: System, socket: SocketId, c: ConnectionId)
    ensures Aside(s, UpgradeStep(s, socket)) && Aside(s, SocketGoneStep(s, socket)) && Aside(s, AcceptStep(s, socket, c))
  {
    hide Aside;
    UpgradeAside(s, socket);
    SocketGoneAside(s, socket);
    AcceptAside(s, socket, c);
  }

  lemma UpgradeAside(s: System, socket: SocketId)
    ensures Aside(s, UpgradeStep(s, socket))
  {
    hide Upgraded;
  }

  lemma SocketGoneAside(s: System, socket: SocketId)
    ensures Aside(s, SocketGoneStep(s, socket))
  {
    hide SocketReleased;
  }

  lemma AcceptAside(s: System, socket: SocketId, c: ConnectionId)
    ensures Aside(s, AcceptStep(s, socket, c))
  {
    hide Accepted;
  }

  lemma CloseAside(s: System, c: ConnectionId)
    ensures Aside(s, CloseEventStep(s, c))
  {
    hide Closed;
  }

  lemma TokensAside(s: System, p: Principal, alias: nat, a: AgentId, t: TokenHash, caps: set<Capability>, ttl: int,
                    key: Key)
    ensures Aside(s, CreateTokenStep(s, p, alias, a, t, caps, ttl)) && Aside(s, EnrollStep(s, t, key))
  {
    hide Aside;
    CreateTokenAside(s, p, alias, a, t, caps, ttl);
    EnrollAside(s, t, key);
  }

  lemma CreateTokenAside(s: System, p: Principal, alias: nat, a: AgentId, t: TokenHash, caps: set<Capability>, ttl: int)
    ensures Aside(s, CreateTokenStep(s, p, alias, a, t, caps, ttl))
  {
    hide MayCreateToken;
  }

  lemma EnrollAside(s: System, t: TokenHash, key: Key)
    ensures Aside(s, EnrollStep(s, t, key))
  {
    hide EnrolledBy;
  }

  lemma AdminAside(s: System, p: Principal, a: AgentId, caps: set<Capability>, nonce: Nonce)
    ensures Aside(s, UpdatePolicyStep(s, p, a, caps, nonce)) && Aside(s, RevokeStep(s, p, a)) && Aside(s, RemoveStep(s, p, a))
  {
    hide NextPolicy, Published, Grants;
  }

  lemma SweepsAside(s: System, id: ActionId)
    ensures Aside(s, ResumeStep(s, id)) && Aside(s, MaintenanceStep(s))
  {
    hide TerminalStatus, Unexpired, WindowsPruned;
  }

  lemma OutsideAside(s: System, step: Step)
    ensures Aside(s, OutsideStep(s, step))
  {
    hide InstallStep, AgentReceiveStep, RestartStep, ForeignSignStep;
    match step
    case Install(a) => AgentAside(s, a);
    case AgentReceive(a, e) => AgentReceiveAside(s, a, e);
    case Restart(a) => AgentAside(s, a);
    case ForeignSign(k, e) => ForeignAside(s, k, e);
    case _ =>
  }

  lemma ControlPlaneAside(s: System, step: Step)
    requires !step.Receive?
    ensures WindowsAside(s, ControlPlaneStep(s, step))
    ensures !step.ActionTimer? && !step.Shutdown? && !step.CallTool? ==> Aside(s, ControlPlaneStep(s, step))
    ensures !step.CallTool? ==> ControlPlaneStep(s, step).h.dispatched == s.h.dispatched
  {
    hide UpgradeStep, SocketGoneStep, AcceptStep, ReceiveStep, CloseEventStep, CallToolStep, CreateTokenStep, EnrollStep,
         UpdatePolicyStep, RevokeStep, RemoveStep, ActionTimerStep, ResumeStep, MaintenanceStep, ShutdownStep;
    match step
    case Upgrade(socket) => SocketsAside(s, socket, 0);
    case SocketGone(socket) => SocketsAside(s, socket, 0);
    case Accept(socket, c) => SocketsAside(s, socket, c);
    case CloseEvent(c) => CloseAside(s, c);
    case CallTool(p, a, tool, id, t, n) => CallToolWindows(s, p, a, tool, id, t, n);
    case CreateToken(p, alias, a, t, caps, ttl) => TokensAside(s, p, alias, a, t, caps, ttl, 0);
    case EnrollAgent(t, key) => TokensAside(s, Principal(0, {}), 0, 0, t, {}, 0, key);
    case UpdatePolicy(p, a, caps, n) => AdminAside(s, p, a, caps, n);
    case Revoke(p, a) => AdminAside(s, p, a, {}, 0);
    case Remove(p, a) => AdminAside(s, p, a, {}, 0);
    case ActionTimer(id) => SettlingWindows(s, id);
    case Resume(id) => SweepsAside(s, id);
    case Maintenance => SweepsAside(s, 0);
    case Shutdown => SettlingWindows(s, 0);
    case _ =>
  }

  lemma TakenIs(s: System, step: Step)
    requires step.Receive? || step.ActionTimer? || step.Shutdown?
    ensures Taken(s, step) == if s.cp.connections.shuttingDown then s
                              else if step.Receive? then ReceiveStep(s, step.connection, step.message)
                              else if step.ActionTimer? then ActionTimerStep(s, step.actionId)
                              else ShutdownStep(s)
  {
    hide ReceiveStep, ActionTimerStep, ShutdownStep;
  }

  lemma TakenOutcomes(s: System, e: Event, id: ActionId)
    requires ActionTables(s) && e.now == s.clock
    ensures OutcomesStep(s, e, Taken(s, e.step), id)
  {
    hide Taken, ReceiveStep, ActionTimerStep, ShutdownStep, ActionTables;
    if e.step.Receive? || e.step.ActionTimer? || e.step.Shutdown? {
      TakenIs(s, e.step);
      if s.cp.connections.shuttingDown {
      } else if e.step.Receive? {
        ReceiveOutcomes(s, e, id);
      } else if e.step.ActionTimer? {
        TimerOutcomes(s, e, id, e.step.actionId);
      } else {
        ShutdownOutcomes(s, e, id);
      }
    } else {
      QuietOutcomes(s, e.step, id);
    }
    hide Outcomes;
  }

  lemma ApplyOutcomes(s: System, e: Event, id: ActionId)
    requires ActionInv(s)
    ensures OutcomesStep(s, e, Apply(s, e), id)
  {
    if e.now >= s.clock {
      var t := s.(clock := e.now);
      assert ActionTables(s) && ActionTables(t);
      hide Taken, ActionInv, ActionTables;
      TakenOutcomes(t, e, id);
      ClockAside(s, t, e, id);
    }
  }

  lemma ClockAside(s: System, t: System, e: Event, id: ActionId)
    requires t == s.(clock := e.now) && OutcomesStep(t, e, Taken(t, e.step), id)
    ensures OutcomesStep(s, e, Taken(t, e.step), id)
  {
    hide Taken;
    var w := Taken(t, e.step);
    if Outcomes(w, id) != Outcomes(t, id) {
      var o :| Outcomes(w, id) == Outcomes(t, id) + [o]
               && LiveIfResolved(t, e, o, id);
      assert Outcomes(w, id) == Outcomes(s, id) + [o];
    }
  }

  /** Somewhere in the run the result with which the action resolved arrived on the connection that was
      live, at that moment, for the agent that signed it. */
  ghost predicate CameLive(s: System, es: seq<Event>, r: Envelope) {
    exists i :: 0 <= i < |es| && ArrivesLive(Run(s, es[..i]), es[i], r)
  }

  lemma CameLiveLater(s: System, es: seq<Event>, r: Envelope)
    requires es != [] && CameLive(s, es[..|es| - 1], r)
    ensures CameLive(s, es, r)
  {
    hide Run, ArrivesLive;
    var front := es[..|es| - 1];
    var i :| 0 <= i < |front| && ArrivesLive(Run(s, front[..i]), front[i], r);
    assert front[..i] == es[..i];
    assert ArrivesLive(Run(s, es[..i]), es[i], r);
  }

  /** The timer of the action fired in the run. */
  ghost predicate TimerFired(es: seq<Event>, id: ActionId) {
    exists i :: 0 <= i < |es| && es[i].step == ActionTimer(id)
  }

  lemma TimerFiredLater(es: seq<Event>, id: ActionId)
    requires es != []
    ensures TimerFired(es[..|es| - 1], id) ==> TimerFired(es, id)
    ensures es[|es| - 1].step == ActionTimer(id) ==> TimerFired(es, id)
  {
    var front := es[..|es| - 1];
    if TimerFired(front, id) {
      var i :| 0 <= i < |front| && front[i].step == ActionTimer(id);
      assert es[i].step == ActionTimer(id);
    }
  }

  /** The action settled at most once, resolved only with a result for it that came live, and timed out
      only by its own timer. */
  ghost predicate SettledLive(s: System, es: seq<Event>, o: seq<Outcome>, id: ActionId) {
    && |o| <= 1
    && (o != [] && o[0] == Rejected(AgentTimeout) ==> TimerFired(es, id))
    && (o != [] && o[0].Resolved? ==>
          CameLive(s, es, o[0].result) && o[0].result.ActionResult? && o[0].result.actionId == id)
  }

  lemma OneMoreEvent(s: System, es: seq<Event>, id: ActionId)
    requires es != []
    requires SettledLive(s, es[..|es| - 1], Outcomes(Run(s, es[..|es| - 1]), id), id)
    requires OutcomesStep(Run(s, es[..|es| - 1]), es[|es| - 1], Run(s, es), id) && |Outcomes(Run(s, es), id)| <= 1
    ensures SettledLive(s, es, Outcomes(Run(s, es), id), id)
  {
    hide Run, Outcomes, CameLive, ArrivesLive, TimerFired;
    TimerFiredLater(es, id);
    var t, w := Run(s, es[..|es| - 1]), Run(s, es);
    var before, after := Outcomes(t, id), Outcomes(w, id);
    if after == before {
      if before != [] && before[0].Resolved? {
        CameLiveLater(s, es, before[0].result);
      }
    } else {
      var o :| after == before + [o] && LiveIfResolved(t, es[|es| - 1], o, id);
      if o.Resolved? {
        CameNow(s, es, o.result);
      }
    }
  }

  lemma {:induction false} ResolvedLive(s: System, es: seq<Event>, id: ActionId)
    requires PresenceInv(s) && ActionInv(s) && Outcomes(s, id) == []
    ensures SettledLive(s, es, Outcomes(Run(s, es), id), id)
  {
    hide PresenceInv, ActionInv, Apply, OutcomesStep, SettledLive;
    if es == [] {
      NothingYet(s, id);
    } else {
      var t := Run(s, es[..|es| - 1]);
      assert Run(s, es) == Apply(t, es[|es| - 1]);
      hide Run;
      ResolvedLive(s, es[..|es| - 1], id);
      RunActions(s, es[..|es| - 1]);
      RunPresence(s, es[..|es| - 1]);
      ApplyOutcomes(t, es[|es| - 1], id);
      ApplyActions(t, es[|es| - 1]);
      AtMostOne(Run(s, es), id);
      OneMoreEvent(s, es, id);
    }
  }

  lemma NothingYet(s: System, id: ActionId)
    ensures SettledLive(s, [], [], id)
  {
  }

  lemma CameNow(s: System, es: seq<Event>, r: Envelope)
    requires es != [] && ArrivesLive(Run(s, es[..|es| - 1]), es[|es| - 1], r)
    ensures CameLive(s, es, r) && r.ActionResult?
  {
    hide Run, OnLiveConnection;
  }

  lemma AtMostOne(s: System, id: ActionId)
    requires ActionInv(s)
    ensures |Outcomes(s, id)| <= 1
  {
    assert id in s.h.dispatched ==> ActionSound(s, id);
  }

  /** In every run an action that resolved did so, once, with a result for it that arrived on the then
      live connection of the agent that signed it; and one that timed out did so by its own timer. */
  lemma ResolvedOnLiveConnection(maxConnections: nat, maxPerAgent: nat, clock: int, key: Key, es: seq<Event>, id: ActionId)
    ensures var s0 := Init(maxConnections, maxPerAgent, clock, key);
            SettledLive(s0, es, Outcomes(Run(s0, es), id), id)
  {
    InitPresence(maxConnections, maxPerAgent, clock, key);
    hide Run, PresenceInv, SettledLive;
    ResolvedLive(Init(maxConnections, maxPerAgent, clock, key), es, id);
  }

  // ---------------------------------------------------------------------------------------------
  // One nonce, one result
  // ---------------------------------------------------------------------------------------------

  /** Beside a run: for each agent, the nonces its current live connection has taken in, the one of its
      hello first. The expiry of an entry is the time it came plus the lifetime of a nonce. */
  function Logs(s: System, es: seq<Event>): map<AgentId, seq<Entry>> {
    if es == [] then map[]
    else Observed(Run(s, es[..|es| - 1]), Logs(s, es[..|es| - 1]), es[|es| - 1])
  }

  function LogOf(logs: map<AgentId, seq<Entry>>, a: AgentId): seq<Entry> {
    if a in logs then logs[a] else []
  }

  function Observed(s: System, logs: map<AgentId, seq<Entry>>, e: Event): map<AgentId, seq<Entry>> {
    if e.now < s.clock || s.cp.connections.shuttingDown || !e.step.Receive? || e.step.message.None?
       || e.step.connection !in s.cp.connections.managed then logs
    else ObservedMessage(s, logs, e.step.connection, e.step.message.value, e.now)
  }

  function ObservedMessage(s: System, logs: map<AgentId, seq<Entry>>, c: ConnectionId, m: Envelope, now: int)
    : map<AgentId, seq<Entry>>
    requires c in s.cp.connections.managed
  {
    if m.Hello? then
      if HelloHandled(s.cp, c, m, s.signed, now).1 then logs[m.agentId := [Entry(m.nonce, now + NONCE_TTL_MS)]] else logs
    else if m.ActionResult? && s.cp.connections.managed[c].authenticated then
      var o := ResultHandled(s.cp, c, m, s.signed, now).1;
      if o.Some? && o.value.Resolved? then logs[m.agentId := LogOf(logs, m.agentId) + [Entry(m.nonce, now + NONCE_TTL_MS)]]
      else logs
    else logs
  }

  /** Two uses of a nonce are a lifetime apart, or more than 4096 nonces apart. */
  ghost predicate UsesApart(log: seq<Entry>, clock: int) {
    && (forall i :: 0 <= i < |log| ==> log[i].expiresAt <= clock + NONCE_TTL_MS)
    && (forall i, j :: 0 <= i < j < |log| && log[i].key == log[j].key ==>
          log[i].expiresAt + NONCE_TTL_MS <= log[j].expiresAt || j - i > MAX_CONNECTION_NONCES)
  }

  ghost predicate LogKept(live: map<AgentId, Live>, logs: map<AgentId, seq<Entry>>, a: AgentId, clock: int) {
    && UsesApart(LogOf(logs, a), clock)
    && (a in live ==> Remembers(live[a].seenNonces, LogOf(logs, a), clock, MAX_CONNECTION_NONCES))
  }

  ghost predicate NonceInv(s: System, logs: map<AgentId, seq<Entry>>) {
    forall a :: LogKept(s.cp.live, logs, a, s.clock)
  }

  lemma LaterRemembered(w: seq<Entry>, log: seq<Entry>, before: int, now: int, cap: nat)
    requires Remembers(w, log, before, cap) && before <= now
    ensures Remembers(w, log, now, cap)
  {
    LaterRemembers(w, log, before, now, cap);
  }

  lemma LogStays(x: map<AgentId, Live>, y: map<AgentId, Live>, logs: map<AgentId, seq<Entry>>, a: AgentId,
                 clock: int, now: int)
    requires LogKept(x, logs, a, clock) && clock <= now && AtMostPruned(x, y, a, now)
    ensures LogKept(y, logs, a, now)
  {
    if a in y {
      LaterRemembered(x[a].seenNonces, LogOf(logs, a), clock, now, MAX_CONNECTION_NONCES);
      PruneRemembers(x[a].seenNonces, LogOf(logs, a), clock, now, MAX_CONNECTION_NONCES);
    }
    hide Remembers, Unexpired;
  }

  lemma NotHeldNotRecent(w: seq<Entry>, log: seq<Entry>, k: nat, now: int, cap: nat)
    requires Remembers(w, log, now, cap) && k < |log| && !Has(w, log[k].key)
    ensures log[k].expiresAt <= now || |log| - k > cap
  {
    if Recent(k, log, now, cap) {
      RememberedIsHeld(w, log, k, now, cap);
    }
  }

  /** A nonce that is not in the pruned window may be used again. */
  lemma NewUse(w: seq<Entry>, log: seq<Entry>, nonce: Nonce, clock: int, now: int)
    requires UsesApart(log, clock) && clock <= now && Remembers(w, log, clock, MAX_CONNECTION_NONCES)
    requires !Has(Unexpired(w, now), nonce)
    ensures var t := log + [Entry(nonce, now + NONCE_TTL_MS)];
            UsesApart(t, now) && Remembers(Remembered(w, nonce, now), t, now, MAX_CONNECTION_NONCES)
  {
    InsertRemembers(w, log, nonce, now + NONCE_TTL_MS, clock, now, MAX_CONNECTION_NONCES);
    PruneRemembers(w, log, clock, now, MAX_CONNECTION_NONCES);
    hide Remembers, Unexpired, Has, Remembered;
    forall i | 0 <= i < |log| && log[i].key == nonce
      ensures log[i].expiresAt <= now || |log| - i > MAX_CONNECTION_NONCES
    {
      NotHeldNotRecent(Unexpired(w, now), log, i, now, MAX_CONNECTION_NONCES);
    }
  }

  lemma FirstUse(nonce: Nonce, now: int)
    ensures var t := [Entry(nonce, now + NONCE_TTL_MS)];
            UsesApart(t, now) && Remembers(Remembered([], nonce, now), t, now, MAX_CONNECTION_NONCES)
  {
    assert Tracks([], [], [], now, MAX_CONNECTION_NONCES);
    assert Unexpired([], now) == [];
    NewUse([], [], nonce, now, now);
    assert [] + [Entry(nonce, now + NONCE_TTL_MS)] == [Entry(nonce, now + NONCE_TTL_MS)];
  }

  lemma HelloFlag(s: State, c: ConnectionId, h: Envelope, signed: set<Signed>, now: int)
    requires h.Hello?
    ensures var (r, ok) := HelloHandled(s, c, h, signed, now);
            if ok then r.live == LivePruned(s.live, now)[h.agentId := Live(c, Remembered([], h.nonce, now))]
            else r.live == s.live || r.live == LivePruned(s.live, now)
  {
    hide Claimed, MayClaim, WindowsPruned, LivePruned, Remembered, Authenticated;
  }

  lemma ResultWindow(s: State, c: ConnectionId, r: Envelope, signed: set<Signed>, now: int)
    requires r.ActionResult?
    ensures var (t, o) := ResultHandled(s, c, r, signed, now);
            if o.Some? && o.value.Resolved? then
              && r.agentId in s.live && !Has(Unexpired(s.live[r.agentId].seenNonces, now), r.nonce)
              && t.live == s.live[r.agentId := s.live[r.agentId].(seenNonces := Remembered(s.live[r.agentId].seenNonces, r.nonce, now))]
            else forall a :: AtMostPruned(s.live, t.live, a, now)
  {
    hide Has, Unexpired, Remembered;
  }

  lemma HelloKeepsLogs(s: System, logs: map<AgentId, seq<Entry>>, c: ConnectionId, h: Envelope)
    requires NonceInv(s, logs) && h.Hello? && c in s.cp.connections.managed
    ensures NonceInv(HelloStep(s, c, h), ObservedMessage(s, logs, c, h, s.clock))
  {
    hide HelloHandled, Remembered, Remembers, UsesApart, Unexpired;
    HelloFlag(s.cp, c, h, s.signed, s.clock);
    FirstUse(h.nonce, s.clock);
    var t, u := HelloStep(s, c, h), ObservedMessage(s, logs, c, h, s.clock);
    assert t.cp == HelloHandled(s.cp, c, h, s.signed, s.clock).0 && t.clock == s.clock;
    hide HelloStep;
    forall a ensures LogKept(t.cp.live, u, a, t.clock) {
      assert LogKept(s.cp.live, logs, a, s.clock);
      if !(HelloHandled(s.cp, c, h, s.signed, s.clock).1 && a == h.agentId) {
        assert AtMostPruned(s.cp.live, t.cp.live, a, s.clock);
        LogStays(s.cp.live, t.cp.live, logs, a, s.clock, s.clock);
      }
    }
  }

  lemma ResultKeepsLogs(s: System, logs: map<AgentId, seq<Entry>>, c: ConnectionId, r: Envelope)
    requires NonceInv(s, logs) && r.ActionResult? && c in s.cp.connections.managed
    requires s.cp.connections.managed[c].authenticated
    ensures NonceInv(ResultStep(s, c, r), ObservedMessage(s, logs, c, r, s.clock))
  {
    ResultWindow(s.cp, c, r, s.signed, s.clock);
    hide ResultHandled, Remembered, Remembers, UsesApart, Has, Unexpired;
    var t, u := ResultStep(s, c, r), ObservedMessage(s, logs, c, r, s.clock);
    forall a ensures LogKept(t.cp.live, u, a, t.clock) {
      assert LogKept(s.cp.live, logs, a, s.clock);
      var o := ResultHandled(s.cp, c, r, s.signed, s.clock).1;
      if o.Some? && o.value.Resolved? && a == r.agentId {
        NewUse(s.cp.live[a].seenNonces, LogOf(logs, a), r.nonce, s.clock, s.clock);
      } else {
        assert AtMostPruned(s.cp.live, t.cp.live, a, s.clock);
        LogStays(s.cp.live, t.cp.live, logs, a, s.clock, s.clock);
      }
    }
  }

  lemma ReceiveKeepsLogs(s: System, logs: map<AgentId, seq<Entry>>, e: Event)
    requires NonceInv(s, logs) && e.step.Receive? && e.now == s.clock && !s.cp.connections.shuttingDown
    ensures NonceInv(ReceiveStep(s, e.step.connection, e.step.message), Observed(s, logs, e))
  {
    hide NonceInv, HelloStep, ResultStep, HelloHandled, ResultHandled;
    if e.step.message.Some? && e.step.connection in s.cp.connections.managed {
      var m := e.step.message.value;
      if m.Hello? {
        HelloKeepsLogs(s, logs, e.step.connection, m);
      } else if m.ActionResult? && s.cp.connections.managed[e.step.connection].authenticated {
        ResultKeepsLogs(s, logs, e.step.connection, m);
      }
    }
  }

  /** Every other step prunes windows or drops live entries. */
  lemma OtherWindows(s: System, step: Step)
    requires !step.Receive?
    ensures WindowsAside(s, Taken(s, step))
  {
    hide ControlPlaneStep, OutsideStep;
    OutsideAside(s, step);
    ControlPlaneAside(s, step);
  }

  lemma ApplyKeepsLogs(s: System, logs: map<AgentId, seq<Entry>>, e: Event)
    requires NonceInv(s, logs)
    ensures NonceInv(Apply(s, e), Observed(s, logs, e))
  {
    if e.now >= s.clock {
      var t := s.(clock := e.now);
      hide Taken, ObservedMessage, Unexpired, Remembers, UsesApart;
      forall a ensures LogKept(t.cp.live, logs, a, t.clock) {
        assert LogKept(s.cp.live, logs, a, s.clock);
        LogStays(s.cp.live, t.cp.live, logs, a, s.clock, t.clock);
      }
      if !e.step.Receive? {
        var w := Taken(t, e.step);
        OtherWindows(t, e.step);
        forall a ensures LogKept(w.cp.live, logs, a, w.clock) {
          assert LogKept(t.cp.live, logs, a, t.clock);
          assert AtMostPruned(t.cp.live, w.cp.live, a, t.clock);
          LogStays(t.cp.live, w.cp.live, logs, a, t.clock, t.clock);
        }
      } else {
        hide NonceInv, Observed;
        ReceiveTaken(t, logs, e);
        ObservedSoon(s, logs, e);
      }
    }
  }

  lemma ReceiveTaken(s: System, logs: map<AgentId, seq<Entry>>, e: Event)
    requires NonceInv(s, logs) && e.step.Receive? && e.now == s.clock
    ensures NonceInv(Taken(s, e.step), Observed(s, logs, e))
  {
    hide NonceInv, ReceiveStep, ObservedMessage;
    TakenIs(s, e.step);
    if !s.cp.connections.shuttingDown {
      ReceiveKeepsLogs(s, logs, e);
    }
    hide Taken;
  }

  lemma ObservedSoon(s: System, logs: map<AgentId, seq<Entry>>, e: Event)
    requires e.now >= s.clock
    ensures Observed(s.(clock := e.now), logs, e) == Observed(s, logs, e)
  {
    hide HelloHandled, ResultHandled;
  }

  lemma {:induction false} RunKeepsLogs(s: System, es: seq<Event>)
    requires s.cp.live == map[]
    ensures NonceInv(Run(s, es), Logs(s, es))
  {
    hide Apply, Observed;
    if es != [] {
      hide NonceInv;
      RunKeepsLogs(s, es[..|es| - 1]);
      ApplyKeepsLogs(Run(s, es[..|es| - 1]), Logs(s, es[..|es| - 1]), es[|es| - 1]);
    }
  }

  /** In every run, on one live connection two results with the same nonce, or a result with the nonce of
      the hello, are taken only 300000 ms apart or with at least 4096 other nonces between them. */
  lemma ResultNoncesApart(maxConnections: nat, maxPerAgent: nat, clock: int, key: Key, es: seq<Event>, a: AgentId,
                          i: nat, j: nat)
    requires var log := LogOf(Logs(Init(maxConnections, maxPerAgent, clock, key), es), a);
             i < j < |log| && log[i].key == log[j].key
    ensures var log := LogOf(Logs(Init(maxConnections, maxPerAgent, clock, key), es), a);
            log[j].expiresAt >= log[i].expiresAt + 300_000 || j - i - 1 >= 4096
  {
    var s0 := Init(maxConnections, maxPerAgent, clock, key);
    RunKeepsLogs(s0, es);
    assert LogKept(Run(s0, es).cp.live, Logs(s0, es), a, Run(s0, es).clock);
    hide Run, Logs, Remembers;
  }
}
