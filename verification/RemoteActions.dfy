/** Every dispatched action settles at most once, and its row follows its promise. */
module RemoteActions {
  import opened Options
  import opened RemoteTypes
  import opened ConnectionLifecycle
  import opened ControlPlane
  import opened AgentRunner
  import opened RemoteSystem
  import opened RemotePresence

  // ---------------------------------------------------------------------------------------------
  // The invariant
  // ---------------------------------------------------------------------------------------------

  /** The result was signed, for this action and this agent, with the key the agent enrolled with. */
  ghost predicate GenuineResult(s: System, id: ActionId, a: AgentId, o: Outcome) {
    o.Resolved? ==>
      && o.result.ActionResult?
      && o.result.actionId == id
      && o.result.agentId == a
      && Signed(o.key, o.result) in s.signed
      && (a in s.cp.agents ==> s.cp.agents[a].publicKey == Some(o.key))
  }

  ghost predicate ActionSound(s: System, id: ActionId)
    requires id in s.h.dispatched
  {
    var d := s.h.dispatched[id];
    && id in s.h.outcomes && id in s.h.rowWrites
    && d.request.ActionRequest? && d.request.actionId == id && d.request.agentId in s.h.published
    && |s.h.outcomes[id]| <= 1
    && (id in s.cp.pending <==> s.h.outcomes[id] == [])
    && (id in s.cp.pending ==> s.cp.pending[id].agentId == d.request.agentId)
    && (s.h.outcomes[id] != [] ==> GenuineResult(s, id, d.request.agentId, s.h.outcomes[id][0]))
    && |s.h.rowWrites[id]| <= |s.h.outcomes[id]|
    && (s.h.rowWrites[id] != [] ==> s.h.rowWrites[id][0] == TerminalStatus(s.h.outcomes[id][0]))
    && (id in s.cp.actions ==>
          s.cp.actions[id] == ActionRow(d.principal.userId, d.request.agentId, d.request.tool,
                                        if s.h.rowWrites[id] == [] then Sent else s.h.rowWrites[id][0]))
  }

  ghost predicate ActionTables(s: System) {
    && (forall id :: id in s.cp.pending ==> id in s.h.dispatched)
    && (forall id :: id in s.cp.actions ==> id in s.h.dispatched)
    && (forall id :: id in s.h.outcomes <==> id in s.h.dispatched)
    && (forall id :: id in s.h.rowWrites <==> id in s.h.dispatched)
  }

  ghost predicate ActionInv(s: System) {
    ActionTables(s) && forall id :: id in s.h.dispatched ==> ActionSound(s, id)
  }

  // ---------------------------------------------------------------------------------------------
  // Steps that touch no action
  // ---------------------------------------------------------------------------------------------

  /** A key, once enrolled, is never replaced. */
  ghost predicate KeysStay(s: System, t: System) {
    forall a :: a in s.h.published && a in t.cp.agents ==>
      && a in s.cp.agents
      && (s.cp.agents[a].publicKey.Some? ==> t.cp.agents[a].publicKey == s.cp.agents[a].publicKey)
  }

  ghost predicate SameActions(s: System, t: System) {
    && t.cp.pending == s.cp.pending
    && t.cp.actions == s.cp.actions
    && t.h.dispatched == s.h.dispatched
    && t.h.outcomes == s.h.outcomes
    && t.h.rowWrites == s.h.rowWrites
    && s.signed <= t.signed
    && s.h.published.Keys <= t.h.published.Keys
  }

  lemma SameActionsKeep(s: System, t: System)
    requires ActionInv(s) && SameActions(s, t) && KeysStay(s, t)
    ensures ActionInv(t)
  {
    forall id | id in t.h.dispatched ensures ActionSound(t, id) {
      assert ActionSound(s, id);
    }
  }

  /** Nothing about action `id` changed. */
  ghost predicate SameAction(s: System, t: System, id: ActionId) {
    && id in s.h.dispatched && id in t.h.dispatched && t.h.dispatched[id] == s.h.dispatched[id]
    && id in s.h.outcomes && id in t.h.outcomes && t.h.outcomes[id] == s.h.outcomes[id]
    && id in s.h.rowWrites && id in t.h.rowWrites && t.h.rowWrites[id] == s.h.rowWrites[id]
    && (id in t.cp.pending <==> id in s.cp.pending)
    && (id in t.cp.pending ==> t.cp.pending[id] == s.cp.pending[id])
    && (id in t.cp.actions ==> id in s.cp.actions && t.cp.actions[id] == s.cp.actions[id])
  }

  lemma SameActionKeeps(s: System, t: System, id: ActionId)
    requires id in s.h.dispatched && ActionSound(s, id) && SameAction(s, t, id)
    requires s.signed <= t.signed && t.h.published == s.h.published && t.cp.agents == s.cp.agents
    ensures ActionSound(t, id)
  {
  }

  /** A step about one action. */
  ghost predicate OneAction(s: System, t: System, id: ActionId) {
    && ActionTables(t)
    && s.signed <= t.signed && t.h.published == s.h.published && t.cp.agents == s.cp.agents
    && (forall i :: i in t.h.dispatched && i != id ==> SameAction(s, t, i))
  }

  lemma OneActionKeeps(s: System, t: System, id: ActionId)
    requires ActionInv(s) && OneAction(s, t, id)
    requires id in t.h.dispatched && ActionSound(t, id)
    ensures ActionInv(t)
  {
    forall i | i in t.h.dispatched ensures ActionSound(t, i) {
      if i != id {
        assert SameAction(s, t, i);
        SameActionKeeps(s, t, i);
      }
    }
  }

  lemma ConnectionStepsKeep(s: System, step: Step)
    requires ActionInv(s) && (step.Upgrade? || step.SocketGone? || step.Accept? || step.CloseEvent? || step.Maintenance?)
    ensures ActionInv(ControlPlaneStep(s, step))
  {
    hide ActionInv, Upgraded, Accepted, SocketReleased, CleanedUp, ConnectionClosed;
    if step.CloseEvent? {
      ConnectionClosedRows(s.cp, step.connection);
      ConnectionClosedActions(s.cp, step.connection);
    }
    assert CleanedUp(s.cp, s.clock).agents == s.cp.agents by { CleanedUpSame(s.cp, s.clock); }
    CleanedUpActions(s.cp, s.clock);
    SameActionsKeep(s, ControlPlaneStep(s, step));
  }

  lemma ConnectionClosedActions(s: State, c: ConnectionId)
    ensures ConnectionClosed(s, c).pending == s.pending && ConnectionClosed(s, c).actions == s.actions
  {
    hide Closed;
  }

  lemma CleanedUpActions(s: State, now: int)
    ensures CleanedUp(s, now).pending == s.pending && CleanedUp(s, now).actions == s.actions
  {
  }

  lemma HelloActions(s: State, c: ConnectionId, h: Envelope, signed: set<Signed>, now: int)
    requires h.Hello?
    ensures var t := HelloHandled(s, c, h, signed, now).0; t.pending == s.pending && t.actions == s.actions
  {
    HelloCases(s, c, h, signed, now);
    hide HelloHandled, Claimed, MayClaim;
  }

  lemma HelloKeepsActions(s: System, c: ConnectionId, h: Envelope)
    requires ActionInv(s) && h.Hello?
    ensures ActionInv(HelloStep(s, c, h))
  {
    hide ActionInv, HelloHandled, Load;
    HelloFrame(s.cp, c, h, s.signed, s.clock);
    HelloActions(s.cp, c, h, s.signed, s.clock);
    SameActionsKeep(s, HelloStep(s, c, h));
  }

  lemma AdminKeepsActions(s: System, step: Step)
    requires ActionInv(s)
    requires step.UpdatePolicy? || step.Revoke?
    ensures ActionInv(ControlPlaneStep(s, step))
  {
    hide ActionInv, Grants;
    SameActionsKeep(s, ControlPlaneStep(s, step));
  }

  lemma CreateTokenKeepsActions(s: System, p: Principal, alias: nat, a: AgentId, t: TokenHash,
                                caps: set<Capability>, ttlMs: int)
    requires ActionInv(s)
    ensures ActionInv(CreateTokenStep(s, p, alias, a, t, caps, ttlMs))
  {
    hide ActionInv, MayCreateToken;
    SameActionsKeep(s, CreateTokenStep(s, p, alias, a, t, caps, ttlMs));
  }

  /** Enrollment writes a key only where there was none. */
  lemma EnrollKeepsActions(s: System, t: TokenHash, key: Key)
    requires ActionInv(s) && Enrollment(s.cp, s.h)
    ensures ActionInv(EnrollStep(s, t, key))
  {
    hide ActionInv;
    SameActionsKeep(s, EnrollStep(s, t, key));
  }

  lemma OutsideKeepsActions(s: System, step: Step)
    requires ActionInv(s)
    ensures ActionInv(OutsideStep(s, step))
  {
    hide ActionInv;
    OutsideSameActions(s, step);
    hide OutsideStep, SameActions, KeysStay;
    SameActionsKeep(s, OutsideStep(s, step));
  }

  lemma OutsideSameActions(s: System, step: Step)
    ensures SameActions(s, OutsideStep(s, step)) && KeysStay(s, OutsideStep(s, step))
  {
    hide MessageHandled, MessageAccepted, Runs, AppliedBy;
  }

  // ---------------------------------------------------------------------------------------------
  // Steps of an action's life
  // ---------------------------------------------------------------------------------------------

  lemma CallToolIsOneAction(s: System, p: Principal, a: AgentId, tool: Tool, id: ActionId, timeoutMs: int, nonce: Nonce)
    requires ActionTables(s) && id !in s.h.dispatched && MayDispatch(s.cp, p, a, tool, id)
    ensures OneAction(s, CallToolStep(s, p, a, tool, id, timeoutMs, nonce), id)
  {
    hide Grants;
  }

  lemma CallToolKeeps(s: System, p: Principal, a: AgentId, tool: Tool, id: ActionId, timeoutMs: int, nonce: Nonce)
    requires ActionInv(s) && s.cp.agents.Keys <= s.h.published.Keys
    ensures ActionInv(CallToolStep(s, p, a, tool, id, timeoutMs, nonce))
  {
    hide Grants, OneAction;
    if id !in s.h.dispatched && MayDispatch(s.cp, p, a, tool, id) {
      CallToolIsOneAction(s, p, a, tool, id, timeoutMs, nonce);
      hide ActionInv;
      OneActionKeeps(s, CallToolStep(s, p, a, tool, id, timeoutMs, nonce), id);
    }
  }

  /** Settling a pending action, once, with a genuine outcome. */
  lemma SettleKeeps(s: System, t: System, id: ActionId, o: Outcome)
    requires ActionInv(s) && id in s.cp.pending
    requires t.cp.agents == s.cp.agents && t.cp.actions == s.cp.actions && t.signed == s.signed
    requires t.cp.pending == s.cp.pending - {id} && t.h == Settle(s.h, id, o)
    requires GenuineResult(s, id, s.cp.pending[id].agentId, o)
    ensures ActionInv(t)
  {
    assert ActionTables(s) && ActionSound(s, id);
    hide ActionInv, GenuineResult;
    SettledSound(s, t, id, o);
    SettledAlone(s, t, id, o);
    hide ActionSound, OneAction, ActionTables;
    OneActionKeeps(s, t, id);
  }

  lemma SettledSound(s: System, t: System, id: ActionId, o: Outcome)
    requires id in s.h.dispatched && ActionSound(s, id) && id in s.cp.pending
    requires t.cp.agents == s.cp.agents && t.cp.actions == s.cp.actions && t.signed == s.signed
    requires t.cp.pending == s.cp.pending - {id} && t.h == Settle(s.h, id, o)
    requires GenuineResult(s, id, s.cp.pending[id].agentId, o)
    ensures id in t.h.dispatched && ActionSound(t, id)
  {
  }

  lemma SettledAlone(s: System, t: System, id: ActionId, o: Outcome)
    requires ActionTables(s) && id in s.cp.pending
    requires t.cp.agents == s.cp.agents && t.cp.actions == s.cp.actions && t.signed == s.signed
    requires t.cp.pending == s.cp.pending - {id} && t.h == Settle(s.h, id, o)
    ensures OneAction(s, t, id)
  {
  }

  /** A settled result is genuine. */
  lemma ResultGenuine(s: System, c: ConnectionId, e: Envelope)
    requires e.ActionResult? && e.actionId in s.cp.pending
    ensures var (t, o) := ResultHandled(s.cp, c, e, s.signed, s.clock);
            && o.Some?
            && t.pending == s.cp.pending - {e.actionId}
            && t.agents == s.cp.agents && t.actions == s.cp.actions
            && GenuineResult(s, e.actionId, s.cp.pending[e.actionId].agentId, o.value)
  {
  }

  lemma ResultKeepsActions(s: System, c: ConnectionId, e: Envelope)
    requires ActionInv(s) && e.ActionResult?
    ensures ActionInv(ResultStep(s, c, e))
  {
    hide ActionInv;
    if e.actionId in s.cp.pending {
      ResultGenuine(s, c, e);
      hide ResultHandled, GenuineResult;
      SettleKeeps(s, ResultStep(s, c, e), e.actionId, ResultHandled(s.cp, c, e, s.signed, s.clock).1.value);
    }
  }

  lemma ReceiveKeepsActions(s: System, c: ConnectionId, m: Option<Envelope>)
    requires ActionInv(s)
    ensures ActionInv(ReceiveStep(s, c, m))
  {
    hide ActionInv, HelloStep, ResultStep;
    if m.Some? && m.value.Hello? {
      HelloKeepsActions(s, c, m.value);
    } else if m.Some? && m.value.ActionResult? {
      ResultKeepsActions(s, c, m.value);
    }
  }

  lemma TimerKeeps(s: System, id: ActionId)
    requires ActionInv(s)
    ensures ActionInv(ActionTimerStep(s, id))
  {
    hide ActionInv;
    if id in s.cp.pending {
      SettleKeeps(s, ActionTimerStep(s, id), id, Rejected(AgentTimeout));
    }
  }

  lemma ResumeKeeps(s: System, id: ActionId)
    requires ActionInv(s)
    ensures ActionInv(ResumeStep(s, id))
  {
    hide OneAction;
    if id in s.h.dispatched {
      assert ActionTables(s) && ActionSound(s, id);
      hide ActionSound, ActionInv;
      ResumedSound(s, id);
      ResumeIsOneAction(s, id);
      OneActionKeeps(s, ResumeStep(s, id), id);
    }
  }

  lemma ResumeIsOneAction(s: System, id: ActionId)
    requires ActionTables(s) && id in s.h.dispatched
    ensures OneAction(s, ResumeStep(s, id), id)
  {
    if s.h.outcomes[id] == [] || s.h.rowWrites[id] != [] {
      assert ResumeStep(s, id) == s;
    } else {
      var status := TerminalStatus(s.h.outcomes[id][0]);
      hide TerminalStatus;
      RowUpdatedFrame(s.cp, id, status);
      hide RowUpdated;
    }
  }

  lemma RowUpdatedFrame(s: State, id: ActionId, status: ActionStatus)
    ensures var t := RowUpdated(s, id, status);
            && t == s.(actions := t.actions)
            && (forall i :: i in t.actions <==> i in s.actions)
            && (forall i :: i in s.actions && i != id ==> t.actions[i] == s.actions[i])
  {
  }

  lemma ResumedSound(s: System, id: ActionId)
    requires id in s.h.dispatched && ActionSound(s, id)
    ensures id in ResumeStep(s, id).h.dispatched && ActionSound(ResumeStep(s, id), id)
  {
    hide TerminalStatus;
  }

  lemma RemoveKeepsActions(s: System, p: Principal, a: AgentId)
    requires ActionInv(s)
    ensures ActionInv(RemoveStep(s, p, a))
  {
    var t := RemoveStep(s, p, a);
    forall i | i in t.h.dispatched ensures ActionSound(t, i) {
      assert ActionSound(s, i);
    }
  }

  lemma ShutdownKeepsActions(s: System)
    requires ActionInv(s)
    ensures ActionInv(ShutdownStep(s))
  {
    var t := ShutdownStep(s);
    forall i | i in t.h.dispatched ensures ActionSound(t, i) {
      assert ActionSound(s, i);
    }
  }

  // ---------------------------------------------------------------------------------------------
  // Whole runs
  // ---------------------------------------------------------------------------------------------

  lemma ControlPlaneKeepsActions(s: System, step: Step)
    requires ActionInv(s) && Enrollment(s.cp, s.h)
    ensures ActionInv(ControlPlaneStep(s, step))
  {
    assert s.cp.agents.Keys <= s.h.published.Keys;
    hide ActionInv, Enrollment, UpgradeStep, SocketGoneStep, AcceptStep, ReceiveStep, CloseEventStep, CreateTokenStep,
         EnrollStep, UpdatePolicyStep, RevokeStep, RemoveStep, MaintenanceStep, ShutdownStep, CallToolStep,
         ActionTimerStep, ResumeStep;
    match step
    case Upgrade(_) => ConnectionStepsKeep(s, step);
    case SocketGone(_) => ConnectionStepsKeep(s, step);
    case Accept(_, _) => ConnectionStepsKeep(s, step);
    case Receive(c, m) => ReceiveKeepsActions(s, c, m);
    case CloseEvent(_) => ConnectionStepsKeep(s, step);
    case CallTool(p, a, tool, id, t, n) => CallToolKeeps(s, p, a, tool, id, t, n);
    case CreateToken(p, alias, a, t, caps, ttl) => CreateTokenKeepsActions(s, p, alias, a, t, caps, ttl);
    case EnrollAgent(t, key) => EnrollKeepsActions(s, t, key);
    case UpdatePolicy(_, _, _, _) => AdminKeepsActions(s, step);
    case Revoke(_, _) => AdminKeepsActions(s, step);
    case Remove(p, a) => RemoveKeepsActions(s, p, a);
    case ActionTimer(id) => TimerKeeps(s, id);
    case Resume(id) => ResumeKeeps(s, id);
    case Maintenance => ConnectionStepsKeep(s, step);
    case Shutdown => ShutdownKeepsActions(s);
    case _ =>
  }

  lemma ApplyActions(s: System, e: Event)
    requires ActionInv(s) && PresenceInv(s)
    ensures ActionInv(Apply(s, e))
  {
    if e.now >= s.clock {
      var t := s.(clock := e.now);
      SameActionsKeep(s, t);
      hide ActionInv, Presence, ControlPlaneStep, OutsideStep, AtControlPlane;
      assert Enrollment(t.cp, t.h);
      if !AtControlPlane(e.step) {
        OutsideKeepsActions(t, e.step);
      } else if !t.cp.connections.shuttingDown {
        ControlPlaneKeepsActions(t, e.step);
      }
    }
  }

  lemma {:induction false} RunActions(s: System, es: seq<Event>)
    requires ActionInv(s) && PresenceInv(s)
    ensures ActionInv(Run(s, es))
  {
    hide ActionInv, PresenceInv, Apply;
    if es != [] {
      RunActions(s, es[..|es| - 1]);
      RunPresence(s, es[..|es| - 1]);
      ApplyActions(Run(s, es[..|es| - 1]), es[|es| - 1]);
    }
  }

  function Outcomes(s: System, id: ActionId): seq<Outcome> {
    if id in s.h.outcomes then s.h.outcomes[id] else []
  }

  function RowWrites(s: System, id: ActionId): seq<ActionStatus> {
    if id in s.h.rowWrites then s.h.rowWrites[id] else []
  }

  /** In every run the pending table is exactly the dispatched actions whose promise has not settled,
      and no promise settles twice. */
  lemma SettledAtMostOnce(maxConnections: nat, maxPerAgent: nat, clock: int, key: Key, es: seq<Event>, id: ActionId)
    ensures var s := Run(Init(maxConnections, maxPerAgent, clock, key), es);
            && (id in s.cp.pending <==> id in s.h.dispatched && Outcomes(s, id) == [])
            && |Outcomes(s, id)| <= 1
  {
    var s := Run(Init(maxConnections, maxPerAgent, clock, key), es);
    ReachableActions(maxConnections, maxPerAgent, clock, key, es, id);
    hide Run;
  }

  /** A promise resolves only with a result for that very action, signed by the agent it was sent to
      with the key that agent enrolled with. */
  lemma ResolvedByItsAgent(maxConnections: nat, maxPerAgent: nat, clock: int, key: Key, es: seq<Event>, id: ActionId)
    ensures var s := Run(Init(maxConnections, maxPerAgent, clock, key), es);
            Outcomes(s, id) != [] && Outcomes(s, id)[0].Resolved? ==>
              && id in s.h.dispatched
              && var o := Outcomes(s, id)[0];
              var a := s.h.dispatched[id].request.agentId;
              && o.result.ActionResult? && o.result.actionId == id && o.result.agentId == a
              && Signed(o.key, o.result) in s.signed
              && (a in s.cp.agents ==> s.cp.agents[a].publicKey == Some(o.key))
  {
    var s := Run(Init(maxConnections, maxPerAgent, clock, key), es);
    ReachableActions(maxConnections, maxPerAgent, clock, key, es, id);
    hide Run;
  }

  /** What a row's final status says about how its promise settled: completed exactly for a result that
      is ok, timed out exactly for the timer's rejection, and an error in every other case. */
  ghost predicate StatusTells(status: ActionStatus, o: Outcome) {
    && (status == Completed <==> o.Resolved? && o.result.ActionResult? && o.result.ok)
    && (status == TimedOut <==> o == Rejected(AgentTimeout))
    && (status == Errored <==> !(o.Resolved? && o.result.ActionResult? && o.result.ok) && o != Rejected(AgentTimeout))
  }

  /** A row leaves `sent` at most once, only after its promise settled, and for the status that tells
      how; its user, agent and tool are those of the dispatch. */
  lemma RowLeavesSentOnce(maxConnections: nat, maxPerAgent: nat, clock: int, key: Key, es: seq<Event>, id: ActionId)
    ensures var s := Run(Init(maxConnections, maxPerAgent, clock, key), es);
            && (RowWrites(s, id) == []
                || (|Outcomes(s, id)| == 1 && |RowWrites(s, id)| == 1 && StatusTells(RowWrites(s, id)[0], Outcomes(s, id)[0])))
            && (id in s.cp.actions ==>
                  && id in s.h.dispatched && s.h.dispatched[id].request.ActionRequest?
                  && s.cp.actions[id].userId == s.h.dispatched[id].principal.userId
                  && s.cp.actions[id].agentId == s.h.dispatched[id].request.agentId
                  && s.cp.actions[id].tool == s.h.dispatched[id].request.tool
                  && s.cp.actions[id].status == if RowWrites(s, id) == [] then Sent else RowWrites(s, id)[0])
  {
    var s := Run(Init(maxConnections, maxPerAgent, clock, key), es);
    ReachableActions(maxConnections, maxPerAgent, clock, key, es, id);
    hide Run;
  }

  lemma ReachableActions(maxConnections: nat, maxPerAgent: nat, clock: int, key: Key, es: seq<Event>, id: ActionId)
    ensures var s := Run(Init(maxConnections, maxPerAgent, clock, key), es);
            ActionTables(s) && (id in s.h.dispatched ==> ActionSound(s, id))
  {
    InitPresence(maxConnections, maxPerAgent, clock, key);
    RunActions(Init(maxConnections, maxPerAgent, clock, key), es);
    hide Run;
  }

  /** Shutdown settles everything that was still pending. */
  lemma ShutdownSettlesAll(s: System, id: ActionId)
    requires ActionInv(s) && id in s.h.dispatched
    ensures var t := ShutdownStep(s);
            && t.cp.pending == map[]
            && |t.h.outcomes[id]| == 1
            && (id !in s.cp.pending ==> t.h.outcomes[id] == s.h.outcomes[id])
  {
    assert ActionSound(s, id);
    ShutdownKeepsActions(s);
    assert ActionSound(ShutdownStep(s), id);
  }
}
