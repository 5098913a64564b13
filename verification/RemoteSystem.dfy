/** The whole remote protocol: one control plane, its agents and a network that delivers any signed
    envelope any number of times, in any order, over any connection.

    A run is a sequence of events. `Apply` is total: an event that cannot happen (a fresh identifier
    that is not fresh, a clock that runs backwards, anything at the control plane after shutdown)
    leaves the system as it is, so the theorems below range over all sequences of events.

    `History` records what happened; no step reads it except to keep identifiers fresh. */
module RemoteSystem {
  import opened Options
  import opened RemoteTypes
  import opened ConnectionLifecycle
  import opened ControlPlane
  import opened AgentRunner

  /** Who asked, what was sent, and the policy and the owner the agent's row named at that moment. */
  datatype Dispatch = Dispatch(principal: Principal, request: Envelope, storedPolicy: Policy, owner: UserId)

  datatype Execution = Execution(agentId: AgentId, request: Envelope, policy: Policy)

  datatype History = History(
    dispatched: map<ActionId, Dispatch>,          // every dispatch
    outcomes: map<ActionId, seq<Outcome>>,        // how its promise settled, each time it did
    rowWrites: map<ActionId, seq<ActionStatus>>,  // status writes to its row after the insert
    published: map<AgentId, seq<Policy>>,         // version v is at index v - 1
    hellos: map<Envelope, seq<int>>,              // when each hello was accepted
    enrollments: map<TokenHash, seq<AgentId>>,    // what each token enrolled
    applied: map<AgentId, seq<int>>,              // policy versions an agent accepted from updates
    executions: seq<Execution>,                   // tools run by agents
    upgrading: set<SocketId>,                     // upgraded sockets whose accept has not come yet
    lateAccepts: nat)                             // accepts on sockets no longer reserved

  datatype System = System(
    cp: State,
    clock: int,
    signed: set<Signed>,
    controlKey: Key,
    responses: map<AgentId, Policy>,   // enrollment replies on their way to an agent
    procs: map<AgentId, Proc>,
    h: History)

  function Init(maxConnections: nat, maxPerAgent: nat, clock: int, controlKey: Key): System {
    System(Empty(maxConnections, maxPerAgent), clock, {}, controlKey, map[], map[],
           History(map[], map[], map[], map[], map[], map[], map[], [], {}, 0))
  }

  datatype Step =
    // sockets and connections
    | Upgrade(socket: SocketId)
    | SocketGone(socket: SocketId)
    | Accept(socket: SocketId, connection: ConnectionId)
    | Receive(connection: ConnectionId, message: Option<Envelope>)
    | CloseEvent(connection: ConnectionId)
    // calls by users
    | CallTool(principal: Principal, agentId: AgentId, tool: Tool, actionId: ActionId, timeoutMs: int, nonce: Nonce)
    | CreateToken(principal: Principal, alias: nat, newAgent: AgentId, token: TokenHash,
                  capabilities: set<Capability>, ttlMs: int)
    | EnrollAgent(token: TokenHash, key: Key)
    | UpdatePolicy(principal: Principal, agentId: AgentId, capabilities: set<Capability>, nonce: Nonce)
    | Revoke(principal: Principal, agentId: AgentId)
    | Remove(principal: Principal, agentId: AgentId)
    // timers and continuations
    | ActionTimer(actionId: ActionId)
    | Resume(actionId: ActionId)
    | Maintenance
    | Shutdown
    // agents and the rest of the world
    | Install(agentId: AgentId)
    | AgentReceive(agentId: AgentId, envelope: Envelope)
    | Restart(agentId: AgentId)
    | ForeignSign(key: Key, envelope: Envelope)

  datatype Event = Event(now: int, step: Step)

  // ---------------------------------------------------------------------------------------------
  // Steps
  // ---------------------------------------------------------------------------------------------

  function UpgradeStep(s: System, socket: SocketId): System {
    var t := Upgraded(s.cp.connections, socket);
    s.(cp := s.cp.(connections := t),
       h := s.h.(upgrading := s.h.upgrading + if socket in t.reserved then {socket} else {}))
  }

  function SocketGoneStep(s: System, socket: SocketId): System {
    s.(cp := s.cp.(connections := SocketReleased(s.cp.connections, socket)))
  }

  /** The library accepts a socket it was handed, once. Nothing here keeps it from doing so after the
      socket closed and its reservation went. */
  function AcceptStep(s: System, socket: SocketId, c: ConnectionId): System {
    if socket !in s.h.upgrading || c in s.cp.connections.managed then s
    else
      s.(cp := s.cp.(connections := Accepted(s.cp.connections, socket, c)),
         h := s.h.(upgrading := s.h.upgrading - {socket},
                   lateAccepts := s.h.lateAccepts + if socket in s.cp.connections.reserved then 0 else 1))
  }

  function HelloStep(s: System, c: ConnectionId, e: Envelope): System
    requires e.Hello?
  {
    var (cp, accepted) := HelloHandled(s.cp, c, e, s.signed, s.clock);
    if !accepted then s.(cp := cp)
    else s.(cp := cp, h := s.h.(hellos := s.h.hellos[e := HelloTimes(s, e) + [s.clock]]))
  }

  function HelloTimes(s: System, e: Envelope): seq<int> {
    if e in s.h.hellos then s.h.hellos[e] else []
  }

  function Settle(h: History, id: ActionId, o: Outcome): History {
    if id !in h.outcomes then h else h.(outcomes := h.outcomes[id := h.outcomes[id] + [o]])
  }

  function ResultStep(s: System, c: ConnectionId, e: Envelope): System
    requires e.ActionResult?
  {
    var (cp, o) := ResultHandled(s.cp, c, e, s.signed, s.clock);
    if o.None? then s.(cp := cp)
    else s.(cp := cp, h := Settle(s.h, e.actionId, o.value))
  }

  /** `receiveMessage` and `handleAgentMessage`; `None` is anything that does not parse. Closing the
      connection in answer to a bad message shows up later as its close event. */
  function ReceiveStep(s: System, c: ConnectionId, message: Option<Envelope>): System {
    if c !in s.cp.connections.managed || message.None? then s
    else if message.value.Hello? then HelloStep(s, c, message.value)
    else if !s.cp.connections.managed[c].authenticated then s
    else if message.value.ActionResult? then ResultStep(s, c, message.value)
    else s
  }

  function CloseEventStep(s: System, c: ConnectionId): System {
    s.(cp := ConnectionClosed(s.cp, c))
  }

  function RequestFor(s: System, p: Principal, a: AgentId, tool: Tool, id: ActionId, timeoutMs: int, nonce: Nonce)
    : Envelope
    requires a in s.cp.agents
  {
    ActionRequest(id, a, p.userId, tool, ToolCapability(tool), s.cp.agents[a].policyVersion,
                  s.clock + timeoutMs, nonce)
  }

  function CallToolStep(s: System, p: Principal, a: AgentId, tool: Tool, id: ActionId, timeoutMs: int, nonce: Nonce)
    : System
  {
    if id in s.h.dispatched || !MayDispatch(s.cp, p, a, tool, id) then s
    else
      var request := RequestFor(s, p, a, tool, id, timeoutMs, nonce);
      s.(cp := Dispatched(s.cp, p, a, tool, id),
         signed := s.signed + {Signed(s.controlKey, request)},
         h := s.h.(dispatched := s.h.dispatched[id := Dispatch(p, request, s.cp.agents[a].policy, s.cp.agents[a].userId)],
                   outcomes := s.h.outcomes[id := []],
                   rowWrites := s.h.rowWrites[id := []]))
  }

  function CreateTokenStep(s: System, p: Principal, alias: nat, a: AgentId, t: TokenHash,
                           capabilities: set<Capability>, ttlMs: int): System
  {
    if a in s.h.published || t in s.h.enrollments || !MayCreateToken(s.cp, p, alias, a, t) then s
    else
      var policy := Policy(capabilities, 1);
      s.(cp := TokenCreated(s.cp, p, alias, a, t, policy, s.clock + ttlMs),
         h := s.h.(published := s.h.published[a := [policy]],
                   enrollments := s.h.enrollments[t := []]))
  }

  function EnrollStep(s: System, t: TokenHash, key: Key): System {
    if !MayEnroll(s.cp, t, s.clock) then s
    else
      var a := s.cp.tokens[t].agentId;
      s.(cp := AgentEnrolled(s.cp, t, key),
         responses := s.responses[a := s.cp.agents[a].policy],
         h := s.h.(enrollments := s.h.enrollments[t := EnrolledBy(s, t) + [a]]))
  }

  function EnrolledBy(s: System, t: TokenHash): seq<AgentId> {
    if t in s.h.enrollments then s.h.enrollments[t] else []
  }

  function Published(s: System, a: AgentId): seq<Policy> {
    if a in s.h.published then s.h.published[a] else []
  }

  /** The row is read and written in the same step. The update is sent when the agent is live. */
  function UpdatePolicyStep(s: System, p: Principal, a: AgentId, capabilities: set<Capability>, nonce: Nonce): System {
    if !MayAdminister(s.cp, p, a) then s
    else
      var policy := NextPolicy(s.cp.agents[a], capabilities);
      var update := PolicyUpdate(a, policy, policy.version, s.clock, nonce);
      s.(cp := PolicyStored(s.cp, a, capabilities),
         signed := if a in s.cp.live then s.signed + {Signed(s.controlKey, update)} else s.signed,
         h := s.h.(published := s.h.published[a := Published(s, a) + [policy]]))
  }

  function RevokeStep(s: System, p: Principal, a: AgentId): System {
    if !MayAdminister(s.cp, p, a) then s else s.(cp := AgentRevoked(s.cp, a))
  }

  function RemoveStep(s: System, p: Principal, a: AgentId): System {
    s.(cp := AgentRemoved(s.cp, p.userId, a))
  }

  function ActionTimerStep(s: System, id: ActionId): System {
    if id !in s.cp.pending then s
    else s.(cp := Unpended(s.cp, id), h := Settle(s.h, id, Rejected(AgentTimeout)))
  }

  /** `dispatchAction` after its promise settled. */
  function ResumeStep(s: System, id: ActionId): System {
    if id !in s.h.outcomes || id !in s.h.rowWrites || s.h.outcomes[id] == [] || s.h.rowWrites[id] != [] then s
    else
      var status := TerminalStatus(s.h.outcomes[id][0]);
      s.(cp := RowUpdated(s.cp, id, status),
         h := s.h.(rowWrites := s.h.rowWrites[id := s.h.rowWrites[id] + [status]]))
  }

  function MaintenanceStep(s: System): System {
    s.(cp := Maintained(s.cp, s.clock))
  }

  function ShutdownStep(s: System): System {
    s.(cp := ClosedDown(s.cp),
       h := s.h.(outcomes := map id | id in s.h.outcomes ::
                   s.h.outcomes[id] + if id in s.cp.pending then [Rejected(InternalError)] else []))
  }

  function InstallStep(s: System, a: AgentId): System {
    if a !in s.responses then s
    else s.(procs := s.procs[a := Started(s.responses[a])],
            responses := s.responses - {a},
            h := s.h.(applied := s.h.applied[a := []]))
  }

  function AppliedBy(s: System, a: AgentId): seq<int> {
    if a in s.h.applied then s.h.applied[a] else []
  }

  function AgentReceiveStep(s: System, a: AgentId, e: Envelope): System {
    if a !in s.procs then s
    else
      var p := s.procs[a];
      var q := MessageHandled(p, a, s.controlKey, e, s.signed, s.clock);
      var h1 := if q.policy == p.policy then s.h
                else s.h.(applied := s.h.applied[a := AppliedBy(s, a) + [q.policy.version]]);
      var h2 := if MessageAccepted(p, a, s.controlKey, e, s.signed, s.clock) && Runs(p.policy, e)
                then h1.(executions := h1.executions + [Execution(a, e, p.policy)]) else h1;
      s.(procs := s.procs[a := q], h := h2)
  }

  function RestartStep(s: System, a: AgentId): System {
    if a !in s.procs then s else s.(procs := s.procs[a := Started(s.procs[a].policy)])
  }

  /** Whoever holds another key may sign anything with it. */
  function ForeignSignStep(s: System, key: Key, e: Envelope): System {
    if key == s.controlKey then s else s.(signed := s.signed + {Signed(key, e)})
  }

  function ControlPlaneStep(s: System, step: Step): System {
    match step
    case Upgrade(socket) => UpgradeStep(s, socket)
    case SocketGone(socket) => SocketGoneStep(s, socket)
    case Accept(socket, c) => AcceptStep(s, socket, c)
    case Receive(c, m) => ReceiveStep(s, c, m)
    case CloseEvent(c) => CloseEventStep(s, c)
    case CallTool(p, a, tool, id, t, n) => CallToolStep(s, p, a, tool, id, t, n)
    case CreateToken(p, alias, a, t, caps, ttl) => CreateTokenStep(s, p, alias, a, t, caps, ttl)
    case EnrollAgent(t, key) => EnrollStep(s, t, key)
    case UpdatePolicy(p, a, caps, n) => UpdatePolicyStep(s, p, a, caps, n)
    case Revoke(p, a) => RevokeStep(s, p, a)
    case Remove(p, a) => RemoveStep(s, p, a)
    case ActionTimer(id) => ActionTimerStep(s, id)
    case Resume(id) => ResumeStep(s, id)
    case Maintenance => MaintenanceStep(s)
    case Shutdown => ShutdownStep(s)
    case _ => s
  }

  function OutsideStep(s: System, step: Step): System {
    match step
    case Install(a) => InstallStep(s, a)
    case AgentReceive(a, e) => AgentReceiveStep(s, a, e)
    case Restart(a) => RestartStep(s, a)
    case ForeignSign(k, e) => ForeignSignStep(s, k, e)
    case _ => s
  }

  predicate AtControlPlane(step: Step) {
    !(step.Install? || step.AgentReceive? || step.Restart? || step.ForeignSign?)
  }

  function Taken(s: System, step: Step): System {
    if !AtControlPlane(step) then OutsideStep(s, step)
    else if s.cp.connections.shuttingDown then s
    else ControlPlaneStep(s, step)
  }

  function Apply(s: System, e: Event): System {
    if e.now < s.clock then s else Taken(s.(clock := e.now), e.step)
  }

  function Run(s: System, es: seq<Event>): System {
    if es == [] then s else Apply(Run(s, es[..|es| - 1]), es[|es| - 1])
  }
}
