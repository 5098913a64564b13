/** What each atomic stretch of the control plane does to its state
    (src/remote/control-plane.ts, src/remote/agent-handler.ts, src/remote/store.ts).

    JavaScript runs to completion between awaits, so every function here is one step taken at one
    clock reading. The functions are the specification that the class in RemoteControlPlane.dfy
    implements and that the system of RemoteSystem.dfy interleaves. */
module ControlPlane {
  import opened Options
  import opened RemoteTypes
  import opened ConnectionLifecycle
  import opened ExpiringLog
  import opened NonceWindows

  const HELLO_MAX_SKEW_MS := 300_000

  datatype Live = Live(connection: ConnectionId, seenNonces: seq<Entry>)

  datatype Failure = AgentTimeout | SignatureInvalid | ReplayDetected | InternalError

  /** How the promise of a dispatched action settles. `key` is the key the result verified under. */
  datatype Outcome = Resolved(result: Envelope, key: Key) | Rejected(failure: Failure)

  datatype State = State(
    connections: Connections,
    live: map<AgentId, Live>,
    helloNonces: map<AgentId, seq<Entry>>,
    pending: map<ActionId, ActionRow>,
    agents: map<AgentId, AgentRow>,
    tokens: map<TokenHash, TokenRow>,
    actions: map<ActionId, ActionRow>)

  function Empty(maxConnections: nat, maxPerAgent: nat): State {
    State(Initial(maxConnections, maxPerAgent), map[], map[], map[], map[], map[], map[])
  }

  // ---------------------------------------------------------------------------------------------
  // Hello
  // ---------------------------------------------------------------------------------------------

  predicate Enrolled(s: State, a: AgentId) {
    a in s.agents && s.agents[a].status != Revoked && s.agents[a].publicKey.Some?
  }

  predicate FreshTimestamp(timestamp: int, now: int) {
    -HELLO_MAX_SKEW_MS <= now - timestamp <= HELLO_MAX_SKEW_MS
  }

  function HelloWindow(s: State, a: AgentId): seq<Entry> {
    if a in s.helloNonces then s.helloNonces[a] else []
  }

  /** Every window pruned, empty ones dropped. */
  function WindowsPruned(m: map<AgentId, seq<Entry>>, now: int): map<AgentId, seq<Entry>> {
    map a | a in m && Unexpired(m[a], now) != [] :: Unexpired(m[a], now)
  }

  function LivePruned(m: map<AgentId, Live>, now: int): map<AgentId, Live> {
    map a | a in m :: m[a].(seenNonces := Unexpired(m[a].seenNonces, now))
  }

  function CleanedUp(s: State, now: int): State {
    s.(helloNonces := WindowsPruned(s.helloNonces, now), live := LivePruned(s.live, now))
  }

  /** The agent is now reachable over connection `c`. */
  function WentOnline(s: State, c: ConnectionId, h: Envelope, now: int): State
    requires h.Hello? && h.agentId in s.agents
  {
    var a := h.agentId;
    s.(helloNonces := s.helloNonces[a := HelloWindow(s, a) + [Entry(h.nonce, now + NONCE_TTL_MS)]],
       live := s.live[a := Live(c, Remembered([], h.nonce, now))],
       connections := Authenticated(s.connections, c, a),
       agents := s.agents[a := s.agents[a].(status := Online)])
  }

  /** A hello that passed the claim, the signature and the clock checks. */
  function HelloAdmitted(s: State, c: ConnectionId, h: Envelope, now: int): (State, bool)
    requires h.Hello? && h.agentId in s.agents
  {
    var a := h.agentId;
    var t := CleanedUp(s, now);
    if a in t.live && t.live[a].connection == c then (t, false)
    else if Has(HelloWindow(t, a), h.nonce) then (t, false)
    else (WentOnline(t, c, h, now), true)
  }

  /** `handleAgentHello`; the flag says whether the agent was accepted. */
  function HelloHandled(s: State, c: ConnectionId, h: Envelope, signed: set<Signed>, now: int): (State, bool)
    requires h.Hello?
  {
    var a := h.agentId;
    if !Enrolled(s, a) then (s, false)
    else if !MayClaim(s.connections, c, a) then (s, false)
    else
      var t := s.(connections := Claimed(s.connections, c, a));
      if !Verifies(signed, s.agents[a].publicKey.value, h) then (t, false)
      else if !FreshTimestamp(h.timestamp, now) then (t, false)
      else HelloAdmitted(t, c, h, now)
  }

  // ---------------------------------------------------------------------------------------------
  // Actions
  // ---------------------------------------------------------------------------------------------

  predicate Owns(s: State, p: Principal, a: AgentId) {
    a in s.agents && s.agents[a].userId == p.userId
  }

  /** Every check between the tool call and the promise of `dispatchAction`. The action table refuses
      a primary key it already holds. */
  predicate MayDispatch(s: State, p: Principal, a: AgentId, tool: Tool, id: ActionId) {
    && Grants(p, ToolCapability(tool))
    && !AnsweredLocally(tool)
    && Owns(s, p, a)
    && ToolCapability(tool) in s.agents[a].policy.capabilities
    && s.agents[a].status != Revoked
    && a in s.live
    && id !in s.actions
  }

  function Dispatched(s: State, p: Principal, a: AgentId, tool: Tool, id: ActionId): State {
    var action := ActionRow(p.userId, a, tool, Sent);
    s.(actions := s.actions[id := action], pending := s.pending[id := action])
  }

  function Unpended(s: State, id: ActionId): State {
    s.(pending := s.pending - {id})
  }

  predicate ResultVerifies(s: State, r: Envelope, signed: set<Signed>)
    requires r.ActionResult?
  {
    && r.agentId in s.agents
    && s.agents[r.agentId].publicKey.Some?
    && Verifies(signed, s.agents[r.agentId].publicKey.value, r)
  }

  predicate OnLiveConnection(s: State, c: ConnectionId, a: AgentId) {
    a in s.live && s.live[a].connection == c
  }

  /** `handleActionResult`: the new state and, when a promise settled, how. */
  function ResultHandled(s: State, c: ConnectionId, r: Envelope, signed: set<Signed>, now: int)
    : (State, Option<Outcome>)
    requires r.ActionResult?
  {
    if r.actionId !in s.pending then (s, None)
    else if !ResultVerifies(s, r, signed) then (Unpended(s, r.actionId), Some(Rejected(InternalError)))
    else if s.pending[r.actionId].agentId != r.agentId || !OnLiveConnection(s, c, r.agentId) then
      (Unpended(s, r.actionId), Some(Rejected(SignatureInvalid)))
    else
      var live := s.live[r.agentId];
      var window := Unexpired(live.seenNonces, now);
      if Has(window, r.nonce) then
        (Unpended(s, r.actionId).(live := s.live[r.agentId := live.(seenNonces := window)]),
         Some(Rejected(ReplayDetected)))
      else
        (Unpended(s, r.actionId).(live := s.live[r.agentId :=
                                              live.(seenNonces := Remembered(live.seenNonces, r.nonce, now))]),
         Some(Resolved(r, s.agents[r.agentId].publicKey.value)))
  }

  /** The row status an outcome leads to once `dispatchAction` resumes. */
  function TerminalStatus(o: Outcome): ActionStatus {
    match o
    case Resolved(r, _) => if r.ActionResult? && r.ok then Completed else Errored
    case Rejected(f) => if f == AgentTimeout then TimedOut else Errored
  }

  /** `updateAction`: no row, no effect. */
  function RowUpdated(s: State, id: ActionId, status: ActionStatus): State {
    if id !in s.actions then s
    else s.(actions := s.actions[id := s.actions[id].(status := status)])
  }

  // ---------------------------------------------------------------------------------------------
  // Connections, enrollment, policy, revocation
  // ---------------------------------------------------------------------------------------------

  /** `handleLiveConnectionClosed`. */
  function WentOffline(s: State, a: AgentId, c: ConnectionId): State {
    if a !in s.agents || !OnLiveConnection(s, c, a) then s
    else
      s.(live := s.live - {a},
         agents := if s.agents[a].status == Revoked then s.agents
                   else s.agents[a := s.agents[a].(status := Offline)])
  }

  /** `handleClose` and the callback it makes for an authenticated connection. */
  function ConnectionClosed(s: State, c: ConnectionId): State {
    var t := s.(connections := Closed(s.connections, c));
    if c in s.connections.managed && !s.connections.shuttingDown
       && s.connections.managed[c].authenticated && s.connections.managed[c].agentId.Some?
    then WentOffline(t, s.connections.managed[c].agentId.value, c)
    else t
  }

  predicate AliasTaken(s: State, userId: UserId, alias: nat) {
    exists a :: a in s.agents && s.agents[a].userId == userId && s.agents[a].alias == alias
  }

  /** `createEnrollmentToken`. A revoked holder of the alias passes the explicit check but still
      fails the UNIQUE(user_id, alias) constraint, so the alias must be free of any row. */
  predicate MayCreateToken(s: State, p: Principal, alias: nat, a: AgentId, t: TokenHash) {
    && Grants(p, AgentsAdmin)
    && !AliasTaken(s, p.userId, alias)
    && a !in s.agents
    && t !in s.tokens
  }

  function TokenCreated(s: State, p: Principal, alias: nat, a: AgentId, t: TokenHash,
                        policy: Policy, expiresAt: int): State
  {
    s.(agents := s.agents[a := AgentRow(p.userId, alias, Pending, None, policy, policy.version)],
       tokens := s.tokens[t := TokenRow(a, p.userId, expiresAt, false)])
  }

  predicate MayEnroll(s: State, t: TokenHash, now: int) {
    && t in s.tokens
    && !s.tokens[t].used
    && s.tokens[t].expiresAt >= now
    && s.tokens[t].agentId in s.agents
    && s.agents[s.tokens[t].agentId].status != Revoked
  }

  function AgentEnrolled(s: State, t: TokenHash, key: Key): State
    requires t in s.tokens && s.tokens[t].agentId in s.agents
  {
    var a := s.tokens[t].agentId;
    s.(tokens := s.tokens[t := s.tokens[t].(used := true)],
       agents := s.agents[a := s.agents[a].(status := Offline, publicKey := Some(key))])
  }

  predicate MayAdminister(s: State, p: Principal, a: AgentId) {
    Grants(p, AgentsAdmin) && Owns(s, p, a)
  }

  function NextPolicy(row: AgentRow, capabilities: set<Capability>): Policy {
    Policy(capabilities, row.policyVersion + 1)
  }

  function PolicyStored(s: State, a: AgentId, capabilities: set<Capability>): State
    requires a in s.agents
  {
    var policy := NextPolicy(s.agents[a], capabilities);
    s.(agents := s.agents[a := s.agents[a].(policy := policy, policyVersion := policy.version)])
  }

  function AgentRevoked(s: State, a: AgentId): State
    requires a in s.agents
  {
    s.(agents := s.agents[a := s.agents[a].(status := Revoked)], live := s.live - {a})
  }

  /** `removeRevokedAgent`: deletes the row, its tokens and its actions, or nothing. */
  function AgentRemoved(s: State, userId: UserId, a: AgentId): State {
    if a !in s.agents || s.agents[a].userId != userId || s.agents[a].status != Revoked then s
    else
      s.(agents := s.agents - {a},
         tokens := map t | t in s.tokens && !(s.tokens[t].userId == userId && s.tokens[t].agentId == a)
                   :: s.tokens[t],
         actions := map i | i in s.actions && !(s.actions[i].userId == userId && s.actions[i].agentId == a)
                    :: s.actions[i])
  }

  function TokensPruned(s: State, now: int): State {
    s.(tokens := map t | t in s.tokens && s.tokens[t].expiresAt > now :: s.tokens[t])
  }

  /** The minute timer. */
  function Maintained(s: State, now: int): State {
    TokensPruned(CleanedUp(s, now), now)
  }

  /** `close`: everything in memory is dropped; the rows stay as they are. */
  function ClosedDown(s: State): State {
    s.(connections := ShutDown(s.connections), live := map[], helloNonces := map[], pending := map[])
  }

  // ---------------------------------------------------------------------------------------------
  // A result resolves an action exactly when it is the right agent's, on the right connection, and new.
  // ---------------------------------------------------------------------------------------------

  lemma ResolvesExactly(s: State, c: ConnectionId, r: Envelope, signed: set<Signed>, now: int)
    requires r.ActionResult?
    ensures var (t, o) := ResultHandled(s, c, r, signed, now);
            (o.Some? && o.value.Resolved?) <==>
              && r.actionId in s.pending
              && s.pending[r.actionId].agentId == r.agentId
              && ResultVerifies(s, r, signed)
              && OnLiveConnection(s, c, r.agentId)
              && !exists e :: e in s.live[r.agentId].seenNonces && e.key == r.nonce && e.expiresAt > now
  {
    if r.actionId in s.pending && ResultVerifies(s, r, signed) && OnLiveConnection(s, c, r.agentId) {
      var seen := s.live[r.agentId].seenNonces;
      UnexpiredMembers(seen, now);
      HasIff(Unexpired(seen, now), r.nonce);
    }
  }

  /** A nonce that resolved an action goes into the window of the live connection, with a full
      lifetime. */
  lemma ResolvedNonceIsSeen(s: State, c: ConnectionId, r: Envelope, signed: set<Signed>, now: int)
    requires r.ActionResult?
    requires var (_, o) := ResultHandled(s, c, r, signed, now); o.Some? && o.value.Resolved?
    ensures var t := ResultHandled(s, c, r, signed, now).0;
            Entry(r.nonce, now + NONCE_TTL_MS) in t.live[r.agentId].seenNonces
  {
    var seen := Remembered(s.live[r.agentId].seenNonces, r.nonce, now);
    assert seen[|seen| - 1] == Entry(r.nonce, now + NONCE_TTL_MS);
  }
}
