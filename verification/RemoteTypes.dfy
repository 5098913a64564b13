/** Option, used for every `undefined` of the source. */
module Options {
  datatype Option<+T> = None | Some(value: T)
}

/** The records the control plane and its agents exchange (src/remote/types.ts).

    Identifiers, nonces, keys and hashes are opaque: the protocol only ever compares them. */
module RemoteTypes {
  import opened Options

  type AgentId = nat
  type UserId = nat
  type ConnectionId = nat
  type SocketId = nat
  type ActionId = nat
  type TokenHash = nat
  type Nonce = nat
  type Key = nat

  datatype Capability =
    | HostsRead | AgentsRead | AgentsAdmin | SystemRead | LogsRead | ServiceManage | DockerManage
    | FilesRead | FilesWrite | ShellExec | SudoExec | AgentAdmin | AuditRead

  datatype Scope =
    | ScopeHostsRead | ScopeAgentsRead | ScopeAgentsAdmin | ScopeStatusRead | ScopeLogsRead
    | ScopeServiceManage | ScopeDockerManage | ScopeFilesRead | ScopeFilesWrite | ScopeShellExec
    | ScopeSudoExec

  datatype Tool =
    | ListHosts | ListAgents | CreateEnrollmentToken | GetAgentInstallCommand | GetSystemStatus
    | TailLogs | RestartService | DockerPs | DockerLogs | DockerRestart | FileRead | FileWrite
    | RunShell | RunShellAsRoot | UpdateAgentPolicy | RevokeAgent | GetAuditEvents

  /** SCOPE_CAPABILITY_MAP. */
  function ScopeCapabilities(scope: Scope): set<Capability> {
    match scope
    case ScopeHostsRead => {HostsRead}
    case ScopeAgentsRead => {AgentsRead}
    case ScopeAgentsAdmin => {AgentsAdmin, AgentAdmin, AuditRead}
    case ScopeStatusRead => {SystemRead}
    case ScopeLogsRead => {LogsRead}
    case ScopeServiceManage => {ServiceManage}
    case ScopeDockerManage => {DockerManage}
    case ScopeFilesRead => {FilesRead}
    case ScopeFilesWrite => {FilesWrite}
    case ScopeShellExec => {ShellExec}
    case ScopeSudoExec => {SudoExec}
  }

  /** TOOL_CAPABILITY_MAP. */
  function ToolCapability(tool: Tool): Capability {
    match tool
    case ListHosts => HostsRead
    case ListAgents => AgentsRead
    case CreateEnrollmentToken => AgentsAdmin
    case GetAgentInstallCommand => AgentsAdmin
    case GetSystemStatus => SystemRead
    case TailLogs => LogsRead
    case RestartService => ServiceManage
    case DockerPs => DockerManage
    case DockerLogs => DockerManage
    case DockerRestart => DockerManage
    case FileRead => FilesRead
    case FileWrite => FilesWrite
    case RunShell => ShellExec
    case RunShellAsRoot => SudoExec
    case UpdateAgentPolicy => AgentsAdmin
    case RevokeAgent => AgentsAdmin
    case GetAuditEvents => AuditRead
  }

  /** The tools the control plane answers itself; every other tool is dispatched to an agent. */
  predicate AnsweredLocally(tool: Tool) {
    tool in {ListHosts, ListAgents, CreateEnrollmentToken, GetAgentInstallCommand, UpdateAgentPolicy,
             RevokeAgent, GetAuditEvents}
  }

  datatype Principal = Principal(userId: UserId, scopes: set<Scope>)

  predicate Grants(p: Principal, capability: Capability) {
    exists scope :: scope in p.scopes && capability in ScopeCapabilities(scope)
  }

  datatype Policy = Policy(capabilities: set<Capability>, version: int)

  datatype Status = Pending | Online | Offline | Revoked

  datatype AgentRow = AgentRow(userId: UserId, alias: nat, status: Status, publicKey: Option<Key>,
                               policy: Policy, policyVersion: int)

  datatype TokenRow = TokenRow(agentId: AgentId, userId: UserId, expiresAt: int, used: bool)

  datatype ActionStatus = Sent | Completed | TimedOut | Errored

  datatype ActionRow = ActionRow(userId: UserId, agentId: AgentId, tool: Tool, status: ActionStatus)

  /** Signed messages, without their signature field. `Envelope` values stand for the canonical text
      that is signed; RemoteEnvelopes.TextFixesEnvelope proves that the text fixes the envelope. */
  datatype Envelope =
    | Hello(agentId: AgentId, timestamp: int, nonce: Nonce)
    | ActionRequest(actionId: ActionId, agentId: AgentId, userId: UserId, tool: Tool,
                    capability: Capability, policyVersion: int, deadline: int, nonce: Nonce)
    | ActionResult(actionId: ActionId, agentId: AgentId, nonce: Nonce, ok: bool)
    | PolicyUpdate(agentId: AgentId, policy: Policy, policyVersion: int, issuedAt: int, nonce: Nonce)

  datatype Signed = Signed(key: Key, envelope: Envelope)

  /** Ideal signatures: a message verifies under a key exactly when the key's owner signed it. */
  predicate Verifies(signed: set<Signed>, key: Key, envelope: Envelope) {
    Signed(key, envelope) in signed
  }
}
