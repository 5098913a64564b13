/** The envelopes as the JSON objects whose canonical text is signed (src/remote/types.ts,
    src/remote/crypto.ts).

    Identifiers, nonces and times are numbers here, and a policy is its version and its capabilities. */
module RemoteEnvelopes {
  import opened Options
  import opened JsonText
  import opened CanonicalJson
  import opened RemoteTypes

  // ---------------------------------------------------------------------------------------------
  // Names
  // ---------------------------------------------------------------------------------------------

  /** The code units of a name; all names here are ASCII. */
  function Units(s: string): (t: Text)
    ensures |t| == |s|
    ensures forall i :: 0 <= i < |s| ==> t[i] == s[i] as int % 0x1_0000
  {
    seq(|s|, i requires 0 <= i < |s| => s[i] as int % 0x1_0000)
  }

  function CapabilityText(c: Capability): string {
    match c
    case HostsRead => "hosts.read"
    case AgentsRead => "agents.read"
    case AgentsAdmin => "agents.admin"
    case SystemRead => "system.read"
    case LogsRead => "logs.read"
    case ServiceManage => "service.manage"
    case DockerManage => "docker.manage"
    case FilesRead => "files.read"
    case FilesWrite => "files.write"
    case ShellExec => "shell.exec"
    case SudoExec => "sudo.exec"
    case AgentAdmin => "agent.admin"
    case AuditRead => "audit.read"
  }

  function CapabilityName(c: Capability): Text { Units(CapabilityText(c)) }

  function ToolText(t: Tool): string {
    match t
    case ListHosts => "list_hosts"
    case ListAgents => "list_agents"
    case CreateEnrollmentToken => "create_enrollment_token"
    case GetAgentInstallCommand => "get_agent_install_command"
    case GetSystemStatus => "get_system_status"
    case TailLogs => "tail_logs"
    case RestartService => "restart_service"
    case DockerPs => "docker_ps"
    case DockerLogs => "docker_logs"
    case DockerRestart => "docker_restart"
    case FileRead => "file_read"
    case FileWrite => "file_write"
    case RunShell => "run_shell"
    case RunShellAsRoot => "run_shell_as_root"
    case UpdateAgentPolicy => "update_agent_policy"
    case RevokeAgent => "revoke_agent"
    case GetAuditEvents => "get_audit_events"
  }

  function ToolName(t: Tool): Text { Units(ToolText(t)) }

  /** Length and two code units tell the names of one kind apart. */
  datatype Marking = Marking(length: nat, one: int, other: int)

  function Mark(s: string): Marking {
    if |s| < 2 then Marking(|s|, 0, 0)
    else if |s| < 6 then Marking(|s|, s[1] as int % 0x1_0000, 0)
    else Marked(|s|, s[0], s[5])
  }

  /** Units determine the mark of a name. */
  lemma UnitsKeepMark(s: string, t: string)
    requires Units(s) == Units(t)
    ensures Mark(s) == Mark(t)
  {
    assert |s| == |t|;
    assert forall i :: 0 <= i < |s| ==> Units(s)[i] == Units(t)[i];
    hide Units;
  }


  function ToolMark(t: Tool): Marking {
    match t
    case ListHosts => Marked(10, 'l', 'h')
    case ListAgents => Marked(11, 'l', 'a')
    case CreateEnrollmentToken => Marked(23, 'c', 'e')
    case GetAgentInstallCommand => Marked(25, 'g', 'g')
    case GetSystemStatus => Marked(17, 'g', 'y')
    case TailLogs => Marked(9, 't', 'l')
    case RestartService => Marked(15, 'r', 'r')
    case DockerPs => Marked(9, 'd', 'r')
    case DockerLogs => Marked(11, 'd', 'r')
    case DockerRestart => Marked(14, 'd', 'r')
    case FileRead => Marked(9, 'f', 'r')
    case FileWrite => Marked(10, 'f', 'w')
    case RunShell => Marked(9, 'r', 'h')
    case RunShellAsRoot => Marked(17, 'r', 'h')
    case UpdateAgentPolicy => Marked(19, 'u', 'e')
    case RevokeAgent => Marked(12, 'r', 'e')
    case GetAuditEvents => Marked(16, 'g', 'u')
  }

  function Marked(length: nat, first: char, sixth: char): Marking {
    Marking(length, first as int % 0x1_0000, sixth as int % 0x1_0000)
  }

  function CapabilityMark(c: Capability): Marking {
    match c
    case HostsRead => Marked(10, 'h', '.')
    case AgentsRead => Marked(11, 'a', 's')
    case AgentsAdmin => Marked(12, 'a', 's')
    case SystemRead => Marked(11, 's', 'm')
    case LogsRead => Marked(9, 'l', 'r')
    case ServiceManage => Marked(14, 's', 'c')
    case DockerManage => Marked(13, 'd', 'r')
    case FilesRead => Marked(10, 'f', '.')
    case FilesWrite => Marked(11, 'f', '.')
    case ShellExec => Marked(10, 's', '.')
    case SudoExec => Marked(9, 's', 'e')
    case AgentAdmin => Marked(11, 'a', '.')
    case AuditRead => Marked(10, 'a', '.')
  }

  lemma ToolNameMark(t: Tool)
    ensures Mark(ToolText(t)) == ToolMark(t)
  {
  }

  lemma CapabilityNameMark(c: Capability)
    ensures Mark(CapabilityText(c)) == CapabilityMark(c)
  {
  }

  lemma ToolMarksDiffer(t: Tool, u: Tool)
    ensures ToolMark(t) == ToolMark(u) ==> t == u
  {
  }

  lemma CapabilityMarksDiffer(c: Capability, d: Capability)
    ensures CapabilityMark(c) == CapabilityMark(d) ==> c == d
  {
  }

  lemma ToolNamesDiffer(t: Tool, u: Tool)
    ensures ToolName(t) == ToolName(u) ==> t == u
  {
    ToolNameMark(t);
    ToolNameMark(u);
    ToolMarksDiffer(t, u);
    hide ToolText, ToolMark, Mark, Units;
    if ToolName(t) == ToolName(u) {
      UnitsKeepMark(ToolText(t), ToolText(u));
    }
  }

  lemma CapabilityNamesDiffer(c: Capability, d: Capability)
    ensures CapabilityName(c) == CapabilityName(d) ==> c == d
  {
    CapabilityNameMark(c);
    CapabilityNameMark(d);
    CapabilityMarksDiffer(c, d);
    hide CapabilityText, CapabilityMark, Mark, Units;
    if CapabilityName(c) == CapabilityName(d) {
      UnitsKeepMark(CapabilityText(c), CapabilityText(d));
    }
  }

  // ---------------------------------------------------------------------------------------------
  // Objects
  // ---------------------------------------------------------------------------------------------

  const ALL: seq<Capability> :=
    [HostsRead, AgentsRead, AgentsAdmin, SystemRead, LogsRead, ServiceManage, DockerManage, FilesRead, FilesWrite,
     ShellExec, SudoExec, AgentAdmin, AuditRead]

  /** `policy.capabilities`: each capability and whether it is enabled. */
  function Flags(enabled: set<Capability>): (r: seq<Member>)
    ensures |r| == |ALL|
    ensures forall i :: 0 <= i < |ALL| ==> r[i] == Member(CapabilityName(ALL[i]), Boolean(ALL[i] in enabled))
  {
    seq(|ALL|, i requires 0 <= i < |ALL| => Member(CapabilityName(ALL[i]), Boolean(ALL[i] in enabled)))
  }

  datatype Name =
    | Type | ActionName | AgentName | UserName | ToolField | CapabilityField | PolicyVersion | Deadline | NonceField
    | Timestamp | StatusField | PolicyField | IssuedAt | Capabilities | VersionField

  function KeyText(n: Name): string {
    match n
    case Type => "type"
    case ActionName => "action_id"
    case AgentName => "agent_id"
    case UserName => "user_id"
    case ToolField => "tool"
    case CapabilityField => "capability"
    case PolicyVersion => "policy_version"
    case Deadline => "deadline"
    case NonceField => "nonce"
    case Timestamp => "timestamp"
    case StatusField => "status"
    case PolicyField => "policy"
    case IssuedAt => "issued_at"
    case Capabilities => "capabilities"
    case VersionField => "version"
  }

  function Key(n: Name): Text { Units(KeyText(n)) }

  function KeyMark(n: Name): Marking {
    match n
    case Type => Marking(4, 'y' as int, 0)
    case ActionName => Marked(9, 'a', 'n')
    case AgentName => Marked(8, 'a', '_')
    case UserName => Marked(7, 'u', 'i')
    case ToolField => Marking(4, 'o' as int, 0)
    case CapabilityField => Marked(10, 'c', 'i')
    case PolicyVersion => Marked(14, 'p', 'y')
    case Deadline => Marked(8, 'd', 'i')
    case NonceField => Marking(5, 'o' as int, 0)
    case Timestamp => Marked(9, 't', 't')
    case StatusField => Marked(6, 's', 's')
    case PolicyField => Marked(6, 'p', 'y')
    case IssuedAt => Marked(9, 'i', 'd')
    case Capabilities => Marked(12, 'c', 'i')
    case VersionField => Marked(7, 'v', 'o')
  }

  lemma KeyHasMark(n: Name)
    ensures Mark(KeyText(n)) == KeyMark(n)
  {
  }

  lemma KeyMarksDiffer(m: Name, n: Name)
    ensures KeyMark(m) == KeyMark(n) ==> m == n
  {
  }

  lemma KeysDiffer(m: Name, n: Name)
    ensures Key(m) == Key(n) ==> m == n
  {
    KeyHasMark(m);
    KeyHasMark(n);
    KeyMarksDiffer(m, n);
    hide KeyText, KeyMark, Mark, Units;
    if Key(m) == Key(n) {
      UnitsKeepMark(KeyText(m), KeyText(n));
    }
  }

  /** Objects are built from named fields. */
  datatype Pair = Pair(name: Name, value: Json)

  function Object(fields: seq<Pair>): (r: seq<Member>)
    ensures |r| == |fields|
    ensures forall i :: 0 <= i < |fields| ==> r[i] == Member(Key(fields[i].name), fields[i].value)
  {
    seq(|fields|, i requires 0 <= i < |fields| => Member(Key(fields[i].name), fields[i].value))
  }

  function PolicyFields(p: Policy): seq<Pair> {
    [Pair(Capabilities, Obj(Flags(p.capabilities))), Pair(VersionField, Num(p.version))]
  }

  datatype Kind = KHello | KRequest | KResult | KUpdate

  function KindOf(e: Envelope): Kind {
    match e
    case Hello(_, _, _) => KHello
    case ActionRequest(_, _, _, _, _, _, _, _) => KRequest
    case ActionResult(_, _, _, _) => KResult
    case PolicyUpdate(_, _, _, _, _) => KUpdate
  }

  function TypeName(k: Kind): Text {
    match k
    case KHello => Units("agent.hello")
    case KRequest => Units("action.request")
    case KResult => Units("action.result")
    case KUpdate => Units("policy.update")
  }

  lemma TypeNamesDiffer(k: Kind, l: Kind)
    ensures TypeName(k) == TypeName(l) ==> k == l
  {
    assert |TypeName(KHello)| == 11 && |TypeName(KRequest)| == 14;
    assert |TypeName(KResult)| == 13 && TypeName(KResult)[0] == 'a' as int;
    assert |TypeName(KUpdate)| == 13 && TypeName(KUpdate)[0] == 'p' as int;
    hide TypeName;
  }

  function StatusName(ok: bool): (t: Text)
    ensures |t| == if ok then 2 else 5
  {
    if ok then Units("ok") else Units("error")
  }

  /** The fields of an envelope but `signature`. */
  function Fields(e: Envelope): seq<Pair> {
    [Pair(Type, Str(TypeName(KindOf(e)))), Pair(AgentName, Num(e.agentId)), Pair(NonceField, Num(e.nonce))] + Rest(e)
  }

  function Rest(e: Envelope): seq<Pair> {
    match e
    case Hello(_, timestamp, _) => [Pair(Timestamp, Num(timestamp))]
    case ActionRequest(id, _, u, tool, capability, version, deadline, _) =>
      [Pair(ActionName, Num(id)), Pair(UserName, Num(u)), Pair(ToolField, Str(ToolName(tool))),
       Pair(CapabilityField, Str(CapabilityName(capability))), Pair(PolicyVersion, Num(version)),
       Pair(Deadline, Num(deadline))]
    case ActionResult(id, _, _, ok) => [Pair(ActionName, Num(id)), Pair(StatusField, Str(StatusName(ok)))]
    case PolicyUpdate(_, policy, version, issuedAt, _) =>
      [Pair(PolicyField, Obj(Object(PolicyFields(policy)))), Pair(PolicyVersion, Num(version)),
       Pair(IssuedAt, Num(issuedAt))]
  }

  function Encoded(e: Envelope): Json { Obj(Object(Fields(e))) }

  // ---------------------------------------------------------------------------------------------
  // Equal text, equal envelope
  // ---------------------------------------------------------------------------------------------

  ghost predicate DistinctNames(fields: seq<Pair>) {
    forall i, j :: 0 <= i < j < |fields| ==> fields[i].name != fields[j].name
  }

  lemma FieldsDistinct(e: Envelope)
    ensures DistinctNames(Fields(e))
  {
    hide Key, ToolName, CapabilityName, TypeName, StatusName, PolicyFields;
  }

  lemma ObjectDistinct(fields: seq<Pair>)
    requires DistinctNames(fields)
    ensures DistinctKeys(Object(fields))
  {
    forall i, j | 0 <= i < j < |fields| ensures Key(fields[i].name) != Key(fields[j].name) {
      KeysDiffer(fields[i].name, fields[j].name);
    }
    hide Key;
  }

  lemma ObjectWellFormed(fields: seq<Pair>)
    requires DistinctNames(fields) && forall i :: 0 <= i < |fields| ==> WellFormed(fields[i].value)
    ensures WellFormed(Obj(Object(fields)))
  {
    ObjectDistinct(fields);
    var ms := Object(fields);
    hide DistinctKeys, Key;
    forall m | m in ms ensures WellFormed(m.value) {
      var i :| 0 <= i < |ms| && ms[i] == m;
      assert WellFormed(fields[i].value);
    }
  }

  lemma FlagsDistinct(enabled: set<Capability>)
    ensures DistinctKeys(Flags(enabled)) && WellFormed(Obj(Flags(enabled)))
  {
    forall i, j | 0 <= i < j < |ALL| ensures CapabilityName(ALL[i]) != CapabilityName(ALL[j]) {
      CapabilityNamesDiffer(ALL[i], ALL[j]);
    }
    hide CapabilityName;
  }

  lemma EncodedWellFormed(e: Envelope)
    ensures WellFormed(Encoded(e))
  {
    FieldsDistinct(e);
    hide Key, ToolName, CapabilityName, TypeName, StatusName, DistinctNames;
    if e.PolicyUpdate? {
      FlagsDistinct(e.policy.capabilities);
      hide Flags;
      assert DistinctNames(PolicyFields(e.policy)) by { PolicyNames(e.policy); }
      ObjectWellFormed(PolicyFields(e.policy));
    }
    hide Object, PolicyFields;
    ObjectWellFormed(Fields(e));
  }

  lemma PolicyNames(p: Policy)
    ensures DistinctNames(PolicyFields(p))
  {
  }

  /** The same object has the same value under each name. */
  lemma SameField(x: seq<Member>, y: seq<Member>, k: Text, v: Json, w: Json)
    requires DistinctKeys(x) && DistinctKeys(y) && Same(Obj(x), Obj(y))
    requires Member(k, v) in x && Member(k, w) in y
    ensures Same(v, w)
  {
    LookupIs(y, Member(k, w));
  }

  lemma SameNamed(x: seq<Pair>, y: seq<Pair>, i: nat, j: nat)
    requires DistinctNames(x) && DistinctNames(y) && Same(Obj(Object(x)), Obj(Object(y)))
    requires i < |x| && j < |y| && x[i].name == y[j].name
    ensures Same(x[i].value, y[j].value)
  {
    ObjectDistinct(x);
    ObjectDistinct(y);
    assert Object(x)[i] in Object(x) && Object(y)[j] in Object(y);
    hide Key, Same;
    SameField(Object(x), Object(y), Key(x[i].name), x[i].value, y[j].value);
  }

  lemma SameFlags(x: set<Capability>, y: set<Capability>)
    requires Same(Obj(Flags(x)), Obj(Flags(y)))
    ensures x == y
  {
    FlagsDistinct(x);
    FlagsDistinct(y);
    hide Same;
    forall c: Capability ensures c in x <==> c in y {
      var i := IndexOf(c);
      assert Flags(x)[i] in Flags(x) && Flags(y)[i] in Flags(y);
      SameField(Flags(x), Flags(y), CapabilityName(c), Boolean(c in x), Boolean(c in y));
      SameLeaf(Boolean(c in x), Boolean(c in y));
    }
  }

  lemma SameLeaf(v: Json, w: Json)
    requires Same(v, w) && !v.Arr? && !v.Obj?
    ensures v == w
  {
  }

  function IndexOf(c: Capability): (i: nat)
    ensures i < |ALL| && ALL[i] == c
  {
    match c
    case HostsRead => 0
    case AgentsRead => 1
    case AgentsAdmin => 2
    case SystemRead => 3
    case LogsRead => 4
    case ServiceManage => 5
    case DockerManage => 6
    case FilesRead => 7
    case FilesWrite => 8
    case ShellExec => 9
    case SudoExec => 10
    case AgentAdmin => 11
    case AuditRead => 12
  }

  lemma SamePolicy(p: Policy, q: Policy)
    requires Same(Obj(Object(PolicyFields(p))), Obj(Object(PolicyFields(q))))
    ensures p == q
  {
    var x, y := PolicyFields(p), PolicyFields(q);
    PolicyNames(p);
    PolicyNames(q);
    hide Same, Object, Flags;
    SameNamed(x, y, 0, 0);
    SameNamed(x, y, 1, 1);
    SameFlags(p.capabilities, q.capabilities);
    SameLeaf(x[1].value, y[1].value);
  }

  /** The leaf at position `i` of both. */
  lemma SameAt(x: Envelope, y: Envelope, i: nat)
    requires Same(Encoded(x), Encoded(y))
    requires i < |Fields(x)| && i < |Fields(y)| && Fields(x)[i].name == Fields(y)[i].name
    ensures Same(Fields(x)[i].value, Fields(y)[i].value)
  {
    FieldsDistinct(x);
    FieldsDistinct(y);
    hide Same, Object, Fields;
    SameNamed(Fields(x), Fields(y), i, i);
  }

  lemma SameKind(x: Envelope, y: Envelope)
    requires Same(Encoded(x), Encoded(y))
    ensures KindOf(x) == KindOf(y) && x.agentId == y.agentId && x.nonce == y.nonce
  {
    hide Same, Encoded, TypeName, Rest;
    SameAt(x, y, 0);
    SameAt(x, y, 1);
    SameAt(x, y, 2);
    SameLeaf(Fields(x)[0].value, Fields(y)[0].value);
    SameLeaf(Fields(x)[1].value, Fields(y)[1].value);
    SameLeaf(Fields(x)[2].value, Fields(y)[2].value);
    TypeNamesDiffer(KindOf(x), KindOf(y));
  }

  lemma SameRest(x: Envelope, y: Envelope, i: nat)
    requires Same(Encoded(x), Encoded(y))
    requires i < |Rest(x)| && i < |Rest(y)| && Rest(x)[i].name == Rest(y)[i].name
    ensures Same(Rest(x)[i].value, Rest(y)[i].value)
  {
    hide Same, Encoded, Rest;
    assert Fields(x)[3 + i] == Rest(x)[i] && Fields(y)[3 + i] == Rest(y)[i];
    SameAt(x, y, 3 + i);
  }

  lemma SameLeafAt(x: Envelope, y: Envelope, i: nat)
    requires Same(Encoded(x), Encoded(y))
    requires i < |Rest(x)| && i < |Rest(y)| && Rest(x)[i].name == Rest(y)[i].name
    requires !Rest(x)[i].value.Arr? && !Rest(x)[i].value.Obj?
    ensures Rest(x)[i].value == Rest(y)[i].value
  {
    hide Same, Encoded, Rest;
    SameRest(x, y, i);
    SameLeaf(Rest(x)[i].value, Rest(y)[i].value);
  }

  lemma SameRequest(x: Envelope, y: Envelope)
    requires Same(Encoded(x), Encoded(y)) && x.ActionRequest? && y.ActionRequest?
    ensures x == y
  {
    hide Same, Encoded, ToolName, CapabilityName;
    SameKind(x, y);
    SameLeafAt(x, y, 0);
    SameLeafAt(x, y, 1);
    SameLeafAt(x, y, 2);
    SameLeafAt(x, y, 3);
    SameLeafAt(x, y, 4);
    SameLeafAt(x, y, 5);
    ToolNamesDiffer(x.tool, y.tool);
    CapabilityNamesDiffer(x.capability, y.capability);
  }

  lemma SameUpdate(x: Envelope, y: Envelope)
    requires Same(Encoded(x), Encoded(y)) && x.PolicyUpdate? && y.PolicyUpdate?
    ensures x == y
  {
    hide Same, Encoded, Object;
    SameKind(x, y);
    SameRest(x, y, 0);
    SameLeafAt(x, y, 1);
    SameLeafAt(x, y, 2);
    SamePolicy(x.policy, y.policy);
  }

  lemma SameEnvelope(x: Envelope, y: Envelope)
    requires Same(Encoded(x), Encoded(y))
    ensures x == y
  {
    hide Same, Encoded;
    SameKind(x, y);
    if x.ActionRequest? {
      SameRequest(x, y);
    } else if x.PolicyUpdate? {
      SameUpdate(x, y);
    } else {
      SameLeafAt(x, y, 0);
      if x.ActionResult? {
        SameLeafAt(x, y, 1);
        hide StatusName;
      }
    }
  }

  /** Two envelopes have the same canonical text exactly when they are the same envelope: the text fixes
      every field and the kind of message, so a signature for one is a signature for no other. */
  lemma TextFixesEnvelope(x: Envelope, y: Envelope)
    ensures Canonical(Encoded(x)) == Canonical(Encoded(y)) <==> x == y
  {
    EncodedWellFormed(x);
    EncodedWellFormed(y);
    CanonicalIsInjective(Encoded(x), Encoded(y));
    hide Canonical, Encoded, Same;
    if Same(Encoded(x), Encoded(y)) {
      SameEnvelope(x, y);
    }
  }
}
