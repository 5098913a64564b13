/** Bounded WebSocket bookkeeping of the control plane (src/remote/agent-connection-lifecycle.ts).

    Timers, pings and the closing handshake are left out: a connection's close event may arrive at
    any moment, which covers every deadline that asks for a close. */
module ConnectionLifecycle {
  import opened Options
  import opened RemoteTypes

  datatype Managed = Managed(authenticated: bool, agentId: Option<AgentId>)

  datatype Connections = Connections(
    managed: map<ConnectionId, Managed>,
    claims: map<AgentId, set<ConnectionId>>,
    reserved: set<SocketId>,
    shuttingDown: bool,
    maxConnections: nat,
    maxPerAgent: nat)

  function Initial(maxConnections: nat, maxPerAgent: nat): Connections {
    Connections(map[], map[], {}, false, maxConnections, maxPerAgent)
  }

  function Upgraded(s: Connections, socket: SocketId): Connections {
    if s.shuttingDown || |s.managed| + |s.reserved| >= s.maxConnections then s
    else s.(reserved := s.reserved + {socket})
  }

  function SocketReleased(s: Connections, socket: SocketId): Connections {
    s.(reserved := s.reserved - {socket})
  }

  function Attached(s: Connections, c: ConnectionId): Connections {
    if s.shuttingDown || |s.managed| >= s.maxConnections then s
    else s.(managed := s.managed[c := Managed(false, None)])
  }

  function Accepted(s: Connections, socket: SocketId, c: ConnectionId): Connections {
    Attached(SocketReleased(s, socket), c)
  }

  function ClaimsOf(s: Connections, a: AgentId): set<ConnectionId> {
    if a in s.claims then s.claims[a] else {}
  }

  /** Whether `claim` lets connection `c` speak for agent `a`. */
  predicate MayClaim(s: Connections, c: ConnectionId, a: AgentId) {
    c in s.managed ==>
      && (s.managed[c].agentId.None? || s.managed[c].agentId == Some(a))
      && (c in ClaimsOf(s, a) || |ClaimsOf(s, a)| < s.maxPerAgent)
  }

  function Claimed(s: Connections, c: ConnectionId, a: AgentId): Connections {
    if c !in s.managed || !MayClaim(s, c, a) then s
    else s.(claims := s.claims[a := ClaimsOf(s, a) + {c}],
            managed := s.managed[c := s.managed[c].(agentId := Some(a))])
  }

  function Authenticated(s: Connections, c: ConnectionId, a: AgentId): Connections {
    if c !in s.managed then s
    else s.(managed := s.managed[c := Managed(true, Some(a))])
  }

  function ClaimReleased(claims: map<AgentId, set<ConnectionId>>, owner: Option<AgentId>, c: ConnectionId)
    : map<AgentId, set<ConnectionId>>
  {
    if owner.None? || owner.value !in claims then claims
    else if claims[owner.value] - {c} == {} then claims - {owner.value}
    else claims[owner.value := claims[owner.value] - {c}]
  }

  function Closed(s: Connections, c: ConnectionId): Connections {
    if c !in s.managed then s
    else s.(managed := s.managed - {c}, claims := ClaimReleased(s.claims, s.managed[c].agentId, c))
  }

  function ShutDown(s: Connections): Connections {
    if s.shuttingDown then s
    else s.(shuttingDown := true, managed := map[], claims := map[], reserved := {})
  }

  // ---------------------------------------------------------------------------------------------
  // The invariant
  // ---------------------------------------------------------------------------------------------

  ghost predicate InClaims(s: Connections, c: ConnectionId, a: AgentId) {
    a in s.claims && c in s.claims[a]
  }

  ghost predicate BoundTo(s: Connections, c: ConnectionId, a: AgentId) {
    c in s.managed && s.managed[c].agentId == Some(a)
  }

  /** A managed connection is bound to an agent exactly when it is in the agent's claim set; claim
      sets are non-empty and within the per-agent limit; the table is within the global limit; an
      authenticated connection is bound. */
  ghost predicate Inv(s: Connections) {
    && (forall c, a :: BoundTo(s, c, a) <==> InClaims(s, c, a))
    && (forall a :: a in s.claims ==> s.claims[a] != {} && |s.claims[a]| <= s.maxPerAgent)
    && |s.managed| <= s.maxConnections
    && (forall c :: c in s.managed && s.managed[c].authenticated ==> s.managed[c].agentId.Some?)
  }

  /** Claim sets never overlap and only hold managed connections. */
  lemma ClaimsAreDisjoint(s: Connections, a: AgentId, b: AgentId)
    requires Inv(s) && a in s.claims && b in s.claims && a != b
    ensures s.claims[a] !! s.claims[b]
    ensures s.claims[a] <= s.managed.Keys
  {
    forall c | c in s.claims[a] ensures c !in s.claims[b] && c in s.managed.Keys {
      assert InClaims(s, c, a) && BoundTo(s, c, a);
      assert InClaims(s, c, b) <==> BoundTo(s, c, b);
    }
  }

  lemma InitialInv(maxConnections: nat, maxPerAgent: nat)
    ensures Inv(Initial(maxConnections, maxPerAgent))
  {
  }

  lemma MapUpdateSize<K, V>(m: map<K, V>, k: K, v: V)
    ensures |m[k := v]| == if k in m then |m| else |m| + 1
  {
    assert m[k := v].Keys == m.Keys + {k};
  }

  lemma MapRemoveSize<K, V>(m: map<K, V>, k: K)
    ensures |m - {k}| == if k in m then |m| - 1 else |m|
  {
    assert (m - {k}).Keys == m.Keys - {k};
  }

  lemma AttachedInv(s: Connections, c: ConnectionId)
    requires Inv(s) && c !in s.managed
    ensures Inv(Attached(s, c))
  {
    var t := Attached(s, c);
    MapUpdateSize(s.managed, c, Managed(false, None));
    forall d, a ensures BoundTo(t, d, a) <==> InClaims(t, d, a) {
      assert BoundTo(s, d, a) <==> InClaims(s, d, a);
    }
  }

  lemma ClaimedInv(s: Connections, c: ConnectionId, a: AgentId)
    requires Inv(s)
    ensures Inv(Claimed(s, c, a))
    ensures c in s.managed && MayClaim(s, c, a) ==> BoundTo(Claimed(s, c, a), c, a)
  {
    if c in s.managed && MayClaim(s, c, a) {
      var t := Claimed(s, c, a);
      MapUpdateSize(s.managed, c, t.managed[c]);
      assert BoundTo(s, c, a) <==> InClaims(s, c, a);
      forall d, b ensures BoundTo(t, d, b) <==> InClaims(t, d, b) {
        assert BoundTo(s, d, b) <==> InClaims(s, d, b);
      }
      assert |ClaimsOf(s, a) + {c}| <= s.maxPerAgent by {
        if c in ClaimsOf(s, a) {
          assert ClaimsOf(s, a) + {c} == ClaimsOf(s, a);
        }
      }
    }
  }

  lemma AuthenticatedInv(s: Connections, c: ConnectionId, a: AgentId)
    requires Inv(s) && (c in s.managed ==> BoundTo(s, c, a))
    ensures Inv(Authenticated(s, c, a))
  {
    if c in s.managed {
      var t := Authenticated(s, c, a);
      MapUpdateSize(s.managed, c, t.managed[c]);
      forall d, b ensures BoundTo(t, d, b) <==> InClaims(t, d, b) {
        assert BoundTo(s, d, b) <==> InClaims(s, d, b);
      }
    }
  }

  lemma ClaimOwner(s: Connections, c: ConnectionId, a: AgentId)
    requires Inv(s)
    ensures a in s.claims && c in s.claims[a] <==> c in s.managed && s.managed[c].agentId == Some(a)
  {
    assert BoundTo(s, c, a) <==> InClaims(s, c, a);
  }

  /** Closing a connection takes away that connection and its claim, and nothing else. */
  lemma ClosedReleases(s: Connections, c: ConnectionId, d: ConnectionId, a: AgentId)
    requires Inv(s)
    ensures InClaims(Closed(s, c), d, a) <==> InClaims(s, d, a) && d != c
    ensures d in Closed(s, c).managed <==> d in s.managed && d != c
    ensures d in Closed(s, c).managed ==> Closed(s, c).managed[d] == s.managed[d]
  {
    hide Inv, ClaimReleased;
    ClaimOwner(s, c, a);
    if c in s.managed {
      ReleasedOnly(s.claims, s.managed[c].agentId, c, d, a);
    }
  }

  lemma ReleasedOnly(claims: map<AgentId, set<ConnectionId>>, owner: Option<AgentId>, c: ConnectionId,
                     d: ConnectionId, a: AgentId)
    ensures var after := ClaimReleased(claims, owner, c);
            a in after && d in after[a] <==> a in claims && d in claims[a] && !(owner == Some(a) && d == c)
  {
    if owner == Some(a) && a in claims {
      var rest := claims[a] - {c};
      assert d in rest <==> d in claims[a] && d != c;
    }
  }

  lemma ClosedInv(s: Connections, c: ConnectionId)
    requires Inv(s)
    ensures Inv(Closed(s, c))
  {
    if c in s.managed {
      var t := Closed(s, c);
      MapRemoveSize(s.managed, c);
      forall d, b ensures BoundTo(t, d, b) <==> InClaims(t, d, b) {
        assert BoundTo(s, d, b) <==> InClaims(s, d, b);
        assert BoundTo(s, c, b) <==> InClaims(s, c, b);
      }
      forall b | b in t.claims ensures t.claims[b] != {} && |t.claims[b]| <= s.maxPerAgent {
        assert b in s.claims && t.claims[b] <= s.claims[b];
        SubsetSize(t.claims[b], s.claims[b]);
      }
    }
  }

  lemma {:induction false} SubsetSize<T>(x: set<T>, y: set<T>)
    requires x <= y
    ensures |x| <= |y|
  {
    if x != {} {
      var e :| e in x;
      SubsetSize(x - {e}, y - {e});
    }
  }

  // ---------------------------------------------------------------------------------------------
  // The global limit
  // ---------------------------------------------------------------------------------------------

  ghost function Load(s: Connections): nat { |s.managed| + |s.reserved| }

  /** A reservation is made only below the limit. */
  lemma UpgradedLoad(s: Connections, socket: SocketId)
    ensures Load(Upgraded(s, socket)) <= if Load(s) < s.maxConnections then s.maxConnections else Load(s)
  {
    if socket in s.reserved {
      assert s.reserved + {socket} == s.reserved;
    }
  }

  /** Turning a reservation into a connection never raises the load. An accept on a socket whose
      reservation is already gone may raise it by one. */
  lemma AcceptedLoad(s: Connections, socket: SocketId, c: ConnectionId)
    ensures Load(Accepted(s, socket, c)) <= Load(s) + if socket in s.reserved then 0 else 1
  {
    MapUpdateSize(s.managed, c, Managed(false, None));
    if socket in s.reserved {
      assert |s.reserved - {socket}| == |s.reserved| - 1;
    } else {
      assert s.reserved - {socket} == s.reserved;
    }
  }

  /** From a table within the limit, an accept stays within it exactly when its socket is still
      reserved, or there was room for one more, or the connection is turned away. */
  lemma AcceptStaysWithin(s: Connections, socket: SocketId, c: ConnectionId)
    requires Load(s) <= s.maxConnections && c !in s.managed
    ensures Load(Accepted(s, socket, c)) <= s.maxConnections
            <==> socket in s.reserved || Load(s) < s.maxConnections
                 || s.shuttingDown || |s.managed| >= s.maxConnections
  {
    MapUpdateSize(s.managed, c, Managed(false, None));
    if socket in s.reserved {
      assert |s.reserved - {socket}| == |s.reserved| - 1;
    } else {
      assert s.reserved - {socket} == s.reserved;
    }
  }

  lemma ClosedLoad(s: Connections, c: ConnectionId)
    ensures Load(Closed(s, c)) <= Load(s)
    ensures |Closed(s, c).managed| <= |s.managed|
  {
    MapRemoveSize(s.managed, c);
  }

  lemma ClaimedLoad(s: Connections, c: ConnectionId, a: AgentId)
    ensures Claimed(s, c, a).managed.Keys == s.managed.Keys
    ensures Load(Claimed(s, c, a)) == Load(s)
    ensures Claimed(s, c, a).maxConnections == s.maxConnections
    ensures Authenticated(s, c, a).managed.Keys == s.managed.Keys
    ensures Load(Authenticated(s, c, a)) == Load(s)
  {
    if c in s.managed {
      MapUpdateSize(s.managed, c, Managed(true, Some(a)));
      MapUpdateSize(s.managed, c, s.managed[c].(agentId := Some(a)));
      assert Claimed(s, c, a).managed.Keys == s.managed.Keys;
      assert Authenticated(s, c, a).managed.Keys == s.managed.Keys;
    }
  }

  // ---------------------------------------------------------------------------------------------
  // The class, updated in place
  // ---------------------------------------------------------------------------------------------

  class AgentConnectionLifecycle {
    var managedConnections: map<ConnectionId, Managed>
    var agentClaims: map<AgentId, set<ConnectionId>>
    var pendingUpgradeSockets: set<SocketId>
    var shuttingDown: bool
    const maxConnections: nat
    const maxConnectionsPerAgent: nat

    ghost function Value(): Connections
      reads this
    {
      Connections(managedConnections, agentClaims, pendingUpgradeSockets, shuttingDown,
                  maxConnections, maxConnectionsPerAgent)
    }

    constructor (maxConnections: nat, maxConnectionsPerAgent: nat)
      ensures Value() == Initial(maxConnections, maxConnectionsPerAgent)
      ensures Inv(Value())
    {
      this.maxConnections := maxConnections;
      this.maxConnectionsPerAgent := maxConnectionsPerAgent;
      managedConnections := map[];
      agentClaims := map[];
      pendingUpgradeSockets := {};
      shuttingDown := false;
    }

    method HandleUpgrade(socket: SocketId) returns (reserved: bool)
      requires Inv(Value())
      modifies this
      ensures Value() == Upgraded(old(Value()), socket) && Inv(Value())
      ensures reserved <==> !old(shuttingDown) && Load(old(Value())) < maxConnections
    {
      if shuttingDown || |managedConnections| + |pendingUpgradeSockets| >= maxConnections {
        return false;
      }
      pendingUpgradeSockets := pendingUpgradeSockets + {socket};
      assert forall c, a :: BoundTo(Value(), c, a) <==> old(BoundTo(Value(), c, a));
      assert forall c, a :: InClaims(Value(), c, a) <==> old(InClaims(Value(), c, a));
      return true;
    }

    /** The accepted callback receives a connection object created for it. */
    method Attach(c: ConnectionId) returns (attached: bool)
      requires Inv(Value()) && c !in managedConnections
      modifies this
      ensures Value() == Attached(old(Value()), c) && Inv(Value())
      ensures attached <==> c in managedConnections
    {
      AttachedInv(Value(), c);
      if shuttingDown || |managedConnections| >= maxConnections {
        return false;
      }
      managedConnections := managedConnections[c := Managed(false, None)];
      return true;
    }

    method Claim(c: ConnectionId, a: AgentId) returns (ok: bool)
      requires Inv(Value())
      modifies this
      ensures Value() == Claimed(old(Value()), c, a) && Inv(Value())
      ensures ok <==> MayClaim(old(Value()), c, a)
      ensures ok && c in managedConnections ==> BoundTo(Value(), c, a)
    {
      ClaimedInv(Value(), c, a);
      if c !in managedConnections {
        return true;
      }
      var managed := managedConnections[c];
      if managed.agentId.Some? && managed.agentId.value != a {
        return false;
      }
      var claims := if a in agentClaims then agentClaims[a] else {};
      if c !in claims && |claims| >= maxConnectionsPerAgent {
        return false;
      }
      agentClaims := agentClaims[a := claims + {c}];
      managedConnections := managedConnections[c := managed.(agentId := Some(a))];
      return true;
    }

    /** Called right after a successful claim for the same agent. */
    method MarkAuthenticated(c: ConnectionId, a: AgentId)
      requires Inv(Value()) && (c in managedConnections ==> BoundTo(Value(), c, a))
      modifies this
      ensures Value() == Authenticated(old(Value()), c, a) && Inv(Value())
    {
      AuthenticatedInv(Value(), c, a);
      if c in managedConnections {
        managedConnections := managedConnections[c := Managed(true, Some(a))];
      }
    }

    method ReleaseAgentClaim(owner: Option<AgentId>, c: ConnectionId)
      modifies this`agentClaims
      ensures agentClaims == ClaimReleased(old(agentClaims), owner, c)
    {
      if owner.None? || owner.value !in agentClaims {
        return;
      }
      var claims := agentClaims[owner.value] - {c};
      if claims == {} {
        agentClaims := agentClaims - {owner.value};
      } else {
        agentClaims := agentClaims[owner.value := claims];
      }
    }

    /** Returns the agent whose authenticated connection went away, if any. */
    method HandleClose(c: ConnectionId) returns (authenticatedAs: Option<AgentId>)
      requires Inv(Value())
      modifies this
      ensures Value() == Closed(old(Value()), c) && Inv(Value())
      ensures authenticatedAs.Some? <==>
              !shuttingDown && c in old(managedConnections) && old(managedConnections)[c].authenticated
      ensures authenticatedAs.Some? ==> old(BoundTo(Value(), c, authenticatedAs.value))
    {
      ClosedInv(Value(), c);
      if c !in managedConnections {
        return None;
      }
      var managed := managedConnections[c];
      managedConnections := managedConnections - {c};
      ReleaseAgentClaim(managed.agentId, c);
      if !shuttingDown && managed.authenticated {
        return managed.agentId;
      }
      return None;
    }

    method Close()
      requires Inv(Value())
      modifies this
      ensures Value() == ShutDown(old(Value()))
      ensures shuttingDown && (!old(shuttingDown) ==> Load(Value()) == 0)
    {
      if shuttingDown {
        return;
      }
      shuttingDown := true;
      pendingUpgradeSockets := {};
      managedConnections := map[];
      agentClaims := map[];
    }
  }
}
