/** How often the same signed hello can bring an agent online. */
module RemoteHellos {
  import opened Options
  import opened RemoteTypes
  import opened ConnectionLifecycle
  import opened ExpiringLog
  import opened NonceWindows
  import opened ControlPlane
  import opened AgentRunner
  import opened RemoteSystem
  import opened RemotePresence

  // ---------------------------------------------------------------------------------------------
  // The exact condition for one hello
  // ---------------------------------------------------------------------------------------------

  lemma CleanedUpWindow(s: State, now: int, a: AgentId)
    ensures HelloWindow(CleanedUp(s, now), a) == Unexpired(HelloWindow(s, a), now)
  {
  }

  /** A hello brings its agent online exactly when the agent is enrolled, the connection may speak for
      it, the signature and the clock are good, it is not already live on this connection, and no
      unexpired record of its nonce is left. */
  lemma HelloAcceptedExactly(s: State, c: ConnectionId, h: Envelope, signed: set<Signed>, now: int)
    requires h.Hello?
    ensures HelloHandled(s, c, h, signed, now).1 <==>
              && Enrolled(s, h.agentId)
              && MayClaim(s.connections, c, h.agentId)
              && Verifies(signed, s.agents[h.agentId].publicKey.value, h)
              && FreshTimestamp(h.timestamp, now)
              && !OnLiveConnection(s, c, h.agentId)
              && !exists e :: e in HelloWindow(s, h.agentId) && e.key == h.nonce && e.expiresAt > now
  {
    hide MayClaim, Claimed, WentOnline;
    var t := s.(connections := Claimed(s.connections, c, h.agentId));
    CleanedUpWindow(t, now, h.agentId);
    UnexpiredMembers(HelloWindow(s, h.agentId), now);
    HasIff(Unexpired(HelloWindow(s, h.agentId), now), h.nonce);
    CleanedUpSame(t, now);
  }

  // ---------------------------------------------------------------------------------------------
  // The invariant
  // ---------------------------------------------------------------------------------------------

  /** The times at which one hello was accepted. */
  ghost predicate HelloTimesSound(times: seq<int>, timestamp: int, clock: int) {
    && times != []
    && (forall i :: 0 <= i < |times| ==> FreshTimestamp(timestamp, times[i]) && times[i] <= clock)
    && (forall i, j :: 0 <= i < j < |times| ==> times[i] + NONCE_TTL_MS <= times[j])
  }

  ghost predicate Holds(cp: State, a: AgentId, e: Entry) {
    e in HelloWindow(cp, a)
  }

  ghost predicate HelloSound(s: System, e: Envelope)
    requires e in s.h.hellos
  {
    && e.Hello?
    && HelloTimesSound(s.h.hellos[e], e.timestamp, s.clock)
    && var last := s.h.hellos[e][|s.h.hellos[e]| - 1];
       !s.cp.connections.shuttingDown && s.clock < last + NONCE_TTL_MS ==>
         Holds(s.cp, e.agentId, Entry(e.nonce, last + NONCE_TTL_MS))
  }

  ghost predicate HelloInv(s: System) {
    forall e :: e in s.h.hellos ==> HelloSound(s, e)
  }

  // ---------------------------------------------------------------------------------------------
  // Steps
  // ---------------------------------------------------------------------------------------------

  /** No unexpired entry is lost. */
  ghost predicate WindowsKept(x: State, y: State, now: int) {
    forall a, e :: Holds(x, a, e) && e.expiresAt > now ==> Holds(y, a, e)
  }

  lemma CleanedUpKeepsWindows(s: State, now: int)
    ensures WindowsKept(s, CleanedUp(s, now), now)
  {
    forall a, e | Holds(s, a, e) && e.expiresAt > now ensures Holds(CleanedUp(s, now), a, e) {
      CleanedUpWindow(s, now, a);
      UnexpiredMembers(HelloWindow(s, a), now);
    }
  }

  lemma WindowsKeptKeeps(s: System, t: System)
    requires HelloInv(s) && t.h.hellos == s.h.hellos && s.clock <= t.clock
    requires WindowsKept(s.cp, t.cp, t.clock)
    requires s.cp.connections.shuttingDown ==> t.cp.connections.shuttingDown
    ensures HelloInv(t)
  {
    hide Holds;
    forall e | e in t.h.hellos ensures HelloSound(t, e) {
      assert HelloSound(s, e);
    }
  }

  lemma SameWindowsKept(x: State, y: State, now: int)
    requires x.helloNonces == y.helloNonces
    ensures WindowsKept(x, y, now)
  {
  }

  lemma WentOnlineKeepsWindows(s: State, c: ConnectionId, h: Envelope, now: int)
    requires h.Hello? && h.agentId in s.agents
    ensures WindowsKept(s, WentOnline(s, c, h, now), now)
    ensures Holds(WentOnline(s, c, h, now), h.agentId, Entry(h.nonce, now + NONCE_TTL_MS))
  {
  }

  lemma HelloKeepsWindows(s: State, c: ConnectionId, h: Envelope, signed: set<Signed>, now: int)
    requires h.Hello?
    ensures var (t, ok) := HelloHandled(s, c, h, signed, now);
            && WindowsKept(s, t, now)
            && (ok ==> Holds(t, h.agentId, Entry(h.nonce, now + NONCE_TTL_MS)))
            && t.connections.shuttingDown == s.connections.shuttingDown
  {
    var t := s.(connections := Claimed(s.connections, c, h.agentId));
    ClaimedSame(s.connections, c, h.agentId);
    HelloEnds(s, c, h, signed, now);
    hide HelloHandled, Claimed, MayClaim, Holds, WentOnline, CleanedUp, WindowsKept, Enrolled;
    SameWindowsKept(s, s, now);
    SameWindowsKept(s, t, now);
    CleanedUpKeepsWindows(t, now);
    CleanedUpSame(t, now);
    KeptTwice(s, t, CleanedUp(t, now), now);
    if h.agentId in s.agents {
      WentOnlineKeepsWindows(CleanedUp(t, now), c, h, now);
      WentOnlineSame(CleanedUp(t, now), c, h, now);
      KeptTwice(s, CleanedUp(t, now), WentOnline(CleanedUp(t, now), c, h, now), now);
    }
  }

  lemma ClaimedSame(k: Connections, c: ConnectionId, a: AgentId)
    ensures Claimed(k, c, a).shuttingDown == k.shuttingDown
  {
    hide MayClaim;
  }

  lemma KeptTwice(x: State, y: State, z: State, now: int)
    requires WindowsKept(x, y, now) && WindowsKept(y, z, now)
    ensures WindowsKept(x, z, now)
  {
    hide Holds;
  }

  /** How a hello ends: unheard, claimed, cleaned up, or accepted. */
  lemma HelloEnds(s: State, c: ConnectionId, h: Envelope, signed: set<Signed>, now: int)
    requires h.Hello?
    ensures var (r, ok) := HelloHandled(s, c, h, signed, now);
            var t := s.(connections := Claimed(s.connections, c, h.agentId));
            if ok then h.agentId in s.agents && CleanedUp(t, now).agents == s.agents && r == WentOnline(CleanedUp(t, now), c, h, now)
            else r == s || r == t || r == CleanedUp(t, now)
  {
    CleanedUpSame(s.(connections := Claimed(s.connections, c, h.agentId)), now);
    hide Claimed, CleanedUp, WentOnline, MayClaim, Verifies, FreshTimestamp, HelloWindow;
  }

  lemma WentOnlineSame(s: State, c: ConnectionId, h: Envelope, now: int)
    requires h.Hello?
    ensures h.agentId in s.agents ==>
              WentOnline(s, c, h, now).connections.shuttingDown == s.connections.shuttingDown
  {
  }

  /** An accepted hello had no unexpired record left, so its last acceptance is a lifetime away. */
  lemma AcceptedIsSpaced(s: System, c: ConnectionId, e: Envelope)
    requires HelloInv(s) && !s.cp.connections.shuttingDown && e.Hello?
    requires HelloHandled(s.cp, c, e, s.signed, s.clock).1
    ensures HelloTimesSound(HelloTimes(s, e) + [s.clock], e.timestamp, s.clock)
  {
    assert e in s.h.hellos ==> HelloSound(s, e) && s.h.hellos[e] != [];
    hide HelloHandled, MayClaim, HelloTimesSound;
    HelloAcceptedExactly(s.cp, c, e, s.signed, s.clock);
    var times := HelloTimes(s, e);
    if e in s.h.hellos {
      assert times[|times| - 1] + NONCE_TTL_MS <= s.clock;
    }
    hide HelloInv, HelloWindow;
    OneMoreTime(times, e.timestamp, s.clock);
  }

  lemma OneMoreTime(times: seq<int>, timestamp: int, clock: int)
    requires times == [] || (HelloTimesSound(times, timestamp, clock) && times[|times| - 1] + NONCE_TTL_MS <= clock)
    requires FreshTimestamp(timestamp, clock)
    ensures HelloTimesSound(times + [clock], timestamp, clock)
  {
    hide FreshTimestamp;
  }

  lemma AcceptedHelloSound(s: System, t: System, e: Envelope)
    requires HelloInv(s) && e.Hello? && t.clock == s.clock
    requires t.h.hellos == s.h.hellos[e := HelloTimes(s, e) + [s.clock]]
    requires t.cp.connections.shuttingDown == s.cp.connections.shuttingDown
    requires HelloTimesSound(HelloTimes(s, e) + [s.clock], e.timestamp, s.clock)
    requires WindowsKept(s.cp, t.cp, s.clock) && Holds(t.cp, e.agentId, Entry(e.nonce, s.clock + NONCE_TTL_MS))
    ensures HelloInv(t)
  {
    hide Holds, HelloTimesSound;
    forall d | d in t.h.hellos ensures HelloSound(t, d) {
      assert d != e ==> HelloSound(s, d);
    }
  }

  lemma HelloStepSound(s: System, c: ConnectionId, e: Envelope)
    requires HelloInv(s) && !s.cp.connections.shuttingDown && e.Hello?
    ensures HelloInv(HelloStep(s, c, e))
  {
    HelloKeepsWindows(s.cp, c, e, s.signed, s.clock);
    var t := HelloStep(s, c, e);
    if HelloHandled(s.cp, c, e, s.signed, s.clock).1 {
      AcceptedIsSpaced(s, c, e);
      hide HelloHandled, Holds, HelloTimesSound, WindowsKept, HelloInv, HelloSound;
      AcceptedHelloSound(s, t, e);
    } else {
      hide HelloHandled, Holds, HelloInv;
      WindowsKeptKeeps(s, t);
    }
  }

  lemma ReceiveSound(s: System, c: ConnectionId, m: Option<Envelope>)
    requires HelloInv(s) && !s.cp.connections.shuttingDown
    ensures HelloInv(ReceiveStep(s, c, m))
  {
    hide HelloInv, HelloStep, ResultHandled;
    if m.Some? && m.value.Hello? {
      HelloStepSound(s, c, m.value);
    } else if m.Some? && m.value.ActionResult? {
      ResultWindows(s.cp, c, m.value, s.signed, s.clock);
      SameWindowsKept(s.cp, ResultStep(s, c, m.value).cp, s.clock);
      WindowsKeptKeeps(s, ResultStep(s, c, m.value));
    }
  }

  lemma ResultWindows(s: State, c: ConnectionId, r: Envelope, signed: set<Signed>, now: int)
    requires r.ActionResult?
    ensures ResultHandled(s, c, r, signed, now).0.helloNonces == s.helloNonces
    ensures ResultHandled(s, c, r, signed, now).0.connections == s.connections
  {
  }

  lemma QuietSound(s: System, t: System)
    requires HelloInv(s) && t.h.hellos == s.h.hellos && t.clock == s.clock
    requires t.cp.helloNonces == s.cp.helloNonces && t.cp.connections.shuttingDown == s.cp.connections.shuttingDown
    ensures HelloInv(t)
  {
    hide HelloInv;
    SameWindowsKept(s.cp, t.cp, t.clock);
    WindowsKeptKeeps(s, t);
  }

  lemma MaintenanceSound(s: System)
    requires HelloInv(s)
    ensures HelloInv(MaintenanceStep(s))
  {
    hide HelloInv, CleanedUp;
    CleanedUpKeepsWindows(s.cp, s.clock);
    CleanedUpSame(s.cp, s.clock);
    var t := MaintenanceStep(s);
    SameWindowsKept(CleanedUp(s.cp, s.clock), t.cp, s.clock);
    hide Holds;
    assert WindowsKept(s.cp, t.cp, s.clock);
    WindowsKeptKeeps(s, t);
  }

  lemma ShutdownSound(s: System)
    requires HelloInv(s)
    ensures HelloInv(ShutdownStep(s))
  {
    var t := ShutdownStep(s);
    forall e | e in t.h.hellos ensures HelloSound(t, e) {
      assert HelloSound(s, e);
    }
  }

  /** Nothing about hellos and their windows changed. */
  ghost predicate Quiet(s: System, t: System) {
    && t.h.hellos == s.h.hellos && t.clock == s.clock
    && t.cp.helloNonces == s.cp.helloNonces && t.cp.connections.shuttingDown == s.cp.connections.shuttingDown
  }

  ghost predicate OnSockets(step: Step) {
    step.Upgrade? || step.SocketGone? || step.Accept? || step.CloseEvent?
  }

  lemma SocketStepQuiet(s: System, step: Step)
    requires OnSockets(step)
    ensures Quiet(s, ControlPlaneStep(s, step))
  {
    hide ReceiveStep, CallToolStep, CreateTokenStep, EnrollStep, UpdatePolicyStep, RevokeStep, RemoveStep,
         ActionTimerStep, ResumeStep, MaintenanceStep, ShutdownStep, ClaimReleased;
  }

  lemma TableStepQuiet(s: System, step: Step)
    requires !OnSockets(step) && !step.Receive? && !step.Maintenance? && !step.Shutdown?
    ensures Quiet(s, ControlPlaneStep(s, step))
  {
    hide UpgradeStep, SocketGoneStep, AcceptStep, CloseEventStep, ReceiveStep, MaintenanceStep, ShutdownStep,
         MayDispatch, MayCreateToken, MayEnroll, TerminalStatus, ClaimReleased;
  }

  lemma OtherSound(s: System, step: Step)
    requires HelloInv(s) && !step.Receive? && !step.Maintenance? && !step.Shutdown?
    ensures HelloInv(ControlPlaneStep(s, step))
  {
    hide HelloInv;
    if OnSockets(step) {
      SocketStepQuiet(s, step);
    } else {
      TableStepQuiet(s, step);
    }
    hide ControlPlaneStep;
    QuietSound(s, ControlPlaneStep(s, step));
  }

  lemma OutsideSound(s: System, step: Step)
    requires HelloInv(s)
    ensures HelloInv(OutsideStep(s, step))
  {
    hide HelloInv;
    OutsideLeavesControlPlane(s, step);
    hide OutsideStep;
    QuietSound(s, OutsideStep(s, step));
  }

  lemma OutsideLeavesControlPlane(s: System, step: Step)
    ensures var t := OutsideStep(s, step); t.cp == s.cp && t.clock == s.clock && t.h.hellos == s.h.hellos
  {
    hide MessageHandled, MessageAccepted, Runs;
  }

  lemma ControlPlaneSound(s: System, step: Step)
    requires HelloInv(s) && !s.cp.connections.shuttingDown
    ensures HelloInv(ControlPlaneStep(s, step))
  {
    hide HelloInv;
    if step.Receive? {
      ReceiveSound(s, step.connection, step.message);
      hide ReceiveStep;
    } else if step.Maintenance? {
      MaintenanceSound(s);
      hide MaintenanceStep;
    } else if step.Shutdown? {
      ShutdownSound(s);
      hide ShutdownStep;
    } else {
      OtherSound(s, step);
      hide ControlPlaneStep;
    }
  }

  lemma ApplySound(s: System, e: Event)
    requires HelloInv(s)
    ensures HelloInv(Apply(s, e))
  {
    hide HelloInv, ControlPlaneStep, OutsideStep, AtControlPlane;
    if e.now >= s.clock {
      var t := s.(clock := e.now);
      SameWindowsKept(s.cp, t.cp, t.clock);
      WindowsKeptKeeps(s, t);
      if !AtControlPlane(e.step) {
        OutsideSound(t, e.step);
      } else if !t.cp.connections.shuttingDown {
        ControlPlaneSound(t, e.step);
      }
    }
  }

  lemma {:induction false} RunSound(s: System, es: seq<Event>)
    requires HelloInv(s)
    ensures HelloInv(Run(s, es))
  {
    hide HelloInv, Apply;
    if es != [] {
      RunSound(s, es[..|es| - 1]);
      ApplySound(Run(s, es[..|es| - 1]), es[|es| - 1]);
    }
  }

  // ---------------------------------------------------------------------------------------------
  // The bound, and that it is tight
  // ---------------------------------------------------------------------------------------------

  /** In every run a hello accepted at t is accepted again only at a time in
      [t + 300000, timestamp + 300000]: never twice when its timestamp was strictly in the past at the
      first acceptance, and never more than three times. */
  lemma HelloReplayBound(maxConnections: nat, maxPerAgent: nat, clock: int, key: Key, es: seq<Event>, e: Envelope)
    requires e.Hello?
    ensures var s := Run(Init(maxConnections, maxPerAgent, clock, key), es);
            var times := HelloTimes(s, e);
            && (forall i, j :: 0 <= i < j < |times| ==>
                  times[i] + 300_000 <= times[j] <= e.timestamp + 300_000)
            && (times != [] && e.timestamp < times[0] ==> |times| == 1)
            && |times| <= 3
  {
    var i := Init(maxConnections, maxPerAgent, clock, key);
    RunSound(i, es);
    var s := Run(i, es);
    hide Run;
    if e in s.h.hellos {
      assert HelloSound(s, e);
      var times := s.h.hellos[e];
      if |times| >= 2 {
        assert times[0] + NONCE_TTL_MS <= times[1];
      }
      Spread(times, e.timestamp, s.clock, |times| - 1);
    }
  }

  lemma {:induction false} Spread(times: seq<int>, timestamp: int, clock: int, k: nat)
    requires HelloTimesSound(times, timestamp, clock) && k < |times|
    ensures times[0] + k * NONCE_TTL_MS <= times[k]
  {
    if k > 0 {
      Spread(times, timestamp, clock, k - 1);
    }
  }

  /** The bound is reached: a hello whose timestamp is not in the past when it is accepted is accepted
      again one lifetime later, on any other connection that may still speak for the agent. */
  lemma ReplayAtTheBoundary(s: State, c: ConnectionId, d: ConnectionId, h: Envelope, signed: set<Signed>, now: int)
    requires h.Hello? && HelloHandled(s, c, h, signed, now).1 && h.timestamp >= now
    requires var t := HelloHandled(s, c, h, signed, now).0;
             d != c && MayClaim(t.connections, d, h.agentId)
    ensures var t := HelloHandled(s, c, h, signed, now).0;
            HelloHandled(t, d, h, signed, now + 300_000).1
  {
    HelloAcceptedExactly(s, c, h, signed, now);
    var t := HelloHandled(s, c, h, signed, now).0;
    AcceptedState(s, c, h, signed, now);
    hide HelloHandled, MayClaim;
    HelloAcceptedExactly(t, d, h, signed, now + 300_000);
  }

  /** What acceptance leaves behind: the agent online on `c` with the same key, and one record of the
      nonce, expiring a lifetime later. */
  lemma AcceptedState(s: State, c: ConnectionId, h: Envelope, signed: set<Signed>, now: int)
    requires h.Hello? && HelloHandled(s, c, h, signed, now).1
    ensures var t := HelloHandled(s, c, h, signed, now).0;
            && Enrolled(t, h.agentId)
            && t.agents[h.agentId].publicKey == s.agents[h.agentId].publicKey
            && OnLiveConnection(t, c, h.agentId)
            && (forall e :: e in HelloWindow(t, h.agentId) && e.key == h.nonce ==> e.expiresAt == now + NONCE_TTL_MS)
  {
    var u := s.(connections := Claimed(s.connections, c, h.agentId));
    var w := HelloWindow(CleanedUp(u, now), h.agentId);
    HelloEnds(s, c, h, signed, now);
    AcceptedWasNew(s, c, h, signed, now);
    HasIff(w, h.nonce);
    hide HelloHandled, MayClaim, Claimed, CleanedUp, Has;
    CleanedUpSame(u, now);
    assert HelloWindow(WentOnline(CleanedUp(u, now), c, h, now), h.agentId) == w + [Entry(h.nonce, now + NONCE_TTL_MS)];
  }

  lemma AcceptedWasNew(s: State, c: ConnectionId, h: Envelope, signed: set<Signed>, now: int)
    requires h.Hello? && HelloHandled(s, c, h, signed, now).1
    ensures Enrolled(s, h.agentId)
    ensures !Has(HelloWindow(CleanedUp(s.(connections := Claimed(s.connections, c, h.agentId)), now), h.agentId), h.nonce)
  {
    hide MayClaim, Claimed, CleanedUp, Has, HelloWindow, WentOnline;
  }
}
