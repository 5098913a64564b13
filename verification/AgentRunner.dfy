/** The agent process: applying signed policy updates and accepting signed actions
    (src/remote/agent-cli.ts, src/remote/policy-update-guard.ts, the checks at the head of
    executeAllowed in src/remote/agent-executor.ts). */
module AgentRunner {
  import opened RemoteTypes
  import opened ExpiringLog
  import opened NonceWindows

  const POLICY_UPDATE_MAX_AGE_MS := 300_000
  const POLICY_UPDATE_MAX_FUTURE_SKEW_MS := 30_000
  const MAX_SEEN_ACTIONS: nat := 10_000

  /** `policy` also lives in the configuration file and survives a restart; the maps do not. */
  datatype Proc = Proc(policy: Policy, policyNonces: seq<Entry>, seenActions: seq<Entry>)

  function Started(policy: Policy): Proc { Proc(policy, [], []) }

  datatype Rejection = Replay | Stale | Future | VersionMismatch | NotNewer

  datatype Validation = Admitted | Refused(reason: Rejection)

  /** `validatePolicyUpdate` on a window that was just pruned. */
  function Validate(u: Envelope, currentVersion: int, window: seq<Entry>, now: int): Validation
    requires u.PolicyUpdate?
  {
    if Has(window, u.nonce) then Refused(Replay)
    else if now - u.issuedAt > POLICY_UPDATE_MAX_AGE_MS then Refused(Stale)
    else if u.issuedAt - now > POLICY_UPDATE_MAX_FUTURE_SKEW_MS then Refused(Future)
    else if u.policyVersion != u.policy.version then Refused(VersionMismatch)
    else if u.policyVersion <= currentVersion then Refused(NotNewer)
    else Admitted
  }

  function UpdateHandled(p: Proc, u: Envelope, now: int): (Proc, Validation)
    requires u.PolicyUpdate?
  {
    var window := Unexpired(p.policyNonces, now);
    var v := Validate(u, p.policy.version, window, now);
    if v.Refused? then (p.(policyNonces := window), v)
    else (p.(policyNonces := Remembered(window, u.nonce, now), policy := u.policy), v)
  }

  /** `acceptAgentAction`. */
  predicate AcceptsAction(p: Proc, r: Envelope, now: int) {
    && r.ActionRequest?
    && !Has(p.seenActions, r.actionId)
    && r.deadline >= now
    && (r.policyVersion == p.policy.version || r.policyVersion == p.policy.version + 1)
  }

  /** `acceptAgentAction` followed by `rememberAction`. */
  function ActionHandled(p: Proc, r: Envelope, now: int): Proc
    requires r.ActionRequest?
  {
    if AcceptsAction(p, r, now)
    then p.(seenActions := Insert(p.seenActions, r.actionId, r.deadline, now, MAX_SEEN_ACTIONS))
    else p
  }

  /** The checks at the head of `executeAllowed`; the tool runs exactly when they pass. */
  predicate Runs(policy: Policy, r: Envelope) {
    && r.ActionRequest?
    && r.capability == ToolCapability(r.tool)
    && r.capability in policy.capabilities
  }

  /** The message handler of `runAgent` for an agent `self` that trusts `controlKey`. */
  function MessageHandled(p: Proc, self: AgentId, controlKey: Key, e: Envelope, signed: set<Signed>, now: int): Proc
  {
    if e.agentId != self || !Verifies(signed, controlKey, e) then p
    else if e.PolicyUpdate? then UpdateHandled(p, e, now).0
    else if e.ActionRequest? then ActionHandled(p, e, now)
    else p
  }

  /** Whether that message makes the agent accept an action. */
  predicate MessageAccepted(p: Proc, self: AgentId, controlKey: Key, e: Envelope, signed: set<Signed>, now: int) {
    e.agentId == self && Verifies(signed, controlKey, e) && AcceptsAction(p, e, now)
  }

  /** An accepted update always raises the version, so none is ever applied twice, whatever the
      nonce window has forgotten. */
  lemma AcceptedRaisesVersion(p: Proc, u: Envelope, now: int)
    requires u.PolicyUpdate?
    ensures var (q, v) := UpdateHandled(p, u, now);
            && (v.Admitted? ==> q.policy == u.policy && q.policy.version > p.policy.version)
            && (v.Refused? ==> q.policy == p.policy)
  {
  }

  /** An update is accepted exactly when no unexpired record bears its nonce, it was issued at most five
      minutes ago and at most thirty seconds ahead, it carries its policy's version, and that is newer.
      Then its policy is in force and its nonce recorded; otherwise the policy stays. */
  lemma UpdateAcceptedExactly(p: Proc, u: Envelope, now: int)
    requires u.PolicyUpdate?
    ensures var (q, v) := UpdateHandled(p, u, now);
            if (forall x :: x in p.policyNonces && x.key == u.nonce ==> x.expiresAt <= now)
               && u.issuedAt >= now - 300_000 && u.issuedAt <= now + 30_000
               && u.policyVersion == u.policy.version > p.policy.version
            then
              v == Admitted && q.policy == u.policy && q.seenActions == p.seenActions
              && Entry(u.nonce, now + 300_000) in q.policyNonces
            else v.Refused? && q.policy == p.policy && q.seenActions == p.seenActions
  {
    var w := Unexpired(p.policyNonces, now);
    UnexpiredMembers(p.policyNonces, now);
    HasIff(w, u.nonce);
    UnexpiredTwice(p.policyNonces, now);
    hide Unexpired, Has;
    var kept := w + [Entry(u.nonce, now + 300_000)];
    assert kept[|kept| - 1] == Entry(u.nonce, now + 300_000);
  }

  // ---------------------------------------------------------------------------------------------
  // At most once, over a whole run of one process
  // ---------------------------------------------------------------------------------------------

  /** One message reaching the process. Any message may reach it any number of times. */
  datatype Delivery = Delivery(now: int, envelope: Envelope)

  /** The process, the history of the actions it accepted, and the last clock reading. */
  datatype Trace = Trace(proc: Proc, accepted: seq<Entry>, clock: int)

  ghost predicate Chronological(ds: seq<Delivery>, start: int) {
    && (forall i :: 0 <= i < |ds| ==> start <= ds[i].now)
    && (forall i, j :: 0 <= i < j < |ds| ==> ds[i].now <= ds[j].now)
  }

  ghost function Delivered(t: Trace, d: Delivery): Trace {
    var e := d.envelope;
    if e.PolicyUpdate? then Trace(UpdateHandled(t.proc, e, d.now).0, t.accepted, d.now)
    else if AcceptsAction(t.proc, e, d.now) then
      Trace(ActionHandled(t.proc, e, d.now), t.accepted + [Entry(e.actionId, e.deadline)], d.now)
    else Trace(t.proc, t.accepted, d.now)
  }

  ghost function After(t: Trace, ds: seq<Delivery>): Trace {
    if ds == [] then t else Delivered(After(t, ds[..|ds| - 1]), ds[|ds| - 1])
  }

  ghost predicate Faithful(t: Trace) {
    Remembers(t.proc.seenActions, t.accepted, t.clock, MAX_SEEN_ACTIONS)
  }

  lemma DeliveredFaithful(t: Trace, d: Delivery)
    requires Faithful(t) && t.clock <= d.now
    ensures Faithful(Delivered(t, d))
  {
    var e := d.envelope;
    if AcceptsAction(t.proc, e, d.now) {
      InsertRemembers(t.proc.seenActions, t.accepted, e.actionId, e.deadline, t.clock, d.now, MAX_SEEN_ACTIONS);
    } else {
      LaterRemembers(t.proc.seenActions, t.accepted, t.clock, d.now, MAX_SEEN_ACTIONS);
    }
  }

  lemma LaterRemembers(w: seq<Entry>, log: seq<Entry>, before: int, now: int, cap: nat)
    requires Remembers(w, log, before, cap) && before <= now
    ensures Remembers(w, log, now, cap)
  {
    var pos :| Tracks(w, pos, log, before, cap);
    forall k | Recent(k, log, now, cap) ensures k in pos {
      assert Recent(k, log, before, cap);
    }
    assert Tracks(w, pos, log, now, cap);
  }

  lemma {:induction false} AfterFaithful(t: Trace, ds: seq<Delivery>)
    requires Faithful(t) && Chronological(ds, t.clock)
    ensures Faithful(After(t, ds))
    ensures After(t, ds).clock == if ds == [] then t.clock else ds[|ds| - 1].now
  {
    if ds != [] {
      AfterFaithful(t, ds[..|ds| - 1]);
      DeliveredFaithful(After(t, ds[..|ds| - 1]), ds[|ds| - 1]);
    }
  }

  lemma {:induction false} HistoryGrows(t: Trace, ds: seq<Delivery>, i: nat)
    requires i <= |ds|
    ensures After(t, ds[..i]).accepted <= After(t, ds).accepted
    decreases |ds|
  {
    if i < |ds| {
      HistoryGrows(t, ds[..|ds| - 1], i);
      assert ds[..|ds| - 1][..i] == ds[..i];
    } else {
      assert ds[..i] == ds;
    }
  }

  /** An acceptance is in the history from then on, at the place it got. */
  lemma AcceptedAt(start: Trace, ds: seq<Delivery>, i: nat)
    requires i < |ds| && AcceptsAction(After(start, ds[..i]).proc, ds[i].envelope, ds[i].now)
    ensures var k := |After(start, ds[..i]).accepted|;
            && k + 1 == |After(start, ds[..i + 1]).accepted| <= |After(start, ds).accepted|
            && After(start, ds).accepted[k] == Entry(ds[i].envelope.actionId, ds[i].envelope.deadline)
  {
    assert ds[..i + 1] == ds[..i] + [ds[i]];
    AfterOneMore(start, ds[..i], ds[i]);
    hide After;
    HistoryGrows(start, ds, i + 1);
    assert After(start, ds[..i + 1]).accepted[|After(start, ds[..i]).accepted|]
        == After(start, ds).accepted[|After(start, ds[..i]).accepted|];
  }

  lemma FaithfulRemembers(t: Trace)
    requires Faithful(t)
    ensures Remembers(t.proc.seenActions, t.accepted, t.clock, MAX_SEEN_ACTIONS)
  {
  }

  /** An accepted action stays in the table until its deadline, unless 10,000 others followed it. */
  lemma AcceptedIsHeld(start: Trace, ds: seq<Delivery>, i: nat, j: nat)
    requires Faithful(start) && Chronological(ds, start.clock) && i < j < |ds|
    requires AcceptsAction(After(start, ds[..i]).proc, ds[i].envelope, ds[i].now)
    requires ds[j].now < ds[i].envelope.deadline
    requires |After(start, ds[..j]).accepted| - |After(start, ds[..i + 1]).accepted| < MAX_SEEN_ACTIONS
    ensures Has(After(start, ds[..j]).proc.seenActions, ds[i].envelope.actionId)
  {
    var last := After(start, ds[..j]);
    var k := |After(start, ds[..i]).accepted|;
    assert ds[..j][..i] == ds[..i] && ds[..j][..i + 1] == ds[..i + 1] && ds[..j][i] == ds[i];
    hide After, Faithful, Delivered;
    AcceptedAt(start, ds[..j], i);
    AfterFaithful(start, ds[..j]);
    FaithfulRemembers(last);
    RememberedIsHeld(last.proc.seenActions, last.accepted, k, last.clock, MAX_SEEN_ACTIONS);
  }

  /** An action accepted by delivery `i` is accepted again by a later delivery `j` only once its
      deadline has been reached or at least 10,000 actions were accepted in between. */
  lemma ActionAcceptedAtMostOnce(start: Trace, ds: seq<Delivery>, i: nat, j: nat)
    requires Faithful(start) && Chronological(ds, start.clock) && i < j < |ds|
    requires AcceptsAction(After(start, ds[..i]).proc, ds[i].envelope, ds[i].now)
    requires AcceptsAction(After(start, ds[..j]).proc, ds[j].envelope, ds[j].now)
    requires ds[i].envelope.actionId == ds[j].envelope.actionId
    ensures ds[j].now >= ds[i].envelope.deadline
         || |After(start, ds[..j]).accepted| - |After(start, ds[..i + 1]).accepted| >= 10_000
  {
    if ds[j].now < ds[i].envelope.deadline
       && |After(start, ds[..j]).accepted| - |After(start, ds[..i + 1]).accepted| < MAX_SEEN_ACTIONS {
      AcceptedIsHeld(start, ds, i, j);
    }
  }

  /** That second case happens: once 10,000 later acceptances, none of them of this action, are all
      before their deadlines, the action is accepted again before its own. */
  lemma AcceptedAgainAfterTenThousand(start: Trace, ds: seq<Delivery>, i: nat, again: Envelope, now: int)
    requires Faithful(start) && Chronological(ds, start.clock) && i < |ds|
    requires AcceptsAction(After(start, ds[..i]).proc, ds[i].envelope, ds[i].now)
    requires |After(start, ds).proc.seenActions| <= 10_000
    requires var t := After(start, ds);
             && |t.accepted| - |After(start, ds[..i + 1]).accepted| >= 10_000
             && (forall k :: |t.accepted| - 10_000 <= k < |t.accepted| ==>
                   t.accepted[k].expiresAt > t.clock && t.accepted[k].key != ds[i].envelope.actionId)
    requires again.ActionRequest? && again.actionId == ds[i].envelope.actionId && now <= again.deadline
    requires var v := After(start, ds).proc.policy.version; again.policyVersion == v || again.policyVersion == v + 1
    ensures AcceptsAction(After(start, ds).proc, again, now)
  {
    var last := After(start, ds);
    var k := |After(start, ds[..i]).accepted|;
    hide After, Faithful, Delivered;
    AcceptedAt(start, ds, i);
    AfterFaithful(start, ds);
    FaithfulRemembers(last);
    CapForgets(last.proc.seenActions, last.accepted, k, last.clock, MAX_SEEN_ACTIONS);
  }

  function Numbered(id: ActionId, p: Policy, a: AgentId, u: UserId, tool: Tool, deadline: int): Envelope {
    ActionRequest(id, a, u, tool, ToolCapability(tool), p.version, deadline, 0)
  }

  /** `n` requests with different ids, all at time 0. */
  function Burst(n: nat, p: Policy, a: AgentId, u: UserId, tool: Tool, deadline: int): (r: seq<Delivery>)
    ensures |r| == n
    ensures forall i :: 0 <= i < n ==> r[i] == Delivery(0, Numbered(i, p, a, u, tool, deadline))
  {
    if n == 0 then [] else Burst(n - 1, p, a, u, tool, deadline) + [Delivery(0, Numbered(n - 1, p, a, u, tool, deadline))]
  }

  /** `n` different actions have been accepted at time 0 and none was forgotten by expiry. */
  ghost predicate InBurst(t: Trace, n: nat, p: Policy, deadline: int) {
    && t.proc.policy == p && t.clock == 0 && |t.proc.seenActions| <= MAX_SEEN_ACTIONS && Faithful(t)
    && |t.accepted| == n && forall i :: 0 <= i < n ==> t.accepted[i] == Entry(i, deadline)
  }

  lemma BurstGoesOn(t: Trace, n: nat, p: Policy, a: AgentId, u: UserId, tool: Tool, deadline: int)
    requires InBurst(t, n, p, deadline) && deadline > 0
    ensures InBurst(Delivered(t, Delivery(0, Numbered(n, p, a, u, tool, deadline))), n + 1, p, deadline)
  {
    if Has(t.proc.seenActions, n) {
      HeldWasInserted(t.proc.seenActions, t.accepted, t.clock, MAX_SEEN_ACTIONS, n);
    }
    DeliveredFaithful(t, Delivery(0, Numbered(n, p, a, u, tool, deadline)));
    hide Has, Insert, Faithful;
  }

  lemma {:induction false} BurstAccepted(n: nat, p: Policy, a: AgentId, u: UserId, tool: Tool, deadline: int)
    requires deadline > 0
    ensures InBurst(After(Trace(Started(p), [], 0), Burst(n, p, a, u, tool, deadline)), n, p, deadline)
  {
    hide *;
    if n == 0 {
      NoBurst(p, a, u, tool, deadline);
    } else {
      var start := Trace(Started(p), [], 0);
      var front := Burst(n - 1, p, a, u, tool, deadline);
      BurstOneMore(n, p, a, u, tool, deadline);
      AfterOneMore(start, front, Delivery(0, Numbered(n - 1, p, a, u, tool, deadline)));
      BurstAccepted(n - 1, p, a, u, tool, deadline);
      BurstGoesOn(After(start, front), n - 1, p, a, u, tool, deadline);
    }
  }

  lemma NoBurst(p: Policy, a: AgentId, u: UserId, tool: Tool, deadline: int)
    ensures InBurst(After(Trace(Started(p), [], 0), Burst(0, p, a, u, tool, deadline)), 0, p, deadline)
  {
    StartIsFaithful(p, 0);
    hide Faithful;
  }

  lemma BurstOneMore(n: nat, p: Policy, a: AgentId, u: UserId, tool: Tool, deadline: int)
    requires n > 0
    ensures Burst(n, p, a, u, tool, deadline)
            == Burst(n - 1, p, a, u, tool, deadline) + [Delivery(0, Numbered(n - 1, p, a, u, tool, deadline))]
  {
  }

  lemma AfterOneMore(t: Trace, ds: seq<Delivery>, d: Delivery)
    ensures After(t, ds + [d]) == Delivered(After(t, ds), d)
  {
    assert (ds + [d])[..|ds|] == ds;
    hide Delivered;
  }

  /** From a fresh process: after 10,000 other actions the first one is accepted a second time, with its
      deadline still ahead. */
  lemma BurstAcceptsTwice(p: Policy, a: AgentId, u: UserId, tool: Tool, deadline: int)
    requires deadline > 0
    ensures var first := Numbered(0, p, a, u, tool, deadline);
            var t := After(Trace(Started(p), [], 0), Burst(MAX_SEEN_ACTIONS + 1, p, a, u, tool, deadline));
            && AcceptsAction(Started(p), first, 0)
            && AcceptsAction(t.proc, first, 0) && t.clock < first.deadline
  {
    BurstAccepted(MAX_SEEN_ACTIONS + 1, p, a, u, tool, deadline);
    var t := After(Trace(Started(p), [], 0), Burst(MAX_SEEN_ACTIONS + 1, p, a, u, tool, deadline));
    CapForgets(t.proc.seenActions, t.accepted, 0, 0, MAX_SEEN_ACTIONS);
  }

  lemma StartIsFaithful(policy: Policy, clock: int)
    ensures Faithful(Trace(Started(policy), [], clock))
  {
    assert Tracks([], [], [], clock, MAX_SEEN_ACTIONS);
  }

  /** The deadline itself is not protected: with the clock standing at the deadline, accepting any
      other action prunes the entry and the first action is accepted a second time. */
  lemma AcceptedAgainAtTheDeadline(p: Policy, a: AgentId, u: UserId, tool: Tool, deadline: int)
    ensures var r1 := ActionRequest(1, a, u, tool, ToolCapability(tool), p.version, deadline, 0);
            var r2 := ActionRequest(2, a, u, tool, ToolCapability(tool), p.version, deadline + 1, 0);
            var p0 := Started(p);
            && AcceptsAction(p0, r1, deadline)
            && var p1 := ActionHandled(p0, r1, deadline);
            && AcceptsAction(p1, r2, deadline)
            && var p2 := ActionHandled(p1, r2, deadline);
            AcceptsAction(p2, r1, deadline)
  {
    var seen1 := Insert([], 1, deadline, deadline, MAX_SEEN_ACTIONS);
    assert Unexpired([], deadline) == [];
    assert seen1 == [Entry(1, deadline)];
    assert seen1[..0] == [];
    assert Unexpired(seen1, deadline) == [];
    assert Insert(seen1, 2, deadline + 1, deadline, MAX_SEEN_ACTIONS) == [Entry(2, deadline + 1)];
  }

  /** Nor does the table survive the process: any action an agent has just accepted is accepted again
      after a restart before its deadline. */
  lemma RestartForgetsAcceptedActions(p: Proc, r: Envelope, now: int, later: int)
    requires r.ActionRequest? && AcceptsAction(p, r, now) && now <= later <= r.deadline
    ensures AcceptsAction(Started(ActionHandled(p, r, now).policy), r, later)
  {
  }

  // ---------------------------------------------------------------------------------------------
  // The process, updated in place
  // ---------------------------------------------------------------------------------------------

  class Agent {
    const self: AgentId
    const controlKey: Key
    var policy: Policy
    var seenActions: seq<Entry>
    const policyNonces: NonceWindow

    ghost function Value(): Proc
      reads this, policyNonces
    {
      Proc(policy, policyNonces.entries, seenActions)
    }

    constructor (self: AgentId, controlKey: Key, policy: Policy)
      ensures Value() == Started(policy) && fresh(policyNonces)
      ensures this.self == self && this.controlKey == controlKey
    {
      this.self := self;
      this.controlKey := controlKey;
      this.policy := policy;
      seenActions := [];
      policyNonces := new NonceWindow();
    }

    method ApplyPolicyUpdate(u: Envelope, now: int) returns (v: Validation)
      requires u.PolicyUpdate?
      modifies this`policy, policyNonces
      ensures (Value(), v) == UpdateHandled(old(Value()), u, now)
    {
      var seen := policyNonces.HasSeen(u.nonce, now);
      HasIff(policyNonces.entries, u.nonce);
      UnexpiredMembers(old(policyNonces.entries), now);
      UnexpiredTwice(old(policyNonces.entries), now);
      if seen { return Refused(Replay); }
      if now - u.issuedAt > POLICY_UPDATE_MAX_AGE_MS { return Refused(Stale); }
      if u.issuedAt - now > POLICY_UPDATE_MAX_FUTURE_SKEW_MS { return Refused(Future); }
      if u.policyVersion != u.policy.version { return Refused(VersionMismatch); }
      if u.policyVersion <= policy.version { return Refused(NotNewer); }
      policyNonces.Remember(u.nonce, now);
      policy := u.policy;
      return Admitted;
    }

    method AcceptAction(r: Envelope, now: int) returns (ok: bool)
      requires r.ActionRequest?
      ensures ok <==> AcceptsAction(Value(), r, now)
    {
      if exists i :: 0 <= i < |seenActions| && seenActions[i].key == r.actionId { return false; }
      if r.deadline < now { return false; }
      if r.policyVersion != policy.version && r.policyVersion != policy.version + 1 { return false; }
      return true;
    }

    /** `rememberAction`, reached only for an action that is not in the table. */
    method RememberAction(id: ActionId, deadline: int, now: int)
      requires !Has(seenActions, id)
      modifies this`seenActions
      ensures seenActions == Insert(old(seenActions), id, deadline, now, MAX_SEEN_ACTIONS)
    {
      var all := seenActions;
      var kept: seq<Entry> := [];
      for i := 0 to |all|
        invariant kept == Unexpired(all[..i], now)
      {
        assert all[..i + 1][..i] == all[..i];
        if all[i].expiresAt > now {
          kept := kept + [all[i]];
        }
      }
      assert all[..|all|] == all;
      seenActions := kept + [Entry(id, deadline)];
      ghost var full := seenActions;
      while |seenActions| > MAX_SEEN_ACTIONS
        invariant |seenActions| <= |full|
        invariant seenActions == full[|full| - |seenActions|..]
        invariant |seenActions| >= MAX_SEEN_ACTIONS || seenActions == full
        decreases |seenActions|
      {
        seenActions := seenActions[1..];
      }
    }

    /** Returns whether an action was accepted; `Runs` then decides whether its tool runs. */
    method OnMessage(e: Envelope, signed: set<Signed>, now: int) returns (accepted: bool)
      modifies this`policy, this`seenActions, policyNonces
      ensures Value() == MessageHandled(old(Value()), self, controlKey, e, signed, now)
      ensures accepted <==> MessageAccepted(old(Value()), self, controlKey, e, signed, now)
    {
      if e.agentId != self { return false; }
      if !Verifies(signed, controlKey, e) { return false; }
      if e.PolicyUpdate? {
        var _ := ApplyPolicyUpdate(e, now);
        return false;
      }
      if !e.ActionRequest? { return false; }
      accepted := AcceptAction(e, now);
      if accepted {
        RememberAction(e.actionId, e.deadline, now);
      }
    }
  }
}
