/** The admission control of the SSH session table (src/session.ts).

    Each stretch between two awaits is one step. Opening a session takes the promise chain as a lock,
    may evict a session inside it, connects outside it and gives its reservation back at the end. */
module SessionAdmission {
  import opened Options

  type SessionId = nat

  datatype Session = Session(id: SessionId, lastUsed: int, expiresAt: int)

  /** The fields of `SessionManager`. `sessions` is in insertion order. Promise 0 of the admission
      chain is resolved from the start; `admission` is the promise made last. */
  datatype Manager = Manager(
    sessions: seq<Session>,
    pending: int,
    closing: set<SessionId>,
    operations: map<SessionId, int>,
    admission: nat,
    resolved: set<nat>,
    maxSessions: nat)

  function Fresh(maxSessions: nat): Manager {
    Manager([], 0, {}, map[], 0, {0}, maxSessions)
  }

  predicate HasSession(ss: seq<Session>, id: SessionId) {
    exists i :: 0 <= i < |ss| && ss[i].id == id
  }

  predicate Busy(m: Manager, id: SessionId) {
    id in m.operations && m.operations[id] > 0
  }

  predicate Evictable(m: Manager, x: Session) {
    x.id !in m.closing && !Busy(m, x.id)
  }

  /** The session to evict: idle, not closing, used least recently; the one opened first on a tie. */
  ghost predicate IsOldest(m: Manager, k: nat) {
    && k < |m.sessions|
    && Evictable(m, m.sessions[k])
    && (forall i :: 0 <= i < |m.sessions| && Evictable(m, m.sessions[i]) ==>
          m.sessions[k].lastUsed <= m.sessions[i].lastUsed)
    && (forall i :: 0 <= i < k && Evictable(m, m.sessions[i]) ==>
          m.sessions[k].lastUsed < m.sessions[i].lastUsed)
  }

  function OldestBefore(m: Manager, n: nat): (r: Option<nat>)
    requires n <= |m.sessions|
    ensures r.Some? ==> r.value < n
  {
    if n == 0 then None
    else
      var before := OldestBefore(m, n - 1);
      if Evictable(m, m.sessions[n - 1])
         && (before.None? || m.sessions[n - 1].lastUsed < m.sessions[before.value].lastUsed)
      then Some(n - 1) else before
  }

  function Oldest(m: Manager): (r: Option<SessionId>) {
    var k := OldestBefore(m, |m.sessions|);
    if k.None? then None else Some(m.sessions[k.value].id)
  }

  lemma {:induction false} OldestBeforeMeaning(m: Manager, n: nat)
    requires n <= |m.sessions|
    ensures var r := OldestBefore(m, n);
      if r.None? then forall i :: 0 <= i < n ==> !Evictable(m, m.sessions[i])
      else IsOldest(m.(sessions := m.sessions[..n]), r.value)
  {
    if n > 0 {
      OldestBeforeMeaning(m, n - 1);
      var r := OldestBefore(m, n - 1);
      if r.Some? {
        assert IsOldest(m.(sessions := m.sessions[..n - 1]), r.value);
        var k := m.(sessions := m.sessions[..n - 1]);
        assert forall i :: 0 <= i < n - 1 ==> k.sessions[i] == m.sessions[i] && (Evictable(k, k.sessions[i]) <==> Evictable(m, m.sessions[i]));
      }
    }
  }

  /** Eviction finds a victim exactly when some session is idle and not closing, and then it is the
      least recently used of those. */
  lemma OldestIsLeastRecentlyUsed(m: Manager)
    ensures match Oldest(m)
            case None => forall i :: 0 <= i < |m.sessions| ==> !Evictable(m, m.sessions[i])
            case Some(v) => exists k: nat :: IsOldest(m, k) && m.sessions[k].id == v
  {
    OldestBeforeMeaning(m, |m.sessions|);
    assert m.sessions[..|m.sessions|] == m.sessions;
  }

  // ---------------------------------------------------------------------------------------------
  // What each stretch does to the fields
  // ---------------------------------------------------------------------------------------------

  datatype Decision = Admit | Refuse | Evict(victim: SessionId)

  predicate Full(m: Manager) { |m.sessions| + m.pending >= m.maxSessions }

  /** The first stretch of `reserveConnectionSlot` after the lock is taken. */
  function Decide(m: Manager): Decision {
    if !Full(m) then Admit
    else if m.pending > 0 then Refuse
    else match Oldest(m)
         case None => Refuse
         case Some(v) => Evict(v)
  }

  function Admitted(m: Manager, promise: nat): Manager {
    m.(pending := m.pending + 1, resolved := m.resolved + {promise})
  }

  function Refused(m: Manager, promise: nat): Manager {
    m.(resolved := m.resolved + {promise})
  }

  predicate ClosesNow(m: Manager, id: SessionId) {
    id !in m.closing && HasSession(m.sessions, id)
  }

  /** `closeSession` up to its await. */
  function CloseStarted(m: Manager, id: SessionId): Manager {
    if ClosesNow(m, id) then m.(closing := m.closing + {id}) else m
  }

  function Without(ss: seq<Session>, id: SessionId): (r: seq<Session>)
    ensures forall x :: x in r <==> x in ss && x.id != id
    ensures |r| <= |ss|
  {
    if ss == [] then []
    else if ss[0].id == id then Without(ss[1..], id)
    else [ss[0]] + Without(ss[1..], id)
  }

  /** `closeSession` after its await. */
  function CloseFinished(m: Manager, id: SessionId): Manager {
    m.(sessions := Without(m.sessions, id), closing := m.closing - {id}, operations := m.operations - {id})
  }

  function SessionAdded(m: Manager, x: Session): Manager {
    m.(sessions := m.sessions + [x], pending := m.pending - 1)
  }

  function SlotReturned(m: Manager): Manager { m.(pending := m.pending - 1) }

  function Touched(ss: seq<Session>, id: SessionId, now: int): (r: seq<Session>)
    ensures |r| == |ss|
    ensures forall i :: 0 <= i < |ss| ==> r[i].id == ss[i].id && r[i].expiresAt == ss[i].expiresAt
    ensures forall i :: 0 <= i < |ss| ==> r[i].lastUsed == if ss[i].id == id then now else ss[i].lastUsed
  {
    seq(|ss|, i requires 0 <= i < |ss| => if ss[i].id == id then ss[i].(lastUsed := now) else ss[i])
  }

  predicate ExpiredAt(m: Manager, id: SessionId, now: int) {
    exists i :: 0 <= i < |m.sessions| && m.sessions[i].id == id && now >= m.sessions[i].expiresAt
  }

  /** `getSession`: an expired idle session starts closing, a busy one is kept, any other is touched. */
  function Fetched(m: Manager, id: SessionId, now: int): Manager {
    if !HasSession(m.sessions, id) then m
    else if ExpiredAt(m, id, now) then (if Busy(m, id) then m else CloseStarted(m, id))
    else m.(sessions := Touched(m.sessions, id, now))
  }

  /** The sessions `cleanupExpiredSessions` closes: strictly past their expiry, idle, not closing. */
  function Overdue(m: Manager, now: int): set<SessionId> {
    set x | x in m.sessions && Evictable(m, x) && now > x.expiresAt :: x.id
  }

  function CleanedUp(m: Manager, now: int): Manager {
    m.(closing := m.closing + Overdue(m, now))
  }

  function OperationBegun(m: Manager, id: SessionId): Manager {
    m.(operations := m.operations[id := (if id in m.operations then m.operations[id] else 0) + 1])
  }

  function OperationEnded(m: Manager, id: SessionId): Manager {
    if id !in m.operations || m.operations[id] <= 1 then m.(operations := m.operations - {id})
    else m.(operations := m.operations[id := m.operations[id] - 1])
  }

  // ---------------------------------------------------------------------------------------------
  // Calls in flight
  // ---------------------------------------------------------------------------------------------

  /** Where an `openSession` call stands. */
  datatype Progress = Waiting | Evicting(victim: SessionId) | Connecting | Opened | Denied | Failed

  /** A call is named by the session id it drew; its promise of the admission chain is `promise`. */
  datatype Call = Call(promise: nat, openedAt: int, ttl: int, at: Progress)

  datatype History = History(
    line: seq<SessionId>,           // the calls, in the order they joined the chain
    served: nat,                    // how many have left the lock
    reserved: map<SessionId, nat>,  // how often each call raised pendingConnections
    returned: map<SessionId, nat>)  // how often it lowered it

  datatype State = State(m: Manager, calls: map<SessionId, Call>, h: History)

  function Init(maxSessions: nat): State {
    State(Fresh(maxSessions), map[], History([], 0, map[], map[]))
  }

  datatype Step =
    | Begin(id: SessionId, now: int, ttl: int)
    | Enter(id: SessionId)
    | Resume(id: SessionId)
    | ConnectOk(id: SessionId)
    | ConnectFail(id: SessionId)
    | Close(id: SessionId)
    | Finish(id: SessionId)
    | Fetch(id: SessionId, now: int)
    | Cleanup(now: int)
    | BeginOperation(id: SessionId)
    | EndOperation(id: SessionId)

  function Moved(s: State, id: SessionId, at: Progress): map<SessionId, Call>
    requires id in s.calls
  {
    s.calls[id := s.calls[id].(at := at)]
  }

  function Times(m: map<SessionId, nat>, id: SessionId): nat { if id in m then m[id] else 0 }

  function BeginStep(s: State, id: SessionId, now: int, ttl: int): State {
    if id in s.calls then s
    else State(s.m.(admission := s.m.admission + 1),
               s.calls[id := Call(s.m.admission + 1, now, ttl, Waiting)],
               s.h.(line := s.h.line + [id]))
  }

  /** The call's predecessor in the chain has released the lock. */
  predicate MayEnter(s: State, id: SessionId) {
    && id in s.calls && s.calls[id].at == Waiting
    && s.calls[id].promise > 0 && s.calls[id].promise - 1 in s.m.resolved
  }

  function AdmitCall(s: State, id: SessionId): State
    requires id in s.calls
  {
    State(Admitted(s.m, s.calls[id].promise), Moved(s, id, Connecting),
          s.h.(served := s.h.served + 1, reserved := s.h.reserved[id := Times(s.h.reserved, id) + 1]))
  }

  function RefuseCall(s: State, id: SessionId): State
    requires id in s.calls
  {
    State(Refused(s.m, s.calls[id].promise), Moved(s, id, Denied), s.h.(served := s.h.served + 1))
  }

  function EnterStep(s: State, id: SessionId): State {
    if !MayEnter(s, id) then s
    else match Decide(s.m)
         case Admit => AdmitCall(s, id)
         case Refuse => RefuseCall(s, id)
         case Evict(v) => State(CloseStarted(s.m, v), Moved(s, id, Evicting(v)), s.h)
  }

  /** The eviction a call waits for is over. */
  predicate MayResume(s: State, id: SessionId) {
    id in s.calls && s.calls[id].at.Evicting? && s.calls[id].at.victim !in s.m.closing
  }

  function ResumeStep(s: State, id: SessionId): State {
    if !MayResume(s, id) then s
    else if Full(s.m) then RefuseCall(s, id)
    else AdmitCall(s, id)
  }

  function Returned(s: State, id: SessionId): History {
    s.h.(returned := s.h.returned[id := Times(s.h.returned, id) + 1])
  }

  function ConnectOkStep(s: State, id: SessionId): State {
    if id !in s.calls || s.calls[id].at != Connecting then s
    else
      var c := s.calls[id];
      State(SessionAdded(s.m, Session(id, c.openedAt, c.openedAt + c.ttl)), Moved(s, id, Opened), Returned(s, id))
  }

  function ConnectFailStep(s: State, id: SessionId): State {
    if id !in s.calls || s.calls[id].at != Connecting then s
    else State(SlotReturned(s.m), Moved(s, id, Failed), Returned(s, id))
  }

  function FinishStep(s: State, id: SessionId): State {
    if id !in s.m.closing then s else s.(m := CloseFinished(s.m, id))
  }

  function Apply(s: State, step: Step): State {
    match step
    case Begin(id, now, ttl) => BeginStep(s, id, now, ttl)
    case Enter(id) => EnterStep(s, id)
    case Resume(id) => ResumeStep(s, id)
    case ConnectOk(id) => ConnectOkStep(s, id)
    case ConnectFail(id) => ConnectFailStep(s, id)
    case Close(id) => s.(m := CloseStarted(s.m, id))
    case Finish(id) => FinishStep(s, id)
    case Fetch(id, now) => s.(m := Fetched(s.m, id, now))
    case Cleanup(now) => s.(m := CleanedUp(s.m, now))
    case BeginOperation(id) => s.(m := OperationBegun(s.m, id))
    case EndOperation(id) => s.(m := OperationEnded(s.m, id))
  }

  function Run(s: State, steps: seq<Step>): State {
    if steps == [] then s else Apply(Run(s, steps[..|steps| - 1]), steps[|steps| - 1])
  }

  // ---------------------------------------------------------------------------------------------
  // The lock
  // ---------------------------------------------------------------------------------------------

  predicate HoldsPlace(c: Call) { c.at == Waiting || c.at.Evicting? }

  /** Promises are handed out in order, one per call. */
  ghost predicate LineInv(calls: map<SessionId, Call>, line: seq<SessionId>) {
    && (forall id :: id in calls ==> 0 < calls[id].promise <= |line| && line[calls[id].promise - 1] == id)
    && (forall i :: 0 <= i < |line| ==> line[i] in calls && calls[line[i]].promise == i + 1)
  }

  /** The resolved promises are the oldest ones; exactly the calls behind them have left the lock,
      and a call inside it is the next one. */
  ghost predicate LockInv(s: State) {
    && LineInv(s.calls, s.h.line)
    && |s.h.line| == s.m.admission
    && (forall p :: p in s.m.resolved <==> 0 <= p <= s.h.served)
    && s.h.served <= |s.h.line|
    && (forall id :: id in s.calls ==> (HoldsPlace(s.calls[id]) <==> s.calls[id].promise > s.h.served))
    && (forall id :: id in s.calls && s.calls[id].at.Evicting? ==> s.calls[id].promise == s.h.served + 1)
  }

  lemma OnePerPromise(calls: map<SessionId, Call>, line: seq<SessionId>, a: SessionId, b: SessionId)
    requires LineInv(calls, line) && a in calls && b in calls && calls[a].promise == calls[b].promise
    ensures a == b
  {
  }

  ghost predicate MayLeave(s: State, id: SessionId) {
    id in s.calls && HoldsPlace(s.calls[id]) && s.calls[id].promise == s.h.served + 1
  }

  lemma EnteringIsNext(s: State, id: SessionId)
    requires LockInv(s) && (MayEnter(s, id) || MayResume(s, id))
    ensures MayLeave(s, id)
  {
    hide LineInv;
  }

  /** `t` is `s` with one call moved on. */
  ghost predicate OneMoved(s: State, id: SessionId, t: State) {
    && id in s.calls && id in t.calls
    && t.calls == s.calls[id := s.calls[id].(at := t.calls[id].at)]
    && t.h.line == s.h.line && t.m.admission == s.m.admission
  }

  lemma LineKept(s: State, id: SessionId, t: State)
    requires LineInv(s.calls, s.h.line) && OneMoved(s, id, t)
    ensures LineInv(t.calls, t.h.line)
  {
    var line := s.h.line;
    forall x | x in t.calls ensures 0 < t.calls[x].promise <= |line| && line[t.calls[x].promise - 1] == x {
      assert x in s.calls && t.calls[x].promise == s.calls[x].promise;
    }
    forall i | 0 <= i < |line| ensures line[i] in t.calls && t.calls[line[i]].promise == i + 1 {
      assert line[i] in s.calls && s.calls[line[i]].promise == i + 1;
    }
  }

  lemma LeavingKeepsLock(s: State, id: SessionId, t: State)
    requires LockInv(s) && MayLeave(s, id) && OneMoved(s, id, t) && !HoldsPlace(t.calls[id])
    requires t.m.resolved == s.m.resolved + {s.calls[id].promise} && t.h.served == s.h.served + 1
    ensures LockInv(t)
  {
    LineKept(s, id, t);
    forall x | x in t.calls && x != id ensures t.calls[x].promise != s.calls[id].promise {
      if s.calls[x].promise == s.calls[id].promise {
        OnePerPromise(s.calls, s.h.line, x, id);
      }
    }
    hide LineInv;
  }

  lemma StayingKeepsLock(s: State, id: SessionId, t: State)
    requires LockInv(s) && OneMoved(s, id, t) && (HoldsPlace(s.calls[id]) <==> HoldsPlace(t.calls[id]))
    requires t.calls[id].at.Evicting? ==> MayLeave(s, id)
    requires t.m.resolved == s.m.resolved && t.h.served == s.h.served
    ensures LockInv(t)
  {
    LineKept(s, id, t);
    hide LineInv;
  }

  lemma BeginKeepsLine(s: State, id: SessionId, c: Call)
    requires LineInv(s.calls, s.h.line) && id !in s.calls && c.promise == |s.h.line| + 1
    ensures LineInv(s.calls[id := c], s.h.line + [id])
  {
    var line := s.h.line + [id];
    var calls := s.calls[id := c];
    forall x | x in calls ensures 0 < calls[x].promise <= |line| && line[calls[x].promise - 1] == x {
      assert x != id ==> x in s.calls && s.h.line[s.calls[x].promise - 1] == x;
    }
    forall i | 0 <= i < |line| ensures line[i] in calls && calls[line[i]].promise == i + 1 {
      assert i < |s.h.line| ==> line[i] in s.calls && s.calls[line[i]].promise == i + 1;
    }
  }

  // ---------------------------------------------------------------------------------------------
  // Capacity and reservations
  // ---------------------------------------------------------------------------------------------

  ghost function InFlight(calls: map<SessionId, Call>): set<SessionId> {
    set id | id in calls && calls[id].at == Connecting
  }

  ghost predicate CapacityInv(s: State) {
    && s.m.pending == |InFlight(s.calls)|
    && |s.m.sessions| + s.m.pending <= s.m.maxSessions
  }

  /** While a call evicts, nothing is pending and either its victim is still there, closing, or there
      is room. */
  ghost predicate EvictionInv(s: State) {
    forall id :: id in s.calls && s.calls[id].at.Evicting? ==>
      && s.m.pending == 0
      && (s.calls[id].at.victim in s.m.closing || |s.m.sessions| < s.m.maxSessions)
  }

  /** Sessions belong to calls that succeeded, each once; closing ones are still in the table. */
  ghost predicate TableInv(s: State) {
    && (forall i, j :: 0 <= i < j < |s.m.sessions| ==> s.m.sessions[i].id != s.m.sessions[j].id)
    && (forall x :: x in s.m.sessions ==> x.id in s.calls && s.calls[x.id].at == Opened)
    && (forall id :: id in s.m.closing ==> HasSession(s.m.sessions, id))
  }

  /** A reservation is taken at most once and given back exactly once, when its call ends. */
  ghost predicate ReservationInv(s: State) {
    && (forall id :: id in s.calls ==>
          && Times(s.h.reserved, id) == ReservedAt(s.calls[id].at)
          && Times(s.h.returned, id) == ReturnedAt(s.calls[id].at))
    && (forall id :: id !in s.calls ==> Times(s.h.reserved, id) == 0 && Times(s.h.returned, id) == 0)
  }

  ghost predicate Inv(s: State) {
    LockInv(s) && CapacityInv(s) && EvictionInv(s) && TableInv(s) && ReservationInv(s)
  }

  lemma InitInv(maxSessions: nat)
    ensures Inv(Init(maxSessions))
  {
    assert InFlight(Init(maxSessions).calls) == {};
  }

  lemma BeginKeeps(s: State, id: SessionId, now: int, ttl: int)
    requires Inv(s)
    ensures Inv(BeginStep(s, id, now, ttl))
  {
    if id !in s.calls {
      BeginKeepsLock(s, id, now, ttl);
      BeginKeepsTable(s, id, now, ttl);
      BeginKeepsRest(s, id, now, ttl);
      hide LockInv, TableInv, ReservationInv, CapacityInv, EvictionInv, BeginStep;
    }
  }

  lemma BeginKeepsRest(s: State, id: SessionId, now: int, ttl: int)
    requires CapacityInv(s) && EvictionInv(s) && id !in s.calls
    ensures CapacityInv(BeginStep(s, id, now, ttl)) && EvictionInv(BeginStep(s, id, now, ttl))
  {
    assert InFlight(BeginStep(s, id, now, ttl).calls) == InFlight(s.calls);
  }

  lemma BeginKeepsTable(s: State, id: SessionId, now: int, ttl: int)
    requires TableInv(s) && ReservationInv(s) && id !in s.calls
    ensures TableInv(BeginStep(s, id, now, ttl)) && ReservationInv(BeginStep(s, id, now, ttl))
  {
  }

  lemma BeginKeepsLock(s: State, id: SessionId, now: int, ttl: int)
    requires LockInv(s) && id !in s.calls
    ensures LockInv(BeginStep(s, id, now, ttl))
  {
    BeginKeepsLine(s, id, Call(s.m.admission + 1, now, ttl, Waiting));
    hide LineInv;
  }

  ghost function ReservedAt(at: Progress): nat {
    if at == Connecting || at == Opened || at == Failed then 1 else 0
  }

  ghost function ReturnedAt(at: Progress): nat {
    if at == Opened || at == Failed then 1 else 0
  }

  lemma ReservationsMoved(s: State, id: SessionId, t: State)
    requires ReservationInv(s) && OneMoved(s, id, t)
    requires Times(t.h.reserved, id) == ReservedAt(t.calls[id].at)
    requires Times(t.h.returned, id) == ReturnedAt(t.calls[id].at)
    requires forall x :: x != id ==> Times(t.h.reserved, x) == Times(s.h.reserved, x)
    requires forall x :: x != id ==> Times(t.h.returned, x) == Times(s.h.returned, x)
    ensures ReservationInv(t)
  {
  }

  lemma InFlightMoved(s: State, id: SessionId, t: State)
    requires OneMoved(s, id, t)
    ensures |InFlight(t.calls)| == |InFlight(s.calls)| + (if t.calls[id].at == Connecting then 1 else 0)
                                   - if s.calls[id].at == Connecting then 1 else 0
  {
    var rest := InFlight(s.calls) - {id};
    assert InFlight(s.calls) == if s.calls[id].at == Connecting then rest + {id} else rest;
    assert InFlight(t.calls) == if t.calls[id].at == Connecting then rest + {id} else rest;
  }

  /** While a call evicts, other calls move without touching the table. */
  lemma EvictionMoved(s: State, id: SessionId, t: State)
    requires EvictionInv(s) && OneMoved(s, id, t) && !t.calls[id].at.Evicting?
    requires t.m.closing == s.m.closing && t.m.maxSessions == s.m.maxSessions
    requires s.m.pending == 0 ==> t.m.pending == 0 && t.m.sessions == s.m.sessions
    ensures EvictionInv(t)
  {
  }

  lemma TableMoved(s: State, id: SessionId, t: State)
    requires TableInv(s) && OneMoved(s, id, t) && s.calls[id].at != Opened
    requires t.m.sessions == s.m.sessions && t.m.closing == s.m.closing
    ensures TableInv(t)
  {
  }

  lemma AdmitKeeps(s: State, id: SessionId)
    requires Inv(s) && MayLeave(s, id) && !Full(s.m)
    ensures Inv(AdmitCall(s, id))
  {
    var t := AdmitCall(s, id);
    LeavingKeepsLock(s, id, t);
    InFlightMoved(s, id, t);
    NobodyInside(s, id, t);
    ReservationsMoved(s, id, t);
    TableMoved(s, id, t);
    hide LockInv, ReservationInv, TableInv, InFlight;
  }

  /** Once the call inside the lock has left it, no call is inside. */
  lemma NobodyInside(s: State, id: SessionId, t: State)
    requires LockInv(s) && LockInv(t) && OneMoved(s, id, t) && !HoldsPlace(t.calls[id])
    requires t.h.served == s.h.served + 1
    ensures forall x :: x in t.calls ==> !t.calls[x].at.Evicting?
  {
    hide LineInv;
    forall x | x in t.calls ensures !t.calls[x].at.Evicting? {
      assert s.calls[x].at.Evicting? ==> s.calls[x].promise == s.h.served + 1;
    }
  }

  lemma RefuseKeeps(s: State, id: SessionId)
    requires Inv(s) && MayLeave(s, id)
    ensures Inv(RefuseCall(s, id))
  {
    var t := RefuseCall(s, id);
    LeavingKeepsLock(s, id, t);
    ReservationsMoved(s, id, t);
    TableMoved(s, id, t);
    InFlightMoved(s, id, t);
    EvictionMoved(s, id, t);
    hide LockInv, ReservationInv, TableInv, EvictionInv, InFlight;
  }

  lemma OldestIsThere(m: Manager)
    requires Oldest(m).Some?
    ensures ClosesNow(m, Oldest(m).value)
  {
    OldestIsLeastRecentlyUsed(m);
  }

  lemma EvictKeeps(s: State, id: SessionId)
    requires Inv(s) && MayEnter(s, id) && Decide(s.m).Evict?
    ensures Inv(EnterStep(s, id))
  {
    OldestIsThere(s.m);
    EnteringIsNext(s, id);
    var v := Oldest(s.m).value;
    var t := EnterStep(s, id);
    assert t == State(CloseStarted(s.m, v), Moved(s, id, Evicting(v)), s.h);
    hide Oldest, EnterStep, Decide;
    StayingKeepsLock(s, id, t);
    hide LockInv;
    ReservationsMoved(s, id, t);
    EvictKeepsTable(s, id, v);
    InFlightMoved(s, id, t);
    EvictionBegins(s, id, v);
    hide ReservationInv, TableInv, EvictionInv, InFlight;
  }

  lemma EvictionBegins(s: State, id: SessionId, v: SessionId)
    requires EvictionInv(s) && id in s.calls && s.m.pending == 0 && ClosesNow(s.m, v)
    ensures EvictionInv(State(CloseStarted(s.m, v), Moved(s, id, Evicting(v)), s.h))
  {
    hide HasSession;
  }

  lemma EvictKeepsTable(s: State, id: SessionId, v: SessionId)
    requires TableInv(s) && id in s.calls && s.calls[id].at != Opened && HasSession(s.m.sessions, v)
    ensures TableInv(State(CloseStarted(s.m, v), Moved(s, id, Evicting(v)), s.h))
  {
  }

  lemma EnterKeeps(s: State, id: SessionId)
    requires Inv(s)
    ensures Inv(EnterStep(s, id))
  {
    if MayEnter(s, id) {
      EnteringIsNext(s, id);
      hide Inv;
      match Decide(s.m)
      case Admit => AdmitKeeps(s, id);
      case Refuse => RefuseKeeps(s, id);
      case Evict(v) => EvictKeeps(s, id);
    }
  }

  lemma ResumeKeeps(s: State, id: SessionId)
    requires Inv(s)
    ensures Inv(ResumeStep(s, id))
  {
    if MayResume(s, id) {
      EnteringIsNext(s, id);
      hide Inv;
      if Full(s.m) {
        RefuseKeeps(s, id);
      } else {
        AdmitKeeps(s, id);
      }
    }
  }

  lemma ConnectOkKeeps(s: State, id: SessionId)
    requires Inv(s)
    ensures Inv(ConnectOkStep(s, id))
  {
    if id in s.calls && s.calls[id].at == Connecting {
      var t := ConnectOkStep(s, id);
      StayingKeepsLock(s, id, t);
      AddedKeepsTable(s, id, t);
      ReservationsMoved(s, id, t);
      hide LockInv, ReservationInv, TableInv;
      InFlightMoved(s, id, t);
      SomebodyConnects(s.calls, id);
      EvictionMoved(s, id, t);
      hide EvictionInv, InFlight;
    }
  }

  lemma SomebodyConnects(calls: map<SessionId, Call>, id: SessionId)
    requires id in calls && calls[id].at == Connecting
    ensures |InFlight(calls)| > 0
  {
    assert id in InFlight(calls);
  }

  lemma AddedKeepsTable(s: State, id: SessionId, t: State)
    requires TableInv(s) && id in s.calls && s.calls[id].at == Connecting && t == ConnectOkStep(s, id)
    ensures TableInv(t)
  {
    var n := |s.m.sessions|;
    forall i | 0 <= i < n ensures s.m.sessions[i].id != id {
      assert s.m.sessions[i] in s.m.sessions;
    }
    forall x | x in t.m.closing ensures HasSession(t.m.sessions, x) {
      var i :| 0 <= i < n && s.m.sessions[i].id == x;
      assert t.m.sessions[i].id == x;
    }
  }

  lemma ConnectFailKeeps(s: State, id: SessionId)
    requires Inv(s)
    ensures Inv(ConnectFailStep(s, id))
  {
    if id in s.calls && s.calls[id].at == Connecting {
      var t := ConnectFailStep(s, id);
      StayingKeepsLock(s, id, t);
      ReservationsMoved(s, id, t);
      TableMoved(s, id, t);
      hide LockInv, ReservationInv, TableInv;
      InFlightMoved(s, id, t);
      SomebodyConnects(s.calls, id);
      EvictionMoved(s, id, t);
      hide EvictionInv, InFlight;
    }
  }

  lemma {:induction false} WithoutDistinct(ss: seq<Session>, id: SessionId)
    requires forall i, j :: 0 <= i < j < |ss| ==> ss[i].id != ss[j].id
    ensures forall i, j :: 0 <= i < j < |Without(ss, id)| ==> Without(ss, id)[i].id != Without(ss, id)[j].id
    ensures |Without(ss, id)| == |ss| - if HasSession(ss, id) then 1 else 0
  {
    if ss != [] {
      WithoutDistinct(ss[1..], id);
      var tail := Without(ss[1..], id);
      forall j | 0 <= j < |tail| ensures tail[j].id != ss[0].id {
        assert tail[j] in tail;
        var k :| 0 <= k < |ss[1..]| && ss[1..][k] == tail[j];
        assert ss[k + 1] == tail[j];
      }
      assert HasSession(ss, id) <==> ss[0].id == id || HasSession(ss[1..], id) by {
        assert forall i :: 0 < i < |ss| ==> ss[i] == ss[1..][i - 1];
      }
    }
  }

  lemma FinishKeeps(s: State, id: SessionId)
    requires Inv(s)
    ensures Inv(FinishStep(s, id))
  {
    if id in s.m.closing {
      var t := FinishStep(s, id);
      WithoutDistinct(s.m.sessions, id);
      forall x | x in t.m.closing ensures HasSession(t.m.sessions, x) {
        var i :| 0 <= i < |s.m.sessions| && s.m.sessions[i].id == x;
        assert s.m.sessions[i] in t.m.sessions;
      }
    }
  }

  /** Steps that only mark sessions as closing, touch them or count operations. */
  lemma TableStepKeeps(s: State, t: State)
    requires Inv(s)
    requires t == s.(m := s.m.(sessions := t.m.sessions, closing := t.m.closing, operations := t.m.operations))
    requires |t.m.sessions| == |s.m.sessions|
    requires forall i :: 0 <= i < |s.m.sessions| ==> t.m.sessions[i].id == s.m.sessions[i].id
    requires s.m.closing <= t.m.closing
    requires forall id :: id in t.m.closing ==> id in s.m.closing || HasSession(s.m.sessions, id)
    ensures Inv(t)
  {
    forall x | x in t.m.sessions ensures x.id in t.calls && t.calls[x.id].at == Opened {
      var i :| 0 <= i < |t.m.sessions| && t.m.sessions[i] == x;
      assert s.m.sessions[i] in s.m.sessions;
    }
    forall x | x in t.m.closing ensures HasSession(t.m.sessions, x) {
      var i :| 0 <= i < |s.m.sessions| && s.m.sessions[i].id == x;
      assert t.m.sessions[i].id == x;
    }
  }

  lemma ApplyKeeps(s: State, step: Step)
    requires Inv(s)
    ensures Inv(Apply(s, step)) && Apply(s, step).m.maxSessions == s.m.maxSessions
  {
    hide Inv;
    match step
    case Begin(id, now, ttl) => BeginKeeps(s, id, now, ttl);
    case Enter(id) => EnterKeeps(s, id);
    case Resume(id) => ResumeKeeps(s, id);
    case ConnectOk(id) => ConnectOkKeeps(s, id);
    case ConnectFail(id) => ConnectFailKeeps(s, id);
    case Finish(id) => FinishKeeps(s, id);
    case _ => TableStepKeeps(s, Apply(s, step));
  }

  lemma {:induction false} RunKeeps(maxSessions: nat, steps: seq<Step>)
    ensures Inv(Run(Init(maxSessions), steps))
    ensures Run(Init(maxSessions), steps).m.maxSessions == maxSessions
  {
    hide Inv, Apply;
    if steps == [] {
      InitInv(maxSessions);
    } else {
      RunKeeps(maxSessions, steps[..|steps| - 1]);
      ApplyKeeps(Run(Init(maxSessions), steps[..|steps| - 1]), steps[|steps| - 1]);
    }
  }

  // ---------------------------------------------------------------------------------------------
  // Theorems over whole runs
  // ---------------------------------------------------------------------------------------------

  /** Open sessions plus pending connections never exceed the limit, and the pending counter is
      exactly the number of calls that connect. */
  lemma CapacityInEveryRun(maxSessions: nat, steps: seq<Step>)
    ensures var s := Run(Init(maxSessions), steps);
            && |s.m.sessions| + s.m.pending <= maxSessions
            && s.m.pending == |InFlight(s.calls)|
  {
    RunKeeps(maxSessions, steps);
  }

  /** While a call is inside the lock, no other is inside and none may enter. */
  lemma OneCallInside(maxSessions: nat, steps: seq<Step>, a: SessionId, b: SessionId)
    requires var s := Run(Init(maxSessions), steps);
             && a in s.calls && s.calls[a].at.Evicting?
             && b in s.calls && (s.calls[b].at.Evicting? || MayEnter(s, b))
    ensures a == b
  {
    RunKeeps(maxSessions, steps);
    var s := Run(Init(maxSessions), steps);
    if MayEnter(s, b) {
      EnteringIsNext(s, b);
    }
    OnePerPromise(s.calls, s.h.line, a, b);
  }

  /** Every reservation is returned exactly once by the time its call ends, and never before it was
      taken; a refused call took none. */
  lemma ReservationReturnedOnce(maxSessions: nat, steps: seq<Step>, id: SessionId)
    ensures var s := Run(Init(maxSessions), steps);
            && Times(s.h.returned, id) <= Times(s.h.reserved, id) <= 1
            && (id in s.calls && s.calls[id].at in {Opened, Denied, Failed} ==>
                  Times(s.h.returned, id) == Times(s.h.reserved, id))
  {
    RunKeeps(maxSessions, steps);
  }

  /** An eviction starts only with no pending connection, on the least recently used session that is
      idle and not closing, and only when the table is full. */
  lemma EvictionPicksTheOldest(maxSessions: nat, steps: seq<Step>, step: Step, id: SessionId)
    requires var s := Run(Init(maxSessions), steps);
             var t := Apply(s, step);
             && id in t.calls && t.calls[id].at.Evicting?
             && !(id in s.calls && s.calls[id].at.Evicting?)
    ensures var s := Run(Init(maxSessions), steps);
            var victim := Apply(s, step).calls[id].at.victim;
            && s.m.pending == 0 && |s.m.sessions| == maxSessions
            && (exists k: nat :: IsOldest(s.m, k) && s.m.sessions[k].id == victim)
            && victim in Apply(s, step).m.closing
  {
    RunKeeps(maxSessions, steps);
    var s := Run(Init(maxSessions), steps);
    hide Run, LockInv, TableInv, ReservationInv, EvictionInv;
    OldestIsLeastRecentlyUsed(s.m);
    if Oldest(s.m).Some? {
      OldestIsThere(s.m);
    }
    hide Oldest, IsOldest;
  }

  /** An eviction is never wasted: the call that evicted gets the slot. */
  lemma EvictionAdmits(maxSessions: nat, steps: seq<Step>, id: SessionId)
    requires MayResume(Run(Init(maxSessions), steps), id)
    ensures ResumeStep(Run(Init(maxSessions), steps), id).calls[id].at == Connecting
  {
    RunKeeps(maxSessions, steps);
  }

  /** Calls leave the lock in the order they came. */
  lemma FirstComeFirstServed(maxSessions: nat, steps: seq<Step>, a: SessionId, b: SessionId)
    requires var s := Run(Init(maxSessions), steps);
             && a in s.calls && b in s.calls
             && s.calls[a].promise < s.calls[b].promise && !HoldsPlace(s.calls[b])
    ensures !HoldsPlace(Run(Init(maxSessions), steps).calls[a])
  {
    RunKeeps(maxSessions, steps);
  }

  /** The lock cannot get stuck: while a call waits, some call may enter, or the evicting one may
      resume, or the close it waits for is still under way. */
  lemma SomebodyCanMove(maxSessions: nat, steps: seq<Step>, id: SessionId)
    requires var s := Run(Init(maxSessions), steps); id in s.calls && s.calls[id].at == Waiting
    ensures var s := Run(Init(maxSessions), steps);
            exists x :: x in s.calls
                        && (MayEnter(s, x) || MayResume(s, x) || (s.calls[x].at.Evicting? && s.calls[x].at.victim in s.m.closing))
  {
    RunKeeps(maxSessions, steps);
    var s := Run(Init(maxSessions), steps);
    var x := s.h.line[s.h.served];
    assert x in s.calls && s.calls[x].promise == s.h.served + 1;
    assert s.h.served in s.m.resolved;
  }

  // ---------------------------------------------------------------------------------------------
  // Use and operations protect a session
  // ---------------------------------------------------------------------------------------------

  /** Expiry, cleanup and eviction never start closing a session with operations in flight; only an
      explicit close does. */
  lemma BusyIsSpared(s: State, step: Step, id: SessionId)
    requires Busy(s.m, id) && id !in s.m.closing && step != Close(id)
    ensures id !in Apply(s, step).m.closing
  {
    OldestIsEvictable(s.m);
  }

  lemma OldestIsEvictable(m: Manager)
    ensures Oldest(m).Some? ==> !Busy(m, Oldest(m).value) && Oldest(m).value !in m.closing
  {
    OldestIsLeastRecentlyUsed(m);
  }

  /** Using a session puts it behind every session used before: eviction takes it only if no other
      evictable one was last used earlier. */
  lemma UseSpares(m: Manager, id: SessionId, now: int, other: Session)
    requires HasSession(m.sessions, id) && !ExpiredAt(m, id, now)
    requires other in m.sessions && other.id != id && Evictable(m, other) && other.lastUsed < now
    ensures Oldest(Fetched(m, id, now)) != None && Oldest(Fetched(m, id, now)) != Some(id)
  {
    var t := Fetched(m, id, now);
    OldestIsLeastRecentlyUsed(t);
    var i :| 0 <= i < |m.sessions| && m.sessions[i] == other;
    assert t.sessions[i] == other && Evictable(t, t.sessions[i]);
  }

  lemma OperationsBalance(m: Manager, id: SessionId)
    requires id in m.operations ==> m.operations[id] > 0
    ensures Busy(OperationBegun(m, id), id)
    ensures OperationEnded(OperationBegun(m, id), id) == m
  {
    assert m.operations == OperationEnded(OperationBegun(m, id), id).operations;
  }

  // ---------------------------------------------------------------------------------------------
  // How long a session lives
  // ---------------------------------------------------------------------------------------------

  /** Every session ends a lifetime after its call began. */
  ghost predicate LifetimeInv(s: State) {
    forall x :: x in s.m.sessions ==>
      x.id in s.calls && x.expiresAt == s.calls[x.id].openedAt + s.calls[x.id].ttl
  }

  ghost predicate CallsStay(s: State, t: State) {
    forall id :: id in s.calls ==>
      id in t.calls && t.calls[id].openedAt == s.calls[id].openedAt && t.calls[id].ttl == s.calls[id].ttl
  }

  lemma SessionsFrom(s: State, t: State)
    requires LifetimeInv(s) && CallsStay(s, t)
    requires forall x :: x in t.m.sessions ==> exists y :: y in s.m.sessions && y.id == x.id && y.expiresAt == x.expiresAt
    ensures LifetimeInv(t)
  {
  }

  lemma TouchedFrom(ss: seq<Session>, id: SessionId, now: int)
    ensures forall x :: x in Touched(ss, id, now) ==> exists y :: y in ss && y.id == x.id && y.expiresAt == x.expiresAt
  {
    var r := Touched(ss, id, now);
    forall x | x in r ensures exists y :: y in ss && y.id == x.id && y.expiresAt == x.expiresAt {
      var i :| 0 <= i < |r| && r[i] == x;
      assert ss[i] in ss;
    }
  }

  lemma ApplyLifetimes(s: State, step: Step)
    requires LifetimeInv(s)
    ensures LifetimeInv(Apply(s, step))
  {
    var t := Apply(s, step);
    assert CallsStay(s, t) by { hide Decide, Full, Fetched, CleanedUp; }
    if step.ConnectOk? {
      assert step.id in s.calls ==> forall x :: x in t.m.sessions ==> x in s.m.sessions || x.id == step.id;
    } else {
      if step.Fetch? {
        TouchedFrom(s.m.sessions, step.id, step.now);
      }
      hide Oldest, ExpiredAt, Busy, HasSession, Touched;
      SessionsFrom(s, t);
    }
  }

  lemma {:induction false} RunLifetimes(maxSessions: nat, steps: seq<Step>)
    ensures LifetimeInv(Run(Init(maxSessions), steps))
  {
    hide Apply;
    if steps != [] {
      hide LifetimeInv;
      RunLifetimes(maxSessions, steps[..|steps| - 1]);
      ApplyLifetimes(Run(Init(maxSessions), steps[..|steps| - 1]), steps[|steps| - 1]);
    }
  }

  ghost predicate Idle(m: Manager, id: SessionId) { !(id in m.operations && m.operations[id] > 0) }

  /** When the lifetime of a session ends. */
  ghost function EndOf(s: State, id: SessionId): int
    requires id in s.calls
  {
    s.calls[id].openedAt + s.calls[id].ttl
  }

  /** Why a step starts closing a session that is open: somebody closes it, it is fetched idle at or after
      the end of its lifetime, a cleanup finds it idle past that end, or a call evicts it. */
  ghost predicate Closes(s: State, step: Step, id: SessionId)
    requires id in s.calls
  {
    match step
    case Close(x) => x == id
    case Fetch(x, now) => x == id && Idle(s.m, id) && now >= EndOf(s, id)
    case Cleanup(now) => Idle(s.m, id) && now > EndOf(s, id)
    case Enter(c) =>
      && MayEnter(s, c) && s.m.pending == 0 && |s.m.sessions| >= s.m.maxSessions
      && exists k: nat :: IsOldest(s.m, k) && s.m.sessions[k].id == id
    case _ => false
  }

  lemma SessionAt(s: State, id: SessionId)
    requires LifetimeInv(s) && HasSession(s.m.sessions, id)
    ensures id in s.calls
    ensures forall i :: 0 <= i < |s.m.sessions| && s.m.sessions[i].id == id ==> s.m.sessions[i].expiresAt == EndOf(s, id)
    ensures exists i :: 0 <= i < |s.m.sessions| && s.m.sessions[i].id == id
  {
    forall i | 0 <= i < |s.m.sessions| && s.m.sessions[i].id == id
      ensures id in s.calls && s.m.sessions[i].expiresAt == EndOf(s, id)
    {
      assert s.m.sessions[i] in s.m.sessions;
    }
  }

  lemma OverdueIs(s: State, id: SessionId, now: int)
    requires LifetimeInv(s) && HasSession(s.m.sessions, id) && id !in s.m.closing && id in s.calls
    ensures id in Overdue(s.m, now) <==> Idle(s.m, id) && now > EndOf(s, id)
  {
    SessionAt(s, id);
    var i :| 0 <= i < |s.m.sessions| && s.m.sessions[i].id == id;
    assert s.m.sessions[i] in s.m.sessions;
  }

  lemma EvictedIs(s: State, c: SessionId, id: SessionId)
    requires id !in s.m.closing && MayEnter(s, c) && TableInv(s)
    ensures Decide(s.m) == Evict(id) <==>
              && s.m.pending <= 0 && |s.m.sessions| + s.m.pending >= s.m.maxSessions
              && exists k: nat :: IsOldest(s.m, k) && s.m.sessions[k].id == id
  {
    OldestIsLeastRecentlyUsed(s.m);
    if Oldest(s.m).Some? {
      var k: nat :| IsOldest(s.m, k) && s.m.sessions[k].id == Oldest(s.m).value;
      forall j: nat | IsOldest(s.m, j) ensures j == k {
        assert !(j < k) && !(k < j);
      }
    }
    hide Oldest;
  }

  /** In every run an open session starts closing exactly for one of these reasons, and stops closing
      exactly when its close finishes. */
  lemma ClosingExactly(maxSessions: nat, steps: seq<Step>, step: Step, id: SessionId)
    requires HasSession(Run(Init(maxSessions), steps).m.sessions, id)
    ensures var s := Run(Init(maxSessions), steps);
            && id in s.calls
            && (id !in s.m.closing ==> (id in Apply(s, step).m.closing <==> Closes(s, step, id)))
            && (id in s.m.closing ==> (id in Apply(s, step).m.closing <==> step != Finish(id)))
  {
    RunKeeps(maxSessions, steps);
    RunLifetimes(maxSessions, steps);
    var s := Run(Init(maxSessions), steps);
    hide Run;
    ClosingStep(s, step, id);
  }

  lemma ClosingStep(s: State, step: Step, id: SessionId)
    requires Inv(s) && LifetimeInv(s) && HasSession(s.m.sessions, id)
    ensures id in s.calls
    ensures id !in s.m.closing ==> (id in Apply(s, step).m.closing <==> Closes(s, step, id))
    ensures id in s.m.closing ==> (id in Apply(s, step).m.closing <==> step != Finish(id))
  {
    SessionAt(s, id);
    if step.Enter? && MayEnter(s, step.id) && id !in s.m.closing {
      EvictedIs(s, step.id, id);
    }
    if step.Cleanup? && id !in s.m.closing {
      OverdueIs(s, id, step.now);
    }
    hide LockInv, EvictionInv, TableInv, ReservationInv, LifetimeInv, Oldest, Overdue, IsOldest;
  }

  /** A call that enters goes on to connect exactly when there is room, is refused exactly when there is
      none and another call is connecting or no session is idle and open, and otherwise evicts. */
  lemma EnterEffect(s: State, id: SessionId)
    requires MayEnter(s, id)
    ensures var (m, at) := (s.m, Apply(s, Enter(id)).calls[id].at);
            && (at == Connecting <==> |m.sessions| + m.pending < m.maxSessions)
            && (at == Denied <==>
                  && |m.sessions| + m.pending >= m.maxSessions
                  && (m.pending > 0
                      || forall x :: x in m.sessions ==> x.id in m.closing || !Idle(m, x.id)))
            && (at == Connecting || at == Denied || at.Evicting?)
  {
    OldestIsLeastRecentlyUsed(s.m);
    if Oldest(s.m).Some? {
      var k: nat :| IsOldest(s.m, k) && s.m.sessions[k].id == Oldest(s.m).value;
      assert s.m.sessions[k] in s.m.sessions;
    } else {
      forall x | x in s.m.sessions ensures x.id in s.m.closing || !Idle(s.m, x.id) {
        var i :| 0 <= i < |s.m.sessions| && s.m.sessions[i] == x;
      }
    }
    hide Oldest;
  }

  /** A finished close takes away that session and its operations, and no other session. */
  lemma FinishEffect(s: State, id: SessionId, x: Session)
    requires id in s.m.closing
    ensures var t := Apply(s, Finish(id));
            && (x in t.m.sessions <==> x in s.m.sessions && x.id != id)
            && t.m.closing == s.m.closing - {id} && t.m.operations == s.m.operations - {id}
            && t.m.pending == s.m.pending && t.calls == s.calls
  {
  }

  /** A connection that is established becomes the newest session, last used when its call began. */
  lemma ConnectOkEffect(s: State, id: SessionId)
    requires id in s.calls && s.calls[id].at == Connecting
    ensures var (c, t) := (s.calls[id], Apply(s, ConnectOk(id)));
            && t.m.sessions == s.m.sessions + [Session(id, c.openedAt, c.openedAt + c.ttl)]
            && t.calls == s.calls[id := c.(at := Opened)]
  {
  }

  /** Before the end of its lifetime a fetched session is marked as used now, and nothing else changes. */
  lemma FetchEffect(s: State, id: SessionId, now: int, i: nat)
    requires LifetimeInv(s) && HasSession(s.m.sessions, id) && id in s.calls && now < EndOf(s, id) && i < |s.m.sessions|
    ensures var t := Apply(s, Fetch(id, now));
            && t == s.(m := s.m.(sessions := t.m.sessions)) && |t.m.sessions| == |s.m.sessions|
            && t.m.sessions[i] == if s.m.sessions[i].id == id then s.m.sessions[i].(lastUsed := now) else s.m.sessions[i]
  {
    SessionAt(s, id);
  }

  // ---------------------------------------------------------------------------------------------
  // The object
  // ---------------------------------------------------------------------------------------------

  class SessionManager {
    var sessions: seq<Session>
    var pendingConnections: int
    var closingSessions: set<SessionId>
    var activeOperations: map<SessionId, int>
    var admission: nat
    var resolved: set<nat>
    const maxSessions: nat

    function Value(): Manager
      reads this
    {
      Manager(sessions, pendingConnections, closingSessions, activeOperations, admission, resolved, maxSessions)
    }

    constructor (maxSessions: nat)
      ensures Value() == Fresh(maxSessions)
    {
      sessions, pendingConnections, closingSessions, activeOperations := [], 0, {}, map[];
      admission, resolved := 0, {0};
      this.maxSessions := maxSessions;
    }

    /** Joins the admission chain: the promise to wait for and the promise to resolve. */
    method JoinAdmission() returns (previous: nat, mine: nat)
      modifies this
      ensures previous == old(admission) && mine == previous + 1
      ensures Value() == old(Value()).(admission := mine)
    {
      previous := admission;
      mine := previous + 1;
      admission := mine;
    }

    /** The scan of `evictOldestSession`. */
    method FindOldest() returns (victim: Option<SessionId>)
      ensures victim == Oldest(Value())
    {
      var oldest: Option<nat> := None;
      for i := 0 to |sessions|
        invariant oldest == OldestBefore(Value(), i)
      {
        var session := sessions[i];
        if session.id in closingSessions || (session.id in activeOperations && activeOperations[session.id] > 0) {
          continue;
        }
        if oldest.None? || session.lastUsed < sessions[oldest.value].lastUsed {
          oldest := Some(i);
        }
      }
      victim := if oldest.None? then None else Some(sessions[oldest.value].id);
    }

    /** `reserveConnectionSlot` from taking the lock to its next await or its end. */
    method EnterAdmission(mine: nat) returns (decision: Decision)
      modifies this
      ensures decision == Decide(old(Value()))
      ensures Value() == match decision
                         case Admit => Admitted(old(Value()), mine)
                         case Refuse => Refused(old(Value()), mine)
                         case Evict(v) => CloseStarted(old(Value()), v)
    {
      if |sessions| + pendingConnections >= maxSessions {
        if pendingConnections > 0 {
          resolved := resolved + {mine};
          return Refuse;
        }
        var victim := FindOldest();
        if victim.None? {
          resolved := resolved + {mine};
          return Refuse;
        }
        var _ := BeginClose(victim.value);
        return Evict(victim.value);
      }
      pendingConnections := pendingConnections + 1;
      resolved := resolved + {mine};
      decision := Admit;
    }

    /** `reserveConnectionSlot` after the eviction it waited for. */
    method ResumeAdmission(mine: nat) returns (admitted: bool)
      modifies this
      ensures admitted == !Full(old(Value()))
      ensures Value() == if admitted then Admitted(old(Value()), mine) else Refused(old(Value()), mine)
    {
      admitted := |sessions| + pendingConnections < maxSessions;
      if admitted {
        pendingConnections := pendingConnections + 1;
      }
      resolved := resolved + {mine};
    }

    /** `openSession` from the established connection to its end. */
    method AddSession(id: SessionId, now: int, ttl: int)
      modifies this
      requires !HasSession(sessions, id)
      ensures Value() == SessionAdded(old(Value()), Session(id, now, now + ttl))
    {
      sessions := sessions + [Session(id, now, now + ttl)];
      pendingConnections := pendingConnections - 1;
    }

    method AbandonConnection()
      modifies this
      ensures Value() == SlotReturned(old(Value()))
    {
      pendingConnections := pendingConnections - 1;
    }

    method BeginClose(id: SessionId) returns (started: bool)
      modifies this
      ensures started == ClosesNow(old(Value()), id)
      ensures Value() == CloseStarted(old(Value()), id)
    {
      if id in closingSessions {
        return false;
      }
      if !(exists i :: 0 <= i < |sessions| && sessions[i].id == id) {
        return false;
      }
      closingSessions := closingSessions + {id};
      started := true;
    }

    method GetSession(id: SessionId, now: int) returns (found: bool)
      modifies this
      ensures found == (HasSession(old(sessions), id)
                        && (!ExpiredAt(old(Value()), id, now) || Busy(old(Value()), id)))
      ensures Value() == Fetched(old(Value()), id, now)
    {
      if !(exists i :: 0 <= i < |sessions| && sessions[i].id == id) {
        return false;
      }
      if exists i :: 0 <= i < |sessions| && sessions[i].id == id && now >= sessions[i].expiresAt {
        if id in activeOperations && activeOperations[id] > 0 {
          return true;
        }
        var _ := BeginClose(id);
        return false;
      }
      sessions := Touched(sessions, id, now);
      found := true;
    }

    method FinishClose(id: SessionId)
      modifies this
      ensures Value() == CloseFinished(old(Value()), id)
    {
      sessions := Without(sessions, id);
      closingSessions := closingSessions - {id};
      activeOperations := activeOperations - {id};
    }

    /** `cleanupExpiredSessions`: one pass collects, a second closes. */
    method CleanupExpired(now: int)
      modifies this
      ensures Value() == CleanedUp(old(Value()), now)
    {
      var expired: seq<SessionId> := [];
      for i := 0 to |sessions|
        invariant Value() == old(Value())
        invariant forall id :: id in expired <==> id in OverdueBefore(Value(), i, now)
      {
        var session := sessions[i];
        OverdueNext(Value(), i, now);
        if session.id in closingSessions {
          continue;
        }
        if session.id in activeOperations && activeOperations[session.id] > 0 {
          continue;
        }
        if now > session.expiresAt {
          expired := expired + [session.id];
        }
      }
      OverdueAll(Value(), now);
      for i := 0 to |expired|
        invariant Value() == old(Value()).(closing := closingSessions)
        invariant forall id :: id in closingSessions <==> id in old(closingSessions) || id in expired[..i]
      {
        assert expired[i] in Overdue(old(Value()), now);
        var _ := BeginClose(expired[i]);
        assert expired[..i + 1] == expired[..i] + [expired[i]];
      }
      assert expired[..|expired|] == expired;
      assert closingSessions == old(closingSessions) + Overdue(old(Value()), now);
    }

    method BeginOperation(id: SessionId)
      modifies this
      ensures Value() == OperationBegun(old(Value()), id)
    {
      var current := if id in activeOperations then activeOperations[id] else 0;
      activeOperations := activeOperations[id := current + 1];
    }

    method EndOperation(id: SessionId)
      modifies this
      ensures Value() == OperationEnded(old(Value()), id)
    {
      if id !in activeOperations || activeOperations[id] <= 0 {
        activeOperations := activeOperations - {id};
        return;
      }
      if activeOperations[id] == 1 {
        activeOperations := activeOperations - {id};
      } else {
        activeOperations := activeOperations[id := activeOperations[id] - 1];
      }
    }
  }

  ghost function OverdueBefore(m: Manager, n: nat, now: int): set<SessionId>
    requires n <= |m.sessions|
  {
    set x | x in m.sessions[..n] && Evictable(m, x) && now > x.expiresAt :: x.id
  }

  lemma OverdueNext(m: Manager, n: nat, now: int)
    requires n < |m.sessions|
    ensures var x := m.sessions[n];
            OverdueBefore(m, n + 1, now)
            == OverdueBefore(m, n, now) + if Evictable(m, x) && now > x.expiresAt then {x.id} else {}
  {
    assert m.sessions[..n + 1] == m.sessions[..n] + [m.sessions[n]];
  }

  lemma OverdueAll(m: Manager, now: int)
    ensures OverdueBefore(m, |m.sessions|, now) == Overdue(m, now)
    ensures forall id :: id in Overdue(m, now) ==> HasSession(m.sessions, id)
  {
    assert m.sessions[..|m.sessions|] == m.sessions;
    forall id | id in Overdue(m, now) ensures HasSession(m.sessions, id) {
      var x :| x in m.sessions && Evictable(m, x) && now > x.expiresAt && x.id == id;
    }
  }
}
