/** The sliding-window log rate limiter (src/rate-limiter.ts).

    Every call is one step with one clock reading. Options are resolved against the configured
    defaults before a call, so `check` takes the limit and the window themselves. */
module RateLimiter {
  import opened Options

  type Key = nat

  datatype Limits = Limits(maxRequests: int, windowMs: int)

  datatype Limiter = Limiter(
    logs: map<Key, seq<int>>,
    windows: map<Key, int>,
    defaults: Limits,
    blockOnLimit: bool,
    destroyed: bool)

  datatype Verdict = Verdict(allowed: bool, remaining: int, resetIn: int, blocked: bool)

  datatype Usage = Usage(count: nat, remaining: int, resetIn: int)

  function Max(a: int, b: int): int { if a < b then b else a }

  /** The timestamps later than `cutoff`, in order. */
  function Active(log: seq<int>, cutoff: int): (r: seq<int>)
    ensures |r| <= |log|
  {
    if log == [] then []
    else Active(log[..|log| - 1], cutoff) + (if log[|log| - 1] > cutoff then [log[|log| - 1]] else [])
  }

  /** The log without its longest prefix of timestamps up to `cutoff`. */
  function Trimmed(log: seq<int>, cutoff: int): seq<int> {
    if log != [] && log[0] <= cutoff then Trimmed(log[1..], cutoff) else log
  }

  function LogOf(l: Limiter, key: Key): seq<int> { if key in l.logs then l.logs[key] else [] }

  function WindowOf(l: Limiter, key: Key): int {
    if key in l.windows then l.windows[key] else l.defaults.windowMs
  }

  /** What `check` answers when `log` holds the admitted times inside the window. */
  function VerdictOn(log: seq<int>, limits: Limits, block: bool, now: int): Verdict {
    if |log| >= limits.maxRequests then
      Verdict(!block, 0, (if log == [] then now else log[0]) + limits.windowMs - now, block)
    else Verdict(true, Max(0, limits.maxRequests - (|log| + 1)), limits.windowMs, false)
  }

  predicate Admits(log: seq<int>, limits: Limits) { |log| < limits.maxRequests }

  function Checked(l: Limiter, key: Key, limits: Limits, now: int): (Limiter, Verdict) {
    if l.destroyed then (l, Verdict(false, 0, 0, true))
    else
      var log := Trimmed(LogOf(l, key), now - limits.windowMs);
      (l.(logs := l.logs[key := if Admits(log, limits) then log + [now] else log],
          windows := l.windows[key := limits.windowMs]),
       VerdictOn(log, limits, l.blockOnLimit, now))
  }

  function Used(l: Limiter, key: Key, maxRequests: int, window: Option<int>, now: int): Option<Usage> {
    var windowMs := if window.Some? then window.value else WindowOf(l, key);
    if key !in l.logs then None
    else UsageOf(Active(l.logs[key], now - windowMs), Limits(maxRequests, windowMs), now)
  }

  function UsageOf(active: seq<int>, limits: Limits, now: int): Option<Usage> {
    if active == [] then None
    else Some(Usage(|active|, Max(0, limits.maxRequests - |active|), active[0] + limits.windowMs - now))
  }

  function ActiveOf(l: Limiter, key: Key, now: int): seq<int>
    requires key in l.logs
  {
    Active(l.logs[key], now - WindowOf(l, key))
  }

  function Pruned(l: Limiter, now: int): Limiter {
    l.(logs := map k | k in l.logs && ActiveOf(l, k, now) != [] :: ActiveOf(l, k, now),
       windows := map k | k in l.windows && !(k in l.logs && ActiveOf(l, k, now) == []) :: l.windows[k])
  }

  function ResetFor(l: Limiter, key: Key): Limiter {
    l.(logs := l.logs - {key}, windows := l.windows - {key})
  }

  function Destroyed(l: Limiter): Limiter {
    l.(logs := map[], windows := map[], destroyed := true)
  }

  // ---------------------------------------------------------------------------------------------
  // Sorted logs
  // ---------------------------------------------------------------------------------------------

  ghost predicate Sorted(log: seq<int>) {
    forall i, j :: 0 <= i < j < |log| ==> log[i] <= log[j]
  }

  /** The last `n` entries are those later than the cutoff. */
  ghost predicate CutAt(log: seq<int>, cutoff: int, n: nat) {
    && n <= |log|
    && (forall i :: 0 <= i < n ==> log[i] <= cutoff)
    && (forall i :: n <= i < |log| ==> log[i] > cutoff)
  }

  lemma {:induction false} ActiveOfOld(log: seq<int>, cutoff: int)
    requires forall i :: 0 <= i < |log| ==> log[i] <= cutoff
    ensures Active(log, cutoff) == []
  {
    if log != [] {
      ActiveOfOld(log[..|log| - 1], cutoff);
    }
  }

  lemma SortedFront(log: seq<int>)
    requires Sorted(log) && log != []
    ensures Sorted(log[..|log| - 1])
    ensures forall i :: 0 <= i < |log| ==> log[i] <= log[|log| - 1]
  {
  }

  lemma {:induction false} ActiveIsSuffix(log: seq<int>, cutoff: int) returns (n: nat)
    requires Sorted(log)
    ensures CutAt(log, cutoff, n) && Active(log, cutoff) == log[n..]
  {
    if log == [] {
      n := 0;
    } else {
      SortedFront(log);
      hide Sorted;
      if log[|log| - 1] <= cutoff {
        n := |log|;
        ActiveOfOld(log, cutoff);
        assert log[n..] == [];
      } else {
        n := ActiveIsSuffix(log[..|log| - 1], cutoff);
        CutExtends(log, cutoff, n);
        hide CutAt;
      }
    }
  }

  lemma CutExtends(log: seq<int>, cutoff: int, n: nat)
    requires log != [] && log[|log| - 1] > cutoff && CutAt(log[..|log| - 1], cutoff, n)
    ensures CutAt(log, cutoff, n) && log[n..] == log[..|log| - 1][n..] + [log[|log| - 1]]
  {
    var front := log[..|log| - 1];
    assert forall i :: 0 <= i < |front| ==> front[i] == log[i];
  }

  lemma {:induction false} TrimmedAt(log: seq<int>, cutoff: int, n: nat)
    requires CutAt(log, cutoff, n)
    ensures Trimmed(log, cutoff) == log[n..]
  {
    if n > 0 {
      assert log[1..][n - 1..] == log[n..];
      TrimmedAt(log[1..], cutoff, n - 1);
    }
  }

  /** On a sorted log the prefix trim of `check` and the filter of the other calls agree. */
  lemma TrimmedIsActive(log: seq<int>, cutoff: int)
    requires Sorted(log)
    ensures Trimmed(log, cutoff) == Active(log, cutoff)
  {
    var n := ActiveIsSuffix(log, cutoff);
    TrimmedAt(log, cutoff, n);
  }

  // ---------------------------------------------------------------------------------------------
  // Runs, with the limits and the window given per call
  // ---------------------------------------------------------------------------------------------

  datatype Step = Check(key: Key, limits: Limits) | Prune | Reset(key: Key) | Destroy

  datatype Event = Event(now: int, step: Step)

  /** What happened to a key since its reset: every time logged, how many of them a later check or
      prune had reason to drop, the largest cutoff and the shortest window used. */
  datatype Past = Past(history: seq<int>, forgotten: nat, reach: Option<int>, shortest: Option<int>)

  const NOTHING := Past([], 0, None, None)

  datatype State = State(l: Limiter, past: map<Key, Past>, clock: int)

  function Init(defaults: Limits, block: bool, clock: int): State {
    State(Limiter(map[], map[], defaults, block, false), map[], clock)
  }

  function PastOf(s: State, key: Key): Past { if key in s.past then s.past[key] else NOTHING }

  function HistoryOf(s: State, key: Key): seq<int> { PastOf(s, key).history }

  /** How many of the times are at or before the cutoff. */
  function OldCount(history: seq<int>, cutoff: int): (n: nat)
    ensures n <= |history|
  { |history| - |Active(history, cutoff)| }

  /** A check or a prune that used the window `windowMs` at time `now`. */
  function Cut(p: Past, windowMs: int, now: int): Past {
    Past(p.history,
         Max(p.forgotten, OldCount(p.history, now - windowMs)),
         Some(if p.reach.Some? then Max(p.reach.value, now - windowMs) else now - windowMs),
         Some(if p.shortest.Some? && p.shortest.value < windowMs then p.shortest.value else windowMs))
  }

  function Logged(p: Past, now: int, admitted: bool): Past {
    if admitted then p.(history := p.history + [now]) else p
  }

  function CheckStep(s: State, key: Key, limits: Limits, now: int): State {
    if s.l.destroyed then s.(clock := now)
    else
      var admitted := Admits(Trimmed(LogOf(s.l, key), now - limits.windowMs), limits);
      var seen := Cut(PastOf(s, key), limits.windowMs, now);
      State(Checked(s.l, key, limits, now).0, s.past[key := Logged(seen, now, admitted)], now)
  }

  function PruneStep(s: State, now: int): State {
    State(Pruned(s.l, now),
          map k | k in s.past :: if k in s.l.logs then Cut(s.past[k], WindowOf(s.l, k), now) else s.past[k],
          now)
  }

  function Taken(s: State, step: Step, now: int): State {
    match step
    case Check(key, limits) => CheckStep(s, key, limits, now)
    case Prune => PruneStep(s, now)
    case Reset(key) => State(ResetFor(s.l, key), s.past - {key}, now)
    case Destroy => State(Destroyed(s.l), map[], now)
  }

  function Apply(s: State, e: Event): State {
    if e.now < s.clock then s else Taken(s, e.step, e.now)
  }

  function Run(s: State, es: seq<Event>): State {
    if es == [] then s else Apply(Run(s, es[..|es| - 1]), es[|es| - 1])
  }

  /** What the limiter would answer if it never forgot a logged time. */
  ghost function FullVerdict(s: State, key: Key, limits: Limits, now: int): Verdict {
    VerdictOn(Active(HistoryOf(s, key), now - limits.windowMs), limits, s.l.blockOnLimit, now)
  }

  // ---------------------------------------------------------------------------------------------
  // The log is the history without what was forgotten
  // ---------------------------------------------------------------------------------------------

  ghost predicate Bounded(history: seq<int>, limit: int) {
    forall i :: 0 <= i < |history| ==> history[i] <= limit
  }

  ghost predicate PastInv(p: Past, log: seq<int>, clock: int) {
    && Sorted(p.history) && Bounded(p.history, clock)
    && p.forgotten <= |p.history| && log == p.history[p.forgotten..]
    && (p.reach.Some? <==> p.shortest.Some?)
    && (p.history != [] ==> p.shortest.Some?)
    && (p.reach.Some? ==>
          && p.reach.value <= clock - p.shortest.value
          && OldUpTo(p.history, p.forgotten, clock - p.shortest.value)
          && (p.shortest.value > 0 ==> p.forgotten == OldCount(p.history, p.reach.value)))
  }

  ghost predicate WindowInv(s: State, key: Key) {
    key in s.l.logs ==>
      && key in s.past && key in s.l.windows
      && PastOf(s, key).shortest.Some? && PastOf(s, key).shortest.value <= s.l.windows[key]
  }

  ghost predicate KeyInv(s: State, key: Key) {
    PastInv(PastOf(s, key), LogOf(s.l, key), s.clock) && WindowInv(s, key)
  }

  ghost predicate Inv(s: State) {
    forall key :: KeyInv(s, key)
  }

  lemma OldCountIs(history: seq<int>, cutoff: int)
    requires Sorted(history)
    ensures CutAt(history, cutoff, OldCount(history, cutoff))
    ensures Active(history, cutoff) == history[OldCount(history, cutoff)..]
  {
    var n := ActiveIsSuffix(history, cutoff);
  }

  lemma CutUnique(history: seq<int>, cutoff: int, a: nat, b: nat)
    requires a <= |history| && CutAt(history, cutoff, b)
    requires a > 0 ==> history[a - 1] <= cutoff
    requires forall i :: a <= i < |history| ==> history[i] > cutoff
    ensures a == b
  {
    assert b > 0 ==> history[b - 1] <= cutoff;
  }

  /** Filtering what is left of a history leaves what both cuts leave. */
  lemma ActiveOfRest(history: seq<int>, n: nat, cutoff: int)
    requires Sorted(history) && n <= |history|
    ensures Active(history[n..], cutoff) == history[Max(n, OldCount(history, cutoff))..]
  {
    OldCountIs(history, cutoff);
    var m := OldCount(history, cutoff);
    var rest := history[n..];
    assert Sorted(rest);
    hide Active, Sorted, OldCount;
    var a := ActiveIsSuffix(rest, cutoff);
    RestCut(history, n, cutoff, a, m);
    assert history[n..][a..] == history[n + a..];
  }

  lemma RestCut(history: seq<int>, n: nat, cutoff: int, a: nat, m: nat)
    requires n <= |history| && CutAt(history[n..], cutoff, a) && CutAt(history, cutoff, m)
    ensures n + a == Max(n, m)
  {
    var rest := history[n..];
    assert forall i :: n <= i < |history| ==> history[i] == rest[i - n];
    if m <= n {
      CutUnique(rest, cutoff, 0, a);
    } else {
      CutUnique(rest, cutoff, m - n, a);
    }
  }

  lemma OldCountLater(history: seq<int>, now: int, cutoff: int)
    requires Sorted(history) && Bounded(history, now) && cutoff < now
    ensures OldCount(history + [now], cutoff) == OldCount(history, cutoff)
  {
    assert (history + [now])[..|history|] == history;
  }

  lemma OldCountOfMax(history: seq<int>, c: int, d: int)
    requires Sorted(history)
    ensures Max(OldCount(history, c), OldCount(history, d)) == OldCount(history, Max(c, d))
  {
    OldCountIs(history, c);
    OldCountIs(history, d);
    hide OldCount, Active;
    var a, b := OldCount(history, c), OldCount(history, d);
    assert c <= d ==> (a > 0 ==> history[a - 1] <= c);
    if c <= d {
      MoreIsOld(history, c, d, a, b);
    } else {
      MoreIsOld(history, d, c, b, a);
    }
  }

  lemma MoreIsOld(history: seq<int>, c: int, d: int, a: nat, b: nat)
    requires c <= d && CutAt(history, c, a) && CutAt(history, d, b)
    ensures a <= b
  {
    assert a > 0 ==> history[a - 1] <= c;
  }

  // ---------------------------------------------------------------------------------------------
  // Steps keep the invariant
  // ---------------------------------------------------------------------------------------------

  /** The first `n` times are at or before `limit`. */
  ghost predicate OldUpTo(history: seq<int>, n: nat, limit: int) {
    forall i :: 0 <= i < n && i < |history| ==> history[i] <= limit
  }

  lemma CutForgets(p: Past, log: seq<int>, clock: int, windowMs: int, now: int)
    requires PastInv(p, log, clock) && clock <= now
    ensures var q := Cut(p, windowMs, now);
            && q.forgotten <= |q.history| && Active(log, now - windowMs) == q.history[q.forgotten..]
  {
    hide PastInv, Active, Trimmed, OldCount, Sorted;
    var q := Cut(p, windowMs, now);
    assert q.history == p.history && q.forgotten == Max(p.forgotten, OldCount(p.history, now - windowMs));
    hide Cut;
    PastFacts(p, log, clock);
    RestOf(p, log, clock, now - windowMs);
    OldCountIs(p.history, now - windowMs);
  }

  lemma CutForgetsOld(p: Past, log: seq<int>, clock: int, windowMs: int, now: int)
    requires PastInv(p, log, clock) && clock <= now
    ensures var q := Cut(p, windowMs, now);
            OldUpTo(q.history, q.forgotten, now - q.shortest.value)
  {
    hide Active, OldCount, Sorted;
    assert p.reach.Some? ==> OldUpTo(p.history, p.forgotten, clock - p.shortest.value);
    assert p.reach.None? ==> p.forgotten == 0;
    PastFacts(p, log, clock);
    hide PastInv;
    OldCountIs(p.history, now - windowMs);
  }

  lemma CutKeeps(p: Past, log: seq<int>, clock: int, windowMs: int, now: int)
    requires PastInv(p, log, clock) && clock <= now
    ensures PastInv(Cut(p, windowMs, now), Active(log, now - windowMs), now)
  {
    CutForgets(p, log, clock, windowMs, now);
    CutForgetsOld(p, log, clock, windowMs, now);
    if p.reach.Some? {
      OldCountOfMax(p.history, p.reach.value, now - windowMs);
    }
    hide Active, Sorted, OldUpTo;
  }

  lemma LoggedKeeps(p: Past, log: seq<int>, now: int)
    requires PastInv(p, log, now) && p.shortest.Some?
    ensures PastInv(Logged(p, now, true), log + [now], now)
  {
    var q := Logged(p, now, true);
    assert q.history[p.forgotten..] == p.history[p.forgotten..] + [now];
    if p.shortest.value > 0 {
      OldCountLater(p.history, now, p.reach.value);
    }
    hide OldCount;
  }

  lemma LaterKeeps(p: Past, log: seq<int>, clock: int, now: int)
    requires PastInv(p, log, clock) && clock <= now
    ensures PastInv(p, log, now)
  {
    hide OldCount;
  }

  lemma LogIsSorted(p: Past, log: seq<int>, clock: int)
    requires PastInv(p, log, clock)
    ensures Sorted(log)
  {
    hide OldCount;
  }

  lemma CheckKeepsKey(s: State, key: Key, limits: Limits, now: int)
    requires KeyInv(s, key) && s.clock <= now && !s.l.destroyed
    ensures KeyInv(CheckStep(s, key, limits, now), key)
  {
    var p, log := PastOf(s, key), LogOf(s.l, key);
    var q, rest := Cut(p, limits.windowMs, now), Active(log, now - limits.windowMs);
    hide PastInv, Active, Trimmed, OldCount;
    LogIsSorted(p, log, s.clock);
    TrimmedIsActive(log, now - limits.windowMs);
    CutKeeps(p, log, s.clock, limits.windowMs, now);
    LoggedKeeps(q, rest, now);
    assert PastOf(CheckStep(s, key, limits, now), key) == Logged(q, now, Admits(rest, limits));
    hide Sorted;
  }

  /** Past and log of a key are as before. */
  ghost predicate SameKey(s: State, t: State, key: Key) {
    && PastOf(t, key) == PastOf(s, key) && LogOf(t.l, key) == LogOf(s.l, key)
    && (key in t.l.logs ==> key in s.l.logs && key in t.past)
    && (key in s.l.windows ==> key in t.l.windows && t.l.windows[key] == s.l.windows[key])
  }

  lemma SameKeyKeeps(s: State, t: State, key: Key)
    requires KeyInv(s, key) && SameKey(s, t, key) && s.clock <= t.clock
    ensures KeyInv(t, key)
  {
    LaterKeeps(PastOf(s, key), LogOf(s.l, key), s.clock, t.clock);
    hide PastInv;
  }

  lemma CheckKeeps(s: State, key: Key, limits: Limits, now: int)
    requires Inv(s) && s.clock <= now
    ensures Inv(CheckStep(s, key, limits, now))
  {
    var t := CheckStep(s, key, limits, now);
    forall k ensures KeyInv(t, k) {
      assert KeyInv(s, k);
      if k == key && !s.l.destroyed {
        CheckKeepsKey(s, key, limits, now);
      } else {
        SameKeyKeeps(s, t, k);
      }
    }
  }

  lemma PruneKeepsKey(s: State, key: Key, now: int)
    requires KeyInv(s, key) && s.clock <= now && key in s.l.logs
    ensures KeyInv(PruneStep(s, now), key)
  {
    hide PastInv, Active, OldCount;
    CutKeeps(PastOf(s, key), LogOf(s.l, key), s.clock, WindowOf(s.l, key), now);
    var t := PruneStep(s, now);
    assert LogOf(t.l, key) == Active(LogOf(s.l, key), now - WindowOf(s.l, key));
    assert PastOf(t, key) == Cut(PastOf(s, key), WindowOf(s.l, key), now);
  }

  lemma PruneKeeps(s: State, now: int)
    requires Inv(s) && s.clock <= now
    ensures Inv(PruneStep(s, now))
  {
    var t := PruneStep(s, now);
    forall k ensures KeyInv(t, k) {
      assert KeyInv(s, k);
      if k in s.l.logs {
        PruneKeepsKey(s, k, now);
      } else {
        assert SameKey(s, t, k);
        SameKeyKeeps(s, t, k);
      }
    }
  }

  lemma ForgottenKey(s: State, key: Key)
    requires key !in s.past && key !in s.l.logs
    ensures KeyInv(s, key)
  {
  }

  lemma ApplyKeeps(s: State, e: Event)
    requires Inv(s)
    ensures Inv(Apply(s, e))
  {
    if s.clock <= e.now {
      var t := Taken(s, e.step, e.now);
      match e.step
      case Check(key, limits) => CheckKeeps(s, key, limits, e.now);
      case Prune => PruneKeeps(s, e.now);
      case Reset(key) =>
        forall k ensures KeyInv(t, k) {
          assert KeyInv(s, k);
          if k == key {
            ForgottenKey(t, k);
          } else {
            assert SameKey(s, t, k);
            SameKeyKeeps(s, t, k);
          }
        }
      case Destroy =>
        forall k ensures KeyInv(t, k) {
          ForgottenKey(t, k);
        }
    }
  }

  lemma InitInv(defaults: Limits, block: bool, clock: int)
    ensures Inv(Init(defaults, block, clock))
  {
    forall k ensures KeyInv(Init(defaults, block, clock), k) {
      ForgottenKey(Init(defaults, block, clock), k);
    }
  }

  lemma {:induction false} RunKeeps(s: State, es: seq<Event>)
    requires Inv(s)
    ensures Inv(Run(s, es))
    ensures Run(s, es).clock >= s.clock
    ensures Run(s, es).l.blockOnLimit == s.l.blockOnLimit
  {
    if es != [] {
      hide Inv;
      RunKeeps(s, es[..|es| - 1]);
      ApplyKeeps(Run(s, es[..|es| - 1]), es[|es| - 1]);
    }
  }

  // ---------------------------------------------------------------------------------------------
  // When the answer is that of the full history
  // ---------------------------------------------------------------------------------------------

  ghost predicate Reachable(s: State) {
    exists defaults, block, clock, es :: s == Run(Init(defaults, block, clock), es)
  }

  lemma ReachableInv(s: State)
    requires Reachable(s)
    ensures Inv(s)
  {
    var defaults, block, clock, es :| s == Run(Init(defaults, block, clock), es);
    InitInv(defaults, block, clock);
    RunKeeps(Init(defaults, block, clock), es);
  }

  lemma ReachablePast(s: State, key: Key)
    requires Reachable(s)
    ensures PastInv(PastOf(s, key), LogOf(s.l, key), s.clock)
  {
    ReachableInv(s);
    assert KeyInv(s, key);
    hide PastInv, Reachable;
  }

  /** Some time that an earlier call forgot lies in the window that is asked for. */
  ghost predicate ForgottenInWindow(p: Past, windowMs: int, now: int) {
    exists i :: 0 <= i < p.forgotten && i < |p.history| && p.history[i] > now - windowMs
  }

  /** What `check` works on is the history without what any cutoff, earlier or its own, drops. */
  lemma RestOf(p: Past, log: seq<int>, clock: int, cutoff: int)
    requires PastInv(p, log, clock)
    ensures Trimmed(log, cutoff) == Active(log, cutoff)
    ensures Active(log, cutoff) == p.history[Max(p.forgotten, OldCount(p.history, cutoff))..]
    ensures Active(p.history, cutoff) == p.history[OldCount(p.history, cutoff)..]
  {
    LogIsSorted(p, log, clock);
    PastFacts(p, log, clock);
    hide PastInv, Sorted, Active, Trimmed, OldCount;
    TrimmedIsActive(log, cutoff);
    ActiveOfRest(p.history, p.forgotten, cutoff);
    OldCountIs(p.history, cutoff);
  }

  lemma ForgottenCounted(p: Past, log: seq<int>, clock: int, windowMs: int, now: int)
    requires PastInv(p, log, clock)
    ensures ForgottenInWindow(p, windowMs, now) <==> OldCount(p.history, now - windowMs) < p.forgotten
  {
    PastFacts(p, log, clock);
    OldCountIs(p.history, now - windowMs);
    hide PastInv, Sorted, Active, OldCount;
    ForgottenCount(p, windowMs, now);
  }

  lemma WorksOn(s: State, key: Key, windowMs: int, now: int)
    requires PastInv(PastOf(s, key), LogOf(s.l, key), s.clock)
    ensures var p := PastOf(s, key);
            && Trimmed(LogOf(s.l, key), now - windowMs) == Active(LogOf(s.l, key), now - windowMs)
            && Active(LogOf(s.l, key), now - windowMs)
               == p.history[Max(p.forgotten, OldCount(p.history, now - windowMs))..]
            && Active(p.history, now - windowMs) == p.history[OldCount(p.history, now - windowMs)..]
            && (ForgottenInWindow(p, windowMs, now) <==> OldCount(p.history, now - windowMs) < p.forgotten)
  {
    hide *;
    RestOf(PastOf(s, key), LogOf(s.l, key), s.clock, now - windowMs);
    ForgottenCounted(PastOf(s, key), LogOf(s.l, key), s.clock, windowMs, now);
  }

  lemma PastFacts(p: Past, log: seq<int>, clock: int)
    requires PastInv(p, log, clock)
    ensures Sorted(p.history) && Bounded(p.history, clock)
    ensures p.forgotten <= |p.history| && log == p.history[p.forgotten..]
  {
  }

  lemma ForgottenCount(p: Past, windowMs: int, now: int)
    requires p.forgotten <= |p.history| && CutAt(p.history, now - windowMs, OldCount(p.history, now - windowMs))
    ensures ForgottenInWindow(p, windowMs, now) <==> OldCount(p.history, now - windowMs) < p.forgotten
  {
    var m := OldCount(p.history, now - windowMs);
    hide OldCount;
    assert m < p.forgotten ==> p.history[m] > now - windowMs;
  }

  /** Dropping the oldest times of a full window always shows in the answer, when what stays is later. */
  lemma FewerDiffer(history: seq<int>, m: nat, f: nat, limits: Limits, block: bool, now: int)
    requires m < f <= |history| && history[m] < now && (f < |history| ==> history[m] < history[f])
    ensures VerdictOn(history[m..], limits, block, now) != VerdictOn(history[f..], limits, block, now)
  {
    assert history[m..][0] == history[m];
    assert f < |history| ==> history[f..][0] == history[f];
  }

  /** A logged time that some earlier cutoff reached lies in the window that is asked for. */
  ghost predicate ReachedInWindow(p: Past, windowMs: int, now: int) {
    p.reach.Some? && exists i :: 0 <= i < |p.history| && now - windowMs < p.history[i] <= p.reach.value
  }

  lemma ReachedIsForgotten(p: Past, log: seq<int>, clock: int, windowMs: int, now: int)
    requires PastInv(p, log, clock) && (p.shortest.Some? ==> p.shortest.value > 0)
    ensures ForgottenInWindow(p, windowMs, now) <==> ReachedInWindow(p, windowMs, now)
  {
    if p.reach.Some? {
      OldCountIs(p.history, p.reach.value);
      hide OldCount, Active;
    }
  }

  /** The limits and the window may change from call to call. What a check works on is what the full
      history holds inside the window, if and only if nothing forgotten lies there. */
  lemma LogExactly(s: State, key: Key, windowMs: int, now: int)
    requires Reachable(s)
    ensures Trimmed(LogOf(s.l, key), now - windowMs) == Active(PastOf(s, key).history, now - windowMs)
            <==> !ForgottenInWindow(PastOf(s, key), windowMs, now)
  {
    hide *;
    ReachablePast(s, key);
    PastFacts(PastOf(s, key), LogOf(s.l, key), s.clock);
    WorksOn(s, key, windowMs, now);
    SuffixLengths(PastOf(s, key).history, PastOf(s, key).forgotten, OldCount(PastOf(s, key).history, now - windowMs));
  }

  lemma SuffixLengths(history: seq<int>, f: nat, m: nat)
    requires f <= |history| && m <= |history|
    ensures history[Max(f, m)..] == history[m..] <==> f <= m
  {
    assert |history[m..]| == |history| - m;
  }

  /** While nothing forgotten lies in the window asked for, the answer is the one computed from the full
      unpruned history. */
  lemma NothingForgottenNothingLost(s: State, key: Key, limits: Limits, now: int)
    requires Reachable(s) && s.clock <= now && !s.l.destroyed
    requires !ForgottenInWindow(PastOf(s, key), limits.windowMs, now)
    ensures Checked(s.l, key, limits, now).1 == FullVerdict(s, key, limits, now)
  {
    ReachableInv(s);
    assert KeyInv(s, key);
    WorksOn(s, key, limits.windowMs, now);
  }

  /** As long as the windows used for the key were positive, that is exact: the answer is that of the full
      history if and only if no logged time lies in (now - windowMs, c], c being the largest cutoff a
      check or a prune of the key has used. */
  lemma MixedWindowsExactly(s: State, key: Key, limits: Limits, now: int)
    requires Reachable(s) && s.clock <= now && !s.l.destroyed
    requires PastOf(s, key).shortest.Some? ==> PastOf(s, key).shortest.value > 0
    ensures Checked(s.l, key, limits, now).1 == FullVerdict(s, key, limits, now)
            <==> !ReachedInWindow(PastOf(s, key), limits.windowMs, now)
  {
    hide *;
    var p := PastOf(s, key);
    ReachablePast(s, key);
    RestOf(p, LogOf(s.l, key), s.clock, now - limits.windowMs);
    ForgottenCounted(p, LogOf(s.l, key), s.clock, limits.windowMs, now);
    ReachedIsForgotten(p, LogOf(s.l, key), s.clock, limits.windowMs, now);
    AnswersOn(s, key, limits, now);
    DifferExactly(p, LogOf(s.l, key), s.clock, OldCount(p.history, now - limits.windowMs), limits, s.l.blockOnLimit, now);
  }

  lemma DifferExactly(p: Past, log: seq<int>, clock: int, m: nat, limits: Limits, block: bool, now: int)
    requires PastInv(p, log, clock) && (p.shortest.Some? ==> p.shortest.value > 0) && clock <= now
    requires m <= |p.history|
    ensures p.forgotten <= |p.history|
    ensures m >= p.forgotten <==>
            VerdictOn(p.history[Max(p.forgotten, m)..], limits, block, now)
            == VerdictOn(p.history[m..], limits, block, now)
  {
    PastFacts(p, log, clock);
    if m < p.forgotten {
      ForgottenIsEarlier(p, log, clock, m);
      hide PastInv, Sorted, VerdictOn;
      FewerDiffer(p.history, m, p.forgotten, limits, block, now);
    }
  }

  lemma AnswersOn(s: State, key: Key, limits: Limits, now: int)
    requires !s.l.destroyed
    ensures Checked(s.l, key, limits, now).1
            == VerdictOn(Trimmed(LogOf(s.l, key), now - limits.windowMs), limits, s.l.blockOnLimit, now)
    ensures FullVerdict(s, key, limits, now)
            == VerdictOn(Active(PastOf(s, key).history, now - limits.windowMs), limits, s.l.blockOnLimit, now)
  {
    hide Trimmed, Active;
  }

  lemma ForgottenIsEarlier(p: Past, log: seq<int>, clock: int, m: nat)
    requires PastInv(p, log, clock) && m < p.forgotten && (p.shortest.Some? ==> p.shortest.value > 0)
    ensures p.forgotten <= |p.history| && p.history[m] < clock && (p.forgotten < |p.history| ==> p.history[m] < p.history[p.forgotten])
  {
    OldCountIs(p.history, p.reach.value);
    hide OldCount, Active;
  }

  /** A check under a window no longer than any used for the key before is always exact. */
  lemma ShorterWindowsAreExact(s: State, key: Key, limits: Limits, now: int)
    requires Reachable(s) && s.clock <= now && !s.l.destroyed
    requires PastOf(s, key).shortest.Some? ==> limits.windowMs <= PastOf(s, key).shortest.value
    ensures Checked(s.l, key, limits, now).1 == FullVerdict(s, key, limits, now)
  {
    ReachableInv(s);
    assert KeyInv(s, key);
    ShorterSeesAll(PastOf(s, key), LogOf(s.l, key), s.clock, limits.windowMs, now);
    NothingForgottenNothingLost(s, key, limits, now);
  }

  lemma ShorterSeesAll(p: Past, log: seq<int>, clock: int, windowMs: int, now: int)
    requires PastInv(p, log, clock) && clock <= now
    requires p.shortest.Some? ==> windowMs <= p.shortest.value
    ensures !ForgottenInWindow(p, windowMs, now)
  {
    hide OldCount;
  }

  lemma RunOfThree(s: State, a: Event, b: Event, c: Event)
    ensures Run(s, [a, b, c]) == Apply(Apply(Apply(s, a), b), c)
  {
    var es := [a, b, c];
    assert es[..2] == [a, b] && [a, b][..1] == [a] && [a][..0] == [];
    hide Apply;
    assert Run(s, [a]) == Apply(Run(s, []), a);
    assert Run(s, [a, b]) == Apply(Run(s, [a]), b);
  }

  const TWO := Limits(2, 1000)
  const ONE := Limits(1, 10)

  /** Two checks under a long window and one under a short window. */
  function AfterShortWindow(): State {
    Run(Init(TWO, true, 0), [Event(0, Check(0, TWO)), Event(0, Check(0, TWO)), Event(500, Check(0, ONE))])
  }

  lemma ShortWindowRun()
    ensures var s := AfterShortWindow();
            && LogOf(s.l, 0) == [500] && HistoryOf(s, 0) == [0, 0, 500] && s.clock == 500
            && !s.l.destroyed && s.l.blockOnLimit
  {
    LiteralLogs();
    var s0 := Init(TWO, true, 0);
    RunOfThree(s0, Event(0, Check(0, TWO)), Event(0, Check(0, TWO)), Event(500, Check(0, ONE)));
    hide Active, Trimmed, Run, CheckStep;
    OneCheck(s0, 0, TWO, 0, [], []);
    var s1 := CheckStep(s0, 0, TWO, 0);
    assert [] + [0] == [0] && [0] + [0] == [0, 0];
    OneCheck(s1, 0, TWO, 0, [0], [0]);
    var s2 := CheckStep(s1, 0, TWO, 0);
    OneCheck(s2, 0, ONE, 500, [0, 0], []);
    assert [0, 0] + [500] == [0, 0, 500] && [] + [500] == [500];
    assert AfterShortWindow() == CheckStep(s2, 0, ONE, 500);
  }

  /** A short window in between loses what a long one still needs: under a limit of two per 1000 ms a
      third request within 501 ms is allowed. */
  lemma MixedWindowsForget()
    ensures Checked(AfterShortWindow().l, 0, TWO, 501).1.allowed
    ensures FullVerdict(AfterShortWindow(), 0, TWO, 501).blocked
  {
    hide AfterShortWindow, Active, Trimmed;
    ShortWindowRun();
    LiteralLogs();
    AnswersOn(AfterShortWindow(), 0, TWO, 501);
    hide Checked, FullVerdict;
  }

  lemma LiteralLogs()
    ensures Trimmed([], -1000) == [] && Trimmed([0], -1000) == [0] && Trimmed([0, 0], 490) == []
    ensures Trimmed([500], -499) == [500] && Active([0, 0, 500], -499) == [0, 0, 500]
  {
    assert [0, 0][1..] == [0] && [0][1..] == [];
    LiteralHistory();
    hide Active;
  }

  lemma LiteralHistory()
    ensures Active([0, 0, 500], -499) == [0, 0, 500]
  {
    var h := [0, 0, 500];
    assert h[..2] == [0, 0] && h[..2][..1] == [0] && [0][..0] == [];
    assert Active([0], -499) == [0] && Active([0, 0], -499) == [0, 0];
  }

  lemma OneCheck(s: State, key: Key, limits: Limits, now: int, history: seq<int>, rest: seq<int>)
    requires !s.l.destroyed && HistoryOf(s, key) == history && Trimmed(LogOf(s.l, key), now - limits.windowMs) == rest
    requires |rest| < limits.maxRequests
    ensures var t := CheckStep(s, key, limits, now);
            && LogOf(t.l, key) == rest + [now] && HistoryOf(t, key) == history + [now]
            && t.clock == now && !t.l.destroyed && t.l.blockOnLimit == s.l.blockOnLimit
  {
    hide Trimmed, Active;
  }

  // ---------------------------------------------------------------------------------------------
  // Runs with fixed limits per key
  // ---------------------------------------------------------------------------------------------

  ghost predicate Follows(es: seq<Event>, limits: Key -> Limits) {
    forall i :: 0 <= i < |es| && es[i].step.Check? ==> es[i].step.limits == limits(es[i].step.key)
  }

  ghost predicate FixedReachable(s: State, limits: Key -> Limits) {
    exists defaults, block, clock, es :: Follows(es, limits) && s == Run(Init(defaults, block, clock), es)
  }

  /** Any two logged times `maxRequests` apart in the history are a whole window apart in time. */
  ghost predicate Spaced(history: seq<int>, limits: Limits) {
    forall i, j :: 0 <= i && 0 <= limits.maxRequests && j == i + limits.maxRequests && j < |history| ==>
      history[i] + limits.windowMs <= history[j]
  }

  ghost predicate FixedKey(s: State, key: Key, limits: Limits) {
    && Spaced(HistoryOf(s, key), limits)
    && (limits.maxRequests <= 0 ==> HistoryOf(s, key) == [])
    && (PastOf(s, key).shortest.Some? ==> PastOf(s, key).shortest.value == limits.windowMs)
    && (key in s.l.logs ==> key in s.l.windows && s.l.windows[key] == limits.windowMs)
  }

  ghost predicate FixedInv(s: State, limits: Key -> Limits) {
    forall key :: FixedKey(s, key, limits(key))
  }

  lemma AdmittedIsSpaced(history: seq<int>, limits: Limits, now: int)
    requires Sorted(history) && Spaced(history, limits)
    requires Admits(Active(history, now - limits.windowMs), limits)
    ensures Spaced(history + [now], limits)
  {
    var n := ActiveIsSuffix(history, now - limits.windowMs);
    assert |history| - n < limits.maxRequests;
  }

  /** The log `check` works on is what the whole history holds inside the window. */
  lemma WorksOnActive(s: State, key: Key, limits: Limits, now: int)
    requires KeyInv(s, key) && FixedKey(s, key, limits) && s.clock <= now
    ensures Trimmed(LogOf(s.l, key), now - limits.windowMs) == Active(HistoryOf(s, key), now - limits.windowMs)
  {
    hide Spaced, Trimmed, Active, OldCount;
    WorksOn(s, key, limits.windowMs, now);
    ShorterSeesAll(PastOf(s, key), LogOf(s.l, key), s.clock, limits.windowMs, now);
  }

  lemma CheckShape(s: State, key: Key, limits: Limits, now: int)
    requires !s.l.destroyed
    ensures var t := CheckStep(s, key, limits, now);
            var admitted := Admits(Trimmed(LogOf(s.l, key), now - limits.windowMs), limits);
            && HistoryOf(t, key) == (if admitted then HistoryOf(s, key) + [now] else HistoryOf(s, key))
            && PastOf(t, key).shortest == Cut(PastOf(s, key), limits.windowMs, now).shortest
            && key in t.l.windows && t.l.windows[key] == limits.windowMs
  {
    hide Trimmed, Active, OldCount;
  }

  lemma FixedCheckKey(s: State, key: Key, limits: Limits, now: int)
    requires KeyInv(s, key) && FixedKey(s, key, limits) && s.clock <= now && !s.l.destroyed
    ensures FixedKey(CheckStep(s, key, limits, now), key, limits)
  {
    var history := HistoryOf(s, key);
    PastFacts(PastOf(s, key), LogOf(s.l, key), s.clock);
    hide KeyInv, Trimmed, Active, OldCount, Spaced, Sorted, Bounded, PastInv, CheckStep;
    WorksOnActive(s, key, limits, now);
    CheckShape(s, key, limits, now);
    if Admits(Active(history, now - limits.windowMs), limits) {
      AdmittedIsSpaced(history, limits, now);
    }
  }

  lemma FixedKeeps(s: State, e: Event, limits: Key -> Limits)
    requires Inv(s) && FixedInv(s, limits) && (e.step.Check? ==> e.step.limits == limits(e.step.key))
    ensures FixedInv(Apply(s, e), limits)
  {
    var t := Apply(s, e);
    forall k ensures FixedKey(t, k, limits(k)) {
      assert FixedKey(s, k, limits(k)) && KeyInv(s, k);
      hide Spaced, Active, Trimmed, OldCount, KeyInv;
      if e.now >= s.clock && e.step.Check? && e.step.key == k && !s.l.destroyed {
        FixedCheckKey(s, k, limits(k), e.now);
      } else if e.now >= s.clock && e.step.Prune? {
        FixedPruneKey(s, k, limits(k), e.now);
      } else if e.step.Reset? && e.step.key == k {
        assert t == s || HistoryOf(t, k) == [];
      }
    }
  }

  lemma FixedPruneKey(s: State, key: Key, limits: Limits, now: int)
    requires WindowInv(s, key) && FixedKey(s, key, limits)
    ensures FixedKey(PruneStep(s, now), key, limits)
  {
    hide Spaced, Active, OldCount;
    assert key in s.l.logs ==> WindowOf(s.l, key) == limits.windowMs;
  }

  lemma {:induction false} FixedRun(s: State, es: seq<Event>, limits: Key -> Limits)
    requires Inv(s) && FixedInv(s, limits) && Follows(es, limits)
    ensures Inv(Run(s, es)) && FixedInv(Run(s, es), limits)
  {
    if es != [] {
      var front := es[..|es| - 1];
      assert Follows(front, limits);
      hide Inv, FixedInv, Apply;
      FixedRun(s, front, limits);
      ApplyKeeps(Run(s, front), es[|es| - 1]);
      FixedKeeps(Run(s, front), es[|es| - 1], limits);
    }
  }

  lemma FixedReachableInv(s: State, limits: Key -> Limits)
    requires FixedReachable(s, limits)
    ensures Inv(s) && FixedInv(s, limits)
  {
    var defaults, block, clock, es :| Follows(es, limits) && s == Run(Init(defaults, block, clock), es);
    InitInv(defaults, block, clock);
    FixedRun(Init(defaults, block, clock), es, limits);
  }

  /** Whatever was checked, pruned or reset before, the answer is the one computed from the full
      unpruned history, and a time is logged exactly when that history leaves room. */
  lemma VerdictFromFullHistory(s: State, limits: Key -> Limits, key: Key, now: int)
    requires FixedReachable(s, limits) && s.clock <= now && !s.l.destroyed
    ensures Checked(s.l, key, limits(key), now).1 == FullVerdict(s, key, limits(key), now)
    ensures var room := |Active(HistoryOf(s, key), now - limits(key).windowMs)| < limits(key).maxRequests;
            HistoryOf(CheckStep(s, key, limits(key), now), key) == HistoryOf(s, key) + if room then [now] else []
  {
    FixedReachableInv(s, limits);
    FixedWorksOn(s, limits, key, now);
    AnswersOn(s, key, limits(key), now);
    hide Inv, FixedInv, Active, Trimmed, OldCount, FixedReachable, Regular;
  }

  /** Usage, asked for the key's own window or a shorter one, is that of the full history too. */
  lemma UsageFromFullHistory(s: State, limits: Key -> Limits, key: Key, window: Option<int>, maxRequests: int, now: int)
    requires FixedReachable(s, limits) && s.clock <= now
    requires window.Some? ==> window.value <= limits(key).windowMs
    ensures var w := if window.Some? then window.value else limits(key).windowMs;
            Used(s.l, key, maxRequests, window, now)
            == UsageOf(Active(HistoryOf(s, key), now - w), Limits(maxRequests, w), now)
  {
    FixedReachableInv(s, limits);
    assert KeyInv(s, key) && FixedKey(s, key, limits(key));
    hide Active, Trimmed, OldCount, PastInv, Spaced, Used, UsageOf;
    var w := if window.Some? then window.value else limits(key).windowMs;
    ShorterSeesAll(PastOf(s, key), LogOf(s.l, key), s.clock, w, now);
    WorksOn(s, key, w, now);
    assert key in s.l.logs ==> WindowOf(s.l, key) == limits(key).windowMs;
    assert Active(LogOf(s.l, key), now - w) == Active(HistoryOf(s, key), now - w);
    hide Inv, FixedInv, KeyInv, FixedKey, HistoryOf;
    UsageOfLog(s.l, key, maxRequests, window, w, now);
  }

  lemma UsageOfLog(l: Limiter, key: Key, maxRequests: int, window: Option<int>, w: int, now: int)
    requires key in l.logs ==> w == if window.Some? then window.value else WindowOf(l, key)
    ensures Used(l, key, maxRequests, window, now)
            == UsageOf(Active(LogOf(l, key), now - w), Limits(maxRequests, w), now)
  {
    assert Active([], now - w) == [];
    hide Active;
  }
  /** The logged times in the half-open window that ends at `t + w` and does not contain `t`. */
  ghost function InWindow(history: seq<int>, t: int, w: int): set<int> {
    set i | 0 <= i < |history| && t < history[i] <= t + w
  }

  ghost function Range(a: int, b: int): (r: set<int>)
    requires a <= b
    ensures |r| == b - a
    ensures forall i :: i in r <==> a <= i < b
    decreases b - a
  {
    if a == b then {} else Range(a, b - 1) + {b - 1}
  }

  lemma SpacedAt(history: seq<int>, limits: Limits, i: nat)
    requires Spaced(history, limits) && 0 <= limits.maxRequests && i + limits.maxRequests < |history|
    ensures history[i] + limits.windowMs <= history[i + limits.maxRequests]
  {
  }

  /** The latest of the times in the window come last. */
  lemma InWindowIs(history: seq<int>, now: int, w: int) returns (n: nat)
    requires Sorted(history) && Bounded(history, now)
    ensures CutAt(history, now - w, n) && Active(history, now - w) == history[n..]
    ensures |InWindow(history, now - w, w)| == |history| - n
  {
    n := ActiveIsSuffix(history, now - w);
    hide Active, Sorted;
    assert InWindow(history, now - w, w) == Range(n, |history|);
  }

  /** `first` is the earliest logged time in the window: all before it are out. */
  ghost predicate Earliest(history: seq<int>, now: int, w: int, first: int) {
    exists i :: 0 <= i < |history| && history[i] == first && AllOut(history[..i], now - w) && first > now - w
  }

  ghost predicate AllOut(times: seq<int>, cutoff: int) {
    forall j :: 0 <= j < |times| ==> times[j] <= cutoff
  }

  lemma EarliestIs(history: seq<int>, now: int, w: int, n: nat)
    requires CutAt(history, now - w, n) && n < |history|
    ensures Earliest(history, now, w, history[n])
  {
    assert AllOut(history[..n], now - w);
  }

  /** The counts behind an answer. */
  ghost predicate Answers(v: Verdict, h: seq<int>, limits: Limits, block: bool, now: int) {
    var (w, max) := (limits.windowMs, limits.maxRequests);
    var inside := |InWindow(h, now - w, w)|;
    if inside < max then v == Verdict(true, max - inside - 1, w, false)
    else
      && v.allowed == !block && v.blocked == block && v.remaining == 0
      && (inside > 0 ==> Earliest(h, now, w, v.resetIn + now - w))
      && (inside == 0 ==> v.resetIn == w)
  }

  lemma AnswersCounted(h: seq<int>, limits: Limits, block: bool, now: int)
    requires Sorted(h) && Bounded(h, now)
    ensures Answers(VerdictOn(Active(h, now - limits.windowMs), limits, block, now), h, limits, block, now)
  {
    hide Sorted, Active, InWindow, Earliest;
    var n := InWindowIs(h, now, limits.windowMs);
    if n < |h| {
      EarliestIs(h, now, limits.windowMs, n);
    }
  }

  /** What an answer says, counted on the complete history: whether fewer than `maxRequests` times lie in
      the window; if so, how many more it can take after this one; if not, when the earliest leaves it. A
      limiter that does not block allows every check. */
  lemma AnswerMeaning(s: State, limits: Key -> Limits, key: Key, now: int)
    requires FixedReachable(s, limits) && s.clock <= now && !s.l.destroyed
    ensures Answers(Checked(s.l, key, limits(key), now).1, HistoryOf(s, key), limits(key), s.l.blockOnLimit, now)
  {
    hide *;
    FixedReachableInv(s, limits);
    FixedWorksOn(s, limits, key, now);
    RegularIs(HistoryOf(s, key), limits(key), now);
    LoggedAnswer(s, key, limits(key), now);
    AnswersCounted(HistoryOf(s, key), limits(key), s.l.blockOnLimit, now);
  }

  lemma RegularIs(history: seq<int>, limits: Limits, clock: int)
    requires Regular(history, limits, clock)
    ensures Sorted(history) && Bounded(history, clock)
  {
  }

  lemma LoggedAnswer(s: State, key: Key, limits: Limits, now: int)
    requires !s.l.destroyed
    ensures Checked(s.l, key, limits, now).1
            == VerdictOn(Trimmed(LogOf(s.l, key), now - limits.windowMs), limits, s.l.blockOnLimit, now)
  {
    AnswersOn(s, key, limits, now);
  }

  /** What usage says, counted on the complete history. */
  ghost predicate Counts(u: Option<Usage>, h: seq<int>, limits: Limits, now: int) {
    var inside := |InWindow(h, now - limits.windowMs, limits.windowMs)|;
    if inside == 0 then u == None
    else
      && u.Some? && u.value.count == inside
      && u.value.remaining == (if inside < limits.maxRequests then limits.maxRequests - inside else 0)
      && Earliest(h, now, limits.windowMs, u.value.resetIn + now - limits.windowMs)
  }

  lemma UsageCounted(h: seq<int>, limits: Limits, now: int)
    requires Sorted(h) && Bounded(h, now)
    ensures Counts(UsageOf(Active(h, now - limits.windowMs), limits, now), h, limits, now)
  {
    hide Sorted, Active, InWindow, Earliest;
    var n := InWindowIs(h, now, limits.windowMs);
    if n < |h| {
      EarliestIs(h, now, limits.windowMs, n);
    }
  }

  lemma UsageMeaning(s: State, limits: Key -> Limits, key: Key, maxRequests: int, now: int)
    requires FixedReachable(s, limits) && s.clock <= now
    ensures Counts(Used(s.l, key, maxRequests, None, now), HistoryOf(s, key), Limits(maxRequests, limits(key).windowMs), now)
  {
    hide *;
    UsageFromFullHistory(s, limits, key, None, maxRequests, now);
    FixedReachableInv(s, limits);
    FixedWorksOn(s, limits, key, now);
    RegularIs(HistoryOf(s, key), limits(key), now);
    UsageCounted(HistoryOf(s, key), Limits(maxRequests, limits(key).windowMs), now);
  }

  lemma {:induction false} StaysDestroyed(s: State, es: seq<Event>)
    requires s.l.destroyed
    ensures Run(s, es).l.destroyed
  {
    if es != [] {
      StaysDestroyed(s, es[..|es| - 1]);
      hide Pruned, Active, Trimmed;
    }
  }

  /** After `destroy` every check is refused for good, and no key has a usage. */
  lemma DestroyedRefuses(s: State, at: int, es: seq<Event>, key: Key, limits: Limits, now: int)
    requires at >= s.clock
    ensures var t := Apply(s, Event(at, Destroy));
            && Checked(Run(t, es).l, key, limits, now).1 == Verdict(false, 0, 0, true)
            && Used(t.l, key, limits.maxRequests, Some(limits.windowMs), now) == None
  {
    hide Run;
    StaysDestroyed(Apply(s, Event(at, Destroy)), es);
  }

  /** Every half-open window of `windowMs` holds at most `maxRequests` logged times. */
  lemma WindowNeverOverfull(s: State, limits: Key -> Limits, key: Key, t: int)
    requires FixedReachable(s, limits) && limits(key).maxRequests >= 0
    ensures |InWindow(HistoryOf(s, key), t, limits(key).windowMs)| <= limits(key).maxRequests
  {
    FixedReachableInv(s, limits);
    assert KeyInv(s, key) && FixedKey(s, key, limits(key));
    hide Inv, FixedInv, OldCount;
    var history, w, max := HistoryOf(s, key), limits(key).windowMs, limits(key).maxRequests;
    var a := ActiveIsSuffix(history, t);
    var b := ActiveIsSuffix(history, t + w);
    hide Spaced, Active;
    if a <= b {
      if a + max < |history| {
        SpacedAt(history, limits(key), a);
      }
      assert InWindow(history, t, w) == Range(a, b);
    } else {
      assert InWindow(history, t, w) == {};
    }
  }

  /** Steps between two checks of `key` that neither check nor reset it nor end the limiter. */
  predicate Quiet(e: Event, key: Key) {
    e.step != Destroy && e.step != Reset(key) && !(e.step.Check? && e.step.key == key)
  }

  lemma {:induction false} QuietKeepsHistory(s: State, es: seq<Event>, key: Key)
    requires forall i :: 0 <= i < |es| ==> Quiet(es[i], key)
    ensures HistoryOf(Run(s, es), key) == HistoryOf(s, key)
    ensures Run(s, es).l.destroyed == s.l.destroyed
  {
    if es != [] {
      QuietKeepsHistory(s, es[..|es| - 1], key);
      hide Run, Pruned, Active, Trimmed, Checked;
      QuietStep(Run(s, es[..|es| - 1]), es[|es| - 1], key);
      hide Apply;
    }
  }

  lemma QuietStep(s: State, e: Event, key: Key)
    requires Quiet(e, key)
    ensures HistoryOf(Apply(s, e), key) == HistoryOf(s, key) && Apply(s, e).l.destroyed == s.l.destroyed
  {
    hide Active, Trimmed;
  }

  /** When a blocking limiter refuses at `now` with `resetIn`, the key's next check, at any later time
      and after any steps that leave the key alone, is allowed exactly when `resetIn` has passed;
      with a limit below one it is never allowed. */
  lemma DenialTellsWhen(s: State, limits: Key -> Limits, key: Key, now: int, quiet: seq<Event>, later: int)
    requires FixedReachable(s, limits) && s.clock <= now && !s.l.destroyed && s.l.blockOnLimit
    requires Checked(s.l, key, limits(key), now).1.blocked
    requires Follows(quiet, limits) && forall i :: 0 <= i < |quiet| ==> Quiet(quiet[i], key)
    requires Run(CheckStep(s, key, limits(key), now), quiet).clock <= later
    ensures var t := Run(CheckStep(s, key, limits(key), now), quiet);
            var resetIn := Checked(s.l, key, limits(key), now).1.resetIn;
            Checked(t.l, key, limits(key), later).1.allowed <==>
              limits(key).maxRequests >= 1 && later - now >= resetIn
  {
    hide *;
    var refused := CheckStep(s, key, limits(key), now);
    var t := Run(refused, quiet);
    FixedReachableInv(s, limits);
    CheckApplies(s, key, limits(key), now);
    RefusalKeeps(s, key, limits(key), now);
    ApplyKeeps(s, Event(now, Check(key, limits(key))));
    FixedKeeps(s, Event(now, Check(key, limits(key))), limits);
    FixedRun(refused, quiet, limits);
    RunKeeps(refused, quiet);
    QuietKeepsHistory(refused, quiet, key);
    FixedWorksOn(s, limits, key, now);
    FixedWorksOn(t, limits, key, later);
    NextCheck(s.l, t.l, HistoryOf(s, key), key, limits(key), now, later);
  }

  lemma CheckApplies(s: State, key: Key, limits: Limits, now: int)
    requires s.clock <= now
    ensures Apply(s, Event(now, Check(key, limits))) == CheckStep(s, key, limits, now)
    ensures CheckStep(s, key, limits, now).clock == now
  {
    hide Checked, Active, Trimmed;
  }

  /** A refused check logs nothing. */
  lemma RefusalKeeps(s: State, key: Key, limits: Limits, now: int)
    requires !s.l.destroyed && s.l.blockOnLimit && Checked(s.l, key, limits, now).1.blocked
    ensures var t := CheckStep(s, key, limits, now);
            HistoryOf(t, key) == HistoryOf(s, key) && !t.l.destroyed && t.l.blockOnLimit
  {
    hide Active, Trimmed;
  }

  lemma FixedWorksOn(s: State, limits: Key -> Limits, key: Key, now: int)
    requires Inv(s) && FixedInv(s, limits) && s.clock <= now
    ensures Trimmed(LogOf(s.l, key), now - limits(key).windowMs)
            == Active(HistoryOf(s, key), now - limits(key).windowMs)
    ensures Regular(HistoryOf(s, key), limits(key), now)
  {
    assert KeyInv(s, key) && FixedKey(s, key, limits(key));
    hide Inv, FixedInv, Active, Trimmed, OldCount;
    WorksOnActive(s, key, limits(key), now);
    SpacedHistory(s, key, limits(key));
  }

  ghost predicate Regular(history: seq<int>, limits: Limits, clock: int) {
    Sorted(history) && Bounded(history, clock) && Spaced(history, limits) && (limits.maxRequests <= 0 ==> history == [])
  }

  lemma SpacedHistory(s: State, key: Key, limits: Limits)
    requires KeyInv(s, key) && FixedKey(s, key, limits)
    ensures Regular(HistoryOf(s, key), limits, s.clock)
  {
    hide OldCount;
  }

  lemma NextCheck(l: Limiter, m: Limiter, history: seq<int>, key: Key, limits: Limits, now: int, later: int)
    requires !l.destroyed && l.blockOnLimit && !m.destroyed && m.blockOnLimit
    requires Trimmed(LogOf(l, key), now - limits.windowMs) == Active(history, now - limits.windowMs)
    requires Trimmed(LogOf(m, key), later - limits.windowMs) == Active(history, later - limits.windowMs)
    requires Regular(history, limits, now) && Checked(l, key, limits, now).1.blocked
    ensures Checked(m, key, limits, later).1.allowed <==>
              limits.maxRequests >= 1 && later - now >= Checked(l, key, limits, now).1.resetIn
  {
    hide Regular, Active, Trimmed;
    ExactReset(history, limits, now, later);
  }

  lemma ExactReset(history: seq<int>, limits: Limits, now: int, later: int)
    requires Regular(history, limits, now)
    requires !Admits(Active(history, now - limits.windowMs), limits)
    ensures var resetIn := VerdictOn(Active(history, now - limits.windowMs), limits, true, now).resetIn;
            Admits(Active(history, later - limits.windowMs), limits)
            <==> limits.maxRequests >= 1 && later - now >= resetIn
  {
    var w, max := limits.windowMs, limits.maxRequests;
    var a := ActiveIsSuffix(history, now - w);
    var b := ActiveIsSuffix(history, later - w);
    if max >= 1 {
      NoMoreThanLimit(history, limits, a, now);
    }
  }

  lemma NoMoreThanLimit(history: seq<int>, limits: Limits, a: nat, now: int)
    requires Spaced(history, limits) && limits.maxRequests >= 0
    requires forall i :: 0 <= i < |history| ==> history[i] <= now
    requires CutAt(history, now - limits.windowMs, a)
    ensures |history| - a <= limits.maxRequests
  {
    hide Spaced;
    if a + limits.maxRequests < |history| {
      SpacedAt(history, limits, a);
    }
  }

  /** A limit below one refuses every check, though the answer names a reset time. */
  lemma ZeroLimitNeverAdmits(l: Limiter, key: Key, limits: Limits, now: int)
    requires limits.maxRequests <= 0 && l.blockOnLimit
    ensures Checked(l, key, limits, now).1.blocked
  {
  }

  // ---------------------------------------------------------------------------------------------
  // Pruning key by key
  // ---------------------------------------------------------------------------------------------

  function KeyPruned(l: Limiter, key: Key, now: int): Limiter
    requires key in l.logs
  {
    if ActiveOf(l, key, now) == [] then l.(logs := l.logs - {key}, windows := l.windows - {key})
    else l.(logs := l.logs[key := ActiveOf(l, key, now)])
  }

  ghost predicate SameFor(l: Limiter, m: Limiter, k: Key) {
    && (k in l.logs <==> k in m.logs) && LogOf(l, k) == LogOf(m, k)
    && (k in l.windows <==> k in m.windows) && WindowOf(l, k) == WindowOf(m, k)
  }

  ghost function Target(before: Limiter, todo: set<Key>, k: Key, now: int): Limiter {
    if k in todo then before else Pruned(before, now)
  }

  /** `l` is `before` with the keys outside `todo` pruned. */
  ghost predicate PartlyPruned(before: Limiter, l: Limiter, todo: set<Key>, now: int) {
    && l == before.(logs := l.logs, windows := l.windows)
    && todo <= before.logs.Keys
    && (forall k :: SameFor(Target(before, todo, k, now), l, k))
  }

  lemma PrunedNone(l: Limiter, now: int)
    ensures PartlyPruned(l, l, l.logs.Keys, now)
  {
    forall k ensures SameFor(Target(l, l.logs.Keys, k, now), l, k) {
    }
  }

  lemma KeyPrunedAlike(before: Limiter, l: Limiter, key: Key, now: int)
    requires key in before.logs && key in l.logs && SameFor(before, l, key) && before.defaults == l.defaults
    ensures SameFor(Pruned(before, now), KeyPruned(l, key, now), key)
  {
    assert ActiveOf(l, key, now) == ActiveOf(before, key, now);
    hide Active;
  }

  lemma PrunedOneMore(before: Limiter, l: Limiter, todo: set<Key>, key: Key, now: int)
    requires PartlyPruned(before, l, todo, now) && key in todo && key in l.logs
    ensures PartlyPruned(before, KeyPruned(l, key, now), todo - {key}, now)
  {
    var m := KeyPruned(l, key, now);
    forall k ensures SameFor(Target(before, todo - {key}, k, now), m, k) {
      assert SameFor(Target(before, todo, k, now), l, k);
      if k == key {
        KeyPrunedAlike(before, l, key, now);
      } else {
        hide Pruned, Active;
      }
    }
  }

  lemma PrunedAll(before: Limiter, l: Limiter, now: int)
    requires PartlyPruned(before, l, {}, now)
    ensures l == Pruned(before, now)
  {
    var m := Pruned(before, now);
    assert m == before.(logs := m.logs, windows := m.windows);
    hide Pruned;
    forall k ensures k in m.windows <==> k in l.windows {
      assert SameFor(Target(before, {}, k, now), l, k);
    }
    forall k | k in m.windows ensures m.windows[k] == l.windows[k] {
      assert SameFor(Target(before, {}, k, now), l, k);
    }
    assert m.windows == l.windows;
    forall k ensures k in m.logs <==> k in l.logs {
      assert SameFor(Target(before, {}, k, now), l, k);
    }
    forall k | k in m.logs ensures m.logs[k] == l.logs[k] {
      assert SameFor(Target(before, {}, k, now), l, k);
    }
    assert m.logs == l.logs;
  }

  // ---------------------------------------------------------------------------------------------
  // The object
  // ---------------------------------------------------------------------------------------------

  class RateLimiter {
    var logs: map<Key, seq<int>>
    var keyWindowMs: map<Key, int>
    var destroyed: bool
    const defaults: Limits
    const blockOnLimit: bool

    function Value(): Limiter
      reads this
    {
      Limiter(logs, keyWindowMs, defaults, blockOnLimit, destroyed)
    }

    constructor (defaults: Limits, blockOnLimit: bool)
      ensures Value() == Limiter(map[], map[], defaults, blockOnLimit, false)
    {
      logs, keyWindowMs, destroyed := map[], map[], false;
      this.defaults, this.blockOnLimit := defaults, blockOnLimit;
    }

    method Check(key: Key, limits: Limits, now: int) returns (v: Verdict)
      modifies this
      ensures (Value(), v) == Checked(old(Value()), key, limits, now)
    {
      if destroyed {
        return Verdict(false, 0, 0, true);
      }
      var cutoff := now - limits.windowMs;
      keyWindowMs := keyWindowMs[key := limits.windowMs];
      var log := if key in logs then logs[key] else [];
      var index := 0;
      while index < |log| && log[index] <= cutoff
        invariant 0 <= index <= |log|
        invariant Trimmed(log[index..], cutoff) == Trimmed(log, cutoff)
      {
        assert log[index..][1..] == log[index + 1..];
        index := index + 1;
      }
      log := log[index..];
      if |log| >= limits.maxRequests {
        logs := logs[key := log];
        var oldestInWindow := if log == [] then now else log[0];
        return Verdict(!blockOnLimit, 0, oldestInWindow + limits.windowMs - now, blockOnLimit);
      }
      log := log + [now];
      logs := logs[key := log];
      v := Verdict(true, Max(0, limits.maxRequests - |log|), limits.windowMs, false);
    }

    method GetUsage(key: Key, maxRequests: int, window: Option<int>, now: int) returns (u: Option<Usage>)
      ensures u == Used(Value(), key, maxRequests, window, now)
    {
      var windowMs := if window.Some? then window.value
                      else if key in keyWindowMs then keyWindowMs[key] else defaults.windowMs;
      if key !in logs {
        return None;
      }
      var active := Filtered(logs[key], now - windowMs);
      if active == [] {
        return None;
      }
      u := Some(Usage(|active|, Max(0, maxRequests - |active|), active[0] + windowMs - now));
    }

    method PruneExpiredLogs(now: int)
      modifies this
      ensures Value() == Pruned(old(Value()), now)
    {
      hide Pruned;
      ghost var before := Value();
      var todo := logs.Keys;
      PrunedNone(before, now);
      while todo != {}
        invariant PartlyPruned(before, Value(), todo, now)
        decreases todo
      {
        var key :| key in todo;
        ghost var last := Value();
        assert SameFor(Target(before, todo, key, now), last, key);
        var windowMs := if key in keyWindowMs then keyWindowMs[key] else defaults.windowMs;
        var active := Filtered(logs[key], now - windowMs);
        if active == [] {
          logs := logs - {key};
          keyWindowMs := keyWindowMs - {key};
        } else {
          logs := logs[key := active];
        }
        assert Value() == KeyPruned(last, key, now);
        PrunedOneMore(before, last, todo, key, now);
        todo := todo - {key};
      }
      PrunedAll(before, Value(), now);
    }

    method Reset(key: Key)
      modifies this
      ensures Value() == ResetFor(old(Value()), key)
    {
      logs := logs - {key};
      keyWindowMs := keyWindowMs - {key};
    }

    method Destroy()
      modifies this
      ensures Value() == Destroyed(old(Value()))
    {
      logs, keyWindowMs, destroyed := map[], map[], true;
    }
  }

  method Filtered(log: seq<int>, cutoff: int) returns (r: seq<int>)
    ensures r == Active(log, cutoff)
  {
    r := [];
    for i := 0 to |log|
      invariant r == Active(log[..i], cutoff)
    {
      assert log[..i + 1][..i] == log[..i];
      if log[i] > cutoff {
        r := r + [log[i]];
      }
    }
    assert log[..|log|] == log;
  }
}
