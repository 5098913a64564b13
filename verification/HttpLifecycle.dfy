/** Starting and closing the HTTP server (src/http-server-lifecycle.ts).

    `start` and `close` may be called any number of times, at any moment. Each stretch between two
    awaits is one step; what the hooks, the socket and the connections do in between are steps too. */
module HttpLifecycle {
  datatype Signal = SIGINT | SIGTERM

  /** The socket: `Binding` after `listen` was called, `Bound` once it listens, `Open` once the
      listening event was delivered, `Down` after `server.close`. A server closed while only bound
      never delivers the event. */
  datatype Socket = Unbound | Binding | Bound | Open | Down

  predicate IsListening(s: Socket) { s == Bound || s == Open }

  /** The variables of `createHttpServerLifecycle` and its server. */
  datatype Fields = Fields(
    started: bool,
    closed: bool,
    startPromise: bool,
    closePromise: bool,
    handlers: set<Signal>,
    socket: Socket,
    registersSignals: bool)

  /** Where the body of the start promise stands. */
  datatype StartStage =
    | NotBegun | BeforeListen | AwaitListening | ListenResolved | ListenRejected
    | ClosingAfterListen | AfterListen | AwaitClose | Succeeded | Rejected

  /** Where the body of the close promise stands. */
  datatype CloseStage = NotClosing | Closing(serverDone: bool, cleanup: Cleanup) | Settled

  datatype Cleanup = Scheduled | Running | Finished

  datatype Call = Waiting | Fulfilled | Failed | Refused

  datatype State = State(
    f: Fields,
    start: StartStage,
    close: CloseStage,
    calls: map<nat, Call>,   // the calls of `start`
    starter: nat,            // the call that made the start promise
    cleanups: nat,           // how often `cleanup` was called
    listens: nat)            // how often `server.listen` was called

  function Init(registersSignals: bool): State {
    State(Fields(false, false, false, false, {}, Unbound, registersSignals), NotBegun, NotClosing, map[], 0, 0, 0)
  }

  datatype Step =
    | StartCall(id: nat)
    | BeforeListenDone(ok: bool)
    | BindDone(ok: bool)
    | ListeningEvent
    | ResumeStart
    | ServerClosedForStart
    | AfterListenDone(ok: bool)
    | StartFails
    | StartSettles(id: nat)
    | CloseCall
    | CleanupBegins
    | CleanupEnds
    | ServerClosed
    | CloseSettles

  // ---------------------------------------------------------------------------------------------
  // What each stretch does to the variables
  // ---------------------------------------------------------------------------------------------

  function ServerClosing(f: Fields): Fields {
    if IsListening(f.socket) then f.(socket := Down) else f
  }

  function CloseBegun(f: Fields): Fields {
    if f.closePromise then f
    else ServerClosing(f.(closed := true, closePromise := true, handlers := {}))
  }

  function HandlersRegistered(f: Fields): Fields {
    if f.registersSignals then f.(handlers := {SIGINT, SIGTERM}) else f
  }

  datatype Entry = RefuseClosed | AlreadyStarted | Join | Begin

  function Entered(f: Fields): Entry {
    if f.closed then RefuseClosed
    else if f.started then AlreadyStarted
    else if f.startPromise then Join
    else Begin
  }

  // ---------------------------------------------------------------------------------------------
  // Steps
  // ---------------------------------------------------------------------------------------------

  function StartCallStep(s: State, id: nat): State {
    if id in s.calls then s
    else match Entered(s.f)
         case RefuseClosed => s.(calls := s.calls[id := Refused])
         case AlreadyStarted => s.(calls := s.calls[id := Fulfilled])
         case Join => s.(calls := s.calls[id := Waiting])
         case Begin => s.(f := s.f.(startPromise := true), calls := s.calls[id := Waiting],
                          start := BeforeListen, starter := id)
  }

  function CloseCallStep(s: State): State {
    if s.f.closePromise then s
    else s.(f := CloseBegun(s.f), close := Closing(!IsListening(s.f.socket), Scheduled))
  }

  /** The catch block of the start promise. */
  function Caught(s: State): State { CloseCallStep(s).(start := AwaitClose) }

  function BeforeListenStep(s: State, ok: bool): State {
    if s.start != BeforeListen then s
    else if !ok || s.f.closed then Caught(s)
    else s.(f := s.f.(socket := Binding), start := AwaitListening, listens := s.listens + 1)
  }

  function BindStep(s: State, ok: bool): State {
    if s.f.socket != Binding then s
    else if ok then s.(f := s.f.(socket := Bound))
    else s.(f := s.f.(socket := Unbound), start := ListenRejected)
  }

  function ListeningStep(s: State): State {
    if s.f.socket != Bound then s else s.(f := s.f.(socket := Open), start := ListenResolved)
  }

  function ResumeStep(s: State): State {
    if s.start == ListenRejected then Caught(s)
    else if s.start != ListenResolved then s
    else if s.f.closed then s.(f := ServerClosing(s.f), start := ClosingAfterListen)
    else s.(f := HandlersRegistered(s.f.(started := true)), start := AfterListen)
  }

  function ServerClosedForStartStep(s: State): State {
    if s.start != ClosingAfterListen then s else Caught(s)
  }

  function AfterListenStep(s: State, ok: bool): State {
    if s.start != AfterListen then s
    else if ok then s.(start := Succeeded)
    else Caught(s)
  }

  function StartFailsStep(s: State): State {
    if s.start == AwaitClose && s.close == Settled then s.(start := Rejected) else s
  }

  predicate StartOver(stage: StartStage) { stage == Succeeded || stage == Rejected }

  function StartSettlesStep(s: State, id: nat): State {
    if id !in s.calls || s.calls[id] != Waiting || !StartOver(s.start) then s
    else s.(f := s.f.(startPromise := s.f.startPromise && id != s.starter),
            calls := s.calls[id := if s.start == Succeeded then Fulfilled else Failed])
  }

  function CleanupBeginsStep(s: State): State {
    if s.close.Closing? && s.close.cleanup == Scheduled
    then s.(close := s.close.(cleanup := Running), cleanups := s.cleanups + 1) else s
  }

  function CleanupEndsStep(s: State): State {
    if s.close.Closing? && s.close.cleanup == Running then s.(close := s.close.(cleanup := Finished)) else s
  }

  function ServerClosedStep(s: State): State {
    if s.close.Closing? then s.(close := s.close.(serverDone := true)) else s
  }

  function CloseSettlesStep(s: State): State {
    if s.close == Closing(true, Finished) then s.(f := s.f.(started := false), close := Settled) else s
  }

  function Apply(s: State, step: Step): State {
    match step
    case StartCall(id) => StartCallStep(s, id)
    case BeforeListenDone(ok) => BeforeListenStep(s, ok)
    case BindDone(ok) => BindStep(s, ok)
    case ListeningEvent => ListeningStep(s)
    case ResumeStart => ResumeStep(s)
    case ServerClosedForStart => ServerClosedForStartStep(s)
    case AfterListenDone(ok) => AfterListenStep(s, ok)
    case StartFails => StartFailsStep(s)
    case StartSettles(id) => StartSettlesStep(s, id)
    case CloseCall => CloseCallStep(s)
    case CleanupBegins => CleanupBeginsStep(s)
    case CleanupEnds => CleanupEndsStep(s)
    case ServerClosed => ServerClosedStep(s)
    case CloseSettles => CloseSettlesStep(s)
  }

  function Run(s: State, steps: seq<Step>): State {
    if steps == [] then s else Apply(Run(s, steps[..|steps| - 1]), steps[|steps| - 1])
  }

  // ---------------------------------------------------------------------------------------------
  // The invariant
  // ---------------------------------------------------------------------------------------------

  /** The socket is only being opened, or open against the will of `close`, while the start promise
      is about to deal with it. */
  ghost predicate SocketInv(s: State) {
    && (s.f.socket == Binding || s.f.socket == Bound ==> s.start == AwaitListening)
    && (s.f.socket == Open && s.f.closed ==> s.start == ListenResolved)
    && (s.start == NotBegun || s.start == BeforeListen ==> s.f.socket == Unbound)
    && (s.start == AwaitListening ==> s.f.socket in {Binding, Bound, Down})
    && s.listens <= 1
    && (s.start == NotBegun || s.start == BeforeListen ==> s.listens == 0)
  }

  ghost predicate CloseInv(s: State) {
    && (s.f.closed <==> s.f.closePromise)
    && (s.f.closed <==> s.close != NotClosing)
    && s.cleanups == (if s.close == NotClosing || (s.close.Closing? && s.close.cleanup == Scheduled) then 0 else 1)
    && (s.f.closed ==> s.f.handlers == {})
    && (s.close == Settled ==> !s.f.started)
    && (s.start in {AwaitClose, Rejected, ClosingAfterListen} ==> s.f.closed)
  }

  ghost predicate StartInv(s: State) {
    && (s.start == NotBegun ==> !s.f.started && !s.f.startPromise)
    && (s.start == NotBegun ==> forall id :: id in s.calls ==> s.calls[id] != Waiting)
    && (s.start != NotBegun && !StartOver(s.start) ==> s.starter in s.calls && s.calls[s.starter] == Waiting)
    && (s.start != NotBegun && !s.f.startPromise ==> StartOver(s.start) && (s.f.started || s.f.closed))
    && (s.start == AfterListen || s.start == Succeeded ==> s.f.started || s.f.closed)
    && (s.f.started ==> s.start in {AfterListen, Succeeded, AwaitClose, Rejected})
    && (s.start != NotBegun && !StartOver(s.start) ==> s.f.startPromise)
  }

  ghost predicate Inv(s: State) { SocketInv(s) && CloseInv(s) && StartInv(s) }

  lemma CaughtKeeps(s: State)
    requires Inv(s) && s.start in {BeforeListen, ListenRejected, ClosingAfterListen, AfterListen}
    ensures Inv(Caught(s))
  {
  }

  /** Steps of the start promise. */
  lemma StartStepKeeps(s: State, step: Step)
    requires Inv(s)
    requires step in {BeforeListenDone(true), BeforeListenDone(false), BindDone(true), BindDone(false),
                      ListeningEvent, ResumeStart, ServerClosedForStart, AfterListenDone(true), AfterListenDone(false)}
    ensures Inv(Apply(s, step))
  {
    if s.start in {BeforeListen, ListenRejected, ClosingAfterListen, AfterListen} {
      CaughtKeeps(s);
    }
    hide Caught;
  }

  /** Calls, and steps of the close promise. */
  lemma OtherStepKeeps(s: State, step: Step)
    requires Inv(s)
    requires step.StartCall? || step.StartSettles? || step in {StartFails, CloseCall, CleanupBegins, CleanupEnds, ServerClosed, CloseSettles}
    ensures Inv(Apply(s, step))
  {
  }

  lemma ApplyKeeps(s: State, step: Step)
    requires Inv(s)
    ensures Inv(Apply(s, step))
  {
    hide Inv, Apply;
    if step.StartCall? || step.StartSettles? || step in {StartFails, CloseCall, CleanupBegins, CleanupEnds, ServerClosed, CloseSettles} {
      OtherStepKeeps(s, step);
    } else {
      StartStepKeeps(s, step);
    }
  }

  lemma {:induction false} RunKeeps(registers: bool, steps: seq<Step>)
    ensures Inv(Run(Init(registers), steps))
  {
    if steps != [] {
      RunKeeps(registers, steps[..|steps| - 1]);
      hide Inv, Apply;
      ApplyKeeps(Run(Init(registers), steps[..|steps| - 1]), steps[|steps| - 1]);
    }
  }

  // ---------------------------------------------------------------------------------------------
  // Theorems over whole runs
  // ---------------------------------------------------------------------------------------------

  /** `cleanup` runs at most once, exactly once by the time `close` has settled; `listen` is called at
      most once; a closed lifecycle holds no signal handlers. */
  lemma CleanupAtMostOnce(registers: bool, steps: seq<Step>)
    ensures var s := Run(Init(registers), steps);
            && s.cleanups <= 1 && s.listens <= 1
            && (s.close == Settled ==> s.cleanups == 1)
            && (s.f.closed ==> s.f.handlers == {})
  {
    RunKeeps(registers, steps);
  }

  ghost predicate AllStartsSettled(s: State) {
    forall id :: id in s.calls ==> s.calls[id] != Waiting
  }

  /** Once `close` and every start have settled, the server is not listening and nothing is under way
      that would make it. */
  lemma ClosedMeansNotListening(registers: bool, steps: seq<Step>)
    requires Run(Init(registers), steps).close == Settled && AllStartsSettled(Run(Init(registers), steps))
    ensures Run(Init(registers), steps).f.socket in {Unbound, Down}
  {
    RunKeeps(registers, steps);
  }

  lemma RunConcat(s: State, a: seq<Step>, b: seq<Step>)
    ensures Run(s, a + b) == Run(Run(s, a), b)
  {
    hide Apply;
    if b == [] {
      assert a + b == a;
    } else {
      RunConcat(s, a, b[..|b| - 1]);
      assert (a + b)[..|a + b| - 1] == a + b[..|b| - 1];
    }
  }

  lemma ClosedStep(s: State, step: Step)
    requires s.f.closed
    ensures Apply(s, step).f.closed && Apply(s, step).listens == s.listens
  {
  }

  /** Once a close has begun, `listen` is not called any more. */
  lemma {:induction false} ClosedStays(s: State, steps: seq<Step>)
    requires s.f.closed
    ensures Run(s, steps).f.closed && Run(s, steps).listens == s.listens
  {
    if steps != [] {
      ClosedStays(s, steps[..|steps| - 1]);
      hide Apply;
      ClosedStep(Run(s, steps[..|steps| - 1]), steps[|steps| - 1]);
    }
  }

  /** What a close that found the server listening or not, and has seen `seen` since, may have reached. */
  ghost predicate Awaited(c: CloseStage, listening: bool, seen: seq<Step>) {
    && c != NotClosing
    && (c == Settled || c.serverDone ==> !listening || ServerClosed in seen)
    && (c == Settled || c.cleanup != Scheduled ==> CleanupBegins in seen)
    && (c == Settled || c.cleanup == Finished ==> CleanupEnds in seen)
  }

  lemma AwaitedStep(s: State, step: Step, listening: bool, seen: seq<Step>)
    requires Awaited(s.close, listening, seen) && s.f.closePromise
    ensures Awaited(Apply(s, step).close, listening, seen + [step]) && Apply(s, step).f.closePromise
  {
    assert step in seen + [step] && forall x :: x in seen ==> x in seen + [step];
  }

  lemma {:induction false} AwaitedRun(s: State, listening: bool, more: seq<Step>)
    requires Awaited(s.close, listening, []) && s.f.closePromise
    ensures Awaited(Run(s, more).close, listening, more) && Run(s, more).f.closePromise
  {
    if more != [] {
      var front := more[..|more| - 1];
      AwaitedRun(s, listening, front);
      AwaitedStep(Run(s, front), more[|more| - 1], listening, front);
      assert front + [more[|more| - 1]] == more;
      hide Apply, Awaited;
    }
  }

  /** However a close began, it settles only after `cleanup` ran to its end and, if the server was
      listening, after the server closed. */
  lemma CloseAwaitsBoth(s: State, step: Step, more: seq<Step>)
    requires !s.f.closePromise && Apply(s, step).f.closePromise
    requires Run(Apply(s, step), more).close == Settled
    ensures CleanupBegins in more && CleanupEnds in more
    ensures IsListening(s.f.socket) ==> ServerClosed in more
  {
    BeginsAwaiting(s, step);
    AwaitedRun(Apply(s, step), IsListening(s.f.socket), more);
  }

  lemma BeginsAwaiting(s: State, step: Step)
    requires !s.f.closePromise && Apply(s, step).f.closePromise
    ensures Awaited(Apply(s, step).close, IsListening(s.f.socket), [])
  {
  }

  /** A start begun at any time after a close call is refused, and changes nothing else. */
  lemma StartAfterCloseIsRefused(registers: bool, before: seq<Step>, after: seq<Step>, id: nat)
    requires id !in Run(Init(registers), before + [CloseCall] + after).calls
    ensures var s := Run(Init(registers), before + [CloseCall] + after);
            Apply(s, StartCall(id)) == s.(calls := s.calls[id := Refused])
  {
    var s0 := Init(registers);
    var s1 := Run(s0, before);
    RunKeeps(registers, before);
    RunConcat(s0, before + [CloseCall], after);
    RunConcat(s0, before, [CloseCall]);
    assert [CloseCall][..0] == [];
    assert Run(s1, [CloseCall]) == Apply(Run(s1, []), CloseCall);
    ClosedStays(Run(s1, [CloseCall]), after);
  }

  ghost predicate AllOver(s: State) {
    s.close == Settled && AllStartsSettled(s)
  }

  lemma StillFinished(s: State, step: Step)
    requires Inv(s) && AllOver(s)
    ensures AllOver(Apply(s, step))
  {
  }

  /** ... and it stays that way whatever comes. */
  lemma {:induction false} NeverListensAgain(registers: bool, steps: seq<Step>, later: seq<Step>)
    requires AllOver(Run(Init(registers), steps))
    ensures AllOver(Run(Init(registers), steps + later))
    ensures Run(Init(registers), steps + later).f.socket in {Unbound, Down}
    decreases |later|
  {
    if later == [] {
      assert steps + later == steps;
    } else {
      var front := later[..|later| - 1];
      NeverListensAgain(registers, steps, front);
      hide Apply, Inv, AllOver;
      assert (steps + later)[..|steps + later| - 1] == steps + front;
      RunKeeps(registers, steps + front);
      StillFinished(Run(Init(registers), steps + front), later[|later| - 1]);
    }
    ClosedMeansNotListening(registers, steps + later);
  }

  // ---------------------------------------------------------------------------------------------
  // When a start never settles
  // ---------------------------------------------------------------------------------------------

  /** The start waits for a listening event that a close has taken away. */
  ghost predicate Stranded(s: State) {
    s.start == AwaitListening && s.f.socket == Down
  }

  ghost predicate StillWaits(s: State, id: nat) {
    id in s.calls && s.calls[id] == Waiting
  }

  lemma StrandedStep(s: State, step: Step)
    requires Inv(s) && Stranded(s)
    ensures Stranded(Apply(s, step))
    ensures forall id :: StillWaits(s, id) ==> StillWaits(Apply(s, step), id)
  {
  }

  /** A stranded start stays so, and every call that waits for it waits for good. */
  lemma {:induction false} StrandedForever(s: State, more: seq<Step>, id: nat)
    requires Inv(s) && Stranded(s) && StillWaits(s, id)
    ensures Inv(Run(s, more)) && Stranded(Run(s, more)) && StillWaits(Run(s, more), id)
  {
    if more != [] {
      StrandedForever(s, more[..|more| - 1], id);
      hide Apply, Inv, Stranded, StillWaits;
      ApplyKeeps(Run(s, more[..|more| - 1]), more[|more| - 1]);
      StrandedStep(Run(s, more[..|more| - 1]), more[|more| - 1]);
    }
  }

  /** A schedule under which everything that can go on does. */
  function ToListening(): seq<Step> { [BeforeListenDone(true), BindDone(true), ListeningEvent, ResumeStart] }

  function ToClose(): seq<Step> { [ServerClosedForStart, AfterListenDone(true), ServerClosed, CleanupBegins] }

  function ToEnd(id: nat): seq<Step> { [CleanupEnds, CloseSettles, StartFails, StartSettles(id)] }

  lemma RunOfFour(s: State, a: Step, b: Step, c: Step, d: Step)
    ensures Run(s, [a, b, c, d]) == Apply(Apply(Apply(Apply(s, a), b), c), d)
  {
    var es := [a, b, c, d];
    assert es[..3] == [a, b, c] && [a, b, c][..2] == [a, b] && [a, b][..1] == [a] && [a][..0] == [];
    hide Apply;
    assert Run(s, [a]) == Apply(Run(s, []), a);
    assert Run(s, [a, b]) == Apply(Run(s, [a]), b);
    assert Run(s, [a, b, c]) == Apply(Run(s, [a, b]), c);
  }

  lemma PastListening(s: State, id: nat)
    requires Inv(s) && StillWaits(s, id) && !Stranded(s)
    ensures var t := Run(s, ToListening());
            && Inv(t) && StillWaits(t, id)
            && t.start in {ClosingAfterListen, AfterListen, AwaitClose, Succeeded, Rejected}
  {
    RunOfFour(s, BeforeListenDone(true), BindDone(true), ListeningEvent, ResumeStart);
    var s1 := Apply(s, BeforeListenDone(true));
    ApplyKeeps(s, BeforeListenDone(true));
    assert StillWaits(s1, id) && s1.start != NotBegun && s1.start != BeforeListen && !Stranded(s1);
    var s2 := Apply(s1, BindDone(true));
    ApplyKeeps(s1, BindDone(true));
    BindGoesOn(s1, id);
    ApplyKeeps(s2, ListeningEvent);
    hide Run;
    var s3 := Apply(s2, ListeningEvent);
    EventGoesOn(s2, id);
    ApplyKeeps(s3, ResumeStart);
    ResumeGoesOn(s3, id);
    hide Apply, Inv, StillWaits;
    assert Run(s, ToListening()) == Apply(s3, ResumeStart);
  }

  lemma BindGoesOn(s: State, id: nat)
    requires Inv(s) && StillWaits(s, id) && s.start != NotBegun && s.start != BeforeListen && !Stranded(s)
    ensures var t := Apply(s, BindDone(true));
            StillWaits(t, id) && t.start != NotBegun && t.start != BeforeListen
            && (t.start == AwaitListening ==> t.f.socket == Bound)
  {
  }

  lemma EventGoesOn(s: State, id: nat)
    requires StillWaits(s, id) && s.start != NotBegun && s.start != BeforeListen
    requires s.start == AwaitListening ==> s.f.socket == Bound
    ensures var t := Apply(s, ListeningEvent);
            StillWaits(t, id) && t.start != NotBegun && t.start != BeforeListen && t.start != AwaitListening
  {
  }

  lemma ResumeGoesOn(s: State, id: nat)
    requires StillWaits(s, id) && s.start != NotBegun && s.start != BeforeListen && s.start != AwaitListening
    ensures var t := Apply(s, ResumeStart);
            && StillWaits(t, id)
            && t.start in {ClosingAfterListen, AfterListen, AwaitClose, Succeeded, Rejected}
  {
  }

  lemma PastClosing(s: State, id: nat)
    requires Inv(s) && StillWaits(s, id)
    requires s.start in {ClosingAfterListen, AfterListen, AwaitClose, Succeeded, Rejected}
    ensures var t := Run(s, ToClose());
            && StillWaits(t, id) && t.start in {AwaitClose, Succeeded, Rejected}
            && (t.start == AwaitClose ==>
                  t.close == Settled || (t.close.Closing? && t.close.serverDone && t.close.cleanup != Scheduled))
  {
    RunOfFour(s, ServerClosedForStart, AfterListenDone(true), ServerClosed, CleanupBegins);
    hide Run;
    var s1 := Apply(s, ServerClosedForStart);
    ApplyKeeps(s, ServerClosedForStart);
    assert StillWaits(s1, id) && s1.start in {AfterListen, AwaitClose, Succeeded, Rejected};
    var s2 := Apply(s1, AfterListenDone(true));
    ApplyKeeps(s1, AfterListenDone(true));
    assert StillWaits(s2, id) && s2.start in {AwaitClose, Succeeded, Rejected};
    assert s2.start == AwaitClose ==> s2.close != NotClosing;
  }

  lemma PastEnd(s: State, id: nat)
    requires StillWaits(s, id) && s.start in {AwaitClose, Succeeded, Rejected}
    requires s.start == AwaitClose ==>
               s.close == Settled || (s.close.Closing? && s.close.serverDone && s.close.cleanup != Scheduled)
    ensures var t := Run(s, ToEnd(id)); id in t.calls && t.calls[id] != Waiting
  {
    RunOfFour(s, CleanupEnds, CloseSettles, StartFails, StartSettles(id));
    hide Run;
  }

  /** A start call that has not settled can still settle, in some continuation, if and only if it is
      not stranded. */
  lemma SettlesUnlessStranded(registers: bool, steps: seq<Step>, id: nat)
    requires StillWaits(Run(Init(registers), steps), id)
    ensures var s := Run(Init(registers), steps);
            !Stranded(s) <==> exists more :: !StillWaits(Run(s, more), id)
  {
    RunKeeps(registers, steps);
    var s := Run(Init(registers), steps);
    hide Run, Apply, Inv;
    if Stranded(s) {
      forall more ensures StillWaits(Run(s, more), id) {
        StrandedForever(s, more, id);
      }
    } else {
      PastListening(s, id);
      PastClosing(Run(s, ToListening()), id);
      PastEnd(Run(Run(s, ToListening()), ToClose()), id);
      RunConcat(Run(s, ToListening()), ToClose(), ToEnd(id));
      RunConcat(s, ToListening(), ToClose() + ToEnd(id));
      assert !StillWaits(Run(s, ToListening() + (ToClose() + ToEnd(id))), id);
    }
  }

  /** A close that lands between the bind and its event strands the start. */
  lemma StartCanHang()
    ensures var s := Run(Init(false), [StartCall(1), BeforeListenDone(true), BindDone(true), CloseCall]);
            Stranded(s) && StillWaits(s, 1)
  {
    RunOfFour(Init(false), StartCall(1), BeforeListenDone(true), BindDone(true), CloseCall);
  }

  // ---------------------------------------------------------------------------------------------
  // What the outcome of a start means
  // ---------------------------------------------------------------------------------------------

  ghost predicate Holds(s: State, outcome: Call, id: nat) {
    id in s.calls && s.calls[id] == outcome
  }

  /** Up, reachable, and stopped by the signals it was asked to handle. */
  ghost predicate Serving(s: State, registers: bool) {
    && s.f.started && !s.f.closed && s.f.socket == Open && s.listens == 1
    && s.f.handlers == (if registers then {SIGINT, SIGTERM} else {})
  }

  ghost predicate OutcomeInv(s: State, registers: bool) {
    && s.f.registersSignals == registers
    && (s.f.started && !s.f.closed ==> Serving(s, registers))
    && (!s.f.started ==> s.f.handlers == {})
    && (s.start in {AwaitListening, ListenResolved, AfterListen, Succeeded} ==> s.listens == 1)
    && (s.start == ListenResolved && !s.f.closed ==> s.f.socket == Open)
    && (s.start == Rejected ==> s.close == Settled)
    && (forall id :: id in s.calls && s.calls[id] == Fulfilled ==> s.listens == 1 && (s.f.started || s.f.closed))
    && (forall id :: id in s.calls && s.calls[id] == Failed ==> s.start == Rejected && s.close == Settled)
    && (forall id :: id in s.calls && s.calls[id] == Refused ==> s.f.closed)
  }

  lemma OutcomeStartStep(s: State, step: Step, registers: bool)
    requires Inv(s) && OutcomeInv(s, registers)
    requires step in {BeforeListenDone(true), BeforeListenDone(false), BindDone(true), BindDone(false),
                      ListeningEvent, ResumeStart, ServerClosedForStart, AfterListenDone(true), AfterListenDone(false)}
    ensures OutcomeInv(Apply(s, step), registers)
  {
    assert Apply(s, step).calls == s.calls;
  }

  lemma OutcomeOtherStep(s: State, step: Step, registers: bool)
    requires Inv(s) && OutcomeInv(s, registers)
    requires step.StartCall? || step.StartSettles? || step in {StartFails, CloseCall, CleanupBegins, CleanupEnds, ServerClosed, CloseSettles}
    ensures OutcomeInv(Apply(s, step), registers)
  {
  }

  lemma OutcomeStep(s: State, step: Step, registers: bool)
    requires Inv(s) && OutcomeInv(s, registers)
    ensures OutcomeInv(Apply(s, step), registers)
  {
    hide Inv, OutcomeInv, Apply;
    if step.StartCall? || step.StartSettles? || step in {StartFails, CloseCall, CleanupBegins, CleanupEnds, ServerClosed, CloseSettles} {
      OutcomeOtherStep(s, step, registers);
    } else {
      OutcomeStartStep(s, step, registers);
    }
  }

  lemma {:induction false} OutcomesInRun(registers: bool, steps: seq<Step>)
    ensures OutcomeInv(Run(Init(registers), steps), registers)
  {
    if steps != [] {
      OutcomesInRun(registers, steps[..|steps| - 1]);
      RunKeeps(registers, steps[..|steps| - 1]);
      hide Inv, Apply, OutcomeInv;
      OutcomeStep(Run(Init(registers), steps[..|steps| - 1]), steps[|steps| - 1], registers);
    }
  }

  /** In every run: a start was fulfilled only if the server was brought up, and until a close it
      serves; a start that failed left everything closed and cleaned up; one was refused only after a
      close had begun. */
  lemma OutcomesMean(registers: bool, steps: seq<Step>, id: nat)
    ensures var s := Run(Init(registers), steps);
            && (Holds(s, Fulfilled, id) ==> s.listens == 1 && (s.f.closed || Serving(s, registers)))
            && (Holds(s, Failed, id) ==> s.close == Settled && s.cleanups == 1 && s.f.socket in {Unbound, Down})
            && (Holds(s, Refused, id) ==> s.f.closed)
            && (s.f.handlers != {} ==> Serving(s, registers))
  {
    OutcomesInRun(registers, steps);
    RunKeeps(registers, steps);
    hide Run, Apply;
  }

  /** A hook or the bind fails at its turn. */
  ghost predicate Fails(s: State, step: Step) {
    || (s.start == BeforeListen && step == BeforeListenDone(false))
    || (s.start == AwaitListening && s.f.socket == Binding && step == BindDone(false))
    || (s.start == AfterListen && step == AfterListenDone(false))
  }

  ghost predicate Failing(s: State) {
    s.start == ListenRejected || (s.f.closed && s.start in {AwaitClose, Rejected})
  }

  lemma FailingStep(s: State, step: Step, id: nat)
    requires Inv(s) && Failing(s) && (Holds(s, Waiting, id) || Holds(s, Failed, id))
    ensures var t := Apply(s, step); Failing(t) && (Holds(t, Waiting, id) || Holds(t, Failed, id))
  {
  }

  lemma {:induction false} FailingStays(s: State, more: seq<Step>, id: nat)
    requires Inv(s) && Failing(s) && Holds(s, Waiting, id)
    ensures var t := Run(s, more); Inv(t) && Failing(t) && (Holds(t, Waiting, id) || Holds(t, Failed, id))
  {
    if more != [] {
      FailingStays(s, more[..|more| - 1], id);
      hide Apply, Failing, Holds, Inv;
      ApplyKeeps(Run(s, more[..|more| - 1]), more[|more| - 1]);
      FailingStep(Run(s, more[..|more| - 1]), more[|more| - 1], id);
    }
  }

  /** Once a hook or the bind has failed, no call that waits is ever fulfilled. */
  lemma FailureIsFinal(registers: bool, steps: seq<Step>, step: Step, more: seq<Step>, id: nat)
    requires Fails(Run(Init(registers), steps), step) && Holds(Run(Init(registers), steps), Waiting, id)
    ensures !Holds(Run(Apply(Run(Init(registers), steps), step), more), Fulfilled, id)
  {
    var s := Run(Init(registers), steps);
    RunKeeps(registers, steps);
    ApplyKeeps(s, step);
    assert Failing(Apply(s, step)) && Holds(Apply(s, step), Waiting, id);
    FailingStays(Apply(s, step), more, id);
  }

  /** Nobody closes, and no hook and no bind fails. */
  ghost predicate Smooth(step: Step) {
    step !in {CloseCall, BeforeListenDone(false), BindDone(false), AfterListenDone(false)}
  }

  ghost predicate Healthy(s: State) {
    && !s.f.closed && s.start !in {ListenRejected, ClosingAfterListen, AwaitClose, Rejected}
    && forall id :: id in s.calls ==> s.calls[id] == Waiting || s.calls[id] == Fulfilled
  }

  lemma SmoothStep(s: State, step: Step)
    requires Healthy(s) && Smooth(step)
    ensures Healthy(Apply(s, step))
  {
  }

  /** ... and without a close, a failing hook or a failing bind no start fails, none is refused, and
      the server stays open. */
  lemma {:induction false} NothingElseFails(registers: bool, steps: seq<Step>)
    requires forall k :: 0 <= k < |steps| ==> Smooth(steps[k])
    ensures Healthy(Run(Init(registers), steps))
  {
    if steps != [] {
      NothingElseFails(registers, steps[..|steps| - 1]);
      hide Apply, Healthy, Smooth;
      assert Smooth(steps[|steps| - 1]);
      SmoothStep(Run(Init(registers), steps[..|steps| - 1]), steps[|steps| - 1]);
    }
  }

  /** The stages of a start that nothing disturbs. */
  ghost predicate HasCalled(s: State, registers: bool, id: nat) {
    && s.start == BeforeListen && s.starter == id && Holds(s, Waiting, id) && !s.f.closed && s.f.socket == Unbound
    && s.f.registersSignals == registers && s.listens == 0 && !s.f.closePromise && s.close == NotClosing && s.cleanups == 0
    && s.f.handlers == {}
  }

  ghost predicate HasListened(s: State, registers: bool, id: nat) {
    && s.start == AfterListen && Holds(s, Waiting, id) && Serving(s, registers)
    && !s.f.closePromise && s.close == NotClosing && s.cleanups == 0
  }

  lemma RunOfOne(s: State, a: Step)
    ensures Run(s, [a]) == Apply(s, a)
  {
    hide Apply;
    assert [a][..0] == [];
    assert Run(s, []) == s;
  }

  lemma Called(registers: bool, id: nat)
    ensures HasCalled(Run(Init(registers), [StartCall(id)]), registers, id)
  {
    RunOfOne(Init(registers), StartCall(id));
    hide Run;
  }

  lemma Listened(s: State, registers: bool, id: nat)
    requires HasCalled(s, registers, id)
    ensures HasListened(Run(s, ToListening()), registers, id)
  {
    RunOfFour(s, BeforeListenDone(true), BindDone(true), ListeningEvent, ResumeStart);
    hide Run;
  }

  lemma Settles(s: State, registers: bool, id: nat)
    requires HasListened(s, registers, id)
    ensures var t := Run(s, [AfterListenDone(true), StartSettles(id)]);
            Serving(t, registers) && Holds(t, Fulfilled, id) && !t.f.closePromise && t.close == NotClosing && t.cleanups == 0
  {
    RunConcat(s, [AfterListenDone(true)], [StartSettles(id)]);
    assert [AfterListenDone(true)] + [StartSettles(id)] == [AfterListenDone(true), StartSettles(id)];
    RunOfOne(s, AfterListenDone(true));
    RunOfOne(Run(s, [AfterListenDone(true)]), StartSettles(id));
    hide Run;
  }

  lemma ClosesAfter(s: State, registers: bool)
    requires Serving(s, registers) && !s.f.closePromise && s.close == NotClosing && s.cleanups == 0
    ensures var t := Run(Run(s, [CloseCall, CleanupBegins, ServerClosed, CleanupEnds]), [CloseSettles]);
            t.close == Settled && t.f.socket == Down && t.cleanups == 1 && !t.f.started
  {
    RunOfFour(s, CloseCall, CleanupBegins, ServerClosed, CleanupEnds);
    RunOfOne(Run(s, [CloseCall, CleanupBegins, ServerClosed, CleanupEnds]), CloseSettles);
    hide Run;
  }

  /** The undisturbed run: the call is fulfilled and the server serves; closing it then undoes that. */
  lemma StartThenClose(registers: bool, id: nat)
    ensures var up := Run(Run(Init(registers), [StartCall(id)] + ToListening()), [AfterListenDone(true), StartSettles(id)]);
            && Serving(up, registers) && Holds(up, Fulfilled, id)
            && (var down := Run(up, [CloseCall, CleanupBegins, ServerClosed, CleanupEnds] + [CloseSettles]);
                down.close == Settled && down.f.socket == Down && down.cleanups == 1 && !down.f.started)
  {
    hide *;
    var s := Run(Init(registers), [StartCall(id)]);
    var t := Run(s, ToListening());
    var up := Run(t, [AfterListenDone(true), StartSettles(id)]);
    var v := Run(up, [CloseCall, CleanupBegins, ServerClosed, CleanupEnds]);
    RunConcat(Init(registers), [StartCall(id)], ToListening());
    RunConcat(up, [CloseCall, CleanupBegins, ServerClosed, CleanupEnds], [CloseSettles]);
    Called(registers, id);
    Listened(s, registers, id);
    Settles(t, registers, id);
    ClosesAfter(up, registers);
  }

  // ---------------------------------------------------------------------------------------------
  // The object
  // ---------------------------------------------------------------------------------------------

  class HttpServerLifecycle {
    var started: bool
    var closed: bool
    var startPromise: bool
    var closePromise: bool
    var handlers: set<Signal>
    var socket: Socket
    const registersSignals: bool

    function Value(): Fields
      reads this
    {
      Fields(started, closed, startPromise, closePromise, handlers, socket, registersSignals)
    }

    constructor (registersSignals: bool)
      ensures Value() == Init(registersSignals).f
    {
      started, closed, startPromise, closePromise, handlers, socket := false, false, false, false, {}, Unbound;
      this.registersSignals := registersSignals;
    }

    /** `start` up to its first await. */
    method Start() returns (entry: Entry)
      modifies this
      ensures entry == Entered(old(Value()))
      ensures Value() == if entry == Begin then old(Value()).(startPromise := true) else old(Value())
    {
      if closed {
        return RefuseClosed;
      }
      if started {
        return AlreadyStarted;
      }
      if startPromise {
        return Join;
      }
      startPromise := true;
      entry := Begin;
    }

    method BeginClosingListeningServer()
      modifies this
      ensures Value() == ServerClosing(old(Value()))
    {
      if socket == Bound || socket == Open {
        socket := Down;
      }
    }

    /** `close` up to its first await; `first` when this call made the close promise. */
    method Close() returns (first: bool)
      modifies this
      ensures first == !old(closePromise)
      ensures Value() == CloseBegun(old(Value()))
    {
      if closePromise {
        return false;
      }
      closed := true;
      handlers := {};
      BeginClosingListeningServer();
      closePromise := true;
      first := true;
    }

    /** The start promise after the listening event: whether it goes on to `afterListen`. */
    method ResumeAfterListen() returns (goesOn: bool)
      modifies this
      ensures goesOn == !old(closed)
      ensures Value() == if goesOn then HandlersRegistered(old(Value()).(started := true))
                         else ServerClosing(old(Value()))
    {
      if closed {
        BeginClosingListeningServer();
        return false;
      }
      started := true;
      if registersSignals {
        handlers := {SIGINT, SIGTERM};
      }
      goesOn := true;
    }

    /** The close promise after both of its parts settled. */
    method FinishClose()
      modifies this
      ensures Value() == old(Value()).(started := false)
    {
      started := false;
    }
  }
}
