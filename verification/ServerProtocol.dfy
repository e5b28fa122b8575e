/**
 The connection protocol of one server entry: New's connect phase, the reconnector
 goroutines, the tool-refresh drain goroutine, the health-check supervisor, CallTool
 snapshots, change notices, cancellation and Close, as a transition system.

 Every lock region, atomic access, channel operation and session operation is one
 action. What the outside world decides (a dial or a fetch succeeds or fails, which
 tools it lists, when a notice arrives) is part of the action, so a run is a sequence
 of actions and every interleaving is some run.
 */
module ServerProtocol {
  import opened Basics
  import opened Tools

  type Session = nat

  datatype Liveness = Connected | Down

  /** A tool list with where it came from and when its fetch started (bookkeeping). */
  datatype Listing = Listing(tools: seq<ToolInfo>, origin: Option<Session>, since: int)

  /** New's goroutine for this server. */
  datatype Boot =
    | BootDialing
    | BootOpened(dialed: Session)
    | BootFetching(fetched: Session, since: nat)
    | BootAbandoning(abandoned: Session)
    | BootFailed
    | Installed
    | Ready

  /** Where a reconnectServer goroutine stands. */
  datatype ReconnectPc =
    | Spawned
    | ClosingOld(previous: Session)
    | Waiting
    | Dialing
    | Opened(dialed: Session)
    | Fetching(fetched: Session, since: nat)
    | Abandoning(abandoned: Session)
    | Holding(held: Session, listing: Listing)
    | Swapped
    | Leaving

  datatype Reconnector = Reconnector(pc: ReconnectPc, attempt: nat, backoff: int)

  /** Where the runToolRefresh goroutine stands. */
  datatype DrainPc =
    | DrainNotStarted
    | DrainIdle
    | DrainTook
    | DrainChecked
    | DrainReady(target: Session)
    | DrainFetching(source: Session, since: nat)
    | DrainStoring(listing: Listing)
    | DrainNotifying(before: seq<ToolInfo>, after: seq<ToolInfo>)
    | DrainExited

  /** Where runSupervisor stands with respect to this server. */
  datatype SupervisorPc =
    | SupervisorOff
    | SupervisorIdle
    | SupervisorChecked
    | SupervisorProbing(probed: Session)
    | SupervisorFailed
    | SupervisorRacing
    | SupervisorExited

  /** What CallTool reads under the entry lock, and whether the session was usable then. */
  datatype Snapshot = Snapshot(state: Liveness, session: Option<Session>, tools: seq<ToolInfo>,
                               usable: bool, closeBegun: bool)

  datatype Change = Change(before: seq<ToolInfo>, after: seq<ToolInfo>)

  /** The shared serverEntry: what its lock guards, the atomic flag and the capacity-1 channel. */
  datatype Entry = Entry(
    state: Liveness,
    session: Option<Session>,
    tools: Listing,
    reconnecting: bool,
    refresh: bool)

  /** Bookkeeping the proofs speak about; no action reads it. */
  datatype Log = Log(
    notices: set<nat>,
    failedSince: int,
    casFailures: nat,
    initialTools: Listing,
    changes: seq<Change>,
    snapshots: seq<Snapshot>)

  datatype State = State(
    healthCheck: bool,
    onToolsChanged: bool,
    entry: Entry,
    boot: Boot,
    reconnectors: map<nat, Reconnector>,
    drain: DrainPc,
    supervisor: SupervisorPc,
    closing: set<Session>,
    cancelled: bool,
    closeBegun: bool,
    live: set<Session>,      // sessions the library has opened and not closed
    nextSession: nat,
    nextThread: nat,
    clock: nat,
    log: Log)

  const NO_TOOLS := Listing([], None, -1)

  function Init(healthCheck: bool, onToolsChanged: bool): State {
    State(healthCheck, onToolsChanged, Entry(Down, None, NO_TOOLS, false, false),
          BootDialing, map[], DrainNotStarted, SupervisorOff, {}, false, false, {}, 0, 0, 0,
          Log({}, -1, 0, NO_TOOLS, [], []))
  }

  // ---- nextBackoff -------------------------------------------------------------

  const SECOND: int := 1_000_000_000
  const MAX_BACKOFF: int := 60 * SECOND

  function NextBackoff(current: int): int {
    if current <= 0 then SECOND
    else if current * 2 > MAX_BACKOFF then MAX_BACKOFF
    else current * 2
  }

  function Pow2(n: nat): (p: nat)
    ensures p > 0
  {
    if n == 0 then 1 else 2 * Pow2(n - 1)
  }

  /** The wait before reconnect attempt n: 2^(n-1) seconds, at most a minute. */
  function BackoffAt(attempt: nat): int {
    if attempt == 0 then 0
    else if Pow2(attempt - 1) < 60 then Pow2(attempt - 1) * SECOND
    else MAX_BACKOFF
  }

  lemma BackoffDoubles(attempt: nat)
    ensures NextBackoff(BackoffAt(attempt)) == BackoffAt(attempt + 1)
  {
    if attempt > 0 {
      var p := Pow2(attempt - 1);
      assert Pow2(attempt) == 2 * p;
    }
  }

  // ---- actions -----------------------------------------------------------------

  /** New's goroutine. */
  datatype BootAction =
    | BootDialOk | BootDialFail | BootFetchStart | BootFetchOk(tools: seq<ToolInfo>) | BootFetchFail
    | BootClose | BootInstallStub | BootStart

  /** reconnectServer. */
  datatype ReconnectAction =
    | MarkDown | CloseOld | BackoffElapsed | BackoffCancelled | DialOk | DialFail | FetchStart
    | FetchOk(tools: seq<ToolInfo>) | FetchFail | CloseAbandoned | Swap | Release

  /** runToolRefresh and applyToolRefresh. */
  datatype DrainAction =
    | DrainTake | DrainExit | DrainCheck | DrainReadSession | DrainFetchStart
    | DrainFetchOk(tools: seq<ToolInfo>) | DrainFetchFail | DrainStore | DrainNotify

  /** runSupervisor and probeServer. */
  datatype SupervisorAction =
    | SupervisorLoad | SupervisorReadSession | ProbeOk | ProbeFail | SupervisorCheckContext
    | SupervisorCas | SupervisorExit

  /** Callers, the server's notifications, cancellation and Close. */
  datatype OutsideAction =
    | TakeSnapshot | Notice | Cancel | CloseSnapshot | CloseOne(s: Session)

  datatype Action =
    | ByNew(b: BootAction)
    | ByReconnector(t: nat, r: ReconnectAction)
    | ByDrain(d: DrainAction)
    | BySupervisor(v: SupervisorAction)
    | ByOutside(o: OutsideAction)

  /** A reconnector stores its new session. */
  predicate IsSwap(a: Action) {
    a.ByReconnector? && a.r.Swap?
  }

  function BootStep(s: State, a: BootAction): Option<State> {
    match a
    case BootDialOk =>
      if s.boot.BootDialing? then
        Some(s.(boot := BootOpened(s.nextSession), nextSession := s.nextSession + 1,
                live := s.live + {s.nextSession}))
      else None
    case BootDialFail =>
      if s.boot.BootDialing? then Some(s.(boot := BootFailed)) else None
    case BootFetchStart =>
      if s.boot.BootOpened? then Some(s.(boot := BootFetching(s.boot.dialed, s.clock))) else None
    case BootFetchOk(tools) =>
      if s.boot.BootFetching? then
        var l := Listing(tools, Some(s.boot.fetched), s.boot.since);
        Some(s.(boot := Installed, log := s.log.(initialTools := l),
                entry := s.entry.(session := Some(s.boot.fetched), tools := l, state := Connected)))
      else None
    case BootFetchFail =>
      if s.boot.BootFetching? then Some(s.(boot := BootAbandoning(s.boot.fetched))) else None
    case BootClose =>
      if s.boot.BootAbandoning? then
        Some(s.(boot := BootFailed, live := s.live - {s.boot.abandoned}))
      else None
    case BootInstallStub =>
      if s.boot.BootFailed? then Some(s.(boot := Installed, entry := s.entry.(state := Down, reconnecting := true))) else None
    case BootStart =>
      if s.boot.Installed? then
        var ready := s.(boot := Ready, drain := DrainIdle,
                        supervisor := if s.healthCheck then SupervisorIdle else SupervisorOff);
        Some(if s.entry.reconnecting then Spawn(ready) else ready)
      else None
  }

  function Spawn(s: State): State {
    s.(reconnectors := s.reconnectors[s.nextThread := Reconnector(Spawned, 0, 0)],
       nextThread := s.nextThread + 1)
  }

  /** What a reconnector's step writes; without a next position the goroutine ends. */
  datatype Turn = Turn(entry: Entry, live: set<Session>, nextSession: nat, next: Option<Reconnector>)

  /** The head of the reconnect loop: a longer wait and the next attempt. */
  function NextAttempt(r: Reconnector): Reconnector {
    Reconnector(Waiting, r.attempt + 1, NextBackoff(r.backoff))
  }

  function ReconnectTurn(s: State, a: ReconnectAction, r: Reconnector): Option<Turn> {
    var stay := Turn(s.entry, s.live, s.nextSession, Some(r));
    match a
    case MarkDown =>
      if r.pc.Spawned? then
        Some(stay.(entry := s.entry.(state := Down),
                   next := Some(if s.entry.session.Some? then r.(pc := ClosingOld(s.entry.session.value)) else NextAttempt(r))))
      else None
    case CloseOld =>
      if r.pc.ClosingOld? then Some(stay.(live := s.live - {r.pc.previous}, next := Some(NextAttempt(r)))) else None
    case BackoffElapsed =>
      if r.pc.Waiting? then Some(stay.(next := Some(r.(pc := Dialing)))) else None
    case BackoffCancelled =>
      if r.pc.Waiting? && s.cancelled then Some(stay.(next := Some(r.(pc := Leaving)))) else None
    case DialOk =>
      if r.pc.Dialing? then
        Some(stay.(live := s.live + {s.nextSession}, nextSession := s.nextSession + 1,
                   next := Some(r.(pc := Opened(s.nextSession)))))
      else None
    case DialFail =>
      if r.pc.Dialing? then Some(stay.(next := Some(NextAttempt(r)))) else None
    case FetchStart =>
      if r.pc.Opened? then Some(stay.(next := Some(r.(pc := Fetching(r.pc.dialed, s.clock))))) else None
    case FetchOk(tools) =>
      if r.pc.Fetching? then
        Some(stay.(next := Some(r.(pc := Holding(r.pc.fetched, Listing(tools, Some(r.pc.fetched), r.pc.since))))))
      else None
    case FetchFail =>
      if r.pc.Fetching? then Some(stay.(next := Some(r.(pc := Abandoning(r.pc.fetched))))) else None
    case CloseAbandoned =>
      if r.pc.Abandoning? then Some(stay.(live := s.live - {r.pc.abandoned}, next := Some(NextAttempt(r)))) else None
    case Swap =>
      if r.pc.Holding? then
        Some(stay.(entry := s.entry.(session := Some(r.pc.held), tools := r.pc.listing, state := Connected),
                   next := Some(r.(pc := Swapped))))
      else None
    case Release =>
      if r.pc.Swapped? || r.pc.Leaving? then
        Some(stay.(entry := s.entry.(reconnecting := false), next := None))
      else None
  }

  function ReconnectStep(s: State, a: ReconnectAction, t: nat): Option<State> {
    if t !in s.reconnectors then None
    else
      var turn := ReconnectTurn(s, a, s.reconnectors[t]);
      if turn.None? then None
      else
        var Turn(entry, live, nextSession, next) := turn.value;
        Some(s.(entry := entry, live := live, nextSession := nextSession,
                reconnectors := if next.Some? then s.reconnectors[t := next.value] else s.reconnectors - {t}))
  }

  /** What a reconnector's step leaves alone. */
  lemma ReconnectFrame(s: State, a: ReconnectAction, t: nat)
    requires ReconnectStep(s, a, t).Some?
    ensures var s' := ReconnectStep(s, a, t).value;
      && s'.boot == s.boot && s'.drain == s.drain && s'.supervisor == s.supervisor && s'.log == s.log
      && s'.closing == s.closing && s'.cancelled == s.cancelled && s'.closeBegun == s.closeBegun
      && s'.clock == s.clock && s'.nextThread == s.nextThread && s'.onToolsChanged == s.onToolsChanged
      && s'.healthCheck == s.healthCheck && s'.entry.refresh == s.entry.refresh
      && (s.entry.session.Some? ==> s'.entry.session.Some?)
      && (!a.Swap? ==> s'.entry.session == s.entry.session && s'.entry.tools == s.entry.tools)
      && (!a.Release? ==> s'.entry.reconnecting == s.entry.reconnecting)
  {
  }

  /** Only its own entry in the thread table changes. */
  lemma ReconnectThreads(s: State, a: ReconnectAction, t: nat)
    requires ReconnectStep(s, a, t).Some?
    ensures var s' := ReconnectStep(s, a, t).value;
      && t in s.reconnectors
      && (a.Release? ==> s'.reconnectors == s.reconnectors - {t})
      && (!a.Release? ==> t in s'.reconnectors && s'.reconnectors == s.reconnectors[t := s'.reconnectors[t]])
  {
  }

  /** What a step of the drain writes. */
  datatype DrainTurn = DrainTurn(pc: DrainPc, refresh: bool, tools: Listing, failedSince: int, changes: seq<Change>)

  function DrainTakes(s: State, a: DrainAction): Option<DrainTurn> {
    var stay := DrainTurn(s.drain, s.entry.refresh, s.entry.tools, s.log.failedSince, s.log.changes);
    match a
    case DrainTake =>
      if s.drain.DrainIdle? && s.entry.refresh then Some(stay.(pc := DrainTook, refresh := false)) else None
    case DrainExit =>
      if s.drain.DrainIdle? && s.cancelled then Some(stay.(pc := DrainExited)) else None
    case DrainCheck =>
      if s.drain.DrainTook? then Some(stay.(pc := if s.entry.reconnecting then DrainIdle else DrainChecked)) else None
    case DrainReadSession =>
      if s.drain.DrainChecked? then
        Some(stay.(pc := if s.entry.session.Some? then DrainReady(s.entry.session.value) else DrainIdle))
      else None
    case DrainFetchStart =>
      if s.drain.DrainReady? then Some(stay.(pc := DrainFetching(s.drain.target, s.clock))) else None
    case DrainFetchOk(tools) =>
      if s.drain.DrainFetching? then
        Some(stay.(pc := DrainStoring(Listing(tools, Some(s.drain.source), s.drain.since))))
      else None
    case DrainFetchFail =>
      if s.drain.DrainFetching? then
        Some(stay.(pc := DrainIdle, failedSince := Max(s.log.failedSince, s.drain.since)))
      else None
    case DrainStore =>
      if s.drain.DrainStoring? then
        Some(stay.(pc := DrainNotifying(s.entry.tools.tools, s.drain.listing.tools), tools := s.drain.listing))
      else None
    case DrainNotify =>
      if s.drain.DrainNotifying? then
        Some(stay.(pc := DrainIdle,
                   changes := if s.onToolsChanged && Identity(s.drain.before) != Identity(s.drain.after)
                              then s.log.changes + [Change(s.drain.before, s.drain.after)] else s.log.changes))
      else None
  }

  function DrainStep(s: State, a: DrainAction): Option<State> {
    var turn := DrainTakes(s, a);
    if turn.None? then None
    else
      var DrainTurn(pc, refresh, tools, failedSince, changes) := turn.value;
      Some(s.(drain := pc, entry := s.entry.(refresh := refresh, tools := tools),
              log := s.log.(failedSince := failedSince, changes := changes)))
  }

  /** What a step of the supervisor writes; it may start a reconnector. */
  datatype SupervisorTurn = SupervisorTurn(pc: SupervisorPc, starts: bool, casFails: bool)

  function SupervisorTakes(s: State, a: SupervisorAction): Option<SupervisorTurn> {
    match a
    case SupervisorLoad =>
      if s.supervisor.SupervisorIdle? then
        Some(SupervisorTurn(if s.entry.reconnecting then SupervisorIdle else SupervisorChecked, false, false))
      else None
    case SupervisorReadSession =>
      if s.supervisor.SupervisorChecked? then
        Some(SupervisorTurn(if s.entry.session.Some? then SupervisorProbing(s.entry.session.value) else SupervisorFailed, false, false))
      else None
    case ProbeOk =>
      if s.supervisor.SupervisorProbing? then Some(SupervisorTurn(SupervisorIdle, false, false)) else None
    case ProbeFail =>
      if s.supervisor.SupervisorProbing? then Some(SupervisorTurn(SupervisorFailed, false, false)) else None
    case SupervisorCheckContext =>
      if s.supervisor.SupervisorFailed? then
        Some(SupervisorTurn(if s.cancelled then SupervisorExited else SupervisorRacing, false, false))
      else None
    case SupervisorCas =>
      if s.supervisor.SupervisorRacing? then
        Some(SupervisorTurn(SupervisorIdle, !s.entry.reconnecting, s.entry.reconnecting))
      else None
    case SupervisorExit =>
      if s.supervisor.SupervisorIdle? && s.cancelled then Some(SupervisorTurn(SupervisorExited, false, false)) else None
  }

  function SupervisorStep(s: State, a: SupervisorAction): Option<State> {
    var turn := SupervisorTakes(s, a);
    if turn.None? then None
    else
      var moved := s.(supervisor := turn.value.pc);
      Some(if turn.value.starts then Spawn(moved.(entry := s.entry.(reconnecting := true)))
           else if turn.value.casFails then moved.(log := s.log.(casFailures := s.log.casFailures + 1))
           else moved)
  }

  /** What a step of the supervisor leaves alone. */
  lemma SupervisorFrame(s: State, a: SupervisorAction)
    requires SupervisorStep(s, a).Some?
    ensures var s' := SupervisorStep(s, a).value;
      && s'.boot == s.boot && s'.drain == s.drain && s'.live == s.live && s'.closing == s.closing
      && s'.nextSession == s.nextSession && s'.cancelled == s.cancelled && s'.clock == s.clock && s'.onToolsChanged == s.onToolsChanged
      && s'.healthCheck == s.healthCheck && s'.closeBegun == s.closeBegun
      && s'.entry == s.entry.(reconnecting := s'.entry.reconnecting) && (s.entry.reconnecting ==> s'.entry.reconnecting)
      && s'.log == s.log.(casFailures := s'.log.casFailures)
  {
    hide SupervisorTakes;
  }

  /** It starts at most one reconnector. */
  lemma SupervisorThreads(s: State, a: SupervisorAction)
    requires SupervisorStep(s, a).Some?
    ensures var s' := SupervisorStep(s, a).value;
      || (s'.reconnectors == s.reconnectors && s'.nextThread == s.nextThread)
      || (s'.reconnectors == s.reconnectors[s.nextThread := Reconnector(Spawned, 0, 0)] && s'.nextThread == s.nextThread + 1)
    ensures var s' := SupervisorStep(s, a).value;
      s'.reconnectors != s.reconnectors ==> !s.entry.reconnecting && s'.entry.reconnecting
  {
    var turn := SupervisorTakes(s, a).value;
    assert turn.starts ==> !s.entry.reconnecting;
    hide SupervisorTakes;
  }

  function OutsideStep(s: State, a: OutsideAction): Option<State> {
    match a
    case TakeSnapshot =>
      if s.boot.Ready? then
        var snap := Snapshot(s.entry.state, s.entry.session, s.entry.tools.tools,
                             s.entry.session.Some? && s.entry.session.value in s.live, s.closeBegun);
        Some(s.(log := s.log.(snapshots := s.log.snapshots + [snap])))
      else None
    case Notice =>
      if s.nextSession > 0 then
        Some(s.(entry := s.entry.(refresh := true),
                log := if s.entry.reconnecting then s.log
                       else s.log.(notices := s.log.notices + {s.clock})))
      else None
    case Cancel => Some(s.(cancelled := true))
    case CloseSnapshot =>
      if s.boot.Ready? && s.cancelled then
        Some(s.(closeBegun := true, closing := s.closing + if s.entry.session.Some? then {s.entry.session.value} else {}))
      else None
    case CloseOne(x) =>
      if x in s.closing then Some(s.(closing := s.closing - {x}, live := s.live - {x})) else None
  }

  /** What New's goroutine leaves alone. */
  lemma BootFrame(s: State, a: BootAction)
    requires BootStep(s, a).Some?
    ensures var s' := BootStep(s, a).value;
      && s'.closing == s.closing && s'.cancelled == s.cancelled && s'.closeBegun == s.closeBegun && s'.clock == s.clock
      && s'.healthCheck == s.healthCheck && s'.log == s.log.(initialTools := s'.log.initialTools)
      && s.nextSession <= s'.nextSession
      && (forall x :: x in s'.live ==> x in s.live || s.nextSession <= x < s'.nextSession)
  {
  }

  /** It starts at most one reconnector. */
  lemma BootThreads(s: State, a: BootAction)
    requires BootStep(s, a).Some?
    ensures var s' := BootStep(s, a).value;
      || (s'.reconnectors == s.reconnectors && s'.nextThread == s.nextThread)
      || (s'.reconnectors == s.reconnectors[s.nextThread := Reconnector(Spawned, 0, 0)] && s'.nextThread == s.nextThread + 1)
  {
  }

  /** What the drain leaves alone. */
  lemma DrainFrame(s: State, a: DrainAction)
    requires DrainStep(s, a).Some?
    ensures var s' := DrainStep(s, a).value;
      s' == s.(drain := s'.drain, entry := s.entry.(refresh := s'.entry.refresh, tools := s'.entry.tools),
               log := s.log.(failedSince := s'.log.failedSince, changes := s'.log.changes))
  {
    hide DrainTakes;
  }

  /** What callers, notices, cancellation and Close leave alone. */
  lemma OutsideFrame(s: State, a: OutsideAction)
    requires OutsideStep(s, a).Some?
    ensures var s' := OutsideStep(s, a).value;
      && s'.reconnectors == s.reconnectors && s'.nextThread == s.nextThread && s'.nextSession == s.nextSession
      && s'.boot == s.boot && s'.drain == s.drain && s'.supervisor == s.supervisor && s'.healthCheck == s.healthCheck
      && s'.entry == s.entry.(refresh := s'.entry.refresh) && s'.live <= s.live
      && (s.cancelled ==> s'.cancelled) && (s.closeBegun ==> s'.closeBegun)
      && (forall x :: x in s.closing ==> x in s'.closing || x !in s'.live)
      && (!a.TakeSnapshot? ==> s'.log.snapshots == s.log.snapshots)
  {
  }

  /** What a reconnector does to sessions. */
  lemma ReconnectSessions(s: State, a: ReconnectAction, t: nat)
    requires ReconnectStep(s, a, t).Some?
    ensures var s' := ReconnectStep(s, a, t).value;
      && s.nextSession <= s'.nextSession
      && (forall x :: x in s'.live ==> x in s.live || s.nextSession <= x < s'.nextSession)
  {
  }

  function Effect(s: State, a: Action): Option<State> {
    match a
    case ByNew(b) => BootStep(s, b)
    case ByReconnector(t, r) => ReconnectStep(s, r, t)
    case ByDrain(d) => DrainStep(s, d)
    case BySupervisor(v) => SupervisorStep(s, v)
    case ByOutside(o) => OutsideStep(s, o)
  }

  /** One action, or None where it is not enabled; every step advances the logical clock. */
  function Step(s: State, a: Action): Option<State> {
    var e := Effect(s, a);
    if e.Some? then Some(e.value.(clock := s.clock + 1)) else None
  }

  function Run(s: State, actions: seq<Action>): Option<State>
    decreases |actions|
  {
    if actions == [] then Some(s)
    else
      var next := Step(s, actions[0]);
      if next.Some? then Run(next.value, actions[1..]) else None
  }
}
