/**
 Safety of the connection protocol under every interleaving: who may own an open
 session, when `reconnecting` is set, and that no server is abandoned.
 */
module ProtocolSafety {
  import opened Basics
  import opened Tools
  import opened ServerProtocol

  /** No reconnector goroutine is running. */
  predicate Unclaimed(s: State) {
    forall t :: t !in s.reconnectors
  }

  /** Before the entry is published nothing else touches it. */
  ghost predicate BootInv(s: State) {
    && (!s.boot.Ready? ==>
          && Unclaimed(s) && s.closing == {} && s.log.snapshots == []
          && s.drain.DrainNotStarted? && s.supervisor.SupervisorOff?)
    && (!s.boot.Ready? && !s.boot.Installed? ==>
          s.entry.session.None? && s.entry.state.Down? && !s.entry.reconnecting)
    && (s.boot.Installed? ==> (s.entry.reconnecting <==> s.entry.session.None?) && (s.entry.reconnecting <==> s.entry.state.Down?))
    && (s.boot.BootDialing? || s.boot.BootFailed? ==> s.live == {})
    && (s.boot.BootOpened? ==> s.live == {s.boot.dialed})
    && (s.boot.BootFetching? ==> s.live == {s.boot.fetched})
    && (s.boot.BootAbandoning? ==> s.live == {s.boot.abandoned})
  }

  /** What decides who may own an open session. */
  datatype Ownership = Ownership(state: Liveness, session: Option<Session>, live: set<Session>,
                                 closing: set<Session>, cancelled: bool)
  {
    /** The stored session, as a set. */
    function Stored(): set<Session> {
      if session.Some? then {session.value} else {}
    }

    /** A session only the reconnector knows. */
    predicate Private(x: Session) {
      state.Down? && live == {x} && x !in closing && session != Some(x)
    }

    /** What a reconnector's position says. */
    predicate At(pc: ReconnectPc) {
      match pc
      case Spawned => live <= Stored()
      case ClosingOld(x) => state.Down? && session == Some(x) && live <= Stored()
      case Waiting => state.Down? && live == {}
      case Dialing => state.Down? && live == {}
      case Opened(x) => Private(x)
      case Fetching(x, _) => Private(x)
      case Abandoning(x) => Private(x)
      case Holding(x, _) => Private(x)
      case Swapped => state.Connected? && session.Some? && live <= Stored()
      case Leaving => state.Down? && cancelled && live == {}
    }
  }

  function Owner(s: State): Ownership {
    Ownership(s.entry.state, s.entry.session, s.live, s.closing, s.cancelled)
  }

  ghost predicate EntryInv(s: State) {
    && (s.entry.session.Some? ==> s.entry.session.value < s.nextSession)
    && (forall x :: x in s.closing ==> x < s.nextSession)
    && (forall x :: x in s.live ==> x < s.nextSession)
    && (s.entry.state.Connected? ==> s.entry.session.Some?)
    && (!s.closeBegun ==> s.closing == {})
    && (!s.closeBegun && s.entry.state.Connected? ==> s.entry.session.value in s.live)
  }

  ghost predicate ReconnectInv(s: State) {
    && (forall t, u :: t in s.reconnectors && u in s.reconnectors ==> t == u)
    && (forall t :: t in s.reconnectors ==> t < s.nextThread)
    && (forall t :: t in s.reconnectors ==> Owner(s).At(s.reconnectors[t].pc))
    && (forall t :: t in s.reconnectors ==> s.reconnectors[t].backoff == BackoffAt(s.reconnectors[t].attempt))
    && (s.boot.Ready? ==> (s.entry.reconnecting <==> !Unclaimed(s)))
    && (s.boot.Ready? || s.boot.Installed? ==>
          Unclaimed(s) ==> s.live <= Owner(s).Stored())
    && (s.boot.Ready? && Unclaimed(s) && s.entry.state.Down? ==> s.cancelled)
  }

  /** The supervisor has seen `reconnecting` false and has not finished with this server. */
  predicate Suspicious(pc: SupervisorPc) {
    pc.SupervisorChecked? || pc.SupervisorProbing? || pc.SupervisorFailed? || pc.SupervisorRacing?
  }

  ghost predicate SupervisorInv(s: State) {
    && s.log.casFailures == 0
    && (Suspicious(s.supervisor) ==> !s.entry.reconnecting)
  }

  /** Every snapshot ever taken: Connected comes with a session that was open unless Close had begun. */
  ghost predicate SnapshotInv(s: State) {
    forall i :: 0 <= i < |s.log.snapshots| ==>
      var snap := s.log.snapshots[i];
      snap.state.Connected? ==> snap.session.Some? && (snap.usable || snap.closeBegun)
  }

  ghost predicate Inv(s: State) {
    BootInv(s) && EntryInv(s) && ReconnectInv(s) && SupervisorInv(s) && SnapshotInv(s)
  }

  /** Inv reads nothing of the drain, the channel, the tool lists or the rest of the log. */
  lemma Frame(s: State, s': State)
    requires Inv(s)
    requires Owner(s') == Owner(s) && s'.entry.reconnecting == s.entry.reconnecting
    requires s'.boot == s.boot && s'.reconnectors == s.reconnectors
    requires s'.supervisor == s.supervisor || !Suspicious(s'.supervisor) || !s.entry.reconnecting
    requires !s.boot.Ready? ==> s'.drain == s.drain && s'.supervisor == s.supervisor
    requires s'.nextSession == s.nextSession && s'.nextThread == s.nextThread && s'.closeBegun == s.closeBegun
    requires s'.log.casFailures == s.log.casFailures && s'.log.snapshots == s.log.snapshots
    ensures Inv(s')
  {
  }

  lemma BootKeepsInv(s: State, a: BootAction)
    requires Inv(s) && BootStep(s, a).Some?
    ensures Inv(BootStep(s, a).value)
  {
    BootKeepsBoot(s, a);
    hide BootInv;
    BootKeepsEntry(s, a);
    BootKeepsThreads(s, a);
  }

  lemma BootKeepsBoot(s: State, a: BootAction)
    requires Inv(s) && BootStep(s, a).Some?
    ensures BootInv(BootStep(s, a).value)
  {
  }

  lemma BootKeepsEntry(s: State, a: BootAction)
    requires Inv(s) && BootStep(s, a).Some?
    ensures var s' := BootStep(s, a).value; EntryInv(s') && SupervisorInv(s') && SnapshotInv(s')
  {
    hide ReconnectInv;
  }

  lemma BootKeepsThreads(s: State, a: BootAction)
    requires Inv(s) && BootStep(s, a).Some?
    ensures ReconnectInv(BootStep(s, a).value)
  {
    hide SupervisorInv, SnapshotInv;
    var s' := BootStep(s, a).value;
    if a.BootStart? && s.entry.reconnecting {
      assert s.nextThread in s'.reconnectors;
    }
  }

  /** The only reconnector moves on: what is left to show about a reconnect step. */
  lemma OnlyReconnectorMoves(s: State, s': State, t: nat, r: Reconnector)
    requires Inv(s) && t in s.reconnectors
    requires s'.reconnectors == s.reconnectors[t := r]
    requires r.backoff == BackoffAt(r.attempt) && Owner(s').At(r.pc) && EntryInv(s')
    requires s'.entry.reconnecting == s.entry.reconnecting && s'.boot == s.boot
    requires s'.supervisor == s.supervisor && s'.nextThread == s.nextThread && s'.log == s.log
    ensures Inv(s')
  {
    assert t in s'.reconnectors;
  }

  lemma ReconnectorLeaves(s: State, t: nat)
    requires Inv(s) && ReconnectStep(s, Release, t).Some?
    ensures Inv(ReconnectStep(s, Release, t).value)
  {
    var s' := ReconnectStep(s, Release, t).value;
    assert t in s.reconnectors;
    assert forall u :: u in s'.reconnectors ==> u in s.reconnectors && u != t;
  }

  /** What a reconnector's step does to its own position. */
  lemma ReconnectKeepsPosition(s: State, a: ReconnectAction, t: nat)
    requires EntryInv(s) && t in s.reconnectors && Owner(s).At(s.reconnectors[t].pc)
    requires ReconnectStep(s, a, t).Some? && !a.Release?
    ensures var s' := ReconnectStep(s, a, t).value;
      t in s'.reconnectors && Owner(s').At(s'.reconnectors[t].pc)
  {
    var s' := ReconnectStep(s, a, t).value;
    var pc' := s'.reconnectors[t].pc;
    assert pc'.ClosingOld? || pc'.Waiting? || pc'.Dialing? || pc'.Leaving? ==> s'.live <= s.live;
  }

  /** What it does to the entry and the open sessions. */
  lemma ReconnectKeepsEntry(s: State, a: ReconnectAction, t: nat)
    requires EntryInv(s) && t in s.reconnectors && Owner(s).At(s.reconnectors[t].pc)
    requires ReconnectStep(s, a, t).Some? && !a.Release?
    ensures EntryInv(ReconnectStep(s, a, t).value)
  {
  }

  /** An attempt and its backoff advance together. */
  lemma ReconnectWaits(s: State, a: ReconnectAction, t: nat)
    requires ReconnectStep(s, a, t).Some? && !a.Release?
    ensures var s' := ReconnectStep(s, a, t).value;
      && t in s.reconnectors && t in s'.reconnectors
      && var r, r' := s.reconnectors[t], s'.reconnectors[t];
      || (r'.attempt == r.attempt && r'.backoff == r.backoff)
      || (r'.attempt == r.attempt + 1 && r'.backoff == NextBackoff(r.backoff))
  {
    hide NextBackoff;
  }

  lemma ReconnectKeepsBackoff(s: State, a: ReconnectAction, t: nat)
    requires ReconnectInv(s) && ReconnectStep(s, a, t).Some? && !a.Release?
    ensures var s' := ReconnectStep(s, a, t).value;
      && t in s'.reconnectors && s'.reconnectors == s.reconnectors[t := s'.reconnectors[t]]
      && s'.reconnectors[t].backoff == BackoffAt(s'.reconnectors[t].attempt)
      && s'.entry.reconnecting == s.entry.reconnecting && s'.boot == s.boot
      && s'.supervisor == s.supervisor && s'.nextThread == s.nextThread && s'.log == s.log
  {
    hide BackoffAt, NextBackoff, Pow2;
    BackoffDoubles(s.reconnectors[t].attempt);
    ReconnectWaits(s, a, t);
    hide ReconnectStep;
    ReconnectFrame(s, a, t);
    ReconnectThreads(s, a, t);
  }

  lemma ReconnectKeepsInv(s: State, a: ReconnectAction, t: nat)
    requires Inv(s) && ReconnectStep(s, a, t).Some?
    ensures Inv(ReconnectStep(s, a, t).value)
  {
    if a.Release? {
      ReconnectorLeaves(s, t);
    } else {
      ReconnectKeepsPosition(s, a, t);
      ReconnectKeepsEntry(s, a, t);
      ReconnectKeepsBackoff(s, a, t);
      var s' := ReconnectStep(s, a, t).value;
      hide ReconnectStep;
      OnlyReconnectorMoves(s, s', t, s'.reconnectors[t]);
    }
  }

  lemma DrainKeepsInv(s: State, a: DrainAction)
    requires Inv(s) && DrainStep(s, a).Some?
    ensures Inv(DrainStep(s, a).value)
  {
    Frame(s, DrainStep(s, a).value);
  }

  lemma SupervisorKeepsInv(s: State, a: SupervisorAction)
    requires Inv(s) && SupervisorStep(s, a).Some?
    ensures Inv(SupervisorStep(s, a).value)
  {
    var s' := SupervisorStep(s, a).value;
    if a.SupervisorCas? {
      assert s.nextThread in s'.reconnectors;
    } else {
      Frame(s, s');
    }
  }

  /** Cancelling, or closing a session Close has read, leaves every position's claim in place. */
  lemma OwnershipShrinks(s: State, s': State)
    requires Inv(s)
    requires s'.entry == s.entry && s'.boot == s.boot && s'.reconnectors == s.reconnectors && s'.log == s.log
    requires s'.supervisor == s.supervisor && s'.drain == s.drain
    requires s'.nextSession == s.nextSession && s'.nextThread == s.nextThread
    requires s.cancelled ==> s'.cancelled
    requires s'.closing <= s.closing + Owner(s).Stored()
    requires s'.closing != {} ==> s.boot.Ready?
    requires s.live - s.closing <= s'.live <= s.live
    requires !s'.closeBegun ==> s'.closing == s.closing && s'.live == s.live && !s.closeBegun
    ensures Inv(s')
  {
    forall t | t in s'.reconnectors
      ensures Owner(s').At(s'.reconnectors[t].pc)
    {
      assert Owner(s).At(s.reconnectors[t].pc);
    }
  }

  lemma OutsideKeepsInv(s: State, a: OutsideAction)
    requires Inv(s) && OutsideStep(s, a).Some?
    ensures Inv(OutsideStep(s, a).value)
  {
    var s' := OutsideStep(s, a).value;
    match a
    case Notice => Frame(s, s');
    case TakeSnapshot => assert Owner(s') == Owner(s);
    case _ => OwnershipShrinks(s, s');
  }

  lemma EffectKeepsInv(s: State, a: Action)
    requires Inv(s) && Effect(s, a).Some?
    ensures Inv(Effect(s, a).value)
  {
    match a
    case ByNew(b) => BootKeepsInv(s, b);
    case ByReconnector(t, r) => ReconnectKeepsInv(s, r, t);
    case ByDrain(d) => DrainKeepsInv(s, d);
    case BySupervisor(v) => SupervisorKeepsInv(s, v);
    case ByOutside(o) => OutsideKeepsInv(s, o);
  }

  lemma StepKeepsInv(s: State, a: Action)
    requires Inv(s) && Step(s, a).Some?
    ensures Inv(Step(s, a).value)
  {
    EffectKeepsInv(s, a);
    Frame(Effect(s, a).value, Step(s, a).value);
  }

  lemma {:induction false} RunKeepsInv(s: State, actions: seq<Action>)
    requires Inv(s) && Run(s, actions).Some?
    ensures Inv(Run(s, actions).value)
    decreases |actions|
  {
    if actions != [] {
      StepKeepsInv(s, actions[0]);
      RunKeepsInv(Step(s, actions[0]).value, actions[1..]);
    }
  }

  lemma ReachableInv(healthCheck: bool, onToolsChanged: bool, actions: seq<Action>)
    requires Run(Init(healthCheck, onToolsChanged), actions).Some?
    ensures Inv(Run(Init(healthCheck, onToolsChanged), actions).value)
  {
    RunKeepsInv(Init(healthCheck, onToolsChanged), actions);
  }

  /** x is stored in the entry, or still private to the goroutine that dialed it. */
  ghost predicate Held(s: State, x: Session) {
    || s.entry.session == Some(x)
    || s.boot == BootOpened(x) || (s.boot.BootFetching? && s.boot.fetched == x) || s.boot == BootAbandoning(x)
    || exists t :: t in s.reconnectors && Holds(s.reconnectors[t].pc, x)
  }

  predicate Holds(pc: ReconnectPc, x: Session) {
    || pc == Opened(x) || (pc.Fetching? && pc.fetched == x) || pc == Abandoning(x)
    || (pc.Holding? && pc.held == x)
  }

  /**
   In every reachable state at most one session is open and somebody answers for it;
   until Close begins, a Connected entry stores an open session.
   */
  lemma SessionOwnership(healthCheck: bool, onToolsChanged: bool, actions: seq<Action>)
    requires Run(Init(healthCheck, onToolsChanged), actions).Some?
    ensures var s := Run(Init(healthCheck, onToolsChanged), actions).value;
      && |s.live| <= 1
      && (forall x :: x in s.live ==> Held(s, x))
      && (s.entry.state.Connected? ==> s.entry.session.Some?)
      && (s.entry.state.Connected? && !s.closeBegun ==> s.entry.session.value in s.live)
  {
    ReachableInv(healthCheck, onToolsChanged, actions);
    var s := Run(Init(healthCheck, onToolsChanged), actions).value;
    forall x | x in s.live
      ensures Held(s, x) && s.live == {x}
    {
      if !Unclaimed(s) {
        var t :| t in s.reconnectors;
        assert Owner(s).At(s.reconnectors[t].pc);
      }
    }
    if s.live != {} {
      var x :| x in s.live;
      assert s.live == {x};
    }
  }

  lemma SoleReconnector(s: State)
    requires Inv(s)
    ensures |s.reconnectors| == if Unclaimed(s) then 0 else 1
  {
    if Unclaimed(s) {
      assert s.reconnectors.Keys == {};
    } else {
      var t :| t in s.reconnectors;
      assert s.reconnectors.Keys == {t};
    }
    assert |s.reconnectors| == |s.reconnectors.Keys|;
  }

  /**
   Once New has returned, the reconnecting flag is set exactly while one reconnector
   goroutine runs, the supervisor's compare-and-swap has never failed, a Down server has
   a reconnector unless the context is cancelled, and every wait follows the backoff law.
   */
  lemma ReconnectExclusion(healthCheck: bool, onToolsChanged: bool, actions: seq<Action>)
    requires Run(Init(healthCheck, onToolsChanged), actions).Some?
    ensures var s := Run(Init(healthCheck, onToolsChanged), actions).value;
      && |s.reconnectors| <= 1
      && (s.boot.Ready? ==> (s.entry.reconnecting <==> |s.reconnectors| == 1))
      && s.log.casFailures == 0
      && (s.supervisor.SupervisorRacing? ==> !s.entry.reconnecting)
      && (s.boot.Ready? && s.entry.state.Down? ==> |s.reconnectors| == 1 || s.cancelled)
      && (forall t :: t in s.reconnectors ==>
            s.reconnectors[t].backoff == BackoffAt(s.reconnectors[t].attempt))
  {
    ReachableInv(healthCheck, onToolsChanged, actions);
    SoleReconnector(Run(Init(healthCheck, onToolsChanged), actions).value);
  }

  /** Whatever CallTool snapshots as Connected carries a session, open unless Close had begun. */
  lemma SnapshotsAreUsable(healthCheck: bool, onToolsChanged: bool, actions: seq<Action>, i: nat)
    requires Run(Init(healthCheck, onToolsChanged), actions).Some?
    requires i < |Run(Init(healthCheck, onToolsChanged), actions).value.log.snapshots|
    ensures var snap := Run(Init(healthCheck, onToolsChanged), actions).value.log.snapshots[i];
      snap.state.Connected? ==> snap.session.Some? && (snap.usable || snap.closeBegun)
  {
    ReachableInv(healthCheck, onToolsChanged, actions);
  }
}
