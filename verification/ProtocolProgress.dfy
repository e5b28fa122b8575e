/**
 What the connection protocol does when asked: its loops run until the context is
 cancelled, reconnectors start only after a failure and can always finish, a failed probe
 starts one, and a queued notice brings the list that the server then answers with.
 */
module ProtocolProgress {
  import opened Basics
  import opened Tools
  import opened ServerProtocol
  import opened ProtocolSafety
  import opened ProtocolHistory

  // ---- loops -----------------------------------------------------------------------------

  predicate IsCancel(a: Action) {
    a == ByOutside(Cancel)
  }

  /** Which loops run, given whether the context has been cancelled. */
  ghost predicate LoopsRun(s: State, cancelled: bool) {
    && s.cancelled == cancelled
    && (s.boot.Ready? <==> !s.drain.DrainNotStarted?)
    && (s.boot.Ready? && s.healthCheck <==> !s.supervisor.SupervisorOff?)
    && (s.drain.DrainExited? || s.supervisor.SupervisorExited? ==> s.cancelled)
  }

  lemma BootLoops(s: State, a: BootAction, cancelled: bool)
    requires LoopsRun(s, cancelled) && BootStep(s, a).Some?
    ensures LoopsRun(BootStep(s, a).value, cancelled)
  {
  }

  lemma DrainLoops(s: State, a: DrainAction, cancelled: bool)
    requires LoopsRun(s, cancelled) && DrainStep(s, a).Some?
    ensures LoopsRun(DrainStep(s, a).value, cancelled)
  {
  }

  lemma SupervisorLoops(s: State, a: SupervisorAction, cancelled: bool)
    requires LoopsRun(s, cancelled) && SupervisorStep(s, a).Some?
    ensures LoopsRun(SupervisorStep(s, a).value, cancelled)
  {
    SupervisorFrame(s, a);
  }

  lemma StepLoops(s: State, a: Action, cancelled: bool)
    requires LoopsRun(s, cancelled) && Step(s, a).Some?
    ensures LoopsRun(Step(s, a).value, cancelled || IsCancel(a))
  {
    hide BootStep, ReconnectStep, DrainStep, SupervisorStep;
    match a
    case ByNew(b) => BootLoops(s, b, cancelled);
    case ByReconnector(t, r) => ReconnectFrame(s, r, t);
    case ByDrain(d) => DrainLoops(s, d, cancelled);
    case BySupervisor(v) => SupervisorLoops(s, v, cancelled);
    case ByOutside(o) => OutsideFrame(s, o);
  }

  lemma {:induction false} RunLoops(s: State, actions: seq<Action>, cancelled: bool)
    requires LoopsRun(s, cancelled) && Run(s, actions).Some?
    ensures LoopsRun(Run(s, actions).value, cancelled || exists i :: 0 <= i < |actions| && IsCancel(actions[i]))
    decreases |actions|
  {
    if actions != [] {
      StepLoops(s, actions[0], cancelled);
      hide Step, LoopsRun;
      RunLoops(Step(s, actions[0]).value, actions[1..], cancelled || IsCancel(actions[0]));
      assert forall i :: 0 <= i < |actions[1..]| ==> actions[1..][i] == actions[i + 1];
      if i :| 0 <= i < |actions| && IsCancel(actions[i]) && i > 0 {
        assert IsCancel(actions[1..][i - 1]);
      }
      if i :| 0 <= i < |actions[1..]| && IsCancel(actions[1..][i]) {
        assert IsCancel(actions[i + 1]);
      }
    }
  }

  /**
   Once New has returned, the drain runs, and with health checks the supervisor, until
   the context is cancelled; it is cancelled exactly when some action cancelled it.
   */
  lemma LoopsRunUntilCancelled(healthCheck: bool, onToolsChanged: bool, actions: seq<Action>)
    requires Run(Init(healthCheck, onToolsChanged), actions).Some?
    ensures var s := Run(Init(healthCheck, onToolsChanged), actions).value;
      && (s.cancelled <==> exists i :: 0 <= i < |actions| && IsCancel(actions[i]))
      && (s.boot.Ready? ==>
            && !s.drain.DrainNotStarted? && (s.drain.DrainExited? ==> s.cancelled)
            && (healthCheck <==> !s.supervisor.SupervisorOff?) && (s.supervisor.SupervisorExited? ==> s.cancelled))
  {
    RunLoops(Init(healthCheck, onToolsChanged), actions, false);
    HealthCheckStays(Init(healthCheck, onToolsChanged), actions);
  }

  lemma {:induction false} HealthCheckStays(s: State, actions: seq<Action>)
    requires Run(s, actions).Some?
    ensures Run(s, actions).value.healthCheck == s.healthCheck
    decreases |actions|
  {
    if actions != [] {
      HealthCheckStep(s, actions[0]);
      hide Step;
      HealthCheckStays(Step(s, actions[0]).value, actions[1..]);
    }
  }

  lemma HealthCheckStep(s: State, a: Action)
    requires Step(s, a).Some?
    ensures Step(s, a).value.healthCheck == s.healthCheck
  {
    hide BootStep, ReconnectStep, DrainStep, SupervisorStep, OutsideStep;
    match a
    case ByNew(b) => BootFrame(s, b);
    case ByReconnector(t, r) => ReconnectFrame(s, r, t);
    case ByDrain(d) => DrainFrame(s, d);
    case BySupervisor(v) => SupervisorFrame(s, v);
    case ByOutside(o) => OutsideFrame(s, o);
  }

  // ---- only failures start a reconnect -----------------------------------------------------

  /** A failed first connect, or a failed probe. */
  predicate IsFailure(a: Action) {
    a == ByNew(BootInstallStub) || a == BySupervisor(ProbeFail)
  }

  ghost predicate Healthy(s: State) {
    && Unclaimed(s) && !s.entry.reconnecting
    && !s.supervisor.SupervisorFailed? && !s.supervisor.SupervisorRacing?
    && (s.boot.Installed? || s.boot.Ready? ==> s.entry.state.Connected? && s.entry.session.Some?)
    && (!s.boot.Ready? ==> s.supervisor.SupervisorOff?)
  }

  lemma BootHealthy(s: State, a: BootAction)
    requires Healthy(s) && BootStep(s, a).Some? && !a.BootInstallStub?
    ensures Healthy(BootStep(s, a).value)
  {
  }

  lemma SupervisorHealthy(s: State, a: SupervisorAction)
    requires Healthy(s) && SupervisorStep(s, a).Some? && !a.ProbeFail?
    ensures Healthy(SupervisorStep(s, a).value)
  {
    SupervisorFrame(s, a);
  }

  lemma StepHealthy(s: State, a: Action)
    requires Healthy(s) && Step(s, a).Some? && !IsFailure(a)
    ensures Healthy(Step(s, a).value)
  {
    hide BootStep, DrainStep, SupervisorStep, OutsideStep;
    match a
    case ByNew(b) => BootHealthy(s, b);
    case ByReconnector(t, r) =>
    case ByDrain(d) => DrainFrame(s, d);
    case BySupervisor(v) => SupervisorHealthy(s, v);
    case ByOutside(o) => OutsideFrame(s, o);
  }

  lemma {:induction false} RunHealthy(s: State, actions: seq<Action>)
    requires Healthy(s) && Run(s, actions).Some? && forall i :: 0 <= i < |actions| ==> !IsFailure(actions[i])
    ensures Healthy(Run(s, actions).value)
    decreases |actions|
  {
    if actions != [] {
      StepHealthy(s, actions[0]);
      hide Step, Healthy;
      RunHealthy(Step(s, actions[0]).value, actions[1..]);
    }
  }

  /** Without a failed first connect or a failed probe no reconnector ever starts, and a published server reads Connected. */
  lemma OnlyFailuresReconnect(healthCheck: bool, onToolsChanged: bool, actions: seq<Action>)
    requires Run(Init(healthCheck, onToolsChanged), actions).Some?
    requires forall i :: 0 <= i < |actions| ==> !IsFailure(actions[i])
    ensures var s := Run(Init(healthCheck, onToolsChanged), actions).value;
      && |s.reconnectors| == 0 && !s.entry.reconnecting
      && (s.boot.Ready? ==> s.entry.state.Connected?)
  {
    RunHealthy(Init(healthCheck, onToolsChanged), actions);
    ReachableInv(healthCheck, onToolsChanged, actions);
    SoleReconnector(Run(Init(healthCheck, onToolsChanged), actions).value);
  }

  // ---- a reconnector can always finish -----------------------------------------------------

  /** Steps of thread t alone, after which it is gone and the server Connected; with the given tools, unless fetched before. */
  ghost predicate Finishes(s: State, t: nat, tools: seq<ToolInfo>, actions: seq<Action>) {
    && (forall i :: 0 <= i < |actions| ==> actions[i].ByReconnector? && actions[i].t == t)
    && Run(s, actions).Some?
    && var s' := Run(s, actions).value;
      && s'.entry.state.Connected? && !s'.entry.reconnecting && t !in s'.reconnectors
      && s'.entry.tools.tools == tools
  }

  ghost predicate CanFinish(s: State, t: nat, tools: seq<ToolInfo>) {
    exists actions :: Finishes(s, t, tools, actions)
  }

  lemma StepBack(s: State, t: nat, tools: seq<ToolInfo>, r: ReconnectAction)
    requires Step(s, ByReconnector(t, r)).Some? && CanFinish(Step(s, ByReconnector(t, r)).value, t, tools)
    ensures CanFinish(s, t, tools)
  {
    hide Step;
    var a := ByReconnector(t, r);
    var rest :| Finishes(Step(s, a).value, t, tools, rest);
    assert ([a] + rest)[1..] == rest;
    assert Finishes(s, t, tools, [a] + rest);
  }

  /** What thread t's step leads to. */
  lemma StepOf(s: State, t: nat, r: ReconnectAction)
    requires t in s.reconnectors && ReconnectTurn(s, r, s.reconnectors[t]).Some?
    ensures var s' := Step(s, ByReconnector(t, r)); var turn := ReconnectTurn(s, r, s.reconnectors[t]).value;
      && s'.Some? && s'.value.entry == turn.entry
      && (turn.next.Some? ==> t in s'.value.reconnectors && s'.value.reconnectors[t] == turn.next.value)
      && (turn.next.None? ==> t !in s'.value.reconnectors)
  {
    hide ReconnectTurn;
  }

  lemma FromSwapped(s: State, t: nat)
    requires t in s.reconnectors && s.reconnectors[t].pc.Swapped? && s.entry.state.Connected?
    ensures CanFinish(s, t, s.entry.tools.tools)
  {
    StepOf(s, t, Release);
    OneStep(s, ByReconnector(t, Release));
    hide Step, Run;
    assert Finishes(s, t, s.entry.tools.tools, [ByReconnector(t, Release)]);
  }

  lemma FromHolding(s: State, t: nat)
    requires t in s.reconnectors && s.reconnectors[t].pc.Holding?
    ensures CanFinish(s, t, s.reconnectors[t].pc.listing.tools)
  {
    hide CanFinish, Step;
    StepOf(s, t, Swap);
    FromSwapped(Step(s, ByReconnector(t, Swap)).value, t);
    StepBack(s, t, s.reconnectors[t].pc.listing.tools, Swap);
  }

  lemma FromFetching(s: State, t: nat, tools: seq<ToolInfo>)
    requires t in s.reconnectors && s.reconnectors[t].pc.Fetching?
    ensures CanFinish(s, t, tools)
  {
    hide CanFinish, Step;
    StepOf(s, t, FetchOk(tools));
    FromHolding(Step(s, ByReconnector(t, FetchOk(tools))).value, t);
    StepBack(s, t, tools, FetchOk(tools));
  }

  lemma FromOpened(s: State, t: nat, tools: seq<ToolInfo>)
    requires t in s.reconnectors && s.reconnectors[t].pc.Opened?
    ensures CanFinish(s, t, tools)
  {
    hide CanFinish, Step;
    StepOf(s, t, FetchStart);
    FromFetching(Step(s, ByReconnector(t, FetchStart)).value, t, tools);
    StepBack(s, t, tools, FetchStart);
  }

  lemma FromDialing(s: State, t: nat, tools: seq<ToolInfo>)
    requires t in s.reconnectors && s.reconnectors[t].pc.Dialing?
    ensures CanFinish(s, t, tools)
  {
    hide CanFinish, Step;
    StepOf(s, t, DialOk);
    FromOpened(Step(s, ByReconnector(t, DialOk)).value, t, tools);
    StepBack(s, t, tools, DialOk);
  }

  lemma FromWaiting(s: State, t: nat, tools: seq<ToolInfo>)
    requires t in s.reconnectors && s.reconnectors[t].pc.Waiting?
    ensures CanFinish(s, t, tools)
  {
    hide CanFinish, Step;
    StepOf(s, t, BackoffElapsed);
    FromDialing(Step(s, ByReconnector(t, BackoffElapsed)).value, t, tools);
    StepBack(s, t, tools, BackoffElapsed);
  }

  lemma FromClosing(s: State, t: nat, tools: seq<ToolInfo>)
    requires t in s.reconnectors && (s.reconnectors[t].pc.ClosingOld? || s.reconnectors[t].pc.Abandoning?)
    ensures CanFinish(s, t, tools)
  {
    hide CanFinish, Step;
    var a := if s.reconnectors[t].pc.ClosingOld? then CloseOld else CloseAbandoned;
    StepOf(s, t, a);
    FromWaiting(Step(s, ByReconnector(t, a)).value, t, tools);
    StepBack(s, t, tools, a);
  }

  lemma FromSpawned(s: State, t: nat, tools: seq<ToolInfo>)
    requires t in s.reconnectors && s.reconnectors[t].pc.Spawned?
    ensures CanFinish(s, t, tools)
  {
    hide CanFinish, Step;
    StepOf(s, t, MarkDown);
    var s' := Step(s, ByReconnector(t, MarkDown)).value;
    if s.entry.session.Some? {
      FromClosing(s', t, tools);
    } else {
      FromWaiting(s', t, tools);
    }
    StepBack(s, t, tools, MarkDown);
  }

  /**
   No server is stuck: in every reachable state a reconnector that is not leaving a
   cancelled context can, by its own steps alone, bring the server back and be done; the
   server then offers whatever list the dialed session answers with.
   */
  lemma ReconnectorCanFinish(healthCheck: bool, onToolsChanged: bool, actions: seq<Action>, t: nat, tools: seq<ToolInfo>)
    requires Run(Init(healthCheck, onToolsChanged), actions).Some?
    requires t in Run(Init(healthCheck, onToolsChanged), actions).value.reconnectors
    ensures var s := Run(Init(healthCheck, onToolsChanged), actions).value; var pc := s.reconnectors[t].pc;
      && (pc.Leaving? ==> s.cancelled)
      && (pc.Swapped? ==> CanFinish(s, t, s.entry.tools.tools))
      && (pc.Holding? ==> CanFinish(s, t, pc.listing.tools))
      && (!pc.Leaving? && !pc.Swapped? && !pc.Holding? ==> CanFinish(s, t, tools))
  {
    ReachableInv(healthCheck, onToolsChanged, actions);
    var s := Run(Init(healthCheck, onToolsChanged), actions).value;
    assert Owner(s).At(s.reconnectors[t].pc);
    hide CanFinish, Run, Init, Inv;
    match s.reconnectors[t].pc
    case Spawned => FromSpawned(s, t, tools);
    case ClosingOld(_) => FromClosing(s, t, tools);
    case Waiting => FromWaiting(s, t, tools);
    case Dialing => FromDialing(s, t, tools);
    case Opened(_) => FromOpened(s, t, tools);
    case Fetching(_, _) => FromFetching(s, t, tools);
    case Abandoning(_) => FromClosing(s, t, tools);
    case Holding(_, _) => FromHolding(s, t);
    case Swapped => FromSwapped(s, t);
    case Leaving =>
  }

  // ---- a failed probe ----------------------------------------------------------------------

  const LOAD := BySupervisor(SupervisorLoad)
  const READ := BySupervisor(SupervisorReadSession)
  const FAIL := BySupervisor(ProbeFail)
  const CHECK := BySupervisor(SupervisorCheckContext)
  const CAS := BySupervisor(SupervisorCas)

  /** The supervisor's turns in a round with a failed probe. */
  lemma ProbeTurns(s: State)
    ensures s.supervisor.SupervisorIdle? && !s.entry.reconnecting ==>
      SupervisorTakes(s, SupervisorLoad) == Some(SupervisorTurn(SupervisorChecked, false, false))
    ensures s.supervisor.SupervisorChecked? && s.entry.session.Some? ==>
      SupervisorTakes(s, SupervisorReadSession) == Some(SupervisorTurn(SupervisorProbing(s.entry.session.value), false, false))
    ensures s.supervisor.SupervisorProbing? ==>
      SupervisorTakes(s, ProbeFail) == Some(SupervisorTurn(SupervisorFailed, false, false))
    ensures s.supervisor.SupervisorFailed? && !s.cancelled ==>
      SupervisorTakes(s, SupervisorCheckContext) == Some(SupervisorTurn(SupervisorRacing, false, false))
    ensures s.supervisor.SupervisorRacing? && !s.entry.reconnecting ==>
      SupervisorTakes(s, SupervisorCas) == Some(SupervisorTurn(SupervisorIdle, true, false))
  {
  }

  lemma SupervisorLeads(s: State, a: SupervisorAction)
    requires SupervisorTakes(s, a).Some?
    ensures var s' := Step(s, BySupervisor(a)); var turn := SupervisorTakes(s, a).value;
      && s'.Some? && s'.value.supervisor == turn.pc && s'.value.cancelled == s.cancelled && s'.value.nextThread >= s.nextThread
      && s'.value.entry == s.entry.(reconnecting := s.entry.reconnecting || turn.starts)
      && s'.value.reconnectors == (if turn.starts then s.reconnectors[s.nextThread := Reconnector(Spawned, 0, 0)] else s.reconnectors)
      && (!turn.starts ==> s'.value.nextThread == s.nextThread)
  {
    var turn := SupervisorTakes(s, a).value;
    var moved := s.(supervisor := turn.pc);
    hide SupervisorTakes;
    assert turn.starts ==> SupervisorStep(s, a) == Some(Spawn(moved.(entry := s.entry.(reconnecting := true))));
    assert !turn.starts ==> SupervisorStep(s, a).Some? && SupervisorStep(s, a).value.(log := s.log) == moved;
    hide SupervisorStep;
  }

  /** The supervisor's round with a failed probe starts a reconnector for a server that has none. */
  lemma FailedProbeReconnects(s: State)
    requires s.supervisor.SupervisorIdle? && !s.entry.reconnecting && !s.cancelled && s.entry.session.Some? && Unclaimed(s)
    ensures var r := Run(s, [LOAD, READ, FAIL, CHECK, CAS]);
      && r.Some? && r.value.entry.reconnecting && r.value.supervisor.SupervisorIdle?
      && r.value.reconnectors == map[s.nextThread := Reconnector(Spawned, 0, 0)]
  {
    hide Step, SupervisorTakes, Run;
    ProbeTurns(s);
    SupervisorLeads(s, SupervisorLoad);
    RunCons(s, LOAD, [READ, FAIL, CHECK, CAS]);
    var s1 := Step(s, LOAD).value;
    ProbeTurns(s1);
    SupervisorLeads(s1, SupervisorReadSession);
    RunCons(s1, READ, [FAIL, CHECK, CAS]);
    var s2 := Step(s1, READ).value;
    ProbeTurns(s2);
    SupervisorLeads(s2, ProbeFail);
    RunCons(s2, FAIL, [CHECK, CAS]);
    var s3 := Step(s2, FAIL).value;
    ProbeTurns(s3);
    SupervisorLeads(s3, SupervisorCheckContext);
    RunCons(s3, CHECK, [CAS]);
    var s4 := Step(s3, CHECK).value;
    ProbeTurns(s4);
    SupervisorLeads(s4, SupervisorCas);
    OneStep(s4, CAS);
    assert [LOAD] + [READ, FAIL, CHECK, CAS] == [LOAD, READ, FAIL, CHECK, CAS];
    assert [READ] + [FAIL, CHECK, CAS] == [READ, FAIL, CHECK, CAS];
    assert [FAIL] + [CHECK, CAS] == [FAIL, CHECK, CAS] && [CHECK] + [CAS] == [CHECK, CAS];
  }

  // ---- a queued notice ---------------------------------------------------------------------

  /** What a step of the drain leads to. */
  lemma DrainLeads(s: State, a: DrainAction)
    requires DrainTakes(s, a).Some?
    ensures var s' := Step(s, ByDrain(a)); var turn := DrainTakes(s, a).value;
      && s'.Some? && s'.value.drain == turn.pc
      && s'.value.entry == s.entry.(refresh := turn.refresh, tools := turn.tools)
      && s'.value.onToolsChanged == s.onToolsChanged && s'.value.log.changes == turn.changes
  {
    hide DrainTakes;
  }

  /** The last steps of a refresh: the list is stored, and reported if it differs. */
  lemma RefreshEnds(s: State)
    requires s.drain.DrainStoring?
    ensures var r := Run(s, [ByDrain(DrainStore), ByDrain(DrainNotify)]); var tools := s.drain.listing.tools;
      && r.Some? && r.value.drain.DrainIdle? && r.value.entry.tools.tools == tools
      && r.value.entry == s.entry.(tools := r.value.entry.tools)
      && r.value.log.changes == s.log.changes +
           if s.onToolsChanged && Identity(s.entry.tools.tools) != Identity(tools) then [Change(s.entry.tools.tools, tools)] else []
  {
    DrainLeads(s, DrainStore);
    var s1 := Step(s, ByDrain(DrainStore)).value;
    DrainLeads(s1, DrainNotify);
    hide Step;
    RunCons(s, ByDrain(DrainStore), [ByDrain(DrainNotify)]);
    OneStep(s1, ByDrain(DrainNotify));
    assert [ByDrain(DrainStore)] + [ByDrain(DrainNotify)] == [ByDrain(DrainStore), ByDrain(DrainNotify)];
  }

  /** The middle steps: the stored session is asked, and answers. */
  lemma RefreshFetches(s: State, tools: seq<ToolInfo>)
    requires s.drain.DrainChecked? && s.entry.session.Some?
    ensures var r := Run(s, [ByDrain(DrainReadSession), ByDrain(DrainFetchStart), ByDrain(DrainFetchOk(tools))]);
      && r.Some? && r.value.drain.DrainStoring? && r.value.drain.listing.tools == tools
      && r.value.drain.listing.origin == s.entry.session
      && r.value.entry == s.entry && r.value.onToolsChanged == s.onToolsChanged && r.value.log.changes == s.log.changes
  {
    var a, b, c := ByDrain(DrainReadSession), ByDrain(DrainFetchStart), ByDrain(DrainFetchOk(tools));
    DrainLeads(s, DrainReadSession);
    var s1 := Step(s, a).value;
    DrainLeads(s1, DrainFetchStart);
    var s2 := Step(s1, b).value;
    DrainLeads(s2, DrainFetchOk(tools));
    hide Step;
    RunCons(s, a, [b, c]);
    RunCons(s1, b, [c]);
    OneStep(s2, c);
    assert [a] + [b, c] == [a, b, c] && [b] + [c] == [b, c];
  }

  /** The first steps: the token is taken and no reconnect is running. */
  lemma RefreshStarts(s: State)
    requires s.drain.DrainIdle? && s.entry.refresh && !s.entry.reconnecting
    ensures var r := Run(s, [ByDrain(DrainTake), ByDrain(DrainCheck)]);
      && r.Some? && r.value.drain.DrainChecked? && r.value.entry == s.entry.(refresh := false)
      && r.value.onToolsChanged == s.onToolsChanged && r.value.log.changes == s.log.changes
  {
    DrainLeads(s, DrainTake);
    var s1 := Step(s, ByDrain(DrainTake)).value;
    DrainLeads(s1, DrainCheck);
    hide Step;
    RunCons(s, ByDrain(DrainTake), [ByDrain(DrainCheck)]);
    OneStep(s1, ByDrain(DrainCheck));
    assert [ByDrain(DrainTake)] + [ByDrain(DrainCheck)] == [ByDrain(DrainTake), ByDrain(DrainCheck)];
  }

  function Refresh(tools: seq<ToolInfo>): seq<Action> {
    [ByDrain(DrainTake), ByDrain(DrainCheck)]
    + [ByDrain(DrainReadSession), ByDrain(DrainFetchStart), ByDrain(DrainFetchOk(tools))]
    + [ByDrain(DrainStore), ByDrain(DrainNotify)]
  }

  /**
   A queued notice, with the drain idle, a session stored and no reconnect running: one
   round of the drain stores exactly the list the session answers with, and reports the
   change exactly when it is one and somebody listens.
   */
  lemma RefreshDelivers(s: State, tools: seq<ToolInfo>)
    requires s.drain.DrainIdle? && s.entry.refresh && !s.entry.reconnecting && s.entry.session.Some?
    ensures var r := Run(s, Refresh(tools)); var was := s.entry.tools.tools;
      && r.Some? && r.value.drain.DrainIdle? && !r.value.entry.refresh
      && r.value.entry.tools.tools == tools && r.value.entry.session == s.entry.session && r.value.entry.state == s.entry.state
      && r.value.log.changes == s.log.changes +
           if s.onToolsChanged && Identity(was) != Identity(tools) then [Change(was, tools)] else []
  {
    hide Run, Step;
    var first := [ByDrain(DrainTake), ByDrain(DrainCheck)];
    var middle := [ByDrain(DrainReadSession), ByDrain(DrainFetchStart), ByDrain(DrainFetchOk(tools))];
    RefreshStarts(s);
    var s1 := Run(s, first).value;
    RefreshFetches(s1, tools);
    var s2 := Run(s1, middle).value;
    RefreshEnds(s2);
    RunAppend(s, first, middle);
    RunAppend(s, first + middle, [ByDrain(DrainStore), ByDrain(DrainNotify)]);
  }
}
