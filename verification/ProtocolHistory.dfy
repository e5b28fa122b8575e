/**
 What the connection protocol shows, in terms of the schedule that led there: which tool
 list is stored, what a call's snapshot read, how often a reconnector has tried, what
 Close reaches, and which loops still run.
 */
module ProtocolHistory {
  import opened Basics
  import opened Tools
  import opened ServerProtocol
  import opened ProtocolSafety

  // ---- runs, action by action ----------------------------------------------------------

  lemma {:induction false} RunAppend(s: State, a: seq<Action>, b: seq<Action>)
    ensures Run(s, a + b) == if Run(s, a).Some? then Run(Run(s, a).value, b) else None
    decreases |a|
  {
    hide Step;
    if a == [] {
      assert a + b == b;
    } else {
      assert (a + b)[0] == a[0] && (a + b)[1..] == a[1..] + b;
      if Step(s, a[0]).Some? {
        RunAppend(Step(s, a[0]).value, a[1..], b);
      }
    }
  }

  lemma RunSplits(s: State, actions: seq<Action>, k: nat)
    requires k <= |actions| && Run(s, actions).Some?
    ensures Run(s, actions[..k]).Some?
    ensures Run(Run(s, actions[..k]).value, actions[k..]) == Run(s, actions)
  {
    hide Run;
    assert actions[..k] + actions[k..] == actions;
    RunAppend(s, actions[..k], actions[k..]);
  }

  /** The last action of a run. */
  lemma RunEnds(s: State, actions: seq<Action>)
    requires actions != [] && Run(s, actions).Some?
    ensures var n := |actions| - 1;
      Run(s, actions[..n]).Some? && Step(Run(s, actions[..n]).value, actions[n]) == Run(s, actions)
  {
    hide Step;
    var n := |actions| - 1;
    RunSplits(s, actions, n);
    assert actions[n..] == [actions[n]] && [actions[n]][1..] == [];
  }

  // ---- the stored tool list --------------------------------------------------------------

  /** The list of thread t's latest successful fetch. */
  function LastFetch(actions: seq<Action>, t: nat): Option<seq<ToolInfo>>
    decreases |actions|
  {
    if actions == [] then None
    else
      var a := actions[|actions| - 1];
      if a.ByReconnector? && a.t == t && a.r.FetchOk? then Some(a.r.tools)
      else LastFetch(actions[..|actions| - 1], t)
  }

  /** The list of the latest successful refresh. */
  function LastRefresh(actions: seq<Action>): Option<seq<ToolInfo>>
    decreases |actions|
  {
    if actions == [] then None
    else
      var a := actions[|actions| - 1];
      if a.ByDrain? && a.d.DrainFetchOk? then Some(a.d.tools) else LastRefresh(actions[..|actions| - 1])
  }

  /** The list installed last: by New, by a reconnector's swap, or by a refresh's store. */
  function LastInstalled(actions: seq<Action>): Option<seq<ToolInfo>>
    decreases |actions|
  {
    if actions == [] then None
    else
      var before, a := actions[..|actions| - 1], actions[|actions| - 1];
      if a.ByNew? && a.b.BootFetchOk? then Some(a.b.tools)
      else if IsSwap(a) then LastFetch(before, a.t)
      else if a == ByDrain(DrainStore) then LastRefresh(before)
      else LastInstalled(before)
  }

  ghost predicate Delivered(s: State, actions: seq<Action>) {
    && s.entry.tools.tools == (if LastInstalled(actions).Some? then LastInstalled(actions).value else [])
    && (forall t :: t in s.reconnectors && s.reconnectors[t].pc.Holding? ==>
          LastFetch(actions, t) == Some(s.reconnectors[t].pc.listing.tools))
    && (s.drain.DrainStoring? ==> LastRefresh(actions) == Some(s.drain.listing.tools))
  }

  /** What a reconnector's step does to the lists. */
  lemma ReconnectLists(s: State, a: ReconnectAction, t: nat)
    requires ReconnectStep(s, a, t).Some?
    ensures var s' := ReconnectStep(s, a, t).value; var pc := s.reconnectors[t].pc;
      && s'.entry.tools.tools == (if a.Swap? && pc.Holding? then pc.listing.tools else s.entry.tools.tools)
      && (a.Swap? ==> pc.Holding?)
      && (t in s'.reconnectors && s'.reconnectors[t].pc.Holding? ==> a.FetchOk? && s'.reconnectors[t].pc.listing.tools == a.tools)
  {
  }

  lemma ReconnectDelivers(s: State, actions: seq<Action>, t: nat, a: ReconnectAction)
    requires Delivered(s, actions) && ReconnectStep(s, a, t).Some?
    ensures Delivered(ReconnectStep(s, a, t).value, actions + [ByReconnector(t, a)])
  {
    assert (actions + [ByReconnector(t, a)])[..|actions|] == actions;
    hide ReconnectStep;
    ReconnectFrame(s, a, t);
    ReconnectThreads(s, a, t);
    ReconnectLists(s, a, t);
  }

  lemma OtherDelivers(s: State, actions: seq<Action>, a: Action)
    requires Delivered(s, actions) && !a.ByReconnector? && Effect(s, a).Some?
    ensures Delivered(Effect(s, a).value, actions + [a])
  {
    assert (actions + [a])[..|actions|] == actions;
    match a
    case ByNew(b) => BootDelivers(s, actions, b);
    case ByDrain(d) => DrainDelivers(s, actions, d);
    case BySupervisor(v) =>
      SupervisorFrame(s, v);
      SupervisorThreads(s, v);
      hide SupervisorStep;
    case ByOutside(o) => OutsideDelivers(s, actions, o);
  }

  lemma BootDelivers(s: State, actions: seq<Action>, a: BootAction)
    requires Delivered(s, actions) && BootStep(s, a).Some?
    ensures Delivered(BootStep(s, a).value, actions + [ByNew(a)])
  {
    assert (actions + [ByNew(a)])[..|actions|] == actions;
    BootLists(s, a);
    BootThreads(s, a);
    hide BootStep;
  }

  lemma BootLists(s: State, a: BootAction)
    requires BootStep(s, a).Some?
    ensures var s' := BootStep(s, a).value;
      && s'.entry.tools.tools == (if a.BootFetchOk? then a.tools else s.entry.tools.tools)
      && (s'.drain == s.drain || s'.drain.DrainIdle?)
  {
  }

  lemma DrainDelivers(s: State, actions: seq<Action>, a: DrainAction)
    requires Delivered(s, actions) && DrainStep(s, a).Some?
    ensures Delivered(DrainStep(s, a).value, actions + [ByDrain(a)])
  {
    assert (actions + [ByDrain(a)])[..|actions|] == actions;
    DrainFrame(s, a);
    DrainLists(s, a);
    hide DrainStep;
  }

  lemma DrainLists(s: State, a: DrainAction)
    requires DrainStep(s, a).Some?
    ensures var s' := DrainStep(s, a).value;
      && (a.DrainStore? ==> s.drain.DrainStoring? && s'.entry.tools.tools == s.drain.listing.tools && !s'.drain.DrainStoring?)
      && (!a.DrainStore? ==> s'.entry.tools.tools == s.entry.tools.tools)
      && (s'.drain.DrainStoring? ==> a.DrainFetchOk? && s'.drain.listing.tools == a.tools)
  {
  }

  lemma OutsideDelivers(s: State, actions: seq<Action>, a: OutsideAction)
    requires Delivered(s, actions) && OutsideStep(s, a).Some?
    ensures Delivered(OutsideStep(s, a).value, actions + [ByOutside(a)])
  {
    assert (actions + [ByOutside(a)])[..|actions|] == actions;
    OutsideFrame(s, a);
    hide OutsideStep;
  }

  lemma StepDelivers(s: State, actions: seq<Action>, a: Action)
    requires Delivered(s, actions) && Step(s, a).Some?
    ensures Delivered(Step(s, a).value, actions + [a])
  {
    hide BootStep, ReconnectStep, DrainStep, SupervisorStep, OutsideStep, LastInstalled, LastFetch, LastRefresh;
    if a.ByReconnector? {
      ReconnectDelivers(s, actions, a.t, a.r);
    } else {
      OtherDelivers(s, actions, a);
    }
  }

  lemma {:induction false} RunDelivers(healthCheck: bool, onToolsChanged: bool, actions: seq<Action>)
    requires Run(Init(healthCheck, onToolsChanged), actions).Some?
    ensures Delivered(Run(Init(healthCheck, onToolsChanged), actions).value, actions)
    decreases |actions|
  {
    if actions != [] {
      hide Delivered, Run, Init, Step;
      var init, n := Init(healthCheck, onToolsChanged), |actions| - 1;
      RunEnds(init, actions);
      RunDelivers(healthCheck, onToolsChanged, actions[..n]);
      StepDelivers(Run(init, actions[..n]).value, actions[..n], actions[n]);
      assert actions[..n] + [actions[n]] == actions;
    }
  }

  /**
   In every run the stored tools are the list carried by the fetch that was installed
   last, whether New, a reconnector or a refresh installed it.
   */
  lemma ToolsAreLastInstalled(healthCheck: bool, onToolsChanged: bool, actions: seq<Action>)
    requires Run(Init(healthCheck, onToolsChanged), actions).Some?
    ensures Run(Init(healthCheck, onToolsChanged), actions).value.entry.tools.tools
         == if LastInstalled(actions).Some? then LastInstalled(actions).value else []
  {
    RunDelivers(healthCheck, onToolsChanged, actions);
  }

  // ---- times and notices -------------------------------------------------------------------

  /** When thread t last started a fetch, or -1; actions are numbered from 0. */
  function LastAsk(actions: seq<Action>, t: nat): int
    decreases |actions|
  {
    if actions == [] then -1
    else
      var n := |actions| - 1;
      if actions[n] == ByReconnector(t, FetchStart) then n else LastAsk(actions[..n], t)
  }

  /** When the drain last started a fetch, or -1. */
  function LastRefreshAsk(actions: seq<Action>): int
    decreases |actions|
  {
    if actions == [] then -1
    else
      var n := |actions| - 1;
      if actions[n] == ByDrain(DrainFetchStart) then n else LastRefreshAsk(actions[..n])
  }

  /** When New started its fetch, or -1. */
  function BootAsk(actions: seq<Action>): int
    decreases |actions|
  {
    if actions == [] then -1
    else
      var n := |actions| - 1;
      if actions[n] == ByNew(BootFetchStart) then n else BootAsk(actions[..n])
  }

  /** When the fetch installed last was started, or -1. */
  function InstalledSince(actions: seq<Action>): int
    decreases |actions|
  {
    if actions == [] then -1
    else
      var before, a := actions[..|actions| - 1], actions[|actions| - 1];
      if a.ByNew? && a.b.BootFetchOk? then BootAsk(before)
      else if IsSwap(a) then LastAsk(before, a.t)
      else if a == ByDrain(DrainStore) then LastRefreshAsk(before)
      else InstalledSince(before)
  }

  /** When the latest refresh that failed was started, or -1. */
  function FailedSince(actions: seq<Action>): int
    decreases |actions|
  {
    if actions == [] then -1
    else
      var before := actions[..|actions| - 1];
      if actions[|actions| - 1] == ByDrain(DrainFetchFail) then Max(FailedSince(before), LastRefreshAsk(before))
      else FailedSince(before)
  }

  /** A change notice is queued: one came since the drain last took a token. */
  function Queued(actions: seq<Action>): bool
    decreases |actions|
  {
    if actions == [] then false
    else
      var a := actions[|actions| - 1];
      a == ByOutside(Notice) || (a != ByDrain(DrainTake) && Queued(actions[..|actions| - 1]))
  }

  /** The clock counts actions, and every stamp is when the fetch it belongs to was started. */
  ghost predicate Timed(s: State, actions: seq<Action>) {
    && s.clock == |actions|
    && s.entry.tools.since == InstalledSince(actions)
    && s.log.failedSince == FailedSince(actions)
    && s.entry.refresh == Queued(actions)
    && (s.boot.BootFetching? ==> s.boot.since == BootAsk(actions))
    && (forall t :: t in s.reconnectors && s.reconnectors[t].pc.Fetching? ==> s.reconnectors[t].pc.since == LastAsk(actions, t))
    && (forall t :: t in s.reconnectors && s.reconnectors[t].pc.Holding? ==> s.reconnectors[t].pc.listing.since == LastAsk(actions, t))
    && (s.drain.DrainFetching? ==> s.drain.since == LastRefreshAsk(actions))
    && (s.drain.DrainStoring? ==> s.drain.listing.since == LastRefreshAsk(actions))
  }

  lemma ReconnectStamps(s: State, a: ReconnectAction, t: nat)
    requires ReconnectStep(s, a, t).Some?
    ensures var s' := ReconnectStep(s, a, t).value; var pc := s.reconnectors[t].pc;
      && (a.Swap? ==> pc.Holding? && s'.entry.tools.since == pc.listing.since)
      && (!a.Swap? ==> s'.entry.tools == s.entry.tools)
      && (t in s'.reconnectors ==>
            var pc' := s'.reconnectors[t].pc;
            && (a.FetchStart? ==> pc'.Fetching? && pc'.since == s.clock)
            && (!a.FetchStart? ==> !pc'.Fetching?)
            && (pc'.Holding? ==> pc.Fetching? && pc'.listing.since == pc.since))
  {
  }

  lemma ReconnectTimed(s: State, actions: seq<Action>, t: nat, a: ReconnectAction)
    requires Timed(s, actions) && ReconnectStep(s, a, t).Some?
    ensures Timed(ReconnectStep(s, a, t).value.(clock := s.clock + 1), actions + [ByReconnector(t, a)])
  {
    assert (actions + [ByReconnector(t, a)])[..|actions|] == actions;
    hide ReconnectStep;
    ReconnectFrame(s, a, t);
    ReconnectThreads(s, a, t);
    ReconnectStamps(s, a, t);
  }

  lemma BootStamps(s: State, a: BootAction)
    requires BootStep(s, a).Some?
    ensures var s' := BootStep(s, a).value;
      && (a.BootFetchOk? ==> s.boot.BootFetching? && s'.entry.tools.since == s.boot.since && !s'.boot.BootFetching?)
      && (!a.BootFetchOk? ==> s'.entry.tools == s.entry.tools)
      && (s'.boot.BootFetching? ==> a.BootFetchStart? && s'.boot.since == s.clock)
      && (s'.drain == s.drain || s'.drain.DrainIdle?) && s'.entry.refresh == s.entry.refresh
  {
  }

  lemma BootTimed(s: State, actions: seq<Action>, a: BootAction)
    requires Timed(s, actions) && BootStep(s, a).Some?
    ensures Timed(BootStep(s, a).value.(clock := s.clock + 1), actions + [ByNew(a)])
  {
    assert (actions + [ByNew(a)])[..|actions|] == actions;
    BootStamps(s, a);
    BootFrame(s, a);
    BootThreads(s, a);
    hide BootStep;
  }

  lemma DrainStamps(s: State, a: DrainAction)
    requires DrainStep(s, a).Some?
    ensures var s' := DrainStep(s, a).value;
      && (a.DrainStore? ==> s.drain.DrainStoring? && s'.entry.tools.since == s.drain.listing.since)
      && (!a.DrainStore? ==> s'.entry.tools == s.entry.tools)
      && (s'.drain.DrainFetching? ==> a.DrainFetchStart? && s'.drain.since == s.clock)
      && (a.DrainFetchStart? ==> s'.drain.DrainFetching?)
      && (s'.drain.DrainStoring? ==> s.drain.DrainFetching? && s'.drain.listing.since == s.drain.since)
      && s'.entry.refresh == (s.entry.refresh && !a.DrainTake?)
      && (a.DrainFetchFail? ==> s.drain.DrainFetching? && s'.log.failedSince == Max(s.log.failedSince, s.drain.since))
      && (!a.DrainFetchFail? ==> s'.log.failedSince == s.log.failedSince)
  {
  }

  lemma DrainTimed(s: State, actions: seq<Action>, a: DrainAction)
    requires Timed(s, actions) && DrainStep(s, a).Some?
    ensures Timed(DrainStep(s, a).value.(clock := s.clock + 1), actions + [ByDrain(a)])
  {
    assert (actions + [ByDrain(a)])[..|actions|] == actions;
    DrainFrame(s, a);
    DrainStamps(s, a);
    hide DrainStep;
  }

  lemma OutsideTimed(s: State, actions: seq<Action>, a: OutsideAction)
    requires Timed(s, actions) && OutsideStep(s, a).Some?
    ensures Timed(OutsideStep(s, a).value.(clock := s.clock + 1), actions + [ByOutside(a)])
  {
    assert (actions + [ByOutside(a)])[..|actions|] == actions;
    OutsideFrame(s, a);
    OutsideTokens(s, a);
    hide OutsideStep;
  }

  lemma OutsideTokens(s: State, a: OutsideAction)
    requires OutsideStep(s, a).Some?
    ensures var s' := OutsideStep(s, a).value;
      && s'.entry.refresh == (s.entry.refresh || a.Notice?) && s'.log.failedSince == s.log.failedSince
      && s'.log.notices == if a.Notice? && !s.entry.reconnecting then s.log.notices + {s.clock} else s.log.notices
  {
  }

  lemma StepTimed(s: State, actions: seq<Action>, a: Action)
    requires Timed(s, actions) && Step(s, a).Some?
    ensures Timed(Step(s, a).value, actions + [a])
  {
    hide BootStep, ReconnectStep, DrainStep, SupervisorStep, OutsideStep, Timed;
    match a
    case ByNew(b) => BootTimed(s, actions, b);
    case ByReconnector(t, r) => ReconnectTimed(s, actions, t, r);
    case ByDrain(d) => DrainTimed(s, actions, d);
    case BySupervisor(v) => SupervisorTimed(s, actions, v);
    case ByOutside(o) => OutsideTimed(s, actions, o);
  }

  lemma SupervisorTimed(s: State, actions: seq<Action>, a: SupervisorAction)
    requires Timed(s, actions) && SupervisorStep(s, a).Some?
    ensures Timed(SupervisorStep(s, a).value.(clock := s.clock + 1), actions + [BySupervisor(a)])
  {
    assert (actions + [BySupervisor(a)])[..|actions|] == actions;
    SupervisorFrame(s, a);
    SupervisorThreads(s, a);
    hide SupervisorStep;
  }

  lemma {:induction false} RunTimed(healthCheck: bool, onToolsChanged: bool, actions: seq<Action>)
    requires Run(Init(healthCheck, onToolsChanged), actions).Some?
    ensures Timed(Run(Init(healthCheck, onToolsChanged), actions).value, actions)
    decreases |actions|
  {
    if actions != [] {
      hide Timed, Run, Init, Step;
      var init, n := Init(healthCheck, onToolsChanged), |actions| - 1;
      RunEnds(init, actions);
      RunTimed(healthCheck, onToolsChanged, actions[..n]);
      StepTimed(Run(init, actions[..n]).value, actions[..n], actions[n]);
      assert actions[..n] + [actions[n]] == actions;
    }
  }

  /**
   The bookkeeping the freshness laws speak of, in terms of the schedule: the stored list
   was asked for when its fetch started, failures likewise, a token is queued exactly when
   a notice came since the drain last took one, and time counts actions.
   */
  lemma StampsAreFetchStarts(healthCheck: bool, onToolsChanged: bool, actions: seq<Action>)
    requires Run(Init(healthCheck, onToolsChanged), actions).Some?
    ensures var s := Run(Init(healthCheck, onToolsChanged), actions).value;
      && s.clock == |actions| && s.entry.tools.since == InstalledSince(actions)
      && s.log.failedSince == FailedSince(actions) && s.entry.refresh == Queued(actions)
  {
    RunTimed(healthCheck, onToolsChanged, actions);
  }

  /** Only a notice posted while no reconnect is running adds to the notices. */
  lemma StepNotices(s: State, a: Action)
    requires Step(s, a).Some?
    ensures Step(s, a).value.log.notices ==
      if a == ByOutside(Notice) && !s.entry.reconnecting then s.log.notices + {s.clock} else s.log.notices
  {
    hide BootStep, ReconnectStep, DrainStep, SupervisorStep, OutsideStep;
    match a
    case ByNew(b) => BootFrame(s, b);
    case ByReconnector(t, r) => ReconnectFrame(s, r, t);
    case ByDrain(d) => DrainFrame(s, d);
    case BySupervisor(v) => SupervisorFrame(s, v);
    case ByOutside(o) => OutsideTokens(s, o);
  }

  /** Action n of the schedule is a notice, posted while no reconnect was running. */
  ghost predicate NoticeAt(healthCheck: bool, onToolsChanged: bool, actions: seq<Action>, n: int) {
    && 0 <= n < |actions| && actions[n] == ByOutside(Notice)
    && var before := Run(Init(healthCheck, onToolsChanged), actions[..n]);
       before.Some? && !before.value.entry.reconnecting
  }

  /** The notices the freshness laws count are exactly those. */
  lemma {:induction false} NoticesAreCounted(healthCheck: bool, onToolsChanged: bool, actions: seq<Action>, n: int)
    requires Run(Init(healthCheck, onToolsChanged), actions).Some?
    ensures n in Run(Init(healthCheck, onToolsChanged), actions).value.log.notices
       <==> NoticeAt(healthCheck, onToolsChanged, actions, n)
    decreases |actions|
  {
    if actions != [] {
      hide Run, Init, Step;
      var init, m := Init(healthCheck, onToolsChanged), |actions| - 1;
      RunEnds(init, actions);
      NoticesAreCounted(healthCheck, onToolsChanged, actions[..m], n);
      StampsAreFetchStarts(healthCheck, onToolsChanged, actions[..m]);
      StepNotices(Run(init, actions[..m]).value, actions[m]);
      if 0 <= n < m {
        assert actions[..m][..n] == actions[..n];
      }
    }
  }

  // ---- what calls read -------------------------------------------------------------------

  predicate IsSnapshot(a: Action) {
    a == ByOutside(TakeSnapshot)
  }

  /** The snapshot shows the entry as it is. */
  ghost predicate Reads(snap: Snapshot, s: State) {
    && snap.state == s.entry.state && snap.session == s.entry.session && snap.tools == s.entry.tools.tools
    && (snap.usable <==> s.entry.session.Some? && s.entry.session.value in s.live)
    && snap.closeBegun == s.closeBegun
  }

  /** Only a snapshot adds to the snapshots taken. */
  lemma StepSnapshots(s: State, a: Action)
    requires Step(s, a).Some?
    ensures var s' := Step(s, a).value;
      && (!IsSnapshot(a) ==> s'.log.snapshots == s.log.snapshots)
      && (IsSnapshot(a) ==> |s'.log.snapshots| == |s.log.snapshots| + 1 && s.log.snapshots <= s'.log.snapshots
                            && Reads(s'.log.snapshots[|s.log.snapshots|], s))
  {
    hide BootStep, ReconnectStep, DrainStep, SupervisorStep;
    match a
    case ByNew(b) => BootFrame(s, b);
    case ByReconnector(t, r) => ReconnectFrame(s, r, t);
    case ByDrain(d) => DrainFrame(s, d);
    case BySupervisor(v) => SupervisorFrame(s, v);
    case ByOutside(o) => OutsideFrame(s, o);
  }

  lemma {:induction false} SnapshotsStay(s: State, actions: seq<Action>)
    requires Run(s, actions).Some?
    ensures s.log.snapshots <= Run(s, actions).value.log.snapshots
    decreases |actions|
  {
    if actions != [] {
      StepSnapshots(s, actions[0]);
      hide Step;
      SnapshotsStay(Step(s, actions[0]).value, actions[1..]);
    }
  }

  /**
   The snapshot a call takes as action k of a run shows the state, session and tools of
   the entry as the actions before k left it.
   */
  lemma SnapshotReadsEntry(healthCheck: bool, onToolsChanged: bool, actions: seq<Action>, k: nat)
    requires Run(Init(healthCheck, onToolsChanged), actions).Some? && k < |actions| && IsSnapshot(actions[k])
    ensures var init := Init(healthCheck, onToolsChanged);
      && Run(init, actions[..k]).Some?
      && var before := Run(init, actions[..k]).value; var n := |before.log.snapshots|;
      && n < |Run(init, actions).value.log.snapshots|
      && Reads(Run(init, actions).value.log.snapshots[n], before)
  {
    var init := Init(healthCheck, onToolsChanged);
    hide Init, Reads;
    RunSplits(init, actions, k);
    var before := Run(init, actions[..k]).value;
    assert actions[k..][0] == actions[k] && actions[k..] != [];
    StepSnapshots(before, actions[k]);
    hide Step;
    SnapshotsStay(Step(before, actions[k]).value, actions[k..][1..]);
  }

  // ---- reconnect attempts ----------------------------------------------------------------

  /** Thread t's failed attempts: a dial that fails, or a fetch after which the session is closed. */
  function Failures(actions: seq<Action>, t: nat): nat
    decreases |actions|
  {
    if actions == [] then 0
    else
      var a := actions[|actions| - 1];
      Failures(actions[..|actions| - 1], t)
      + if a.ByReconnector? && a.t == t && (a.r.DialFail? || a.r.CloseAbandoned?) then 1 else 0
  }

  /** The reconnector has entered its loop. */
  predicate Looping(pc: ReconnectPc) {
    !pc.Spawned? && !pc.ClosingOld?
  }

  ghost predicate Counted(s: State, actions: seq<Action>) {
    && (forall t :: t in s.reconnectors ==>
          s.reconnectors[t].attempt == if Looping(s.reconnectors[t].pc) then 1 + Failures(actions, t) else 0)
    && (forall t :: t in s.reconnectors && !Looping(s.reconnectors[t].pc) ==> Failures(actions, t) == 0)
    && (forall t :: t >= s.nextThread ==> Failures(actions, t) == 0)
    && (forall t :: t in s.reconnectors ==> t < s.nextThread)
  }

  lemma ReconnectAttempts(s: State, a: ReconnectAction, t: nat)
    requires ReconnectStep(s, a, t).Some? && !a.Release?
    ensures var s' := ReconnectStep(s, a, t).value;
      && t in s.reconnectors && t in s'.reconnectors
      && var r, r' := s.reconnectors[t], s'.reconnectors[t];
      && (a.DialFail? || a.CloseAbandoned? ==> Looping(r.pc) && Looping(r'.pc) && r'.attempt == r.attempt + 1)
      && (!(a.DialFail? || a.CloseAbandoned?) ==>
            (Looping(r.pc) ==> Looping(r'.pc))
            && r'.attempt == r.attempt + if Looping(r'.pc) && !Looping(r.pc) then 1 else 0)
  {
    hide NextBackoff;
  }

  lemma ReconnectCounts(s: State, actions: seq<Action>, t: nat, a: ReconnectAction)
    requires Counted(s, actions) && ReconnectStep(s, a, t).Some?
    ensures Counted(ReconnectStep(s, a, t).value, actions + [ByReconnector(t, a)])
  {
    assert (actions + [ByReconnector(t, a)])[..|actions|] == actions;
    ReconnectFrame(s, a, t);
    ReconnectThreads(s, a, t);
    if !a.Release? {
      ReconnectAttempts(s, a, t);
    }
    hide ReconnectStep;
    var longer, failed := actions + [ByReconnector(t, a)], a.DialFail? || a.CloseAbandoned?;
    assert forall u: nat :: Failures(longer, u) == Failures(actions, u) + if u == t && failed then 1 else 0;
    hide Failures;
  }

  lemma OtherCounts(s: State, actions: seq<Action>, a: Action)
    requires Counted(s, actions) && !a.ByReconnector? && Effect(s, a).Some?
    ensures Counted(Effect(s, a).value, actions + [a])
  {
    assert (actions + [a])[..|actions|] == actions;
    OtherThreads(s, a);
    hide Effect;
    assert forall t: nat :: Failures(actions + [a], t) == Failures(actions, t);
    hide Failures;
  }

  /** Other actions leave the running reconnectors alone, and start at most one. */
  lemma OtherThreads(s: State, a: Action)
    requires !a.ByReconnector? && Effect(s, a).Some?
    ensures var s' := Effect(s, a).value;
      || (s'.reconnectors == s.reconnectors && s'.nextThread == s.nextThread)
      || (s'.reconnectors == s.reconnectors[s.nextThread := Reconnector(Spawned, 0, 0)] && s'.nextThread == s.nextThread + 1)
  {
    hide BootStep, ReconnectStep, DrainStep, SupervisorStep, OutsideStep;
    match a
    case ByNew(b) => BootThreads(s, b);
    case ByDrain(d) => DrainFrame(s, d);
    case BySupervisor(v) => SupervisorThreads(s, v);
    case ByOutside(o) => OutsideFrame(s, o);
  }

  lemma {:induction false} RunCounts(healthCheck: bool, onToolsChanged: bool, actions: seq<Action>)
    requires Run(Init(healthCheck, onToolsChanged), actions).Some?
    ensures Counted(Run(Init(healthCheck, onToolsChanged), actions).value, actions)
    decreases |actions|
  {
    if actions != [] {
      var init, n := Init(healthCheck, onToolsChanged), |actions| - 1;
      hide Run, Init;
      RunEnds(init, actions);
      RunCounts(healthCheck, onToolsChanged, actions[..n]);
      hide BootStep, ReconnectStep, DrainStep, SupervisorStep, OutsideStep, Failures, Counted;
      var s, a := Run(init, actions[..n]).value, actions[n];
      assert actions[..n] + [a] == actions;
      if a.ByReconnector? {
        ReconnectCounts(s, actions[..n], a.t, a.r);
      } else {
        OtherCounts(s, actions[..n], a);
      }
    }
  }

  /**
   A reconnector in its loop is at one more attempt than it has failed, and its wait is
   the closed form of that attempt, in nanoseconds.
   */
  lemma AttemptsAreCounted(healthCheck: bool, onToolsChanged: bool, actions: seq<Action>, t: nat)
    requires Run(Init(healthCheck, onToolsChanged), actions).Some?
    requires t in Run(Init(healthCheck, onToolsChanged), actions).value.reconnectors
    requires Looping(Run(Init(healthCheck, onToolsChanged), actions).value.reconnectors[t].pc)
    ensures var r := Run(Init(healthCheck, onToolsChanged), actions).value.reconnectors[t];
      var doubled := Pow2(Failures(actions, t));
      && r.attempt == 1 + Failures(actions, t)
      && r.backoff == (if doubled < 60 then doubled else 60) * 1_000_000_000
  {
    RunCounts(healthCheck, onToolsChanged, actions);
    ReconnectExclusion(healthCheck, onToolsChanged, actions);
  }

  // ---- Close -----------------------------------------------------------------------------

  /** Session x is closed, or Close still has to close it. */
  ghost predicate Reached(s: State, x: Session) {
    x < s.nextSession && (x in s.closing || x !in s.live)
  }

  lemma StepReaches(s: State, a: Action, x: Session)
    requires Reached(s, x) && Step(s, a).Some?
    ensures Reached(Step(s, a).value, x)
  {
    hide BootStep, ReconnectStep, DrainStep, SupervisorStep, OutsideStep;
    match a
    case ByNew(b) => BootFrame(s, b);
    case ByReconnector(t, r) =>
      ReconnectFrame(s, r, t);
      ReconnectSessions(s, r, t);
    case ByDrain(d) => DrainFrame(s, d);
    case BySupervisor(v) => SupervisorFrame(s, v);
    case ByOutside(o) => OutsideFrame(s, o);
  }

  lemma {:induction false} RunReaches(s: State, actions: seq<Action>, x: Session)
    requires Reached(s, x) && Run(s, actions).Some?
    ensures Reached(Run(s, actions).value, x)
    decreases |actions|
  {
    if actions != [] {
      StepReaches(s, actions[0], x);
      hide Step, Reached;
      RunReaches(Step(s, actions[0]).value, actions[1..], x);
    }
  }

  /** Whatever session is stored when Close reads the entry is closed once Close has nothing left to close. */
  lemma CloseReachesStored(healthCheck: bool, onToolsChanged: bool, actions: seq<Action>, k: nat)
    requires Run(Init(healthCheck, onToolsChanged), actions).Some? && k < |actions| && actions[k] == ByOutside(CloseSnapshot)
    ensures var init := Init(healthCheck, onToolsChanged);
      && Run(init, actions[..k]).Some?
      && var stored := Run(init, actions[..k]).value.entry.session; var s := Run(init, actions).value;
      && s.closeBegun
      && (stored.Some? ==> stored.value in s.closing || stored.value !in s.live)
  {
    var init := Init(healthCheck, onToolsChanged);
    RunSplits(init, actions, k);
    ReachableInv(healthCheck, onToolsChanged, actions[..k]);
    var before := Run(init, actions[..k]).value;
    var after := Step(before, actions[k]).value;
    assert actions[k..][0] == actions[k];
    assert after.closeBegun;
    hide Run, Init, Inv;
    StaysBegun(after, actions[k..][1..]);
    if before.entry.session.Some? {
      assert Reached(after, before.entry.session.value);
      RunReaches(after, actions[k..][1..], before.entry.session.value);
    }
    assert Run(before, actions[k..]) == Run(after, actions[k..][1..]) by {
      RunAppend(before, [actions[k]], actions[k..][1..]);
      assert [actions[k]] + actions[k..][1..] == actions[k..];
      OneStep(before, actions[k]);
    }
  }

  lemma RunCons(s: State, a: Action, rest: seq<Action>)
    ensures Run(s, [a] + rest) == if Step(s, a).Some? then Run(Step(s, a).value, rest) else None
  {
    hide Step;
    assert ([a] + rest)[1..] == rest;
  }

  lemma OneStep(s: State, a: Action)
    ensures Run(s, [a]) == Step(s, a)
  {
    hide Step;
    assert [a][1..] == [];
  }

  lemma {:induction false} StaysBegun(s: State, actions: seq<Action>)
    requires Run(s, actions).Some? && s.closeBegun
    ensures Run(s, actions).value.closeBegun
    decreases |actions|
  {
    if actions != [] {
      StepBegun(s, actions[0]);
      hide Step;
      StaysBegun(Step(s, actions[0]).value, actions[1..]);
    }
  }

  lemma StepBegun(s: State, a: Action)
    requires Step(s, a).Some? && s.closeBegun
    ensures Step(s, a).value.closeBegun
  {
    hide BootStep, ReconnectStep, DrainStep, SupervisorStep, OutsideStep;
    match a
    case ByNew(b) => BootFrame(s, b);
    case ByReconnector(t, r) => ReconnectFrame(s, r, t);
    case ByDrain(d) => DrainFrame(s, d);
    case BySupervisor(v) => SupervisorFrame(s, v);
    case ByOutside(o) => OutsideFrame(s, o);
  }
}
