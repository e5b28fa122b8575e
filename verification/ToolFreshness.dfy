/**
 Change notices and the tool list: no notice is lost, lists follow their session, and
 OnToolsChanged callbacks chain. Each law names the interleaving it excludes, and a
 concrete run shows what happens there.
 */
module ToolFreshness {
  import opened Basics
  import opened Tools
  import opened ServerProtocol
  import opened ProtocolSafety

  // ---- no lost notice ------------------------------------------------------------

  /** A reconnector that has yet to deliver its list. */
  predicate Pending(pc: ReconnectPc) {
    !pc.Swapped? && !pc.Leaving?
  }

  /** When the list a reconnector will deliver was asked for, where that is decided. */
  predicate AskedAfter(pc: ReconnectPc, n: nat) {
    && (pc.Fetching? ==> n < pc.since)
    && (pc.Holding? ==> n < pc.listing.since)
  }

  /** The drain has a token in hand and has yet to start its fetch, or fetches or holds a list asked for after n. */
  predicate DrainServes(pc: DrainPc, n: nat) {
    || pc.DrainTook? || pc.DrainChecked? || pc.DrainReady?
    || (pc.DrainFetching? && n < pc.since)
    || (pc.DrainStoring? && n < pc.listing.since)
  }

  /** What has become of the notice posted at time n. */
  ghost predicate Served(s: State, n: nat) {
    || s.entry.refresh
    || DrainServes(s.drain, n)
    || (exists t :: t in s.reconnectors && Pending(s.reconnectors[t].pc) && AskedAfter(s.reconnectors[t].pc, n))
    || n < s.entry.tools.since
    || n < s.log.failedSince
    || s.cancelled
  }

  /** The reconnector has swapped and not yet released the flag. */
  ghost predicate InGap(s: State) {
    exists t :: t in s.reconnectors && s.reconnectors[t].pc.Swapped?
  }

  /** The drain drops a token because of a reconnector that has already delivered an older list. */
  ghost predicate LosingCheck(s: State, a: Action) {
    && a == ByDrain(DrainCheck) && s.drain.DrainTook? && InGap(s) && !s.entry.refresh && !s.cancelled
    && exists n :: n in s.log.notices && s.entry.tools.since <= n && s.log.failedSince <= n
  }

  /** No fetch in flight was asked for later than now. */
  ghost predicate TimeInv(s: State) {
    && (forall n :: n in s.log.notices ==> n < s.clock)
    && (s.drain.DrainFetching? ==> s.drain.since < s.clock)
    && (s.drain.DrainStoring? ==> s.drain.listing.since < s.clock)
    && (s.boot.BootFetching? ==> s.boot.since < s.clock)
    && s.entry.tools.since < s.clock
    && (forall t :: t in s.reconnectors ==> AskedBefore(s.reconnectors[t].pc, s.clock))
  }

  predicate AskedBefore(pc: ReconnectPc, now: nat) {
    && (pc.Fetching? ==> pc.since < now)
    && (pc.Holding? ==> pc.listing.since < now)
  }

  ghost predicate AllServed(s: State) {
    forall n :: n in s.log.notices ==> Served(s, n)
  }

  /** Reconnectors ask for their list after the notices counted so far. */
  ghost predicate ReconnectorsAreLater(s: State) {
    forall t, n :: t in s.reconnectors && n in s.log.notices ==> AskedAfter(s.reconnectors[t].pc, n)
  }

  /** What a reconnector has swapped in is newer than the notices counted so far. */
  ghost predicate SwappedIsLater(s: State) {
    forall t, n :: t in s.reconnectors && s.reconnectors[t].pc.Swapped? && n in s.log.notices ==>
      n < s.entry.tools.since
  }

  /** A notice later than the running refresh has left its token behind. */
  ghost predicate TokenLeft(s: State) {
    forall n :: n in s.log.notices ==>
      && (!s.boot.Ready? ==> s.entry.refresh)
      && (s.drain.DrainFetching? ==> n < s.drain.since || s.entry.refresh)
      && (s.drain.DrainStoring? ==> n < s.drain.listing.since || s.entry.refresh)
  }

  /** The drain finds no session only after cancellation. */
  ghost predicate NilSession(s: State) {
    s.drain.DrainChecked? && s.entry.session.None? ==> s.cancelled
  }

  ghost predicate NoticeInv(s: State) {
    && TimeInv(s)
    && AllServed(s)
    && ReconnectorsAreLater(s)
    && TokenLeft(s)
    && NilSession(s)
  }

  /** The part of the safety invariant that freshness builds on. */
  ghost predicate Basis(s: State) {
    && (s.boot.Ready? || (s.drain.DrainNotStarted? && Unclaimed(s)))
    && (s.boot.Ready? ==> (s.entry.reconnecting <==> !Unclaimed(s)))
    && (forall t, u :: t in s.reconnectors && u in s.reconnectors ==> t == u)
    && (forall t :: t in s.reconnectors && s.reconnectors[t].pc.Leaving? ==> s.cancelled)
    && (s.boot.Ready? && !s.entry.reconnecting && s.entry.session.None? ==> s.cancelled)
  }

  lemma InvGivesBasis(s: State)
    requires Inv(s)
    ensures Basis(s)
  {
    forall t | t in s.reconnectors && s.reconnectors[t].pc.Leaving?
      ensures s.cancelled
    {
      assert Owner(s).At(s.reconnectors[t].pc);
    }
  }

  lemma BootKeepsNotices(s: State, a: BootAction)
    requires Basis(s) && NoticeInv(s) && BootStep(s, a).Some?
    ensures NoticeInv(BootStep(s, a).value.(clock := s.clock + 1))
  {
    var s' := BootStep(s, a).value.(clock := s.clock + 1);
    assert s'.log.notices == s.log.notices && s'.entry.refresh == s.entry.refresh;
  }

  /** A reconnector's fetch starts now; what it swaps in was asked for earlier. */
  lemma ReconnectAsks(s: State, a: ReconnectAction, t: nat)
    requires ReconnectStep(s, a, t).Some? && AskedBefore(s.reconnectors[t].pc, s.clock)
    requires s.entry.tools.since < s.clock
    ensures var s' := ReconnectStep(s, a, t).value;
      && (t in s'.reconnectors ==> AskedBefore(s'.reconnectors[t].pc, s.clock + 1))
      && s'.entry.tools.since < s.clock
  {
  }

  lemma ReconnectKeepsTimes(s: State, a: ReconnectAction, t: nat)
    requires Basis(s) && NoticeInv(s) && ReconnectStep(s, a, t).Some?
    ensures TimeInv(ReconnectStep(s, a, t).value.(clock := s.clock + 1))
  {
    hide ReconnectStep;
    var s' := ReconnectStep(s, a, t).value;
    ReconnectFrame(s, a, t);
    ReconnectThreads(s, a, t);
    assert AskedBefore(s.reconnectors[t].pc, s.clock);
    ReconnectAsks(s, a, t);
    forall u | u in s'.reconnectors
      ensures AskedBefore(s'.reconnectors[u].pc, s.clock + 1)
    {
      assert u in s.reconnectors;
    }
  }

  lemma ReconnectKeepsLater(s: State, a: ReconnectAction, t: nat)
    requires Basis(s) && NoticeInv(s) && ReconnectStep(s, a, t).Some?
    ensures ReconnectorsAreLater(ReconnectStep(s, a, t).value)
  {
    var s' := ReconnectStep(s, a, t).value;
    forall u, n | u in s'.reconnectors && n in s'.log.notices
      ensures AskedAfter(s'.reconnectors[u].pc, n)
    {
      assert u in s.reconnectors && t in s.reconnectors;
      assert n in s.log.notices && n < s.clock;
      assert AskedAfter(s.reconnectors[u].pc, n);
    }
  }

  lemma ReconnectKeepsServed(s: State, a: ReconnectAction, t: nat)
    requires Basis(s) && NoticeInv(s) && ReconnectStep(s, a, t).Some?
    requires ReconnectorsAreLater(ReconnectStep(s, a, t).value)
    ensures AllServed(ReconnectStep(s, a, t).value)
  {
    var s' := ReconnectStep(s, a, t).value;
    forall n | n in s'.log.notices
      ensures Served(s', n)
    {
      assert t in s.reconnectors && n in s.log.notices;
      assert Served(s, n) && AskedAfter(s.reconnectors[t].pc, n);
      if !a.Release? {
        assert t in s'.reconnectors;
        assert AskedAfter(s'.reconnectors[t].pc, n);
      }
    }
  }

  lemma ReconnectKeepsTokens(s: State, a: ReconnectAction, t: nat)
    requires NoticeInv(s) && ReconnectStep(s, a, t).Some?
    ensures TokenLeft(ReconnectStep(s, a, t).value)
    ensures NilSession(ReconnectStep(s, a, t).value)
  {
    hide ReconnectStep;
    ReconnectFrame(s, a, t);
  }

  lemma DrainKeepsServed(s: State, a: DrainAction, n: nat)
    requires Basis(s) && NoticeInv(s) && DrainStep(s, a).Some?
    requires n in s.log.notices && !LosingCheck(s, ByDrain(a))
    ensures Served(DrainStep(s, a).value, n)
  {
    var s' := DrainStep(s, a).value;
    assert Served(s, n) && n < s.clock;
    if !Unclaimed(s) {
      var t :| t in s.reconnectors;
      assert t in s'.reconnectors;
      assert AskedAfter(s.reconnectors[t].pc, n);
    }
  }

  lemma DrainKeepsTimes(s: State, a: DrainAction)
    requires NoticeInv(s) && DrainStep(s, a).Some?
    ensures TimeInv(DrainStep(s, a).value.(clock := s.clock + 1))
  {
    var s' := DrainStep(s, a).value.(clock := s.clock + 1);
    assert s'.log.notices == s.log.notices && s'.reconnectors == s.reconnectors && s'.boot == s.boot;
  }

  lemma DrainKeepsTokens(s: State, a: DrainAction)
    requires Basis(s) && NoticeInv(s) && DrainStep(s, a).Some?
    ensures TokenLeft(DrainStep(s, a).value)
    ensures NilSession(DrainStep(s, a).value)
  {
    var s' := DrainStep(s, a).value;
    assert s'.log.notices == s.log.notices && s'.boot == s.boot;
  }

  lemma DrainKeepsLater(s: State, a: DrainAction)
    requires NoticeInv(s) && DrainStep(s, a).Some?
    ensures ReconnectorsAreLater(DrainStep(s, a).value)
  {
    var s' := DrainStep(s, a).value;
    assert s'.log.notices == s.log.notices && s'.reconnectors == s.reconnectors;
  }

  lemma DrainKeepsAllServed(s: State, a: DrainAction)
    requires Basis(s) && NoticeInv(s) && DrainStep(s, a).Some? && !LosingCheck(s, ByDrain(a))
    ensures AllServed(DrainStep(s, a).value)
  {
    var s' := DrainStep(s, a).value;
    assert s'.log.notices == s.log.notices;
    forall n | n in s'.log.notices
      ensures Served(s', n)
    {
      DrainKeepsServed(s, a, n);
    }
  }

  lemma SupervisorKeepsNotices(s: State, a: SupervisorAction)
    requires Basis(s) && NoticeInv(s) && SupervisorStep(s, a).Some?
    ensures NoticeInv(SupervisorStep(s, a).value.(clock := s.clock + 1))
  {
    hide SupervisorStep;
    var s' := SupervisorStep(s, a).value.(clock := s.clock + 1);
    SupervisorFrame(s, a);
    SupervisorThreads(s, a);
    forall n | n in s'.log.notices
      ensures Served(s', n)
    {
      assert Served(s, n);
      assert Unclaimed(s) || s'.reconnectors == s.reconnectors;
    }
  }

  lemma OutsideKeepsNotices(s: State, a: OutsideAction)
    requires Basis(s) && NoticeInv(s) && OutsideStep(s, a).Some?
    ensures NoticeInv(OutsideStep(s, a).value.(clock := s.clock + 1))
  {
    hide OutsideStep;
    OutsideFrame(s, a);
    OutsideNotices(s, a);
    var s' := OutsideStep(s, a).value.(clock := s.clock + 1);
    forall n | n in s'.log.notices
      ensures Served(s', n)
    {
      assert n in s.log.notices ==> Served(s, n);
    }
  }

  /** Only a notice is counted, and it leaves its token. */
  lemma OutsideNotices(s: State, a: OutsideAction)
    requires OutsideStep(s, a).Some?
    ensures var s' := OutsideStep(s, a).value;
      && s'.log.failedSince == s.log.failedSince
      && (s'.log.notices == s.log.notices
          || (s'.log.notices == s.log.notices + {s.clock} && !s.entry.reconnecting && s'.entry.refresh))
      && (s.entry.refresh ==> s'.entry.refresh)
  {
  }

  /** Only TimeInv reads the clock. */
  lemma Tick(s: State, s': State)
    requires AllServed(s) && ReconnectorsAreLater(s) && TokenLeft(s) && NilSession(s)
    requires s' == s.(clock := s.clock + 1) && TimeInv(s')
    ensures NoticeInv(s')
  {
    forall n | n in s'.log.notices
      ensures Served(s', n)
    {
      assert Served(s, n);
    }
  }

  lemma ReconnectKeepsNotices(s: State, a: ReconnectAction, t: nat)
    requires Basis(s) && NoticeInv(s) && ReconnectStep(s, a, t).Some?
    ensures NoticeInv(ReconnectStep(s, a, t).value.(clock := s.clock + 1))
  {
    ReconnectKeepsTimes(s, a, t);
    ReconnectKeepsLater(s, a, t);
    ReconnectKeepsServed(s, a, t);
    ReconnectKeepsTokens(s, a, t);
    Tick(ReconnectStep(s, a, t).value, ReconnectStep(s, a, t).value.(clock := s.clock + 1));
  }

  lemma DrainKeepsNotices(s: State, a: DrainAction)
    requires Basis(s) && NoticeInv(s) && DrainStep(s, a).Some? && !LosingCheck(s, ByDrain(a))
    ensures NoticeInv(DrainStep(s, a).value.(clock := s.clock + 1))
  {
    DrainKeepsTimes(s, a);
    DrainKeepsLater(s, a);
    DrainKeepsAllServed(s, a);
    DrainKeepsTokens(s, a);
    Tick(DrainStep(s, a).value, DrainStep(s, a).value.(clock := s.clock + 1));
  }

  lemma StepKeepsNotices(s: State, a: Action)
    requires Basis(s) && NoticeInv(s) && Step(s, a).Some? && !LosingCheck(s, a)
    ensures NoticeInv(Step(s, a).value)
  {
    hide BootStep, ReconnectStep, DrainStep, SupervisorStep, OutsideStep, NoticeInv, Basis, InGap;
    match a
    case ByNew(b) => BootKeepsNotices(s, b);
    case ByReconnector(t, r) => ReconnectKeepsNotices(s, r, t);
    case ByDrain(d) => DrainKeepsNotices(s, d);
    case BySupervisor(v) => SupervisorKeepsNotices(s, v);
    case ByOutside(o) => OutsideKeepsNotices(s, o);
  }

  lemma LosingCheckLoses(s: State, a: Action)
    requires Basis(s) && LosingCheck(s, a)
    ensures Step(s, a).Some? && !AllServed(Step(s, a).value)
  {
    var s' := Step(s, a).value;
    var n :| n in s.log.notices && s.entry.tools.since <= n && s.log.failedSince <= n;
    assert s'.reconnectors == s.reconnectors && n in s'.log.notices;
    assert !Served(s', n);
  }

  /** Every notice is served in every state the run passes through. */
  ghost predicate AlwaysServed(s: State, actions: seq<Action>)
    decreases |actions|
  {
    AllServed(s) &&
    (actions != [] && Step(s, actions[0]).Some? ==> AlwaysServed(Step(s, actions[0]).value, actions[1..]))
  }

  /** No step of the run is a losing check. */
  ghost predicate NeverLoses(s: State, actions: seq<Action>)
    decreases |actions|
  {
    actions != [] && Step(s, actions[0]).Some? ==>
      !LosingCheck(s, actions[0]) && NeverLoses(Step(s, actions[0]).value, actions[1..])
  }

  lemma {:induction false} ServedIffNeverLoses(s: State, actions: seq<Action>)
    requires Inv(s) && NoticeInv(s) && Run(s, actions).Some?
    ensures AlwaysServed(s, actions) <==> NeverLoses(s, actions)
    ensures NeverLoses(s, actions) ==> Inv(Run(s, actions).value) && NoticeInv(Run(s, actions).value)
    decreases |actions|
  {
    if actions != [] {
      InvGivesBasis(s);
      if LosingCheck(s, actions[0]) {
        LosingCheckLoses(s, actions[0]);
      } else {
        StepKeepsInv(s, actions[0]);
        StepKeepsNotices(s, actions[0]);
        ServedIffNeverLoses(Step(s, actions[0]).value, actions[1..]);
      }
    }
  }

  /**
   Change notices, exactly. Along every run, each notice posted while `reconnecting` was
   false stays queued, or answered by a fetch asked for after it that is due, in flight,
   stored or failed, or the context is cancelled — in all states passed through if and
   only if the run contains no losing check.
   */
  lemma NoticesAreServedExactly(healthCheck: bool, onToolsChanged: bool, actions: seq<Action>)
    requires Run(Init(healthCheck, onToolsChanged), actions).Some?
    ensures AlwaysServed(Init(healthCheck, onToolsChanged), actions)
            <==> NeverLoses(Init(healthCheck, onToolsChanged), actions)
  {
    ServedIffNeverLoses(Init(healthCheck, onToolsChanged), actions);
  }

  /** The run never stores a refresh between a swap and the release of `reconnecting`. */
  ghost predicate NoStoreInGap(s: State, actions: seq<Action>)
    decreases |actions|
  {
    actions != [] && Step(s, actions[0]).Some? ==>
      && !(actions[0] == ByDrain(DrainStore) && InGap(s))
      && NoStoreInGap(Step(s, actions[0]).value, actions[1..])
  }

  lemma ReconnectKeepsSwapped(s: State, a: ReconnectAction, t: nat)
    requires Basis(s) && ReconnectorsAreLater(s) && SwappedIsLater(s) && ReconnectStep(s, a, t).Some?
    ensures SwappedIsLater(ReconnectStep(s, a, t).value)
  {
    var s' := ReconnectStep(s, a, t).value;
    forall u, n | u in s'.reconnectors && s'.reconnectors[u].pc.Swapped? && n in s'.log.notices
      ensures n < s'.entry.tools.since
    {
      assert u in s.reconnectors && t in s.reconnectors && n in s.log.notices;
      assert AskedAfter(s.reconnectors[t].pc, n);
    }
  }

  lemma DrainKeepsSwapped(s: State, a: DrainAction)
    requires SwappedIsLater(s) && DrainStep(s, a).Some? && !(a.DrainStore? && InGap(s))
    ensures SwappedIsLater(DrainStep(s, a).value)
  {
    var s' := DrainStep(s, a).value;
    assert s'.log.notices == s.log.notices && s'.reconnectors == s.reconnectors;
    assert a.DrainStore? || s'.entry.tools == s.entry.tools;
  }

  lemma OutsideKeepsSwapped(s: State, a: OutsideAction)
    requires Basis(s) && SwappedIsLater(s) && OutsideStep(s, a).Some?
    ensures SwappedIsLater(OutsideStep(s, a).value)
  {
    var s' := OutsideStep(s, a).value;
    assert s'.reconnectors == s.reconnectors && s'.entry.tools == s.entry.tools;
  }

  lemma SupervisorKeepsSwapped(s: State, a: SupervisorAction)
    requires SwappedIsLater(s) && SupervisorStep(s, a).Some?
    ensures SwappedIsLater(SupervisorStep(s, a).value)
  {
    hide SupervisorStep;
    SupervisorFrame(s, a);
    SupervisorThreads(s, a);
  }

  lemma StepKeepsSwapped(s: State, a: Action)
    requires Basis(s) && ReconnectorsAreLater(s) && SwappedIsLater(s) && Step(s, a).Some?
    requires !(a == ByDrain(DrainStore) && InGap(s))
    ensures SwappedIsLater(Step(s, a).value)
  {
    match a
    case ByNew(b) =>
    case ByReconnector(t, r) => ReconnectKeepsSwapped(s, r, t);
    case ByDrain(d) => DrainKeepsSwapped(s, d);
    case BySupervisor(v) => SupervisorKeepsSwapped(s, v);
    case ByOutside(o) => OutsideKeepsSwapped(s, o);
  }

  lemma {:induction false} NoStoreInGapNeverLoses(s: State, actions: seq<Action>)
    requires Inv(s) && NoticeInv(s) && SwappedIsLater(s) && Run(s, actions).Some? && NoStoreInGap(s, actions)
    ensures NeverLoses(s, actions)
    decreases |actions|
  {
    if actions != [] {
      InvGivesBasis(s);
      assert !LosingCheck(s, actions[0]);
      StepKeepsInv(s, actions[0]);
      StepKeepsNotices(s, actions[0]);
      StepKeepsSwapped(s, actions[0]);
      NoStoreInGapNeverLoses(Step(s, actions[0]).value, actions[1..]);
    }
  }

  /**
   No lost change notice. In every run that stores no refresh inside a swap-to-release
   gap, each counted notice is served; once everything is at rest, the stored list was
   asked for after the notice.
   */
  lemma NoLostNotice(healthCheck: bool, onToolsChanged: bool, actions: seq<Action>, n: nat)
    requires Run(Init(healthCheck, onToolsChanged), actions).Some?
    requires NoStoreInGap(Init(healthCheck, onToolsChanged), actions)
    requires n in Run(Init(healthCheck, onToolsChanged), actions).value.log.notices
    ensures var s := Run(Init(healthCheck, onToolsChanged), actions).value;
      && Served(s, n)
      && (!s.entry.refresh && s.drain.DrainIdle? && !s.entry.reconnecting && !s.cancelled && s.log.failedSince <= n ==>
            n < s.entry.tools.since)
  {
    hide Run, NoStoreInGap, NeverLoses, AlwaysServed;
    NoStoreInGapNeverLoses(Init(healthCheck, onToolsChanged), actions);
    ServedIffNeverLoses(Init(healthCheck, onToolsChanged), actions);
    InvGivesBasis(Run(Init(healthCheck, onToolsChanged), actions).value);
  }

  // ---- lists follow their session --------------------------------------------------

  /** The drain has read a session and not yet stored what it fetched from it. */
  predicate InWindow(pc: DrainPc) {
    pc.DrainReady? || pc.DrainFetching? || pc.DrainStoring?
  }

  /** The run never swaps a session in while a refresh is using the previous one. */
  predicate NoSwapInWindow(s: State, actions: seq<Action>)
    decreases |actions|
  {
    actions != [] && Step(s, actions[0]).Some? ==>
      && !(IsSwap(actions[0]) && InWindow(s.drain))
      && NoSwapInWindow(Step(s, actions[0]).value, actions[1..])
  }

  /** Every list on its way into the entry comes from the session that will be stored with it. */
  predicate OriginInv(s: State) {
    && (s.entry.session.Some? ==> s.entry.tools.origin == s.entry.session)
    && (s.drain.DrainReady? ==> s.entry.session == Some(s.drain.target))
    && (s.drain.DrainFetching? ==> s.entry.session == Some(s.drain.source))
    && (s.drain.DrainStoring? ==> s.entry.session.Some? && s.drain.listing.origin == s.entry.session)
    && (forall t :: t in s.reconnectors && s.reconnectors[t].pc.Holding? ==>
          s.reconnectors[t].pc.listing.origin == Some(s.reconnectors[t].pc.held))
  }

  lemma ReconnectKeepsOrigin(s: State, a: ReconnectAction, t: nat)
    requires OriginInv(s) && ReconnectStep(s, a, t).Some?
    requires !(a.Swap? && InWindow(s.drain))
    ensures OriginInv(ReconnectStep(s, a, t).value)
  {
    var s' := ReconnectStep(s, a, t).value;
    assert forall u :: u in s'.reconnectors ==> u in s.reconnectors;
  }

  lemma DrainKeepsOrigin(s: State, a: DrainAction)
    requires OriginInv(s) && DrainStep(s, a).Some?
    ensures OriginInv(DrainStep(s, a).value)
  {
    var s' := DrainStep(s, a).value;
    assert s'.reconnectors == s.reconnectors && s'.entry.session == s.entry.session;
  }

  lemma BootKeepsOrigin(s: State, a: BootAction)
    requires Basis(s) && OriginInv(s) && BootStep(s, a).Some?
    ensures OriginInv(BootStep(s, a).value)
  {
  }

  lemma SupervisorKeepsOrigin(s: State, a: SupervisorAction)
    requires OriginInv(s) && SupervisorStep(s, a).Some?
    ensures OriginInv(SupervisorStep(s, a).value)
  {
    hide SupervisorStep;
    SupervisorFrame(s, a);
    SupervisorThreads(s, a);
  }

  lemma OutsideKeepsOrigin(s: State, a: OutsideAction)
    requires OriginInv(s) && OutsideStep(s, a).Some?
    ensures OriginInv(OutsideStep(s, a).value)
  {
  }

  lemma StepKeepsOrigin(s: State, a: Action)
    requires Basis(s) && OriginInv(s) && Step(s, a).Some?
    requires !(IsSwap(a) && InWindow(s.drain))
    ensures OriginInv(Step(s, a).value)
  {
    match a
    case ByNew(b) => BootKeepsOrigin(s, b);
    case ByReconnector(t, r) => ReconnectKeepsOrigin(s, r, t);
    case ByDrain(d) => DrainKeepsOrigin(s, d);
    case BySupervisor(v) => SupervisorKeepsOrigin(s, v);
    case ByOutside(o) => OutsideKeepsOrigin(s, o);
  }

  lemma {:induction false} RunKeepsOrigin(s: State, actions: seq<Action>)
    requires Inv(s) && OriginInv(s) && Run(s, actions).Some? && NoSwapInWindow(s, actions)
    ensures OriginInv(Run(s, actions).value)
    decreases |actions|
  {
    if actions != [] {
      InvGivesBasis(s);
      StepKeepsInv(s, actions[0]);
      StepKeepsOrigin(s, actions[0]);
      RunKeepsOrigin(Step(s, actions[0]).value, actions[1..]);
    }
  }

  /** The stored tools come from the stored session, in every run that never swaps inside a refresh. */
  lemma ToolsFollowSession(healthCheck: bool, onToolsChanged: bool, actions: seq<Action>)
    requires Run(Init(healthCheck, onToolsChanged), actions).Some?
    requires NoSwapInWindow(Init(healthCheck, onToolsChanged), actions)
    ensures var e := Run(Init(healthCheck, onToolsChanged), actions).value.entry;
      e.session.Some? ==> e.tools.origin == e.session
  {
    RunKeepsOrigin(Init(healthCheck, onToolsChanged), actions);
  }

  predicate Follows(s: State) {
    s.entry.session.Some? ==> s.entry.tools.origin == s.entry.session
  }

  predicate AlwaysFollows(s: State, actions: seq<Action>)
    decreases |actions|
  {
    Follows(s) && (actions != [] && Step(s, actions[0]).Some? ==> AlwaysFollows(Step(s, actions[0]).value, actions[1..]))
  }

  predicate IsRead(a: Action) {
    a == ByDrain(DrainReadSession)
  }

  predicate IsStore(a: Action) {
    a == ByDrain(DrainStore)
  }

  /** The schedule reads the session between `from` and the store at k. */
  ghost predicate ReadsBefore(actions: seq<Action>, from: int, k: int) {
    exists i :: from < i < k && 0 <= i < |actions| && IsRead(actions[i])
  }

  /** A schedule in which no refresh is stored with a swap since it read its session. */
  ghost predicate NoSwapBeforeStore(actions: seq<Action>) {
    forall j, k :: 0 <= j < k < |actions| && IsSwap(actions[j]) && IsStore(actions[k]) ==> ReadsBefore(actions, j, k)
  }

  /** The same, read along the schedule: has a swap happened since the drain last read the session? */
  predicate Clear(actions: seq<Action>, swapped: bool)
    decreases |actions|
  {
    actions != [] ==> !(IsStore(actions[0]) && swapped) && Clear(actions[1..], Since(swapped, actions[0]))
  }

  predicate Since(swapped: bool, a: Action) {
    !IsRead(a) && (swapped || IsSwap(a))
  }

  /** Every store has a read before it, should a swap have happened. */
  ghost predicate StoresRead(actions: seq<Action>, swapped: bool) {
    swapped ==> forall k :: 0 <= k < |actions| && IsStore(actions[k]) ==> ReadsBefore(actions, -1, k)
  }

  lemma ReadsShift(actions: seq<Action>, from: int, k: int)
    requires actions != [] && from >= -1
    ensures ReadsBefore(actions[1..], from, k) <==> ReadsBefore(actions, from + 1, k + 1)
  {
    var rest := actions[1..];
    if i :| from < i < k && 0 <= i < |rest| && IsRead(rest[i]) {
      assert IsRead(actions[i + 1]);
    }
    if i :| from + 1 < i < k + 1 && 0 <= i < |actions| && IsRead(actions[i]) {
      assert IsRead(rest[i - 1]);
    }
  }

  /** The first action of a schedule matters through the stores after it. */
  lemma SwapStep(actions: seq<Action>)
    requires actions != []
    ensures NoSwapBeforeStore(actions) <==> NoSwapBeforeStore(actions[1..]) && StoresRead(actions[1..], IsSwap(actions[0]))
  {
    var rest := actions[1..];
    hide ReadsBefore;
    forall j, k | -1 <= j < k < |rest|
      ensures ReadsBefore(rest, j, k) <==> ReadsBefore(actions, j + 1, k + 1)
    {
      ReadsShift(actions, j, k);
    }
    if NoSwapBeforeStore(actions) {
      forall j, k | 0 <= j < k < |rest| && IsSwap(rest[j]) && IsStore(rest[k])
        ensures ReadsBefore(rest, j, k)
      {
        assert IsSwap(actions[j + 1]) && IsStore(actions[k + 1]);
      }
      forall k | 0 <= k < |rest| && IsStore(rest[k]) && IsSwap(actions[0])
        ensures ReadsBefore(rest, -1, k)
      {
        assert IsStore(actions[k + 1]);
      }
    }
    if NoSwapBeforeStore(rest) && StoresRead(rest, IsSwap(actions[0])) {
      forall j, k | 0 <= j < k < |actions| && IsSwap(actions[j]) && IsStore(actions[k])
        ensures ReadsBefore(actions, j, k)
      {
        assert IsStore(rest[k - 1]);
        if j > 0 {
          assert IsSwap(rest[j - 1]);
          assert ReadsBefore(rest, j - 1, k - 1);
        } else {
          assert ReadsBefore(rest, -1, k - 1);
        }
      }
    }
  }

  lemma ReadStep(actions: seq<Action>)
    requires actions != []
    ensures StoresRead(actions, true) <==> !IsStore(actions[0]) && (IsRead(actions[0]) || StoresRead(actions[1..], true))
  {
    var rest := actions[1..];
    assert !ReadsBefore(actions, -1, 0);
    forall k | 0 <= k < |rest|
      ensures ReadsBefore(actions, -1, k + 1) <==> IsRead(actions[0]) || ReadsBefore(rest, -1, k)
    {
      ReadsShift(actions, -1, k);
      if i :| -1 < i < k + 1 && 0 <= i < |actions| && IsRead(actions[i]) && i > 0 {
        assert ReadsBefore(actions, 0, k + 1);
      }
    }
    hide ReadsBefore;
    if StoresRead(actions, true) {
      assert !IsStore(actions[0]);
      forall k | 0 <= k < |rest| && IsStore(rest[k]) && !IsRead(actions[0])
        ensures ReadsBefore(rest, -1, k)
      {
        assert IsStore(actions[k + 1]);
      }
    }
    if !IsStore(actions[0]) && (IsRead(actions[0]) || StoresRead(rest, true)) {
      forall k | 0 <= k < |actions| && IsStore(actions[k])
        ensures ReadsBefore(actions, -1, k)
      {
        assert IsStore(rest[k - 1]);
      }
    }
  }

  lemma {:induction false} ClearIsSchedule(actions: seq<Action>, swapped: bool)
    ensures Clear(actions, swapped) <==> NoSwapBeforeStore(actions) && StoresRead(actions, swapped)
    decreases |actions|
  {
    if actions != [] {
      ClearIsSchedule(actions[1..], Since(swapped, actions[0]));
      SwapStep(actions);
      ReadStep(actions);
      hide NoSwapBeforeStore;
      assert StoresRead(actions[1..], false) && StoresRead(actions, false);
      hide StoresRead;
    }
  }

  /** The session a refresh under way was asked of. */
  function RefreshSession(pc: DrainPc): Option<Session> {
    match pc
    case DrainReady(target) => Some(target)
    case DrainFetching(source, _) => Some(source)
    case DrainStoring(listing) => listing.origin
    case _ => None
  }

  /** Sessions are never reused: the one a refresh uses is the stored one until a swap, and never again after. */
  ghost predicate Watch(s: State, swapped: bool) {
    && (s.drain.DrainStoring? ==> s.drain.listing.origin.Some?)
    && (forall t :: t in s.reconnectors && s.reconnectors[t].pc.Holding? ==>
          s.reconnectors[t].pc.listing.origin == Some(s.reconnectors[t].pc.held))
    && (RefreshSession(s.drain).Some? ==>
          var x := RefreshSession(s.drain).value;
          && x < s.nextSession && s.entry.session.Some? && s.boot.Ready?
          && (forall t :: t in s.reconnectors ==> !Holds(s.reconnectors[t].pc, x))
          && (swapped <==> s.entry.session != Some(x)))
  }

  /** What Watch needs of the safety invariant: a reconnector's private session is not the stored one. */
  ghost predicate Private(s: State) {
    && (s.entry.session.Some? ==> s.entry.session.value < s.nextSession)
    && (s.boot.Ready? || s.drain.DrainNotStarted?)
    && (forall t, x: Session :: t in s.reconnectors && Holds(s.reconnectors[t].pc, x) ==> s.entry.session != Some(x))
  }

  lemma InvGivesPrivate(s: State)
    requires Inv(s)
    ensures Private(s)
  {
    forall t, x: Session | t in s.reconnectors && Holds(s.reconnectors[t].pc, x)
      ensures s.entry.session != Some(x)
    {
      assert Owner(s).At(s.reconnectors[t].pc);
    }
  }

  /** A reconnector comes to hold only what it dials, and swaps in only what it held. */
  lemma ReconnectHolds(s: State, a: ReconnectAction, t: nat)
    requires ReconnectStep(s, a, t).Some?
    ensures var s' := ReconnectStep(s, a, t).value; var pc := s.reconnectors[t].pc;
      && s.nextSession <= s'.nextSession
      && (t in s'.reconnectors ==>
            && (forall x: Session :: Holds(s'.reconnectors[t].pc, x) ==> Holds(pc, x) || x == s.nextSession)
            && (s'.reconnectors[t].pc.Holding? ==>
                  s'.reconnectors[t].pc.listing.origin == Some(s'.reconnectors[t].pc.held)))
      && (a.Swap? ==> pc.Holding? && s'.entry.session == Some(pc.held) && s'.entry.tools == pc.listing)
  {
  }

  lemma ReconnectWatch(s: State, a: ReconnectAction, t: nat, swapped: bool)
    requires Watch(s, swapped) && Follows(s) && ReconnectStep(s, a, t).Some?
    ensures Watch(ReconnectStep(s, a, t).value, swapped || a.Swap?)
    ensures Follows(ReconnectStep(s, a, t).value)
  {
    hide ReconnectStep;
    ReconnectFrame(s, a, t);
    ReconnectThreads(s, a, t);
    ReconnectHolds(s, a, t);
    if a.Swap? {
      assert Holds(s.reconnectors[t].pc, s.reconnectors[t].pc.held);
    }
  }

  lemma DrainWatch(s: State, a: DrainAction, swapped: bool)
    requires Watch(s, swapped) && Follows(s) && Private(s) && DrainStep(s, a).Some?
    ensures a.DrainStore? && swapped ==> !Follows(DrainStep(s, a).value)
    ensures !(a.DrainStore? && swapped) ==>
      Follows(DrainStep(s, a).value) && Watch(DrainStep(s, a).value, !a.DrainReadSession? && swapped)
  {
  }

  lemma BootWatch(s: State, a: BootAction, swapped: bool)
    requires Watch(s, swapped) && Follows(s) && Private(s) && BootStep(s, a).Some?
    ensures Watch(BootStep(s, a).value, swapped) && Follows(BootStep(s, a).value)
  {
    hide Holds;
    assert RefreshSession(BootStep(s, a).value.drain).None?;
  }

  lemma SupervisorWatch(s: State, a: SupervisorAction, swapped: bool)
    requires Watch(s, swapped) && Follows(s) && SupervisorStep(s, a).Some?
    ensures Watch(SupervisorStep(s, a).value, swapped) && Follows(SupervisorStep(s, a).value)
  {
    hide SupervisorStep;
    SupervisorFrame(s, a);
    SupervisorThreads(s, a);
  }

  lemma OutsideWatch(s: State, a: OutsideAction, swapped: bool)
    requires Watch(s, swapped) && Follows(s) && OutsideStep(s, a).Some?
    ensures Watch(OutsideStep(s, a).value, swapped) && Follows(OutsideStep(s, a).value)
  {
  }

  lemma StepWatch(s: State, a: Action, swapped: bool)
    requires Watch(s, swapped) && Follows(s) && Private(s) && Step(s, a).Some?
    ensures Follows(Step(s, a).value) <==> !(IsStore(a) && swapped)
    ensures Follows(Step(s, a).value) ==> Watch(Step(s, a).value, Since(swapped, a))
  {
    hide BootStep, ReconnectStep, DrainStep, SupervisorStep, OutsideStep, Private;
    match a
    case ByNew(b) => BootWatch(s, b, swapped);
    case ByReconnector(t, r) => ReconnectWatch(s, r, t, swapped);
    case ByDrain(d) => DrainWatch(s, d, swapped);
    case BySupervisor(v) => SupervisorWatch(s, v, swapped);
    case ByOutside(o) => OutsideWatch(s, o, swapped);
  }

  lemma {:induction false} FollowsIffClear(s: State, actions: seq<Action>, swapped: bool)
    requires Inv(s) && Watch(s, swapped) && Follows(s) && Run(s, actions).Some?
    ensures AlwaysFollows(s, actions) <==> Clear(actions, swapped)
    decreases |actions|
  {
    if actions != [] {
      InvGivesPrivate(s);
      StepWatch(s, actions[0], swapped);
      StepKeepsInv(s, actions[0]);
      hide Step, Inv, Watch, Follows, Private;
      if Follows(Step(s, actions[0]).value) {
        FollowsIffClear(Step(s, actions[0]).value, actions[1..], Since(swapped, actions[0]));
      }
    }
  }

  /**
   Exactly when the tools follow the session: in all states a run passes through, if and
   only if its schedule stores no refresh with a swap since that refresh read its session.
   */
  lemma ToolsFollowSessionExactly(healthCheck: bool, onToolsChanged: bool, actions: seq<Action>)
    requires Run(Init(healthCheck, onToolsChanged), actions).Some?
    ensures AlwaysFollows(Init(healthCheck, onToolsChanged), actions) <==> NoSwapBeforeStore(actions)
  {
    FollowsIffClear(Init(healthCheck, onToolsChanged), actions, false);
    ClearIsSchedule(actions, false);
  }

  // ---- the excluded interleaving ---------------------------------------------------

  lemma {:induction false} RunExtends(s: State, actions: seq<Action>, a: Action)
    requires Run(s, actions).Some?
    ensures Run(s, actions + [a]) == Step(Run(s, actions).value, a)
    decreases |actions|
  {
    if actions == [] {
      assert Run(s, [a]) == if Step(s, a).Some? then Run(Step(s, a).value, []) else None;
    } else {
      assert (actions + [a])[1..] == actions[1..] + [a];
      RunExtends(Step(s, actions[0]).value, actions[1..], a);
    }
  }

  /** A set of states that no step leaves. */
  ghost predicate Closed(reach: State -> bool) {
    forall s, a :: reach(s) && Step(s, a).Some? ==> reach(Step(s, a).value)
  }

  // The run, in the states it passes through.
  const S_LOG: Log := Log({}, -1, 0, Listing([], Some(0), 1), [], [])
  const S_BOOTED: State := Init(true, true).(
    entry := Entry(Connected, Some(0), Listing([], Some(0), 1), false, false),
    boot := Ready, drain := DrainIdle, supervisor := SupervisorIdle, live := {0}, nextSession := 1,
    clock := 4, log := S_LOG)
  const S_CHECKED: State := S_BOOTED.(drain := DrainChecked, clock := 7, log := S_LOG.(notices := {4}))
  const S_STORING: State := S_CHECKED.(
    drain := DrainStoring(Listing([], Some(0), 8)), entry := S_BOOTED.entry.(refresh := true),
    clock := 11, log := S_LOG.(notices := {4, 10}))
  const S_CLAIMED: State := S_STORING.(
    entry := S_STORING.entry.(reconnecting := true),
    reconnectors := map[0 := Reconnector(Spawned, 0, 0)], nextThread := 1, clock := 16)
  const S_WAITING: State := S_CLAIMED.(
    entry := S_CLAIMED.entry.(state := Down), live := {},
    reconnectors := map[0 := Reconnector(Waiting, 1, SECOND)], clock := 18)
  const S_FETCHING: State := S_WAITING.(
    live := {1}, nextSession := 2, reconnectors := map[0 := Reconnector(Fetching(1, 20), 1, SECOND)], clock := 21)
  const S_SWAPPED: State := S_FETCHING.(
    entry := Entry(Connected, Some(1), Listing([], Some(1), 20), true, true),
    reconnectors := map[0 := Reconnector(Swapped, 1, SECOND)], clock := 23)
  const S_STORED: State := S_SWAPPED.(
    entry := Entry(Connected, Some(1), Listing([], Some(0), 8), true, true), drain := DrainIdle, clock := 25)
  const S_LOST: State := S_STORED.(
    entry := Entry(Connected, Some(1), Listing([], Some(0), 8), false, false),
    reconnectors := map[], clock := 28)

  lemma RunBoots(reach: State -> bool)
    requires Closed(reach) && reach(Init(true, true))
    ensures reach(S_BOOTED)
  {
    var s1 := Step(Init(true, true), ByNew(BootDialOk)).value;
    var s2 := Step(s1, ByNew(BootFetchStart)).value;
    var s3 := Step(s2, ByNew(BootFetchOk([]))).value;
    var s4 := Step(s3, ByNew(BootStart)).value;
    assert s4 == S_BOOTED;
  }

  lemma RunTakesNotice(reach: State -> bool)
    requires Closed(reach) && reach(S_BOOTED)
    ensures reach(S_CHECKED)
  {
    var s1 := Step(S_BOOTED, ByOutside(Notice)).value;
    assert s1 == S_BOOTED.(entry := S_BOOTED.entry.(refresh := true), clock := 5, log := S_LOG.(notices := {4}));
    var s2 := Step(s1, ByDrain(DrainTake)).value;
    assert s2 == S_CHECKED.(drain := DrainTook, clock := 6);
    var s3 := Step(s2, ByDrain(DrainCheck)).value;
    assert s3 == S_CHECKED;
  }

  /** A refresh holds a list from session 0 when a second notice arrives. */
  lemma RunHoldsOldList(reach: State -> bool)
    requires Closed(reach) && reach(S_CHECKED)
    ensures reach(S_STORING)
  {
    var s1 := Step(S_CHECKED, ByDrain(DrainReadSession)).value;
    assert s1 == S_CHECKED.(drain := DrainReady(0), clock := 8);
    var s2 := Step(s1, ByDrain(DrainFetchStart)).value;
    assert s2 == S_CHECKED.(drain := DrainFetching(0, 8), clock := 9);
    var s3 := Step(s2, ByDrain(DrainFetchOk([]))).value;
    assert s3 == S_CHECKED.(drain := DrainStoring(Listing([], Some(0), 8)), clock := 10);
    var s4 := Step(s3, ByOutside(Notice)).value;
    assert s4 == S_STORING;
  }

  /** The supervisor then finds the server dead... */
  lemma RunClaims(reach: State -> bool)
    requires Closed(reach) && reach(S_STORING)
    ensures reach(S_CLAIMED)
  {
    var s1 := Step(S_STORING, BySupervisor(SupervisorLoad)).value;
    assert s1 == S_STORING.(supervisor := SupervisorChecked, clock := 12);
    var s2 := Step(s1, BySupervisor(SupervisorReadSession)).value;
    assert s2 == S_STORING.(supervisor := SupervisorProbing(0), clock := 13);
    var s3 := Step(s2, BySupervisor(ProbeFail)).value;
    assert s3 == S_STORING.(supervisor := SupervisorFailed, clock := 14);
    var s4 := Step(s3, BySupervisor(SupervisorCheckContext)).value;
    assert s4 == S_STORING.(supervisor := SupervisorRacing, clock := 15);
    var s5 := Step(s4, BySupervisor(SupervisorCas)).value;
    assert s5 == S_CLAIMED;
  }

  lemma RunWaits(reach: State -> bool)
    requires Closed(reach) && reach(S_CLAIMED)
    ensures reach(S_WAITING)
  {
    var s1 := Step(S_CLAIMED, ByReconnector(0, MarkDown)).value;
    var s2 := Step(s1, ByReconnector(0, CloseOld)).value;
    assert s2 == S_WAITING;
  }

  lemma RunFetches(reach: State -> bool)
    requires Closed(reach) && reach(S_WAITING)
    ensures reach(S_FETCHING)
  {
    var s1 := Step(S_WAITING, ByReconnector(0, BackoffElapsed)).value;
    var s2 := Step(s1, ByReconnector(0, DialOk)).value;
    var s3 := Step(s2, ByReconnector(0, FetchStart)).value;
    assert s3 == S_FETCHING;
  }

  /** ...and the reconnector swaps session 1 in. */
  lemma RunSwaps(reach: State -> bool)
    requires Closed(reach) && reach(S_FETCHING)
    ensures reach(S_SWAPPED)
  {
    var s1 := Step(S_FETCHING, ByReconnector(0, FetchOk([]))).value;
    var s2 := Step(s1, ByReconnector(0, Swap)).value;
    assert s2 == S_SWAPPED;
  }

  lemma RunStores(reach: State -> bool)
    requires Closed(reach) && reach(S_SWAPPED)
    ensures reach(S_STORED)
  {
    var s1 := Step(S_SWAPPED, ByDrain(DrainStore)).value;
    var s2 := Step(s1, ByDrain(DrainNotify)).value;
    assert s2 == S_STORED;
  }

  lemma RunDrops(reach: State -> bool)
    requires Closed(reach) && reach(S_STORED)
    ensures reach(S_LOST)
  {
    var s1 := Step(S_STORED, ByDrain(DrainTake)).value;
    assert s1 == S_STORED.(entry := S_STORED.entry.(refresh := false), drain := DrainTook, clock := 26);
    var s2 := Step(s1, ByDrain(DrainCheck)).value;
    assert s2 == s1.(drain := DrainIdle, clock := 27);
    var s3 := Step(s2, ByReconnector(0, Release)).value;
    assert s3 == S_LOST;
  }

  lemma RunIsLost(reach: State -> bool)
    requires Closed(reach) && reach(Init(true, true))
    ensures reach(S_LOST)
  {
    RunBoots(reach);
    RunTakesNotice(reach);
    RunHoldsOldList(reach);
    RunClaims(reach);
    RunWaits(reach);
    RunFetches(reach);
    RunSwaps(reach);
    RunStores(reach);
    RunDrops(reach);
  }

  ghost predicate Reachable(s: State) {
    exists actions :: Run(Init(true, true), actions) == Some(s)
  }

  lemma ReachableSteps(s: State, a: Action)
    requires Reachable(s) && Step(s, a).Some?
    ensures Reachable(Step(s, a).value)
  {
    var actions :| Run(Init(true, true), actions) == Some(s);
    RunExtends(Init(true, true), actions, a);
  }

  /**
   Both exclusions are needed. This reachable state is at rest and Connected to session 1,
   but its tools came from session 0, and the notice posted at time 10 was lost: the
   refresh stored over the swap, and its token was dropped before the flag was released.
   */
  lemma StaleStoreIsReachable()
    ensures Reachable(S_LOST)
    ensures S_LOST.entry.state == Connected && !S_LOST.entry.reconnecting && !S_LOST.cancelled
    ensures S_LOST.entry.session == Some(1) && S_LOST.entry.tools.origin == Some(0)
    ensures 10 in S_LOST.log.notices && !Served(S_LOST, 10)
  {
    var reach := (s: State) => Reachable(s);
    forall s, a | reach(s) && Step(s, a).Some?
      ensures reach(Step(s, a).value)
    {
      ReachableSteps(s, a);
    }
    assert Run(Init(true, true), []) == Some(Init(true, true));
    RunIsLost(reach);
  }

  // ---- OnToolsChanged --------------------------------------------------------------

  /** The logged changes lead from one list to another, each a genuine change, up to (Server, Name). */
  ghost predicate Chain(first: seq<ToolInfo>, changes: seq<Change>, last: seq<ToolInfo>)
    decreases |changes|
  {
    if changes == [] then Identity(first) == Identity(last)
    else
      var c := changes[|changes| - 1];
      && Identity(c.after) == Identity(last)
      && Identity(c.before) != Identity(c.after)
      && Chain(first, changes[..|changes| - 1], c.before)
  }

  /** A chain may be cut anywhere: consecutive changes meet and each is a genuine change. */
  lemma {:induction false} ChainLinks(first: seq<ToolInfo>, changes: seq<Change>, last: seq<ToolInfo>, i: nat)
    requires Chain(first, changes, last) && i < |changes|
    ensures Identity(changes[i].before) != Identity(changes[i].after)
    ensures i == 0 ==> Identity(first) == Identity(changes[0].before)
    ensures i > 0 ==> Identity(changes[i - 1].after) == Identity(changes[i].before)
    ensures Identity(changes[|changes| - 1].after) == Identity(last)
    decreases |changes|
  {
    if i < |changes| - 1 {
      ChainLinks(first, changes[..|changes| - 1], changes[|changes| - 1].before, i);
    }
  }

  /** The list whose successor the callback has yet to hear of. */
  function Reported(s: State): seq<ToolInfo> {
    if s.drain.DrainNotifying? then s.drain.before else s.entry.tools.tools
  }

  ghost predicate ChangeInv(s: State) {
    && s.onToolsChanged
    && (!s.boot.Ready? ==> s.drain.DrainNotStarted? && s.log.changes == [])
    && (s.drain.DrainNotifying? ==> s.drain.after == s.entry.tools.tools)
    && Chain(s.log.initialTools.tools, s.log.changes, Reported(s))
  }

  lemma {:induction false} ChainEndsWith(first: seq<ToolInfo>, changes: seq<Change>, last: seq<ToolInfo>,
                                         last': seq<ToolInfo>)
    requires Chain(first, changes, last) && Identity(last) == Identity(last')
    ensures Chain(first, changes, last')
  {
  }

  lemma DrainKeepsChain(s: State, a: DrainAction)
    requires ChangeInv(s) && DrainStep(s, a).Some?
    ensures ChangeInv(DrainStep(s, a).value)
  {
    var s' := DrainStep(s, a).value;
    if a.DrainNotify? {
      if Identity(s.drain.before) == Identity(s.drain.after) {
        ChainEndsWith(s.log.initialTools.tools, s.log.changes, s.drain.before, s.drain.after);
      } else {
        assert s'.log.changes[..|s'.log.changes| - 1] == s.log.changes;
      }
    } else {
      assert s'.log.changes == s.log.changes && s'.log.initialTools == s.log.initialTools;
      assert s'.boot == s.boot && Reported(s') == Reported(s);
    }
  }

  lemma BootKeepsChain(s: State, a: BootAction)
    requires ChangeInv(s) && BootStep(s, a).Some?
    ensures ChangeInv(BootStep(s, a).value)
  {
  }

  /** Nobody else touches the list, the drain or the log of changes, short of a swap. */
  lemma ReconnectKeepsChain(s: State, a: ReconnectAction, t: nat)
    requires ChangeInv(s) && ReconnectStep(s, a, t).Some? && !a.Swap?
    ensures ChangeInv(ReconnectStep(s, a, t).value)
  {
    var s' := ReconnectStep(s, a, t).value;
    assert s'.entry.tools == s.entry.tools && s'.drain == s.drain && s'.boot == s.boot && s'.log == s.log;
  }

  lemma SupervisorKeepsChain(s: State, a: SupervisorAction)
    requires ChangeInv(s) && SupervisorStep(s, a).Some?
    ensures ChangeInv(SupervisorStep(s, a).value)
  {
    hide SupervisorStep;
    SupervisorFrame(s, a);
  }

  lemma OutsideKeepsChain(s: State, a: OutsideAction)
    requires ChangeInv(s) && OutsideStep(s, a).Some?
    ensures ChangeInv(OutsideStep(s, a).value)
  {
    var s' := OutsideStep(s, a).value;
    assert s'.entry.tools == s.entry.tools && s'.drain == s.drain && s'.boot == s.boot;
  }

  lemma StepKeepsChain(s: State, a: Action)
    requires ChangeInv(s) && Step(s, a).Some? && !IsSwap(a)
    ensures ChangeInv(Step(s, a).value)
  {
    match a
    case ByNew(b) => BootKeepsChain(s, b);
    case ByReconnector(t, r) => ReconnectKeepsChain(s, r, t);
    case ByDrain(d) => DrainKeepsChain(s, d);
    case BySupervisor(v) => SupervisorKeepsChain(s, v);
    case ByOutside(o) => OutsideKeepsChain(s, o);
  }

  lemma {:induction false} RunKeepsChain(s: State, actions: seq<Action>)
    requires Inv(s) && ChangeInv(s) && Run(s, actions).Some?
    requires forall i :: 0 <= i < |actions| ==> !IsSwap(actions[i])
    ensures Inv(Run(s, actions).value) && ChangeInv(Run(s, actions).value)
    decreases |actions|
  {
    if actions != [] {
      StepKeepsInv(s, actions[0]);
      StepKeepsChain(s, actions[0]);
      RunKeepsChain(Step(s, actions[0]).value, actions[1..]);
    }
  }

  /**
   With the callback registered and no reconnect swap, the (before, after) pairs reported
   so far lead from the first list to the stored one, or to the list the drain is about
   to report on.
   */
  lemma ChangesTelescope(healthCheck: bool, actions: seq<Action>)
    requires Run(Init(healthCheck, true), actions).Some?
    requires forall i :: 0 <= i < |actions| ==> !IsSwap(actions[i])
    ensures var s := Run(Init(healthCheck, true), actions).value;
      && Chain(s.log.initialTools.tools, s.log.changes, Reported(s))
      && (!s.drain.DrainNotifying? ==> Chain(s.log.initialTools.tools, s.log.changes, s.entry.tools.tools))
  {
    RunKeepsChain(Init(healthCheck, true), actions);
  }
}
