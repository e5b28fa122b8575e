/**
 ServerStatus without health checks. The documentation promises that every server then
 reads Connected; the code keeps a Down stub for a server whose first connect failed.
 Down is read exactly from the stub's installation until the reconnector's first swap.
 */
module ServerStatus {
  import opened Basics
  import opened ServerProtocol

  predicate IsStub(a: Action) {
    a == ByNew(BootInstallStub)
  }

  /** What a run without health checks shows, given whether a stub was installed and whether a swap happened. */
  ghost predicate Shows(s: State, stubbed: bool, swapped: bool) {
    && !s.healthCheck && s.supervisor.SupervisorOff?
    && (s.boot.Installed? || s.boot.Ready? ==>
          && (s.entry.state.Down? <==> stubbed && !swapped)
          && (s.boot.Installed? ==> !swapped && (s.entry.reconnecting <==> stubbed)))
    && (!s.boot.Installed? && !s.boot.Ready? ==> !stubbed && !swapped)
    && (!s.boot.Ready? ==> forall t :: t !in s.reconnectors)
    && (forall t :: t in s.reconnectors ==> stubbed && (s.entry.state.Down? || s.reconnectors[t].pc.Swapped?))
    && (forall t, u :: t in s.reconnectors && u in s.reconnectors ==> t == u)
    && (!s.boot.Installed? && !s.boot.Ready? ==> s.entry.state.Down? && !s.entry.reconnecting)
  }

  lemma ReconnectShows(s: State, a: ReconnectAction, t: nat, stubbed: bool, swapped: bool)
    requires Shows(s, stubbed, swapped) && ReconnectStep(s, a, t).Some?
    ensures Shows(ReconnectStep(s, a, t).value, stubbed, swapped || a.Swap?)
  {
    var s' := ReconnectStep(s, a, t).value;
    assert t in s.reconnectors;
    assert forall u :: u in s'.reconnectors ==> u in s.reconnectors;
  }

  lemma BootShows(s: State, a: BootAction, stubbed: bool, swapped: bool)
    requires Shows(s, stubbed, swapped) && BootStep(s, a).Some?
    ensures Shows(BootStep(s, a).value, stubbed || a.BootInstallStub?, swapped)
  {
  }

  /** Nothing else writes what Shows reads. */
  lemma DrainShows(s: State, a: DrainAction, stubbed: bool, swapped: bool)
    requires Shows(s, stubbed, swapped) && DrainStep(s, a).Some?
    ensures Shows(DrainStep(s, a).value, stubbed, swapped)
  {
  }

  lemma OutsideShows(s: State, a: OutsideAction, stubbed: bool, swapped: bool)
    requires Shows(s, stubbed, swapped) && OutsideStep(s, a).Some?
    ensures Shows(OutsideStep(s, a).value, stubbed, swapped)
  {
  }

  lemma SupervisorStaysOff(s: State, a: SupervisorAction)
    requires s.supervisor.SupervisorOff?
    ensures SupervisorStep(s, a).None?
  {
  }

  lemma EffectShows(s: State, a: Action, stubbed: bool, swapped: bool)
    requires Shows(s, stubbed, swapped) && Effect(s, a).Some?
    ensures Shows(Effect(s, a).value, stubbed || IsStub(a), swapped || IsSwap(a))
  {
    SupervisorOff(s, stubbed, swapped);
    hide Shows, BootStep, ReconnectStep, DrainStep, SupervisorStep, OutsideStep;
    match a
    case ByNew(b) => BootShows(s, b, stubbed, swapped);
    case ByReconnector(t, r) => ReconnectShows(s, r, t, stubbed, swapped);
    case ByDrain(d) => DrainShows(s, d, stubbed, swapped);
    case BySupervisor(v) => SupervisorStaysOff(s, v);
    case ByOutside(o) => OutsideShows(s, o, stubbed, swapped);
  }

  lemma SupervisorOff(s: State, stubbed: bool, swapped: bool)
    requires Shows(s, stubbed, swapped)
    ensures s.supervisor.SupervisorOff?
  {
  }

  lemma StepShows(s: State, a: Action, stubbed: bool, swapped: bool)
    requires Shows(s, stubbed, swapped) && Step(s, a).Some?
    ensures Shows(Step(s, a).value, stubbed || IsStub(a), swapped || IsSwap(a))
  {
    EffectShows(s, a, stubbed, swapped);
    hide Effect;
  }

  lemma {:induction false} RunShows(s: State, actions: seq<Action>, stubbed: bool, swapped: bool)
    requires Shows(s, stubbed, swapped) && Run(s, actions).Some?
    ensures Shows(Run(s, actions).value,
                  stubbed || exists i :: 0 <= i < |actions| && IsStub(actions[i]),
                  swapped || exists i :: 0 <= i < |actions| && IsSwap(actions[i]))
    decreases |actions|
  {
    if actions != [] {
      var a, rest := actions[0], actions[1..];
      StepShows(s, a, stubbed, swapped);
      hide Step, Shows;
      RunShows(Step(s, a).value, rest, stubbed || IsStub(a), swapped || IsSwap(a));
      SomewhereIn(actions, IsStub);
      SomewhereIn(actions, IsSwap);
    }
  }

  lemma SomewhereIn(actions: seq<Action>, p: Action -> bool)
    requires actions != []
    ensures (exists i :: 0 <= i < |actions| && p(actions[i]))
       <==> p(actions[0]) || exists i :: 0 <= i < |actions[1..]| && p(actions[1..][i])
  {
    if i :| 0 <= i < |actions| && p(actions[i]) && i > 0 {
      assert p(actions[1..][i - 1]);
    }
    if i :| 0 <= i < |actions[1..]| && p(actions[1..][i]) {
      assert p(actions[i + 1]);
    }
  }

  /** With health checks off, a published server reads Down exactly between its stub's installation and the first swap. */
  lemma DownIffStubNotSwapped(onToolsChanged: bool, actions: seq<Action>)
    requires Run(Init(false, onToolsChanged), actions).Some?
    requires Run(Init(false, onToolsChanged), actions).value.boot.Ready?
    ensures Run(Init(false, onToolsChanged), actions).value.entry.state.Down?
       <==> (exists i :: 0 <= i < |actions| && IsStub(actions[i])) && !(exists i :: 0 <= i < |actions| && IsSwap(actions[i]))
  {
    RunShows(Init(false, onToolsChanged), actions, false, false);
  }

  /** So the documented promise fails: a run without health checks whose server reads Down. */
  lemma DownWithoutHealthCheck(onToolsChanged: bool)
    ensures var s := Run(Init(false, onToolsChanged), [ByNew(BootDialFail), ByNew(BootInstallStub), ByNew(BootStart)]);
      s.Some? && s.value.boot.Ready? && s.value.entry.state.Down?
  {
    var actions := [ByNew(BootDialFail), ByNew(BootInstallStub), ByNew(BootStart)];
    var s1 := Step(Init(false, onToolsChanged), actions[0]).value;
    var s2 := Step(s1, actions[1]).value;
    var s3 := Step(s2, actions[2]).value;
    assert s3.boot.Ready? && s3.entry.state.Down?;
    hide Step;
    assert actions[1..] == [actions[1], actions[2]] && actions[1..][1..] == [actions[2]] && actions[1..][1..][1..] == [];
    assert Run(s2, [actions[2]]) == Some(s3);
    assert Run(s1, [actions[1], actions[2]]) == Some(s3);
  }
}
