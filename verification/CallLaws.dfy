/**
 What CallTool promises on every path, read off the trace alone: who is told what, how
 often and in which order. The laws hold for every configuration and every request.
 */
module CallLaws {
  import opened Basics
  import opened Tools
  import opened Json
  import opened CallResults
  import opened ServerProtocol
  import opened CallPipeline
  import ProtocolSafety

  function Trace(c: Config, q: Request): seq<Event> {
    Call(c, q).phases.Trace()
  }

  function Returned(c: Config, q: Request): CallPipeline.Outcome {
    Call(c, q).outcome
  }

  /** The stage an event belongs to. */
  function Rank(e: Event): nat {
    match e
    case SchemaChecked(_, _) => 0
    case BeforeCall(_, _, _, _) => 1
    case CacheGet(_, _) => 2
    case Upstream(_, _, _) => 3
    case Transform(_, _, _, _) => 4
    case CacheSet(_, _, _, _) => 5
    case Rejected(_, _, _) => 6
    case AfterCall(_, _, _, _, _, _) => 7
    case RecordCall(_) => 8
  }

  /** The events of one stage, in the order they happened. */
  function Only(trace: seq<Event>, rank: nat): seq<Event> {
    if trace == [] then []
    else (if Rank(trace[0]) == rank then [trace[0]] else []) + Only(trace[1..], rank)
  }

  ghost predicate AllRank(trace: seq<Event>, rank: nat) {
    forall i :: 0 <= i < |trace| ==> Rank(trace[i]) == rank
  }

  lemma {:induction false} OnlyAppend(a: seq<Event>, b: seq<Event>, rank: nat)
    ensures Only(a + b, rank) == Only(a, rank) + Only(b, rank)
  {
    hide Rank;
    if a == [] {
      assert a + b == b;
    } else {
      assert (a + b)[1..] == a[1..] + b;
      OnlyAppend(a[1..], b, rank);
    }
  }

  lemma {:induction false} OnlySame(a: seq<Event>, r: nat, rank: nat)
    requires AllRank(a, r)
    ensures Only(a, rank) == if r == rank then a else []
  {
    if a != [] {
      OnlySame(a[1..], r, rank);
    }
  }

  function Stage(p: Phases, r: nat): seq<Event>
    requires r < 9
  {
    [p.checked, p.before, p.looked, p.sent, p.edited, p.stored, p.rejected, p.after, p.recorded][r]
  }

  /** The first n phases. */
  function Prefix(p: Phases, n: nat): seq<Event>
    requires n <= 9
  {
    if n == 0 then [] else Prefix(p, n - 1) + Stage(p, n - 1)
  }

  ghost predicate Sorted(p: Phases) {
    && AllRank(p.checked, 0) && AllRank(p.before, 1) && AllRank(p.looked, 2)
    && AllRank(p.sent, 3) && AllRank(p.edited, 4) && AllRank(p.stored, 5)
    && AllRank(p.rejected, 6) && AllRank(p.after, 7) && AllRank(p.recorded, 8)
  }

  lemma TraceIsPrefix(p: Phases)
    ensures p.Trace() == Prefix(p, 9)
  {
    assert Prefix(p, 1) == p.checked;
    assert Prefix(p, 2) == Prefix(p, 1) + p.before;
    assert Prefix(p, 3) == Prefix(p, 2) + p.looked;
    assert Prefix(p, 4) == Prefix(p, 3) + p.sent;
    assert Prefix(p, 5) == Prefix(p, 4) + p.edited;
    assert Prefix(p, 6) == Prefix(p, 5) + p.stored;
    assert Prefix(p, 7) == Prefix(p, 6) + p.rejected;
    assert Prefix(p, 8) == Prefix(p, 7) + p.after;
  }

  lemma {:induction false} OnlyPrefix(p: Phases, n: nat, r: nat)
    requires Sorted(p) && n <= 9 && r < 9
    ensures Only(Prefix(p, n), r) == if r < n then Stage(p, r) else []
    decreases n
  {
    if n > 0 {
      OnlyPrefix(p, n - 1, r);
      OnlyAppend(Prefix(p, n - 1), Stage(p, n - 1), r);
      assert AllRank(Stage(p, n - 1), n - 1);
      OnlySame(Stage(p, n - 1), n - 1, r);
    }
  }

  ghost predicate InOrder(t: seq<Event>, bound: nat) {
    && (forall i :: 0 <= i < |t| ==> Rank(t[i]) < bound)
    && (forall i, j :: 0 <= i < j < |t| ==> Rank(t[i]) <= Rank(t[j]))
  }

  lemma AppendInOrder(a: seq<Event>, b: seq<Event>, bound: nat)
    requires InOrder(a, bound) && AllRank(b, bound)
    ensures InOrder(a + b, bound + 1)
  {
  }

  lemma {:induction false} PrefixInOrder(p: Phases, n: nat)
    requires Sorted(p) && n <= 9
    ensures InOrder(Prefix(p, n), n)
    decreases n
  {
    if n > 0 {
      PrefixInOrder(p, n - 1);
      assert AllRank(Stage(p, n - 1), n - 1);
      AppendInOrder(Prefix(p, n - 1), Stage(p, n - 1), n - 1);
    }
  }

  // ---- the phases of a call hold only their own events -------------------------------------

  lemma {:induction false} BeforeRank(c: Config, q: Request, info: ToolInfo, text: string, k: nat)
    requires k <= |c.beforeCall|
    ensures AllRank(Before(c, q, info, text, k).events, 1)
    decreases k
  {
    if k > 0 {
      BeforeRank(c, q, info, text, k - 1);
    }
  }

  lemma {:induction false} TransformsRank(c: Config, q: Request, ctx: Context, info: ToolInfo, given: ResultValue, k: nat)
    requires k <= |c.resultTransform|
    ensures AllRank(Transforms(c, q, ctx, info, given, k).events, 4)
    decreases k
  {
    if k > 0 {
      TransformsRank(c, q, ctx, info, given, k - 1);
    }
  }

  lemma QuietIsSorted()
    ensures Sorted(QUIET)
  {
  }

  lemma OneRank(e: Event)
    ensures AllRank([e], Rank(e))
  {
  }

  lemma CheckedRank(c: Config, q: Request)
    ensures AllRank(Admit(c, q).checked, 0)
  {
  }

  lemma AfterRank(c: Config, ctx: Context, info: ToolInfo, text: string, result: Option<ResultValue>, err: Option<Error>)
    ensures AllRank(After(c, ctx, info, text, result, err), 7)
  {
  }

  lemma StoreRank(c: Config, q: Request, ctx: Context, info: ToolInfo, text: string, result: ResultValue)
    ensures AllRank(Store(c, q, ctx, info, text, result), 5)
  {
  }

  lemma RejectRank(c: Config, ctx: Context, reason: RejectReason, err: Error)
    ensures AllRank(Reject(c, ctx, reason, err), 6)
  {
  }

  lemma DispatchSorted(c: Config, q: Request, ctx: Context, info: ToolInfo, session: Option<Session>,
                       arguments: Option<Json>, text: string, lead: Phases)
    requires Sorted(lead)
    ensures Sorted(Dispatch(c, q, ctx, info, session, arguments, text, lead).phases)
  {
    hide AllRank, After, Store, Transforms, Reject;
    OneRank(Upstream(session, ctx, arguments));
    match c.upstream(session, ctx, q.server, q.tool, arguments)
    case Failed(cause, deadline) =>
      var err := Some(UpstreamError(q, Failed(cause, deadline)));
      AfterRank(c, ctx, info, text, None, err);
      OneRank(RecordCall(err));
    case Replied(raw) =>
      TransformsRank(c, q, ctx, info, raw, |c.resultTransform|);
      var edits := Transforms(c, q, ctx, info, raw, |c.resultTransform|);
      AfterRank(c, ctx, info, text, Some(edits.result), edits.err);
      OneRank(RecordCall(edits.err));
      StoreRank(c, q, ctx, info, text, edits.result);
  }

  lemma ServeSorted(c: Config, q: Request, ctx: Context, info: ToolInfo, session: Option<Session>,
                    arguments: Option<Json>, text: string, lead: Phases)
    requires Sorted(lead)
    ensures Sorted(Serve(c, q, ctx, info, session, arguments, text, lead).phases)
  {
    hide AllRank, After, Dispatch;
    var key := KeyOf(c, q, ctx, text);
    OneRank(CacheGet(ctx, key));
    if ActiveCache(c).Some? {
      AfterRank(c, ctx.(cacheHit := true), info, text, ActiveCache(c).value(ctx, key), None);
    }
    DispatchSorted(c, q, ctx, info, session, arguments, text, lead);
    DispatchSorted(c, q, ctx, info, session, arguments, text, lead.(looked := [CacheGet(ctx, key)]));
  }

  lemma CallSorted(c: Config, q: Request)
    ensures Sorted(Call(c, q).phases)
  {
    hide AllRank, After, Serve, Reject, Before, Admit;
    QuietIsSorted();
    CheckedRank(c, q);
    match Admit(c, q)
    case Refused(reason, err, info, shown, checked) =>
      RejectRank(c, q.ctx, reason, err);
      AfterRank(c, q.ctx, info, shown, None, Some(err));
      OneRank(RecordCall(Some(err)));
    case Admitted(info, session, arguments, text, checked) =>
      BeforeRank(c, q, info, text, |c.beforeCall|);
      var chain := Before(c, q, info, text, |c.beforeCall|);
      match chain.stop
      case Some(Aborted(err)) =>
        RejectRank(c, chain.ctx, HookAbort, err);
        AfterRank(c, chain.ctx, info, text, None, Some(err));
      case Some(ShortCircuited(result)) =>
        AfterRank(c, chain.ctx, info, text, Some(result), None);
      case None =>
        ServeSorted(c, q, chain.ctx, info, session, arguments, text, QUIET.(checked := checked, before := chain.events));
  }

  /** The events of each stage of a call's trace are the stage's own. */
  lemma StagesOf(c: Config, q: Request)
    ensures forall r :: 0 <= r < 9 ==> Only(Trace(c, q), r) == Stage(Call(c, q).phases, r)
  {
    hide Call, Only;
    CallSorted(c, q);
    TraceIsPrefix(Call(c, q).phases);
    forall r | 0 <= r < 9
      ensures Only(Trace(c, q), r) == Stage(Call(c, q).phases, r)
    {
      OnlyPrefix(Call(c, q).phases, 9, r);
    }
  }

  /**
   On every path the stages follow one another: schema check, BeforeCall, cache lookup,
   upstream, transforms, cache store, rejection, AfterCall, metrics.
   */
  lemma StagesInOrder(c: Config, q: Request)
    ensures var t := Trace(c, q); forall i, j :: 0 <= i < j < |t| ==> Rank(t[i]) <= Rank(t[j])
  {
    hide Call;
    CallSorted(c, q);
    TraceIsPrefix(Call(c, q).phases);
    PrefixInOrder(Call(c, q).phases, 9);
  }

  function Afters(t: seq<Event>): seq<Event> { Only(t, 7) }
  function Rejections(t: seq<Event>): seq<Event> { Only(t, 6) }
  function Dispatches(t: seq<Event>): seq<Event> { Only(t, 3) }
  function Records(t: seq<Event>): seq<Event> { Only(t, 8) }
  function Lookups(t: seq<Event>): seq<Event> { Only(t, 2) }
  function Stores(t: seq<Event>): seq<Event> { Only(t, 5) }
  function Transformations(t: seq<Event>): seq<Event> { Only(t, 4) }
  function Befores(t: seq<Event>): seq<Event> { Only(t, 1) }

  function ErrorOf(o: CallPipeline.Outcome): Option<Error> {
    if o.Failure? then Some(o.err) else None
  }

  /** The AfterCall stage of a call that got as far as the upstream server. */
  lemma DispatchAfter(c: Config, q: Request, ctx: Context, info: ToolInfo, session: Option<Session>,
                      arguments: Option<Json>, text: string, lead: Phases) returns (result: Option<ResultValue>)
    ensures var run := Dispatch(c, q, ctx, info, session, arguments, text, lead);
      && run.phases.after == After(c, ctx, info, text, result, ErrorOf(run.outcome))
      && (run.outcome.Success? ==> result == Some(run.outcome.result))
  {
    var reply := c.upstream(session, ctx, q.server, q.tool, arguments);
    result := if reply.Failed? then None
              else Some(Transforms(c, q, ctx, info, reply.result, |c.resultTransform|).result);
  }

  /** One AfterCall round, with the returned error and, on success, the returned result. */
  lemma AfterStage(c: Config, q: Request) returns (ctx: Context, info: ToolInfo, text: string, result: Option<ResultValue>)
    ensures var run := Call(c, q);
      && run.phases.after == After(c, ctx, info, text, result, ErrorOf(run.outcome))
      && (run.outcome.Success? ==> result == Some(run.outcome.result))
  {
    hide Dispatch, Admit, Before, After;
    match Admit(c, q)
    case Refused(_, _, i, shown, _) =>
      ctx, info, text, result := q.ctx, i, shown, None;
    case Admitted(i, session, arguments, t, checked) =>
      var chain := Before(c, q, i, t, |c.beforeCall|);
      ctx, info, text, result := chain.ctx, i, t, None;
      if chain.stop.None? {
        var lead := QUIET.(checked := checked, before := chain.events);
        if ActiveCache(c).Some? && IsCacheable(i) {
          var key := KeyOf(c, q, ctx, t);
          result := ActiveCache(c).value(ctx, key);
          if result.Some? {
            ctx := ctx.(cacheHit := true);
          } else {
            result := DispatchAfter(c, q, ctx, i, session, arguments, t, lead.(looked := [CacheGet(ctx, key)]));
          }
        } else {
          result := DispatchAfter(c, q, ctx, i, session, arguments, t, lead);
        }
      } else if chain.stop.value.ShortCircuited? {
        result := Some(chain.stop.value.result);
      }
  }

  /** Every AfterCall hook runs exactly once, in registration order, with the returned error and result. */
  lemma AfterHooksRunOnce(c: Config, q: Request)
    ensures var after := Afters(Trace(c, q)); var o := Returned(c, q);
      && |after| == c.afterCall
      && (forall i :: 0 <= i < |after| ==>
            && after[i].AfterCall? && after[i].hook == i
            && after[i].err == ErrorOf(o)
            && (o.Success? ==> after[i].result == Some(o.result))
            && (forall j :: 0 <= j < |after| ==> after[j] == after[i].(hook := j)))
  {
    hide Only, Call;
    StagesOf(c, q);
    var ctx, info, text, result := AfterStage(c, q);
    assert Afters(Trace(c, q)) == Stage(Call(c, q).phases, 7);
  }

  /**
   The rejection callback fires exactly when the call fails without having been sent
   upstream, once, with the returned error; by StagesInOrder it precedes AfterCall.
   */
  lemma RejectedIffNeverSent(c: Config, q: Request)
    ensures var t := Trace(c, q); var o := Returned(c, q);
      && |Rejections(t)| == (if c.onRejectedCall && o.Failure? && Dispatches(t) == [] then 1 else 0)
      && (forall i :: 0 <= i < |Rejections(t)| ==> Rejections(t)[i].Rejected? && Some(Rejections(t)[i].cause) == ErrorOf(o))
  {
    var p := Staged(c, q);
    hide Only, Before, Admit, After;
    match Admit(c, q)
    case Refused(_, _, _, _, _) =>
    case Admitted(info, session, arguments, text, checked) =>
      var chain := Before(c, q, info, text, |c.beforeCall|);
      ServeKeepsLead(c, q, chain.ctx, info, session, arguments, text, QUIET.(checked := checked, before := chain.events));
      hide Serve;
  }

  /** What an admitted request was admitted on. */
  lemma AdmittedSnapshot(c: Config, q: Request)
    requires Admit(c, q).Admitted?
    ensures q.server in c.servers && c.servers[q.server].state.Connected?
    ensures FindTool(c.servers[q.server].tools, q.tool).Some? && Admit(c, q).session == c.servers[q.server].session
  {
    hide FindTool, Prepare;
  }

  /** At most one upstream call; only for a known tool of a Connected snapshot, on its session. */
  lemma SentAtMostOnce(c: Config, q: Request)
    ensures var d := Dispatches(Trace(c, q));
      && |d| <= 1
      && (d != [] ==>
            && q.server in c.servers
            && c.servers[q.server].state.Connected?
            && FindTool(c.servers[q.server].tools, q.tool).Some?
            && d[0].Upstream? && d[0].session == c.servers[q.server].session)
  {
    var p := Staged(c, q);
    hide Only, Before, Admit, After, FindTool;
    match Admit(c, q)
    case Refused(_, _, _, _, _) =>
    case Admitted(info, session, arguments, text, checked) =>
      AdmittedSnapshot(c, q);
      var chain := Before(c, q, info, text, |c.beforeCall|);
      ServeKeepsLead(c, q, chain.ctx, info, session, arguments, text, QUIET.(checked := checked, before := chain.events));
      hide Serve;
  }

  /** The session called is there, and open unless Close had begun, whenever the snapshot was taken in some run. */
  lemma SentOnOpenSession(c: Config, q: Request, healthCheck: bool, onToolsChanged: bool, actions: seq<Action>, i: nat)
    requires ServerProtocol.Run(Init(healthCheck, onToolsChanged), actions).Some?
    requires i < |ServerProtocol.Run(Init(healthCheck, onToolsChanged), actions).value.log.snapshots|
    requires q.server in c.servers
    requires c.servers[q.server] == ServerProtocol.Run(Init(healthCheck, onToolsChanged), actions).value.log.snapshots[i]
    ensures var d := Dispatches(Trace(c, q)); var snap := c.servers[q.server];
      d != [] ==> d[0].Upstream? && d[0].session.Some? && d[0].session == snap.session && (snap.usable || snap.closeBegun)
  {
    hide Call, Only, ServerProtocol.Run, Init;
    SentAtMostOnce(c, q);
    ProtocolSafety.SnapshotsAreUsable(healthCheck, onToolsChanged, actions, i);
  }

  /** What the hook behind a BeforeCall event answered. */
  function AnswerTo(c: Config, q: Request, e: Event): HookAnswer
    requires e.BeforeCall? && e.hook < |c.beforeCall|
  {
    c.beforeCall[e.hook](e.ctx, q.server, q.tool, e.info, e.args)
  }

  predicate Stops(a: HookAnswer) {
    a.err.Some? || a.result.Some?
  }

  /** Hooks run in order from the first, each with the last non-nil context before it; only the last run may stop. */
  ghost predicate IsChain(c: Config, q: Request, info: ToolInfo, text: string, b: seq<Event>) {
    && |b| <= |c.beforeCall|
    && (forall i :: 0 <= i < |b| ==> b[i].BeforeCall? && b[i].hook == i && b[i].info == info && b[i].args == text)
    && (b != [] ==> b[0].ctx == q.ctx)
    && (forall i :: 0 <= i < |b| - 1 ==>
          && !Stops(AnswerTo(c, q, b[i]))
          && b[i + 1].ctx == Next(AnswerTo(c, q, b[i]), b[i].ctx))
  }

  function Next(a: HookAnswer, ctx: Context): Context {
    if a.ctx.Some? then a.ctx.value else ctx
  }

  /** The context a finished chain leaves behind, and why it ended. */
  ghost predicate Ends(c: Config, q: Request, b: seq<Event>, ctx: Context, stop: Option<Stop>)
    requires b != [] ==> b[|b| - 1].BeforeCall? && b[|b| - 1].hook < |c.beforeCall|
  {
    if b == [] then ctx == q.ctx && stop == None
    else
      var last := b[|b| - 1];
      var a := AnswerTo(c, q, last);
      && ctx == (if Stops(a) then last.ctx else Next(a, last.ctx))
      && stop == (if a.err.Some? then Some(Aborted(a.err.value))
                  else if a.result.Some? then Some(ShortCircuited(a.result.value)) else None)
  }

  lemma {:induction false} BeforeIsChain(c: Config, q: Request, info: ToolInfo, text: string, k: nat)
    requires k <= |c.beforeCall|
    ensures var p := Before(c, q, info, text, k);
      && IsChain(c, q, info, text, p.events)
      && Ends(c, q, p.events, p.ctx, p.stop)
      && (p.stop.None? ==> |p.events| == k) && |p.events| <= k
    decreases k
  {
    if k > 0 {
      BeforeIsChain(c, q, info, text, k - 1);
    }
  }

  /** The last BeforeCall hook that ran aborted or short-circuited the call. */
  predicate StoppedByHook(c: Config, q: Request, b: seq<Event>) {
    && b != []
    && var last := b[|b| - 1];
      last.BeforeCall? && last.hook < |c.beforeCall| && Stops(AnswerTo(c, q, last))
  }

  /** The context after the hooks. */
  function FinalContext(c: Config, q: Request, b: seq<Event>): Context {
    if b == [] then q.ctx
    else
      var last := b[|b| - 1];
      if last.BeforeCall? && last.hook < |c.beforeCall| then Next(AnswerTo(c, q, last), last.ctx) else q.ctx
  }

  /** The call after the hook chain, in terms of the chain. */
  lemma StopDecides(c: Config, q: Request)
    requires Admit(c, q).Admitted?
    ensures var a := Admit(c, q); var b := Call(c, q).phases.before; var run := Call(c, q);
      && IsChain(c, q, a.info, a.text, b) && run.phases.checked == a.checked
      && (StoppedByHook(c, q, b) ==>
            var answer := AnswerTo(c, q, b[|b| - 1]);
            && run.outcome == (if answer.err.Some? then Failure(answer.err.value) else Success(answer.result.value))
            && run.phases.looked == [] && run.phases.sent == [] && run.phases.recorded == [])
      && (!StoppedByHook(c, q, b) ==>
            && |b| == |c.beforeCall|
            && run == Serve(c, q, FinalContext(c, q, b), a.info, a.session, a.arguments, a.text,
                            QUIET.(checked := a.checked, before := b)))
  {
    hide Admit, After, Reject;
    var a := Admit(c, q);
    BeforeIsChain(c, q, a.info, a.text, |c.beforeCall|);
    var chain := Before(c, q, a.info, a.text, |c.beforeCall|);
    hide Before;
    if chain.stop.None? {
      ServeKeepsLead(c, q, chain.ctx, a.info, a.session, a.arguments, a.text,
                     QUIET.(checked := a.checked, before := chain.events));
      hide Serve;
      assert Call(c, q).phases.before == chain.events;
    } else {
      hide Serve;
      assert Call(c, q).phases.before == chain.events;
    }
  }

  /** What the stages from the upstream call on add. */
  lemma DispatchKeepsLead(c: Config, q: Request, ctx: Context, info: ToolInfo, session: Option<Session>,
                          arguments: Option<Json>, text: string, lead: Phases)
    requires lead == QUIET.(checked := lead.checked, before := lead.before, looked := lead.looked)
    ensures var run := Dispatch(c, q, ctx, info, session, arguments, text, lead);
      && run.phases.before == lead.before && run.phases.checked == lead.checked && run.phases.looked == lead.looked
      && run.phases.rejected == [] && run.phases.sent == [Upstream(session, ctx, arguments)]
      && run.phases.recorded == [RecordCall(ErrorOf(run.outcome))]
      && run.phases.stored == if run.outcome.Success? then Store(c, q, ctx, info, text, run.outcome.result) else []
  {
    hide After, Store, Transforms;
  }

  /** What the stages from the cache lookup on add to the hook chain. */
  lemma ServeKeepsLead(c: Config, q: Request, ctx: Context, info: ToolInfo, session: Option<Session>,
                       arguments: Option<Json>, text: string, lead: Phases)
    requires lead == QUIET.(checked := lead.checked, before := lead.before)
    ensures var run := Serve(c, q, ctx, info, session, arguments, text, lead);
      && run.phases.before == lead.before && run.phases.checked == lead.checked && run.phases.rejected == []
      && (run.phases.looked != [] ==> run.phases.looked == [CacheGet(ctx, KeyOf(c, q, ctx, text))])
      && (run.phases.sent != [] ==> run.phases.sent == [Upstream(session, ctx, arguments)])
      && (run.phases.looked == [] ==> run.phases.sent != [])
      && (run.phases.sent == [] ==> run.outcome.Success?)
      && run.phases.recorded == (if run.phases.sent == [] then [] else [RecordCall(ErrorOf(run.outcome))])
      && run.phases.stored == (if run.phases.sent != [] && run.outcome.Success?
                               then Store(c, q, ctx, info, text, run.outcome.result) else [])
      && (run.phases.looked != [] <==> ActiveCache(c).Some? && IsCacheable(info))
  {
    hide Dispatch, After, Store, KeyOf, IsCacheable, ActiveCache;
    DispatchKeepsLead(c, q, ctx, info, session, arguments, text, lead);
    DispatchKeepsLead(c, q, ctx, info, session, arguments, text, lead.(looked := [CacheGet(ctx, KeyOf(c, q, ctx, text))]));
  }

  /**
   The BeforeCall loop is a fold that stops at the first hook answering with an error or a
   result, the error taking precedence, and threads the last non-nil context on to the
   cache lookup and the upstream call.
   */
  lemma BeforeCallIsAFold(c: Config, q: Request)
    ensures var t := Trace(c, q); var b := Befores(t); var d := Lookups(t) + Dispatches(t);
      && (b != [] ==> b[0].BeforeCall? && IsChain(c, q, b[0].info, b[0].args, b))
      && (b != [] && |b| < |c.beforeCall| ==> StoppedByHook(c, q, b))
      && (StoppedByHook(c, q, b) ==>
            var answer := AnswerTo(c, q, b[|b| - 1]);
            && Returned(c, q) == (if answer.err.Some? then Failure(answer.err.value) else Success(answer.result.value))
            && d == [])
      && (d != [] ==> |b| == |c.beforeCall|)
      && (forall i :: 0 <= i < |d| ==> (d[i].CacheGet? || d[i].Upstream?) && d[i].ctx == FinalContext(c, q, b))
  {
    StagesOf(c, q);
    hide Only, Before, Admit;
    var p := Call(c, q).phases;
    assert Befores(Trace(c, q)) == Stage(p, 1) == p.before;
    assert Lookups(Trace(c, q)) == Stage(p, 2) == p.looked;
    assert Dispatches(Trace(c, q)) == Stage(p, 3) == p.sent;
    match Admit(c, q)
    case Refused(_, _, _, _, _) =>
    case Admitted(info, session, arguments, text, checked) =>
      StopDecides(c, q);
      hide Call, Serve;
      ServeKeepsLead(c, q, FinalContext(c, q, p.before), info, session, arguments, text,
                     QUIET.(checked := checked, before := p.before));
  }

  /** A lookup with no upstream call after it: the answer came from the cache. */
  predicate ServedFromCache(t: seq<Event>) {
    Lookups(t) != [] && Dispatches(t) == []
  }

  /** The stages of a trace, named. */
  lemma Staged(c: Config, q: Request) returns (p: Phases)
    ensures p == Call(c, q).phases
    ensures var t := Trace(c, q);
      && Befores(t) == p.before && Lookups(t) == p.looked && Dispatches(t) == p.sent && Stores(t) == p.stored
      && Rejections(t) == p.rejected && Afters(t) == p.after && Records(t) == p.recorded && Only(t, 0) == p.checked
      && Transformations(t) == p.edited
  {
    hide Call, Only;
    StagesOf(c, q);
    p := Call(c, q).phases;
    var t := Trace(c, q);
    assert Only(t, 0) == Stage(p, 0) && Only(t, 1) == Stage(p, 1) && Only(t, 2) == Stage(p, 2);
    assert Only(t, 3) == Stage(p, 3) && Only(t, 4) == Stage(p, 4) && Only(t, 5) == Stage(p, 5);
    assert Only(t, 6) == Stage(p, 6) && Only(t, 7) == Stage(p, 7) && Only(t, 8) == Stage(p, 8);
  }

  /** The hooks' verdict on an admitted request. */
  function ChainOf(c: Config, q: Request): Chain
    requires Admit(c, q).Admitted?
  {
    Before(c, q, Admit(c, q).info, Admit(c, q).text, |c.beforeCall|)
  }

  /** A BeforeCall hook will abort or short-circuit the request. */
  predicate HookStops(c: Config, q: Request) {
    Admit(c, q).Admitted? && ChainOf(c, q).stop.Some?
  }

  /** The cache holds an answer to the request. */
  predicate CacheAnswers(c: Config, q: Request) {
    && Admit(c, q).Admitted? && ChainOf(c, q).stop.None?
    && ActiveCache(c).Some? && IsCacheable(Admit(c, q).info)
    && var ctx := ChainOf(c, q).ctx;
      ActiveCache(c).value(ctx, KeyOf(c, q, ctx, Admit(c, q).text)).Some?
  }

  /** What the trace shows of the two is what the request meets. */
  lemma InterceptionIsTraced(c: Config, q: Request)
    ensures var t := Trace(c, q);
      && (StoppedByHook(c, q, Befores(t)) <==> HookStops(c, q))
      && (ServedFromCache(t) <==> CacheAnswers(c, q))
  {
    var p := Staged(c, q);
    hide Only, Admit, After, Reject, KeyOf, IsCacheable, ActiveCache;
    if Admit(c, q).Admitted? {
      var a := Admit(c, q);
      BeforeIsChain(c, q, a.info, a.text, |c.beforeCall|);
      hide Before, Transforms;
      var chain := ChainOf(c, q);
      if chain.stop.None? {
        ServeKeepsLead(c, q, chain.ctx, a.info, a.session, a.arguments, a.text,
                       QUIET.(checked := a.checked, before := chain.events));
        ServeHits(c, q, chain.ctx, a.info, a.session, a.arguments, a.text,
                  QUIET.(checked := a.checked, before := chain.events));
        hide Serve;
      }
    }
  }

  /** Past the hooks, no upstream call is made exactly when the cache answers. */
  lemma ServeHits(c: Config, q: Request, ctx: Context, info: ToolInfo, session: Option<Session>,
                  arguments: Option<Json>, text: string, lead: Phases)
    requires lead.sent == []
    ensures Serve(c, q, ctx, info, session, arguments, text, lead).phases.sent == [] <==>
      ActiveCache(c).Some? && IsCacheable(info) && ActiveCache(c).value(ctx, KeyOf(c, q, ctx, text)).Some?
  {
    hide After, KeyOf, IsCacheable, ActiveCache, Transforms;
  }

  /**
   RecordCall is made exactly once, with the returned error, unless a BeforeCall hook
   stops the request or the cache answers it; then it is not made at all.
   */
  lemma RecordedUnlessIntercepted(c: Config, q: Request)
    ensures Records(Trace(c, q)) ==
      if HookStops(c, q) || CacheAnswers(c, q) then [] else [RecordCall(ErrorOf(Returned(c, q)))]
  {
    var p := Staged(c, q);
    InterceptionIsTraced(c, q);
    hide Only, Before, Admit, HookStops, CacheAnswers;
    match Admit(c, q)
    case Refused(_, _, _, _, _) =>
    case Admitted(info, session, arguments, text, checked) =>
      StopDecides(c, q);
      hide Call, Serve;
      ServeKeepsLead(c, q, FinalContext(c, q, p.before), info, session, arguments, text,
                     QUIET.(checked := checked, before := p.before));
  }

  // ---- calls that are not recorded ---------------------------------------------------------

  /** A read-only, idempotent tool. */
  function SampleTool(name: string): ToolInfo {
    ZERO_TOOL.(name := name, readOnly := true, idempotent := true)
  }

  /** A connected server with that one tool. */
  function SampleServer(tool: string): Snapshot {
    Snapshot(Connected, Some(0), [SampleTool(tool)], true, false)
  }

  const SAMPLE_CODEC := Codec((text: string) => if text == "{}" then Some(Obj(map[])) else None, (_: Json) => None)

  /** Upstream answers with the server's name; no hooks, callbacks or transforms. */
  function Sample(servers: map<string, Snapshot>): Config {
    Config(servers, SAMPLE_CODEC, _ => [], (_, v) => v, false, (_, _) => [], [], [], 0, false,
           false, None, None, None, 1, _ => None,
           (_, _, server, _, _) => Replied(ResultValue(server, [], false)))
  }

  const SAMPLE_CONTEXT := Context(0, "", false)

  /** A request to the one tool of the one server. */
  const SAMPLE_REQUEST := Request(SAMPLE_CONTEXT, "s", "t", "")

  function SampleWith(hooks: seq<BeforeHook>, cache: Option<Lookup>): Config {
    Sample(map["s" := SampleServer("t")]).(beforeCall := hooks, cache := cache)
  }

  lemma SampleIsAdmitted(hooks: seq<BeforeHook>, cache: Option<Lookup>)
    ensures Admit(SampleWith(hooks, cache), SAMPLE_REQUEST) == Admitted(SampleTool("t"), Some(0), None, "", [])
  {
    assert FindTool([SampleTool("t")], "t") == Some(SampleTool("t"));
  }

  /** A hook that answers anything with a result or an error leaves the call unrecorded. */
  lemma StoppedSampleIsUnrecorded(answer: HookAnswer)
    requires answer.err.Some? || answer.result.Some?
    ensures var c := SampleWith([(_, _, _, _, _) => answer], None);
      && Records(Trace(c, SAMPLE_REQUEST)) == []
      && Returned(c, SAMPLE_REQUEST) ==
           if answer.err.Some? then Failure(answer.err.value) else Success(answer.result.value)
  {
    var c := SampleWith([(_, _, _, _, _) => answer], None);
    SampleIsAdmitted(c.beforeCall, None);
    hide Admit, Only;
    assert Before(c, SAMPLE_REQUEST, SampleTool("t"), "", 1).stop.Some?;
    RecordedUnlessIntercepted(c, SAMPLE_REQUEST);
  }

  /** metrics.go promises a record of every call: here a hook aborts one. */
  lemma AbortIsUnrecorded()
    ensures exists c, q :: Returned(c, q) == Failure(FromHook(0)) && Records(Trace(c, q)) == []
  {
    StoppedSampleIsUnrecorded(HookAnswer(None, None, Some(FromHook(0))));
  }

  /** Here a hook answers one. */
  lemma ShortCircuitIsUnrecorded(result: ResultValue)
    ensures exists c, q :: Returned(c, q) == Success(result) && Befores(Trace(c, q)) != [] && Records(Trace(c, q)) == []
  {
    var answer := HookAnswer(None, Some(result), None);
    var c := SampleWith([(_, _, _, _, _) => answer], None);
    StoppedSampleIsUnrecorded(answer);
    SampleIsAdmitted(c.beforeCall, None);
    InterceptionIsTraced(c, SAMPLE_REQUEST);
    hide Admit, Only;
    assert Before(c, SAMPLE_REQUEST, SampleTool("t"), "", 1).stop.Some?;
    assert StoppedByHook(c, SAMPLE_REQUEST, Befores(Trace(c, SAMPLE_REQUEST)));
    assert Returned(c, SAMPLE_REQUEST) == Success(result);
  }

  /** Here the cache answers one. */
  lemma HitIsUnrecorded(result: ResultValue)
    ensures exists c, q :: Returned(c, q) == Success(result) && ServedFromCache(Trace(c, q)) && Records(Trace(c, q)) == []
  {
    var c := SampleWith([], Some((_, _) => Some(result)));
    SampleIsAdmitted([], c.cache);
    hide Only;
    assert CacheAnswers(c, SAMPLE_REQUEST) && Returned(c, SAMPLE_REQUEST) == Success(result);
    hide Admit, Call;
    InterceptionIsTraced(c, SAMPLE_REQUEST);
    RecordedUnlessIntercepted(c, SAMPLE_REQUEST);
  }

  /** The metadata CallTool found for the request's tool. */
  function InfoOf(c: Config, q: Request): Option<ToolInfo> {
    if q.server in c.servers then FindTool(c.servers[q.server].tools, q.tool) else None
  }

  lemma AdmittedInfo(c: Config, q: Request)
    requires Admit(c, q).Admitted?
    ensures InfoOf(c, q) == Some(Admit(c, q).info)
    ensures var a := Admit(c, q); Prepare(c, q) == Prepared(a.arguments, a.text)
    ensures Admit(c, q).checked ==
      (if c.schemaValidation then [SchemaChecked(Admit(c, q).info.inputSchema, Admit(c, q).text)] else [])
  {
  }

  /**
   A store happens exactly on final success after an upstream call, with caching on, a
   cacheable tool and a result that is no error; it stores the returned result, with the
   tool's time to live, under the key that was looked up.
   */
  lemma StoredIffCacheableSuccess(c: Config, q: Request)
    ensures var t := Trace(c, q); var o := Returned(c, q);
      && |Stores(t)| <= 1
      && (Stores(t) != [] <==>
            && o.Success? && Dispatches(t) != [] && !o.result.isError
            && ActiveCache(c).Some? && InfoOf(c, q).Some? && IsCacheable(InfoOf(c, q).value))
      && (Stores(t) != [] ==>
            && |Lookups(t)| == 1 && Lookups(t)[0].CacheGet?
            && Stores(t)[0] == CacheSet(Lookups(t)[0].ctx, Lookups(t)[0].key, o.result, ToolTTL(c, InfoOf(c, q).value)))
  {
    var p := Staged(c, q);
    hide Only, Before, Admit, InfoOf, IsCacheable, ActiveCache, KeyOf, ToolTTL;
    match Admit(c, q)
    case Refused(_, _, _, _, _) =>
    case Admitted(info, session, arguments, text, checked) =>
      AdmittedInfo(c, q);
      StopDecides(c, q);
      StopStoresNothing(c, q);
      hide Call, Serve;
      ServeKeepsLead(c, q, FinalContext(c, q, p.before), info, session, arguments, text,
                     QUIET.(checked := checked, before := p.before));
  }

  lemma StopStoresNothing(c: Config, q: Request)
    ensures var p := Call(c, q).phases; p.looked == [] && p.sent == [] ==> p.stored == []
  {
    hide Before, Admit, After, Transforms, KeyOf, IsCacheable, ActiveCache;
  }

  /** The request passes the argument phase: server and tool known, server up, arguments usable. */
  predicate ArgumentsTaken(c: Config, q: Request) {
    && InfoOf(c, q).Some? && c.servers[q.server].state.Connected? && Prepare(c, q).Prepared?
  }

  /** The argument text an event shows. */
  function ShownIn(e: Event): Option<string> {
    match e
    case SchemaChecked(_, args) => Some(args)
    case BeforeCall(_, _, _, args) => Some(args)
    case AfterCall(_, _, _, args, _, _) => Some(args)
    case _ => None
  }

  ghost predicate ShowsOnly(t: seq<Event>, text: string) {
    forall i :: 0 <= i < |t| ==> ShownIn(t[i]).None? || ShownIn(t[i]) == Some(text)
  }

  lemma AfterShows(c: Config, q: Request)
    requires ArgumentsTaken(c, q)
    ensures ShowsOnly(Call(c, q).phases.after, Prepare(c, q).text)
  {
    hide Before, Transforms, KeyOf, IsCacheable, ActiveCache, Prepare, FindTool;
  }

  lemma {:induction false} PrefixShows(p: Phases, n: nat, text: string)
    requires n <= 9 && Sorted(p) && ShowsOnly(p.checked, text) && ShowsOnly(p.before, text) && ShowsOnly(p.after, text)
    ensures ShowsOnly(Prefix(p, n), text)
    decreases n
  {
    if n > 0 {
      PrefixShows(p, n - 1, text);
      assert AllRank(Stage(p, n - 1), n - 1);
      assert ShowsOnly(Stage(p, n - 1), text);
    }
  }

  /** What is sent and what is shown, as the argument phase leaves them. */
  lemma PreparedText(c: Config, q: Request)
    requires Prepare(c, q).Prepared?
    ensures var text := Prepare(c, q).text; var arguments := Prepare(c, q).arguments;
      && (q.args == "" <==> arguments.None?) && (q.args == "" ==> text == "")
      && (q.args != "" ==>
            && (c.codec.render(arguments.value) == Some(text) <==> c.codec.render(arguments.value).Some?)
            && (c.codec.render(arguments.value).None? ==> text == q.args))
  {
  }

  /** A refusal after the argument phase is the schema check's. */
  lemma RefusedShows(c: Config, q: Request)
    requires ArgumentsTaken(c, q) && Admit(c, q).Refused?
    ensures ShowsOnly(Admit(c, q).checked, Prepare(c, q).text)
  {
    hide Prepare, FindTool;
  }

  lemma LeadShows(c: Config, q: Request)
    requires ArgumentsTaken(c, q)
    ensures var p := Call(c, q).phases; var text := Prepare(c, q).text; var arguments := Prepare(c, q).arguments;
      && ShowsOnly(p.checked, text) && ShowsOnly(p.before, text)
      && (forall i :: 0 <= i < |p.looked| ==> p.looked[i].CacheGet? && p.looked[i].key == KeyOf(c, q, p.looked[i].ctx, text))
      && (forall i :: 0 <= i < |p.sent| ==> p.sent[i].Upstream? && p.sent[i].arguments == arguments)
  {
    hide Admit, Before, KeyOf, Prepare, FindTool, After, Reject, Serve, ActiveCache, IsCacheable, Store, Stops, Next;
    var p := Call(c, q).phases;
    match Admit(c, q)
    case Refused(_, _, _, _, _) =>
      RefusedShows(c, q);
    case Admitted(info, session, arguments, text, checked) =>
      AdmittedInfo(c, q);
      StopDecides(c, q);
      ServeKeepsLead(c, q, FinalContext(c, q, p.before), info, session, arguments, text,
                     QUIET.(checked := checked, before := p.before));
  }

  /**
   One argument value throughout: the schema check, BeforeCall, AfterCall and the cache
   keys all see the same text, and upstream gets the value it encodes; the two part ways
   exactly when the transformed value cannot be encoded, and then the hooks see the
   request's own text.
   */
  lemma OneArgumentValue(c: Config, q: Request)
    requires ArgumentsTaken(c, q)
    ensures var t := Trace(c, q); var text := Prepare(c, q).text; var arguments := Prepare(c, q).arguments;
      && ShowsOnly(t, text)
      && (forall i :: 0 <= i < |Lookups(t)| ==>
            Lookups(t)[i].CacheGet? && Lookups(t)[i].key == KeyOf(c, q, Lookups(t)[i].ctx, text))
      && (forall i :: 0 <= i < |Dispatches(t)| ==> Dispatches(t)[i].Upstream? && Dispatches(t)[i].arguments == arguments)
      && (q.args == "" <==> arguments.None?) && (q.args == "" ==> text == "")
      && (q.args != "" ==>
            && (c.codec.render(arguments.value) == Some(text) <==> c.codec.render(arguments.value).Some?)
            && (c.codec.render(arguments.value).None? ==> text == q.args))
  {
    hide Call, Only, Before, Admit, KeyOf, InfoOf, FindTool, Prefix, Prepare;
    var p := Staged(c, q);
    var text := Prepare(c, q).text;
    AfterShows(c, q);
    LeadShows(c, q);
    CallSorted(c, q);
    TraceIsPrefix(p);
    PrefixShows(p, 9, text);
    PreparedText(c, q);
  }

  /** The arguments do not parse to an object, hold a placeholder, or break the tool's schema. */
  predicate BadArguments(c: Config, q: Request) {
    match Prepare(c, q)
    case Unusable(_) => true
    case Prepared(_, text) =>
      c.schemaValidation && InfoOf(c, q).Some? && c.schemaErrors(InfoOf(c, q).value.inputSchema, text) != []
  }

  /** Why a request's text cannot be used, and which error says so. */
  lemma UnusableIff(c: Config, q: Request)
    ensures var raw := c.codec.parse(q.args);
      && (Prepare(c, q) == Unusable(BadJson) <==> q.args != "" && (raw.None? || !(raw.value.Null? || raw.value.Obj?)))
      && (Prepare(c, q).Unusable? && Prepare(c, q).err != BadJson <==>
            q.args != "" && raw.Some? && (raw.value.Null? || raw.value.Obj?) && c.badFields(raw.value) != [])
  {
  }

  /** Each rejection reason, exactly when it is given. */
  lemma ReasonIsFirstFailure(c: Config, q: Request, i: nat)
    requires i < |Rejections(Trace(c, q))|
    ensures var t := Trace(c, q); var r := Rejections(t)[i];
      && r.Rejected?
      && (r.reason.UnknownServer? <==> q.server !in c.servers)
      && (r.reason.UnknownTool? <==> q.server in c.servers && InfoOf(c, q).None?)
      && (r.reason.IsDown? <==> InfoOf(c, q).Some? && c.servers[q.server].state.Down?)
      && (r.reason.HookAbort? <==> Befores(t) != [])
      && (r.reason.BadArgs? <==> InfoOf(c, q).Some? && c.servers[q.server].state.Connected? && BadArguments(c, q))
  {
    var p := Staged(c, q);
    hide Only, Before, Prepare, FindTool;
    match Admit(c, q)
    case Refused(_, _, _, _, _) =>
    case Admitted(info, session, arguments, text, checked) =>
      AdmittedInfo(c, q);
      BeforeIsChain(c, q, info, text, |c.beforeCall|);
      ServeKeepsLead(c, q, Before(c, q, info, text, |c.beforeCall|).ctx, info, session, arguments, text,
                     QUIET.(checked := checked, before := Before(c, q, info, text, |c.beforeCall|).events));
  }

  /** AfterCall's context from the cache lookup on. */
  lemma ServeAfter(c: Config, q: Request, ctx: Context, info: ToolInfo, session: Option<Session>,
                   arguments: Option<Json>, text: string, lead: Phases)
    requires lead == QUIET.(checked := lead.checked, before := lead.before)
    ensures var p := Serve(c, q, ctx, info, session, arguments, text, lead).phases;
      forall i :: 0 <= i < |p.after| ==>
        p.after[i].AfterCall? && p.after[i].ctx == if p.sent == [] then ctx.(cacheHit := true) else ctx
  {
    hide Dispatch, KeyOf, IsCacheable, ActiveCache;
    var looked := lead.(looked := [CacheGet(ctx, KeyOf(c, q, ctx, text))]);
    DispatchKeepsLead(c, q, ctx, info, session, arguments, text, lead);
    DispatchKeepsLead(c, q, ctx, info, session, arguments, text, looked);
    var r := DispatchAfter(c, q, ctx, info, session, arguments, text, lead);
    var r' := DispatchAfter(c, q, ctx, info, session, arguments, text, looked);
  }

  /** AfterCall sees the hooks' final context, marked as a hit exactly when the cache answered. */
  lemma HitIsMarked(c: Config, q: Request, i: nat)
    requires i < |Afters(Trace(c, q))|
    requires Lookups(Trace(c, q)) != [] || Dispatches(Trace(c, q)) != []
    ensures var t := Trace(c, q); var ctx := FinalContext(c, q, Befores(t));
      && Afters(t)[i].AfterCall?
      && Afters(t)[i].ctx == (if ServedFromCache(t) then ctx.(cacheHit := true) else ctx)
  {
    var p := Staged(c, q);
    hide Only, Before, Admit, After;
    match Admit(c, q)
    case Refused(_, _, _, _, _) =>
    case Admitted(info, session, arguments, text, checked) =>
      StopDecides(c, q);
      hide Call, Serve;
      var lead := QUIET.(checked := checked, before := p.before);
      ServeAfter(c, q, FinalContext(c, q, p.before), info, session, arguments, text, lead);
      ServeKeepsLead(c, q, FinalContext(c, q, p.before), info, session, arguments, text, lead);
  }

  // ---- result transforms -------------------------------------------------------------------

  /** What upstream answered to an Upstream event. */
  function ReplyTo(c: Config, q: Request, e: Event): Reply
    requires e.Upstream?
  {
    c.upstream(e.session, e.ctx, q.server, q.tool, e.arguments)
  }

  /** What the hook behind a Transform event made of the result it was given. */
  function EditBy(c: Config, q: Request, e: Event): Edited
    requires e.Transform? && e.hook < |c.resultTransform|
  {
    c.resultTransform[e.hook](e.ctx, q.server, q.tool, e.info, e.given)
  }

  /** Hooks run in order from the first, each given the result the one before it left; only the last run may fail. */
  ghost predicate IsEditing(c: Config, q: Request, ctx: Context, info: ToolInfo, raw: ResultValue, e: seq<Event>) {
    && |e| <= |c.resultTransform|
    && (forall i :: 0 <= i < |e| ==> e[i].Transform? && e[i].hook == i && e[i].ctx == ctx && e[i].info == info)
    && (e != [] ==> e[0].given == raw)
    && (forall i :: 0 <= i < |e| - 1 ==>
          EditBy(c, q, e[i]).err.None? && e[i + 1].given == EditBy(c, q, e[i]).result)
  }

  /** What the hooks left behind. */
  ghost function Left(c: Config, q: Request, raw: ResultValue, e: seq<Event>): Edited {
    if e == [] then Edited(raw, None)
    else
      var last := e[|e| - 1];
      if last.Transform? && last.hook < |c.resultTransform| then EditBy(c, q, last) else Edited(raw, None)
  }

  lemma {:induction false} TransformsAreEditing(c: Config, q: Request, ctx: Context, info: ToolInfo, raw: ResultValue, k: nat)
    requires k <= |c.resultTransform|
    ensures var p := Transforms(c, q, ctx, info, raw, k);
      && IsEditing(c, q, ctx, info, raw, p.events)
      && Left(c, q, raw, p.events) == Edited(p.result, p.err)
      && (p.err.None? ==> |p.events| == k) && |p.events| <= k
    decreases k
  {
    if k > 0 {
      TransformsAreEditing(c, q, ctx, info, raw, k - 1);
    }
  }

  /** The transforms of a dispatched call, and what they decide. */
  ghost predicate Decides(c: Config, q: Request, info: ToolInfo, run: Run) {
    && (run.phases.sent == [] ==> run.phases.edited == [])
    && (run.phases.sent != [] ==>
          && run.phases.sent[0].Upstream?
          && match ReplyTo(c, q, run.phases.sent[0])
             case Failed(cause, deadline) =>
               run.phases.edited == [] && run.outcome == Failure(UpstreamError(q, Failed(cause, deadline)))
             case Replied(raw) =>
               var e := run.phases.edited;
               var left := Left(c, q, raw, e);
               && IsEditing(c, q, run.phases.sent[0].ctx, info, raw, e)
               && (|e| < |c.resultTransform| ==> left.err.Some?)
               && run.outcome == if left.err.Some? then Failure(left.err.value) else Success(left.result))
  }

  lemma DispatchDecides(c: Config, q: Request, ctx: Context, info: ToolInfo, session: Option<Session>,
                        arguments: Option<Json>, text: string, lead: Phases)
    requires lead.edited == []
    ensures Decides(c, q, info, Dispatch(c, q, ctx, info, session, arguments, text, lead))
  {
    hide After, Store, Transforms, IsEditing, Left;
    var reply := c.upstream(session, ctx, q.server, q.tool, arguments);
    if reply.Replied? {
      TransformsAreEditing(c, q, ctx, info, reply.result, |c.resultTransform|);
    }
  }

  lemma ServeDecides(c: Config, q: Request, ctx: Context, info: ToolInfo, session: Option<Session>,
                     arguments: Option<Json>, text: string, lead: Phases)
    requires lead == QUIET.(checked := lead.checked, before := lead.before)
    ensures Decides(c, q, info, Serve(c, q, ctx, info, session, arguments, text, lead))
  {
    hide After, Dispatch, IsEditing, Left, KeyOf, IsCacheable;
    DispatchDecides(c, q, ctx, info, session, arguments, text, lead);
    DispatchDecides(c, q, ctx, info, session, arguments, text, lead.(looked := [CacheGet(ctx, KeyOf(c, q, ctx, text))]));
  }

  /**
   The ResultTransform loop is a fold: after a reply the hooks run from the first, each
   given the previous one's result, up to the first error, which is returned; without one
   every hook runs and the last result is returned. A failed upstream call runs none.
   */
  lemma TransformsAreAFold(c: Config, q: Request)
    ensures var t := Trace(c, q); var d, e := Dispatches(t), Transformations(t);
      && (d == [] ==> e == [])
      && (d != [] ==>
            && d[0].Upstream? && InfoOf(c, q).Some?
            && match ReplyTo(c, q, d[0])
               case Failed(cause, deadline) =>
                 e == [] && Returned(c, q) == Failure(UpstreamError(q, Failed(cause, deadline)))
               case Replied(raw) =>
                 var left := Left(c, q, raw, e);
                 && IsEditing(c, q, d[0].ctx, InfoOf(c, q).value, raw, e)
                 && (|e| < |c.resultTransform| ==> left.err.Some?)
                 && Returned(c, q) == if left.err.Some? then Failure(left.err.value) else Success(left.result))
  {
    var p := Staged(c, q);
    hide Only, Before, Admit, IsEditing, Left, InfoOf;
    match Admit(c, q)
    case Refused(_, _, _, _, _) =>
    case Admitted(info, session, arguments, text, checked) =>
      AdmittedInfo(c, q);
      var chain := Before(c, q, info, text, |c.beforeCall|);
      ServeDecides(c, q, chain.ctx, info, session, arguments, text, QUIET.(checked := checked, before := chain.events));
      hide Serve;
  }
}
