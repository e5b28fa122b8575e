/**
 What CallTool tells whom, spelled out on the trace from the request and the
 configuration alone: which arguments are sent and shown, which key is used and when,
 which error is returned, and what each callback sees.
 */
module CallPromises {
  import opened Basics
  import opened Tools
  import opened Json
  import opened CallResults
  import opened ServerProtocol
  import opened CallPipeline
  import opened CallLaws
  import ProtocolHistory
  import ProtocolSafety

  // ---- what a request comes with -----------------------------------------------------------

  /** The server is known and up, and offers the tool. */
  predicate Offered(c: Config, q: Request) {
    q.server in c.servers && InfoOf(c, q).Some? && c.servers[q.server].state.Connected?
  }

  /** The arguments are absent, or parse to an object (or null) without placeholders. */
  predicate Usable(c: Config, q: Request) {
    q.args != "" ==>
      var raw := c.codec.parse(q.args);
      raw.Some? && (raw.value.Null? || raw.value.Obj?) && c.badFields(raw.value) == []
  }

  /** What is sent: nothing, or the parsed arguments after the server's transformers and field map. */
  function Sent(c: Config, q: Request): Option<Json>
    requires Usable(c, q)
  {
    if q.args == "" then None else Some(c.prepare(q.server, c.codec.parse(q.args).value))
  }

  /** What is shown: the rendering of what is sent, or the request's own text where it does not render. */
  function Shown(c: Config, q: Request): string
    requires Usable(c, q)
  {
    if q.args == "" then ""
    else
      var text := c.codec.render(c.prepare(q.server, c.codec.parse(q.args).value));
      if text.Some? then text.value else q.args
  }

  /** The schema check, if it is on, has no complaint. */
  predicate Conforms(c: Config, q: Request)
    requires Usable(c, q) && Offered(c, q)
  {
    c.schemaValidation ==> c.schemaErrors(InfoOf(c, q).value.inputSchema, Shown(c, q)) == []
  }

  predicate Accepted(c: Config, q: Request) {
    Offered(c, q) && Usable(c, q) && Conforms(c, q)
  }

  lemma PreparedIff(c: Config, q: Request)
    ensures Prepare(c, q).Prepared? <==> Usable(c, q)
    ensures Usable(c, q) ==> Prepare(c, q) == Prepared(Sent(c, q), Shown(c, q))
  {
  }

  lemma AdmittedIff(c: Config, q: Request)
    ensures Admit(c, q).Admitted? <==> Accepted(c, q)
    ensures Accepted(c, q) ==>
      && Admit(c, q) == Admitted(InfoOf(c, q).value, c.servers[q.server].session, Sent(c, q), Shown(c, q), Admit(c, q).checked)
      && Admit(c, q).checked ==
           if c.schemaValidation then [SchemaChecked(InfoOf(c, q).value.inputSchema, Shown(c, q))] else []
  {
    PreparedIff(c, q);
    hide Prepare, FindTool, Sent, Shown;
  }

  // ---- arguments ---------------------------------------------------------------------------

  /**
   For a usable request to an offered tool, upstream gets the transformed arguments, and
   the schema check, the hooks, AfterCall and the cache key all go by their rendering.
   Any other request is never sent, and AfterCall sees its own text.
   */
  lemma ArgumentsAreTransformed(c: Config, q: Request)
    ensures var t := Trace(c, q);
      if Offered(c, q) && Usable(c, q) then
        && ShowsOnly(t, Shown(c, q))
        && (forall i :: 0 <= i < |Dispatches(t)| ==> Dispatches(t)[i].Upstream? && Dispatches(t)[i].arguments == Sent(c, q))
      else
        Dispatches(t) == [] && ShowsOnly(t, q.args)
  {
    PreparedIff(c, q);
    if Offered(c, q) && Usable(c, q) {
      hide Prepare, Sent, Shown, FindTool, Only, Call;
      OneArgumentValue(c, q);
    } else {
      AdmittedIff(c, q);
      RefusedRequest(c, q);
    }
  }

  lemma RefusedRequest(c: Config, q: Request)
    requires !(Offered(c, q) && Usable(c, q))
    ensures var t := Trace(c, q); Dispatches(t) == [] && ShowsOnly(t, q.args)
  {
    PreparedIff(c, q);
    AdmittedIff(c, q);
    var p := Staged(c, q);
    CallSorted(c, q);
    TraceIsPrefix(p);
    assert Admit(c, q).shown == q.args && Admit(c, q).checked == [] by {
      hide Prepare, FindTool;
    }
    assert ShowsOnly(p.after, q.args) && p.before == [] && p.checked == [] && p.sent == [];
    hide Call, Admit, Prefix, Only;
    PrefixShows(p, 9, q.args);
  }

  /** The schema check sees the tool's schema and the shown text, once, exactly when it is on and reached. */
  lemma SchemaIsChecked(c: Config, q: Request)
    ensures Only(Trace(c, q), 0) ==
      if Offered(c, q) && Usable(c, q) && c.schemaValidation
      then [SchemaChecked(InfoOf(c, q).value.inputSchema, Shown(c, q))] else []
  {
    PreparedIff(c, q);
    var p := Staged(c, q);
    AdmittedIff(c, q);
    if Admit(c, q).Admitted? {
      StopDecides(c, q);
      hide Call, Only, Admit;
    } else {
      assert Admit(c, q).checked ==
        if Offered(c, q) && Usable(c, q) && c.schemaValidation
        then [SchemaChecked(InfoOf(c, q).value.inputSchema, Shown(c, q))] else [] by {
        hide Prepare, FindTool, Sent, Shown;
      }
      hide Admit, Only;
    }
  }

  // ---- errors ------------------------------------------------------------------------------

  /** Each refusal returns its error, checked in this order. */
  lemma RefusalErrors(c: Config, q: Request)
    ensures var o := Returned(c, q);
      if q.server !in c.servers then o == Failure(ServerNotFound(q.server))
      else if InfoOf(c, q).None? then o == Failure(ToolNotFound(q.tool, q.server))
      else if c.servers[q.server].state.Down? then o == Failure(ServerDown(q.server))
      else if !Usable(c, q) then
        var raw := c.codec.parse(q.args);
        o == Failure(if raw.None? || !(raw.value.Null? || raw.value.Obj?) then BadJson
                     else InvalidArgs(c.badFields(raw.value), []))
      else !Conforms(c, q) ==>
        o == Failure(InvalidArgs([], c.schemaErrors(InfoOf(c, q).value.inputSchema, Shown(c, q))))
  {
    hide After, Before, Serve, FindTool;
  }

  /** A failed upstream call returns a timeout for a passed deadline, and the server's error otherwise. */
  lemma UpstreamErrors(c: Config, q: Request)
    ensures var d := Dispatches(Trace(c, q));
      d != [] ==>
        && d[0].Upstream?
        && (ReplyTo(c, q, d[0]).Failed? ==>
              Returned(c, q) == Failure(if ReplyTo(c, q, d[0]).deadline then Timeout(q.server, q.tool)
                                       else FromServer(q.server, ReplyTo(c, q, d[0]).cause)))
  {
    hide Only, Call, IsEditing, Left, InfoOf;
    TransformsAreAFold(c, q);
  }

  /** The rejection callback gets the context the refusing check or hook saw. */
  lemma RejectionSees(c: Config, q: Request, i: nat)
    requires i < |Rejections(Trace(c, q))|
    ensures var t := Trace(c, q); var b := Befores(t);
      && Rejections(t)[i].Rejected?
      && (b == [] ==> Rejections(t)[i].ctx == q.ctx)
      && (b != [] ==> b[|b| - 1].BeforeCall? && Rejections(t)[i].ctx == b[|b| - 1].ctx)
  {
    var p := Staged(c, q);
    hide Only, Admit, After;
    match Admit(c, q)
    case Refused(_, _, _, _, _) =>
    case Admitted(info, session, arguments, text, checked) =>
      BeforeIsChain(c, q, info, text, |c.beforeCall|);
      var chain := Before(c, q, info, text, |c.beforeCall|);
      hide Before;
      ServeKeepsLead(c, q, chain.ctx, info, session, arguments, text, QUIET.(checked := checked, before := chain.events));
      hide Serve;
  }

  // ---- the cache ---------------------------------------------------------------------------

  /** Read-only and idempotent, or marked cacheable; never destructive. */
  predicate MayBeCached(info: ToolInfo) {
    && !info.destructive
    && ((info.readOnly && info.idempotent) || ("cacheable" in info.custom && info.custom["cacheable"] == "true"))
  }

  /** The cache in use: none if disabled, else the registered one, else the built-in one. */
  function CacheInUse(c: Config): Option<Lookup> {
    if c.cacheDisabled then None
    else match c.cache case Some(custom) => Some(custom) case None => c.builtinCache
  }

  /** The registered key function, or scope, server, tool and canonical arguments joined with bars. */
  function PromisedKey(c: Config, q: Request, ctx: Context, text: string): string {
    match c.cacheKey
    case Some(keyOf) => keyOf(ctx, q.server, q.tool, text)
    case None => ctx.scope + "|" + q.server + "|" + q.tool + "|" + Canonical(c.codec, text)
  }

  /**
   The cache is asked exactly when an accepted request passes its hooks, a cache is in use
   and the tool may be cached, under the promised key, with the hooks' final context; what
   it holds there is the answer, and otherwise the call is sent.
   */
  lemma CacheIsAsked(c: Config, q: Request)
    ensures var t := Trace(c, q); var ctx := FinalContext(c, q, Befores(t));
      if Accepted(c, q) && !StoppedByHook(c, q, Befores(t)) && CacheInUse(c).Some? && MayBeCached(InfoOf(c, q).value) then
        var key := PromisedKey(c, q, ctx, Shown(c, q)); var held := CacheInUse(c).value(ctx, key);
        && Lookups(t) == [CacheGet(ctx, key)]
        && (held.Some? ==> Returned(c, q) == Success(held.value) && Dispatches(t) == [])
        && (held.None? ==> Dispatches(t) != [])
      else Lookups(t) == []
  {
    var p := Staged(c, q);
    AdmittedIff(c, q);
    hide Only, Admit, Before, Usable, Offered, Conforms, Sent, Shown, InfoOf, Canonical, After;
    match Admit(c, q)
    case Refused(_, _, _, _, _) =>
    case Admitted(info, session, arguments, text, checked) =>
      StopDecides(c, q);
      hide Call;
      var ctx, lead := FinalContext(c, q, p.before), QUIET.(checked := checked, before := p.before);
      ServeKeepsLead(c, q, ctx, info, session, arguments, text, lead);
      DispatchKeepsLead(c, q, ctx, info, session, arguments, text, lead.(looked := [CacheGet(ctx, KeyOf(c, q, ctx, text))]));
      hide Dispatch;
  }

  /** A stored result lives as long as the tool's own cache_ttl says, or the default where there is none or it does not parse. */
  lemma StoredForTTL(c: Config, q: Request, i: nat)
    requires i < |Stores(Trace(c, q))|
    ensures var e := Stores(Trace(c, q))[i];
      && e.CacheSet? && InfoOf(c, q).Some?
      && var custom := InfoOf(c, q).value.custom;
      e.ttl == if "cache_ttl" in custom && c.parseDuration(custom["cache_ttl"]).Some?
               then c.parseDuration(custom["cache_ttl"]).value else c.cacheTTL
  {
    hide Only, Call, InfoOf;
    StoredIffCacheableSuccess(c, q);
  }

  // ---- AfterCall ---------------------------------------------------------------------------

  /** The context AfterCall gets: the request's, a stopping hook's, or the hooks' final one, marked on a hit. */
  ghost function ClosingContext(c: Config, q: Request): Context {
    var t := Trace(c, q); var b := Befores(t);
    if !Accepted(c, q) then q.ctx
    else if StoppedByHook(c, q, b) then b[|b| - 1].ctx
    else if ServedFromCache(t) then FinalContext(c, q, b).(cacheHit := true)
    else FinalContext(c, q, b)
  }

  /** The result AfterCall gets: the returned one, or on a failed transform what the hooks left behind. */
  ghost function ClosingResult(c: Config, q: Request): Option<ResultValue> {
    var t := Trace(c, q); var d := Dispatches(t);
    if Returned(c, q).Success? then Some(Returned(c, q).result)
    else if d != [] && d[0].Upstream? && ReplyTo(c, q, d[0]).Replied? then
      Some(Left(c, q, ReplyTo(c, q, d[0]).result, Transformations(t)).result)
    else None
  }

  lemma DispatchCloses(c: Config, q: Request, ctx: Context, info: ToolInfo, session: Option<Session>,
                       arguments: Option<Json>, text: string, lead: Phases)
    ensures var run := Dispatch(c, q, ctx, info, session, arguments, text, lead);
      var reply := c.upstream(session, ctx, q.server, q.tool, arguments);
      run.phases.after == After(c, ctx, info, text,
        if run.outcome.Success? then Some(run.outcome.result)
        else if reply.Replied? then Some(Left(c, q, reply.result, run.phases.edited).result) else None, ErrorOf(run.outcome))
  {
    hide After, Store, Transforms, IsEditing, Left;
    var reply := c.upstream(session, ctx, q.server, q.tool, arguments);
    if reply.Replied? {
      TransformsAreEditing(c, q, ctx, info, reply.result, |c.resultTransform|);
    }
  }

  lemma ServeCloses(c: Config, q: Request, ctx: Context, info: ToolInfo, session: Option<Session>,
                    arguments: Option<Json>, text: string, lead: Phases)
    requires lead == QUIET.(checked := lead.checked, before := lead.before)
    ensures var run := Serve(c, q, ctx, info, session, arguments, text, lead);
      var reply := c.upstream(session, ctx, q.server, q.tool, arguments);
      run.phases.after == After(c, if run.phases.sent == [] then ctx.(cacheHit := true) else ctx, info, text,
        if run.outcome.Success? then Some(run.outcome.result)
        else if reply.Replied? then Some(Left(c, q, reply.result, run.phases.edited).result) else None, ErrorOf(run.outcome))
  {
    hide Dispatch, After, Left, KeyOf, IsCacheable, ActiveCache;
    var looked := lead.(looked := [CacheGet(ctx, KeyOf(c, q, ctx, text))]);
    DispatchKeepsLead(c, q, ctx, info, session, arguments, text, lead);
    DispatchKeepsLead(c, q, ctx, info, session, arguments, text, looked);
    DispatchCloses(c, q, ctx, info, session, arguments, text, lead);
    DispatchCloses(c, q, ctx, info, session, arguments, text, looked);
  }

  /** The stages of an accepted request that its hooks let through, from the lookup on. */
  lemma AcceptedCloses(c: Config, q: Request)
    requires Accepted(c, q)
    ensures Call(c, q).phases.after ==
      After(c, ClosingContext(c, q), InfoOf(c, q).value, Shown(c, q), ClosingResult(c, q), ErrorOf(Returned(c, q)))
  {
    var p := Staged(c, q);
    AdmittedIff(c, q);
    hide Only, Admit, Before, Usable, Offered, Conforms, Sent, Shown, InfoOf, After, Left, Transforms;
    var a := Admit(c, q);
    StopDecides(c, q);
    var ctx, lead := FinalContext(c, q, p.before), QUIET.(checked := a.checked, before := p.before);
    if StoppedByHook(c, q, p.before) {
      StoppedCloses(c, q);
      hide Call;
    } else {
      hide Call;
      ServeKeepsLead(c, q, ctx, a.info, a.session, a.arguments, a.text, lead);
      ServeCloses(c, q, ctx, a.info, a.session, a.arguments, a.text, lead);
      hide Serve;
    }
  }

  /** A stopping hook's call closes with the context and text the hook saw. */
  lemma StoppedCloses(c: Config, q: Request)
    requires Admit(c, q).Admitted? && StoppedByHook(c, q, Call(c, q).phases.before)
    ensures var a := Admit(c, q); var run := Call(c, q); var b := run.phases.before;
      && b[|b| - 1].BeforeCall?
      && run.phases.after == After(c, b[|b| - 1].ctx, a.info, a.text,
                                   if run.outcome.Success? then Some(run.outcome.result) else None, ErrorOf(run.outcome))
  {
    hide Admit, After, Reject;
    var a := Admit(c, q);
    BeforeIsChain(c, q, a.info, a.text, |c.beforeCall|);
    var chain := Before(c, q, a.info, a.text, |c.beforeCall|);
    hide Before;
    if chain.stop.None? {
      ServeKeepsLead(c, q, chain.ctx, a.info, a.session, a.arguments, a.text,
                     QUIET.(checked := a.checked, before := chain.events));
    }
    hide Serve;
  }

  /** A refused request closes with its own context. */
  lemma RefusedCloses(c: Config, q: Request)
    requires !Accepted(c, q)
    ensures Call(c, q).phases.after ==
      After(c, q.ctx, if InfoOf(c, q).Some? then InfoOf(c, q).value else ZERO_TOOL,
            if Offered(c, q) && Usable(c, q) then Shown(c, q) else q.args, None, ErrorOf(Returned(c, q)))
  {
    AdmittedIff(c, q);
    PreparedIff(c, q);
    hide After, Reject, Prepare, Sent, Shown, FindTool;
  }

  /**
   What every AfterCall hook sees, on every path: the context in force, the tool's metadata
   (empty for an unknown tool), the shown text (the request's own if it was not usable),
   the result and the returned error.
   */
  lemma AfterCallSees(c: Config, q: Request, i: nat)
    requires i < |Afters(Trace(c, q))|
    ensures Afters(Trace(c, q))[i] ==
      AfterCall(i, ClosingContext(c, q), if InfoOf(c, q).Some? then InfoOf(c, q).value else ZERO_TOOL,
                if Offered(c, q) && Usable(c, q) then Shown(c, q) else q.args, ClosingResult(c, q), ErrorOf(Returned(c, q)))
  {
    var p := Staged(c, q);
    hide Only, Call, Shown, Left;
    if Accepted(c, q) {
      AcceptedCloses(c, q);
    } else {
      RefusedCloses(c, q);
      RefusedHasNoResult(c, q);
    }
  }

  lemma RefusedHasNoResult(c: Config, q: Request)
    requires !Accepted(c, q)
    ensures ClosingResult(c, q).None? && ClosingContext(c, q) == q.ctx
  {
    AdmittedIff(c, q);
    var p := Staged(c, q);
    hide Only, Admit, Accepted;
  }

  // ---- calls on the connection protocol ------------------------------------------------------

  /**
   A call whose snapshot is the one taken as action k of a run is not refused as an unknown
   server or tool, nor as down, when the entry was Connected and listed the tool just then.
   */
  lemma ListedToolIsServed(c: Config, q: Request, healthCheck: bool, onToolsChanged: bool, actions: seq<Action>, k: nat, j: nat)
    requires ServerProtocol.Run(Init(healthCheck, onToolsChanged), actions).Some?
    requires k < |actions| && ProtocolHistory.IsSnapshot(actions[k])
    requires ServerProtocol.Run(Init(healthCheck, onToolsChanged), actions[..k]).Some? ==>
      var before := ServerProtocol.Run(Init(healthCheck, onToolsChanged), actions[..k]).value;
      var taken := ServerProtocol.Run(Init(healthCheck, onToolsChanged), actions).value.log.snapshots;
      && (|before.log.snapshots| < |taken| ==>
            q.server in c.servers && c.servers[q.server] == taken[|before.log.snapshots|])
      && before.entry.state.Connected?
      && j < |before.entry.tools.tools| && before.entry.tools.tools[j].name == q.tool
    ensures Offered(c, q)
    ensures forall i :: 0 <= i < |Rejections(Trace(c, q))| ==>
      var r := Rejections(Trace(c, q))[i]; r.Rejected? && (r.reason.BadArgs? || r.reason.HookAbort?)
  {
    hide ServerProtocol.Run, Init, Only, Call;
    ProtocolHistory.SnapshotReadsEntry(healthCheck, onToolsChanged, actions, k);
    forall i | 0 <= i < |Rejections(Trace(c, q))|
      ensures var r := Rejections(Trace(c, q))[i]; r.Rejected? && (r.reason.BadArgs? || r.reason.HookAbort?)
    {
      ReasonIsFirstFailure(c, q, i);
    }
  }
}
