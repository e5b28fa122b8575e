/**
 CallTool (caller.go) as an event-trace machine. Everything outside the library (hooks,
 codec, schema checker, cache, upstream) is a function-valued field of the configuration,
 so one call may meet any answers; the trace lists what the call did, in order.
 */
module CallPipeline {
  import opened Basics
  import opened Tools
  import opened Json
  import opened CallResults
  import opened ServerProtocol

  /** A Go context: its identity and the two values the library keeps in it. */
  datatype Context = Context(id: nat, scope: string, cacheHit: bool)

  datatype Error =
    | ServerNotFound(server: string)
    | ToolNotFound(tool: string, server: string)
    | ServerDown(server: string)
    | BadJson
    | InvalidArgs(badFields: seq<string>, schemaErrors: seq<string>)
    | Timeout(server: string, tool: string)
    | FromServer(server: string, cause: nat)
    | FromHook(cause: nat)

  datatype RejectReason = UnknownServer | UnknownTool | IsDown | BadArgs | HookAbort

  datatype HookAnswer = HookAnswer(ctx: Option<Context>, result: Option<ResultValue>, err: Option<Error>)

  datatype Reply = Replied(result: ResultValue) | Failed(cause: nat, deadline: bool)

  datatype Edited = Edited(result: ResultValue, err: Option<Error>)

  type BeforeHook = (Context, string, string, ToolInfo, string) -> HookAnswer
  type TransformHook = (Context, string, string, ToolInfo, ResultValue) -> Edited
  type Lookup = (Context, string) -> Option<ResultValue>
  type KeyFunc = (Context, string, string, string) -> string

  /** encoding/json: partial, because not every text parses and not every value renders. */
  datatype Codec = Codec(parse: string -> Option<Json>, render: Json -> Option<string>)

  datatype Config = Config(
    servers: map<string, Snapshot>,
    codec: Codec,
    badFields: Json -> seq<string>,
    prepare: (string, Json) -> Json,
    schemaValidation: bool,
    schemaErrors: (string, string) -> seq<string>,
    beforeCall: seq<BeforeHook>,
    resultTransform: seq<TransformHook>,
    afterCall: nat,
    onRejectedCall: bool,
    cacheDisabled: bool,
    cache: Option<Lookup>,
    builtinCache: Option<Lookup>,
    cacheKey: Option<KeyFunc>,
    cacheTTL: int,
    parseDuration: string -> Option<int>,
    upstream: (Option<Session>, Context, string, string, Option<Json>) -> Reply)

  datatype Request = Request(ctx: Context, server: string, tool: string, args: string)

  datatype Event =
    | SchemaChecked(schema: string, args: string)
    | BeforeCall(hook: nat, ctx: Context, info: ToolInfo, args: string)
    | CacheGet(ctx: Context, key: string)
    | Upstream(session: Option<Session>, ctx: Context, arguments: Option<Json>)
    | Transform(hook: nat, ctx: Context, info: ToolInfo, given: ResultValue)
    | CacheSet(ctx: Context, key: string, stored: ResultValue, ttl: int)
    | Rejected(ctx: Context, reason: RejectReason, cause: Error)
    | AfterCall(hook: nat, ctx: Context, info: ToolInfo, args: string, result: Option<ResultValue>, err: Option<Error>)
    | RecordCall(err: Option<Error>)

  datatype Outcome = Success(result: ResultValue) | Failure(err: Error)

  /** What a call does, phase by phase. */
  datatype Phases = Phases(checked: seq<Event>, before: seq<Event>, looked: seq<Event>, sent: seq<Event>,
                           edited: seq<Event>, stored: seq<Event>, rejected: seq<Event>,
                           after: seq<Event>, recorded: seq<Event>)
  {
    function Trace(): seq<Event> {
      checked + before + looked + sent + edited + stored + rejected + after + recorded
    }
  }

  /** What the caller gets, and everything the call did on the way. */
  datatype Run = Run(outcome: Outcome, phases: Phases)

  const QUIET := Phases([], [], [], [], [], [], [], [], [])

  const ZERO_TOOL := ToolInfo("", "", "", "", false, false, false, false, false, map[])

  // ---- small helpers of the source -------------------------------------------------------

  function ActiveCache(c: Config): Option<Lookup> {
    if c.cacheDisabled then None else if c.cache.Some? then c.cache else c.builtinCache
  }

  predicate IsCacheable(info: ToolInfo) {
    && !info.destructive
    && ((info.readOnly && info.idempotent) || ("cacheable" in info.custom && info.custom["cacheable"] == "true"))
  }

  function ToolTTL(c: Config, info: ToolInfo): int {
    if "cache_ttl" !in info.custom then c.cacheTTL
    else
      var d := c.parseDuration(info.custom["cache_ttl"]);
      if d.Some? then d.value else c.cacheTTL
  }

  function Canonical(codec: Codec, args: string): string {
    if args == "" then "{}"
    else
      var v := codec.parse(args);
      if v.None? then "{}"
      else
        var text := codec.render(v.value);
        if text.None? then "{}" else text.value
  }

  function DefaultCacheKey(codec: Codec, ctx: Context, server: string, tool: string, args: string): string {
    ctx.scope + "|" + server + "|" + tool + "|" + Canonical(codec, args)
  }

  function KeyOf(c: Config, q: Request, ctx: Context, args: string): string {
    if c.cacheKey.Some? then c.cacheKey.value(ctx, q.server, q.tool, args)
    else DefaultCacheKey(c.codec, ctx, q.server, q.tool, args)
  }

  function UpstreamError(q: Request, failed: Reply): Error
    requires failed.Failed?
  {
    if failed.deadline then Timeout(q.server, q.tool) else FromServer(q.server, failed.cause)
  }

  // ---- phases ----------------------------------------------------------------------------

  /** The tool at i has that name, and none before it does. */
  ghost predicate IsFirst(tools: seq<ToolInfo>, name: string, i: int) {
    0 <= i < |tools| && tools[i].name == name && forall j :: 0 <= j < i ==> tools[j].name != name
  }

  /** `found` is the first tool of that name, or there is none. */
  ghost predicate FindsFirst(tools: seq<ToolInfo>, name: string, found: Option<ToolInfo>) {
    match found
    case None => forall i :: 0 <= i < |tools| ==> tools[i].name != name
    case Some(tool) => exists i :: IsFirst(tools, name, i) && tools[i] == tool
  }

  lemma FirstAfterOther(tools: seq<ToolInfo>, name: string, found: Option<ToolInfo>)
    requires tools != [] && tools[0].name != name && FindsFirst(tools[1..], name, found)
    ensures FindsFirst(tools, name, found)
  {
    if found.Some? {
      var i :| IsFirst(tools[1..], name, i) && tools[1..][i] == found.value;
      assert tools[i + 1] == tools[1..][i];
      assert forall j :: 0 < j < i + 1 ==> tools[j] == tools[1..][j - 1];
      assert IsFirst(tools, name, i + 1);
    } else {
      assert forall j :: 0 < j < |tools| ==> tools[j] == tools[1..][j - 1];
    }
  }

  lemma FirstIsUnique(tools: seq<ToolInfo>, name: string, a: Option<ToolInfo>, b: Option<ToolInfo>)
    requires FindsFirst(tools, name, a) && FindsFirst(tools, name, b)
    ensures a == b
  {
  }

  function FindTool(tools: seq<ToolInfo>, name: string): (found: Option<ToolInfo>)
    ensures FindsFirst(tools, name, found)
  {
    if tools == [] then None
    else if tools[0].name == name then
      assert IsFirst(tools, name, 0);
      Some(tools[0])
    else
      FirstAfterOther(tools, name, FindTool(tools[1..], name));
      FindTool(tools[1..], name)
  }

  /** What the argument phase makes of the request's text: sent upstream, and shown to everyone else. */
  datatype Prepared = Unusable(err: Error) | Prepared(arguments: Option<Json>, text: string)

  function Prepare(c: Config, q: Request): Prepared {
    if q.args == "" then Prepared(None, q.args)
    else
      var raw := c.codec.parse(q.args);
      if raw.None? || !(raw.value.Null? || raw.value.Obj?) then Unusable(BadJson)
      else if c.badFields(raw.value) != [] then Unusable(InvalidArgs(c.badFields(raw.value), []))
      else
        var v := c.prepare(q.server, raw.value);
        var text := c.codec.render(v);
        Prepared(Some(v), if text.Some? then text.value else q.args)
  }

  /** Whether the library itself lets the call through. */
  datatype Gate =
    | Refused(reason: RejectReason, err: Error, info: ToolInfo, shown: string, checked: seq<Event>)
    | Admitted(info: ToolInfo, session: Option<Session>, arguments: Option<Json>, text: string, checked: seq<Event>)

  function Admit(c: Config, q: Request): Gate {
    if q.server !in c.servers then Refused(UnknownServer, ServerNotFound(q.server), ZERO_TOOL, q.args, [])
    else
      var snap := c.servers[q.server];
      var tool := FindTool(snap.tools, q.tool);
      if tool.None? then Refused(UnknownTool, ToolNotFound(q.tool, q.server), ZERO_TOOL, q.args, [])
      else if snap.state.Down? then Refused(IsDown, ServerDown(q.server), tool.value, q.args, [])
      else
        match Prepare(c, q)
        case Unusable(err) => Refused(BadArgs, err, tool.value, q.args, [])
        case Prepared(arguments, text) =>
          var schema := tool.value.inputSchema;
          if !c.schemaValidation then Admitted(tool.value, snap.session, arguments, text, [])
          else if c.schemaErrors(schema, text) != [] then
            Refused(BadArgs, InvalidArgs([], c.schemaErrors(schema, text)), tool.value, text, [SchemaChecked(schema, text)])
          else Admitted(tool.value, snap.session, arguments, text, [SchemaChecked(schema, text)])
  }

  datatype Stop = Aborted(err: Error) | ShortCircuited(result: ResultValue)

  /** The context in force and whether a hook ended the chain. */
  datatype Chain = Chain(events: seq<Event>, ctx: Context, stop: Option<Stop>)

  /** The first k BeforeCall hooks. */
  function Before(c: Config, q: Request, info: ToolInfo, text: string, k: nat): Chain
    requires k <= |c.beforeCall|
  {
    if k == 0 then Chain([], q.ctx, None)
    else
      var p := Before(c, q, info, text, k - 1);
      if p.stop.Some? then p
      else
        var a := c.beforeCall[k - 1](p.ctx, q.server, q.tool, info, text);
        Chain(p.events + [BeforeCall(k - 1, p.ctx, info, text)],
              if a.err.None? && a.result.None? && a.ctx.Some? then a.ctx.value else p.ctx,
              if a.err.Some? then Some(Aborted(a.err.value))
              else if a.result.Some? then Some(ShortCircuited(a.result.value))
              else None)
  }

  datatype Edits = Edits(events: seq<Event>, result: ResultValue, err: Option<Error>)

  /** The first k ResultTransform hooks. */
  function Transforms(c: Config, q: Request, ctx: Context, info: ToolInfo, given: ResultValue, k: nat): Edits
    requires k <= |c.resultTransform|
  {
    if k == 0 then Edits([], given, None)
    else
      var p := Transforms(c, q, ctx, info, given, k - 1);
      if p.err.Some? then p
      else
        var e := c.resultTransform[k - 1](ctx, q.server, q.tool, info, p.result);
        Edits(p.events + [Transform(k - 1, ctx, info, p.result)], e.result, e.err)
  }

  /** runAfterCall: every AfterCall hook, in order, with the same arguments. */
  function After(c: Config, ctx: Context, info: ToolInfo, text: string,
                 result: Option<ResultValue>, err: Option<Error>): seq<Event> {
    seq(c.afterCall, i requires i >= 0 => AfterCall(i, ctx, info, text, result, err))
  }

  /** fireRejected. */
  function Reject(c: Config, ctx: Context, reason: RejectReason, err: Error): seq<Event> {
    if c.onRejectedCall then [Rejected(ctx, reason, err)] else []
  }

  // ---- the whole call --------------------------------------------------------------------

  function Call(c: Config, q: Request): Run {
    match Admit(c, q)
    case Refused(reason, err, info, shown, checked) =>
      Run(Failure(err), QUIET.(checked := checked, rejected := Reject(c, q.ctx, reason, err),
                               after := After(c, q.ctx, info, shown, None, Some(err)),
                               recorded := [RecordCall(Some(err))]))
    case Admitted(info, session, arguments, text, checked) =>
      var chain := Before(c, q, info, text, |c.beforeCall|);
      var lead := QUIET.(checked := checked, before := chain.events);
      match chain.stop
      case Some(Aborted(err)) =>
        Run(Failure(err), lead.(rejected := Reject(c, chain.ctx, HookAbort, err),
                                after := After(c, chain.ctx, info, text, None, Some(err))))
      case Some(ShortCircuited(result)) =>
        Run(Success(result), lead.(after := After(c, chain.ctx, info, text, Some(result), None)))
      case None => Serve(c, q, chain.ctx, info, session, arguments, text, lead)
  }

  /** The cache lookup; a hit ends the call. */
  function Serve(c: Config, q: Request, ctx: Context, info: ToolInfo, session: Option<Session>,
                 arguments: Option<Json>, text: string, lead: Phases): Run
  {
    if ActiveCache(c).Some? && IsCacheable(info) then
      var key := KeyOf(c, q, ctx, text);
      var looked := lead.(looked := [CacheGet(ctx, key)]);
      var cached := ActiveCache(c).value(ctx, key);
      if cached.Some? then
        Run(Success(cached.value), looked.(after := After(c, ctx.(cacheHit := true), info, text, cached, None)))
      else Dispatch(c, q, ctx, info, session, arguments, text, looked)
    else Dispatch(c, q, ctx, info, session, arguments, text, lead)
  }

  /** The upstream call, the result transforms and the cache store. */
  function Dispatch(c: Config, q: Request, ctx: Context, info: ToolInfo, session: Option<Session>,
                    arguments: Option<Json>, text: string, lead: Phases): Run
  {
    var sent := lead.(sent := [Upstream(session, ctx, arguments)]);
    match c.upstream(session, ctx, q.server, q.tool, arguments)
    case Failed(cause, deadline) =>
      var err := UpstreamError(q, Failed(cause, deadline));
      Run(Failure(err), sent.(after := After(c, ctx, info, text, None, Some(err)), recorded := [RecordCall(Some(err))]))
    case Replied(raw) =>
      var edits := Transforms(c, q, ctx, info, raw, |c.resultTransform|);
      var edited := sent.(edited := edits.events,
                          after := After(c, ctx, info, text, Some(edits.result), edits.err),
                          recorded := [RecordCall(edits.err)]);
      if edits.err.Some? then Run(Failure(edits.err.value), edited)
      else Run(Success(edits.result), edited.(stored := Store(c, q, ctx, info, text, edits.result)))
  }

  function Store(c: Config, q: Request, ctx: Context, info: ToolInfo, text: string, result: ResultValue): seq<Event> {
    if ActiveCache(c).Some? && IsCacheable(info) && !result.isError
    then [CacheSet(ctx, KeyOf(c, q, ctx, text), result, ToolTTL(c, info))]
    else []
  }

  // ---- the code's own loops --------------------------------------------------------------

  method RunAfterCall(c: Config, ctx: Context, info: ToolInfo, text: string,
                      result: Option<ResultValue>, err: Option<Error>) returns (events: seq<Event>)
    ensures events == After(c, ctx, info, text, result, err)
  {
    events := [];
    for i := 0 to c.afterCall
      invariant events == seq(i, j requires j >= 0 => AfterCall(j, ctx, info, text, result, err))
    {
      events := events + [AfterCall(i, ctx, info, text, result, err)];
    }
  }

  method LookUpTool(tools: seq<ToolInfo>, name: string) returns (found: Option<ToolInfo>)
    ensures FindsFirst(tools, name, found) && found == FindTool(tools, name)
  {
    found := None;
    var i := 0;
    while i < |tools|
      invariant 0 <= i <= |tools| && found.None?
      invariant forall j :: 0 <= j < i ==> tools[j].name != name
    {
      if tools[i].name == name {
        assert IsFirst(tools, name, i);
        found := Some(tools[i]);
        break;
      }
      i := i + 1;
    }
    FirstIsUnique(tools, name, found, FindTool(tools, name));
  }

  /** A stopped chain stays stopped. */
  lemma {:induction false} StoppedStays(c: Config, q: Request, info: ToolInfo, text: string, k: nat, n: nat)
    requires k <= n <= |c.beforeCall| && Before(c, q, info, text, k).stop.Some?
    ensures Before(c, q, info, text, n) == Before(c, q, info, text, k)
    decreases n
  {
    if k < n {
      StoppedStays(c, q, info, text, k, n - 1);
    }
  }

  lemma {:induction false} FailedStays(c: Config, q: Request, ctx: Context, info: ToolInfo, given: ResultValue, k: nat, n: nat)
    requires k <= n <= |c.resultTransform| && Transforms(c, q, ctx, info, given, k).err.Some?
    ensures Transforms(c, q, ctx, info, given, n) == Transforms(c, q, ctx, info, given, k)
    decreases n
  {
    if k < n {
      FailedStays(c, q, ctx, info, given, k, n - 1);
    }
  }

  method RunBefore(c: Config, q: Request, info: ToolInfo, text: string) returns (chain: Chain)
    ensures chain == Before(c, q, info, text, |c.beforeCall|)
  {
    var ctx, events := q.ctx, [];
    for k := 0 to |c.beforeCall|
      invariant Before(c, q, info, text, k) == Chain(events, ctx, None)
    {
      var a := c.beforeCall[k](ctx, q.server, q.tool, info, text);
      events := events + [BeforeCall(k, ctx, info, text)];
      if a.err.Some? {
        StoppedStays(c, q, info, text, k + 1, |c.beforeCall|);
        return Chain(events, ctx, Some(Aborted(a.err.value)));
      }
      if a.result.Some? {
        StoppedStays(c, q, info, text, k + 1, |c.beforeCall|);
        return Chain(events, ctx, Some(ShortCircuited(a.result.value)));
      }
      if a.ctx.Some? {
        ctx := a.ctx.value;
      }
    }
    return Chain(events, ctx, None);
  }

  method RunTransforms(c: Config, q: Request, ctx: Context, info: ToolInfo, given: ResultValue) returns (edits: Edits)
    ensures edits == Transforms(c, q, ctx, info, given, |c.resultTransform|)
  {
    var result, events := given, [];
    for k := 0 to |c.resultTransform|
      invariant Transforms(c, q, ctx, info, given, k) == Edits(events, result, None)
    {
      var e := c.resultTransform[k](ctx, q.server, q.tool, info, result);
      events := events + [Transform(k, ctx, info, result)];
      result := e.result;
      if e.err.Some? {
        FailedStays(c, q, ctx, info, given, k + 1, |c.resultTransform|);
        return Edits(events, result, e.err);
      }
    }
    return Edits(events, result, None);
  }

  /** The exits before the BeforeCall chain. */
  method Bounce(c: Config, q: Request, reason: RejectReason, err: Error, info: ToolInfo, text: string, checked: seq<Event>)
    returns (outcome: Outcome, trace: seq<Event>)
    requires Admit(c, q) == Refused(reason, err, info, text, checked)
    ensures outcome == Call(c, q).outcome && trace == Call(c, q).phases.Trace()
  {
    trace := checked + Reject(c, q.ctx, reason, err);
    var events := RunAfterCall(c, q.ctx, info, text, None, Some(err));
    return Failure(err), trace + events + [RecordCall(Some(err))];
  }

  /** CallTool: what it returns and its trace are those of Call. */
  method CallTool(c: Config, q: Request) returns (outcome: Outcome, trace: seq<Event>)
    ensures outcome == Call(c, q).outcome && trace == Call(c, q).phases.Trace()
  {
    if q.server !in c.servers {
      outcome, trace := Bounce(c, q, UnknownServer, ServerNotFound(q.server), ZERO_TOOL, q.args, []);
      return;
    }
    var snap := c.servers[q.server];
    var found := LookUpTool(snap.tools, q.tool);
    if found.None? {
      outcome, trace := Bounce(c, q, UnknownTool, ToolNotFound(q.tool, q.server), ZERO_TOOL, q.args, []);
      return;
    }
    var info := found.value;
    if snap.state.Down? {
      outcome, trace := Bounce(c, q, IsDown, ServerDown(q.server), info, q.args, []);
      return;
    }
    var arguments, text := None, q.args;
    if |q.args| > 0 {
      var raw := c.codec.parse(q.args);
      if raw.None? || !(raw.value.Null? || raw.value.Obj?) {
        outcome, trace := Bounce(c, q, BadArgs, BadJson, info, q.args, []);
        return;
      }
      var bad := c.badFields(raw.value);
      if |bad| > 0 {
        outcome, trace := Bounce(c, q, BadArgs, InvalidArgs(bad, []), info, q.args, []);
        return;
      }
      arguments := Some(c.prepare(q.server, raw.value));
      var rendered := c.codec.render(arguments.value);
      if rendered.Some? {
        text := rendered.value;
      }
    }
    trace := [];
    if c.schemaValidation {
      trace := [SchemaChecked(info.inputSchema, text)];
      var errs := c.schemaErrors(info.inputSchema, text);
      if |errs| > 0 {
        outcome, trace := Bounce(c, q, BadArgs, InvalidArgs([], errs), info, text, trace);
        return;
      }
    }
    outcome, trace := Proceed(c, q, info, snap.session, arguments, text, trace);
  }

  /** From the BeforeCall chain on. */
  method Proceed(c: Config, q: Request, info: ToolInfo, session: Option<Session>, arguments: Option<Json>,
                 text: string, checked: seq<Event>) returns (outcome: Outcome, trace: seq<Event>)
    requires Admit(c, q) == Admitted(info, session, arguments, text, checked)
    ensures outcome == Call(c, q).outcome && trace == Call(c, q).phases.Trace()
  {
    hide Admit, Before, Dispatch, IsCacheable, KeyOf, ActiveCache, After;
    var chain := RunBefore(c, q, info, text);
    var ctx := chain.ctx;
    trace := checked + chain.events;
    ghost var lead := QUIET.(checked := checked, before := chain.events);
    match chain.stop
    case Some(Aborted(err)) =>
      var events := RunAfterCall(c, ctx, info, text, None, Some(err));
      return Failure(err), trace + Reject(c, ctx, HookAbort, err) + events;
    case Some(ShortCircuited(result)) =>
      var events := RunAfterCall(c, ctx, info, text, Some(result), None);
      return Success(result), trace + events;
    case None =>
    var cache := ActiveCache(c);
    if cache.Some? && IsCacheable(info) {
      var key := KeyOf(c, q, ctx, text);
      trace := trace + [CacheGet(ctx, key)];
      lead := lead.(looked := [CacheGet(ctx, key)]);
      var cached := cache.value(ctx, key);
      if cached.Some? {
        var events := RunAfterCall(c, ctx.(cacheHit := true), info, text, cached, None);
        return Success(cached.value), trace + events;
      }
    }
    outcome, trace := CallUpstream(c, q, ctx, info, session, arguments, text, trace, lead);
  }

  /** The cache store. */
  method StoreResult(c: Config, q: Request, ctx: Context, info: ToolInfo, text: string, result: ResultValue)
    returns (events: seq<Event>)
    ensures events == Store(c, q, ctx, info, text, result)
  {
    events := [];
    if ActiveCache(c).Some? && IsCacheable(info) && !result.isError {
      var ttl := ToolTTL(c, info);
      events := [CacheSet(ctx, KeyOf(c, q, ctx, text), result, ttl)];
    }
  }

  method CallUpstream(c: Config, q: Request, ctx: Context, info: ToolInfo, session: Option<Session>,
                      arguments: Option<Json>, text: string, sofar: seq<Event>, ghost lead: Phases)
    returns (outcome: Outcome, trace: seq<Event>)
    requires sofar == lead.checked + lead.before + lead.looked
    requires lead == QUIET.(checked := lead.checked, before := lead.before, looked := lead.looked)
    ensures outcome == Dispatch(c, q, ctx, info, session, arguments, text, lead).outcome
    ensures trace == Dispatch(c, q, ctx, info, session, arguments, text, lead).phases.Trace()
  {
    hide IsCacheable, KeyOf, ActiveCache, After, ToolTTL, Transforms, Store, Canonical;
    trace := sofar + [Upstream(session, ctx, arguments)];
    var reply := c.upstream(session, ctx, q.server, q.tool, arguments);
    if reply.Failed? {
      var err := UpstreamError(q, reply);
      var events := RunAfterCall(c, ctx, info, text, None, Some(err));
      return Failure(err), trace + events + [RecordCall(Some(err))];
    }
    var edits := RunTransforms(c, q, ctx, info, reply.result);
    trace := trace + edits.events;
    if edits.err.Some? {
      var events := RunAfterCall(c, ctx, info, text, Some(edits.result), edits.err);
      return Failure(edits.err.value), trace + events + [RecordCall(edits.err)];
    }
    var stored := StoreResult(c, q, ctx, info, text, edits.result);
    trace := trace + stored;
    var events := RunAfterCall(c, ctx, info, text, Some(edits.result), None);
    return Success(edits.result), trace + events + [RecordCall(None)];
  }
}
