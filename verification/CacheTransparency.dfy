/**
 When cached calls agree with uncached ones. Any number of CallTools run concurrently
 against one built-in cache, their lookups and stores interleaved in any way, with any
 size, times to live, evictions and expiries. Every call returns what it would have
 returned with the cache off exactly when no call can look up what a different call
 stores and be answered wrongly; that is so when upstream and the result transforms are
 fixed functions of (server, tool, arguments) and no scope, server or tool name contains
 the key separator.
 */
module CacheTransparency {
  import opened Basics
  import opened Tools
  import opened Json
  import opened CallResults
  import opened ServerProtocol
  import opened CallPipeline
  import CallLaws
  import CallPromises
  import LruModel

  type Item = LruModel.Item<ResultValue>

  // ---- cache on and off ------------------------------------------------------------------

  function Cached(c: Config, lookup: Lookup): Config {
    c.(cacheDisabled := false, cache := None, builtinCache := Some(lookup))
  }

  function Uncached(c: Config): Config {
    c.(cacheDisabled := true)
  }

  ghost predicate SameButCache(c: Config, c': Config) {
    c' == c.(cacheDisabled := c'.cacheDisabled, cache := c'.cache, builtinCache := c'.builtinCache)
  }

  lemma {:induction false} SameHooks(c: Config, c': Config, q: Request, info: ToolInfo, text: string, k: nat)
    requires SameButCache(c, c') && k <= |c.beforeCall|
    ensures Before(c', q, info, text, k) == Before(c, q, info, text, k)
    decreases k
  {
    if k > 0 {
      SameHooks(c, c', q, info, text, k - 1);
    }
  }

  lemma {:induction false} SameEdits(c: Config, c': Config, q: Request, ctx: Context, info: ToolInfo, raw: ResultValue, k: nat)
    requires SameButCache(c, c') && k <= |c.resultTransform|
    ensures Transforms(c', q, ctx, info, raw, k) == Transforms(c, q, ctx, info, raw, k)
    decreases k
  {
    if k > 0 {
      SameEdits(c, c', q, ctx, info, raw, k - 1);
    }
  }

  lemma SameGate(c: Config, c': Config, q: Request)
    requires SameButCache(c, c')
    ensures Admit(c', q) == Admit(c, q)
  {
  }

  /** A cache that has nothing. */
  const COLD: Lookup := (_, _) => None

  /** The call as it goes when its lookup, if it makes one, misses. */
  function ColdRun(c: Config, q: Request): Run {
    Call(Cached(c, COLD), q)
  }

  /** A call with the cache on goes as on a cold cache, unless its lookup hits and decides the outcome. */
  ghost predicate Compares(lookup: Lookup, on: Run, cold: Run, off: Run) {
    && |cold.phases.looked| <= 1 && |cold.phases.stored| <= 1
    && (cold.phases.looked != [] ==> cold.phases.looked[0].CacheGet?)
    && (cold.phases.stored != [] ==>
          cold.phases.looked != [] && cold.phases.stored[0].CacheSet? && off.outcome == Success(cold.phases.stored[0].stored))
    && cold.outcome == off.outcome
    && on.phases.looked == cold.phases.looked
    && var hit := if cold.phases.looked == [] then None else lookup(cold.phases.looked[0].ctx, cold.phases.looked[0].key);
      && on.outcome == (if hit.Some? then Success(hit.value) else off.outcome)
      && on.phases.stored == (if hit.Some? then [] else cold.phases.stored)
  }

  /** Upstream, transforms and store do not depend on what the cache holds. */
  lemma SameDispatch(c: Config, c': Config, q: Request, ctx: Context, info: ToolInfo, session: Option<Session>,
                     arguments: Option<Json>, text: string, lead: Phases, lead': Phases)
    requires SameButCache(c, c') && lead.stored == lead'.stored == []
    ensures var run := Dispatch(c, q, ctx, info, session, arguments, text, lead);
      var run' := Dispatch(c', q, ctx, info, session, arguments, text, lead');
      && run'.outcome == run.outcome && run'.phases.looked == lead'.looked
      && (run'.phases.stored != [] ==>
            |run'.phases.stored| == 1 && run'.phases.stored[0].CacheSet? && run'.outcome == Success(run'.phases.stored[0].stored)
            && ActiveCache(c').Some? && IsCacheable(info))
      && (ActiveCache(c).Some? && ActiveCache(c').Some? ==> run'.phases.stored == run.phases.stored)
  {
    hide Transforms, IsCacheable, After, Canonical;
    var reply := c.upstream(session, ctx, q.server, q.tool, arguments);
    if reply.Replied? {
      SameEdits(c, c', q, ctx, info, reply.result, |c.resultTransform|);
    }
  }

  /** The comparison from the cache lookup on. */
  lemma CompareServe(c: Config, q: Request, lookup: Lookup, ctx: Context, info: ToolInfo, session: Option<Session>,
                     arguments: Option<Json>, text: string, lead: Phases)
    requires lead == QUIET.(checked := lead.checked, before := lead.before)
    ensures Compares(lookup, Serve(Cached(c, lookup), q, ctx, info, session, arguments, text, lead),
                     Serve(Cached(c, COLD), q, ctx, info, session, arguments, text, lead),
                     Serve(Uncached(c), q, ctx, info, session, arguments, text, lead))
  {
    var on, cold, off := Cached(c, lookup), Cached(c, COLD), Uncached(c);
    var key := KeyOf(c, q, ctx, text);
    assert KeyOf(on, q, ctx, text) == key && KeyOf(cold, q, ctx, text) == key;
    hide Dispatch, IsCacheable, After, KeyOf;
    var looked := lead.(looked := [CacheGet(ctx, key)]);
    SameDispatch(off, cold, q, ctx, info, session, arguments, text, lead, lead);
    SameDispatch(off, on, q, ctx, info, session, arguments, text, lead, lead);
    SameDispatch(off, cold, q, ctx, info, session, arguments, text, lead, looked);
    SameDispatch(cold, on, q, ctx, info, session, arguments, text, looked, looked);
  }

  lemma Compare(c: Config, q: Request, lookup: Lookup)
    ensures Compares(lookup, Call(Cached(c, lookup), q), ColdRun(c, q), Call(Uncached(c), q))
  {
    hide Before, After, Serve, Admit;
    var on, cold, off := Cached(c, lookup), Cached(c, COLD), Uncached(c);
    SameGate(c, on, q);
    SameGate(c, cold, q);
    SameGate(c, off, q);
    match Admit(c, q)
    case Refused(_, _, _, _, _) =>
    case Admitted(info, session, arguments, text, checked) =>
      var n := |c.beforeCall|;
      SameHooks(c, on, q, info, text, n);
      SameHooks(c, cold, q, info, text, n);
      SameHooks(c, off, q, info, text, n);
      var chain := Before(c, q, info, text, n);
      if chain.stop.None? {
        CompareServe(c, q, lookup, chain.ctx, info, session, arguments, text,
                     QUIET.(checked := checked, before := chain.events));
        hide Compares;
      }
  }

  // ---- concurrent calls ------------------------------------------------------------------

  datatype Ticket = Ticket(config: Config, request: Request)

  /** Call i reaches its cache lookup, or its cache store, at a clock reading. */
  datatype Move = Begin(i: nat, now: int) | Finish(i: nat, now: int)

  datatype Progress = Progress(items: seq<Item>, runs: map<nat, Run>, finished: set<nat>)

  const START := Progress([], map[], {})

  ghost function LookupAt(items: seq<Item>, now: int): Lookup {
    (_, key) => LruModel.Get(items, key, now).hit
  }

  ghost function Step(calls: seq<Ticket>, size: int, s: Progress, m: Move): Option<Progress> {
    match m
    case Begin(i, now) =>
      if i >= |calls| || i in s.runs then None
      else
        var run := Call(Cached(calls[i].config, LookupAt(s.items, now)), calls[i].request);
        var items := if run.phases.looked != [] && run.phases.looked[0].CacheGet?
                     then LruModel.Get(s.items, run.phases.looked[0].key, now).items else s.items;
        Some(s.(items := items, runs := s.runs[i := run]))
    case Finish(i, now) =>
      if i !in s.runs || i in s.finished then None
      else
        var stored := s.runs[i].phases.stored;
        if stored == [] || !stored[0].CacheSet? then None
        else
          var items := if stored[0].ttl > 0
                       then LruModel.Set(s.items, stored[0].key, stored[0].stored, now + stored[0].ttl, size) else s.items;
          Some(s.(items := items, finished := s.finished + {i}))
  }

  ghost function Play(calls: seq<Ticket>, size: int, s: Progress, moves: seq<Move>): Option<Progress>
    decreases |moves|
  {
    if moves == [] then Some(s)
    else
      var next := Step(calls, size, s, moves[0]);
      if next.Some? then Play(calls, size, next.value, moves[1..]) else None
  }

  lemma {:induction false} KeptItems(items: seq<Item>, key: string, i: nat)
    requires i < |LruModel.Without(items, key)|
    ensures LruModel.Without(items, key)[i] in items
  {
    if items[0].key != key && i > 0 {
      KeptItems(items[1..], key, i - 1);
    }
  }

  lemma GetKeepsItems(items: seq<Item>, key: string, now: int, i: nat)
    requires i < |LruModel.Get(items, key, now).items|
    ensures LruModel.Get(items, key, now).items[i] in items
  {
    forall j | 0 <= j < |LruModel.Without(items, key)|
      ensures LruModel.Without(items, key)[j] in items
    {
      KeptItems(items, key, j);
    }
  }

  lemma SetKeepsItems(items: seq<Item>, key: string, value: ResultValue, expiresAt: int, size: int, i: nat)
    requires i < |LruModel.Set(items, key, value, expiresAt, size)|
    ensures var item := LruModel.Set(items, key, value, expiresAt, size)[i];
      item in items || item == LruModel.Item(key, value, expiresAt)
  {
    forall j | 0 <= j < |LruModel.Without(items, key)|
      ensures LruModel.Without(items, key)[j] in items
    {
      KeptItems(items, key, j);
    }
  }

  lemma OneItem(item: Item, key: string, now: int)
    requires now <= item.expiresAt
    ensures LruModel.Get([item], key, now).hit == if key == item.key then Some(item.value) else None
  {
    assert key == item.key ==> [item][0].key == key;
  }

  lemma ThreeMoves(calls: seq<Ticket>, size: int, a: Move, b: Move, c: Move)
    ensures var s := Step(calls, size, START, a);
      var s' := if s.Some? then Step(calls, size, s.value, b) else None;
      Play(calls, size, START, [a, b, c]) == if s'.Some? then Step(calls, size, s'.value, c) else None
  {
    hide Step;
    var moves := [a, b, c];
    assert moves[1..] == [b, c] && [b, c][1..] == [c] && [c][1..] == [];
    var s := Step(calls, size, START, a);
    if s.Some? {
      var s' := Step(calls, size, s.value, b);
      assert s'.Some? ==> Play(calls, size, s'.value, [c]) == Step(calls, size, s'.value, c);
      assert Play(calls, size, s.value, [b, c]) == if s'.Some? then Play(calls, size, s'.value, [c]) else None;
    }
  }

  // ---- the exact condition ---------------------------------------------------------------

  /** In every interleaving, every call that has begun returns what it returns with the cache off. */
  ghost predicate Transparent(calls: seq<Ticket>, size: int) {
    forall moves, i ::
      var s := Play(calls, size, START, moves);
      s.Some? && i in s.value.runs && i < |calls| ==> s.value.runs[i].outcome == Off(calls[i])
  }

  /** What a call returns with the cache off. */
  function Off(call: Ticket): Outcome {
    Call(Uncached(call.config), call.request).outcome
  }

  /** The call, missing, stores that value under that key for a while. */
  ghost predicate Deposits(call: Ticket, key: string, value: ResultValue) {
    var stored := ColdRun(call.config, call.request).phases.stored;
    stored != [] && stored[0].CacheSet? && stored[0].key == key && stored[0].stored == value && stored[0].ttl > 0
  }

  /** The call looks that key up. */
  ghost predicate LooksUp(call: Ticket, key: string) {
    var looked := ColdRun(call.config, call.request).phases.looked;
    looked != [] && looked[0].CacheGet? && looked[0].key == key
  }

  /** Whatever one call stores under a key is the right answer for every other call that looks the key up. */
  ghost predicate NoClash(calls: seq<Ticket>) {
    forall i, j, key, value ::
      0 <= i < |calls| && 0 <= j < |calls| && i != j && Deposits(calls[i], key, value) && LooksUp(calls[j], key) ==>
        Off(calls[j]) == Success(value)
  }

  ghost predicate FromCall(calls: seq<Ticket>, s: Progress, item: Item, i: nat) {
    i < |calls| && i in s.runs && Deposits(calls[i], item.key, item.value)
  }

  ghost predicate Sourced(calls: seq<Ticket>, s: Progress, item: Item) {
    exists i :: FromCall(calls, s, item, i)
  }

  /** Every item was stored by a call that has begun; a run stores what the call stores on a cold cache, or nothing. */
  ghost predicate Traced(calls: seq<Ticket>, size: int, s: Progress) {
    && (forall n :: 0 <= n < |s.items| ==> Sourced(calls, s, s.items[n]))
    && (forall i :: i in s.runs ==> i < |calls| && StoresAsCold(calls[i], s.runs[i]))
    && (size <= 0 ==> s.items == [])
  }

  ghost predicate StoresAsCold(call: Ticket, run: Run) {
    run.phases.stored == [] || run.phases.stored == ColdRun(call.config, call.request).phases.stored
  }

  ghost predicate Right(calls: seq<Ticket>, s: Progress) {
    forall i :: i in s.runs && i < |calls| ==> s.runs[i].outcome == Off(calls[i])
  }

  /** Items outlive their call's start. */
  lemma StillFromCall(calls: seq<Ticket>, s: Progress, s': Progress, item: Item)
    requires Sourced(calls, s, item)
    requires s.runs.Keys <= s'.runs.Keys
    ensures Sourced(calls, s', item)
  {
    hide Deposits;
    var i :| FromCall(calls, s, item, i);
    assert FromCall(calls, s', item, i);
  }

  lemma BeginIsTraced(calls: seq<Ticket>, size: int, s: Progress, i: nat, now: int)
    requires Traced(calls, size, s) && Step(calls, size, s, Begin(i, now)).Some?
    ensures Traced(calls, size, Step(calls, size, s, Begin(i, now)).value)
  {
    hide Call, LruModel.Get, Sourced;
    var s' := Step(calls, size, s, Begin(i, now)).value;
    var run := s'.runs[i];
    Compare(calls[i].config, calls[i].request, LookupAt(s.items, now));
    forall n | 0 <= n < |s'.items|
      ensures Sourced(calls, s', s'.items[n])
    {
      if s'.items != s.items {
        GetKeepsItems(s.items, run.phases.looked[0].key, now, n);
      }
      StillFromCall(calls, s, s', s'.items[n]);
    }
    assert StoresAsCold(calls[i], run);
    forall j | j in s'.runs
      ensures j < |calls| && StoresAsCold(calls[j], s'.runs[j])
    {
    }
    if size <= 0 {
      GetOfNothing(if run.phases.looked == [] then "" else run.phases.looked[0].key, now);
    }
  }

  lemma GetOfNothing(key: string, now: int)
    ensures LruModel.Get<ResultValue>([], key, now).items == []
  {
  }

  lemma FinishIsTraced(calls: seq<Ticket>, size: int, s: Progress, i: nat, now: int)
    requires Traced(calls, size, s) && Step(calls, size, s, Finish(i, now)).Some?
    ensures Traced(calls, size, Step(calls, size, s, Finish(i, now)).value)
  {
    hide Call, ColdRun, LruModel.Set;
    var s' := Step(calls, size, s, Finish(i, now)).value;
    var e := s.runs[i].phases.stored[0];
    if e.ttl <= 0 {
      forall n | 0 <= n < |s'.items|
        ensures Sourced(calls, s', s'.items[n])
      {
        StillFromCall(calls, s, s', s'.items[n]);
      }
    } else {
      assert StoresAsCold(calls[i], s.runs[i]);
      assert Deposits(calls[i], e.key, e.stored);
      hide Deposits;
      forall n | 0 <= n < |s'.items|
        ensures Sourced(calls, s', s'.items[n])
      {
        SetKeepsItems(s.items, e.key, e.stored, now + e.ttl, size, n);
        if s'.items[n] in s.items {
          StillFromCall(calls, s, s', s'.items[n]);
        } else {
          assert FromCall(calls, s', s'.items[n], i);
        }
      }
      if size <= 0 {
        SetOnNothing(e.key, e.stored, now + e.ttl, size);
      }
    }
  }

  lemma SetOnNothing(key: string, value: ResultValue, expiresAt: int, size: int)
    ensures LruModel.Set([], key, value, expiresAt, size) ==
      if size <= 0 then [] else [LruModel.Item(key, value, expiresAt)]
  {
  }

  /** A lookup's answer was stored by a different call. */
  lemma HitIsFromAnother(calls: seq<Ticket>, size: int, s: Progress, i: nat, key: string, now: int) returns (j: nat)
    requires Traced(calls, size, s) && i !in s.runs && LruModel.Get(s.items, key, now).hit.Some?
    ensures j < |calls| && j != i && size >= 1
    ensures Deposits(calls[j], key, LruModel.Get(s.items, key, now).hit.value)
  {
    hide Deposits, StoresAsCold;
    var item := LruModel.Find(s.items, key);
    var n :| 0 <= n < |s.items| && s.items[n] == item;
    j :| FromCall(calls, s, s.items[n], j);
  }

  lemma BeginIsRight(calls: seq<Ticket>, size: int, s: Progress, i: nat, now: int)
    requires (size <= 0 || NoClash(calls)) && Traced(calls, size, s) && Right(calls, s)
    requires Step(calls, size, s, Begin(i, now)).Some?
    ensures Right(calls, Step(calls, size, s, Begin(i, now)).value)
  {
    hide Call, LruModel.Get, Traced, Deposits;
    var call := calls[i];
    var lookup := LookupAt(s.items, now);
    Compare(call.config, call.request, lookup);
    var cold := ColdRun(call.config, call.request);
    if cold.phases.looked != [] {
      var key := cold.phases.looked[0].key;
      var hit := LruModel.Get(s.items, key, now).hit;
      assert lookup(cold.phases.looked[0].ctx, key) == hit;
      if hit.Some? {
        var j := HitIsFromAnother(calls, size, s, i, key, now);
        assert LooksUp(call, key);
        assert Off(call) == Success(hit.value);
      }
    }
  }

  lemma StepIsRight(calls: seq<Ticket>, size: int, s: Progress, m: Move)
    requires (size <= 0 || NoClash(calls)) && Traced(calls, size, s) && Right(calls, s) && Step(calls, size, s, m).Some?
    ensures Traced(calls, size, Step(calls, size, s, m).value) && Right(calls, Step(calls, size, s, m).value)
  {
    hide NoClash, Traced, Call;
    match m {
      case Begin(i, now) =>
        BeginIsTraced(calls, size, s, i, now);
        BeginIsRight(calls, size, s, i, now);
      case Finish(i, now) =>
        FinishIsTraced(calls, size, s, i, now);
    }
  }

  lemma {:induction false} PlayIsRight(calls: seq<Ticket>, size: int, s: Progress, moves: seq<Move>)
    requires (size <= 0 || NoClash(calls)) && Traced(calls, size, s) && Right(calls, s) && Play(calls, size, s, moves).Some?
    ensures Right(calls, Play(calls, size, s, moves).value)
    decreases |moves|
  {
    hide Step, Right, Traced, NoClash;
    if moves != [] {
      StepIsRight(calls, size, s, moves[0]);
      PlayIsRight(calls, size, Step(calls, size, s, moves[0]).value, moves[1..]);
    }
  }

  /** The failing run: the first call stores, the second is answered with what it stored. */
  lemma ClashShows(calls: seq<Ticket>, size: int, i: nat, j: nat, key: string, value: ResultValue)
    requires size >= 1 && i < |calls| && j < |calls| && i != j
    requires Deposits(calls[i], key, value) && LooksUp(calls[j], key)
    ensures var s := Play(calls, size, START, [Begin(i, 0), Finish(i, 0), Begin(j, 0)]);
      s.Some? && j in s.value.runs && s.value.runs[j].outcome == Success(value)
  {
    hide Call;
    Compare(calls[i].config, calls[i].request, LookupAt([], 0));
    var s1 := Step(calls, size, START, Begin(i, 0)).value;
    var cold := ColdRun(calls[i].config, calls[i].request);
    EmptyMisses(0);
    assert s1.runs[i].phases.stored == cold.phases.stored;
    assert s1.items == [] by {
      GetOfNothing(if cold.phases.looked == [] then "" else cold.phases.looked[0].key, 0);
    }
    var e := cold.phases.stored[0];
    var item := LruModel.Item(key, value, e.ttl);
    SetOnNothing(key, value, e.ttl, size);
    var s2 := Step(calls, size, s1, Finish(i, 0)).value;
    assert s2.items == [item];
    OneItem(item, key, 0);
    Compare(calls[j].config, calls[j].request, LookupAt(s2.items, 0));
    assert LookupAt(s2.items, 0)(ColdRun(calls[j].config, calls[j].request).phases.looked[0].ctx, key) == Some(value);
    hide LruModel.Get, LruModel.Set, ColdRun, Compares;
    ThreeMoves(calls, size, Begin(i, 0), Finish(i, 0), Begin(j, 0));
  }

  lemma EmptyMisses(now: int)
    ensures forall ctx, key :: LookupAt([], now)(ctx, key).None?
  {
  }

  /**
   Transparency, exactly. For any calls whatever, over all interleavings, expiries and
   evictions: the cache never changes an answer if and only if it keeps nothing, or no
   call can look up what a different call stores and be answered wrongly.
   */
  lemma TransparentIffNoClash(calls: seq<Ticket>, size: int)
    ensures Transparent(calls, size) <==> size <= 0 || NoClash(calls)
  {
    hide Deposits, LooksUp, Off, Step;
    if size <= 0 || NoClash(calls) {
      forall moves, i | Play(calls, size, START, moves).Some? && i in Play(calls, size, START, moves).value.runs && i < |calls|
        ensures Play(calls, size, START, moves).value.runs[i].outcome == Off(calls[i])
      {
        PlayIsRight(calls, size, START, moves);
      }
    } else {
      var i, j, key, value :|
        0 <= i < |calls| && 0 <= j < |calls| && i != j && Deposits(calls[i], key, value) && LooksUp(calls[j], key)
        && Off(calls[j]) != Success(value);
      ClashShows(calls, size, i, j, key, value);
      var moves := [Begin(i, 0), Finish(i, 0), Begin(j, 0)];
      hide Play;
      assert Play(calls, size, START, moves).value.runs[j].outcome != Off(calls[j]);
    }
  }

  // ---- keys ------------------------------------------------------------------------------

  predicate Plain(s: string) {
    '|' !in s
  }

  lemma Around(a: string, x: string)
    ensures var s := a + "|" + x;
      && s[|a|] == '|' && s[..|a|] == a && s[|a| + 1..] == x
      && (forall k :: 0 <= k < |a| ==> s[k] == a[k])
  {
  }

  lemma SplitFirst(a: string, a': string, x: string, x': string)
    requires Plain(a) && Plain(a') && a + "|" + x == a' + "|" + x'
    ensures a == a' && x == x'
  {
    Around(a, x);
    Around(a', x');
  }

  /** Where a cache key comes from. */
  datatype Origin = Origin(scope: string, server: string, tool: string, canonical: string)

  function KeyFrom(o: Origin): string {
    o.scope + "|" + o.server + "|" + o.tool + "|" + o.canonical
  }

  predicate PlainOrigin(o: Origin) {
    Plain(o.scope) && Plain(o.server) && Plain(o.tool)
  }

  /** Without separators in its first three parts a key determines all four. */
  lemma KeysAreInjective(o: Origin, o': Origin)
    requires PlainOrigin(o) && PlainOrigin(o')
    ensures KeyFrom(o) == KeyFrom(o') <==> o == o'
  {
    if KeyFrom(o) == KeyFrom(o') {
      var x, x' := o.server + "|" + o.tool + "|" + o.canonical, o'.server + "|" + o'.tool + "|" + o'.canonical;
      assert KeyFrom(o) == o.scope + "|" + x && KeyFrom(o') == o'.scope + "|" + x';
      SplitFirst(o.scope, o'.scope, x, x');
      var y, y' := o.tool + "|" + o.canonical, o'.tool + "|" + o'.canonical;
      assert x == o.server + "|" + y && x' == o'.server + "|" + y';
      SplitFirst(o.server, o'.server, y, y');
      SplitFirst(o.tool, o'.tool, o.canonical, o'.canonical);
    }
  }

  /** What a key keeps of a server and a tool. */
  function Joined(server: string, tool: string): string {
    server + "|" + tool
  }

  /** Within one scope, for equal arguments, a key keeps exactly the joined names. */
  lemma KeyKeepsJoinedNames(scope: string, canonical: string, server: string, tool: string, server': string, tool': string)
    ensures KeyFrom(Origin(scope, server, tool, canonical)) == KeyFrom(Origin(scope, server', tool', canonical))
       <==> Joined(server, tool) == Joined(server', tool')
  {
    var k, k' := KeyFrom(Origin(scope, server, tool, canonical)), KeyFrom(Origin(scope, server', tool', canonical));
    var j, j' := Joined(server, tool), Joined(server', tool');
    assert k == scope + "|" + j + ("|" + canonical) && k' == scope + "|" + j' + ("|" + canonical);
    var m := |scope| + 1;
    assert k[m..|k| - |canonical| - 1] == j && k'[m..|k'| - |canonical| - 1] == j';
  }

  // ---- keys on traces ----------------------------------------------------------------------

  /** The origin of the key a call looks up, read off its trace. */
  lemma LookupOrigin(c: Config, q: Request) returns (o: Origin)
    requires c.cacheKey.None? && CallLaws.Lookups(CallLaws.Trace(c, q)) != []
    ensures var looked := CallLaws.Lookups(CallLaws.Trace(c, q));
      && CallPromises.Usable(c, q) && |looked| == 1 && looked[0].CacheGet? && looked[0].key == KeyFrom(o)
      && o == Origin(looked[0].ctx.scope, q.server, q.tool, Canonical(c.codec, CallPromises.Shown(c, q)))
  {
    hide CallLaws.Only, Call, Canonical, CallPromises.Shown;
    CallPromises.CacheIsAsked(c, q);
    var looked := CallLaws.Lookups(CallLaws.Trace(c, q));
    o := Origin(looked[0].ctx.scope, q.server, q.tool, Canonical(c.codec, CallPromises.Shown(c, q)));
  }

  /**
   With the default key and no separator in names and scopes, two calls look up the same
   key exactly when their scopes, servers, tools and canonical arguments are the same.
   */
  lemma SameKeyIffSameQuestion(c: Config, q: Request, c': Config, q': Request)
    requires c.cacheKey.None? && c'.cacheKey.None?
    requires CallLaws.Lookups(CallLaws.Trace(c, q)) != [] && CallLaws.Lookups(CallLaws.Trace(c', q')) != []
    requires Plain(q.server) && Plain(q.tool) && Plain(q'.server) && Plain(q'.tool)
    ensures var l, l' := CallLaws.Lookups(CallLaws.Trace(c, q))[0], CallLaws.Lookups(CallLaws.Trace(c', q'))[0];
      && l.CacheGet? && l'.CacheGet? && CallPromises.Usable(c, q) && CallPromises.Usable(c', q')
      && (Plain(l.ctx.scope) && Plain(l'.ctx.scope) ==>
            (l.key == l'.key <==>
               && l.ctx.scope == l'.ctx.scope && q.server == q'.server && q.tool == q'.tool
               && Canonical(c.codec, CallPromises.Shown(c, q)) == Canonical(c'.codec, CallPromises.Shown(c', q'))))
  {
    hide CallLaws.Only, Call, Canonical, CallPromises.Shown, KeyFrom;
    var o := LookupOrigin(c, q);
    var o' := LookupOrigin(c', q');
    if PlainOrigin(o) && PlainOrigin(o') {
      KeysAreInjective(o, o');
    }
  }

  /** Any two of the calls that look something up do so in different scopes, with separator-free names and the default key. */
  ghost predicate ScopesApart(calls: seq<Ticket>) {
    forall i, j :: 0 <= i < |calls| && 0 <= j < |calls| && i != j ==> Apart(calls[i], calls[j])
  }

  ghost predicate Apart(a: Ticket, b: Ticket) {
    var l, l' := ColdRun(a.config, a.request).phases.looked, ColdRun(b.config, b.request).phases.looked;
    l != [] && l' != [] && l[0].CacheGet? && l'[0].CacheGet? ==>
      && a.config.cacheKey.None? && b.config.cacheKey.None?
      && Plain(a.request.server) && Plain(a.request.tool) && Plain(l[0].ctx.scope)
      && Plain(b.request.server) && Plain(b.request.tool) && Plain(l'[0].ctx.scope)
      && l[0].ctx.scope != l'[0].ctx.scope
  }

  /** Tenants are isolated: calls in different scopes never share an answer, whatever upstream does. */
  lemma ScopesNeverClash(calls: seq<Ticket>, size: int)
    requires ScopesApart(calls)
    ensures NoClash(calls) && Transparent(calls, size)
  {
    hide Call, Transparent, CallLaws.Only, Canonical;
    if !NoClash(calls) {
      var i, j, key, value :|
        0 <= i < |calls| && 0 <= j < |calls| && i != j && Deposits(calls[i], key, value) && LooksUp(calls[j], key)
        && Off(calls[j]) != Success(value);
      StoredUnderLookedKey(calls[i].config, calls[i].request);
      ApartKeysDiffer(calls[i], calls[j]);
      assert false;
    }
    TransparentIffNoClash(calls, size);
  }

  lemma ApartKeysDiffer(a: Ticket, b: Ticket)
    requires Apart(a, b)
    ensures var l, l' := ColdRun(a.config, a.request).phases.looked, ColdRun(b.config, b.request).phases.looked;
      l != [] && l' != [] && l[0].CacheGet? && l'[0].CacheGet? ==> l[0].key != l'[0].key
  {
    hide Call, CallLaws.Only, Canonical, CallPromises.Shown;
    var c, c' := Cached(a.config, COLD), Cached(b.config, COLD);
    var p := CallLaws.Staged(c, a.request);
    var p' := CallLaws.Staged(c', b.request);
    if p.looked != [] && p'.looked != [] && p.looked[0].CacheGet? && p'.looked[0].CacheGet? {
      SameKeyIffSameQuestion(c, a.request, c', b.request);
    }
  }

  // ---- fixed worlds ----------------------------------------------------------------------

  /** Upstream and the whole ResultTransform chain, as functions of what is asked. */
  datatype World = World(codec: Codec, answer: (string, string, Json) -> Reply, edit: (string, string, ResultValue) -> Edited)

  /** Absent arguments mean the empty object. */
  function Meaning(arguments: Option<Json>): Json {
    if arguments.Some? then arguments.value else Obj(map[])
  }

  /** What such a call comes to. */
  function Final(w: World, server: string, tool: string, v: Json): Outcome {
    match w.answer(server, tool, v)
    case Failed(cause, deadline) => Failure(if deadline then Timeout(server, tool) else FromServer(server, cause))
    case Replied(raw) =>
      var e := w.edit(server, tool, raw);
      if e.err.Some? then Failure(e.err.value) else Success(e.result)
  }

  /** The call meets the fixed world; which hooks run and what they answer is its own affair. */
  ghost predicate Meets(w: World, c: Config, q: Request) {
    && c.codec == w.codec && c.cacheKey.None?
    && (forall session, ctx, arguments ::
          c.upstream(session, ctx, q.server, q.tool, arguments) == w.answer(q.server, q.tool, Meaning(arguments)))
    && (forall ctx, info, raw ::
          var t := Transforms(c, q, ctx, info, raw, |c.resultTransform|);
          Edited(t.result, t.err) == w.edit(q.server, q.tool, raw))
  }

  /** Encoding loses nothing on the arguments of this call. */
  predicate Encodes(codec: Codec, arguments: Option<Json>, text: string) {
    if arguments.None? then text == ""
    else text != "" && codec.render(arguments.value) == Some(text) && codec.parse(text) == arguments
  }

  /** No name, scope or scope set by a hook contains the separator; arguments encode faithfully. */
  ghost predicate Proper(w: World, c: Config, q: Request) {
    && w.codec.parse("{}") == Some(Obj(map[]))
    && Plain(q.ctx.scope) && Plain(q.server) && Plain(q.tool)
    && (forall k, ctx, info, text :: 0 <= k < |c.beforeCall| ==>
          var a := c.beforeCall[k](ctx, q.server, q.tool, info, text);
          a.ctx.Some? ==> Plain(a.ctx.value.scope))
    && (Prepare(c, q).Prepared? ==> Encodes(w.codec, Prepare(c, q).arguments, Prepare(c, q).text))
  }

  lemma SameTextSameMeaning(codec: Codec, a: Option<Json>, text: string, a': Option<Json>, text': string)
    requires codec.parse("{}") == Some(Obj(map[]))
    requires Encodes(codec, a, text) && Encodes(codec, a', text') && Canonical(codec, text) == Canonical(codec, text')
    ensures Meaning(a) == Meaning(a')
  {
    assert a.Some? ==> Canonical(codec, text) == text;
    assert a'.Some? ==> Canonical(codec, text') == text';
  }

  lemma {:induction false} ScopesStayPlain(w: World, c: Config, q: Request, info: ToolInfo, text: string, k: nat)
    requires Proper(w, c, q) && k <= |c.beforeCall|
    ensures Plain(Before(c, q, info, text, k).ctx.scope)
    decreases k
  {
    if k > 0 {
      ScopesStayPlain(w, c, q, info, text, k - 1);
    }
  }

  /** An upstream call in a fixed world comes to the fixed outcome, whatever the cache. */
  lemma DispatchIsFinal(w: World, c: Config, c': Config, q: Request, ctx: Context, info: ToolInfo,
                        session: Option<Session>, arguments: Option<Json>, text: string, lead: Phases)
    requires Meets(w, c, q) && SameButCache(c, c')
    ensures Dispatch(c', q, ctx, info, session, arguments, text, lead).outcome
         == Final(w, q.server, q.tool, Meaning(arguments))
  {
    var reply := c.upstream(session, ctx, q.server, q.tool, arguments);
    if reply.Replied? {
      SameEdits(c, c', q, ctx, info, reply.result, |c.resultTransform|);
    }
  }

  ghost predicate AllFixed(w: World, calls: seq<Ticket>) {
    && w.codec.parse("{}") == Some(Obj(map[]))
    && forall i :: 0 <= i < |calls| ==> Meets(w, calls[i].config, calls[i].request) && Proper(w, calls[i].config, calls[i].request)
  }

  /** A call that looks something up comes to the fixed outcome, under the key of what it asks. */
  lemma LookedUp(w: World, c: Config, q: Request) returns (origin: Origin, arguments: Option<Json>, text: string)
    requires Meets(w, c, q) && Proper(w, c, q) && ColdRun(c, q).phases.looked != []
    ensures PlainOrigin(origin) && origin.server == q.server && origin.tool == q.tool
    ensures origin.canonical == Canonical(w.codec, text) && Encodes(w.codec, arguments, text)
    ensures ColdRun(c, q).phases.looked[0].CacheGet? && ColdRun(c, q).phases.looked[0].key == KeyFrom(origin)
    ensures Off(Ticket(c, q)) == Final(w, q.server, q.tool, Meaning(arguments))
  {
    hide Before, After, Admit, Final, Dispatch;
    var cold, off := Cached(c, COLD), Uncached(c);
    SameGate(c, cold, q);
    SameGate(c, off, q);
    var a := Admit(c, q);
    if a.Admitted? {
      var n := |c.beforeCall|;
      SameHooks(c, cold, q, a.info, a.text, n);
      SameHooks(c, off, q, a.info, a.text, n);
      ScopesStayPlain(w, c, q, a.info, a.text, n);
      CallLaws.AdmittedInfo(c, q);
      var chain := Before(c, q, a.info, a.text, n);
      var lead := QUIET.(checked := a.checked, before := chain.events);
      if chain.stop.None? {
        CallLaws.ServeKeepsLead(cold, q, chain.ctx, a.info, a.session, a.arguments, a.text, lead);
        DispatchIsFinal(w, c, off, q, chain.ctx, a.info, a.session, a.arguments, a.text, lead);
      }
      origin, arguments, text := Origin(chain.ctx.scope, q.server, q.tool, Canonical(w.codec, a.text)), a.arguments, a.text;
      assert KeyOf(cold, q, chain.ctx, text) == KeyFrom(origin);
      hide Canonical, Encodes, Meets, Proper;
    }
  }

  /** In a fixed world with separator-free names equal keys mean equal questions, so no calls clash. */
  lemma FixedHasNoClash(w: World, calls: seq<Ticket>)
    requires AllFixed(w, calls)
    ensures NoClash(calls)
  {
    hide Call, Meets, Proper, Final, Canonical, Encodes;
    forall i, j, key, value |
      0 <= i < |calls| && 0 <= j < |calls| && i != j && Deposits(calls[i], key, value) && LooksUp(calls[j], key)
      ensures Off(calls[j]) == Success(value)
    {
      Compare(calls[i].config, calls[i].request, COLD);
      StoredUnderLookedKey(calls[i].config, calls[i].request);
      var o, a, t := LookedUp(w, calls[i].config, calls[i].request);
      var o', a', t' := LookedUp(w, calls[j].config, calls[j].request);
      KeysAreInjective(o, o');
      SameTextSameMeaning(w.codec, a, t, a', t');
    }
  }

  lemma StoredUnderLookedKey(c: Config, q: Request)
    requires ColdRun(c, q).phases.stored != []
    ensures var p := ColdRun(c, q).phases;
      p.looked != [] && p.stored[0].CacheSet? && p.looked[0].CacheGet? && p.stored[0].key == p.looked[0].key
  {
    hide Call, CallLaws.Only;
    var p := CallLaws.Staged(Cached(c, COLD), q);
    CallLaws.StoredIffCacheableSuccess(Cached(c, COLD), q);
  }

  /**
   Transparency: in every interleaving of any calls on one cache, every call that has
   begun returns exactly what it returns with the cache switched off.
   */
  lemma CacheIsTransparent(w: World, calls: seq<Ticket>, size: int)
    requires AllFixed(w, calls)
    ensures Transparent(calls, size)
  {
    FixedHasNoClash(w, calls);
    TransparentIffNoClash(calls, size);
  }

  // ---- why separators matter -------------------------------------------------------------

  function SampleKey(server: string, tool: string): string {
    KeyFrom(Origin("", server, tool, "{}"))
  }

  /** A sample call with the cache on or off, given its lookup's answer. */
  lemma SampleRun(c: Config, server: string, tool: string)
    requires SameButCache(CallLaws.Sample(c.servers), c) && server in c.servers && c.servers[server] == CallLaws.SampleServer(tool)
    ensures var run := Call(c, Request(CallLaws.SAMPLE_CONTEXT, server, tool, "")); var own := ResultValue(server, [], false);
      && (ActiveCache(c).None? ==> run.outcome == Success(own))
      && (ActiveCache(c).Some? ==>
            var cached := ActiveCache(c).value(CallLaws.SAMPLE_CONTEXT, SampleKey(server, tool));
            && run.phases.looked == [CacheGet(CallLaws.SAMPLE_CONTEXT, SampleKey(server, tool))]
            && run.outcome == Success(if cached.Some? then cached.value else own)
            && (cached.None? ==> run.phases.stored == [CacheSet(CallLaws.SAMPLE_CONTEXT, SampleKey(server, tool), own, 1)]))
  {
    var q := Request(CallLaws.SAMPLE_CONTEXT, server, tool, "");
    assert FindTool([CallLaws.SampleTool(tool)], tool) == Some(CallLaws.SampleTool(tool));
    assert Admit(c, q) == Admitted(CallLaws.SampleTool(tool), Some(0), None, "", []);
    assert KeyOf(c, q, CallLaws.SAMPLE_CONTEXT, "") == SampleKey(server, tool);
    hide Admit, FindTool, KeyOf;
  }

  /**
   Tool "c" of server "a|b" and tool "b|c" of server "a" share a key: two calls in a fixed
   world, proper but for the separator, whose answers a cache of any positive size mixes up.
   */
  lemma SeparatorsLeak(size: int) returns (w: World, calls: seq<Ticket>)
    requires size >= 1
    ensures |calls| == 2 && forall i :: 0 <= i < 2 ==> Meets(w, calls[i].config, calls[i].request)
    ensures calls[0].request == Request(CallLaws.SAMPLE_CONTEXT, "a|b", "c", "") && calls[1].request == Request(CallLaws.SAMPLE_CONTEXT, "a", "b|c", "")
    ensures calls[0].config == calls[1].config && calls[0].config.beforeCall == [] && w.codec.parse("{}") == Some(Obj(map[]))
    ensures !NoClash(calls) && !Transparent(calls, size)
  {
    hide Call, Transparent;
    var c := CallLaws.Sample(map["a|b" := CallLaws.SampleServer("c"), "a" := CallLaws.SampleServer("b|c")]);
    calls := [Ticket(c, Request(CallLaws.SAMPLE_CONTEXT, "a|b", "c", "")), Ticket(c, Request(CallLaws.SAMPLE_CONTEXT, "a", "b|c", ""))];
    w := World(CallLaws.SAMPLE_CODEC, (server, _, _) => Replied(ResultValue(server, [], false)), (_, _, raw) => Edited(raw, None));
    SampleRun(Cached(c, COLD), "a|b", "c");
    SampleRun(Cached(c, COLD), "a", "b|c");
    SampleRun(Uncached(c), "a", "b|c");
    KeyKeepsJoinedNames("", "{}", "a|b", "c", "a", "b|c");
    assert Joined("a|b", "c") == "a|b|c" == Joined("a", "b|c");
    hide KeyFrom;
    var key := SampleKey("a|b", "c");
    assert Deposits(calls[0], key, ResultValue("a|b", [], false)) && LooksUp(calls[1], key);
    assert Off(calls[1]) == Success(ResultValue("a", [], false));
    TransparentIffNoClash(calls, size);
  }
}
