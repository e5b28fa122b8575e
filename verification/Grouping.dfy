/** Byte-wise order on strings, as Go's sort uses it. */
module StringOrder {
  import opened Basics

  predicate Less(a: string, b: string) {
    b != "" && (a == "" || a[0] < b[0] || (a[0] == b[0] && Less(a[1..], b[1..])))
  }

  lemma LessIsTransitive(a: string, b: string, c: string)
    requires Less(a, b) && Less(b, c)
    ensures Less(a, c)
  {
  }

  lemma LessIsTotal(a: string, b: string)
    ensures a == b || Less(a, b) || Less(b, a)
    ensures !(Less(a, b) && Less(b, a)) && !Less(a, a)
  {
    if a != "" && b != "" && a[0] == b[0] {
      LessIsTotal(a[1..], b[1..]);
      assert a == [a[0]] + a[1..] && b == [b[0]] + b[1..];
    }
    if a != "" {
      LessIsTotal(a[1..], a[1..]);
    }
  }

  /** b goes on where a ends, or is larger at the first place where they differ. */
  ghost predicate FirstDifference(a: string, b: string, i: int) {
    && 0 <= i <= |a| && i < |b|
    && (forall j :: 0 <= j < i ==> a[j] == b[j])
    && (i < |a| ==> a[i] < b[i])
  }

  /** The order is lexicographic by byte. */
  lemma {:induction false} LessIsLexicographic(a: string, b: string)
    ensures Less(a, b) <==> exists i :: FirstDifference(a, b, i)
  {
    if a != "" && b != "" && a[0] == b[0] {
      LessIsLexicographic(a[1..], b[1..]);
      if i :| FirstDifference(a[1..], b[1..], i) {
        assert FirstDifference(a, b, i + 1);
      }
      if i :| FirstDifference(a, b, i) {
        assert FirstDifference(a[1..], b[1..], i - 1);
      }
    } else if Less(a, b) {
      assert FirstDifference(a, b, 0);
    }
  }

  ghost predicate StrictlySorted(s: seq<string>) {
    forall i, j :: 0 <= i < j < |s| ==> Less(s[i], s[j])
  }

  ghost function Elements(s: seq<string>): set<string> {
    set x | x in s
  }

  function Insert(s: seq<string>, x: string): seq<string> {
    if s == [] then [x]
    else if Less(x, s[0]) then [x] + s
    else [s[0]] + Insert(s[1..], x)
  }

  lemma {:induction false} InsertKeepsElements(s: seq<string>, x: string)
    ensures Elements(Insert(s, x)) == Elements(s) + {x}
  {
    if s != [] && !Less(x, s[0]) {
      InsertKeepsElements(s[1..], x);
      assert s == [s[0]] + s[1..];
      assert Elements(s) == Elements(s[1..]) + {s[0]};
      assert Elements(Insert(s, x)) == Elements(Insert(s[1..], x)) + {s[0]};
    }
  }

  lemma {:induction false} InsertKeepsOrder(s: seq<string>, x: string)
    requires StrictlySorted(s) && x !in s
    ensures StrictlySorted(Insert(s, x))
  {
    if s != [] {
      LessIsTotal(x, s[0]);
      if Less(x, s[0]) {
        forall j | 0 <= j < |s|
          ensures Less(x, s[j])
        {
          if j > 0 {
            LessIsTransitive(x, s[0], s[j]);
          }
        }
      } else {
        InsertKeepsOrder(s[1..], x);
        InsertKeepsElements(s[1..], x);
        var rest := Insert(s[1..], x);
        forall j | 0 <= j < |rest|
          ensures Less(s[0], rest[j])
        {
          assert rest[j] in Elements(rest);
          if rest[j] != x {
            var i :| 0 <= i < |s[1..]| && s[1..][i] == rest[j];
            assert s[i + 1] == rest[j];
          }
        }
      }
    }
  }

  lemma OnlyEmptyHasNone(s: seq<string>)
    ensures Elements(s) == {} <==> s == []
  {
    if s != [] {
      assert s[0] in Elements(s);
    }
  }

  /** A strictly sorted sequence is determined by its elements. */
  lemma {:induction false} SortedIsUnique(s: seq<string>, t: seq<string>)
    requires StrictlySorted(s) && StrictlySorted(t) && Elements(s) == Elements(t)
    ensures s == t
  {
    OnlyEmptyHasNone(s);
    OnlyEmptyHasNone(t);
    if s != [] {
      assert s[0] in Elements(t);
      assert t[0] in Elements(s);
      LessIsTotal(s[0], t[0]);
      var i :| 0 <= i < |t| && t[i] == s[0];
      var j :| 0 <= j < |s| && s[j] == t[0];
      assert s[0] == t[0];
      TailElements(s);
      TailElements(t);
      SortedIsUnique(s[1..], t[1..]);
      assert s == [s[0]] + s[1..] && t == [t[0]] + t[1..];
    }
  }

  lemma TailElements(s: seq<string>)
    requires StrictlySorted(s) && s != []
    ensures Elements(s[1..]) == Elements(s) - {s[0]}
  {
    LessIsTotal(s[0], s[0]);
    forall x | x in Elements(s) - {s[0]}
      ensures x in s[1..]
    {
      var i :| 0 <= i < |s| && s[i] == x;
      assert s[1..][i - 1] == x;
    }
  }

  /** slices.Sort, on names that occur once. */
  method Sort(xs: seq<string>) returns (s: seq<string>)
    requires Distinct(xs)
    ensures StrictlySorted(s) && Elements(s) == Elements(xs)
  {
    s := [];
    for i := 0 to |xs|
      invariant StrictlySorted(s) && Elements(s) == Elements(xs[..i])
    {
      var x := xs[i];
      assert x !in Elements(xs[..i]);
      assert x !in s by {
        assert x in s ==> x in Elements(s);
      }
      InsertKeepsOrder(s, x);
      InsertKeepsElements(s, x);
      s := Insert(s, x);
      assert xs[..i + 1] == xs[..i] + [xs[i]];
    }
    assert xs[..|xs|] == xs;
  }

  /** slices.Sorted of a map's keys, met in some order. */
  method SortKeys(keys: set<string>) returns (s: seq<string>)
    ensures StrictlySorted(s) && Elements(s) == keys
  {
    s := [];
    var rest := keys;
    while rest != {}
      invariant rest <= keys && StrictlySorted(s) && Elements(s) == keys - rest
    {
      var k :| k in rest;
      assert k !in s by {
        assert k in s ==> k in Elements(s);
      }
      InsertKeepsOrder(s, k);
      InsertKeepsElements(s, k);
      s := Insert(s, k);
      rest := rest - {k};
    }
  }
}

/** KindGroups (multiplexer.go). */
module Grouping {
  import opened Basics
  import opened Tools
  import opened StringOrder

  /** What grouping reads of a server entry. */
  datatype Server = Server(kind: string, tools: seq<ToolInfo>)

  datatype KindGroup = KindGroup(kind: string, servers: seq<string>, tools: seq<string>, hints: Option<seq<string>>)

  function KindOf(servers: map<string, Server>, name: string): string
    requires name in servers
  {
    if servers[name].kind == "" then name else servers[name].kind
  }

  ghost function Names(tools: seq<ToolInfo>): set<string> {
    set t | t in tools :: t.name
  }

  /** The given servers that belong to a kind, and what they offer. */
  ghost function Members(servers: map<string, Server>, among: set<string>, kind: string): set<string> {
    set n | n in among && n in servers && KindOf(servers, n) == kind
  }

  ghost function Offered(servers: map<string, Server>, among: set<string>, kind: string): set<string> {
    set n, t | n in Members(servers, among, kind) && t in servers[n].tools :: t.name
  }

  ghost predicate IsGroup(servers: map<string, Server>, hints: map<string, seq<string>>, g: KindGroup) {
    && StrictlySorted(g.servers) && Elements(g.servers) == Members(servers, servers.Keys, g.kind) && g.servers != []
    && StrictlySorted(g.tools) && Elements(g.tools) == Offered(servers, servers.Keys, g.kind)
    && g.hints == (if g.kind in hints then Some(hints[g.kind]) else None)
  }

  ghost predicate IsGrouping(servers: map<string, Server>, hints: map<string, seq<string>>, groups: seq<KindGroup>) {
    && (forall i, j :: 0 <= i < j < |groups| ==> Less(groups[i].kind, groups[j].kind))
    && (forall i :: 0 <= i < |groups| ==> IsGroup(servers, hints, groups[i]))
    && (forall n :: n in servers ==> exists i :: 0 <= i < |groups| && groups[i].kind == KindOf(servers, n))
  }

  /** Every server is in exactly one group, the one of its kind. */
  lemma GroupingIsPartition(servers: map<string, Server>, hints: map<string, seq<string>>, groups: seq<KindGroup>, name: string)
    requires IsGrouping(servers, hints, groups) && name in servers
    ensures exists i :: 0 <= i < |groups| && name in groups[i].servers
    ensures forall i, j :: 0 <= i < |groups| && 0 <= j < |groups| && name in groups[i].servers && name in groups[j].servers ==>
      i == j && groups[i].kind == (if servers[name].kind == "" then name else servers[name].kind)
  {
    forall i | 0 <= i < |groups|
      ensures name in groups[i].servers <==> groups[i].kind == KindOf(servers, name)
    {
      assert IsGroup(servers, hints, groups[i]);
      assert name in groups[i].servers <==> name in Elements(groups[i].servers);
    }
    forall i, j | 0 <= i < j < |groups|
      ensures groups[i].kind != groups[j].kind
    {
      LessIsTotal(groups[i].kind, groups[j].kind);
    }
  }

  /** A group lists exactly the servers of its kind, a server without one counting as its own, and exactly their tools. */
  lemma GroupContents(servers: map<string, Server>, hints: map<string, seq<string>>, groups: seq<KindGroup>, i: nat, x: string)
    requires IsGrouping(servers, hints, groups) && i < |groups|
    ensures x in groups[i].servers <==>
      x in servers && groups[i].kind == if servers[x].kind == "" then x else servers[x].kind
    ensures x in groups[i].tools <==> exists n, j :: n in groups[i].servers && n in servers && 0 <= j < |servers[n].tools| && servers[n].tools[j].name == x
  {
    var g := groups[i];
    assert IsGroup(servers, hints, g);
    assert forall n :: n in g.servers <==> n in Elements(g.servers);
    assert x in g.tools <==> x in Elements(g.tools);
    if x in g.tools {
      var n, t :| n in Members(servers, servers.Keys, g.kind) && t in servers[n].tools && t.name == x;
      var j :| 0 <= j < |servers[n].tools| && servers[n].tools[j] == t;
    }
    if n, j :| n in g.servers && n in servers && 0 <= j < |servers[n].tools| && servers[n].tools[j].name == x {
      assert n in Members(servers, servers.Keys, g.kind) && servers[n].tools[j] in servers[n].tools;
    }
  }

  ghost function Kinds(groups: seq<KindGroup>): seq<string> {
    seq(|groups|, i requires 0 <= i < |groups| => groups[i].kind)
  }

  lemma KindsOfGrouping(servers: map<string, Server>, hints: map<string, seq<string>>, groups: seq<KindGroup>)
    requires IsGrouping(servers, hints, groups)
    ensures StrictlySorted(Kinds(groups))
    ensures Elements(Kinds(groups)) == set n | n in servers :: KindOf(servers, n)
  {
    forall k | k in Kinds(groups)
      ensures exists n :: n in servers && KindOf(servers, n) == k
    {
      var i :| 0 <= i < |groups| && groups[i].kind == k;
      assert IsGroup(servers, hints, groups[i]);
      assert groups[i].servers[0] in Elements(groups[i].servers);
    }
    forall n | n in servers
      ensures KindOf(servers, n) in Kinds(groups)
    {
      var i :| 0 <= i < |groups| && groups[i].kind == KindOf(servers, n);
      assert Kinds(groups)[i] == KindOf(servers, n);
    }
  }

  /** The grouping does not depend on the order in which Go walks its maps. */
  lemma GroupingIsDetermined(servers: map<string, Server>, hints: map<string, seq<string>>,
                             groups: seq<KindGroup>, groups': seq<KindGroup>)
    requires IsGrouping(servers, hints, groups) && IsGrouping(servers, hints, groups')
    ensures groups == groups'
  {
    KindsOfGrouping(servers, hints, groups);
    KindsOfGrouping(servers, hints, groups');
    SortedIsUnique(Kinds(groups), Kinds(groups'));
    assert |Kinds(groups)| == |Kinds(groups')|;
    forall i | 0 <= i < |groups|
      ensures groups[i] == groups'[i]
    {
      assert Kinds(groups)[i] == Kinds(groups')[i];
      assert IsGroup(servers, hints, groups[i]) && IsGroup(servers, hints, groups'[i]);
      SortedIsUnique(groups[i].servers, groups'[i].servers);
      SortedIsUnique(groups[i].tools, groups'[i].tools);
    }
  }

  /** The maps KindGroups fills, once the servers in `among` are done. */
  ghost predicate Filled(servers: map<string, Server>, among: set<string>,
                         serversByKind: map<string, seq<string>>, toolSets: map<string, set<string>>) {
    && serversByKind.Keys == toolSets.Keys
    && (forall n :: n in among && n in servers ==> KindOf(servers, n) in serversByKind)
    && (forall k :: k in serversByKind ==>
          && Distinct(serversByKind[k]) && serversByKind[k] != []
          && Elements(serversByKind[k]) == Members(servers, among, k)
          && toolSets[k] == Offered(servers, among, k))
  }

  method AddNames(names: set<string>, tools: seq<ToolInfo>) returns (all: set<string>)
    ensures all == names + Names(tools)
  {
    all := names;
    for i := 0 to |tools|
      invariant all == names + Names(tools[..i])
    {
      all := all + {tools[i].name};
      assert tools[..i + 1] == tools[..i] + [tools[i]];
    }
    assert tools[..|tools|] == tools;
  }

  lemma OneMoreMember(servers: map<string, Server>, among: set<string>, name: string, k: string)
    requires name in servers && name !in among
    ensures var here := k == KindOf(servers, name);
      && Members(servers, among + {name}, k) == Members(servers, among, k) + (if here then {name} else {})
      && Offered(servers, among + {name}, k) == Offered(servers, among, k) + (if here then Names(servers[name].tools) else {})
  {
  }

  /** What the maps hold for a kind, whether or not it has been met. */
  lemma ListedSoFar(servers: map<string, Server>, among: set<string>,
                    serversByKind: map<string, seq<string>>, toolSets: map<string, set<string>>, kind: string)
    requires Filled(servers, among, serversByKind, toolSets)
    ensures var listed := if kind in serversByKind then serversByKind[kind] else [];
      var tools := if kind in toolSets then toolSets[kind] else {};
      && Distinct(listed) && Elements(listed) == Members(servers, among, kind) && tools == Offered(servers, among, kind)
  {
  }

  lemma Appended(listed: seq<string>, name: string)
    requires Distinct(listed) && name !in Elements(listed)
    ensures Distinct(listed + [name]) && Elements(listed + [name]) == Elements(listed) + {name}
  {
  }

  lemma FilledStep(servers: map<string, Server>, among: set<string>, name: string,
                   serversByKind: map<string, seq<string>>, toolSets: map<string, set<string>>)
    requires Filled(servers, among, serversByKind, toolSets) && name in servers && name !in among
    ensures var kind := KindOf(servers, name);
      var listed := if kind in serversByKind then serversByKind[kind] else [];
      var tools := if kind in toolSets then toolSets[kind] else {};
      Filled(servers, among + {name}, serversByKind[kind := listed + [name]],
             toolSets[kind := tools + Names(servers[name].tools)])
  {
    var kind := KindOf(servers, name);
    var listed := if kind in serversByKind then serversByKind[kind] else [];
    var tools := if kind in toolSets then toolSets[kind] else {};
    ListedSoFar(servers, among, serversByKind, toolSets, kind);
    assert name !in Members(servers, among, kind);
    Appended(listed, name);
    hide Members, Offered, Elements, Distinct;
    forall k | k in serversByKind || k == kind
      ensures var s, t := serversByKind[kind := listed + [name]], toolSets[kind := tools + Names(servers[name].tools)];
        && Distinct(s[k]) && Elements(s[k]) == Members(servers, among + {name}, k) && t[k] == Offered(servers, among + {name}, k)
    {
      OneMoreMember(servers, among, name, k);
    }
  }

  /** KindGroups: the grouping of the servers. */
  method KindGroups(servers: map<string, Server>, hints: map<string, seq<string>>) returns (groups: seq<KindGroup>)
    ensures IsGrouping(servers, hints, groups)
  {
    var serversByKind: map<string, seq<string>>, toolSets: map<string, set<string>> := map[], map[];
    var rest := servers.Keys;
    while rest != {}
      invariant rest <= servers.Keys
      invariant Filled(servers, servers.Keys - rest, serversByKind, toolSets)
    {
      var name :| name in rest;
      var kind := KindOf(servers, name);
      FilledStep(servers, servers.Keys - rest, name, serversByKind, toolSets);
      assert servers.Keys - (rest - {name}) == servers.Keys - rest + {name};
      var tools := AddNames(if kind in toolSets then toolSets[kind] else {}, servers[name].tools);
      serversByKind := serversByKind[kind := (if kind in serversByKind then serversByKind[kind] else []) + [name]];
      toolSets := toolSets[kind := tools];
      rest := rest - {name};
    }
    assert servers.Keys - rest == servers.Keys;
    groups := BuildGroups(servers, hints, serversByKind, toolSets);
  }

  method BuildGroup(servers: map<string, Server>, hints: map<string, seq<string>>,
                    serversByKind: map<string, seq<string>>, toolSets: map<string, set<string>>, kind: string)
    returns (g: KindGroup)
    requires Filled(servers, servers.Keys, serversByKind, toolSets) && kind in serversByKind
    ensures g.kind == kind && IsGroup(servers, hints, g)
  {
    hide Members, Offered;
    var names := Sort(serversByKind[kind]);
    assert serversByKind[kind][0] in Elements(names);
    var tools := SortKeys(toolSets[kind]);
    g := KindGroup(kind, names, tools, if kind in hints then Some(hints[kind]) else None);
  }

  method BuildGroups(servers: map<string, Server>, hints: map<string, seq<string>>,
                     serversByKind: map<string, seq<string>>, toolSets: map<string, set<string>>)
    returns (groups: seq<KindGroup>)
    requires Filled(servers, servers.Keys, serversByKind, toolSets)
    ensures IsGrouping(servers, hints, groups)
  {
    hide IsGroup, Members, Offered;
    var kinds := SortKeys(serversByKind.Keys);
    groups := [];
    for i := 0 to |kinds|
      invariant |groups| == i
      invariant forall j :: 0 <= j < i ==> groups[j].kind == kinds[j] && IsGroup(servers, hints, groups[j])
    {
      assert kinds[i] in Elements(kinds);
      var g := BuildGroup(servers, hints, serversByKind, toolSets, kinds[i]);
      groups := groups + [g];
    }
    forall n | n in servers
      ensures exists i :: 0 <= i < |groups| && groups[i].kind == KindOf(servers, n)
    {
      assert KindOf(servers, n) in Elements(kinds);
      var i :| 0 <= i < |kinds| && kinds[i] == KindOf(servers, n);
      assert groups[i].kind == kinds[i];
    }
  }
}
