/**
 ToolsForServers (multiplexer.go): the tools of the named servers, in order, without
 repeats. Repeats are recognised by a joined "server/tool" key; the documented promise is
 one entry per (server, tool) pair.
 */
module ToolListing {
  import opened Tools

  /** A tool met while walking the named servers. */
  datatype Met = Met(server: string, tool: ToolInfo)

  function PairKey(m: Met): (string, string) { (m.server, m.tool.name) }

  function JoinedKey(m: Met): string { m.server + "/" + m.tool.name }

  predicate Repeated<K(==)>(met: seq<Met>, n: nat, key: Met -> K)
    requires n < |met|
  {
    exists j :: 0 <= j < n && key(met[j]) == key(met[n])
  }

  /** The tools whose key occurs for the first time, in order. */
  function Firsts<K(==)>(met: seq<Met>, key: Met -> K): seq<ToolInfo>
    decreases |met|
  {
    if met == [] then []
    else
      var n := |met| - 1;
      Firsts(met[..n], key) + if Repeated(met, n, key) then [] else [met[n].tool]
  }

  /** How many of the first i are met for the first time. */
  function FirstsBefore<K(==)>(met: seq<Met>, key: Met -> K, i: nat): nat
    requires i <= |met|
  {
    if i == 0 then 0 else FirstsBefore(met, key, i - 1) + if Repeated(met, i - 1, key) then 0 else 1
  }

  lemma {:induction false} FirstsBeforePrefix<K>(met: seq<Met>, key: Met -> K, n: nat, i: nat)
    requires i <= n <= |met|
    ensures FirstsBefore(met[..n], key, i) == FirstsBefore(met, key, i)
    decreases i
  {
    if i > 0 {
      FirstsBeforePrefix(met, key, n, i - 1);
      RepeatedPrefix(met, key, n, i - 1);
    }
  }

  lemma RepeatedPrefix<K>(met: seq<Met>, key: Met -> K, n: nat, i: nat)
    requires i < n <= |met|
    ensures Repeated(met[..n], i, key) <==> Repeated(met, i, key)
  {
    assert forall j :: 0 <= j <= i ==> met[..n][j] == met[j];
  }

  /** First occurrences are listed in the order they are met. */
  lemma {:induction false} FirstsPositions<K>(met: seq<Met>, key: Met -> K, i: nat)
    ensures |Firsts(met, key)| == FirstsBefore(met, key, |met|)
    ensures i < |met| && !Repeated(met, i, key) ==>
      && FirstsBefore(met, key, i) < |Firsts(met, key)|
      && Firsts(met, key)[FirstsBefore(met, key, i)] == met[i].tool
    decreases |met|
  {
    hide Repeated;
    if met != [] {
      var n := |met| - 1;
      FirstsPositions(met[..n], key, i);
      FirstsBeforePrefix(met, key, n, n);
      if i < n {
        FirstsBeforePrefix(met, key, n, i);
        RepeatedPrefix(met, key, n, i);
      }
    }
  }

  function OfServer(name: string, tools: seq<ToolInfo>): seq<Met> {
    seq(|tools|, i requires 0 <= i < |tools| => Met(name, tools[i]))
  }

  /** Everything the walk meets; unknown names are skipped. */
  function Walk(servers: map<string, seq<ToolInfo>>, names: seq<string>): seq<Met>
    decreases |names|
  {
    if names == [] then []
    else
      var n := |names| - 1;
      Walk(servers, names[..n]) + if names[n] in servers then OfServer(names[n], servers[names[n]]) else []
  }

  /** How many tools the first i names bring. */
  function Offset(servers: map<string, seq<ToolInfo>>, names: seq<string>, i: nat): nat
    requires i <= |names|
  {
    if i == 0 then 0
    else Offset(servers, names, i - 1) + if names[i - 1] in servers then |servers[names[i - 1]]| else 0
  }

  lemma {:induction false} OffsetOfPrefix(servers: map<string, seq<ToolInfo>>, names: seq<string>, n: nat, i: nat)
    requires i <= n <= |names|
    ensures Offset(servers, names[..n], i) == Offset(servers, names, i)
    decreases i
  {
    if i > 0 {
      OffsetOfPrefix(servers, names, n, i - 1);
    }
  }

  /** The walk meets the tools of each known server in its own order, servers in the order asked for. */
  lemma {:induction false} WalkPositions(servers: map<string, seq<ToolInfo>>, names: seq<string>, i: nat, j: nat)
    ensures |Walk(servers, names)| == Offset(servers, names, |names|)
    ensures i < |names| && names[i] in servers && j < |servers[names[i]]| ==>
      && Offset(servers, names, i) + j < |Walk(servers, names)|
      && Walk(servers, names)[Offset(servers, names, i) + j] == Met(names[i], servers[names[i]][j])
    decreases |names|
  {
    if names != [] {
      var n := |names| - 1;
      WalkPositions(servers, names[..n], i, j);
      OffsetOfPrefix(servers, names, n, n);
      if i <= n {
        OffsetOfPrefix(servers, names, n, i);
      }
    }
  }

  ghost function Keys(met: seq<Met>): set<string> {
    set i | 0 <= i < |met| :: JoinedKey(met[i])
  }

  lemma FirstsAppend<K>(met: seq<Met>, m: Met, key: Met -> K)
    ensures Firsts(met + [m], key) == Firsts(met, key) + if (exists j :: 0 <= j < |met| && key(met[j]) == key(m)) then [] else [m.tool]
  {
    var longer := met + [m];
    assert longer[..|met|] == met;
    assert forall j :: 0 <= j < |met| ==> longer[j] == met[j];
  }

  lemma OfNothing(name: string)
    ensures OfServer(name, []) == []
  {
  }

  lemma OfServerAppend(name: string, tools: seq<ToolInfo>, i: nat)
    requires i < |tools|
    ensures OfServer(name, tools[..i + 1]) == OfServer(name, tools[..i]) + [Met(name, tools[i])]
  {
  }

  method WalkServer(met: seq<Met>, name: string, tools: seq<ToolInfo>, seen: set<string>, result: seq<ToolInfo>)
    returns (seen': set<string>, result': seq<ToolInfo>)
    requires seen == Keys(met) && result == Firsts(met, JoinedKey)
    ensures seen' == Keys(met + OfServer(name, tools)) && result' == Firsts(met + OfServer(name, tools), JoinedKey)
  {
    hide Firsts, Keys, OfServer;
    seen', result' := seen, result;
    ghost var sofar := met;
    OfNothing(name);
    for i := 0 to |tools|
      invariant sofar == met + OfServer(name, tools[..i])
      invariant seen' == Keys(sofar) && result' == Firsts(sofar, JoinedKey)
    {
      ghost var m := Met(name, tools[i]);
      FirstsAppend(sofar, m, JoinedKey);
      KeysAppend(sofar, m);
      OfServerAppend(name, tools, i);
      var key := name + "/" + tools[i].name;
      if key !in seen' {
        seen' := seen' + {key};
        result' := result' + [tools[i]];
      }
      sofar := sofar + [m];
    }
    assert tools[..|tools|] == tools;
  }

  lemma KeysAppend(met: seq<Met>, m: Met)
    ensures Keys(met + [m]) == Keys(met) + {JoinedKey(m)}
    ensures JoinedKey(m) in Keys(met) <==> exists j :: 0 <= j < |met| && JoinedKey(met[j]) == JoinedKey(m)
  {
    var longer := met + [m];
    forall k | k in Keys(met) + {JoinedKey(m)}
      ensures k in Keys(longer)
    {
      if k in Keys(met) {
        var i :| 0 <= i < |met| && JoinedKey(met[i]) == k;
        assert longer[i] == met[i];
      } else {
        assert longer[|met|] == m;
      }
    }
  }

  /** ToolsForServers: first occurrences by joined key. */
  method ToolsForServers(servers: map<string, seq<ToolInfo>>, names: seq<string>) returns (result: seq<ToolInfo>)
    ensures result == Firsts(Walk(servers, names), JoinedKey)
  {
    var seen: set<string> := {};
    result := [];
    for i := 0 to |names|
      invariant seen == Keys(Walk(servers, names[..i])) && result == Firsts(Walk(servers, names[..i]), JoinedKey)
    {
      assert names[..i + 1][..i] == names[..i];
      if names[i] in servers {
        seen, result := WalkServer(Walk(servers, names[..i]), names[i], servers[names[i]], seen, result);
      } else {
        assert Walk(servers, names[..i + 1]) == Walk(servers, names[..i]);
      }
    }
    assert names[..|names|] == names;
  }

  // ---- one entry per pair ----------------------------------------------------------------

  /** No two different pairs on the walk share a joined key. */
  ghost predicate NoCollision(met: seq<Met>) {
    forall i, j :: 0 <= i < |met| && 0 <= j < |met| && JoinedKey(met[i]) == JoinedKey(met[j]) ==>
      PairKey(met[i]) == PairKey(met[j])
  }

  lemma RepeatedPairs(met: seq<Met>, n: nat)
    requires n < |met|
    ensures Repeated(met, n, PairKey) ==> Repeated(met, n, JoinedKey)
    ensures NoCollision(met) ==> (Repeated(met, n, PairKey) <==> Repeated(met, n, JoinedKey))
  {
    if Repeated(met, n, PairKey) {
      var j :| 0 <= j < n && PairKey(met[j]) == PairKey(met[n]);
      assert JoinedKey(met[j]) == JoinedKey(met[n]);
    }
    if NoCollision(met) && Repeated(met, n, JoinedKey) {
      var j :| 0 <= j < n && JoinedKey(met[j]) == JoinedKey(met[n]);
      assert PairKey(met[j]) == PairKey(met[n]);
    }
  }

  /** A collision costs an entry. */
  lemma {:induction false} CollisionLosesEntry(met: seq<Met>)
    ensures |Firsts(met, JoinedKey)| <= |Firsts(met, PairKey)|
    ensures NoCollision(met) ==> Firsts(met, JoinedKey) == Firsts(met, PairKey)
    ensures !NoCollision(met) ==> |Firsts(met, JoinedKey)| < |Firsts(met, PairKey)|
    decreases |met|
  {
    if met != [] {
      var n := |met| - 1;
      CollisionLosesEntry(met[..n]);
      RepeatedPairs(met, n);
      if NoCollision(met) {
        assert NoCollision(met[..n]);
      } else if NoCollision(met[..n]) {
        NewCollision(met);
      }
    }
  }

  /** The first collision is between the last pair, new on the walk, and an earlier one. */
  lemma NewCollision(met: seq<Met>)
    requires met != [] && NoCollision(met[..|met| - 1]) && !NoCollision(met)
    ensures Repeated(met, |met| - 1, JoinedKey) && !Repeated(met, |met| - 1, PairKey)
  {
    var n := |met| - 1;
    var i, j :| 0 <= i < |met| && 0 <= j < |met| && JoinedKey(met[i]) == JoinedKey(met[j]) && PairKey(met[i]) != PairKey(met[j]);
    assert forall k :: 0 <= k < n ==> met[..n][k] == met[k];
    var k := if i == n then j else i;
    assert k < n && JoinedKey(met[k]) == JoinedKey(met[n]) && PairKey(met[k]) != PairKey(met[n]);
    forall l | 0 <= l < n
      ensures PairKey(met[l]) != PairKey(met[n])
    {
      if JoinedKey(met[l]) == JoinedKey(met[k]) {
        assert PairKey(met[..n][l]) == PairKey(met[..n][k]);
      }
    }
  }

  /** Each pair appears exactly once, at its first occurrence, if and only if no two listed pairs share a key. */
  lemma OncePerPairIffNoCollision(servers: map<string, seq<ToolInfo>>, names: seq<string>)
    ensures var met := Walk(servers, names);
      Firsts(met, JoinedKey) == Firsts(met, PairKey) <==> NoCollision(met)
  {
    CollisionLosesEntry(Walk(servers, names));
  }

  lemma SameHead(a: string, b: string, x: string, y: string)
    requires '/' !in a && '/' !in b && a + "/" + x == b + "/" + y
    ensures a == b && x == y
  {
    SlashAt(a, x);
    SlashAt(b, y);
  }

  lemma SlashAt(a: string, x: string)
    ensures var s := a + "/" + x;
      && s[|a|] == '/' && s[..|a|] == a && s[|a| + 1..] == x
      && (forall k :: 0 <= k < |a| ==> s[k] == a[k])
  {
  }

  lemma {:induction false} WalkNames(servers: map<string, seq<ToolInfo>>, names: seq<string>, i: nat)
    requires i < |Walk(servers, names)|
    ensures Walk(servers, names)[i].server in names
    decreases |names|
  {
    var n := |names| - 1;
    if i < |Walk(servers, names[..n])| {
      WalkNames(servers, names[..n], i);
    }
  }

  /** With no '/' in the server names asked for, the documented promise holds. */
  lemma OncePerPair(servers: map<string, seq<ToolInfo>>, names: seq<string>)
    requires forall n :: n in names ==> '/' !in n
    ensures Firsts(Walk(servers, names), JoinedKey) == Firsts(Walk(servers, names), PairKey)
  {
    var met := Walk(servers, names);
    forall i, j | 0 <= i < |met| && 0 <= j < |met| && JoinedKey(met[i]) == JoinedKey(met[j])
      ensures PairKey(met[i]) == PairKey(met[j])
    {
      WalkNames(servers, names, i);
      WalkNames(servers, names, j);
      SameHead(met[i].server, met[j].server, met[i].tool.name, met[j].tool.name);
    }
    CollisionLosesEntry(met);
  }

  ghost function PairsMet(met: seq<Met>): set<(string, string)> {
    set i | 0 <= i < |met| :: PairKey(met[i])
  }

  lemma PairsAppend(met: seq<Met>)
    requires met != []
    ensures PairsMet(met) == PairsMet(met[..|met| - 1]) + {PairKey(met[|met| - 1])}
    ensures PairKey(met[|met| - 1]) in PairsMet(met[..|met| - 1]) <==> Repeated(met, |met| - 1, PairKey)
  {
    var n := |met| - 1;
    assert forall j :: 0 <= j < n ==> met[..n][j] == met[j];
  }

  /** As many first occurrences as there are pairs. */
  lemma {:induction false} OneFirstPerPair(met: seq<Met>)
    ensures |Firsts(met, PairKey)| == |PairsMet(met)|
    decreases |met|
  {
    hide PairKey, Repeated;
    if met != [] {
      OneFirstPerPair(met[..|met| - 1]);
      PairsAppend(met);
      hide PairsMet;
    }
  }

  /** The tool met first under a pair is listed. */
  lemma {:induction false} FirstIsListed(met: seq<Met>, i: nat)
    requires i < |met| && !Repeated(met, i, PairKey)
    ensures met[i].tool in Firsts(met, PairKey)
    decreases |met|
  {
    var n := |met| - 1;
    if i < n {
      assert forall j :: 0 <= j < n ==> met[..n][j] == met[j];
      FirstIsListed(met[..n], i);
    }
  }

  /** A slash in a server name can hide a tool: tool "b/c" of server "a" after tool "c" of server "a/b". */
  lemma SlashHidesTool(c: ToolInfo, bc: ToolInfo)
    requires c.name == "c" && bc.name == "b/c"
    ensures var met := Walk(map["a/b" := [c], "a" := [bc]], ["a/b", "a"]);
      |Firsts(met, JoinedKey)| < |Firsts(met, PairKey)|
  {
    hide Firsts;
    var met := [Met("a/b", c), Met("a", bc)];
    TwoServers("a/b", c, "a", bc);
    hide Walk;
    assert JoinedKey(met[0]) == "a/b/c" && JoinedKey(met[1]) == "a/b/c";
    assert PairKey(met[0]) != PairKey(met[1]);
    CollisionLosesEntry(met);
  }

  lemma TwoServers(a: string, t: ToolInfo, b: string, u: ToolInfo)
    requires a != b
    ensures Walk(map[a := [t], b := [u]], [a, b]) == [Met(a, t), Met(b, u)]
  {
    var servers := map[a := [t], b := [u]];
    assert [a, b][..1] == [a] && [a][..0] == [];
    assert Walk(servers, []) == [] && OfServer(a, [t]) == [Met(a, t)] && OfServer(b, [u]) == [Met(b, u)];
    assert Walk(servers, [a]) == [Met(a, t)];
  }
}
