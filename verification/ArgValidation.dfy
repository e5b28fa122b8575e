/**
 The placeholder scan of validate.go: for every iteration order it reports exactly the
 bad strings reached through objects, and renaming keys cannot introduce one.
 `norm` stands for strings.TrimSpace(strings.ToLower(·)).
 */
module ArgValidation {
  import opened Basics
  import opened Texts
  import opened Json
  import opened ArgTransform

  const INVALID_VALUES: set<string> := {"undefined", "null", "none", "unknown", "<unknown>", "<none>"}

  predicate Placeholder(norm: string -> string, s: string) {
    norm(s) == "" || norm(s) in INVALID_VALUES
  }

  type Path = seq<string>

  /** At `path`, through objects only, sits a placeholder string. */
  ghost predicate BadAt(norm: string -> string, v: Json, path: Path) {
    var x := At(v, path);
    x.Some? && x.value.Str? && Placeholder(norm, x.value.s)
  }

  /** The key of a member under a dotted prefix. */
  function Under(prefix: string, k: string): string {
    if prefix != "" then prefix + "." + k else k
  }

  function Dotted(prefix: string, path: Path): string
    decreases |path|
  {
    if path == [] then prefix else Dotted(Under(prefix, path[0]), path[1..])
  }

  /** `paths` lists every bad place in v once. */
  ghost predicate Lists(norm: string -> string, v: Json, paths: seq<Path>) {
    && Distinct(paths)
    && forall p: Path :: p in paths <==> BadAt(norm, v, p)
  }

  function DottedAll(prefix: string, paths: seq<Path>): (r: seq<string>)
    ensures |r| == |paths|
    ensures forall i :: 0 <= i < |paths| ==> r[i] == Dotted(prefix, paths[i])
  {
    seq(|paths|, i requires 0 <= i < |paths| => Dotted(prefix, paths[i]))
  }

  /** Prefix every path with one key. */
  ghost function Below(k: string, paths: seq<Path>): (r: seq<Path>)
    ensures |r| == |paths|
    ensures forall i :: 0 <= i < |paths| ==> r[i] == [k] + paths[i]
  {
    seq(|paths|, i requires 0 <= i < |paths| => [k] + paths[i])
  }

  /** Lists the bad places of an object whose first key has been visited. */
  ghost predicate ListsVisited(norm: string -> string, m: Fields, rest: set<string>, paths: seq<Path>) {
    && Distinct(paths)
    && forall p: Path :: p in paths <==> p != [] && p[0] !in rest && BadAt(norm, Obj(m), p)
  }

  lemma InBelow(k: string, paths: seq<Path>, p: Path)
    ensures p in Below(k, paths) <==> p != [] && p[0] == k && p[1..] in paths
  {
    if p != [] && p[0] == k && p[1..] in paths {
      var i :| 0 <= i < |paths| && paths[i] == p[1..];
      assert Below(k, paths)[i] == [k] + p[1..] == p;
    }
    if p in Below(k, paths) {
      var i :| 0 <= i < |paths| && Below(k, paths)[i] == p;
      assert p[1..] == paths[i];
    }
  }

  lemma VisitOne(norm: string -> string, m: Fields, rest: set<string>, k: string,
                 sofar: seq<Path>, found: seq<Path>)
    requires k in rest && rest <= m.Keys
    requires ListsVisited(norm, m, rest, sofar) && Lists(norm, m[k], found)
    ensures ListsVisited(norm, m, rest - {k}, sofar + Below(k, found))
  {
    var more := Below(k, found);
    forall p: Path
      ensures p in sofar + more <==> p != [] && p[0] !in rest - {k} && BadAt(norm, Obj(m), p)
    {
      InBelow(k, found, p);
      assert p in sofar + more <==> p in sofar || p in more;
    }
    forall i, j | 0 <= i < j < |sofar + more|
      ensures (sofar + more)[i] != (sofar + more)[j]
    {
      if i < |sofar| <= j {
        assert sofar[i] in sofar;
        assert more[j - |sofar|][0] == k;
      } else if |sofar| <= i {
        assert more[i - |sofar|][1..] == found[i - |sofar|];
        assert more[j - |sofar|][1..] == found[j - |sofar|];
      }
    }
  }

  lemma DottedBelow(prefix: string, k: string, sofar: seq<Path>, found: seq<Path>)
    ensures DottedAll(prefix, sofar + Below(k, found)) == DottedAll(prefix, sofar) + DottedAll(Under(prefix, k), found)
  {
    forall i | 0 <= i < |found|
      ensures Dotted(prefix, Below(k, found)[i]) == Dotted(Under(prefix, k), found[i])
    {
      assert Below(k, found)[i][1..] == found[i];
    }
  }

  lemma LeafPlaces(norm: string -> string, v: Json)
    requires !v.Obj?
    ensures Lists(norm, v, if v.Str? && Placeholder(norm, v.s) then [[]] else [])
  {
    forall p: Path
      ensures BadAt(norm, v, p) <==> p == [] && v.Str? && Placeholder(norm, v.s)
    {
      assert p != [] ==> At(v, p).None?;
    }
  }

  lemma NothingVisited(norm: string -> string, m: Fields)
    ensures ListsVisited(norm, m, m.Keys, [])
  {
  }

  lemma AllVisited(norm: string -> string, m: Fields, paths: seq<Path>)
    requires ListsVisited(norm, m, {}, paths)
    ensures Lists(norm, Obj(m), paths)
  {
    forall p: Path
      ensures p in paths <==> BadAt(norm, Obj(m), p)
    {
    }
  }

  lemma Regroup(a: seq<string>, b: seq<string>, c: seq<string>)
    ensures (a + b) + c == a + (b + c)
  {
  }

  lemma NothingDotted(prefix: string)
    ensures DottedAll(prefix, []) == []
  {
  }

  lemma LeafDotted(prefix: string)
    ensures DottedAll(prefix, [[]]) == [prefix]
  {
  }

  /** The slice the scan appends to. */
  class Report {
    var paths: seq<string>

    constructor ()
      ensures paths == []
    {
      paths := [];
    }

    /** walkArgs: appends the dotted path of every bad place in v, each once, in some order. */
    method Walk(norm: string -> string, v: Json, prefix: string) returns (ghost found: seq<Path>)
      modifies this
      ensures Lists(norm, v, found)
      ensures paths == old(paths) + DottedAll(prefix, found)
      decreases v
    {
      hide Lists, ListsVisited, Below, DottedAll, Dotted, BadAt;
      found := [];
      if v.Obj? {
        var rest := v.fields.Keys;
        NothingVisited(norm, v.fields);
        NothingDotted(prefix);
        while rest != {}
          invariant rest <= v.fields.Keys
          invariant ListsVisited(norm, v.fields, rest, found)
          invariant paths == old(paths) + DottedAll(prefix, found)
          decreases |rest|
        {
          var k :| k in rest;
          var key := k;
          if prefix != "" {
            key := prefix + "." + k;
          }
          ghost var before := paths;
          ghost var more := Walk(norm, v.fields[k], key);
          VisitOne(norm, v.fields, rest, k, found, more);
          DottedBelow(prefix, k, found, more);
          Regroup(old(paths), DottedAll(prefix, found), DottedAll(key, more));
          found := found + Below(k, more);
          rest := rest - {k};
        }
        AllVisited(norm, v.fields, found);
      } else {
        LeafPlaces(norm, v);
        LeafDotted(prefix);
        NothingDotted(prefix);
        if v.Str? {
          var n := norm(v.s);
          if n == "" || n in INVALID_VALUES {
            paths := paths + [prefix];
            found := [[]];
          }
        }
      }
    }
  }

  /** `bad` names every bad place once, in some order. */
  ghost predicate Exact(norm: string -> string, v: Json, bad: seq<string>) {
    exists paths :: Lists(norm, v, paths) && bad == DottedAll("", paths)
  }

  method FindInvalidArgs(norm: string -> string, args: Fields) returns (bad: seq<string>)
    ensures Exact(norm, Obj(args), bad)
  {
    var report := new Report();
    ghost var found := report.Walk(norm, Obj(args), "");
    bad := report.paths;
    assert bad == DottedAll("", found);
  }

  // ---- the report does not depend on the order -------------------------------------------

  ghost function Remove<T>(xs: seq<T>, i: nat): seq<T>
    requires i < |xs|
  {
    xs[..i] + xs[i + 1..]
  }

  lemma RemoveKeepsOthers(b: seq<Path>, i: nat)
    requires Distinct(b) && i < |b|
    ensures Distinct(Remove(b, i))
    ensures forall p: Path :: p in Remove(b, i) <==> p in b && p != b[i]
  {
    var b' := Remove(b, i);
    forall p: Path | p in b && p != b[i]
      ensures p in b'
    {
      var j :| 0 <= j < |b| && b[j] == p;
      assert b'[if j < i then j else j - 1] == p;
    }
  }

  lemma CountRemove<T>(xs: seq<T>, i: nat)
    requires i < |xs|
    ensures multiset(xs) == multiset(Remove(xs, i)) + multiset{xs[i]}
  {
    assert xs == xs[..i] + [xs[i]] + xs[i + 1..];
  }

  lemma DottedRemove(b: seq<Path>, i: nat)
    requires i < |b|
    ensures DottedAll("", Remove(b, i)) == Remove(DottedAll("", b), i)
  {
  }

  lemma HasMember(b: seq<Path>)
    requires b != []
    ensures exists p: Path :: p in b
  {
    assert b[0] in b;
  }

  /** Two listings of the same places give the same dotted paths, counted. */
  lemma {:induction false} SamePlacesSamePaths(a: seq<Path>, b: seq<Path>)
    requires Distinct(a) && Distinct(b)
    requires forall p: Path :: p in a <==> p in b
    ensures multiset(DottedAll("", a)) == multiset(DottedAll("", b))
    decreases |a|
  {
    if a == [] {
      if b != [] {
        HasMember(b);
      }
    } else {
      assert a[0] in b;
      var i :| 0 <= i < |b| && b[i] == a[0];
      RemoveKeepsOthers(a, 0);
      RemoveKeepsOthers(b, i);
      SamePlacesSamePaths(Remove(a, 0), Remove(b, i));
      DottedRemove(a, 0);
      DottedRemove(b, i);
      CountRemove(DottedAll("", a), 0);
      CountRemove(DottedAll("", b), i);
    }
  }

  /** Keys that are neither empty nor contain a dot. */
  ghost predicate PlainPath(path: Path) {
    forall i :: 0 <= i < |path| ==> path[i] != "" && '.' !in path[i]
  }

  lemma {:induction false} DottedUnder(prefix: string, path: Path)
    requires path != [] && prefix != "" && PlainPath(path)
    ensures Dotted(prefix, path) == prefix + "." + Dotted(path[0], path[1..])
    decreases |path|
  {
    var head, rest := path[0], path[1..];
    if rest != [] {
      DottedUnder(prefix + "." + head, rest);
      DottedUnder(head, rest);
    }
  }

  /** A reported path is its keys joined with dots: it splits back into them. */
  lemma {:induction false} DottedSplits(path: Path)
    requires path != [] && PlainPath(path)
    ensures Split(Dotted("", path), '.') == path
    decreases |path|
  {
    var head, rest := path[0], path[1..];
    assert Dotted("", path) == Dotted(head, rest);
    if rest == [] {
      SplitPlain(head, '.');
      assert path == [head];
    } else {
      DottedUnder(head, rest);
      assert Dotted(rest[0], rest[1..]) == Dotted("", rest);
      assert Dotted("", path) == head + ['.'] + Dotted("", rest);
      SplitHead(head, '.', Dotted("", rest));
      DottedSplits(rest);
      assert path == [head] + rest;
    }
  }

  /** One string argument is reported, under its key, exactly when it normalises to nothing or to one of six words. */
  lemma SixPlaceholders(norm: string -> string, k: string, s: string, bad: seq<string>)
    requires Exact(norm, Obj(map[k := Str(s)]), bad)
    ensures var n := norm(s);
      bad == if n == "" || n == "undefined" || n == "null" || n == "none" || n == "unknown" || n == "<unknown>" || n == "<none>"
             then [k] else []
  {
    var v := Obj(map[k := Str(s)]);
    var paths :| Lists(norm, v, paths) && bad == DottedAll("", paths);
    assert [k][1..] == [];
    forall p: Path
      ensures BadAt(norm, v, p) <==> p == [k] && Placeholder(norm, s)
    {
      if p != [] && p[0] == k {
        assert p == [k] + p[1..];
        assert At(v, p) == At(Str(s), p[1..]);
      }
    }
    if Placeholder(norm, s) {
      assert [k] in paths;
      OnlyOne(paths, [k]);
      assert Dotted("", [k]) == Dotted(k, []) == k;
    } else {
      NoPath(paths);
    }
  }

  lemma NoPath(paths: seq<Path>)
    ensures paths == [] <==> forall p: Path :: p !in paths
  {
    if paths != [] {
      assert paths[0] in paths;
    }
  }

  lemma TwoPaths(paths: seq<Path>) returns (p: Path, q: Path)
    requires Distinct(paths) && |paths| >= 2
    ensures p in paths && q in paths && p != q
  {
    p, q := paths[0], paths[1];
  }

  lemma OnlyOne(paths: seq<Path>, p: Path)
    requires Distinct(paths) && p in paths && forall q :: q in paths ==> q == p
    ensures paths == [p]
  {
    forall i | 0 <= i < |paths|
      ensures paths[i] == p
    {
      assert paths[i] in paths;
    }
    if |paths| >= 2 {
      var a, b := TwoPaths(paths);
      assert false;
    }
  }

  /** Whatever the iteration orders, two scans report the same paths, counted. */
  lemma ReportsAgree(norm: string -> string, v: Json, bad: seq<string>, bad': seq<string>)
    requires Exact(norm, v, bad) && Exact(norm, v, bad')
    ensures multiset(bad) == multiset(bad')
  {
    var a :| Lists(norm, v, a) && bad == DottedAll("", a);
    var b :| Lists(norm, v, b) && bad' == DottedAll("", b);
    SamePlacesSamePaths(a, b);
  }

  // ---- stability under renaming ----------------------------------------------------------

  ghost predicate Clean(norm: string -> string, v: Json) {
    forall p: Path :: !BadAt(norm, v, p)
  }

  lemma EmptyReportIffClean(norm: string -> string, v: Json, bad: seq<string>)
    requires Exact(norm, v, bad)
    ensures bad == [] <==> Clean(norm, v)
  {
    var paths :| Lists(norm, v, paths) && bad == DottedAll("", paths);
    if bad == [] {
      assert paths == [];
    } else {
      assert paths[0] in paths;
    }
  }

  /** Every bad place after camelCase was a bad place before. */
  lemma {:induction false} CamelReflectsBad(norm: string -> string, v: Json, o: Json, p: Path) returns (q: Path)
    requires IsCamel(v, o) && BadAt(norm, o, p)
    ensures BadAt(norm, v, q)
    decreases |p|
  {
    if p == [] {
      q := [];
    } else {
      var k :| k in v.fields && Camel(k) == p[0] && IsCamel(v.fields[k], o.fields[p[0]]);
      var rest := CamelReflectsBad(norm, v.fields[k], o.fields[p[0]], p[1..]);
      q := [k] + rest;
      assert q[1..] == rest;
    }
  }

  lemma MapReflectsBad(norm: string -> string, fm: FieldMap, m: Fields, out: Fields, p: Path) returns (q: Path)
    requires IsMapped(fm, m, out) && BadAt(norm, Obj(out), p)
    ensures BadAt(norm, Obj(m), q)
  {
    var k :| k in m && Rename(fm, k) == p[0] && out[p[0]] == m[k];
    q := [k] + p[1..];
    assert q[1..] == p[1..];
  }

  /** An empty report stays empty after camelCase and the field map, even where keys collide. */
  lemma ScanIsStable(norm: string -> string, v: Json, o: Json, fm: FieldMap, out: Fields)
    requires Clean(norm, v) && v.Obj? && IsCamel(v, o) && IsMapped(fm, o.fields, out)
    ensures Clean(norm, o) && Clean(norm, Obj(out))
  {
    forall p: Path
      ensures !BadAt(norm, o, p)
    {
      if BadAt(norm, o, p) {
        var q := CamelReflectsBad(norm, v, o, p);
      }
    }
    forall p: Path
      ensures !BadAt(norm, Obj(out), p)
    {
      if BadAt(norm, Obj(out), p) {
        var q := MapReflectsBad(norm, fm, o.fields, out, p);
      }
    }
  }

  // ---- joinArrays can introduce a placeholder --------------------------------------------

  /** At every place reached through objects, joinArrays replaces an array of strings by its joined text and leaves any other leaf alone. */
  lemma JoinReplacesStringArrays(v: Json, p: Path)
    requires At(v, p).Some? && !At(v, p).value.Obj?
    ensures var x := At(v, p).value;
      && (x.Arr? && (forall i :: 0 <= i < |x.items| ==> x.items[i].Str?) ==>
            At(Joined(v), p) == Some(Str(Spaced(seq(|x.items|, i requires 0 <= i < |x.items| => x.items[i].s)))))
      && (!(x.Arr? && (forall i :: 0 <= i < |x.items| ==> x.items[i].Str?)) ==> At(Joined(v), p) == Some(x))
  {
    AtJoined(v, p);
    var x := At(v, p).value;
    if x.Arr? && (forall i :: 0 <= i < |x.items| ==> x.items[i].Str?) {
      assert Strings(x.items) == seq(|x.items|, i requires 0 <= i < |x.items| => x.items[i].s);
    }
  }

  /** At `p` sits an array of strings that joins to a placeholder. */
  ghost predicate JoinsToPlaceholder(norm: string -> string, v: Json, p: Path) {
    var x := At(v, p);
    x.Some? && x.value.Arr? && AllStrings(x.value.items) && Placeholder(norm, Spaced(Strings(x.value.items)))
  }

  lemma {:induction false} AtJoined(v: Json, p: Path)
    ensures At(Joined(v), p) == if At(v, p).Some? then Some(Joined(At(v, p).value)) else None
    decreases |p|
  {
    if p != [] && v.Obj? && p[0] in v.fields {
      AtJoined(v.fields[p[0]], p[1..]);
    }
  }

  /** After joinArrays the scan stays empty exactly when no array of strings joins to a placeholder. */
  lemma JoinStaysCleanIff(norm: string -> string, v: Json)
    requires Clean(norm, v)
    ensures Clean(norm, Joined(v)) <==> forall p: Path :: !JoinsToPlaceholder(norm, v, p)
  {
    forall p: Path
      ensures BadAt(norm, Joined(v), p) <==> JoinsToPlaceholder(norm, v, p)
    {
      AtJoined(v, p);
      assert !BadAt(norm, v, p);
    }
  }

  /** An empty array passes the scan and becomes an empty string, which does not. */
  lemma JoinCanIntroduceBad(norm: string -> string, k: string)
    requires norm("") == ""
    ensures Clean(norm, Obj(map[k := Arr([])])) && !Clean(norm, Joined(Obj(map[k := Arr([])])))
  {
    var v := Obj(map[k := Arr([])]);
    forall p: Path
      ensures !BadAt(norm, v, p)
    {
      if p != [] && p[0] == k {
        assert At(Arr([]), p[1..]) == if p[1..] == [] then Some(Arr([])) else None;
      }
    }
    AtJoined(v, [k]);
    assert [k][1..] == [];
    assert At(v, [k]) == Some(Arr([]));
    assert BadAt(norm, Joined(v), [k]);
  }
}
