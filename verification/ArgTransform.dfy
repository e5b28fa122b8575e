/**
 The argument transformers (transform.go). A Go map is visited in an arbitrary order, so
 each map loop takes any remaining key next, and its specification says which results
 some order can produce. Strings are byte strings: every char is one byte.
 */
module ArgTransform {
  import opened Basics
  import opened Texts
  import opened Json

  // ---- snakeToCamel ------------------------------------------------------------------

  /** strings.ToUpper of a one-byte string: a lone non-ASCII byte becomes U+FFFD. */
  function Upper(c: char): (r: string)
    ensures c != '_' ==> '_' !in r
  {
    if 'a' <= c <= 'z' then [(c as int - 32) as char]
    else if c < '\U{80}' then [c]
    else ['\U{EF}', '\U{BF}', '\U{BD}']
  }

  function Capitalize(p: string): string {
    if p == "" then "" else Upper(p[0]) + p[1..]
  }

  /** Byte by byte: drop underscores and capitalise the byte after one. */
  function Camelize(s: string, afterUnderscore: bool): string {
    if s == "" then ""
    else if s[0] == '_' then Camelize(s[1..], true)
    else (if afterUnderscore then Upper(s[0]) else [s[0]]) + Camelize(s[1..], false)
  }

  function Camel(s: string): string {
    Camelize(s, false)
  }

  function Capitalized(parts: seq<string>): string {
    if parts == [] then "" else Capitalize(parts[0]) + Capitalized(parts[1..])
  }

  lemma Associative(a: string, b: string, c: string)
    ensures a + (b + c) == (a + b) + c
  {
  }

  lemma {:induction false} CamelizeSplits(s: string, up: bool)
    ensures Camelize(s, up) ==
      (if up then Capitalize(Split(s, '_')[0]) else Split(s, '_')[0]) + Capitalized(Split(s, '_')[1..])
  {
    if s != "" {
      var rest := Split(s[1..], '_');
      var tail := Capitalized(rest[1..]);
      if s[0] == '_' {
        CamelizeSplits(s[1..], true);
        assert Split(s, '_')[0] == "" && Split(s, '_')[1..] == rest;
        assert Camelize(s, up) == Capitalized(rest);
        assert Capitalized(rest) == "" + Capitalized(rest);
      } else {
        CamelizeSplits(s[1..], false);
        var head := if up then Upper(s[0]) else [s[0]];
        assert Split(s, '_')[1..] == rest[1..];
        assert ([s[0]] + rest[0])[1..] == rest[0];
        Associative(head, rest[0], tail);
      }
    }
  }

  lemma CapitalizedStep(parts: seq<string>, r: string, i: nat)
    requires i < |parts|
    ensures r + Capitalized(parts[i..]) == (r + Capitalize(parts[i])) + Capitalized(parts[i + 1..])
  {
    assert parts[i..][1..] == parts[i + 1..];
    Associative(r, Capitalize(parts[i]), Capitalized(parts[i + 1..]));
  }

  /** One part, its first byte upper-cased. */
  method AppendCapitalized(r: string, p: string) returns (r': string)
    ensures r' == r + Capitalize(p)
  {
    r' := r;
    if |p| != 0 {
      r' := r' + Upper(p[0]);
      r' := r' + p[1..];
    }
  }

  method SnakeToCamel(s: string) returns (r: string)
    ensures r == Camel(s)
  {
    var parts := Split(s, '_');
    CamelizeSplits(s, false);
    hide Camelize, Split;
    if |parts| == 1 {
      SplitOnce(s, '_');
      assert Capitalized(parts[1..]) == "";
      return s;
    }
    r := parts[0];
    ghost var camel := Camel(s);
    assert r + Capitalized(parts[1..]) == camel;
    assert Capitalized([]) == "";
    hide Camel, Capitalized, Capitalize;
    for i := 1 to |parts|
      invariant r + Capitalized(parts[i..]) == camel
    {
      CapitalizedStep(parts, r, i);
      r := AppendCapitalized(r, parts[i]);
    }
  }

  lemma {:induction false} CamelizeDropsUnderscores(s: string, up: bool)
    ensures '_' !in Camelize(s, up)
  {
    if s != "" {
      CamelizeDropsUnderscores(s[1..], s[0] == '_');
    }
  }

  lemma {:induction false} CamelOfPlain(s: string)
    requires '_' !in s
    ensures Camel(s) == s
  {
    if s != "" {
      CamelOfPlain(s[1..]);
    }
  }

  // ---- camelCase ---------------------------------------------------------------------

  /** What becomes of the byte at i: an underscore goes; a byte right after one is upper-cased if it is a letter. */
  function Image(s: string, i: nat): string
    requires i < |s|
  {
    if s[i] == '_' then ""
    else if i == 0 || s[i - 1] != '_' || (s[i] < '\U{80}' && !('a' <= s[i] <= 'z')) then [s[i]]
    else if s[i] < '\U{80}' then [(s[i] as int - 32) as char]
    else ['\U{EF}', '\U{BF}', '\U{BD}']
  }

  /** The images of the first n bytes, one after the other. */
  function Images(s: string, n: nat): string
    requires n <= |s|
  {
    if n == 0 then "" else Images(s, n - 1) + Image(s, n - 1)
  }

  predicate AfterUnderscore(s: string, i: nat)
    requires i <= |s|
  {
    i > 0 && s[i - 1] == '_'
  }

  lemma {:induction false} CamelizeFrom(s: string, i: nat)
    requires i <= |s|
    ensures Images(s, i) + Camelize(s[i..], AfterUnderscore(s, i)) == Images(s, |s|)
    decreases |s| - i
  {
    if i < |s| {
      CamelizeFrom(s, i + 1);
      assert s[i..][0] == s[i] && s[i..][1..] == s[i + 1..];
      var rest := Camelize(s[i + 1..], AfterUnderscore(s, i + 1));
      assert Camelize(s[i..], AfterUnderscore(s, i)) == Image(s, i) + rest;
      Associative(Images(s, i), Image(s, i), rest);
    }
  }

  /** The renamed key, byte by byte, for every key. */
  lemma CamelByteByByte(s: string)
    ensures Camel(s) == Images(s, |s|)
  {
    CamelizeFrom(s, 0);
    assert s[0..] == s;
  }

  /** The places of the bytes that stay, from i on, in order. */
  function Kept(s: string, i: nat): seq<nat>
    requires i <= |s|
    decreases |s| - i
  {
    if i == |s| then [] else if s[i] == '_' then Kept(s, i + 1) else [i] + Kept(s, i + 1)
  }

  /** The byte at i, as it appears in the renamed key. */
  function Cased(s: string, i: nat): char
    requires i < |s|
  {
    if i > 0 && s[i - 1] == '_' && 'a' <= s[i] <= 'z' then (s[i] as int - 32) as char else s[i]
  }

  lemma {:induction false} KeptFrom(s: string, i: nat)
    requires i <= |s| && forall j :: i <= j < |s| && AfterUnderscore(s, j) ==> s[j] < '\U{80}'
    ensures var r, kept := Camelize(s[i..], AfterUnderscore(s, i)), Kept(s, i);
      && |r| == |kept|
      && (forall p :: 0 <= p < |kept| ==> i <= kept[p] < |s| && s[kept[p]] != '_' && r[p] == Cased(s, kept[p]))
    decreases |s| - i
  {
    if i < |s| {
      KeptFrom(s, i + 1);
      assert s[i..][0] == s[i] && s[i..][1..] == s[i + 1..];
    }
  }

  /**
   Where no byte beyond ASCII follows an underscore, the renamed key consists of the other
   bytes in order, a lower-case letter right after an underscore upper-cased.
   */
  lemma CamelPositions(s: string)
    requires forall j :: 0 < j < |s| && s[j - 1] == '_' ==> s[j] < '\U{80}'
    ensures |Camel(s)| == |Kept(s, 0)|
    ensures forall p :: 0 <= p < |Camel(s)| ==> Kept(s, 0)[p] < |s| && Camel(s)[p] == Cased(s, Kept(s, 0)[p])
  {
    KeptFrom(s, 0);
    assert s[0..] == s;
  }

  function CamelKeys(m: Fields): set<string> {
    set k | k in m :: Camel(k)
  }

  /**
   Some iteration order turns v into o: at every object reached through objects the keys
   are exactly the camelCase keys, and each holds the outcome of one of the members
   renamed to it.
   */
  ghost predicate IsCamel(v: Json, o: Json) {
    match v
    case Obj(m) =>
      && o.Obj? && o.fields.Keys == CamelKeys(m)
      && forall k' :: k' in o.fields ==>
           exists k :: k in m && Camel(k) == k' && IsCamel(m[k], o.fields[k'])
    case _ => o == v
  }

  method SnakeToCamelKeys(m: Fields) returns (out: Fields)
    ensures IsCamel(Obj(m), Obj(out))
    decreases Obj(m)
  {
    out := map[];
    var rest := m.Keys;
    while rest != {}
      invariant rest <= m.Keys
      invariant out.Keys == set k | k in m && k !in rest :: Camel(k)
      invariant forall k' :: k' in out ==>
        exists k :: k in m && k !in rest && Camel(k) == k' && IsCamel(m[k], out[k'])
      decreases |rest|
    {
      var k :| k in rest;
      var v := m[k];
      if v.Obj? {
        var nested := SnakeToCamelKeys(v.fields);
        v := Obj(nested);
      }
      assert IsCamel(m[k], v);
      var name := SnakeToCamel(k);
      ghost var before := out;
      out := out[name := v];
      rest := rest - {k};
      forall k' | k' in out
        ensures exists j :: j in m && j !in rest && Camel(j) == k' && IsCamel(m[j], out[k'])
      {
        if k' != name {
          assert k' in before;
        }
      }
    }
  }

  /** No key reached through objects contains an underscore. */
  ghost predicate Plain(v: Json) {
    v.Obj? ==> forall k :: k in v.fields ==> '_' !in k && Plain(v.fields[k])
  }

  lemma {:induction false} CamelIsPlain(v: Json, o: Json)
    requires IsCamel(v, o)
    ensures Plain(o)
  {
    if v.Obj? {
      forall k' | k' in o.fields
        ensures '_' !in k' && Plain(o.fields[k'])
      {
        var k :| k in v.fields && Camel(k) == k' && IsCamel(v.fields[k], o.fields[k']);
        CamelizeDropsUnderscores(k, false);
        CamelIsPlain(v.fields[k], o.fields[k']);
      }
    }
  }

  lemma {:induction false} CamelOfPlainJson(v: Json, o: Json)
    requires Plain(v) && IsCamel(v, o)
    ensures o == v
  {
    hide Camel;
    if v.Obj? {
      forall k | k in v.fields
        ensures Camel(k) == k
      {
        CamelOfPlain(k);
      }
      assert o.fields.Keys == v.fields.Keys;
      forall k' | k' in o.fields
        ensures o.fields[k'] == v.fields[k']
      {
        var k :| k in v.fields && Camel(k) == k' && IsCamel(v.fields[k], o.fields[k']);
        CamelOfPlainJson(v.fields[k], o.fields[k']);
      }
      assert o.fields == v.fields;
    }
  }

  /** camelCase is idempotent, whatever orders the two passes use and however keys collide. */
  lemma CamelIsIdempotent(v: Json, o: Json, again: Json)
    requires IsCamel(v, o) && IsCamel(o, again)
    ensures again == o
  {
    CamelIsPlain(v, o);
    CamelOfPlainJson(o, again);
  }

  // ---- order-independence --------------------------------------------------------------

  ghost function Renamed(m: Fields, k': string): (k: string)
    requires k' in CamelKeys(m)
    ensures k in m && Camel(k) == k'
  {
    var k :| k in m && Camel(k) == k'; k
  }

  /** One outcome. */
  ghost function AnyCamel(v: Json): (o: Json) {
    match v
    case Obj(m) => Obj(map k' | k' in CamelKeys(m) :: AnyCamel(m[Renamed(m, k')]))
    case _ => v
  }

  lemma {:induction false} AnyCamelIsOne(v: Json)
    ensures IsCamel(v, AnyCamel(v))
  {
    if v.Obj? {
      var o := AnyCamel(v);
      assert o.fields.Keys == CamelKeys(v.fields);
      forall k' | k' in o.fields
        ensures exists k :: k in v.fields && Camel(k) == k' && IsCamel(v.fields[k], o.fields[k'])
      {
        var k := Renamed(v.fields, k');
        AnyCamelIsOne(v.fields[k]);
      }
    }
  }

  // ---- every outcome has an order ------------------------------------------------------

  /** An order in which to visit an object's members, and one for each nested object. */
  datatype Order = Order(keys: seq<string>, nested: map<string, Order>)

  /** It visits each member of the value exactly once, at every level. */
  ghost predicate Orders(v: Json, order: Order) {
    v.Obj? ==>
      && Distinct(order.keys)
      && (forall k :: k in order.keys <==> k in v.fields)
      && (forall k :: k in v.fields ==> k in order.nested && Orders(v.fields[k], order.nested[k]))
  }

  /** Write the renamed members one after the other; a later one overwrites an earlier one. */
  function Writes(values: Fields, keys: seq<string>): Fields
    requires forall k :: k in keys ==> k in values
    decreases |keys|
  {
    if keys == [] then map[]
    else
      var k := keys[|keys| - 1];
      Writes(values, keys[..|keys| - 1])[Camel(k) := values[k]]
  }

  /** snakeToCamelKeys, visiting members in the given order. */
  ghost function CamelBy(v: Json, order: Order): Json
    requires Orders(v, order)
    decreases v
  {
    match v
    case Obj(m) => Obj(Writes(map k | k in m :: CamelBy(m[k], order.nested[k]), order.keys))
    case _ => v
  }

  /** What is under a key was written by the last member renamed to it. */
  ghost predicate LastWriter(keys: seq<string>, n: int, k': string) {
    0 <= n < |keys| && Camel(keys[n]) == k' && forall j :: n < j < |keys| ==> Camel(keys[j]) != k'
  }

  lemma {:induction false} WrittenLast(values: Fields, keys: seq<string>, k': string)
    requires forall k :: k in keys ==> k in values
    ensures k' in Writes(values, keys) <==> exists n :: LastWriter(keys, n, k')
    ensures forall n :: LastWriter(keys, n, k') ==> Writes(values, keys)[k'] == values[keys[n]]
    decreases |keys|
  {
    hide Camel;
    if keys != [] {
      var m := |keys| - 1;
      WrittenLast(values, keys[..m], k');
      if Camel(keys[m]) == k' {
        assert LastWriter(keys, m, k');
        assert forall n :: LastWriter(keys, n, k') ==> n == m;
      } else {
        forall n
          ensures LastWriter(keys, n, k') <==> LastWriter(keys[..m], n, k')
        {
        }
      }
    }
  }

  /** The last of the keys that is renamed to k'. */
  lemma {:induction false} HasLastWriter(keys: seq<string>, k: string) returns (n: int)
    requires k in keys
    ensures LastWriter(keys, n, Camel(k))
    decreases |keys|
  {
    var m := |keys| - 1;
    if Camel(keys[m]) == Camel(k) {
      n := m;
    } else {
      assert k in keys[..m] by {
        var i :| 0 <= i < |keys| && keys[i] == k;
        assert keys[..m][i] == k;
      }
      n := HasLastWriter(keys[..m], k);
    }
  }

  /** Every order produces an outcome. */
  lemma {:induction false} OrderGivesOutcome(v: Json, order: Order)
    requires Orders(v, order)
    ensures IsCamel(v, CamelBy(v, order))
    decreases v
  {
    if v.Obj? {
      var m, keys := v.fields, order.keys;
      var values := map k | k in m :: CamelBy(m[k], order.nested[k]);
      var out := Writes(values, keys);
      forall k'
        ensures k' in out <==> k' in CamelKeys(m)
        ensures k' in out ==> exists k :: k in m && Camel(k) == k' && IsCamel(m[k], out[k'])
      {
        WrittenLast(values, keys, k');
        if k' in CamelKeys(m) {
          var k :| k in m && Camel(k) == k';
          var n := HasLastWriter(keys, k);
          OrderGivesOutcome(m[keys[n]], order.nested[keys[n]]);
          assert IsCamel(m[keys[n]], out[k']);
        }
      }
    }
  }

  /** Some order for v that produces o. */
  ghost function SomeOrder(v: Json, o: Json): (order: Order)
    requires exists order :: Orders(v, order) && CamelBy(v, order) == o
    ensures Orders(v, order) && CamelBy(v, order) == o
  {
    var order :| Orders(v, order) && CamelBy(v, order) == o; order
  }

  /** The elements of a set, in some sequence. */
  lemma {:induction false} Enumerate(s: set<string>) returns (xs: seq<string>)
    ensures Distinct(xs) && forall x :: x in xs <==> x in s
    decreases |s|
  {
    if s == {} {
      xs := [];
    } else {
      var x :| x in s;
      var rest := Enumerate(s - {x});
      xs := rest + [x];
    }
  }

  /** Visiting the winners last lets each have the last word. */
  lemma WinnersLast(losers: seq<string>, winners: seq<string>, n: int)
    requires 0 <= n < |winners|
    requires forall i, j :: 0 <= i < j < |winners| ==> Camel(winners[i]) != Camel(winners[j])
    ensures LastWriter(losers + winners, |losers| + n, Camel(winners[n]))
  {
    var keys := losers + winners;
    forall j | |losers| + n < j < |keys|
      ensures Camel(keys[j]) != Camel(winners[n])
    {
      assert keys[j] == winners[j - |losers|];
    }
  }

  /** Each winner has the last word. */
  lemma WinnerDecides(values: Fields, losers: seq<string>, winners: seq<string>, n: int)
    requires 0 <= n < |winners| && forall k :: k in losers + winners ==> k in values
    requires forall i, j :: 0 <= i < j < |winners| ==> Camel(winners[i]) != Camel(winners[j])
    ensures var out := Writes(values, losers + winners); var k' := Camel(winners[n]);
      k' in out && out[k'] == values[winners[n]]
  {
    hide Camel, Writes;
    WinnersLast(losers, winners, n);
    WrittenLast(values, losers + winners, Camel(winners[n]));
    assert (losers + winners)[|losers| + n] == winners[n];
  }

  lemma {:induction false} WritesKeys(values: Fields, keys: seq<string>)
    requires forall k :: k in keys ==> k in values
    ensures forall k' :: k' in Writes(values, keys) <==> exists k :: k in keys && Camel(k) == k'
    decreases |keys|
  {
    hide Camel;
    if keys != [] {
      var m := |keys| - 1;
      WritesKeys(values, keys[..m]);
      assert keys == keys[..m] + [keys[m]];
    }
  }

  /** Some winner is renamed to k'. */
  ghost predicate HasWinner(winners: seq<string>, k': string) {
    exists n :: 0 <= n < |winners| && Camel(winners[n]) == k'
  }

  /** The winners are renamed to different keys of the result, and hold its values. */
  ghost predicate Decided(o: Fields, values: Fields, winners: seq<string>) {
    && (forall i, j :: 0 <= i < j < |winners| ==> Camel(winners[i]) != Camel(winners[j]))
    && (forall n :: 0 <= n < |winners| ==>
          winners[n] in values && Camel(winners[n]) in o && values[winners[n]] == o[Camel(winners[n])])
  }

  lemma DecidedAt(o: Fields, values: Fields, losers: seq<string>, winners: seq<string>, k': string)
    requires Decided(o, values, winners) && HasWinner(winners, k') && forall k :: k in losers + winners ==> k in values
    ensures var out := Writes(values, losers + winners); k' in o && k' in out && out[k'] == o[k']
  {
    hide Camel, Writes;
    var n :| 0 <= n < |winners| && Camel(winners[n]) == k';
    WinnerDecides(values, losers, winners, n);
  }

  /** So the result is what the winners say. */
  lemma WinnersDecide(m: Fields, o: Fields, values: Fields, losers: seq<string>, winners: seq<string>)
    requires o.Keys == CamelKeys(m) && values.Keys == m.Keys && Decided(o, values, winners)
    requires forall k :: k in losers + winners <==> k in m
    requires forall k' :: k' in o ==> HasWinner(winners, k')
    ensures Writes(values, losers + winners) == o
  {
    hide Camel, Writes, HasWinner, Decided;
    var keys := losers + winners;
    var out := Writes(values, keys);
    WritesKeys(values, keys);
    assert out.Keys == o.Keys;
    if out != o {
      var k' := DifferSomewhere(out, o);
      DecidedAt(o, values, losers, winners, k');
    }
  }

  /** Some member renamed to k' comes to what the result holds there. */
  ghost predicate HasSource(m: Fields, o: Fields, k': string) {
    k' in o && exists k :: k in m && Camel(k) == k' && IsCamel(m[k], o[k'])
  }

  ghost function Winner(m: Fields, o: Fields, k': string): (k: string)
    requires HasSource(m, o, k')
    ensures k in m && Camel(k) == k' && IsCamel(m[k], o[k'])
  {
    var k :| k in m && Camel(k) == k' && IsCamel(m[k], o[k']); k
  }

  /** One such member for each key of the result. */
  ghost function Winners(m: Fields, o: Fields): set<string>
    requires forall k' :: k' in o ==> HasSource(m, o, k')
  {
    set k' | k' in o :: Winner(m, o, k')
  }

  lemma HaveMembers(v: Json, o: Json)
    requires v.Obj? && IsCamel(v, o)
    ensures o.Obj? && o.fields.Keys == CamelKeys(v.fields)
    ensures forall k' :: k' in o.fields ==> HasSource(v.fields, o.fields, k')
  {
  }

  lemma WinnerFits(m: Fields, o: Fields, k: string)
    requires (forall k' :: k' in o ==> HasSource(m, o, k')) && k in Winners(m, o)
    ensures k in m && Camel(k) in o && k == Winner(m, o, Camel(k)) && IsCamel(m[k], o[Camel(k)])
  {
    hide HasSource, Camel;
  }

  /** A sequence of the winners decides the result, and has one for each of its keys. */
  lemma WinnersFit(m: Fields, o: Fields, values: Fields, winners: seq<string>)
    requires (forall k' :: k' in o ==> HasSource(m, o, k')) && values.Keys == m.Keys && Distinct(winners)
    requires forall k :: k in winners <==> k in Winners(m, o)
    requires forall k :: k in Winners(m, o) && k in values && Camel(k) in o ==> values[k] == o[Camel(k)]
    ensures Decided(o, values, winners) && forall k' :: k' in o ==> HasWinner(winners, k')
  {
    hide HasSource, Camel, Winners, IsCamel;
    forall n | 0 <= n < |winners|
      ensures winners[n] in values && Camel(winners[n]) in o && winners[n] == Winner(m, o, Camel(winners[n]))
    {
      WinnerFits(m, o, winners[n]);
    }
    forall k' | k' in o
      ensures HasWinner(winners, k')
    {
      WinnerIsListed(m, o, winners, k');
    }
  }

  lemma WinnerIsListed(m: Fields, o: Fields, winners: seq<string>, k': string)
    requires (forall k' :: k' in o ==> HasSource(m, o, k')) && k' in o
    requires forall k :: k in winners <==> k in Winners(m, o)
    ensures HasWinner(winners, k')
  {
    hide HasSource, Camel, IsCamel;
    var w := Winner(m, o, k');
    assert w in Winners(m, o);
    var n :| 0 <= n < |winners| && winners[n] == w;
  }

  /** What each member should come to: the winners what the result holds, the others anything. */
  ghost function Goals(m: Fields, o: Fields, winners: set<string>): Fields
    requires forall k :: k in winners ==> Camel(k) in o
  {
    map k | k in m :: if k in winners then o[Camel(k)] else AnyCamel(m[k])
  }

  lemma GoalIsOutcome(m: Fields, o: Fields, k: string)
    requires (forall k' :: k' in o ==> HasSource(m, o, k')) && k in m
    requires forall k :: k in Winners(m, o) ==> Camel(k) in o
    ensures IsCamel(m[k], Goals(m, o, Winners(m, o))[k])
  {
    hide HasSource, Camel, Winners, IsCamel, AnyCamel;
    AnyCamelIsOne(m[k]);
    if k in Winners(m, o) {
      WinnerFits(m, o, k);
    }
  }

  /** Losers first, then winners, visits every member once. */
  lemma LosersThenWinners(m: Fields, w: set<string>, losers: seq<string>, winners: seq<string>)
    requires w <= m.Keys && Distinct(losers) && Distinct(winners)
    requires (forall k :: k in losers <==> k in m && k !in w) && (forall k :: k in winners <==> k in w)
    ensures Distinct(losers + winners) && forall k :: k in losers + winners <==> k in m
  {
    forall i, j | 0 <= i < j < |losers + winners|
      ensures (losers + winners)[i] != (losers + winners)[j]
    {
      if i < |losers| <= j {
        assert losers[i] in losers && winners[j - |losers|] in winners;
      }
    }
  }

  /** Nested orders that meet the goals, with the members in a given sequence, make an order. */
  lemma OrderOfGoals(v: Json, goals: Fields, nested: map<string, Order>, keys: seq<string>)
    requires v.Obj? && nested.Keys == v.fields.Keys == goals.Keys
    requires forall k :: k in v.fields ==> Orders(v.fields[k], nested[k]) && CamelBy(v.fields[k], nested[k]) == goals[k]
    requires Distinct(keys) && forall k :: k in keys <==> k in v.fields
    ensures Orders(v, Order(keys, nested)) && CamelBy(v, Order(keys, nested)) == Obj(Writes(goals, keys))
  {
    hide Writes, Camel;
    var order := Order(keys, nested);
    assert Orders(v, order);
    assert goals == map k | k in v.fields :: CamelBy(v.fields[k], order.nested[k]);
  }

  /** Every outcome is produced by some order: winners last, nested orders chosen to match. */
  lemma {:induction false} OutcomeHasOrder(v: Json, o: Json)
    requires IsCamel(v, o)
    ensures exists order :: Orders(v, order) && CamelBy(v, order) == o
    decreases v
  {
    if !v.Obj? {
      assert Orders(v, Order([], map[]));
    } else {
      HaveMembers(v, o);
      hide Camel, Winners, IsCamel, Orders, CamelBy, AnyCamel, HasSource, HasWinner, CamelKeys, Decided;
      var m, w := v.fields, Winners(v.fields, o.fields);
      forall k | k in w
        ensures k in m && Camel(k) in o.fields
      {
        WinnerFits(m, o.fields, k);
      }
      var goals := Goals(m, o.fields, w);
      forall k | k in m
        ensures exists order :: Orders(m[k], order) && CamelBy(m[k], order) == goals[k]
      {
        GoalIsOutcome(m, o.fields, k);
        OutcomeHasOrder(m[k], goals[k]);
      }
      var nested := map k | k in m :: SomeOrder(m[k], goals[k]);
      var order := WinnersGoLast(v, o, goals, nested);
    }
  }

  lemma WinnersGoLast(v: Json, o: Json, goals: Fields, nested: map<string, Order>) returns (order: Order)
    requires v.Obj? && o.Obj? && o.fields.Keys == CamelKeys(v.fields) && nested.Keys == v.fields.Keys
    requires forall k' :: k' in o.fields ==> HasSource(v.fields, o.fields, k')
    requires forall k :: k in Winners(v.fields, o.fields) ==> k in v.fields && Camel(k) in o.fields
    requires goals == Goals(v.fields, o.fields, Winners(v.fields, o.fields))
    requires forall k :: k in v.fields ==> Orders(v.fields[k], nested[k]) && CamelBy(v.fields[k], nested[k]) == goals[k]
    ensures Orders(v, order) && CamelBy(v, order) == o
  {
    hide Camel, Winners, IsCamel, Orders, CamelBy, AnyCamel, HasSource, HasWinner, CamelKeys, Decided, Writes;
    var m, w := v.fields, Winners(v.fields, o.fields);
    var losers := Enumerate(m.Keys - w);
    var winners := Enumerate(w);
    LosersThenWinners(m, w, losers, winners);
    OrderOfGoals(v, goals, nested, losers + winners);
    WinnersFit(m, o.fields, goals, winners);
    WinnersDecide(m, o.fields, goals, losers, winners);
    order := Order(losers + winners, nested);
  }

  /** IsCamel is exactly what the loop can produce: the outcomes of its iteration orders. */
  lemma OutcomesAreOrders(v: Json, o: Json)
    ensures IsCamel(v, o) <==> exists order :: Orders(v, order) && CamelBy(v, order) == o
  {
    if IsCamel(v, o) {
      OutcomeHasOrder(v, o);
    }
    if order :| Orders(v, order) && CamelBy(v, order) == o {
      OrderGivesOutcome(v, order);
    }
  }

  /** Members renamed to the same key have the same, order-independent outcome. */
  ghost predicate Agreeing(v: Json) {
    v.Obj? ==>
      && (forall k :: k in v.fields ==> Agreeing(v.fields[k]))
      && (forall j, k :: j in v.fields && k in v.fields && Camel(j) == Camel(k) ==>
            AnyCamel(v.fields[j]) == AnyCamel(v.fields[k]))
  }

  /** Renaming is injective at every object reached through objects. */
  ghost predicate RenamesInjectively(v: Json) {
    v.Obj? ==>
      && (forall k :: k in v.fields ==> RenamesInjectively(v.fields[k]))
      && (forall j, k :: j in v.fields && k in v.fields && Camel(j) == Camel(k) ==> j == k)
  }

  lemma {:induction false} InjectiveIsAgreeing(v: Json)
    requires RenamesInjectively(v)
    ensures Agreeing(v)
  {
    if v.Obj? {
      forall k | k in v.fields
        ensures Agreeing(v.fields[k])
      {
        InjectiveIsAgreeing(v.fields[k]);
      }
    }
  }

  lemma AgreeingAt(v: Json, k: string)
    requires v.Obj? && Agreeing(v) && k in v.fields
    ensures Agreeing(v.fields[k])
    ensures var a := AnyCamel(v).fields; Camel(k) in a && a[Camel(k)] == AnyCamel(v.fields[k])
  {
    hide Camel;
    assert Camel(k) in CamelKeys(v.fields);
  }

  lemma {:induction false} AgreeingHasOneOutcome(v: Json, o: Json)
    requires Agreeing(v) && IsCamel(v, o)
    ensures o == AnyCamel(v)
  {
    hide Camel, Agreeing;
    if v.Obj? {
      var a := AnyCamel(v);
      assert o.fields.Keys == a.fields.Keys;
      hide AnyCamel;
      if o.fields != a.fields {
        var k' := DifferSomewhere(o.fields, a.fields);
        var k :| k in v.fields && Camel(k) == k' && IsCamel(v.fields[k], o.fields[k']);
        AgreeingAt(v, k);
        AgreeingHasOneOutcome(v.fields[k], o.fields[k']);
      }
      assert a.Obj?;
    }
  }

  /** Giving the last word to member k yields another outcome. */
  lemma LastWord(v: Json, k: string, x: Json)
    requires v.Obj? && k in v.fields && IsCamel(v.fields[k], x)
    ensures IsCamel(v, Obj(AnyCamel(v).fields[Camel(k) := x]))
  {
    AnyCamelIsOne(v);
    var a := AnyCamel(v).fields;
    var o := a[Camel(k) := x];
    assert o.Keys == CamelKeys(v.fields);
    forall k' | k' in o
      ensures exists j :: j in v.fields && Camel(j) == k' && IsCamel(v.fields[j], o[k'])
    {
      if k' != Camel(k) {
        assert k' in a && o[k'] == a[k'];
      }
    }
  }

  lemma {:induction false} DisagreeingHasTwoOutcomes(v: Json) returns (o1: Json, o2: Json)
    requires !Agreeing(v)
    ensures IsCamel(v, o1) && IsCamel(v, o2) && o1 != o2
  {
    var a := AnyCamel(v).fields;
    var j, k, x1, x2;
    if i :| i in v.fields && !Agreeing(v.fields[i]) {
      j, k := i, i;
      x1, x2 := DisagreeingHasTwoOutcomes(v.fields[i]);
    } else {
      j, k :| j in v.fields && k in v.fields && Camel(j) == Camel(k)
              && AnyCamel(v.fields[j]) != AnyCamel(v.fields[k]);
      x1, x2 := AnyCamel(v.fields[j]), AnyCamel(v.fields[k]);
      AnyCamelIsOne(v.fields[j]);
      AnyCamelIsOne(v.fields[k]);
    }
    LastWord(v, j, x1);
    LastWord(v, k, x2);
    o1, o2 := Obj(a[Camel(j) := x1]), Obj(a[Camel(k) := x2]);
    assert o1.fields[Camel(j)] == x1 && o2.fields[Camel(j)] == x2;
  }

  /** camelCase gives the same result in whatever orders its loops visit the members. */
  ghost predicate OrderIndependent(v: Json) {
    forall p, q :: Orders(v, p) && Orders(v, q) ==> CamelBy(v, p) == CamelBy(v, q)
  }

  /**
   camelCase gives one result whatever the iteration order exactly when members that
   collide agree; injective renaming is enough.
   */
  lemma OrderIndependentIffAgreeing(v: Json)
    ensures OrderIndependent(v) <==> Agreeing(v)
    ensures RenamesInjectively(v) ==> OrderIndependent(v)
  {
    if RenamesInjectively(v) {
      InjectiveIsAgreeing(v);
    }
    hide IsCamel, AnyCamel, Agreeing, Orders, CamelBy;
    if Agreeing(v) {
      forall p, q | Orders(v, p) && Orders(v, q)
        ensures CamelBy(v, p) == CamelBy(v, q)
      {
        OrderGivesOutcome(v, p);
        OrderGivesOutcome(v, q);
        AgreeingHasOneOutcome(v, CamelBy(v, p));
        AgreeingHasOneOutcome(v, CamelBy(v, q));
      }
    } else {
      var o1, o2 := DisagreeingHasTwoOutcomes(v);
      OutcomeHasOrder(v, o1);
      OutcomeHasOrder(v, o2);
      var p, q := SomeOrder(v, o1), SomeOrder(v, o2);
      assert CamelBy(v, p) != CamelBy(v, q);
    }
  }

  // ---- joinArrays --------------------------------------------------------------------

  predicate AllStrings(items: seq<Json>) {
    forall i :: 0 <= i < |items| ==> items[i].Str?
  }

  /** strings.Join(strs, " "). */
  function Spaced(strs: seq<string>): string {
    if strs == [] then "" else if |strs| == 1 then strs[0] else strs[0] + " " + Spaced(strs[1..])
  }

  /** Where no string contains a space, the joined text splits back into them. */
  lemma {:induction false} SpacedSplits(strs: seq<string>)
    requires strs != [] && forall i :: 0 <= i < |strs| ==> ' ' !in strs[i]
    ensures Split(Spaced(strs), ' ') == strs
  {
    if |strs| == 1 {
      SplitPlain(strs[0], ' ');
    } else {
      SpacedSplits(strs[1..]);
      assert Spaced(strs) == strs[0] + [' '] + Spaced(strs[1..]);
      SplitHead(strs[0], ' ', Spaced(strs[1..]));
      assert [strs[0]] + strs[1..] == strs;
    }
  }

  function Strings(items: seq<Json>): (strs: seq<string>)
    requires AllStrings(items)
    ensures |strs| == |items|
    ensures forall i :: 0 <= i < |items| ==> strs[i] == items[i].s
  {
    seq(|items|, i requires 0 <= i < |items| => items[i].s)
  }

  /** Every array of strings reached through objects becomes one string. */
  function Joined(v: Json): Json {
    match v
    case Obj(m) => Obj(map k | k in m :: Joined(m[k]))
    case Arr(items) => if AllStrings(items) then Str(Spaced(Strings(items))) else v
    case _ => v
  }

  /** The strings of an array, unless something else is among them. */
  method CollectStrings(items: seq<Json>) returns (allStrings: bool, strs: seq<string>)
    ensures allStrings <==> AllStrings(items)
    ensures allStrings ==> strs == Strings(items)
  {
    strs := [];
    var i := 0;
    while i < |items|
      invariant 0 <= i <= |items|
      invariant AllStrings(items[..i]) && strs == Strings(items[..i])
    {
      if !items[i].Str? {
        return false, strs;
      }
      strs := strs + [items[i].s];
      i := i + 1;
    }
    assert items[..i] == items;
    return true, strs;
  }

  /** What one member comes to. */
  method JoinValue(v: Json) returns (o: Json)
    ensures o == Joined(v)
    decreases v, 1
  {
    hide Spaced, Strings, AllStrings;
    match v {
      case Obj(nested) =>
        var joined := JoinStringArrays(nested);
        o := Obj(joined);
      case Arr(items) =>
        var allStrings, strs := CollectStrings(items);
        o := if allStrings then Str(Spaced(strs)) else v;
      case _ =>
        o := v;
    }
  }

  method JoinStringArrays(m: Fields) returns (out: Fields)
    ensures Obj(out) == Joined(Obj(m))
    decreases Obj(m), 0
  {
    out := map[];
    var rest := m.Keys;
    JoinedMembers(m);
    hide Joined;
    while rest != {}
      invariant rest <= m.Keys
      invariant out.Keys == m.Keys - rest
      invariant forall k :: k in out ==> out[k] == Joined(m[k])
      decreases |rest|
    {
      var k :| k in rest;
      var o := JoinValue(m[k]);
      out := out[k := o];
      rest := rest - {k};
    }
    assert out == map k | k in m :: Joined(m[k]);
  }

  lemma JoinedMembers(m: Fields)
    ensures Joined(Obj(m)) == Obj(map k | k in m :: Joined(m[k]))
  {
  }

  lemma {:induction false} JoinIsIdempotent(v: Json)
    ensures Joined(Joined(v)) == Joined(v)
  {
    if v.Obj? {
      forall k | k in v.fields
        ensures Joined(Joined(v.fields[k])) == Joined(v.fields[k])
      {
        JoinIsIdempotent(v.fields[k]);
      }
      assert Joined(Joined(v)).fields == Joined(v).fields;
    }
  }

  // ---- commutation ---------------------------------------------------------------------

  /** Joining a camelCase outcome of v is a camelCase outcome of joined v. */
  lemma {:induction false} JoinAfterCamel(v: Json, o: Json)
    requires IsCamel(v, o)
    ensures IsCamel(Joined(v), Joined(o))
  {
    if v.Obj? {
      var v', o' := Joined(v), Joined(o);
      assert CamelKeys(v'.fields) == CamelKeys(v.fields);
      forall k' | k' in o'.fields
        ensures exists k :: k in v'.fields && Camel(k) == k' && IsCamel(v'.fields[k], o'.fields[k'])
      {
        var k :| k in v.fields && Camel(k) == k' && IsCamel(v.fields[k], o.fields[k']);
        JoinAfterCamel(v.fields[k], o.fields[k']);
        assert k in v'.fields;
      }
    }
  }

  ghost function UnjoinedKey(v: Json, o: Json, k': string): (k: string)
    requires v.Obj? && IsCamel(Joined(v), o) && k' in o.fields
    ensures k in v.fields && Camel(k) == k' && IsCamel(Joined(v.fields[k]), o.fields[k'])
  {
    var k :| k in v.fields && Camel(k) == k' && IsCamel(Joined(v.fields[k]), o.fields[k']); k
  }

  /** The camelCase outcome of v that joins to the given outcome of joined v. */
  ghost function Unjoined(v: Json, o: Json): Json
    requires IsCamel(Joined(v), o)
  {
    match v
    case Obj(m) => Obj(map k' | k' in o.fields :: Unjoined(m[UnjoinedKey(v, o, k')], o.fields[k']))
    case _ => v
  }

  lemma {:induction false} UnjoinedIsCamel(v: Json, o: Json)
    requires IsCamel(Joined(v), o)
    ensures IsCamel(v, Unjoined(v, o))
  {
    if v.Obj? {
      var m, u := v.fields, Unjoined(v, o);
      assert CamelKeys(Joined(v).fields) == CamelKeys(m);
      forall k' | k' in u.fields
        ensures exists k :: k in m && Camel(k) == k' && IsCamel(m[k], u.fields[k'])
      {
        UnjoinedIsCamel(m[UnjoinedKey(v, o, k')], o.fields[k']);
      }
    }
  }

  lemma {:induction false} UnjoinedJoins(v: Json, o: Json)
    requires IsCamel(Joined(v), o)
    ensures Joined(Unjoined(v, o)) == o
  {
    hide Camel, CamelKeys;
    if v.Obj? {
      var u := Unjoined(v, o);
      forall k' | k' in o.fields
        ensures Joined(u.fields[k']) == o.fields[k']
      {
        UnjoinedJoins(v.fields[UnjoinedKey(v, o, k')], o.fields[k']);
      }
      assert Joined(u).fields == o.fields;
    }
  }

  /**
   camelCase and joinArrays commute: the results of camelCase-then-join are exactly the
   results of join-then-camelCase, whatever collides; where camelCase is
   order-independent both give the same single value.
   */
  lemma TransformersCommute(v: Json, o: Json)
    ensures (exists p :: Orders(v, p) && Joined(CamelBy(v, p)) == o)
       <==> exists p :: Orders(Joined(v), p) && CamelBy(Joined(v), p) == o
    ensures RenamesInjectively(v) ==> forall p, q :: Orders(v, p) && Orders(Joined(v), q) ==>
      Joined(CamelBy(v, p)) == CamelBy(Joined(v), q)
  {
    hide IsCamel, Orders, CamelBy, Joined, Unjoined;
    if p :| Orders(v, p) && Joined(CamelBy(v, p)) == o {
      OrderGivesOutcome(v, p);
      JoinAfterCamel(v, CamelBy(v, p));
      OutcomeHasOrder(Joined(v), o);
      assert CamelBy(Joined(v), SomeOrder(Joined(v), o)) == o;
    }
    if p :| Orders(Joined(v), p) && CamelBy(Joined(v), p) == o {
      OrderGivesOutcome(Joined(v), p);
      UnjoinedIsCamel(v, o);
      UnjoinedJoins(v, o);
      OutcomeHasOrder(v, Unjoined(v, o));
      assert CamelBy(v, SomeOrder(v, Unjoined(v, o))) == Unjoined(v, o);
    }
    if RenamesInjectively(v) {
      forall p, q | Orders(v, p) && Orders(Joined(v), q)
        ensures Joined(CamelBy(v, p)) == CamelBy(Joined(v), q)
      {
        InjectiveCommutes(v, p, q);
      }
    }
  }

  /** With injective renaming the two results are one value. */
  lemma InjectiveCommutes(v: Json, p: Order, q: Order)
    requires RenamesInjectively(v) && Orders(v, p) && Orders(Joined(v), q)
    ensures Joined(CamelBy(v, p)) == CamelBy(Joined(v), q)
  {
    hide IsCamel, Orders, CamelBy, Joined, Unjoined, AnyCamel, RenamesInjectively, Agreeing;
    var o := CamelBy(Joined(v), q);
    OrderGivesOutcome(Joined(v), q);
    UnjoinedIsCamel(v, o);
    UnjoinedJoins(v, o);
    OrderGivesOutcome(v, p);
    InjectiveIsAgreeing(v);
    AgreeingHasOneOutcome(v, Unjoined(v, o));
    AgreeingHasOneOutcome(v, CamelBy(v, p));
  }

  // ---- field map -----------------------------------------------------------------------

  type FieldMap = map<string, string>

  function Rename(fm: FieldMap, k: string): string {
    if k in fm then fm[k] else k
  }

  function RenamedKeys(fm: FieldMap, m: Fields): set<string> {
    set k | k in m :: Rename(fm, k)
  }

  /** Some iteration order renames m to out. */
  ghost predicate IsMapped(fm: FieldMap, m: Fields, out: Fields) {
    && out.Keys == RenamedKeys(fm, m)
    && forall k' :: k' in out ==> exists k :: k in m && Rename(fm, k) == k' && out[k'] == m[k]
  }

  method ApplyFieldMap(m: Fields, fm: FieldMap) returns (out: Fields)
    ensures IsMapped(fm, m, out)
  {
    if |fm| == 0 {
      assert forall k :: Rename(fm, k) == k;
      return m;
    }
    out := map[];
    var rest := m.Keys;
    while rest != {}
      invariant rest <= m.Keys
      invariant out.Keys == set k | k in m && k !in rest :: Rename(fm, k)
      invariant forall k' :: k' in out ==>
        exists k :: k in m && k !in rest && Rename(fm, k) == k' && out[k'] == m[k]
      decreases |rest|
    {
      var k :| k in rest;
      ghost var before := out;
      if k in fm {
        out := out[fm[k] := m[k]];
      } else {
        out := out[k := m[k]];
      }
      rest := rest - {k};
      forall k' | k' in out
        ensures exists j :: j in m && j !in rest && Rename(fm, j) == k' && out[k'] == m[j]
      {
        if k' != Rename(fm, k) {
          assert k' in before;
        }
      }
    }
  }

  predicate Injective(fm: FieldMap) {
    forall j, k :: j in fm && k in fm && fm[j] == fm[k] ==> j == k
  }

  function Targets(fm: FieldMap): set<string> {
    set k | k in fm :: fm[k]
  }

  ghost function SourceOf(fm: FieldMap, target: string): (k: string)
    requires target in Targets(fm)
    ensures k in fm && fm[k] == target
  {
    var k :| k in fm && fm[k] == target; k
  }

  ghost function Inverse(fm: FieldMap): FieldMap {
    map target | target in Targets(fm) :: SourceOf(fm, target)
  }

  lemma InverseInverts(fm: FieldMap, k: string)
    requires Injective(fm) && k in fm
    ensures fm[k] in Inverse(fm) && Inverse(fm)[fm[k]] == k
  {
    assert fm[k] in Targets(fm);
  }

  /** No argument left alone by the map sits under one of its targets. */
  predicate NoUnmappedTarget(fm: FieldMap, m: Fields) {
    forall k :: k in m && k !in fm ==> k !in Targets(fm)
  }

  /** Renaming then is injective on the arguments, and the inverse map undoes it. */
  lemma RenameIsUndone(fm: FieldMap, m: Fields, k: string)
    requires Injective(fm) && NoUnmappedTarget(fm, m) && k in m
    ensures Rename(Inverse(fm), Rename(fm, k)) == k
  {
    if k in fm {
      InverseInverts(fm, k);
    }
  }

  /** Nothing is lost: each member is found under its new key. */
  lemma MappingIsLossless(fm: FieldMap, m: Fields, out: Fields, k: string)
    requires Injective(fm) && NoUnmappedTarget(fm, m) && IsMapped(fm, m, out) && k in m
    ensures k in fm ==> fm[k] in out && out[fm[k]] == m[k]
    ensures k !in fm ==> k in out && out[k] == m[k]
  {
    var k' := Rename(fm, k);
    assert k' in RenamedKeys(fm, m);
    var j :| j in m && Rename(fm, j) == k' && out[k'] == m[j];
    RenameIsUndone(fm, m, j);
    RenameIsUndone(fm, m, k);
  }

  lemma RestoresMember(fm: FieldMap, m: Fields, out: Fields, back: Fields, k: string)
    requires Injective(fm) && NoUnmappedTarget(fm, m) && k in back
    requires IsMapped(fm, m, out) && IsMapped(Inverse(fm), out, back)
    ensures k in m && back[k] == m[k]
  {
    var k' :| k' in out && Rename(Inverse(fm), k') == k && back[k] == out[k'];
    var j :| j in m && Rename(fm, j) == k' && out[k'] == m[j];
    RenameIsUndone(fm, m, j);
  }

  lemma KeepsMember(fm: FieldMap, m: Fields, out: Fields, back: Fields, k: string)
    requires Injective(fm) && NoUnmappedTarget(fm, m) && k in m
    requires IsMapped(fm, m, out) && IsMapped(Inverse(fm), out, back)
    ensures k in back
  {
    MappingIsLossless(fm, m, out, k);
    RenameIsUndone(fm, m, k);
    assert Rename(Inverse(fm), Rename(fm, k)) in RenamedKeys(Inverse(fm), out);
  }

  lemma RoundTripNeedsFreeTargets(fm: FieldMap, m: Fields, out: Fields, back: Fields, k: string)
    requires k in m && k !in fm && k in Targets(fm)
    requires IsMapped(fm, m, out) && IsMapped(Inverse(fm), out, back)
    ensures k !in back
  {
    assert k in Inverse(fm);
  }

  lemma DifferSomewhere(a: Fields, b: Fields) returns (k: string)
    requires a != b
    ensures (k in a && (k !in b || a[k] != b[k])) || (k !in a && k in b)
  {
    if k' :| k' in a && (k' !in b || a[k'] != b[k']) {
      k := k';
    } else {
      k :| k !in a && k in b;
    }
  }

  lemma RoundTripRestores(fm: FieldMap, m: Fields, out: Fields, back: Fields)
    requires Injective(fm) && NoUnmappedTarget(fm, m)
    requires IsMapped(fm, m, out) && IsMapped(Inverse(fm), out, back)
    ensures back == m
  {
    if back != m {
      var k := DifferSomewhere(back, m);
      if k in back {
        RestoresMember(fm, m, out, back, k);
      } else {
        KeepsMember(fm, m, out, back, k);
      }
    }
  }

  /**
   Field-map round trip, for every pair of iteration orders: mapping with an injective map
   and mapping back with its inverse restores the arguments exactly when no unmapped
   argument key is one of the map's targets.
   */
  lemma FieldMapRoundTrip(fm: FieldMap, m: Fields, out: Fields, back: Fields)
    requires Injective(fm)
    requires IsMapped(fm, m, out) && IsMapped(Inverse(fm), out, back)
    ensures back == m <==> NoUnmappedTarget(fm, m)
  {
    if NoUnmappedTarget(fm, m) {
      RoundTripRestores(fm, m, out, back);
    } else {
      var k :| k in m && k !in fm && k in Targets(fm);
      RoundTripNeedsFreeTargets(fm, m, out, back, k);
    }
  }
}
