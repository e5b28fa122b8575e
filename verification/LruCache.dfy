/**
 The built-in LRU (cache.go): a list of entries and an index into it, both updated in
 place. It refines LruModel, and its stored results are never reachable from outside.
 The clock reading is a parameter of each operation.
 */
module LruCache {
  import opened Basics
  import opened CallResults
  import LruModel

  type Item = LruModel.Item<ResultValue>

  class Entry {
    var key: string
    var value: CallResult
    var expiresAt: int

    constructor (key: string, value: CallResult, expiresAt: int)
      ensures this.key == key && this.value == value && this.expiresAt == expiresAt
    {
      this.key, this.value, this.expiresAt := key, value, expiresAt;
    }
  }

  /** container/list's Remove. */
  function Except(list: seq<Entry>, e: Entry): seq<Entry> {
    if list == [] then [] else if list[0] == e then list[1..] else [list[0]] + Except(list[1..], e)
  }

  lemma {:induction false} ExceptAt(list: seq<Entry>, p: nat)
    requires p < |list| && forall i :: 0 <= i < p ==> list[i] != list[p]
    ensures Except(list, list[p]) == list[..p] + list[p + 1..]
  {
    if p == 0 {
      assert list[..0] + list[1..] == list[1..];
    } else {
      ExceptAt(list[1..], p - 1);
      LruModel.Shift(list, p - 1);
    }
  }

  /** Entries and items side by side. */
  ghost function Zip(list: seq<Entry>, items: seq<Item>): set<(Entry, Item)>
    requires |list| == |items|
  {
    set i | 0 <= i < |list| :: (list[i], items[i])
  }

  /** Keys are distinct, and the index finds exactly the listed entries. */
  ghost predicate Aligned(list: seq<Entry>, items: seq<Item>, index: map<string, Entry>) {
    && |items| == |list|
    && LruModel.DistinctKeys(items)
    && (forall i, j :: 0 <= i < j < |list| ==> list[i] != list[j])
    && (forall i :: 0 <= i < |list| ==> items[i].key in index && index[items[i].key] == list[i])
    && (forall k :: k in index ==> LruModel.Has(items, k))
  }

  lemma RemovedPairs(list: seq<Entry>, items: seq<Item>, index: map<string, Entry>, p: nat)
    requires Aligned(list, items, index) && p < |list|
    ensures var list', items' := list[..p] + list[p + 1..], items[..p] + items[p + 1..];
      && Zip(list', items') <= Zip(list, items)
      && (forall x :: x in Zip(list', items') ==> x.0 != list[p])
      && list[p] !in list'
  {
    var list', items' := list[..p] + list[p + 1..], items[..p] + items[p + 1..];
    forall i | 0 <= i < |list'|
      ensures (list'[i], items'[i]) in Zip(list, items) && list'[i] != list[p]
    {
      var j := if i < p then i else i + 1;
      assert list'[i] == list[j] && items'[i] == items[j];
    }
  }

  lemma RemovedKeepsKey(items: seq<Item>, p: nat, k: string)
    requires p < |items| && LruModel.Has(items, k) && k != items[p].key
    ensures LruModel.Has(items[..p] + items[p + 1..], k)
  {
    var i :| 0 <= i < |items| && items[i].key == k;
    assert (items[..p] + items[p + 1..])[if i < p then i else i - 1].key == k;
  }

  lemma RemovedIsAligned(list: seq<Entry>, items: seq<Item>, index: map<string, Entry>, p: nat)
    requires Aligned(list, items, index) && p < |list|
    ensures Aligned(list[..p] + list[p + 1..], items[..p] + items[p + 1..], index - {items[p].key})
    ensures Zip(list[..p] + list[p + 1..], items[..p] + items[p + 1..]) <= Zip(list, items)
  {
    RemovedPairs(list, items, index, p);
    var list', items' := list[..p] + list[p + 1..], items[..p] + items[p + 1..];
    hide Zip, LruModel.Has;
    forall i | 0 <= i < |list'|
      ensures var j := if i < p then i else i + 1; list'[i] == list[j] && items'[i] == items[j]
    {
    }
    forall k | k in index - {items[p].key}
      ensures LruModel.Has(items', k)
    {
      RemovedKeepsKey(items, p, k);
    }
  }

  lemma FrontIsAligned(list: seq<Entry>, items: seq<Item>, index: map<string, Entry>, e: Entry, item: Item)
    requires Aligned(list, items, index) && item.key !in index && e !in list
    ensures Aligned([e] + list, [item] + items, index[item.key := e])
    ensures Zip([e] + list, [item] + items) == Zip(list, items) + {(e, item)}
  {
    var list', items' := [e] + list, [item] + items;
    forall i | 0 <= i < |list'|
      ensures i > 0 ==> list'[i] == list[i - 1] && items'[i] == items[i - 1]
    {
    }
    forall x | x in Zip(list, items) + {(e, item)}
      ensures x in Zip(list', items')
    {
      if x != (e, item) {
        var i :| 0 <= i < |list| && x == (list[i], items[i]);
        assert x == (list'[i + 1], items'[i + 1]);
      } else {
        assert x == (list'[0], items'[0]);
      }
    }
    forall k | k in index[item.key := e]
      ensures LruModel.Has(items', k)
    {
      if k == item.key {
        assert items'[0].key == k;
      } else {
        var i :| 0 <= i < |items| && items[i].key == k;
        assert items'[i + 1].key == k;
      }
    }
  }

  lemma MovedIsAligned(list: seq<Entry>, items: seq<Item>, index: map<string, Entry>, p: nat, item: Item)
    requires Aligned(list, items, index) && p < |list| && item.key == items[p].key
    ensures Aligned([list[p]] + (list[..p] + list[p + 1..]), [item] + (items[..p] + items[p + 1..]), index)
    ensures Zip([list[p]] + (list[..p] + list[p + 1..]), [item] + (items[..p] + items[p + 1..]))
         <= Zip(list, items) + {(list[p], item)}
  {
    RemovedIsAligned(list, items, index, p);
    FrontIsAligned(list[..p] + list[p + 1..], items[..p] + items[p + 1..], index - {item.key}, list[p], item);
    assert (index - {item.key})[item.key := list[p]] == index;
  }

  lemma OverwrittenPairs(list: seq<Entry>, items: seq<Item>, item: Item)
    requires |list| == |items| > 0
    ensures Zip(list, [item] + items[1..]) == Zip(list[1..], items[1..]) + {(list[0], item)}
    ensures Zip(list[1..], items[1..]) <= Zip(list, items)
  {
    var items' := [item] + items[1..];
    forall i | 0 < i < |list|
      ensures list[i] == list[1..][i - 1] && items'[i] == items[1..][i - 1]
    {
    }
    forall x | x in Zip(list[1..], items[1..])
      ensures x in Zip(list, items') && x in Zip(list, items)
    {
      var i :| 0 <= i < |list| - 1 && x == (list[1..][i], items[1..][i]);
      assert x == (list[i + 1], items'[i + 1]) == (list[i + 1], items[i + 1]);
    }
    assert (list[0], items'[0]) == (list[0], item);
  }

  lemma OverwrittenIsAligned(list: seq<Entry>, items: seq<Item>, index: map<string, Entry>, item: Item)
    requires Aligned(list, items, index) && list != [] && item.key == items[0].key
    ensures Aligned(list, [item] + items[1..], index)
    ensures forall x :: x in Zip(list[1..], items[1..]) ==> x.0 != list[0]
  {
    var items' := [item] + items[1..];
    forall i | 0 <= i < |items|
      ensures items'[i].key == items[i].key
    {
    }
    forall k | k in index
      ensures LruModel.Has(items', k)
    {
      var i :| 0 <= i < |items| && items[i].key == k;
      assert items'[i].key == k;
    }
  }

  /** A result's footprint holds a result and arrays, never a cache or one of its entries. */
  lemma NoEntries(r: CallResult)
    ensures forall o :: o in r.Footprint() ==> !(o is Entry) && !(o is Lru)
  {
  }

  /** Where a key's entry sits. */
  lemma Position(list: seq<Entry>, items: seq<Item>, index: map<string, Entry>, key: string) returns (p: nat)
    requires Aligned(list, items, index) && key in index
    ensures p < |list| && items[p].key == key && index[key] == list[p]
    ensures LruModel.Has(items, key) && LruModel.Find(items, key) == items[p]
    ensures LruModel.Without(items, key) == items[..p] + items[p + 1..]
    ensures Except(list, list[p]) == list[..p] + list[p + 1..]
  {
    p := LruModel.WithoutFacts(items, key);
    ExceptAt(list, p);
  }

  lemma IndexIsList(list: seq<Entry>, items: seq<Item>, index: map<string, Entry>, key: string)
    requires Aligned(list, items, index)
    ensures key in index <==> LruModel.Has(items, key)
  {
    if LruModel.Has(items, key) {
      var i :| 0 <= i < |items| && items[i].key == key;
    }
  }

  /** Entry e and all it reaches lie in repr, its result shares nothing with entries, and it shows `item`. */
  ghost predicate Owned(repr: set<object>, e: Entry, item: Item)
    reads repr
  {
    && e in repr && e.value in repr && e.value.parts in repr
    && e.value.Footprint() <= repr
    && (forall o :: o in e.value.Footprint() ==> !(o is Entry))
    && item == LruModel.Item(e.key, e.value.Value(), e.expiresAt)
  }

  ghost predicate AllOwned(repr: set<object>, pairs: set<(Entry, Item)>)
    reads repr
  {
    forall x :: x in pairs ==> Owned(repr, x.0, x.1)
  }

  /** Growing the representation keeps what it owns. */
  lemma OwnedInLarger(repr: set<object>, repr': set<object>, pairs: set<(Entry, Item)>)
    requires AllOwned(repr, pairs) && repr <= repr'
    ensures AllOwned(repr', pairs)
  {
  }

  /** A cloned result becomes the entry's result; other entries are as they were. */
  method Install(ghost repr: set<object>, e: Entry, copy: CallResult, expiresAt: int, ghost item: Item,
                 ghost others: set<(Entry, Item)>)
    requires e in repr && copy.Footprint() <= repr
    requires item == LruModel.Item(e.key, copy.Value(), expiresAt)
    requires AllOwned(repr, others) && forall x :: x in others ==> x.0 != e
    modifies e
    ensures AllOwned(repr, others + {(e, item)})
  {
    NoEntries(copy);
    e.value := copy;
    e.expiresAt := expiresAt;
    forall x | x in others
      ensures Owned(repr, x.0, x.1)
    {
      assert old(Owned(repr, x.0, x.1));
      assert e !in x.0.value.Footprint();
    }
  }

  class Lru {
    const size: int
    var list: seq<Entry>
    var index: map<string, Entry>
    ghost var contents: seq<Item>       // the recency-ordered list this represents
    ghost var Repr: set<object>         // everything the cache can reach
    ghost var exposed: set<object>      // everything callers ever passed in or received

    ghost predicate Valid()
      reads this, Repr
    {
      && this !in Repr && this !in exposed && exposed !! Repr
      && Aligned(list, contents, index)
      && AllOwned(Repr, Zip(list, contents))
    }

    constructor (size: int)
      ensures Valid() && this.size == size && contents == [] && Repr == {} && exposed == {}
    {
      this.size := size;
      list, index, contents, Repr, exposed := [], map[], [], {}, {};
    }

    /** The list and its contents after a key's entry moves to the front. */
    lemma MovedKeepsValid(key: string) returns (p: nat, list': seq<Entry>, contents': seq<Item>)
      requires Valid() && key in index
      ensures p < |list| == |contents| && index[key] == list[p] && contents[p].key == key && Owned(Repr, list[p], contents[p])
      ensures LruModel.Has(contents, key) && LruModel.Find(contents, key) == contents[p]
      ensures list' == [index[key]] + Except(list, index[key])
      ensures contents' == [contents[p]] + LruModel.Without(contents, key)
      ensures Aligned(list', contents', index) && AllOwned(Repr, Zip(list', contents'))
    {
      p := Position(list, contents, index, key);
      assert (list[p], contents[p]) in Zip(list, contents);
      MovedIsAligned(list, contents, index, p, contents[p]);
      list', contents' := [index[key]] + Except(list, index[key]), [contents[p]] + LruModel.Without(contents, key);
    }

    lemma DroppedKeepsValid(key: string)
      requires Valid() && key in index
      ensures var list', contents' := Except(list, index[key]), LruModel.Without(contents, key);
        Aligned(list', contents', index - {key}) && AllOwned(Repr, Zip(list', contents'))
    {
      var p := Position(list, contents, index, key);
      RemovedIsAligned(list, contents, index, p);
    }

    /** list.Remove and delete(index). */
    method Drop(key: string)
      requires Valid() && key in index
      modifies this`list, this`contents, this`index
      ensures Valid() && contents == LruModel.Without(old(contents), key)
    {
      hide Aligned, AllOwned, ValuesOf, Zip;
      DroppedKeepsValid(key);
      list := Except(list, index[key]);
      index := index - {key};
      contents := LruModel.Without(contents, key);
    }

    /** list.MoveToFront. */
    method MoveToFront(key: string) returns (e: Entry)
      requires Valid() && key in index
      modifies this`list, this`contents
      ensures Valid() && e == index[key] && list != [] && list[0] == e
      ensures LruModel.Has(old(contents), key)
      ensures contents == [LruModel.Find(old(contents), key)] + LruModel.Without(old(contents), key)
    {
      hide Aligned, AllOwned, ValuesOf, Zip;
      e := index[key];
      ghost var p, list', contents' := MovedKeepsValid(key);
      list := [e] + Except(list, e);
      contents := contents';
      assert list == list';
    }

    /** A copy of the stored result, handed to the caller. */
    method HandOut(e: Entry, ghost item: Item) returns (value: CallResult)
      requires Valid() && Owned(Repr, e, item)
      modifies this`exposed
      ensures Valid() && fresh(value.Footprint()) && value.Value() == item.value
      ensures exposed == old(exposed) + value.Footprint()
    {
      hide Aligned, AllOwned, ValuesOf, Zip;
      value := e.value.Clone();
      exposed := exposed + value.Footprint();
    }

    method Get(key: string, now: int) returns (value: CallResult?)
      requires Valid()
      modifies this
      ensures Valid() && Repr == old(Repr)
      ensures var r := LruModel.Get(old(contents), key, now);
        && contents == r.items
        && (value != null <==> r.hit.Some?)
        && (value != null ==> value.Value() == r.hit.value)
      ensures value != null ==> fresh(value.Footprint())
      ensures exposed == old(exposed) + if value == null then {} else value.Footprint()
    {
      hide Aligned, AllOwned, ValuesOf, Zip;
      IndexIsList(list, contents, index, key);
      if key !in index {
        return null;
      }
      ghost var p, _, _ := MovedKeepsValid(key);
      ghost var item := contents[p];
      if now > index[key].expiresAt {
        Drop(key);
        return null;
      }
      var e := MoveToFront(key);
      value := HandOut(e, item);
    }

    lemma FrontEntry(extra: set<object>, value: ResultValue, expiresAt: int)
      returns (item: Item, others: set<(Entry, Item)>, contents': seq<Item>)
      requires Valid() && list != []
      ensures contents != [] && item == LruModel.Item(contents[0].key, value, expiresAt)
      ensures contents' == [item] + contents[1..] && Aligned(list, contents', index)
      ensures Zip(list, contents') == others + {(list[0], item)}
      ensures AllOwned(Repr + extra, others) && forall x :: x in others ==> x.0 != list[0]
      ensures list[0] in Repr && list[0].key == item.key
    {
      item := LruModel.Item(contents[0].key, value, expiresAt);
      others, contents' := Zip(list[1..], contents[1..]), [item] + contents[1..];
      OverwrittenIsAligned(list, contents, index, item);
      OverwrittenPairs(list, contents, item);
      assert (list[0], contents[0]) in Zip(list, contents);
      OwnedInLarger(Repr, Repr + extra, others);
    }

    /** The entry in front gets a new result and expiry. */
    method Overwrite(e: Entry, copy: CallResult, expiresAt: int)
      requires Valid() && list != [] && e == list[0]
      requires Unknown(copy)
      modifies this`contents, this`Repr, e
      ensures Valid() && Repr == old(Repr) + old(copy.Footprint())
      ensures contents == [LruModel.Item(old(contents)[0].key, old(copy.Value()), expiresAt)] + old(contents)[1..]
    {
      hide Aligned, AllOwned, ValuesOf, AllSlices, Zip;
      NoEntries(copy);
      ghost var repr := Repr + copy.Footprint();
      ghost var item, others, contents' := FrontEntry(copy.Footprint(), copy.Value(), expiresAt);
      Install(repr, e, copy, expiresAt, item, others);
      contents, Repr := contents', repr;
    }

    lemma FrontAdded(e: Entry, item: Item, repr: set<object>) returns (list': seq<Entry>, contents': seq<Item>)
      requires Valid() && item.key !in index && e !in Repr && Repr <= repr && Owned(repr, e, item)
      ensures list' == [e] + list && contents' == [item] + contents
      ensures Aligned(list', contents', index[item.key := e]) && AllOwned(repr, Zip(list', contents'))
    {
      list', contents' := [e] + list, [item] + contents;
      OwnedInLarger(Repr, repr, Zip(list, contents));
      FreshIsUnlisted(e);
      FrontIsAligned(list, contents, index, e, item);
    }

    /** A new entry in front. */
    method PushFront(key: string, copy: CallResult, expiresAt: int)
      requires Valid() && key !in index
      requires Unknown(copy)
      modifies this`list, this`index, this`contents, this`Repr
      ensures Valid() && fresh(Repr - old(Repr) - old(copy.Footprint())) && old(Repr) <= Repr
      ensures contents == [LruModel.Item(key, old(copy.Value()), expiresAt)] + old(contents)
    {
      hide Aligned, AllOwned, ValuesOf, Zip;
      NoEntries(copy);
      var e := new Entry(key, copy, expiresAt);
      ghost var item := LruModel.Item(key, copy.Value(), expiresAt);
      ghost var repr := Repr + copy.Footprint() + {e};
      ghost var list', contents' := FrontAdded(e, item, repr);
      list := [e] + list;
      index := index[key := e];
      contents := contents';
      Repr := repr;
    }

    lemma FreshIsUnlisted(e: Entry)
      requires Valid() && e !in Repr
      ensures e !in list
    {
      forall i | 0 <= i < |list|
        ensures list[i] in Repr
      {
        assert (list[i], contents[i]) in Zip(list, contents);
      }
    }

    /** Nothing of `copy` is known to the cache or to callers. */
    ghost predicate Unknown(copy: CallResult)
      reads this, copy, copy.parts
    {
      copy.Footprint() !! Repr && copy.Footprint() !! exposed
    }

    /** A present key: move its entry to the front and overwrite it. */
    method Refresh(key: string, copy: CallResult, expiresAt: int)
      requires Valid() && key in index && Unknown(copy)
      modifies this`list, this`contents, this`Repr, Repr
      ensures Valid() && Repr == old(Repr) + old(copy.Footprint())
      ensures contents == [LruModel.Item(key, old(copy.Value()), expiresAt)] + LruModel.Without(old(contents), key)
    {
      hide Aligned, AllOwned, ValuesOf, Zip;
      ghost var p, list', contents' := MovedKeepsValid(key);
      assert list[p] in Repr;
      var e := MoveToFront(key);
      Overwrite(e, copy, expiresAt);
    }

    /** list.Back, list.Remove and delete(index). */
    method EvictBack()
      requires Valid() && list != []
      modifies this`list, this`contents, this`index
      ensures Valid() && contents == old(contents)[..|old(contents)| - 1]
    {
      EvictsLast(list, contents, index);
      assert (list[|list| - 1], contents[|list| - 1]) in Zip(list, contents);
      Drop(list[|list| - 1].key);
    }

    /** The caller's result is on record as exposed. */
    ghost method Expose(value: CallResult)
      requires Valid() && value.Footprint() !! Repr
      modifies this`exposed
      ensures Valid() && exposed == old(exposed) + value.Footprint()
    {
      NoEntries(value);
      exposed := exposed + value.Footprint();
    }

    /** The body of Set under the lock, once the copy is made. */
    method Store(key: string, copy: CallResult, expiresAt: int)
      requires Valid() && Unknown(copy)
      modifies this`list, this`index, this`contents, this`Repr, Repr
      ensures Valid() && fresh(Repr - old(Repr) - old(copy.Footprint()))
      ensures contents == LruModel.Set(old(contents), key, old(copy.Value()), expiresAt, size)
    {
      hide AllSlices, ValuesOf, AllOwned;
      IndexIsList(list, contents, index, key);
      if key in index {
        Refresh(key, copy, expiresAt);
      } else {
        PushFront(key, copy, expiresAt);
        if |list| > size && list != [] {
          EvictBack();
        }
      }
    }

    /**
     Set stores a deep copy: afterwards the cache shows exactly what LruModel.Set makes of
     it, everything new it reaches is freshly allocated, and the caller's objects are on
     record as exposed. A nil value or a non-positive TTL changes nothing.
     */
    method Set(key: string, value: CallResult?, ttl: int, now: int)
      requires Valid()
      requires value != null ==> value.Footprint() !! Repr
      modifies this, Repr
      ensures Valid() && fresh(Repr - old(Repr))
      ensures contents ==
        if value == null || ttl <= 0 then old(contents)
        else LruModel.Set(old(contents), key, old(value.Value()), now + ttl, size)
      ensures exposed == old(exposed) + if value == null then {} else old(value.Footprint())
    {
      hide Aligned, AllOwned, ValuesOf, Zip, LruModel.Set;
      if value == null {
        return;
      }
      Expose(value);
      if ttl <= 0 {
        return;
      }
      var copy := value.Clone();
      Store(key, copy, now + ttl);
    }
  }

  /** Dropping the back entry's key drops the last item. */
  lemma EvictsLast(list: seq<Entry>, items: seq<Item>, index: map<string, Entry>)
    requires Aligned(list, items, index) && list != []
    ensures items[|items| - 1].key in index
    ensures LruModel.Without(items, items[|items| - 1].key) == items[..|items| - 1]
  {
    var key := items[|items| - 1].key;
    var p := LruModel.WithoutFacts(items, key);
    assert p == |items| - 1;
  }
}
