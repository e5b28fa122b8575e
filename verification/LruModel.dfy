/**
 The response cache as a recency-ordered list (what cache.go promises), and its laws over
 every Get/Set history: order is last-touch order, a hit returns the latest effective Set,
 and a key is kept while fewer than `size` other keys are touched.
 */
module LruModel {
  import opened Basics

  datatype Item<V> = Item(key: string, value: V, expiresAt: int)

  datatype Lookup<V> = Lookup(items: seq<Item<V>>, hit: Option<V>)

  predicate Has<V>(items: seq<Item<V>>, key: string) {
    exists i :: 0 <= i < |items| && items[i].key == key
  }

  /** The list without the (only) item under `key`. */
  function Without<V>(items: seq<Item<V>>, key: string): seq<Item<V>> {
    if items == [] then []
    else if items[0].key == key then items[1..]
    else [items[0]] + Without(items[1..], key)
  }

  function Find<V>(items: seq<Item<V>>, key: string): (item: Item<V>)
    requires Has(items, key)
    ensures item in items && item.key == key
  {
    if items[0].key == key then items[0] else Find(items[1..], key)
  }

  function Get<V>(items: seq<Item<V>>, key: string, now: int): Lookup<V> {
    if !Has(items, key) then Lookup(items, None)
    else
      var item := Find(items, key);
      if now > item.expiresAt then Lookup(Without(items, key), None)
      else Lookup([item] + Without(items, key), Some(item.value))
  }

  function Set<V>(items: seq<Item<V>>, key: string, value: V, expiresAt: int, size: int): seq<Item<V>> {
    if Has(items, key) then [Item(key, value, expiresAt)] + Without(items, key)
    else
      var longer := [Item(key, value, expiresAt)] + items;
      if |longer| > size then longer[..|longer| - 1] else longer
  }

  // ---- histories -----------------------------------------------------------------------

  datatype Op<V> =
    | GetOp(key: string, now: int)
    | SetOp(key: string, value: Option<V>, ttl: int, now: int)

  /** Set with a nil value or a non-positive TTL does nothing. */
  predicate Effective<V>(op: Op<V>) {
    op.SetOp? && op.value.Some? && op.ttl > 0
  }

  function Apply<V>(items: seq<Item<V>>, op: Op<V>, size: int): seq<Item<V>> {
    match op
    case GetOp(key, now) => Get(items, key, now).items
    case SetOp(key, value, ttl, now) =>
      if Effective(op) then Set(items, key, value.value, now + ttl, size) else items
  }

  function After<V>(ops: seq<Op<V>>, size: int): seq<Item<V>>
    decreases |ops|
  {
    if ops == [] then [] else Apply(After(ops[..|ops| - 1], size), ops[|ops| - 1], size)
  }

  /** Operation n uses its key: an effective Set, or a Get that hits. */
  predicate Touches<V>(ops: seq<Op<V>>, size: int, n: nat)
    requires n < |ops|
  {
    Effective(ops[n]) || (ops[n].GetOp? && Get(After(ops[..n], size), ops[n].key, ops[n].now).hit.Some?)
  }

  /** The last operation that used `key`, or -1. */
  function LastTouch<V>(ops: seq<Op<V>>, size: int, key: string): (i: int)
    ensures -1 <= i < |ops|
    decreases |ops|
  {
    if ops == [] then -1
    else if ops[|ops| - 1].key == key && Touches(ops, size, |ops| - 1) then |ops| - 1
    else LastTouch(ops[..|ops| - 1], size, key)
  }

  /** The last effective Set of `key`, or -1; no reference to the cache. */
  function LastSet<V>(ops: seq<Op<V>>, key: string): (i: int)
    ensures -1 <= i < |ops|
    ensures i >= 0 ==> Effective(ops[i]) && ops[i].key == key
    decreases |ops|
  {
    if ops == [] then -1
    else if ops[|ops| - 1].key == key && Effective(ops[|ops| - 1]) then |ops| - 1
    else LastSet(ops[..|ops| - 1], key)
  }

  // ---- the list ------------------------------------------------------------------------

  ghost predicate DistinctKeys<V>(items: seq<Item<V>>) {
    forall i, j :: 0 <= i < j < |items| ==> items[i].key != items[j].key
  }

  lemma Shift<T>(xs: seq<T>, q: nat)
    requires q + 1 < |xs|
    ensures [xs[0]] + (xs[1..][..q] + xs[1..][q + 1..]) == xs[..q + 1] + xs[q + 2..]
  {
    assert xs[1..][..q] == xs[1..q + 1];
    assert xs[1..][q + 1..] == xs[q + 2..];
    assert [xs[0]] + xs[1..q + 1] == xs[..q + 1];
  }

  lemma HasTail<V>(items: seq<Item<V>>, key: string)
    requires Has(items, key) && items[0].key != key
    ensures Has(items[1..], key)
  {
    var i :| 0 <= i < |items| && items[i].key == key;
    assert items[1..][i - 1].key == key;
  }

  lemma {:induction false} WithoutFacts<V>(items: seq<Item<V>>, key: string) returns (p: nat)
    requires Has(items, key)
    ensures p < |items| && items[p].key == key && Find(items, key) == items[p]
    ensures Without(items, key) == items[..p] + items[p + 1..]
  {
    if items[0].key == key {
      p := 0;
      assert items[..0] + items[1..] == items[1..];
    } else {
      HasTail(items, key);
      var q := WithoutFacts(items[1..], key);
      p := q + 1;
      Shift(items, q);
    }
  }

  /** Each item is tagged with the time of its last use; newest first. */
  ghost predicate Ordered<V>(items: seq<Item<V>>, at: string -> int, now: int) {
    && (forall i, j :: 0 <= i < j < |items| ==> at(items[i].key) > at(items[j].key))
    && (forall i :: 0 <= i < |items| ==> 0 <= at(items[i].key) < now)
  }

  lemma OrderedIsDistinct<V>(items: seq<Item<V>>, at: string -> int, now: int)
    requires Ordered(items, at, now)
    ensures DistinctKeys(items)
  {
    forall i, j | 0 <= i < j < |items|
      ensures items[i].key != items[j].key
    {
      assert at(items[i].key) > at(items[j].key);
    }
  }

  /** Dropping an item, or the tail, keeps the order. */
  lemma OrderedWithout<V>(items: seq<Item<V>>, at: string -> int, now: int, p: nat)
    requires Ordered(items, at, now) && p < |items|
    ensures Ordered(items[..p] + items[p + 1..], at, now)
  {
    var rest := items[..p] + items[p + 1..];
    forall i | 0 <= i < |rest|
      ensures rest[i] == items[if i < p then i else i + 1]
    {
    }
  }

  /** Putting the key used at `now` in front keeps the order, one step later. */
  lemma OrderedFront<V>(items: seq<Item<V>>, at: string -> int, at': string -> int, now: int, item: Item<V>)
    requires Ordered(items, at, now) && now >= 0
    requires at'(item.key) == now
    requires forall i :: 0 <= i < |items| ==> at'(items[i].key) == at(items[i].key)
    ensures Ordered([item] + items, at', now + 1)
  {
  }

  lemma OrderedLater<V>(items: seq<Item<V>>, at: string -> int, at': string -> int, now: int)
    requires Ordered(items, at, now)
    requires forall i :: 0 <= i < |items| ==> at'(items[i].key) == at(items[i].key)
    ensures Ordered(items, at', now + 1)
  {
  }

  // ---- last-touch order ----------------------------------------------------------------

  ghost function TouchTimes<V>(ops: seq<Op<V>>, size: int): string -> int {
    k => LastTouch(ops, size, k)
  }

  ghost predicate InRecencyOrder<V>(ops: seq<Op<V>>, size: int) {
    && Ordered(After(ops, size), TouchTimes(ops, size), |ops|)
    && DistinctKeys(After(ops, size))
    && |After(ops, size)| <= Max(size, 0)
  }

  lemma {:induction false} HasWithout<V>(items: seq<Item<V>>, key: string, k: string)
    requires DistinctKeys(items) && Has(items, key)
    ensures Has(Without(items, key), k) <==> Has(items, k) && k != key
    ensures DistinctKeys(Without(items, key)) && |Without(items, key)| == |items| - 1
  {
    hide Without, Find;
    var p := WithoutFacts(items, key);
    var rest := items[..p] + items[p + 1..];
    assert forall i :: 0 <= i < |rest| ==> rest[i] == items[if i < p then i else i + 1];
    if Has(items, k) && k != key {
      var i :| 0 <= i < |items| && items[i].key == k;
      assert rest[if i < p then i else i - 1].key == k;
    }
  }

  /** One more operation, using a key already present. */
  lemma MoveKeepsOrder<V>(ops: seq<Op<V>>, size: int, front: Item<V>)
    requires ops != [] && InRecencyOrder(ops[..|ops| - 1], size) && Touches(ops, size, |ops| - 1)
    requires Has(After(ops[..|ops| - 1], size), ops[|ops| - 1].key) && front.key == ops[|ops| - 1].key
    ensures Ordered([front] + Without(After(ops[..|ops| - 1], size), front.key), TouchTimes(ops, size), |ops|)
  {
    var n := |ops| - 1;
    var items := After(ops[..n], size);
    var at, at' := TouchTimes(ops[..n], size), TouchTimes(ops, size);
    assert forall k :: at'(k) == if k == front.key then n else at(k);
    hide After, Touches, LastTouch, TouchTimes, Without, Find, Ordered;
    var p := WithoutFacts(items, front.key);
    var rest := Without(items, front.key);
    OrderedWithout(items, at, n, p);
    forall i | 0 <= i < |rest|
      ensures at'(rest[i].key) == at(rest[i].key)
    {
      HasWithout(items, front.key, rest[i].key);
    }
    OrderedFront(rest, at, at', n, front);
  }

  lemma OrderedPrefix<V>(items: seq<Item<V>>, shorter: seq<Item<V>>, at: string -> int, now: int)
    requires Ordered(items, at, now) && shorter <= items
    ensures Ordered(shorter, at, now)
  {
  }

  lemma AbsentKeepsTimes<V>(ops: seq<Op<V>>, size: int)
    requires ops != [] && Touches(ops, size, |ops| - 1) && !Has(After(ops[..|ops| - 1], size), ops[|ops| - 1].key)
    ensures var n := |ops| - 1; var items := After(ops[..n], size);
      && TouchTimes(ops, size)(ops[n].key) == n
      && (forall i :: 0 <= i < |items| ==> TouchTimes(ops, size)(items[i].key) == TouchTimes(ops[..n], size)(items[i].key))
  {
  }

  lemma SetAbsent<V>(items: seq<Item<V>>, key: string, value: V, expiresAt: int, size: int)
    requires !Has(items, key) && |items| <= Max(size, 0)
    ensures var items' := Set(items, key, value, expiresAt, size);
      items' <= [Item(key, value, expiresAt)] + items && |items'| <= Max(size, 0)
  {
    hide Has;
  }

  /** Only a Set touches an absent key. */
  lemma AbsentTouchIsSet<V>(ops: seq<Op<V>>, size: int)
    requires ops != [] && Touches(ops, size, |ops| - 1) && !Has(After(ops[..|ops| - 1], size), ops[|ops| - 1].key)
    ensures var items, op := After(ops[..|ops| - 1], size), ops[|ops| - 1];
      Effective(op) && After(ops, size) == Set(items, op.key, op.value.value, op.now + op.ttl, size)
  {
    hide Has, Set;
  }

  /** What a Set of an absent key makes of the list: a prefix of the longer list, within the size. */
  lemma PushedList<V>(ops: seq<Op<V>>, size: int) returns (item: Item<V>)
    requires ops != [] && Touches(ops, size, |ops| - 1) && !Has(After(ops[..|ops| - 1], size), ops[|ops| - 1].key)
    requires |After(ops[..|ops| - 1], size)| <= Max(size, 0)
    ensures item.key == ops[|ops| - 1].key
    ensures After(ops, size) <= [item] + After(ops[..|ops| - 1], size) && |After(ops, size)| <= Max(size, 0)
  {
    var items, op := After(ops[..|ops| - 1], size), ops[|ops| - 1];
    AbsentTouchIsSet(ops, size);
    item := Item(op.key, op.value.value, op.now + op.ttl);
    hide After, Has, Touches, Set;
    SetAbsent(items, op.key, op.value.value, op.now + op.ttl, size);
  }

  /** What using a present key makes of it: the same length, that key in front. */
  lemma MovedList<V>(ops: seq<Op<V>>, size: int) returns (front: Item<V>)
    requires ops != [] && Touches(ops, size, |ops| - 1) && Has(After(ops[..|ops| - 1], size), ops[|ops| - 1].key)
    ensures front.key == ops[|ops| - 1].key
    ensures After(ops, size) == [front] + Without(After(ops[..|ops| - 1], size), front.key)
  {
    front := After(ops, size)[0];
  }

  /** One more operation, when it touches its key. */
  lemma TouchKeepsOrder<V>(ops: seq<Op<V>>, size: int)
    requires ops != [] && InRecencyOrder(ops[..|ops| - 1], size) && Touches(ops, size, |ops| - 1)
    ensures InRecencyOrder(ops, size)
  {
    var n := |ops| - 1;
    var items, op := After(ops[..n], size), ops[n];
    var at, at' := TouchTimes(ops[..n], size), TouchTimes(ops, size);
    hide After, Has, Without, Find, LastTouch, TouchTimes, Touches, Ordered, DistinctKeys;
    if Has(items, op.key) {
      HasWithout(items, op.key, op.key);
      var front := MovedList(ops, size);
      MoveKeepsOrder(ops, size, front);
    } else {
      AbsentKeepsTimes(ops, size);
      var item := PushedList(ops, size);
      OrderedFront(items, at, at', n, item);
      OrderedPrefix([item] + items, After(ops, size), at', n + 1);
    }
    OrderedIsDistinct(After(ops, size), at', n + 1);
  }

  /** One more operation, when it does not: an expired or absent Get, or an ineffective Set. */
  lemma MissKeepsOrder<V>(ops: seq<Op<V>>, size: int)
    requires ops != [] && InRecencyOrder(ops[..|ops| - 1], size) && !Touches(ops, size, |ops| - 1)
    ensures InRecencyOrder(ops, size)
  {
    var n := |ops| - 1;
    var items, op := After(ops[..n], size), ops[n];
    var at, at' := TouchTimes(ops[..n], size), TouchTimes(ops, size);
    var items' := After(ops, size);
    assert forall k :: at'(k) == at(k);
    if op.GetOp? && Has(items, op.key) {
      var p := WithoutFacts(items, op.key);
      OrderedWithout(items, at, n, p);
      assert items' == items[..p] + items[p + 1..];
    } else {
      assert items' == items;
    }
    hide After, Without, Has, Find;
    OrderedLater(items', at, at', n);
    OrderedIsDistinct(items', at', n + 1);
  }

  /**
   After any history the list holds distinct keys, at most `size` of them, in the order of
   their last use, newest first.
   */
  lemma {:induction false} ListIsInRecencyOrder<V>(ops: seq<Op<V>>, size: int)
    ensures InRecencyOrder(ops, size)
    decreases |ops|
  {
    if ops != [] {
      ListIsInRecencyOrder(ops[..|ops| - 1], size);
      if Touches(ops, size, |ops| - 1) {
        TouchKeepsOrder(ops, size);
      } else {
        MissKeepsOrder(ops, size);
      }
    }
  }

  // ---- hits ----------------------------------------------------------------------------

  /** The item carries the value and expiry of the latest effective Set of its key. */
  ghost predicate FromLastSet<V>(ops: seq<Op<V>>, item: Item<V>) {
    var s := LastSet(ops, item.key);
    s >= 0 && item.value == ops[s].value.value && item.expiresAt == ops[s].now + ops[s].ttl
  }

  lemma {:induction false} ItemsAreLatest<V>(ops: seq<Op<V>>, size: int, item: Item<V>)
    requires item in After(ops, size)
    ensures FromLastSet(ops, item)
    decreases |ops|
  {
    var n := |ops| - 1;
    var before, op := ops[..n], ops[n];
    var items := After(before, size);
    ListIsInRecencyOrder(before, size);
    if Has(items, op.key) {
      var p := WithoutFacts(items, op.key);
      HasWithout(items, op.key, op.key);
      assert item in items[..p] + items[p + 1..] ==> item in items && item.key != op.key;
    }
    if item in items {
      ItemsAreLatest(before, size, item);
    }
    if Effective(op) && item.key == op.key {
      assert LastSet(ops, item.key) == n;
      assert item != Item(op.key, op.value.value, op.now + op.ttl) ==> item in items && !Has(items, op.key);
    } else {
      assert item in items;
      assert LastSet(ops, item.key) == LastSet(before, item.key);
    }
  }

  /** A hit returns the value of the latest effective Set of the key, which has not expired. */
  lemma HitIsLatestSet<V>(ops: seq<Op<V>>, size: int, key: string, now: int)
    requires Get(After(ops, size), key, now).hit.Some?
    ensures var s := LastSet(ops, key);
      && s >= 0
      && Get(After(ops, size), key, now).hit == ops[s].value
      && now <= ops[s].now + ops[s].ttl
  {
    ItemsAreLatest(ops, size, Find(After(ops, size), key));
  }

  // ---- retention -----------------------------------------------------------------------

  /** The keys other than `key` touched by operations i, i+1, ... */
  ghost function TouchedFrom<V>(ops: seq<Op<V>>, size: int, i: nat, key: string): set<string> {
    set j | i <= j < |ops| && Touches(ops, size, j) && ops[j].key != key :: ops[j].key
  }

  lemma {:induction false} LastTouchTouches<V>(ops: seq<Op<V>>, size: int, key: string)
    ensures var t := LastTouch(ops, size, key);
      && (t >= 0 ==> Touches(ops, size, t) && ops[t].key == key)
      && (forall j :: t < j < |ops| && Touches(ops, size, j) ==> ops[j].key != key)
    decreases |ops|
  {
    if ops != [] {
      var n := |ops| - 1;
      LastTouchTouches(ops[..n], size, key);
      forall j | 0 <= j < n
        ensures Touches(ops, size, j) == Touches(ops[..n], size, j)
      {
        assert ops[..n][..j] == ops[..j];
      }
    }
  }

  /** The keys of the items ahead of position p. */
  ghost function Ahead<V>(items: seq<Item<V>>, p: nat): set<string>
    requires p <= |items|
  {
    set i | 0 <= i < p :: items[i].key
  }

  lemma {:induction false} AheadCount<V>(items: seq<Item<V>>, p: nat)
    requires DistinctKeys(items) && p <= |items|
    ensures |Ahead(items, p)| == p
    decreases p
  {
    if p > 0 {
      AheadCount(items, p - 1);
      assert Ahead(items, p) == Ahead(items, p - 1) + {items[p - 1].key};
    }
  }

  lemma SubsetCount<T>(a: set<T>, b: set<T>)
    requires a <= b
    ensures |a| <= |b|
  {
    assert b == a + (b - a);
  }

  /** Every item ahead of `key` was touched since `key` was. */
  lemma PositionBound<V>(ops: seq<Op<V>>, size: int, p: nat)
    requires p < |After(ops, size)|
    ensures var key := After(ops, size)[p].key;
      && LastTouch(ops, size, key) >= 0
      && Ahead(After(ops, size), p) <= TouchedFrom(ops, size, LastTouch(ops, size, key), key)
  {
    var items := After(ops, size);
    var key := items[p].key;
    ListIsInRecencyOrder(ops, size);
    var at := TouchTimes(ops, size);
    assert at(key) >= 0;
    var since := TouchedFrom(ops, size, LastTouch(ops, size, key), key);
    forall i | 0 <= i < p
      ensures items[i].key in since
    {
      assert at(items[i].key) > at(key);
      LastTouchTouches(ops, size, items[i].key);
      var j := LastTouch(ops, size, items[i].key);
      assert ops[j].key == items[i].key;
    }
  }

  /** No Get of `key` from operation i on comes after its expiry. */
  ghost predicate NotExpiredFrom<V>(ops: seq<Op<V>>, i: nat, key: string, expiresAt: int) {
    forall j :: i <= j < |ops| && ops[j].GetOp? && ops[j].key == key ==> ops[j].now <= expiresAt
  }

  lemma TouchedPrefix<V>(ops: seq<Op<V>>, size: int, i: nat, key: string)
    requires ops != []
    ensures TouchedFrom(ops[..|ops| - 1], size, i, key) <= TouchedFrom(ops, size, i, key)
  {
    var n := |ops| - 1;
    forall j | i <= j < n
      ensures Touches(ops[..n], size, j) == Touches(ops, size, j)
    {
      assert ops[..n][..j] == ops[..j];
    }
  }

  /** A Set of a new key evicts `key` only after `size` other keys were touched. */
  lemma EvictionNeedsTouches<V>(ops: seq<Op<V>>, size: int, key: string, p: nat)
    requires ops != [] && Effective(ops[|ops| - 1]) && ops[|ops| - 1].key != key
    requires !Has(After(ops[..|ops| - 1], size), ops[|ops| - 1].key)
    requires p < |After(ops[..|ops| - 1], size)| && After(ops[..|ops| - 1], size)[p].key == key
    ensures |TouchedFrom(ops, size, Max(LastTouch(ops[..|ops| - 1], size, key), 0), key)| >= p + 1
  {
    var n := |ops| - 1;
    var items := After(ops[..n], size);
    PositionBound(ops[..n], size, p);
    var t := LastTouch(ops[..n], size, key);
    TouchedPrefix(ops, size, t, key);
    ListIsInRecencyOrder(ops[..n], size);
    AheadCount(items, p);
    var keys := Ahead(items, p) + {ops[n].key};
    assert ops[n].key !in Ahead(items, p);
    assert Touches(ops, size, n);
    SubsetCount(keys, TouchedFrom(ops, size, t, key));
  }

  lemma FrontKeepsKey<V>(rest: seq<Item<V>>, item: Item<V>, key: string)
    requires Has(rest, key)
    ensures Has([item] + rest, key)
  {
    var i :| 0 <= i < |rest| && rest[i].key == key;
    assert ([item] + rest)[i + 1].key == key;
  }

  /** Using or dropping another present key. */
  lemma MoveKeepsKey<V>(items: seq<Item<V>>, op: Op<V>, size: int, key: string)
    requires DistinctKeys(items) && Has(items, op.key) && Has(items, key) && op.key != key
    ensures Has(Apply(items, op, size), key)
  {
    HasWithout(items, op.key, key);
    FrontKeepsKey(Without(items, op.key), Find(items, op.key), key);
    if Effective(op) {
      FrontKeepsKey(Without(items, op.key), Item(op.key, op.value.value, op.now + op.ttl), key);
    }
  }

  /** Pushing a new key keeps every item but the last of a full list. */
  lemma PushKeepsKey<V>(items: seq<Item<V>>, op: Op<V>, size: int, p: nat)
    requires Effective(op) && !Has(items, op.key) && p < |items| && p + 1 < size
    ensures Has(Apply(items, op, size), items[p].key)
  {
    assert Apply(items, op, size)[p + 1] == items[p];
  }

  lemma OtherKeepsKey<V>(ops: seq<Op<V>>, size: int, key: string)
    requires size >= 1 && ops != [] && ops[|ops| - 1].key != key
    requires Has(After(ops[..|ops| - 1], size), key)
    requires |TouchedFrom(ops, size, Max(LastTouch(ops[..|ops| - 1], size, key), 0), key)| < size
    ensures Has(After(ops, size), key)
  {
    var n := |ops| - 1;
    var items, op := After(ops[..n], size), ops[n];
    hide LastTouch, TouchedFrom, Touches, Ordered, TouchTimes, Without, Find;
    ListIsInRecencyOrder(ops[..n], size);
    if Has(items, op.key) {
      MoveKeepsKey(items, op, size, key);
    } else if Effective(op) {
      var p :| 0 <= p < |items| && items[p].key == key;
      EvictionNeedsTouches(ops, size, key, p);
      hide After, DistinctKeys, InRecencyOrder;
      PushKeepsKey(items, op, size, p);
    }
  }

  lemma TouchedIsKept<V>(ops: seq<Op<V>>, size: int)
    requires size >= 1 && ops != [] && Touches(ops, size, |ops| - 1)
    ensures Has(After(ops, size), ops[|ops| - 1].key)
  {
    assert After(ops, size)[0].key == ops[|ops| - 1].key;
  }

  /** A Get or an ineffective Set of an unexpired key that is present keeps it. */
  lemma OwnMissKeepsKey<V>(ops: seq<Op<V>>, size: int)
    requires ops != [] && !Touches(ops, size, |ops| - 1)
    requires Has(After(ops[..|ops| - 1], size), ops[|ops| - 1].key)
    requires LastSet(ops, ops[|ops| - 1].key) >= 0 ==>
      var s := LastSet(ops, ops[|ops| - 1].key);
      ops[|ops| - 1].GetOp? ==> ops[|ops| - 1].now <= ops[s].now + ops[s].ttl
    ensures Has(After(ops, size), ops[|ops| - 1].key)
  {
    var n := |ops| - 1;
    if ops[n].GetOp? {
      ItemsAreLatest(ops[..n], size, Find(After(ops[..n], size), ops[n].key));
    }
  }

  /**
   Retention: a key stays in the cache as long as it is not looked up past its expiry and
   fewer than `size` distinct other keys have been touched since its own last touch.
   */
  lemma {:induction false} KeyIsRetained<V>(ops: seq<Op<V>>, size: int, key: string)
    requires size >= 1 && LastTouch(ops, size, key) >= 0
    requires |TouchedFrom(ops, size, LastTouch(ops, size, key), key)| < size
    requires LastSet(ops, key) >= 0 ==>
      NotExpiredFrom(ops, LastTouch(ops, size, key) + 1, key,
                     ops[LastSet(ops, key)].now + ops[LastSet(ops, key)].ttl)
    ensures Has(After(ops, size), key)
    decreases |ops|
  {
    hide Has, After, TouchedFrom;
    var n := |ops| - 1;
    var t := LastTouch(ops, size, key);
    if t == n {
      TouchedIsKept(ops, size);
    } else {
      var before := ops[..n];
      TouchedPrefix(ops, size, t, key);
      SubsetCount(TouchedFrom(before, size, t, key), TouchedFrom(ops, size, t, key));
      assert LastSet(ops, key) == LastSet(before, key);
      KeyIsRetained(before, size, key);
      if ops[n].key == key {
        OwnMissKeepsKey(ops, size);
      } else {
        OtherKeepsKey(ops, size, key);
      }
    }
  }

  /**
   A lookup that must hit: under the conditions of KeyIsRetained, and by the expiry of the
   latest effective Set, the key's value is returned.
   */
  lemma RetainedKeyHits<V>(ops: seq<Op<V>>, size: int, key: string, now: int)
    requires size >= 1 && LastTouch(ops, size, key) >= 0
    requires |TouchedFrom(ops, size, LastTouch(ops, size, key), key)| < size
    requires LastSet(ops, key) >= 0 ==>
      var s := ops[LastSet(ops, key)];
      now <= s.now + s.ttl && NotExpiredFrom(ops, LastTouch(ops, size, key) + 1, key, s.now + s.ttl)
    ensures LastSet(ops, key) >= 0 && Get(After(ops, size), key, now).hit == ops[LastSet(ops, key)].value
  {
    hide After, LastTouch, TouchedFrom, Has, Without;
    TouchedWasSet(ops, size, key);
    KeyIsRetained(ops, size, key);
    ItemsAreLatest(ops, size, Find(After(ops, size), key));
  }

  /** A key that was ever touched was ever set. */
  lemma TouchedWasSet<V>(ops: seq<Op<V>>, size: int, key: string)
    requires LastTouch(ops, size, key) >= 0
    ensures LastSet(ops, key) >= 0
  {
    LastTouchTouches(ops, size, key);
    var t := LastTouch(ops, size, key);
    if ops[t].GetOp? {
      HitIsLatestSet(ops[..t], size, key, ops[t].now);
      SetStays(ops, t, key);
    } else {
      SetStays(ops, t + 1, key);
    }
  }

  lemma {:induction false} SetStays<V>(ops: seq<Op<V>>, n: nat, key: string)
    requires n <= |ops| && LastSet(ops[..n], key) >= 0
    ensures LastSet(ops, key) >= 0
    decreases |ops|
  {
    if n < |ops| {
      assert ops[..|ops| - 1][..n] == ops[..n];
      SetStays(ops[..|ops| - 1], n, key);
    } else {
      assert ops[..n] == ops;
    }
  }
}
