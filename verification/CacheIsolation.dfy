/**
 Isolation of the response cache from its callers: whatever a client does to the results
 it passed to Set or received from Get (overwrite fields, bytes and parts, or make them
 share arrays), every later hit still equals the value as it was when it was set.
 */
module CacheIsolation {
  import opened Basics
  import opened CallResults
  import opened LruCache
  import LruModel

  /**
   Any change whatsoever confined to the objects callers ever passed in or received
   leaves the cache valid and its contents as they were.
   */
  twostate lemma CallersCannotReach(cache: Lru)
    requires old(cache.Valid())
    requires forall o: object :: old(allocated(o)) && o !in old(cache.exposed) ==> unchanged(o)
    ensures cache.Valid() && cache.contents == old(cache.contents)
  {
  }

  /** Which objects a client may hold: closed under everything it could follow. */
  ghost predicate Closed(region: set<object>)
    reads region
  {
    && (forall r: CallResult :: r in region ==> r.parts in region)
    && (forall a: array<ContentPart>, i :: a in region && 0 <= i < a.Length ==> Slices(a[i]) <= region)
  }

  /** What a client does next; slots number the results it holds. */
  datatype ClientOp =
    | Read(key: string, now: int)
    | Write(key: string, slot: nat, ttl: int, now: int)
    | WriteNil(key: string, ttl: int, now: int)
    | SetText(slot: nat, text: string)
    | SetIsError(slot: nat, isError: bool)
    | SetByte(slot: nat, part: nat, raw: bool, at: nat, byte: byte)
    | SetLabels(slot: nat, part: nat, kind: ContentKind, text: string, mimeType: string)
    | SetSlice(slot: nat, part: nat, raw: bool, bytes: Option<seq<byte>>)
    | NewParts(slot: nat, keep: nat, length: nat)
    | NewResult(text: string, isError: bool)
    | SharePart(slot: nat, part: nat, from: nat, fromPart: nat)
    | ShareParts(slot: nat, from: nat)

  lemma FootprintInRegion(region: set<object>, r: CallResult)
    requires Closed(region) && r in region
    ensures r.Footprint() <= region
  {
  }

  lemma LargerRegion(region: set<object>, r: CallResult)
    requires Closed(region)
    ensures Closed(region + r.Footprint())
  {
  }

  type Op = LruModel.Op<ResultValue>

  /** Every lookup answered what the recency list makes of the history before it. */
  ghost predicate Answered(history: seq<Op>, answers: seq<Option<ResultValue>>, size: int) {
    && |answers| == |history|
    && forall i :: 0 <= i < |history| && history[i].GetOp? ==>
         answers[i] == LruModel.Get(LruModel.After(history[..i], size), history[i].key, history[i].now).hit
  }

  lemma OneMore(history: seq<Op>, answers: seq<Option<ResultValue>>, size: int, op: Op, answer: Option<ResultValue>)
    requires Answered(history, answers, size)
    requires op.GetOp? ==> answer == LruModel.Get(LruModel.After(history, size), op.key, op.now).hit
    ensures Answered(history + [op], answers + [answer], size)
    ensures LruModel.After(history + [op], size) == LruModel.Apply(LruModel.After(history, size), op, size)
  {
    var longer := history + [op];
    assert longer[..|history|] == history;
    forall i | 0 <= i < |history|
      ensures longer[..i] == history[..i]
    {
    }
  }

  /** Hits return the value as it was at the latest effective Set, unexpired. */
  ghost predicate HitsAreAsSet(history: seq<Op>, answers: seq<Option<ResultValue>>) {
    forall i :: 0 <= i < |history| && i < |answers| && history[i].GetOp? && answers[i].Some? ==>
      var s := LruModel.LastSet(history[..i], history[i].key);
      s >= 0 && answers[i] == history[s].value && history[i].now <= history[s].now + history[s].ttl
  }

  lemma AnsweredAsSet(history: seq<Op>, answers: seq<Option<ResultValue>>, size: int)
    requires Answered(history, answers, size)
    ensures HitsAreAsSet(history, answers)
  {
    forall i | 0 <= i < |history| && history[i].GetOp? && answers[i].Some?
      ensures var s := LruModel.LastSet(history[..i], history[i].key);
        s >= 0 && answers[i] == history[s].value && history[i].now <= history[s].now + history[s].ttl
    {
      LruModel.HitIsLatestSet(history[..i], size, history[i].key, history[i].now);
    }
  }

  /** A new part slice of the given length, keeping some of the parts; the rest are empty. */
  method KeepParts(kept: seq<ContentPart>, keep: nat, length: nat) returns (parts: array<ContentPart>)
    ensures fresh(parts) && parts.Length == length
    ensures forall i :: 0 <= i < length ==> if i < keep && i < |kept| then parts[i] == kept[i] else Slices(parts[i]) == {}
  {
    var empty := ContentPart(ContentText, "", "", null, null);
    parts := new ContentPart[length](i => if 0 <= i < keep && i < |kept| then kept[i] else empty);
  }

  /** A new byte slice, or nil. */
  method NewBytes(bytes: Option<seq<byte>>) returns (a: array?<byte>)
    ensures Bytes(a) == bytes && (a != null ==> fresh(a))
  {
    if bytes.None? {
      a := null;
    } else {
      var b := bytes.value;
      a := new byte[|b|](i requires 0 <= i < |b| => b[i]);
      assert a[..] == b;
    }
  }

  /** A client of one cache, with the log of its cache calls: what it set, and what it was answered. */
  class Client {
    const cache: Lru
    var held: seq<CallResult>
    ghost var region: set<object>
    ghost var history: seq<Op>
    ghost var answers: seq<Option<ResultValue>>

    /** The client's own objects, apart from the cache's. */
    ghost predicate Apart()
      reads this, cache, cache.Repr, region
    {
      && cache.Valid() && region !! cache.Repr
      && this !in region && cache !in region && this !in cache.Repr
      && Closed(region)
      && forall i :: 0 <= i < |held| ==> held[i] in region
    }

    ghost predicate Valid()
      reads this, cache, cache.Repr, region
    {
      && Apart()
      && cache.contents == LruModel.After(history, cache.size)
      && Answered(history, answers, cache.size)
    }

    constructor (size: int, results: seq<CallResult>, ghost region: set<object>)
      requires Closed(region) && forall i :: 0 <= i < |results| ==> results[i] in region
      ensures Valid() && fresh(cache) && held == results && history == []
    {
      cache := new Lru(size);
      held, this.region, history, answers := results, region, [], [];
    }

    /** A result new to the client joins what it holds. */
    method Hold(value: CallResult)
      requires Apart() && value.Footprint() !! cache.Repr
      modifies this`held, this`region
      ensures Apart() && region == old(region) + value.Footprint() && held == old(held) + [value]
    {
      hide Aligned, AllOwned, ValuesOf;
      LargerRegion(region, value);
      region := region + value.Footprint();
      held := held + [value];
    }

    method DoRead(key: string, now: int)
      requires Valid()
      modifies this, cache
      ensures Valid() && history == old(history) + [LruModel.GetOp(key, now)]
      ensures cache.Repr == old(cache.Repr) && fresh(region - old(region))
    {
      hide LruModel.After, LruModel.Get, LruModel.Set, Aligned, AllOwned, Closed, ValuesOf, Answered;
      var value := cache.Get(key, now);
      ghost var answer: Option<ResultValue> := None;
      if value != null {
        answer := Some(value.Value());
        Hold(value);
      }
      OneMore(history, answers, cache.size, LruModel.GetOp(key, now), answer);
      history, answers := history + [LruModel.GetOp(key, now)], answers + [answer];
    }

    method DoWrite(key: string, value: CallResult?, ttl: int, now: int)
      requires Valid() && (value != null ==> value in region)
      modifies this, cache, cache.Repr
      ensures Valid() && fresh(cache.Repr - old(cache.Repr)) && region == old(region)
      ensures history == old(history)
        + [LruModel.SetOp(key, if value == null then None else Some(old(value.Value())), ttl, now)]
    {
      hide LruModel.After, LruModel.Get, LruModel.Set, Aligned, AllOwned;
      ghost var op: Op := LruModel.SetOp(key, if value == null then None else Some(value.Value()), ttl, now);
      if value != null {
        FootprintInRegion(region, value);
      }
      cache.Set(key, value, ttl, now);
      OneMore(history, answers, cache.size, op, None);
      history, answers := history + [op], answers + [None];
    }

    /** A part's byte slice becomes nil or a new one. */
    method PutSlice(slot: nat, part: nat, raw: bool, bytes: Option<seq<byte>>)
      requires Valid() && HasPart(slot, part)
      modifies this`region, region
      ensures Valid() && fresh(region - old(region))
      ensures held[slot].parts == old(held[slot].parts)
      ensures var p := held[slot].parts[part]; Bytes(if raw then p.raw else p.data) == bytes
    {
      hide LruModel.After, LruModel.Get, Aligned, AllOwned, Answered;
      var a := NewBytes(bytes);
      if a != null {
        region := region + {a};
      }
      var parts := held[slot].parts;
      var p := parts[part];
      parts[part] := if raw then p.(raw := a) else p.(data := a);
    }

    /** The part slice becomes a new one, shorter or longer, keeping some of the parts. */
    method PutParts(slot: nat, keep: nat, length: nat)
      requires Valid() && slot < |held|
      modifies this`region, region
      ensures Valid() && fresh(region - old(region)) && fresh(held[slot].parts) && held[slot].parts.Length == length
    {
      hide LruModel.After, LruModel.Get, Aligned, AllOwned, Answered;
      var kept := held[slot].parts[..];
      assert forall i :: 0 <= i < |kept| ==> Slices(kept[i]) <= region;
      var parts := KeepParts(kept, keep, length);
      region := region + {parts};
      held[slot].parts := parts;
    }

    /** The client makes a result of its own. */
    method PutResult(text: string, isError: bool)
      requires Valid()
      modifies this`region, this`held
      ensures Valid() && fresh(region - old(region))
      ensures |held| == |old(held)| + 1 && held[..|old(held)|] == old(held)
      ensures fresh(held[|held| - 1]) && held[|held| - 1].text == text && held[|held| - 1].isError == isError
    {
      hide LruModel.After, LruModel.Get, Aligned, AllOwned, Answered;
      var parts := new ContentPart[0];
      var r := new CallResult(text, parts, isError);
      region := region + {parts, r};
      held := held + [r];
    }

    /** Everything a holder of results can do to them without the cache's help. */
    method Scribble(op: ClientOp)
      requires Valid()
      modifies this`region, this`held, region
      ensures Valid() && fresh(region - old(region))
    {
      hide LruModel.After, LruModel.Get, Aligned, AllOwned, Answered;
      match op
      case SetSlice(slot, part, raw, bytes) =>
        if HasPart(slot, part) {
          PutSlice(slot, part, raw, bytes);
        }
      case NewParts(slot, keep, length) =>
        if slot < |held| {
          PutParts(slot, keep, length);
        }
      case NewResult(text, isError) => PutResult(text, isError);
      case _ => Overwrite(op);
    }

    /** The slot and part exist. */
    predicate HasPart(slot: nat, part: nat)
      reads this, held
    {
      slot < |held| && part < held[slot].parts.Length
    }

    /** The changes that allocate nothing. */
    method Overwrite(op: ClientOp)
      requires Valid()
      modifies region
      ensures Valid()
      ensures match op
        case SetText(slot, text) => slot < |held| ==> held[slot].text == text
        case SetIsError(slot, isError) => slot < |held| ==> held[slot].isError == isError
        case SetLabels(slot, part, kind, text, mimeType) => old(HasPart(slot, part)) ==>
          HasPart(slot, part) && var p := held[slot].parts[part]; p.kind == kind && p.text == text && p.mimeType == mimeType
        case SetByte(slot, part, raw, at, b) => old(HasPart(slot, part)) ==>
          && HasPart(slot, part)
          && var p := held[slot].parts[part];
             var a := if raw then p.raw else p.data;
             a != null && at < a.Length ==> a[at] == b
        case SharePart(slot, part, from, fromPart) => old(HasPart(slot, part) && HasPart(from, fromPart)) ==>
          HasPart(slot, part) && held[slot].parts[part] == old(held[from].parts[fromPart])
        case ShareParts(slot, from) => slot < |held| && from < |held| ==> held[slot].parts == old(held[from].parts)
        case _ => true
    {
      hide LruModel.After, LruModel.Get, Aligned, AllOwned, Answered;
      match op
      case SetLabels(slot, part, kind, text, mimeType) =>
        if HasPart(slot, part) {
          var parts := held[slot].parts;
          parts[part] := parts[part].(kind := kind, text := text, mimeType := mimeType);
        }
      case SetText(slot, text) =>
        if slot < |held| {
          held[slot].text := text;
        }
      case SetIsError(slot, isError) =>
        if slot < |held| {
          held[slot].isError := isError;
        }
      case SetByte(slot, part, raw, at, b) =>
        if HasPart(slot, part) {
          var p := held[slot].parts[part];
          var a := if raw then p.raw else p.data;
          if a != null && at < a.Length {
            assert a in Slices(held[slot].parts[part]);
            a[at] := b;
          }
        }
      case SharePart(slot, part, from, fromPart) =>
        if HasPart(slot, part) && HasPart(from, fromPart) {
          held[slot].parts[part] := held[from].parts[fromPart];
        }
      case ShareParts(slot, from) =>
        if slot < |held| && from < |held| {
          held[slot].parts := held[from].parts;
        }
      case _ =>
    }

    method Do(op: ClientOp)
      requires Valid()
      modifies this, cache, cache.Repr, region
      ensures Valid() && fresh(cache.Repr - old(cache.Repr)) && fresh(region - old(region))
      ensures match op
        case Read(key, now) => history == old(history) + [LruModel.GetOp(key, now)]
        case Write(key, slot, ttl, now) => old(slot < |held|) ==>
          history == old(history) + [LruModel.SetOp(key, Some(old(held[slot].Value())), ttl, now)]
        case WriteNil(key, ttl, now) => history == old(history) + [LruModel.SetOp(key, None, ttl, now)]
        case _ => history == old(history)
    {
      hide LruModel.After, LruModel.Get, Aligned, AllOwned, Answered, Closed, ValuesOf;
      match op
      case Read(key, now) => DoRead(key, now);
      case Write(key, slot, ttl, now) =>
        if slot < |held| {
          DoWrite(key, held[slot], ttl, now);
        }
      case WriteNil(key, ttl, now) => DoWrite(key, null, ttl, now);
      case _ => Scribble(op);
    }

    /**
     Any program of lookups, stores and scribbling: every hit equals the result as it was
     at the latest effective Set of its key.
     */
    method Play(ops: seq<ClientOp>)
      requires Valid()
      modifies this, cache, cache.Repr, region
      ensures Valid() && HitsAreAsSet(history, answers)
    {
      hide Apart;
      var i := 0;
      while i < |ops|
        invariant 0 <= i <= |ops|
        invariant Valid() && fresh(cache.Repr - old(cache.Repr)) && fresh(region - old(region))
        modifies this, cache, cache.Repr, region
      {
        Do(ops[i]);
        i := i + 1;
      }
      AnsweredAsSet(history, answers, cache.size);
    }
  }
}
