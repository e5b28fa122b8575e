/**
 The per-(server, tool) rate limiter (policy/policy.go). Time and tokens are reals.

 The bucket arithmetic is proved to refine a rule that never mentions tokens: a call is
 admitted exactly when admitting it keeps every window ending at it within
 burst + (window length) * burst / per. The limiter's promises follow from that rule.
 */
module TokenBucket {

  datatype Limits = Limits(per: real, burst: int)

  datatype Bucket = Bucket(tokens: real, last: real)

  datatype Verdict = Verdict(buckets: map<string, Bucket>, allowed: bool)

  datatype Drawn = Drawn(bucket: Bucket, allowed: bool)

  datatype Call = Call(key: string, time: real)

  function Min(x: real, y: real): real { if x <= y then x else y }

  /** Tokens earned in dt: `burst` of them every `per`. */
  function Gain(l: Limits, dt: real): real
    requires l.per > 0.0
  {
    dt / l.per * (l.burst as real)
  }

  /** A call on an existing bucket: refill, then take a token if there is one. */
  function Draw(l: Limits, b: Bucket, now: real): Drawn
    requires l.per > 0.0
  {
    var tokens := Min(l.burst as real, b.tokens + Gain(l, now - b.last));
    if tokens < 1.0 then Drawn(Bucket(tokens, now), false) else Drawn(Bucket(tokens - 1.0, now), true)
  }

  /** What `allow` does to the bucket map. */
  function Touch(l: Limits, buckets: map<string, Bucket>, key: string, now: real): Verdict
    requires l.per > 0.0
  {
    if key !in buckets then
      Verdict(buckets[key := Bucket(l.burst as real - 1.0, now)], true)
    else
      var d := Draw(l, buckets[key], now);
      Verdict(buckets[key := d.bucket], d.allowed)
  }

  // ---- the rule without tokens -------------------------------------------------------

  ghost predicate Sorted(times: seq<real>) {
    forall i, j :: 0 <= i < j < |times| ==> times[i] <= times[j]
  }

  /** Admitting a call at `now` keeps every window that starts at an admitted call within the bound. */
  ghost predicate Fits(l: Limits, admitted: seq<real>, now: real)
    requires l.per > 0.0
  {
    forall i :: 0 <= i < |admitted| ==>
      (|admitted| - i + 1) as real <= l.burst as real + Gain(l, now - admitted[i])
  }

  /** The admission rule; the first call on a key always passes, whatever `burst` is. */
  ghost predicate Admits(l: Limits, admitted: seq<real>, now: real)
    requires l.per > 0.0
  {
    admitted == [] || (l.burst >= 1 && Fits(l, admitted, now))
  }

  /** Tokens available at `now` after the given admissions, refused calls ignored. */
  ghost function Level(l: Limits, admitted: seq<real>, now: real): real
    requires l.per > 0.0
    decreases |admitted|
  {
    if admitted == [] then l.burst as real
    else
      var n := |admitted| - 1;
      Min(l.burst as real, Level(l, admitted[..n], admitted[n]) - 1.0 + Gain(l, now - admitted[n]))
  }

  lemma GainAdds(l: Limits, x: real, y: real)
    requires l.per > 0.0
    ensures Gain(l, x) + Gain(l, y) == Gain(l, x + y)
  {
    assert x / l.per + y / l.per == (x + y) / l.per;
  }

  lemma GainGrows(l: Limits, x: real, y: real)
    requires l.per > 0.0 && l.burst >= 0 && x <= y
    ensures Gain(l, x) <= Gain(l, y)
  {
    GainAdds(l, x, y - x);
    assert (y - x) / l.per >= 0.0;
  }

  /** Level is the least slack over all windows. */
  lemma {:induction false} LevelIsLeastSlack(l: Limits, admitted: seq<real>, now: real, x: real)
    requires l.per > 0.0
    ensures x <= Level(l, admitted, now) <==>
      x <= l.burst as real &&
      forall i :: 0 <= i < |admitted| ==>
        x + (|admitted| - i) as real <= l.burst as real + Gain(l, now - admitted[i])
    decreases |admitted|
  {
    if admitted != [] {
      var n := |admitted| - 1;
      var rest, t := admitted[..n], admitted[n];
      var y := x + 1.0 - Gain(l, now - t);
      LevelIsLeastSlack(l, rest, t, y);
      forall i | 0 <= i < n
        ensures y + (n - i) as real <= l.burst as real + Gain(l, t - rest[i])
          <==> x + (|admitted| - i) as real <= l.burst as real + Gain(l, now - admitted[i])
      {
        GainAdds(l, now - t, t - rest[i]);
        assert rest[i] == admitted[i];
      }
    }
  }

  /** Waiting refills, up to the burst. */
  lemma LevelAdvances(l: Limits, admitted: seq<real>, t: real, now: real)
    requires l.per > 0.0 && l.burst >= 0 && admitted != [] && t <= now
    ensures Level(l, admitted, now) == Min(l.burst as real, Level(l, admitted, t) + Gain(l, now - t))
  {
    var last := admitted[|admitted| - 1];
    GainAdds(l, t - last, now - t);
    GainGrows(l, 0.0, now - t);
  }

  /** One bucket agrees with the admissions on its key, the last call having come at b.last. */
  ghost predicate Tracks(l: Limits, b: Bucket, admitted: seq<real>)
    requires l.per > 0.0
  {
    && admitted != []
    && b.tokens <= l.burst as real
    && (l.burst >= 1 ==> 0.0 <= b.tokens)
    && (l.burst >= 1 ==>
          forall now :: b.last <= now ==>
            Min(l.burst as real, b.tokens + Gain(l, now - b.last)) == Level(l, admitted, now))
  }

  ghost function Next(l: Limits, admitted: seq<real>, now: real): seq<real>
    requires l.per > 0.0
  {
    if Admits(l, admitted, now) then admitted + [now] else admitted
  }

  lemma TouchFresh(l: Limits, now: real)
    requires l.per > 0.0
    ensures Tracks(l, Bucket(l.burst as real - 1.0, now), [now])
  {
    forall now' | now <= now'
      ensures Level(l, [now], now') == Min(l.burst as real, l.burst as real - 1.0 + Gain(l, now' - now))
    {
      assert [now][..0] == [];
    }
  }

  /** A call on a tracked bucket is decided by the rule, and the bucket goes on tracking. */
  lemma DrawTracks(l: Limits, b: Bucket, admitted: seq<real>, now: real)
    requires l.per > 0.0 && Tracks(l, b, admitted) && b.last <= now
    ensures Draw(l, b, now).allowed == Admits(l, admitted, now)
    ensures Tracks(l, Draw(l, b, now).bucket, Next(l, admitted, now)) && Draw(l, b, now).bucket.last == now
  {
    if l.burst >= 1 {
      var Drawn(b', ok) := Draw(l, b, now);
      LevelIsLeastSlack(l, admitted, now, 1.0);
      GainGrows(l, 0.0, now - b.last);
      forall now' | now <= now'
        ensures Min(l.burst as real, b'.tokens + Gain(l, now' - now)) == Level(l, Next(l, admitted, now), now')
      {
        if ok {
          assert (admitted + [now])[..|admitted|] == admitted;
        } else {
          LevelAdvances(l, admitted, now, now');
        }
      }
    }
  }

  /** Every bucket agrees with the admissions on its key, all calls having come by `clock`. */
  ghost predicate AllTrack(l: Limits, buckets: map<string, Bucket>, admitted: map<string, seq<real>>, clock: real)
    requires l.per > 0.0
  {
    && buckets.Keys == admitted.Keys
    && forall k :: k in buckets ==> Tracks(l, buckets[k], admitted[k]) && buckets[k].last <= clock
  }

  ghost function On(admitted: map<string, seq<real>>, key: string): seq<real> {
    if key in admitted then admitted[key] else []
  }

  /** One call, on whatever key: decided by the rule on that key's admissions alone. */
  lemma TouchTracks(l: Limits, buckets: map<string, Bucket>, admitted: map<string, seq<real>>, clock: real,
                    key: string, now: real)
    requires l.per > 0.0 && AllTrack(l, buckets, admitted, clock) && clock <= now
    ensures var v := Touch(l, buckets, key, now);
      && v.allowed == Admits(l, On(admitted, key), now)
      && AllTrack(l, v.buckets, admitted[key := Next(l, On(admitted, key), now)], now)
  {
    if key in buckets {
      DrawTracks(l, buckets[key], admitted[key], now);
    } else {
      TouchFresh(l, now);
    }
  }

  /** tokenBucket, with the admissions so far as ghost state. */
  class Limiter {
    const limits: Limits
    var buckets: map<string, Bucket>
    ghost var admitted: map<string, seq<real>>
    ghost var clock: real

    ghost predicate Valid()
      reads this
    {
      limits.per > 0.0 && AllTrack(limits, buckets, admitted, clock)
    }

    constructor (limits: Limits, now: real)
      requires limits.per > 0.0
      ensures Valid() && this.limits == limits && buckets == map[] && admitted == map[] && clock == now
    {
      this.limits := limits;
      buckets, admitted, clock := map[], map[], now;
    }

    /** The call passes exactly when every window ending at it stays within the bound. */
    method Allow(key: string, now: real) returns (ok: bool)
      requires Valid() && clock <= now
      modifies this
      ensures Valid() && clock == now
      ensures ok <==> Admits(limits, On(old(admitted), key), now)
      ensures admitted == old(admitted)[key := if ok then On(old(admitted), key) + [now] else On(old(admitted), key)]
      ensures Verdict(buckets, ok) == Touch(limits, old(buckets), key, now)
    {
      hide Admits, Fits, Tracks, Level;
      TouchTracks(limits, buckets, admitted, clock, key, now);
      if key !in buckets {
        buckets := buckets[key := Bucket(limits.burst as real - 1.0, now)];
        ok := true;
      } else {
        var b := buckets[key];
        var elapsed := now - b.last;
        var refill := elapsed / limits.per * (limits.burst as real);
        b := Bucket(Min(limits.burst as real, b.tokens + refill), now);
        if b.tokens < 1.0 {
          ok := false;
        } else {
          b := b.(tokens := b.tokens - 1.0);
          ok := true;
        }
        assert Drawn(b, ok) == Draw(limits, buckets[key], now);
        buckets := buckets[key := b];
      }
      clock := now;
      admitted := admitted[key := Next(limits, On(admitted, key), now)];
    }
  }

  // ---- whole call sequences --------------------------------------------------------

  predicate InOrder(calls: seq<Call>) {
    forall i, j :: 0 <= i < j < |calls| ==> calls[i].time <= calls[j].time
  }

  function Buckets(l: Limits, calls: seq<Call>): map<string, Bucket>
    requires l.per > 0.0
    decreases |calls|
  {
    if calls == [] then map[]
    else
      var n := |calls| - 1;
      Touch(l, Buckets(l, calls[..n]), calls[n].key, calls[n].time).buckets
  }

  /** Whether the limiter lets call c through after the given calls. */
  predicate Allowed(l: Limits, before: seq<Call>, c: Call)
    requires l.per > 0.0
  {
    Touch(l, Buckets(l, before), c.key, c.time).allowed
  }

  /** The times of the calls on `key` that were let through. */
  function Admitted(l: Limits, calls: seq<Call>, key: string): (times: seq<real>)
    requires l.per > 0.0
    decreases |calls|
  {
    if calls == [] then []
    else
      var n := |calls| - 1;
      Admitted(l, calls[..n], key)
      + if calls[n].key == key && Allowed(l, calls[..n], calls[n]) then [calls[n].time] else []
  }

  /** The per-key admissions as a map over the keys called so far. */
  ghost function AdmittedMap(l: Limits, calls: seq<Call>): map<string, seq<real>>
    requires l.per > 0.0
  {
    map k | k in Buckets(l, calls) :: Admitted(l, calls, k)
  }

  ghost function LastTime(calls: seq<Call>, default: real): real {
    if calls == [] then default else calls[|calls| - 1].time
  }

  /** The buckets track the admissions, and keys never called have none. */
  lemma {:induction false} BucketsTrack(l: Limits, calls: seq<Call>, start: real)
    requires l.per > 0.0 && InOrder(calls)
    ensures AllTrack(l, Buckets(l, calls), AdmittedMap(l, calls), LastTime(calls, start))
    ensures forall k :: k !in Buckets(l, calls) ==> Admitted(l, calls, k) == []
    decreases |calls|
  {
    if calls != [] {
      var n := |calls| - 1;
      var before, c := calls[..n], calls[n];
      BucketsTrack(l, before, c.time);
      TouchTracks(l, Buckets(l, before), AdmittedMap(l, before), LastTime(before, c.time), c.key, c.time);
      var next := AdmittedMap(l, before)[c.key := Next(l, On(AdmittedMap(l, before), c.key), c.time)];
      forall k | k in Buckets(l, calls)
        ensures k in next && next[k] == Admitted(l, calls, k)
      {
      }
      assert AdmittedMap(l, calls) == next;
    }
  }

  /**
   The limiter admits a call exactly when the rule does, given only the earlier
   admissions on the same key.
   */
  lemma AllowedIffAdmits(l: Limits, before: seq<Call>, c: Call)
    requires l.per > 0.0 && InOrder(before + [c])
    ensures Allowed(l, before, c) <==> Admits(l, Admitted(l, before, c.key), c.time)
  {
    assert before == (before + [c])[..|before|];
    forall i, j | 0 <= i < j < |before|
      ensures before[i].time <= before[j].time
    {
      assert (before + [c])[i] == before[i] && (before + [c])[j] == before[j];
    }
    BucketsTrack(l, before, c.time);
    if before != [] {
      assert (before + [c])[|before| - 1] == before[|before| - 1];
      assert (before + [c])[|before|] == c;
    }
    TouchTracks(l, Buckets(l, before), AdmittedMap(l, before), LastTime(before, c.time), c.key, c.time);
  }
}
