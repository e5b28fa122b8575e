/** What the rate limiter promises over whole call sequences, from the admission rule. */
module RateLimitLaws {
  import opened TokenBucket

  lemma PrefixInOrder(calls: seq<Call>, n: nat)
    requires InOrder(calls) && n <= |calls|
    ensures InOrder(calls[..n])
  {
  }

  /** The admissions on a key when every call is decided by the rule alone. */
  ghost function Greedy(l: Limits, calls: seq<Call>, key: string): seq<real>
    requires l.per > 0.0
    decreases |calls|
  {
    if calls == [] then []
    else
      var n := |calls| - 1;
      var a := Greedy(l, calls[..n], key);
      if calls[n].key == key then Next(l, a, calls[n].time) else a
  }

  /** The limiter admits what the rule admits, over whole sequences. */
  lemma {:induction false} LimiterIsGreedy(l: Limits, calls: seq<Call>, key: string)
    requires l.per > 0.0 && InOrder(calls)
    ensures Admitted(l, calls, key) == Greedy(l, calls, key)
    decreases |calls|
  {
    if calls != [] {
      var n := |calls| - 1;
      PrefixInOrder(calls, n);
      LimiterIsGreedy(l, calls[..n], key);
      if calls[n].key == key {
        assert calls[..n] + [calls[n]] == calls;
        AllowedIffAdmits(l, calls[..n], calls[n]);
      }
    }
  }

  /** Call n of a sequence, decided by the rule. */
  lemma DecidedByRule(l: Limits, calls: seq<Call>, n: nat)
    requires l.per > 0.0 && InOrder(calls) && n < |calls|
    ensures Allowed(l, calls[..n], calls[n]) <==> Admits(l, Greedy(l, calls[..n], calls[n].key), calls[n].time)
  {
    assert calls[..n] + [calls[n]] == calls[..n + 1];
    PrefixInOrder(calls, n);
    PrefixInOrder(calls, n + 1);
    AllowedIffAdmits(l, calls[..n], calls[n]);
    LimiterIsGreedy(l, calls[..n], calls[n].key);
  }

  /** After any sequence, every bucket holds between 0 and `burst` tokens. */
  lemma TokensInRange(l: Limits, calls: seq<Call>, key: string)
    requires l.per > 0.0 && l.burst >= 1 && InOrder(calls)
    requires key in Buckets(l, calls)
    ensures 0.0 <= Buckets(l, calls)[key].tokens <= l.burst as real
  {
    BucketsTrack(l, calls, 0.0);
  }

  // ---- the window bound ----------------------------------------------------------------

  /** Admissions are in order, and each fitted when it was made. */
  lemma {:induction false} AdmissionsFit(l: Limits, calls: seq<Call>, key: string)
    requires l.per > 0.0 && l.burst >= 1 && InOrder(calls)
    ensures var a := Greedy(l, calls, key);
      && Sorted(a)
      && (forall k :: 0 <= k < |a| ==> Fits(l, a[..k], a[k]))
      && (forall k :: 0 <= k < |a| ==> calls != [] && a[k] <= calls[|calls| - 1].time)
    decreases |calls|
  {
    if calls != [] {
      var n := |calls| - 1;
      PrefixInOrder(calls, n);
      AdmissionsFit(l, calls[..n], key);
      var a, a' := Greedy(l, calls[..n], key), Greedy(l, calls, key);
      if calls[n].key == key && Admits(l, a, calls[n].time) {
        forall k | 0 <= k < |a'|
          ensures Fits(l, a'[..k], a'[k])
        {
          assert a'[..k] == if k < |a| then a[..k] else a;
        }
      }
    }
  }

  /** How many of the times fall in [s, t]. */
  function CountIn(times: seq<real>, s: real, t: real): nat
    decreases |times|
  {
    if times == [] then 0
    else CountIn(times[..|times| - 1], s, t) + if s <= times[|times| - 1] <= t then 1 else 0
  }

  /** The times in a window lie between two of them. */
  lemma {:induction false} CountSpan(times: seq<real>, s: real, t: real) returns (i: nat, j: nat)
    requires CountIn(times, s, t) > 0
    ensures i <= j < |times| && s <= times[i] && times[j] <= t
    ensures CountIn(times, s, t) <= j - i + 1
    decreases |times|
  {
    var n := |times| - 1;
    var rest := times[..n];
    if CountIn(rest, s, t) == 0 {
      i, j := n, n;
    } else {
      i, j := CountSpan(rest, s, t);
      if s <= times[n] <= t {
        j := n;
      }
    }
  }

  /** Between any two instants, at most burst + (t-s)*burst/per calls on a key pass. */
  ghost predicate WithinBound(l: Limits, calls: seq<Call>, key: string, s: real, t: real)
    requires l.per > 0.0
  {
    CountIn(Admitted(l, calls, key), s, t) as real <= l.burst as real + (t - s) * (l.burst as real) / l.per
  }

  lemma GainIsRate(l: Limits, dt: real)
    requires l.per > 0.0
    ensures Gain(l, dt) == dt * (l.burst as real) / l.per
  {
    var x, b := dt / l.per, l.burst as real;
    assert dt == x * l.per;
    assert dt * b == (x * b) * l.per;
  }

  lemma WindowBound(l: Limits, calls: seq<Call>, key: string, s: real, t: real)
    requires l.per > 0.0 && l.burst >= 1 && InOrder(calls) && s <= t
    ensures WithinBound(l, calls, key, s, t)
  {
    CountBound(l, calls, key, s, t);
    GainIsRate(l, t - s);
  }

  lemma CountBound(l: Limits, calls: seq<Call>, key: string, s: real, t: real)
    requires l.per > 0.0 && l.burst >= 1 && InOrder(calls) && s <= t
    ensures CountIn(Admitted(l, calls, key), s, t) as real <= l.burst as real + Gain(l, t - s)
  {
    LimiterIsGreedy(l, calls, key);
    var a := Greedy(l, calls, key);
    assert Gain(l, 0.0) == 0.0;
    hide Gain, Greedy, Admitted;
    GainGrows(l, 0.0, t - s);
    if CountIn(a, s, t) > 0 {
      var i, j := CountSpan(a, s, t);
      AdmissionsFit(l, calls, key);
      GainGrows(l, a[j] - a[i], t - s);
      if i < j {
        assert Fits(l, a[..j], a[j]);
        assert a[..j][i] == a[i];
        assert (j - i + 1) as real <= l.burst as real + Gain(l, a[j] - a[i]);
      }
    }
  }

  const ONE_CALL := [Call("", 0.0)]

  /** The first call on a key passes whatever `burst` is. */
  lemma FreshKeyGetsOne(l: Limits)
    requires l.per > 0.0
    ensures InOrder(ONE_CALL) && CountIn(Admitted(l, ONE_CALL, ""), 0.0, 0.0) == 1
  {
    assert ONE_CALL[..0] == [];
    assert Admitted(l, ONE_CALL, "") == [0.0];
    assert [0.0][..0] == [];
  }

  /** The bound holds of every sequence exactly when `burst` is positive: a fresh key always gets one call. */
  lemma BoundIffPositiveBurst(l: Limits)
    requires l.per > 0.0
    ensures (forall calls, key, s, t :: InOrder(calls) && s <= t ==> WithinBound(l, calls, key, s, t))
            <==> l.burst >= 1
  {
    if l.burst >= 1 {
      forall calls, key, s, t | InOrder(calls) && s <= t
        ensures WithinBound(l, calls, key, s, t)
      {
        WindowBound(l, calls, key, s, t);
      }
    } else {
      FreshKeyGetsOne(l);
      assert !WithinBound(l, ONE_CALL, "", 0.0, 0.0);
    }
  }

  // ---- no unfair refusal ---------------------------------------------------------------

  /** While fewer than `burst` calls on the key have passed, the next one passes. */
  lemma BurstIsAvailable(l: Limits, calls: seq<Call>, n: nat)
    requires l.per > 0.0 && InOrder(calls) && n < |calls|
    requires |Admitted(l, calls[..n], calls[n].key)| < l.burst
    ensures Allowed(l, calls[..n], calls[n])
  {
    var a := Greedy(l, calls[..n], calls[n].key);
    DecidedByRule(l, calls, n);
    PrefixInOrder(calls, n);
    LimiterIsGreedy(l, calls[..n], calls[n].key);
    AdmissionsFit(l, calls[..n], calls[n].key);
    forall i | 0 <= i < |a|
      ensures (|a| - i + 1) as real <= l.burst as real + Gain(l, calls[n].time - a[i])
    {
      GainGrows(l, 0.0, calls[n].time - a[i]);
    }
  }

  function Gap(l: Limits): real
    requires l.burst >= 1
  {
    l.per / (l.burst as real)
  }

  function Times(k: nat, gap: real): real { k as real * gap }

  lemma TimesStep(k: nat, gap: real)
    ensures Times(k + 1, gap) == Times(k, gap) + gap
  {
  }

  lemma GainOfGaps(l: Limits, k: nat)
    requires l.per > 0.0 && l.burst >= 1
    ensures Gain(l, Times(k, Gap(l))) == k as real
  {
    var b, g := l.burst as real, Gap(l);
    assert g * b == l.per;
    assert k as real * g / l.per * b == k as real * (g * b) / l.per;
  }

  /** Calls on `key` come at least per/burst apart. */
  ghost predicate SpacedOut(l: Limits, calls: seq<Call>, key: string)
    requires l.burst >= 1
  {
    forall i, j :: 0 <= i < j < |calls| && calls[i].key == key && calls[j].key == key ==>
      calls[j].time - calls[i].time >= Gap(l)
  }

  /** The k-th last admission lies at least k gaps back. */
  ghost predicate FarApart(a: seq<real>, now: real, gap: real) {
    forall i :: 0 <= i < |a| ==> now - a[i] >= Times(|a| - i, gap)
  }

  lemma FarApartFits(l: Limits, a: seq<real>, now: real)
    requires l.per > 0.0 && l.burst >= 1 && FarApart(a, now, Gap(l))
    ensures Fits(l, a, now)
  {
    forall i | 0 <= i < |a|
      ensures (|a| - i + 1) as real <= l.burst as real + Gain(l, now - a[i])
    {
      GainOfGaps(l, |a| - i);
      GainGrows(l, Times(|a| - i, Gap(l)), now - a[i]);
    }
  }

  lemma FarApartExtends(a: seq<real>, t: real, now: real, gap: real)
    requires FarApart(a, t, gap) && now - t >= gap
    ensures FarApart(a + [t], now, gap)
  {
    forall i | 0 <= i < |a| + 1
      ensures now - (a + [t])[i] >= Times(|a| + 1 - i, gap)
    {
      TimesStep(|a| - i, gap);
    }
  }

  /** The admissions on a spaced-out key are themselves spaced out, up to any later call on it. */
  lemma {:induction false} AdmissionsSpaced(l: Limits, calls: seq<Call>, n: nat, m: nat)
    requires l.per > 0.0 && l.burst >= 1 && n <= m < |calls|
    requires SpacedOut(l, calls, calls[m].key)
    ensures FarApart(Greedy(l, calls[..n], calls[m].key), calls[m].time, Gap(l))
    decreases n
  {
    if n > 0 {
      var key := calls[m].key;
      assert calls[..n][..n - 1] == calls[..n - 1];
      var a := Greedy(l, calls[..n - 1], key);
      if calls[n - 1].key == key && Admits(l, a, calls[n - 1].time) {
        AdmissionsSpaced(l, calls, n - 1, n - 1);
        FarApartExtends(a, calls[n - 1].time, calls[m].time, Gap(l));
      } else {
        AdmissionsSpaced(l, calls, n - 1, m);
      }
    }
  }

  /** A caller spacing its calls at least per/burst apart is never refused. */
  lemma SpacedCallsPass(l: Limits, calls: seq<Call>, n: nat)
    requires l.per > 0.0 && l.burst >= 1 && InOrder(calls) && n < |calls|
    requires SpacedOut(l, calls, calls[n].key)
    ensures Allowed(l, calls[..n], calls[n])
  {
    DecidedByRule(l, calls, n);
    AdmissionsSpaced(l, calls, n, n);
    FarApartFits(l, Greedy(l, calls[..n], calls[n].key), calls[n].time);
  }

  // ---- refused calls and other keys ------------------------------------------------------

  function Without(calls: seq<Call>, j: nat): seq<Call>
    requires j < |calls|
  {
    calls[..j] + calls[j + 1..]
  }

  /** Deleting a refused call leaves the admissions on every key as they were. */
  lemma {:induction false} AdmissionsWithoutRefused(l: Limits, calls: seq<Call>, j: nat, key: string)
    requires l.per > 0.0 && j < |calls|
    requires !Admits(l, Greedy(l, calls[..j], calls[j].key), calls[j].time)
    ensures Greedy(l, Without(calls, j), key) == Greedy(l, calls, key)
    decreases |calls|
  {
    var n := |calls| - 1;
    if j == n {
      assert Without(calls, j) == calls[..n];
    } else {
      var short := Without(calls[..n], j);
      assert calls[..n][..j] == calls[..j];
      AdmissionsWithoutRefused(l, calls[..n], j, key);
      assert Without(calls, j) == short + [calls[n]];
      assert (short + [calls[n]])[..|short|] == short;
    }
  }

  lemma WithoutInOrder(calls: seq<Call>, j: nat)
    requires InOrder(calls) && j < |calls|
    ensures InOrder(Without(calls, j))
  {
  }

  /** Refused calls are free: without one, every later decision, on every key, is the same. */
  lemma RefusedCallsAreFree(l: Limits, calls: seq<Call>, j: nat, i: nat)
    requires l.per > 0.0 && InOrder(calls) && j < i < |calls| && !Allowed(l, calls[..j], calls[j])
    ensures Without(calls, j)[i - 1] == calls[i]
    ensures Allowed(l, Without(calls, j)[..i - 1], calls[i]) == Allowed(l, calls[..i], calls[i])
  {
    assert Without(calls, j)[..i - 1] == Without(calls[..i], j);
    assert calls[..i][..j] == calls[..j];
    DecidedByRule(l, calls, j);
    AdmissionsWithoutRefused(l, calls[..i], j, calls[i].key);
    DecidedByRule(l, calls, i);
    WithoutInOrder(calls, j);
    DecidedByRule(l, Without(calls, j), i - 1);
  }

  /** The calls on one key. */
  function OnKey(calls: seq<Call>, key: string): (own: seq<Call>)
    ensures forall i :: 0 <= i < |own| ==> own[i] in calls
    decreases |calls|
  {
    if calls == [] then []
    else
      var n := |calls| - 1;
      OnKey(calls[..n], key) + if calls[n].key == key then [calls[n]] else []
  }

  lemma {:induction false} OnKeyInOrder(calls: seq<Call>, key: string)
    requires InOrder(calls)
    ensures InOrder(OnKey(calls, key))
    decreases |calls|
  {
    if calls != [] {
      var n := |calls| - 1;
      PrefixInOrder(calls, n);
      OnKeyInOrder(calls[..n], key);
    }
  }

  lemma {:induction false} GreedyReadsOwnKey(l: Limits, calls: seq<Call>, key: string)
    requires l.per > 0.0
    ensures Greedy(l, OnKey(calls, key), key) == Greedy(l, calls, key)
    decreases |calls|
  {
    if calls != [] {
      var n := |calls| - 1;
      var own := OnKey(calls[..n], key);
      GreedyReadsOwnKey(l, calls[..n], key);
      if calls[n].key == key {
        assert (own + [calls[n]])[..|own|] == own;
      } else {
        assert OnKey(calls, key) == own;
      }
    }
  }

  /** Calls on one key never affect another key. */
  lemma KeysAreIndependent(l: Limits, calls: seq<Call>, key: string)
    requires l.per > 0.0 && InOrder(calls)
    ensures Admitted(l, OnKey(calls, key), key) == Admitted(l, calls, key)
  {
    OnKeyInOrder(calls, key);
    LimiterIsGreedy(l, calls, key);
    LimiterIsGreedy(l, OnKey(calls, key), key);
    GreedyReadsOwnKey(l, calls, key);
  }

  // ---- the documented rate ---------------------------------------------------------------

  /** The bound the documentation implies: one further token every `per`. */
  ghost predicate WithinDocumented(l: Limits, calls: seq<Call>, key: string, s: real, t: real)
    requires l.per > 0.0
  {
    CountIn(Admitted(l, calls, key), s, t) as real <= l.burst as real + (t - s) / l.per
  }

  /** `burst` calls at once, and `burst` more after `per`. */
  function TwoBursts(l: Limits, n: nat): seq<Call> {
    seq(n, i requires 0 <= i < n => Call("", if i < l.burst then 0.0 else l.per))
  }

  lemma GainOfPer(l: Limits)
    requires l.per > 0.0
    ensures Gain(l, l.per) == l.burst as real && Gain(l, 0.0) == 0.0
  {
    var q := l.per / l.per;
    assert q == 1.0;
    var z := 0.0 / l.per;
    assert z == 0.0;
  }

  /** The call that would come n-th in two bursts fits after the n before it. */
  lemma TwoBurstsFit(l: Limits, n: nat, a: seq<real>)
    requires l.per > 0.0 && l.burst >= 1 && n < 2 * l.burst && |a| == n
    requires forall i :: 0 <= i < n ==> a[i] == if i < l.burst then 0.0 else l.per
    ensures Fits(l, a, if n < l.burst then 0.0 else l.per)
  {
    hide Gain;
    GainOfPer(l);
    var now := if n < l.burst then 0.0 else l.per;
    forall i | 0 <= i < |a|
      ensures (|a| - i + 1) as real <= l.burst as real + Gain(l, now - a[i])
    {
      if i < l.burst <= n {
        assert now - a[i] == l.per;
      } else {
        assert now - a[i] == 0.0;
      }
    }
  }

  lemma {:induction false} TwoBurstsPass(l: Limits, n: nat)
    requires l.per > 0.0 && l.burst >= 1 && n <= 2 * l.burst
    ensures var a := Greedy(l, TwoBursts(l, n), "");
      |a| == n && forall i :: 0 <= i < n ==> a[i] == if i < l.burst then 0.0 else l.per
    decreases n
  {
    if n > 0 {
      TwoBurstsPass(l, n - 1);
      assert TwoBursts(l, n)[..n - 1] == TwoBursts(l, n - 1);
      TwoBurstsFit(l, n - 1, Greedy(l, TwoBursts(l, n - 1), ""));
    }
  }

  lemma TwoBurstsInOrder(l: Limits, n: nat)
    requires l.per > 0.0
    ensures InOrder(TwoBursts(l, n))
  {
  }

  lemma {:induction false} CountAll(times: seq<real>, s: real, t: real)
    requires forall i :: 0 <= i < |times| ==> s <= times[i] <= t
    ensures CountIn(times, s, t) == |times|
    decreases |times|
  {
    if times != [] {
      CountAll(times[..|times| - 1], s, t);
    }
  }

  lemma BurstOneKeepsDocumented(l: Limits, calls: seq<Call>, key: string, s: real, t: real)
    requires l.per > 0.0 && l.burst == 1 && InOrder(calls) && s <= t
    ensures WithinDocumented(l, calls, key, s, t)
  {
    CountBound(l, calls, key, s, t);
    assert Gain(l, t - s) == (t - s) / l.per;
  }

  lemma TwoBurstsCount(l: Limits, times: seq<real>)
    requires l.per > 0.0 && l.burst >= 1 && times == Greedy(l, TwoBursts(l, 2 * l.burst), "")
    ensures CountIn(times, 0.0, l.per) == 2 * l.burst
  {
    TwoBurstsPass(l, 2 * l.burst);
    CountAll(times, 0.0, l.per);
  }

  /** With a larger burst, two bursts one `per` apart exceed the documented rate. */
  lemma TwoBurstsExceedDocumented(l: Limits)
    requires l.per > 0.0 && l.burst >= 2
    ensures InOrder(TwoBursts(l, 2 * l.burst))
    ensures !WithinDocumented(l, TwoBursts(l, 2 * l.burst), "", 0.0, l.per)
  {
    hide Admitted, Greedy, CountIn, TwoBursts, InOrder;
    var calls := TwoBursts(l, 2 * l.burst);
    TwoBurstsInOrder(l, 2 * l.burst);
    LimiterIsGreedy(l, calls, "");
    TwoBurstsCount(l, Greedy(l, calls, ""));
    var q := (l.per - 0.0) / l.per;
    assert q == 1.0;
  }

  /** The code keeps the documented rate exactly when `burst` is 1. */
  lemma DocumentedRateIffBurstOne(l: Limits)
    requires l.per > 0.0
    ensures (forall calls, key, s, t :: InOrder(calls) && s <= t ==> WithinDocumented(l, calls, key, s, t))
            <==> l.burst == 1
  {
    if l.burst == 1 {
      forall calls, key, s, t | InOrder(calls) && s <= t
        ensures WithinDocumented(l, calls, key, s, t)
      {
        BurstOneKeepsDocumented(l, calls, key, s, t);
      }
    } else if l.burst >= 2 {
      TwoBurstsExceedDocumented(l);
    } else {
      FreshKeyGetsOne(l);
      assert !WithinDocumented(l, ONE_CALL, "", 0.0, 0.0);
    }
  }
}
