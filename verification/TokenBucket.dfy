/** The token bucket that the request limiter and both halves of the dispatch
    limiter share. Tokens are exact reals, clock readings integer nanoseconds. */
module TokenBucket {
  import opened Options

  const NANOS: real := 1_000_000_000.0

  /** Tokens per second, and the most that a bucket holds. */
  datatype Policy = Policy(rate: real, burst: real) {
    predicate Limits() { rate > 0.0 && burst > 0.0 }
  }

  datatype Bucket = Bucket(tokens: real, last: int)

  datatype Decision = Allowed | Denied(retryAfter: int)

  /** Tokens earned in `ns` nanoseconds. */
  function Earned(rate: real, ns: int): real { ns as real / NANOS * rate }

  function Refill(p: Policy, b: Bucket, now: int): Bucket {
    if now <= b.last then b
    else
      var tokens := b.tokens + Earned(p.rate, now - b.last);
      Bucket(if tokens > p.burst then p.burst else tokens, now)
  }

  /** Nanoseconds until one whole token, rounded down. */
  function Wait(p: Policy, tokens: real): int
    requires p.Limits()
  {
    ((1.0 - tokens) / p.rate * NANOS).Floor
  }

  predicate HasToken(p: Policy, b: Bucket, now: int) { Refill(p, b, now).tokens >= 1.0 }

  function Spend(p: Policy, b: Bucket, now: int): Bucket {
    var r := Refill(p, b, now);
    if HasToken(p, b, now) then Bucket(r.tokens - 1.0, r.last) else r
  }

  function Take(p: Policy, b: Bucket, now: int): (Bucket, Decision)
    requires p.Limits()
  {
    (Spend(p, b, now), if HasToken(p, b, now) then Allowed else Denied(Wait(p, Refill(p, b, now).tokens)))
  }

  /** The body of the three Allow functions: refill, then take one token or say
      how long to wait. */
  method TakeToken(p: Policy, b: Bucket, now: int) returns (b': Bucket, d: Decision)
    requires p.Limits()
    ensures (b', d) == Take(p, b, now)
  {
    var tokens, last := b.tokens, b.last;
    var elapsed := (now - last) as real / NANOS;
    if elapsed > 0.0 {
      tokens := tokens + elapsed * p.rate;
      if tokens > p.burst { tokens := p.burst; }
      last := now;
    }
    if tokens >= 1.0 {
      return Bucket(tokens - 1.0, last), Allowed;
    }
    var wait := (1.0 - tokens) / p.rate * NANOS;
    return Bucket(tokens, last), Denied(wait.Floor);
  }

  /** A key without a bucket starts with a full one. */
  function Start(p: Policy, b: Option<Bucket>, now: int): Bucket {
    if b.None? then Bucket(p.burst, now) else b.value
  }

  /** A whole run of calls on one bucket, given by their clock readings. */
  function After(p: Policy, b: Option<Bucket>, times: seq<int>): Option<Bucket>
    requires p.Limits()
    decreases |times|
  {
    if times == [] then b
    else
      var now := times[|times| - 1];
      Some(Spend(p, Start(p, After(p, b, times[..|times| - 1]), now), now))
  }

  function Grants(p: Policy, b: Option<Bucket>, times: seq<int>): nat
    requires p.Limits()
    decreases |times|
  {
    if times == [] then 0
    else
      var now, init := times[|times| - 1], times[..|times| - 1];
      Grants(p, b, init) + if HasToken(p, Start(p, After(p, b, init), now), now) then 1 else 0
  }

  lemma CallsSnoc(p: Policy, b: Option<Bucket>, times: seq<int>, now: int)
    requires p.Limits()
    ensures var at := Start(p, After(p, b, times), now);
      && After(p, b, times + [now]) == Some(Spend(p, at, now))
      && Grants(p, b, times + [now]) == Grants(p, b, times) + if HasToken(p, at, now) then 1 else 0
  {
    assert (times + [now])[..|times|] == times;
  }

  /** The running-max clock: the largest reading so far, that of an existing
      bucket's last refill included. */
  function Clock(b: Option<Bucket>, times: seq<int>): int
    requires b.Some? || times != []
    decreases |times|
  {
    if times == [] then b.value.last
    else
      var now, init := times[|times| - 1], times[..|times| - 1];
      if (b.None? && init == []) || Clock(b, init) <= now then now else Clock(b, init)
  }

  predicate InBounds(p: Policy, b: Option<Bucket>) {
    b.Some? ==> 0.0 <= b.value.tokens <= p.burst
  }

  lemma EarnedAdds(rate: real, a: int, b: int)
    ensures Earned(rate, a) + Earned(rate, b) == Earned(rate, a + b)
  {
    var x, y := a as real / NANOS, b as real / NANOS;
    assert (x + y) * rate == x * rate + y * rate;
    assert (a + b) as real / NANOS == x + y;
  }

  /** One call: what is granted and kept was there before or has been earned. */
  lemma TakePays(p: Policy, b: Bucket, now: int)
    requires p.Limits()
    ensures var (b', d) := Take(p, b, now);
      && b'.tokens + (if d.Allowed? then 1.0 else 0.0) <= b.tokens + Earned(p.rate, b'.last - b.last)
      && b'.last == (if now > b.last then now else b.last)
      && (b.tokens <= p.burst ==> b'.tokens <= p.burst)
  {
    assert Earned(p.rate, 0) == 0.0;
  }

  lemma {:induction false} RunPays(p: Policy, b: Bucket, times: seq<int>)
    requires p.Limits()
    ensures var b' := After(p, Some(b), times);
      && b'.Some?
      && b'.value.tokens + Grants(p, Some(b), times) as real <= b.tokens + Earned(p.rate, b'.value.last - b.last)
    decreases |times|
  {
    if times == [] {
      assert Earned(p.rate, 0) == 0.0;
    } else {
      var now, init := times[|times| - 1], times[..|times| - 1];
      RunPays(p, b, init);
      var mid := After(p, Some(b), init).value;
      TakePays(p, mid, now);
      EarnedAdds(p.rate, mid.last - b.last, Take(p, mid, now).0.last - mid.last);
    }
  }

  /** After any run the bucket is no fuller than its burst, not in debt, and its
      refill time is the running-max clock: readings that arrive late change
      nothing. */
  lemma {:induction false} RunKeepsBucket(p: Policy, b: Option<Bucket>, times: seq<int>)
    requires p.Limits() && InBounds(p, b)
    ensures var b' := After(p, b, times);
      InBounds(p, b') && (b.Some? || times != [] ==> b'.Some? && b'.value.last == Clock(b, times))
    decreases |times|
  {
    if times != [] {
      var now, init := times[|times| - 1], times[..|times| - 1];
      RunKeepsBucket(p, b, init);
      var mid := Start(p, After(p, b, init), now);
      TakePays(p, mid, now);
      EarnedNonNegative(p.rate, now - mid.last);
    }
  }

  lemma EarnedNonNegative(rate: real, ns: int)
    requires rate > 0.0
    ensures ns >= 0 ==> Earned(rate, ns) >= 0.0
  {
    if ns >= 0 {
      var x := ns as real / NANOS;
      assert x >= 0.0;
    }
  }

  /** A window of calls that finds bucket `b`: what it grants is bounded by the
      burst and the rate times the advance of the running-max clock from its
      first call to its last. */
  lemma WindowBound(p: Policy, b: Option<Bucket>, window: seq<int>)
    requires p.Limits() && InBounds(p, b) && window != []
    ensures Grants(p, b, window) as real <= p.burst + Earned(p.rate, Clock(b, window) - Clock(b, window[..1]))
  {
    var start := Refill(p, Start(p, b, window[0]), window[0]);
    RunKeepsBucket(p, b, window);
    FirstCallRefills(p, b, window);
    RunPays(p, start, window);
    assert window[..1][..0] == [];
  }

  /** The first call may be thought of as finding the bucket already refilled. */
  lemma {:induction false} FirstCallRefills(p: Policy, b: Option<Bucket>, times: seq<int>)
    requires p.Limits() && times != []
    ensures var b' := Some(Refill(p, Start(p, b, times[0]), times[0]));
      After(p, b, times) == After(p, b', times) && Grants(p, b, times) == Grants(p, b', times)
    decreases |times|
  {
    var init := times[..|times| - 1];
    if init != [] { FirstCallRefills(p, b, init); }
  }

  // ---- what is not granted is still there ----

  /** What the refill of a call would bring, before the cap. */
  function Uncapped(p: Policy, b: Bucket, now: int): real {
    b.tokens + Earned(p.rate, if now > b.last then now - b.last else 0)
  }

  /** No refill of the run goes over the burst, so none is cut. */
  predicate NeverCapped(p: Policy, b: Bucket, times: seq<int>)
    requires p.Limits()
    decreases |times|
  {
    times == [] ||
    var init, now := times[..|times| - 1], times[|times| - 1];
    NeverCapped(p, b, init) && Uncapped(p, Start(p, After(p, Some(b), init), now), now) <= p.burst
  }

  /** One call: a grant costs exactly one token, and a denial none. */
  lemma TakeBalances(p: Policy, b: Bucket, now: int)
    requires p.Limits() && Uncapped(p, b, now) <= p.burst
    ensures var (b', d) := Take(p, b, now);
      b'.tokens + (if d.Allowed? then 1.0 else 0.0) == b.tokens + Earned(p.rate, b'.last - b.last)
  {
    assert Earned(p.rate, 0) == 0.0;
  }

  /** Over any run without a cut refill, tokens left and grants are exactly the
      tokens at the start and what the clock's advance has earned. */
  lemma {:induction false} RunBalances(p: Policy, b: Bucket, times: seq<int>)
    requires p.Limits() && NeverCapped(p, b, times)
    ensures var b' := After(p, Some(b), times);
      && b'.Some?
      && b'.value.tokens + Grants(p, Some(b), times) as real == b.tokens + Earned(p.rate, b'.value.last - b.last)
    decreases |times|
  {
    if times == [] {
      assert Earned(p.rate, 0) == 0.0;
    } else {
      var now, init := times[|times| - 1], times[..|times| - 1];
      RunBalances(p, b, init);
      var mid := After(p, Some(b), init).value;
      TakeBalances(p, mid, now);
      EarnedAdds(p.rate, mid.last - b.last, Take(p, mid, now).0.last - mid.last);
    }
  }

  /** `n` readings of one moment. */
  function Moment(now: int, n: nat): seq<int> { if n == 0 then [] else Moment(now, n - 1) + [now] }

  function Min(a: int, b: int): int { if a < b then a else b }

  /** Calls at one moment are granted one by one as far as whole tokens go. */
  lemma {:induction false} MomentGrants(p: Policy, b: Option<Bucket>, now: int, n: nat)
    requires p.Limits() && InBounds(p, b)
    ensures var full := Refill(p, Start(p, b, now), now);
      var granted := Min(n, full.tokens.Floor);
      && Grants(p, b, Moment(now, n)) == granted
      && (n > 0 ==> After(p, b, Moment(now, n)) == Some(Spent(full, n)))
  {
    RefilledNow(p, b, now);
    FullMoment(p, Refill(p, Start(p, b, now), now), now, n);
    if n > 0 {
      MomentIsOneTime(now, n);
      FirstCallRefills(p, b, Moment(now, n));
    }
  }

  lemma {:induction false} MomentIsOneTime(now: int, n: nat)
    ensures |Moment(now, n)| == n && (n > 0 ==> Moment(now, n)[0] == now)
  {
    if n > 0 { MomentIsOneTime(now, n - 1); }
  }

  /** What `n` calls at one moment leave of a bucket. */
  function Spent(full: Bucket, n: nat): Bucket { Bucket(full.tokens - Min(n, full.tokens.Floor) as real, full.last) }

  /** The same from a bucket already refilled. */
  lemma {:induction false} FullMoment(p: Policy, full: Bucket, now: int, n: nat)
    requires p.Limits() && full.tokens >= 0.0 && full.last >= now
    ensures Grants(p, Some(full), Moment(now, n)) == Min(n, full.tokens.Floor)
    ensures After(p, Some(full), Moment(now, n)) == Some(Spent(full, n))
  {
    if n > 0 {
      FullMoment(p, full, now, n - 1);
      CallsSnoc(p, Some(full), Moment(now, n - 1), now);
      NextAtMoment(p, full, now, n);
    }
  }

  lemma RefilledNow(p: Policy, b: Option<Bucket>, now: int)
    requires p.Limits() && InBounds(p, b)
    ensures var full := Refill(p, Start(p, b, now), now); full.tokens >= 0.0 && full.last >= now
  {
    EarnedNonNegative(p.rate, now - Start(p, b, now).last);
  }

  /** The n-th call at one moment, the earlier ones granted as far as tokens went. */
  lemma NextAtMoment(p: Policy, full: Bucket, now: int, n: nat)
    requires n > 0 && full.tokens >= 0.0 && full.last >= now
    ensures var before, after := Min(n - 1, full.tokens.Floor), Min(n, full.tokens.Floor);
      && Spend(p, Spent(full, n - 1), now) == Spent(full, n)
      && after == before + if HasToken(p, Spent(full, n - 1), now) then 1 else 0
  {
  }

  // ---- RetryAfter ----

  predicate NonDecreasingFrom(now: int, times: seq<int>) {
    && (forall i :: 0 <= i < |times| ==> now <= times[i])
    && (forall i, j :: 0 <= i < j < |times| ==> times[i] <= times[j])
  }

  /** While nothing is granted, split refills add up to one refill. */
  lemma {:induction false} DeniedCallsAddUp(p: Policy, b: Bucket, times: seq<int>)
    requires p.Limits() && b.tokens < 1.0 <= p.burst
    requires NonDecreasingFrom(b.last, times) && Grants(p, Some(b), times) == 0
    ensures var last := if times == [] then b.last else times[|times| - 1];
      After(p, Some(b), times) == Some(Bucket(b.tokens + Earned(p.rate, last - b.last), last))
    decreases |times|
  {
    assert Earned(p.rate, 0) == 0.0;
    if times != [] {
      var now, init := times[|times| - 1], times[..|times| - 1];
      DeniedCallsAddUp(p, b, init);
      var mid := After(p, Some(b), init).value;
      EarnedAdds(p.rate, mid.last - b.last, now - mid.last);
    }
  }

  lemma WaitIsSharp(p: Policy, tokens: real, ns: int)
    requires p.Limits() && tokens < 1.0
    ensures ns < Wait(p, tokens) ==> tokens + Earned(p.rate, ns) < 1.0
    ensures ns > Wait(p, tokens) ==> tokens + Earned(p.rate, ns) > 1.0
    ensures ns == Wait(p, tokens) ==>
              (tokens + Earned(p.rate, ns) >= 1.0 <==>
               (1.0 - tokens) / p.rate * NANOS == ns as real)
  {
    var exact := (1.0 - tokens) / p.rate * NANOS;
    var x, y := ns as real / NANOS, exact / NANOS;
    assert y == (1.0 - tokens) / p.rate;
    assert y * p.rate == 1.0 - tokens;
    MulOrder(x, y, p.rate);
    MulOrder(y, x, p.rate);
  }

  lemma MulOrder(x: real, y: real, r: real)
    requires r > 0.0
    ensures x < y ==> x * r < y * r
  {
  }

  lemma TakeAfterWait(p: Policy, b: Bucket, last: int, now: int)
    requires p.Limits() && b.tokens < 1.0 <= p.burst && b.last <= last <= now
    ensures var mid := Bucket(b.tokens + Earned(p.rate, last - b.last), last);
      HasToken(p, mid, now) <==> b.tokens + Earned(p.rate, now - b.last) >= 1.0
  {
    EarnedAdds(p.rate, last - b.last, now - last);
    assert Earned(p.rate, 0) == 0.0;
  }

  /** The call at `at` finds `b0` and is denied. With a clock that does not go
      back and no grant in between, however many denied calls follow: any call
      before the announced time is denied; any later than it by a nanosecond or
      more is granted; one exactly then is granted if and only if the wait came
      out in whole nanoseconds. With a burst below one token nothing ever is. */
  lemma RetryAfterIsSharp(p: Policy, b0: Bucket, at: int, times: seq<int>, now: int)
    requires p.Limits() && b0.tokens <= p.burst && b0.last <= at && Take(p, b0, at).1.Denied?
    requires NonDecreasingFrom(at, times + [now]) && Grants(p, Some(Take(p, b0, at).0), times) == 0
    ensures var (b, denial) := Take(p, b0, at);
      var retryAt := at + denial.retryAfter;
      var allowed := Take(p, After(p, Some(b), times).value, now).1.Allowed?;
      && (p.burst < 1.0 ==> !allowed)
      && (p.burst >= 1.0 ==>
            && (now < retryAt ==> !allowed)
            && (now > retryAt ==> allowed)
            && (now == retryAt ==> (allowed <==> (1.0 - b.tokens) / p.rate * NANOS == denial.retryAfter as real)))
  {
    DenialLeaves(p, b0, at);
    var b := Take(p, b0, at).0;
    if p.burst < 1.0 {
      SmallBurstDenies(p, b, times, now);
    } else {
      TokenAfterDenials(p, b, times, now);
      WaitIsSharp(p, b.tokens, now - at);
    }
  }

  lemma DenialLeaves(p: Policy, b0: Bucket, at: int)
    requires p.Limits() && b0.tokens <= p.burst && b0.last <= at && Take(p, b0, at).1.Denied?
    ensures var (b, denial) := Take(p, b0, at);
      b.tokens < 1.0 && b.tokens <= p.burst && b.last == at && denial.retryAfter == Wait(p, b.tokens)
  {
  }

  lemma SmallBurstDenies(p: Policy, b: Bucket, times: seq<int>, now: int)
    requires p.Limits() && b.tokens <= p.burst < 1.0
    ensures After(p, Some(b), times).Some? && !HasToken(p, After(p, Some(b), times).value, now)
  {
    SmallBurstNeverGrants(p, b, times);
    assert times == [] || After(p, Some(b), times).Some?;
  }

  /** Whether there is a token after denied calls depends on the time since alone. */
  lemma TokenAfterDenials(p: Policy, b: Bucket, times: seq<int>, now: int)
    requires p.Limits() && b.tokens < 1.0 <= p.burst
    requires NonDecreasingFrom(b.last, times + [now]) && Grants(p, Some(b), times) == 0
    ensures After(p, Some(b), times).Some?
    ensures HasToken(p, After(p, Some(b), times).value, now) <==> b.tokens + Earned(p.rate, now - b.last) >= 1.0
  {
    var all := times + [now];
    assert NonDecreasingFrom(b.last, times) by {
      assert forall i :: 0 <= i < |times| ==> times[i] == all[i];
    }
    var last := if times == [] then b.last else times[|times| - 1];
    assert b.last <= last <= now by {
      assert all[|times|] == now && (times != [] ==> all[|times| - 1] == last);
    }
    DeniedCallsAddUp(p, b, times);
    TakeAfterWait(p, b, last, now);
  }

  lemma {:induction false} SmallBurstNeverGrants(p: Policy, b: Bucket, times: seq<int>)
    requires p.Limits() && b.tokens <= p.burst < 1.0
    ensures Grants(p, Some(b), times) == 0 && After(p, Some(b), times).value.tokens <= p.burst
    decreases |times|
  {
    if times != [] { SmallBurstNeverGrants(p, b, times[..|times| - 1]); }
  }

  /** Hence no call before the announced time is granted, whatever calls come. */
  lemma {:induction false} NothingBeforeRetryAfter(p: Policy, b0: Bucket, at: int, times: seq<int>)
    requires p.Limits() && b0.tokens <= p.burst && b0.last <= at && Take(p, b0, at).1.Denied?
    requires NonDecreasingFrom(at, times)
    requires forall i :: 0 <= i < |times| ==> times[i] < at + Take(p, b0, at).1.retryAfter
    ensures Grants(p, Some(Take(p, b0, at).0), times) == 0
    decreases |times|
  {
    if times != [] {
      var now, init := times[|times| - 1], times[..|times| - 1];
      NothingBeforeRetryAfter(p, b0, at, init);
      assert init + [now] == times;
      RetryAfterIsSharp(p, b0, at, init, now);
      assert Grants(p, Some(Take(p, b0, at).0), times) == Grants(p, Some(Take(p, b0, at).0), init);
    }
  }
}
