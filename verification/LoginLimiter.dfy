/** The per-address login limiter with lazy eviction (internal/adminui/session.go). */
module LoginLimiter {
  const LIMIT: real := 5.0
  const WINDOW: int := 60_000_000_000  // one minute in nanoseconds

  datatype Bucket = Bucket(tokens: real, lastFill: int)

  type Buckets = map<string, Bucket>

  /** One attempt; the clock is read under the lock, so readings never go back. */
  datatype Call = Call(key: string, now: int)

  function Earned(ns: int): real { ns as real * LIMIT / WINDOW as real }

  /** Refilled to the limit: the bucket carries no state any more. */
  predicate Full(b: Bucket, now: int) { b.tokens + Earned(now - b.lastFill) >= LIMIT }

  function Sweep(m: Buckets, c: Call): Buckets {
    map k | k in m && (k == c.key || !Full(m[k], c.now)) :: m[k]
  }

  function Refilled(m: Buckets, c: Call): Bucket {
    if c.key !in m then Bucket(LIMIT, c.now)
    else
      var b := m[c.key];
      var tokens := b.tokens + Earned(c.now - b.lastFill);
      Bucket(if tokens > LIMIT then LIMIT else tokens, c.now)
  }

  /** An attempt on a limiter that never evicts. */
  function PlainAllow(m: Buckets, c: Call): (Buckets, bool) {
    var b := Refilled(m, c);
    if b.tokens < 1.0 then (m[c.key := b], false)
    else (m[c.key := Bucket(b.tokens - 1.0, b.lastFill)], true)
  }

  /** An attempt as the program handles it: sweep the others first. */
  function AllowSpec(m: Buckets, c: Call): (Buckets, bool) {
    PlainAllow(Sweep(m, c), c)
  }

  class Limiter {
    var buckets: Buckets

    constructor ()
      ensures buckets == map[]
    {
      buckets := map[];
    }

    method Allow(key: string, now: int) returns (allowed: bool)
      modifies this
      ensures (buckets, allowed) == AllowSpec(old(buckets), Call(key, now))
    {
      var todo := buckets.Keys;
      while todo != {}
        invariant todo <= old(buckets).Keys
        invariant buckets == map k | k in old(buckets) && (k in todo || k == key || !Full(old(buckets)[k], now)) :: old(buckets)[k]
        decreases todo
      {
        var k :| k in todo;
        todo := todo - {k};
        if k != key {
          var refill := (now - buckets[k].lastFill) as real * LIMIT / WINDOW as real;
          if buckets[k].tokens + refill >= LIMIT { buckets := buckets - {k}; }
        }
      }
      assert buckets == Sweep(old(buckets), Call(key, now));
      var b := Bucket(LIMIT, now);
      if key in buckets {
        var refill := (now - buckets[key].lastFill) as real * LIMIT / WINDOW as real;
        var tokens := buckets[key].tokens + refill;
        b := Bucket(if tokens > LIMIT then LIMIT else tokens, now);
      }
      allowed := b.tokens >= 1.0;
      buckets := buckets[key := if allowed then Bucket(b.tokens - 1.0, b.lastFill) else b];
    }
  }

  function Run(m: Buckets, calls: seq<Call>): Buckets
    decreases |calls|
  {
    if calls == [] then m else AllowSpec(Run(m, calls[..|calls| - 1]), calls[|calls| - 1]).0
  }

  function Decisions(m: Buckets, calls: seq<Call>): seq<bool>
    decreases |calls|
  {
    if calls == [] then []
    else
      var init, c := calls[..|calls| - 1], calls[|calls| - 1];
      Decisions(m, init) + [AllowSpec(Run(m, init), c).1]
  }

  function PlainRun(m: Buckets, calls: seq<Call>): Buckets
    decreases |calls|
  {
    if calls == [] then m else PlainAllow(PlainRun(m, calls[..|calls| - 1]), calls[|calls| - 1]).0
  }

  function PlainDecisions(m: Buckets, calls: seq<Call>): seq<bool>
    decreases |calls|
  {
    if calls == [] then []
    else
      var init, c := calls[..|calls| - 1], calls[|calls| - 1];
      PlainDecisions(m, init) + [PlainAllow(PlainRun(m, init), c).1]
  }

  predicate ClockMovesOn(calls: seq<Call>) {
    forall i, j :: 0 <= i < j < |calls| ==> calls[i].now <= calls[j].now
  }

  /** The evicting limiter at clock `now` against the plain one: same buckets,
      except that full ones may be missing. */
  predicate Represents(m: Buckets, plain: Buckets, now: int) {
    && (forall k :: k in m ==> k in plain && plain[k] == m[k])
    && (forall k :: k in plain && k !in m ==> Full(plain[k], now))
    && (forall k :: k in plain ==> 0.0 <= plain[k].tokens && plain[k].lastFill <= now)
  }

  lemma EarnedGrows(a: int, b: int)
    requires a <= b
    ensures Earned(a) <= Earned(b)
  {
  }

  lemma TimePasses(m: Buckets, plain: Buckets, was: int, now: int)
    requires Represents(m, plain, was) && was <= now
    ensures Represents(m, plain, now)
  {
    forall k | k in plain && k !in m ensures Full(plain[k], now) {
      EarnedGrows(was - plain[k].lastFill, now - plain[k].lastFill);
    }
  }

  lemma CallKeepsRepresentation(m: Buckets, plain: Buckets, c: Call)
    requires Represents(m, plain, c.now)
    ensures Represents(AllowSpec(m, c).0, PlainAllow(plain, c).0, c.now)
    ensures AllowSpec(m, c).1 == PlainAllow(plain, c).1
  {
    assert Earned(0) == 0.0;
    if c.key in plain { EarnedGrows(0, c.now - plain[c.key].lastFill); }
    assert Refilled(Sweep(m, c), c) == Refilled(plain, c);
  }

  /** With a clock that does not go back, eviction changes no decision of any run. */
  lemma {:induction false} EvictionIsInvisible(calls: seq<Call>)
    requires ClockMovesOn(calls)
    ensures Decisions(map[], calls) == PlainDecisions(map[], calls)
    ensures calls != [] ==> Represents(Run(map[], calls), PlainRun(map[], calls), calls[|calls| - 1].now)
    decreases |calls|
  {
    if calls != [] {
      var init, c := calls[..|calls| - 1], calls[|calls| - 1];
      EvictionIsInvisible(init);
      var m, plain := Run(map[], init), PlainRun(map[], init);
      if init != [] { TimePasses(m, plain, init[|init| - 1].now, c.now); }
      CallKeepsRepresentation(m, plain, c);
    }
  }

  /** A bucket untouched for a minute is full, so the sweep has removed it. */
  lemma OldEntriesAreSwept(m: Buckets, c: Call, k: string)
    requires k in m && m[k].tokens >= 0.0 && c.now - m[k].lastFill >= WINDOW && k != c.key
    ensures k !in AllowSpec(m, c).0
  {
    EarnedGrows(WINDOW, c.now - m[k].lastFill);
    assert Full(m[k], c.now);
  }

  /** After each call every retained entry but the caller's was last touched less
      than a minute ago. */
  lemma RetainedEntriesAreRecent(calls: seq<Call>, k: string)
    requires ClockMovesOn(calls) && calls != [] && k in Run(map[], calls)
    ensures var c := calls[|calls| - 1];
      k != c.key ==> c.now - Run(map[], calls)[k].lastFill < WINDOW
  {
    var init, c := calls[..|calls| - 1], calls[|calls| - 1];
    EvictionIsInvisible(init);
    var m := Run(map[], init);
    if k != c.key && c.now - m[k].lastFill >= WINDOW { OldEntriesAreSwept(m, c, k); }
  }

  // ---- how much is allowed ----

  /** The attempts of `key` among those numbered from `lo` up to `hi` that were allowed. */
  function Allowed(calls: seq<Call>, ds: seq<bool>, lo: nat, hi: nat, key: string): nat
    requires |ds| == |calls| && hi <= |calls|
  {
    if hi <= lo then 0
    else Allowed(calls, ds, lo, hi - 1, key) + if calls[hi - 1].key == key && ds[hi - 1] then 1 else 0
  }

  /** The attempts of `key` among them. */
  function Attempts(calls: seq<Call>, lo: nat, hi: nat, key: string): nat
    requires hi <= |calls|
  {
    if hi <= lo then 0 else Attempts(calls, lo, hi - 1, key) + if calls[hi - 1].key == key then 1 else 0
  }

  lemma {:induction false} PlainDecisionAt(calls: seq<Call>, k: nat)
    requires k < |calls|
    ensures |PlainDecisions(map[], calls)| == |calls|
    ensures PlainDecisions(map[], calls)[k] == PlainAllow(PlainRun(map[], calls[..k]), calls[k]).1
    decreases |calls|
  {
    var init := calls[..|calls| - 1];
    if init != [] { PlainDecisionAt(init, if k < |init| then k else 0); }
    if k < |init| { assert init[..k] == calls[..k]; }
  }

  lemma PlainRunSnoc(calls: seq<Call>, k: nat)
    requires k < |calls|
    ensures PlainRun(map[], calls[..k + 1]) == PlainAllow(PlainRun(map[], calls[..k]), calls[k]).0
  {
    assert calls[..k + 1][..k] == calls[..k];
  }

  /** The tokens of `key` at `now`, those of an unknown key being the limit. */
  function Level(m: Buckets, key: string, now: int): real {
    Refilled(m, Call(key, now)).tokens
  }

  /** Every bucket was last filled in the past and is not in debt. */
  predicate Past(m: Buckets, now: int) {
    forall k :: k in m ==> m[k].lastFill <= now && 0.0 <= m[k].tokens <= LIMIT
  }

  lemma EarnedAdds(a: int, b: int)
    ensures Earned(a + b) == Earned(a) + Earned(b)
  {
  }

  lemma LevelRises(m: Buckets, key: string, was: int, now: int)
    requires Past(m, was) && was <= now
    ensures 0.0 <= Level(m, key, was) <= Level(m, key, now) <= LIMIT
    ensures Level(m, key, now) <= Level(m, key, was) + Earned(now - was)
  {
    EarnedGrows(0, now - was);
    assert Earned(0) == 0.0;
    if key in m {
      EarnedAdds(was - m[key].lastFill, now - was);
      EarnedGrows(0, was - m[key].lastFill);
    }
  }

  /** An attempt costs its key one token if allowed, and costs others nothing. */
  lemma CallCosts(m: Buckets, c: Call, key: string)
    requires Past(m, c.now)
    ensures var (m', allowed) := PlainAllow(m, c);
      && Past(m', c.now)
      && Level(m', key, c.now) == Level(m, key, c.now) - (if c.key == key && allowed then 1.0 else 0.0)
      && (allowed <==> Level(m, c.key, c.now) >= 1.0)
  {
    assert Earned(0) == 0.0;
    LevelRises(m, c.key, c.now, c.now);
  }

  lemma {:induction false} RunIsPast(calls: seq<Call>, k: nat, now: int)
    requires ClockMovesOn(calls) && k <= |calls| && (k > 0 ==> calls[k - 1].now <= now)
    ensures Past(PlainRun(map[], calls[..k]), now)
  {
    if k > 0 {
      RunIsPast(calls, k - 1, calls[k - 1].now);
      PlainRunSnoc(calls, k - 1);
      CallCosts(PlainRun(map[], calls[..k - 1]), calls[k - 1], calls[k - 1].key);
    }
  }

  /** The clock at the end of the window so far. */
  function ClockAt(calls: seq<Call>, lo: nat, hi: nat): int
    requires lo < |calls| && hi <= |calls|
  {
    if hi <= lo then calls[lo].now else calls[hi - 1].now
  }

  /** What was allowed and what is left is covered by the limit and what was earned. */
  lemma {:induction false} WindowPays(calls: seq<Call>, lo: nat, hi: nat, key: string)
    requires ClockMovesOn(calls) && lo <= hi <= |calls| && lo < |calls| && |PlainDecisions(map[], calls)| == |calls|
    ensures var now := ClockAt(calls, lo, hi);
      Allowed(calls, PlainDecisions(map[], calls), lo, hi, key) as real + Level(PlainRun(map[], calls[..hi]), key, now)
      <= LIMIT + Earned(now - calls[lo].now)
  {
    if hi == lo {
      RunIsPast(calls, lo, calls[lo].now);
      LevelRises(PlainRun(map[], calls[..lo]), key, calls[lo].now, calls[lo].now);
    } else {
      var was, c, m := ClockAt(calls, lo, hi - 1), calls[hi - 1], PlainRun(map[], calls[..hi - 1]);
      WindowPays(calls, lo, hi - 1, key);
      RunIsPast(calls, hi - 1, was);
      RunIsPast(calls, hi - 1, c.now);
      LevelRises(m, key, was, c.now);
      CallCosts(m, c, key);
      PlainDecisionAt(calls, hi - 1);
      PlainRunSnoc(calls, hi - 1);
      EarnedAdds(was - calls[lo].now, c.now - was);
    }
  }

  /** In any window of any run, eviction and all, an address is allowed at most five
      attempts and five per minute of the window's length. */
  lemma AttemptsAreBounded(calls: seq<Call>, lo: nat, hi: nat, key: string)
    requires ClockMovesOn(calls) && lo < hi <= |calls|
    ensures |Decisions(map[], calls)| == |calls|
    ensures Allowed(calls, Decisions(map[], calls), lo, hi, key) as real
            <= 5.0 + 5.0 * (calls[hi - 1].now - calls[lo].now) as real / 60_000_000_000.0
  {
    EachIsDecided(calls);
    EvictionIsInvisible(calls);
    WindowPays(calls, lo, hi, key);
    RunIsPast(calls, hi, calls[hi - 1].now);
    LevelRises(PlainRun(map[], calls[..hi]), key, calls[hi - 1].now, calls[hi - 1].now);
  }

  lemma {:induction false} EachIsDecided(calls: seq<Call>)
    ensures |Decisions(map[], calls)| == |calls|
    decreases |calls|
  {
    if calls != [] { EachIsDecided(calls[..|calls| - 1]); }
  }

  /** Nobody has heard of `key` in the minute before `now`. */
  predicate Unseen(calls: seq<Call>, n: nat, key: string, now: int)
    requires n <= |calls|
  {
    forall k :: 0 <= k < n && calls[k].key == key ==> calls[k].now + WINDOW <= now
  }

  lemma {:induction false} UnseenIsFull(calls: seq<Call>, n: nat, key: string, now: int)
    requires ClockMovesOn(calls) && n <= |calls| && (n > 0 ==> calls[n - 1].now <= now) && Unseen(calls, n, key, now)
    ensures Level(PlainRun(map[], calls[..n]), key, now) == LIMIT
  {
    if n > 0 {
      var c, m := calls[n - 1], PlainRun(map[], calls[..n - 1]);
      UnseenIsFull(calls, n - 1, key, now);
      RunIsPast(calls, n - 1, c.now);
      RunIsPast(calls, n, c.now);
      PlainRunSnoc(calls, n - 1);
      CallCosts(m, c, key);
      if c.key == key { EarnedGrows(WINDOW, now - c.now); }
    }
  }

  function Min(a: nat, b: nat): nat { if a < b then a else b }

  lemma {:induction false} MomentSpends(calls: seq<Call>, lo: nat, hi: nat, key: string, now: int)
    requires ClockMovesOn(calls) && lo <= hi <= |calls| && Unseen(calls, lo, key, now)
    requires forall k :: lo <= k < |calls| ==> calls[k].now == now
    requires (lo > 0 ==> calls[lo - 1].now <= now) && |PlainDecisions(map[], calls)| == |calls|
    ensures var n := Min(Attempts(calls, lo, hi, key), 5);
      && Allowed(calls, PlainDecisions(map[], calls), lo, hi, key) == n
      && Level(PlainRun(map[], calls[..hi]), key, now) == LIMIT - n as real
  {
    if hi == lo {
      UnseenIsFull(calls, lo, key, now);
    } else {
      MomentSpends(calls, lo, hi - 1, key, now);
      RunIsPast(calls, hi - 1, now);
      PlainRunSnoc(calls, hi - 1);
      PlainDecisionAt(calls, hi - 1);
      CallCosts(PlainRun(map[], calls[..hi - 1]), calls[hi - 1], key);
    }
  }

  /** And no fewer than five: of the attempts that an address unseen for a minute
      makes at one moment, whatever others do, five are allowed, or all if fewer. */
  lemma FiveAreAllowed(calls: seq<Call>, lo: nat, key: string, now: int)
    requires ClockMovesOn(calls) && lo <= |calls| && Unseen(calls, lo, key, now) && (lo > 0 ==> calls[lo - 1].now <= now)
    requires forall k :: lo <= k < |calls| ==> calls[k].now == now
    ensures |Decisions(map[], calls)| == |calls|
    ensures Allowed(calls, Decisions(map[], calls), lo, |calls|, key) == Min(Attempts(calls, lo, |calls|, key), 5)
  {
    EachIsDecided(calls);
    EvictionIsInvisible(calls);
    MomentSpends(calls, lo, |calls|, key, now);
  }
}
