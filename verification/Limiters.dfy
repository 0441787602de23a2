/** The per-key request limiter (internal/ratelimit/limiter.go). */
module RequestLimiter {
  import opened Options
  import opened TokenBucket

  type PolicyFn = string -> Policy
  type Buckets = map<string, Bucket>

  /** One call. `now` was read before the lock was taken, so readings may reach
      the bucket out of order. */
  datatype Call = Call(key: string, now: int)

  function Lookup(m: Buckets, key: string): Option<Bucket> {
    if key in m then Some(m[key]) else None
  }

  function AllowSpec(policy: PolicyFn, m: Buckets, c: Call): (Buckets, Decision) {
    var p := policy(c.key);
    if !p.Limits() then (m, Allowed)
    else
      var (b, d) := Take(p, Start(p, Lookup(m, c.key), c.now), c.now);
      (m[c.key := b], d)
  }

  class BucketLimiter {
    const policy: PolicyFn
    var buckets: Buckets

    constructor (policy: PolicyFn)
      ensures this.policy == policy && buckets == map[]
    {
      this.policy, buckets := policy, map[];
    }

    method Allow(key: string, now: int) returns (d: Decision)
      modifies this
      ensures (buckets, d) == AllowSpec(policy, old(buckets), Call(key, now))
    {
      var p := policy(key);
      if p.rate <= 0.0 || p.burst <= 0.0 { return Allowed; }
      var b := Bucket(p.burst, now);
      if key in buckets { b := buckets[key]; }
      b, d := TakeToken(p, b, now);
      buckets := buckets[key := b];
    }
  }

  /** All calls in the order in which they take the lock. */
  function Run(policy: PolicyFn, m: Buckets, calls: seq<Call>): Buckets
    decreases |calls|
  {
    if calls == [] then m
    else AllowSpec(policy, Run(policy, m, calls[..|calls| - 1]), calls[|calls| - 1]).0
  }

  function KeyGrants(policy: PolicyFn, m: Buckets, calls: seq<Call>, key: string): nat
    decreases |calls|
  {
    if calls == [] then 0
    else
      var init, c := calls[..|calls| - 1], calls[|calls| - 1];
      KeyGrants(policy, m, init, key) +
        if c.key == key && AllowSpec(policy, Run(policy, m, init), c).1.Allowed? then 1 else 0
  }

  /** The clock readings of one key's calls. */
  function Readings(calls: seq<Call>, key: string): seq<int>
    decreases |calls|
  {
    if calls == [] then []
    else
      var init, c := Readings(calls[..|calls| - 1], key), calls[|calls| - 1];
      if c.key == key then init + [c.now] else init
  }

  /** Each key has its own bucket: the other keys' calls do not disturb it. */
  lemma {:induction false} KeysAreIndependent(policy: PolicyFn, m: Buckets, calls: seq<Call>, key: string)
    requires policy(key).Limits()
    ensures Lookup(Run(policy, m, calls), key) == After(policy(key), Lookup(m, key), Readings(calls, key))
    ensures KeyGrants(policy, m, calls, key) == Grants(policy(key), Lookup(m, key), Readings(calls, key))
    decreases |calls|
  {
    if calls != [] {
      var init, c := calls[..|calls| - 1], calls[|calls| - 1];
      KeysAreIndependent(policy, m, init, key);
      if c.key == key { CallsSnoc(policy(key), Lookup(m, key), Readings(init, key), c.now); }
    }
  }

  /** From a new limiter on, every bucket stays within its burst and carries the
      largest reading that its key's calls have brought. */
  lemma HistoryKeepsBuckets(policy: PolicyFn, calls: seq<Call>, key: string)
    requires policy(key).Limits()
    ensures var b, times := Lookup(Run(policy, map[], calls), key), Readings(calls, key);
      && InBounds(policy(key), b)
      && (b.None? <==> times == [])
      && (b.Some? ==> b.value.last == Clock(None, times))
  {
    KeysAreIndependent(policy, map[], calls, key);
    RunKeepsBucket(policy(key), None, Readings(calls, key));
  }

  /** In any window of calls, in whatever order readings arrive, a key is granted
      at most Burst + Rate times the advance of its running-max clock. */
  lemma GrantsAreBounded(policy: PolicyFn, m: Buckets, window: seq<Call>, key: string)
    requires policy(key).Limits() && InBounds(policy(key), Lookup(m, key)) && Readings(window, key) != []
    ensures var p, b, times := policy(key), Lookup(m, key), Readings(window, key);
      KeyGrants(policy, m, window, key) as real <= p.burst + Earned(p.rate, Clock(b, times) - Clock(b, times[..1]))
  {
    KeysAreIndependent(policy, m, window, key);
    WindowBound(policy(key), Lookup(m, key), Readings(window, key));
  }

  /** A key's calls at one moment, whatever other keys do in between, are granted as
      far as the whole tokens of its bucket go: a new key gets its whole burst. */
  lemma MomentIsGranted(policy: PolicyFn, m: Buckets, calls: seq<Call>, key: string, now: int, n: nat)
    requires policy(key).Limits() && InBounds(policy(key), Lookup(m, key)) && Readings(calls, key) == Moment(now, n)
    ensures var p := policy(key);
      var tokens := Refill(p, Start(p, Lookup(m, key), now), now).tokens;
      && KeyGrants(policy, m, calls, key) == Min(n, tokens.Floor)
      && (key !in m ==> tokens == p.burst)
  {
    KeysAreIndependent(policy, m, calls, key);
    MomentGrants(policy(key), Lookup(m, key), now, n);
  }

  /** And over any run whose refills are not cut, tokens left and grants of a key are
      what it had and has earned. */
  lemma KeyBalances(policy: PolicyFn, m: Buckets, calls: seq<Call>, key: string)
    requires policy(key).Limits() && key in m && NeverCapped(policy(key), m[key], Readings(calls, key))
    ensures var after := Lookup(Run(policy, m, calls), key);
      && after.Some?
      && after.value.tokens + KeyGrants(policy, m, calls, key) as real
         == m[key].tokens + Earned(policy(key).rate, after.value.last - m[key].last)
  {
    KeysAreIndependent(policy, m, calls, key);
    RunBalances(policy(key), m[key], Readings(calls, key));
  }

  /** A policy without limits grants every call and keeps no bucket. */
  lemma {:induction false} UnlimitedIsGranted(policy: PolicyFn, m: Buckets, calls: seq<Call>, key: string)
    requires !policy(key).Limits()
    ensures KeyGrants(policy, m, calls, key) == |Readings(calls, key)|
    ensures Lookup(Run(policy, m, calls), key) == Lookup(m, key)
    decreases |calls|
  {
    if calls != [] { UnlimitedIsGranted(policy, m, calls[..|calls| - 1], key); }
  }
}

/** The two-level dispatch limiter (internal/dispatch/telegram/dispatch_limiter.go):
    a call first takes from the global bucket under one lock and then from its
    chat's bucket under another, with any number of calls in between. */
module DispatchLimiter {
  import opened Options
  import opened TokenBucket

  /** `waiting` holds the calls that have passed the global section and not yet
      reached the chat section: their chat and the reading they carry. */
  datatype State = State(global: Bucket, chats: map<string, Bucket>, waiting: multiset<(string, int)>)

  datatype Limits = Limits(global: Policy, chat: Policy) {
    predicate Ok() { global.Limits() && chat.Limits() }
  }

  const DEFAULT_LIMITS := Limits(Policy(25.0, 30.0), Policy(1.0, 2.0))

  /** One lock section of one call. */
  datatype Section = TakeGlobal(key: string, now: int) | TakePerChat(key: string, now: int)

  function ChatBucket(s: State, key: string): Option<Bucket> {
    if key in s.chats then Some(s.chats[key]) else None
  }

  predicate Ready(s: State, x: Section) {
    x.TakePerChat? ==> (x.key, x.now) in s.waiting
  }

  /** The bucket's decision in a section. */
  function Decide(l: Limits, s: State, x: Section): Decision
    requires l.Ok()
  {
    match x
    case TakeGlobal(_, now) => Take(l.global, s.global, now).1
    case TakePerChat(key, now) => Take(l.chat, Start(l.chat, ChatBucket(s, key), now), now).1
  }

  function Apply(l: Limits, s: State, x: Section): State
    requires l.Ok()
  {
    if !Ready(s, x) then s
    else match x
      case TakeGlobal(key, now) =>
        var (g, d) := Take(l.global, s.global, now);
        s.(global := g, waiting := if d.Allowed? then s.waiting + multiset{(key, now)} else s.waiting)
      case TakePerChat(key, now) =>
        var b := Take(l.chat, Start(l.chat, ChatBucket(s, key), now), now).0;
        s.(chats := s.chats[key := b], waiting := s.waiting - multiset{(key, now)})
  }

  function Run(l: Limits, s: State, xs: seq<Section>): State
    requires l.Ok()
    decreases |xs|
  {
    if xs == [] then s else Apply(l, Run(l, s, xs[..|xs| - 1]), xs[|xs| - 1])
  }

  /** Which bucket a bound is about: the global one, or that of one chat. */
  datatype Target = Global | Chat(key: string)

  predicate Hits(x: Section, t: Target) {
    match t
    case Global => x.TakeGlobal?
    case Chat(key) => x.TakePerChat? && x.key == key
  }

  function PolicyOf(l: Limits, t: Target): Policy { if t.Global? then l.global else l.chat }

  function BucketOf(s: State, t: Target): Option<Bucket> {
    match t
    case Global => Some(s.global)
    case Chat(key) => ChatBucket(s, key)
  }

  function TargetGrants(l: Limits, s: State, xs: seq<Section>, t: Target): nat
    requires l.Ok()
    decreases |xs|
  {
    if xs == [] then 0
    else
      var init, x := xs[..|xs| - 1], xs[|xs| - 1];
      var s' := Run(l, s, init);
      TargetGrants(l, s, init, t) +
        if Hits(x, t) && Ready(s', x) && Decide(l, s', x).Allowed? then 1 else 0
  }

  function Readings(l: Limits, s: State, xs: seq<Section>, t: Target): seq<int>
    requires l.Ok()
    decreases |xs|
  {
    if xs == [] then []
    else
      var init, x := xs[..|xs| - 1], xs[|xs| - 1];
      var rs := Readings(l, s, init, t);
      if Hits(x, t) && Ready(Run(l, s, init), x) then rs + [x.now] else rs
  }

  class Limiter {
    const limits: Limits
    var global: Bucket
    var chats: map<string, Bucket>
    ghost var waiting: multiset<(string, int)>

    ghost predicate Valid() { limits.Ok() }

    ghost function View(): State
      reads this
    {
      State(global, chats, waiting)
    }

    constructor (now: int)
      ensures limits == Limits(Policy(25.0, 30.0), Policy(1.0, 2.0)) && Valid()
      ensures View() == State(Bucket(30.0, now), map[], multiset{})
    {
      limits := DEFAULT_LIMITS;
      global, chats, waiting := Bucket(30.0, now), map[], multiset{};
    }

    method GlobalSection(key: string, now: int) returns (d: Decision)
      requires Valid()
      modifies this
      ensures View() == Apply(limits, old(View()), TakeGlobal(key, now))
      ensures d == Decide(limits, old(View()), TakeGlobal(key, now))
    {
      global, d := TakeToken(limits.global, global, now);
      if d.Allowed? { waiting := waiting + multiset{(key, now)}; }
    }

    method ChatSection(key: string, now: int) returns (d: Decision)
      requires Valid() && (key, now) in waiting
      modifies this
      ensures View() == Apply(limits, old(View()), TakePerChat(key, now))
      ensures d == Decide(limits, old(View()), TakePerChat(key, now))
    {
      var b := Bucket(limits.chat.burst, now);
      if key in chats { b := chats[key]; }
      b, d := TakeToken(limits.chat, b, now);
      chats := chats[key := b];
      waiting := waiting - multiset{(key, now)};
    }

    /** One whole call that nobody interrupts: granted only if both buckets grant. */
    method Allow(key: string, now: int) returns (d: Decision)
      requires Valid()
      modifies this
      ensures var x, y := TakeGlobal(key, now), TakePerChat(key, now);
        var mid := Apply(limits, old(View()), x);
        if Decide(limits, old(View()), x).Denied? then View() == mid && d == Decide(limits, old(View()), x)
        else View() == Apply(limits, mid, y) && d == Decide(limits, mid, y)
    {
      d := GlobalSection(key, now);
      if d.Allowed? { d := ChatSection(key, now); }
    }
  }

  /** A section moves exactly the bucket it is about, by one `Take`. */
  lemma SectionOnTarget(l: Limits, s: State, x: Section, t: Target)
    requires l.Ok()
    ensures var p, b := PolicyOf(l, t), BucketOf(s, t);
      var (b', d) := Take(p, Start(p, b, x.now), x.now);
      && BucketOf(Apply(l, s, x), t) == (if Hits(x, t) && Ready(s, x) then Some(b') else b)
      && (Hits(x, t) ==> Decide(l, s, x) == d)
  {
  }

  /** A section that reaches a bucket is the next call of that bucket's run. */
  lemma SectionIsACall(l: Limits, s: State, x: Section, t: Target, b: Option<Bucket>, times: seq<int>)
    requires l.Ok()
    ensures var p, hit := PolicyOf(l, t), Hits(x, t) && Ready(s, x);
      BucketOf(s, t) == After(p, b, times) ==>
        && BucketOf(Apply(l, s, x), t) == After(p, b, if hit then times + [x.now] else times)
        && (hit ==> Grants(p, b, times + [x.now]) == Grants(p, b, times) + if Decide(l, s, x).Allowed? then 1 else 0)
  {
    SectionOnTarget(l, s, x, t);
    CallsSnoc(PolicyOf(l, t), b, times, x.now);
  }

  /** In every interleaving of the lock sections each bucket sees one plain run
      of its own calls. */
  lemma BucketsAreIndependent(l: Limits, s: State, xs: seq<Section>, t: Target)
    requires l.Ok()
    ensures BucketOf(Run(l, s, xs), t) == After(PolicyOf(l, t), BucketOf(s, t), Readings(l, s, xs, t))
    ensures TargetGrants(l, s, xs, t) == Grants(PolicyOf(l, t), BucketOf(s, t), Readings(l, s, xs, t))
  {
    BucketFollows(l, s, xs, t, PolicyOf(l, t), BucketOf(s, t));
    GrantsFollow(l, s, xs, t, PolicyOf(l, t), BucketOf(s, t));
  }

  lemma {:induction false} BucketFollows(l: Limits, s: State, xs: seq<Section>, t: Target, p: Policy, b: Option<Bucket>)
    requires l.Ok() && p == PolicyOf(l, t) && b == BucketOf(s, t)
    ensures BucketOf(Run(l, s, xs), t) == After(p, b, Readings(l, s, xs, t))
    decreases |xs|
  {
    if xs != [] {
      var init, x := xs[..|xs| - 1], xs[|xs| - 1];
      BucketFollows(l, s, init, t, p, b);
      SectionIsACall(l, Run(l, s, init), x, t, b, Readings(l, s, init, t));
    }
  }

  lemma {:induction false} GrantsFollow(l: Limits, s: State, xs: seq<Section>, t: Target, p: Policy, b: Option<Bucket>)
    requires l.Ok() && p == PolicyOf(l, t) && b == BucketOf(s, t)
    ensures TargetGrants(l, s, xs, t) == Grants(p, b, Readings(l, s, xs, t))
    decreases |xs|
  {
    if xs != [] {
      var init, x := xs[..|xs| - 1], xs[|xs| - 1];
      GrantsFollow(l, s, init, t, p, b);
      BucketFollows(l, s, init, t, p, b);
      SectionIsACall(l, Run(l, s, init), x, t, b, Readings(l, s, init, t));
    }
  }

  /** From a new limiter on, under every interleaving, every bucket stays within
      its burst. */
  lemma HistoryKeepsBuckets(l: Limits, created: int, xs: seq<Section>, t: Target)
    requires l.Ok()
    ensures var s0 := State(Bucket(l.global.burst, created), map[], multiset{});
      InBounds(PolicyOf(l, t), BucketOf(Run(l, s0, xs), t))
  {
    var s0 := State(Bucket(l.global.burst, created), map[], multiset{});
    BucketsAreIndependent(l, s0, xs, t);
    RunKeepsBucket(PolicyOf(l, t), BucketOf(s0, t), Readings(l, s0, xs, t));
  }

  /** For the global bucket and for every chat, in any window of any interleaving
      of lock sections: at most Burst + Rate times the advance of that bucket's
      running-max clock is granted. */
  lemma GrantsAreBounded(l: Limits, s: State, window: seq<Section>, t: Target)
    requires l.Ok() && InBounds(PolicyOf(l, t), BucketOf(s, t)) && Readings(l, s, window, t) != []
    ensures var p, b, times := PolicyOf(l, t), BucketOf(s, t), Readings(l, s, window, t);
      TargetGrants(l, s, window, t) as real <= p.burst + Earned(p.rate, Clock(b, times) - Clock(b, times[..1]))
  {
    var p, b, times := PolicyOf(l, t), BucketOf(s, t), Readings(l, s, window, t);
    assert TargetGrants(l, s, window, t) == Grants(p, b, times) by { BucketsAreIndependent(l, s, window, t); }
    WindowBound(p, b, times);
  }

  /** Calls that reach a bucket at one moment, however the lock sections interleave,
      are granted as far as its whole tokens go: a new chat gets its whole burst. */
  lemma MomentIsGranted(l: Limits, s: State, xs: seq<Section>, t: Target, now: int, n: nat)
    requires l.Ok() && InBounds(PolicyOf(l, t), BucketOf(s, t))
    ensures var p, b := PolicyOf(l, t), BucketOf(s, t);
      var tokens := Refill(p, Start(p, b, now), now).tokens;
      && (Readings(l, s, xs, t) == Moment(now, n) ==> TargetGrants(l, s, xs, t) == Min(n, tokens.Floor))
      && (b.None? ==> tokens == p.burst)
  {
    BucketsAreIndependent(l, s, xs, t);
    MomentGrants(PolicyOf(l, t), BucketOf(s, t), now, n);
  }

  /** And over any run whose refills are not cut, tokens left and grants of a bucket
      are what it had and has earned. */
  lemma TargetBalances(l: Limits, s: State, xs: seq<Section>, t: Target)
    requires l.Ok() && BucketOf(s, t).Some?
    ensures var b, after := BucketOf(s, t).value, BucketOf(Run(l, s, xs), t);
      NeverCapped(PolicyOf(l, t), b, Readings(l, s, xs, t)) ==>
        && after.Some?
        && after.value.tokens + TargetGrants(l, s, xs, t) as real
           == b.tokens + Earned(PolicyOf(l, t).rate, after.value.last - b.last)
  {
    var p, b, times := PolicyOf(l, t), BucketOf(s, t).value, Readings(l, s, xs, t);
    BucketsAreIndependent(l, s, xs, t);
    if NeverCapped(p, b, times) { RunBalances(p, b, times); }
  }

  /** No call reaches the chat section without a global grant of its own: chat
      sections taken never outnumber global grants. */
  lemma {:induction false} ChatSectionsArePaidFor(l: Limits, s: State, xs: seq<Section>)
    requires l.Ok() && s.waiting == multiset{}
    ensures ChatSections(l, s, xs) + |Run(l, s, xs).waiting| == TargetGrants(l, s, xs, Global)
    decreases |xs|
  {
    if xs != [] { ChatSectionsArePaidFor(l, s, xs[..|xs| - 1]); }
  }

  function ChatSections(l: Limits, s: State, xs: seq<Section>): nat
    requires l.Ok()
    decreases |xs|
  {
    if xs == [] then 0
    else
      var init, x := xs[..|xs| - 1], xs[|xs| - 1];
      ChatSections(l, s, init) + if x.TakePerChat? && Ready(Run(l, s, init), x) then 1 else 0
  }
}
