/** The address-independent brake on login attempts: globalBackoff of
    internal/adminui/session.go and the gate order of handleLoginSubmit
    (internal/adminui/handlers.go). An attempt passes the gate under one lock and
    records how it ended under another, each with its own clock reading, and other
    attempts may come in between. Times are nanoseconds. */
module LoginBackoff {
  import opened Options

  const THRESHOLD := 20
  const DELAY := 30_000_000_000
  const DECAY := 600_000_000_000

  datatype State = State(failures: nat, lastFailure: Option<int>, blockedUntil: Option<int>)

  /** The brake, and how many attempts have passed the gate and not yet recorded
      how they ended. */
  datatype Load = Load(brake: State, admitted: nat)

  const FRESH := Load(State(0, None, None), 0)

  predicate Open(s: State, now: int) { s.blockedUntil.Some? ==> now >= s.blockedUntil.value }

  function Failed(s: State, now: int): State {
    var decayed := s.lastFailure.Some? && now - s.lastFailure.value >= DECAY;
    var n := (if decayed then 0 else s.failures) + 1;
    State(n, Some(now), if n >= THRESHOLD then Some(now + DELAY) else s.blockedUntil)
  }

  function Succeeded(s: State): State { s.(failures := 0, blockedUntil := None) }

  /** One lock section of one attempt, at the time when it has the lock. */
  datatype Event = Gate(now: int) | Fail(now: int) | Succeed(now: int)

  function Apply(s: Load, e: Event): Load {
    match e
    case Gate(now) => if Open(s.brake, now) then s.(admitted := s.admitted + 1) else s
    case Fail(now) => if s.admitted > 0 then Load(Failed(s.brake, now), s.admitted - 1) else s
    case Succeed(_) => if s.admitted > 0 then Load(Succeeded(s.brake), s.admitted - 1) else s
  }

  /** A login request that reaches the brake or not (any verdict of the per-address
      limiter), with its two clock readings. */
  datatype Attempt = Attempt(limiterAllows: bool, gateAt: int, recordAt: int, passwordMatches: bool)

  datatype Outcome = RateLimited | WrongPassword | LoggedIn

  class GlobalBackoff {
    var failures: nat
    var lastFailure: Option<int>
    var blockedUntil: Option<int>
    ghost var admitted: nat

    ghost function View(): Load
      reads this
    {
      Load(State(failures, lastFailure, blockedUntil), admitted)
    }

    constructor ()
      ensures View() == FRESH
    {
      failures, lastFailure, blockedUntil, admitted := 0, None, None, 0;
    }

    method Allow(now: int) returns (ok: bool)
      modifies this`admitted
      ensures ok == Open(old(View()).brake, now)
      ensures View() == Apply(old(View()), Gate(now))
    {
      ok := blockedUntil.None? || !(now < blockedUntil.value);
      if ok { admitted := admitted + 1; }
    }

    method RecordFailure(now: int)
      requires admitted > 0
      modifies this
      ensures View() == Apply(old(View()), Fail(now))
    {
      if lastFailure.Some? && now - lastFailure.value >= DECAY { failures := 0; }
      lastFailure := Some(now);
      failures := failures + 1;
      if failures >= THRESHOLD { blockedUntil := Some(now + DELAY); }
      admitted := admitted - 1;
    }

    method RecordSuccess(ghost now: int)
      requires admitted > 0
      modifies this
      ensures View() == Apply(old(View()), Succeed(now))
    {
      failures := 0;
      blockedUntil := None;
      admitted := admitted - 1;
    }

    /** handleLoginSubmit without interruption: the per-address limiter's verdict
        comes first, then the gate, then the password. */
    method LoginSubmit(a: Attempt) returns (o: Outcome)
      modifies this
      ensures o == RateLimited <==> !a.limiterAllows || !Open(old(View()).brake, a.gateAt)
      ensures o != RateLimited ==> (o == LoggedIn <==> a.passwordMatches)
      ensures View() == match o
        case RateLimited => old(View())
        case WrongPassword => Apply(Apply(old(View()), Gate(a.gateAt)), Fail(a.recordAt))
        case LoggedIn => Apply(Apply(old(View()), Gate(a.gateAt)), Succeed(a.recordAt))
    {
      if !a.limiterAllows { return RateLimited; }
      var ok := Allow(a.gateAt);
      if !ok { return RateLimited; }
      if !a.passwordMatches {
        RecordFailure(a.recordAt);
        return WrongPassword;
      }
      RecordSuccess(a.recordAt);
      return LoggedIn;
    }
  }

  // ---- runs ----

  /** The lock sections of any attempts in the order in which they have the lock. */
  function Run(s: Load, es: seq<Event>): Load
    decreases |es|
  {
    if es == [] then s else Apply(Run(s, es[..|es| - 1]), es[|es| - 1])
  }

  predicate Records(s: Load, e: Event) { e.Fail? && s.admitted > 0 }

  function Failures(s: Load, es: seq<Event>): nat
    decreases |es|
  {
    if es == [] then 0
    else
      var init, e := es[..|es| - 1], es[|es| - 1];
      Failures(s, init) + if Records(Run(s, init), e) then 1 else 0
  }

  predicate NoSuccess(es: seq<Event>) { forall i :: 0 <= i < |es| ==> !es[i].Succeed? }

  /** Clocks are read under the lock, so readings never go back. */
  predicate ClockFrom(start: int, es: seq<Event>) {
    && (forall i :: 0 <= i < |es| ==> start <= es[i].now)
    && (forall i, j :: 0 <= i < j < |es| ==> es[i].now <= es[j].now)
  }

  function Last(start: int, es: seq<Event>): int { if es == [] then start else es[|es| - 1].now }

  /** At no moment are more than `c` attempts past the gate. */
  predicate Overlap(s: Load, es: seq<Event>, c: nat) {
    forall k :: 0 <= k <= |es| ==> Run(s, es[..k]).admitted <= c
  }

  /** What holds after every history: a streak at the threshold means that the
      last failure blocks for the full delay; no block outlasts that delay. */
  predicate Inv(s: State) {
    && (s.failures >= THRESHOLD ==>
          s.lastFailure.Some? && s.blockedUntil == Some(s.lastFailure.value + DELAY))
    && (s.blockedUntil.Some? ==>
          s.lastFailure.Some? && s.blockedUntil.value <= s.lastFailure.value + DELAY)
  }

  predicate NotAfter(s: State, now: int) { s.lastFailure.Some? ==> s.lastFailure.value <= now }

  lemma StepKeepsInv(s: Load, e: Event)
    requires Inv(s.brake) && NotAfter(s.brake, e.now)
    ensures Inv(Apply(s, e).brake) && NotAfter(Apply(s, e).brake, e.now)
  {
  }

  lemma {:induction false} RunKeepsInv(start: int, es: seq<Event>)
    requires ClockFrom(start, es)
    ensures Inv(Run(FRESH, es).brake) && NotAfter(Run(FRESH, es).brake, Last(start, es))
    decreases |es|
  {
    if es != [] {
      RunKeepsInv(start, es[..|es| - 1]);
      StepKeepsInv(Run(FRESH, es[..|es| - 1]), es[|es| - 1]);
    }
  }

  // ---- the bound ----

  /** The window's account so far: failures recorded, and attempts admitted since
      the last of them. */
  datatype Account = Account(count: nat, recent: nat)

  function Book(s: Load, a: Account, e: Event): Account {
    if Records(s, e) then Account(a.count + 1, 0)
    else if e.Gate? && Open(s.brake, e.now) then a.(recent := a.recent + 1)
    else a
  }

  function Books(s: Load, es: seq<Event>): Account
    decreases |es|
  {
    if es == [] then Account(0, 0)
    else Book(Run(s, es[..|es| - 1]), Books(s, es[..|es| - 1]), es[|es| - 1])
  }

  /** Below the threshold, failures and those still free before it are covered by
      the threshold and `c` per elapsed delay. From it on, so are failures and the
      attempts that were admitted before the last one; and any admitted since were
      admitted a delay later. */
  predicate Paid(s: Load, a: Account, start: int, now: int, c: nat) {
    && a.recent <= s.admitted <= c
    && (a.count > 0 ==>
          && s.brake.lastFailure.Some? && start <= s.brake.lastFailure.value
          && var past := s.brake.lastFailure.value - start;
             if s.brake.failures < THRESHOLD then
               DELAY * (a.count + THRESHOLD - s.brake.failures) <= DELAY * THRESHOLD + c * past
             else
               && DELAY * (a.count + s.admitted - a.recent) <= DELAY * (THRESHOLD - 1 + c) + c * past
               && (a.recent > 0 ==> now >= s.brake.lastFailure.value + DELAY))
  }

  lemma MulGrows(c: nat, a: int, b: int)
    requires a <= b
    ensures c * a <= c * b
    ensures b >= a + DELAY ==> c * b >= c * a + c * DELAY
    ensures b >= a + DECAY ==> c * b >= c * a + c * DECAY
  {
    assert c * b == c * a + c * (b - a);
    if b >= a + DELAY { assert c * (b - a) >= c * DELAY; }
    if b >= a + DECAY { assert c * (b - a) >= c * DECAY; }
  }

  /** A recorded failure is paid for: by what is free below the threshold, by the
      delay that blocked its attempt, or by the decay, which gives back 20. */
  lemma FailurePays(s: Load, a: Account, start: int, was: int, now: int, c: nat)
    requires Inv(s.brake) && NotAfter(s.brake, was) && start <= was <= now
    requires Paid(s, a, start, was, c) && s.admitted > 0
    ensures Paid(Apply(s, Fail(now)), Account(a.count + 1, 0), start, now, c)
  {
    if a.count > 0 {
      MulGrows(c, s.brake.lastFailure.value - start, now - start);
    } else {
      MulGrows(c, 0, now - start);
    }
  }

  lemma StepPays(s: Load, a: Account, start: int, was: int, e: Event, c: nat)
    requires Inv(s.brake) && NotAfter(s.brake, was) && start <= was <= e.now && !e.Succeed?
    requires Paid(s, a, start, was, c) && Apply(s, e).admitted <= c
    ensures Paid(Apply(s, e), Book(s, a, e), start, e.now, c)
  {
    if Records(s, e) { FailurePays(s, a, start, was, e.now, c); }
  }

  lemma OverlapInit(s: Load, es: seq<Event>, c: nat)
    requires Overlap(s, es, c) && es != []
    ensures Overlap(s, es[..|es| - 1], c) && Run(s, es).admitted <= c
  {
    var init := es[..|es| - 1];
    forall k | 0 <= k <= |init|
      ensures Run(s, init[..k]).admitted <= c
    {
      assert init[..k] == es[..k];
    }
    assert es[..|es|] == es;
  }

  lemma {:induction false} WindowPays(s: Load, start: int, es: seq<Event>, c: nat)
    requires Inv(s.brake) && NotAfter(s.brake, start) && ClockFrom(start, es) && NoSuccess(es) && Overlap(s, es, c)
    ensures var s' := Run(s, es);
      && Inv(s'.brake) && NotAfter(s'.brake, Last(start, es))
      && Paid(s', Books(s, es), start, Last(start, es), c) && Books(s, es).count == Failures(s, es)
    decreases |es|
  {
    if es == [] {
      assert es[..0] == es;
    } else {
      var init, e := es[..|es| - 1], es[|es| - 1];
      OverlapInit(s, es, c);
      WindowPays(s, start, init, c);
      StepKeepsInv(Run(s, init), e);
      StepPays(Run(s, init), Books(s, init), start, Last(start, init), e, c);
    }
  }

  /** After any history, any stretch of lock sections without a successful login,
      of length `end - start` and with at most `c` attempts past the gate at a time,
      records at most 19 + c failures plus c per 30 seconds: 20 plus one per 30
      seconds when attempts do not overlap. */
  lemma FailuresAreBounded(history: seq<Event>, window: seq<Event>, start: int, end: int, c: nat)
    requires ClockFrom(if history == [] then start else history[0].now, history)
    requires history != [] ==> history[|history| - 1].now <= start
    requires ClockFrom(start, window) && Last(start, window) <= end && NoSuccess(window)
    requires Overlap(Run(FRESH, history), window, c)
    ensures 30_000_000_000 * Failures(Run(FRESH, history), window) <= 30_000_000_000 * (19 + c) + c * (end - start)
  {
    var s := Run(FRESH, history);
    RunKeepsInv(if history == [] then start else history[0].now, history);
    WindowPays(s, start, window, c);
    BoundFromPaid(Run(s, window), Books(s, window), start, Last(start, window), end, c);
  }

  lemma BoundFromPaid(s: Load, a: Account, start: int, now: int, end: int, c: nat)
    requires NotAfter(s.brake, now) && start <= now <= end && Paid(s, a, start, now, c)
    ensures DELAY * a.count <= DELAY * (THRESHOLD - 1 + c) + c * (end - start)
  {
    MulGrows(c, 0, end - start);
    if a.count > 0 { MulGrows(c, s.brake.lastFailure.value - start, end - start); }
  }

  /** Whatever happened before, thirty seconds after the last failure (or at once
      if there was none) attempts are admitted again. */
  lemma ReopensAfterDelay(history: seq<Event>, start: int, now: int)
    requires ClockFrom(start, history)
    ensures var s := Run(FRESH, history).brake;
      (s.lastFailure.Some? ==> now >= s.lastFailure.value + DELAY) ==> Open(s, now)
  {
    RunKeepsInv(start, history);
  }

  // ---- when the gate is open ----

  /** Failures in a row since the last success and the last quiet ten minutes, and the
      time of the last one. */
  datatype Streak = Streak(length: nat, last: Option<int>)

  function StreakOf(s: Load, es: seq<Event>): Streak
    decreases |es|
  {
    if es == [] then Streak(0, None)
    else
      var init, e := es[..|es| - 1], es[|es| - 1];
      var before := StreakOf(s, init);
      if Run(s, init).admitted == 0 || e.Gate? then before
      else if e.Succeed? then before.(length := 0)
      else if before.last.Some? && before.last.value + 600_000_000_000 <= e.now then Streak(1, Some(e.now))
      else Streak(before.length + 1, Some(e.now))
  }

  predicate Mirrors(s: State, k: Streak) {
    && s.failures == k.length && s.lastFailure == k.last
    && (k.length < THRESHOLD && s.blockedUntil.Some? ==> k.last.Some? && s.blockedUntil.value <= k.last.value)
  }

  lemma {:induction false} BrakeMirrorsStreak(es: seq<Event>, start: int)
    requires ClockFrom(start, es)
    ensures Mirrors(Run(FRESH, es).brake, StreakOf(FRESH, es))
    decreases |es|
  {
    if es != [] {
      BrakeMirrorsStreak(es[..|es| - 1], start);
      RunKeepsInv(start, es[..|es| - 1]);
    }
  }

  /** After every history, the gate is open if and only if fewer than twenty failures
      have come in a row, or the last one is thirty seconds old: a success and ten
      quiet minutes each start the row anew, so stray typos never add up. */
  lemma GateIsOpenIff(es: seq<Event>, start: int, now: int)
    requires ClockFrom(start, es) && Last(start, es) <= now
    ensures var k := StreakOf(FRESH, es);
      Open(Run(FRESH, es).brake, now) <==> k.length < 20 || (k.last.Some? ==> now >= k.last.value + 30_000_000_000)
  {
    BrakeMirrorsStreak(es, start);
    RunKeepsInv(start, es);
  }

  // ---- the bound is met ----

  /** A stretch of lock sections: where it leads and what it records. */
  predicate Leads(s: Load, es: seq<Event>, s': Load, n: nat, c: nat) {
    Run(s, es) == s' && Failures(s, es) == n && Overlap(s, es, c) && NoSuccess(es)
  }

  lemma {:induction false} RunSplits(s: Load, a: seq<Event>, b: seq<Event>)
    ensures Run(s, a + b) == Run(Run(s, a), b)
    ensures Failures(s, a + b) == Failures(s, a) + Failures(Run(s, a), b)
    decreases |b|
  {
    if b == [] {
      assert a + b == a;
    } else {
      RunSplits(s, a, b[..|b| - 1]);
      assert (a + b)[..|a + b| - 1] == a + b[..|b| - 1];
    }
  }

  lemma LeadsOn(s: Load, a: seq<Event>, mid: Load, m: nat, b: seq<Event>, s': Load, n: nat, c: nat)
    requires Leads(s, a, mid, m, c) && Leads(mid, b, s', n, c)
    ensures Leads(s, a + b, s', m + n, c)
  {
    RunSplits(s, a, b);
    forall k | 0 <= k <= |a + b|
      ensures Run(s, (a + b)[..k]).admitted <= c
    {
      if k <= |a| {
        assert (a + b)[..k] == a[..k];
      } else {
        assert (a + b)[..k] == a + b[..k - |a|];
        RunSplits(s, a, b[..k - |a|]);
      }
    }
  }

  lemma OneLeads(s: Load, e: Event, c: nat)
    requires s.admitted <= c && Apply(s, e).admitted <= c && !e.Succeed?
    ensures Leads(s, [e], Apply(s, e), if Records(s, e) then 1 else 0, c)
  {
    assert [e][..0] == [] && [e][..1] == [e];
    assert Run(s, []) == s && Failures(s, []) == 0;
  }

  lemma NothingLeads(s: Load, c: nat)
    requires s.admitted <= c
    ensures Leads(s, [], s, 0, c)
  {
  }

  function Gates(t: int, n: nat): seq<Event> { if n == 0 then [] else Gates(t, n - 1) + [Gate(t)] }

  function Fails(t: int, n: nat): seq<Event> { if n == 0 then [] else Fails(t, n - 1) + [Fail(t)] }

  lemma {:induction false} GatesLead(s: Load, t: int, n: nat, c: nat)
    requires Open(s.brake, t) && s.admitted + n <= c
    ensures Leads(s, Gates(t, n), s.(admitted := s.admitted + n), 0, c)
  {
    if n == 0 {
      NothingLeads(s, c);
    } else {
      GatesLead(s, t, n - 1, c);
      var mid := s.(admitted := s.admitted + n - 1);
      OneLeads(mid, Gate(t), c);
      LeadsOn(s, Gates(t, n - 1), mid, 0, [Gate(t)], Apply(mid, Gate(t)), 0, c);
    }
  }

  /** The brake after `n` more failures at `t`, the last one not long ago. */
  function AfterFails(s: State, t: int, n: nat): State {
    if n == 0 then s
    else State(s.failures + n, Some(t), if s.failures + n >= THRESHOLD then Some(t + DELAY) else s.blockedUntil)
  }

  predicate Recent(s: State, t: int) { s.lastFailure.Some? ==> t - s.lastFailure.value < DECAY }

  lemma {:induction false} FailsLead(s: Load, t: int, n: nat, c: nat)
    requires Recent(s.brake, t) && n <= s.admitted <= c
    ensures Leads(s, Fails(t, n), Load(AfterFails(s.brake, t, n), s.admitted - n), n, c)
  {
    if n == 0 {
      NothingLeads(s, c);
    } else {
      FailsLead(s, t, n - 1, c);
      var mid := Load(AfterFails(s.brake, t, n - 1), s.admitted - (n - 1));
      OneLeads(mid, Fail(t), c);
      LeadsOn(s, Fails(t, n - 1), mid, n - 1, [Fail(t)], Apply(mid, Fail(t)), 1, c);
    }
  }

  /** `n` attempts at once: all through the gate, then all wrong. */
  lemma VolleyLeads(s: Load, t: int, n: nat, c: nat)
    requires s.admitted == 0 && Open(s.brake, t) && Recent(s.brake, t) && n <= c
    ensures Leads(s, Gates(t, n) + Fails(t, n), Load(AfterFails(s.brake, t, n), 0), n, c)
  {
    GatesLead(s, t, n, c);
    FailsLead(s.(admitted := n), t, n, c);
    LeadsOn(s, Gates(t, n), s.(admitted := n), 0, Fails(t, n), Load(AfterFails(s.brake, t, n), 0), n, c);
  }

  /** Guesses as fast as the brake lets them through: nineteen one by one, `c` at
      once, and then `c` at once after each delay. */
  function Guesses(c: nat, k: nat): seq<Event> { Volleys(Single(THRESHOLD - 1), c, k) }

  function Single(n: nat): seq<Event> { if n == 0 then [] else Single(n - 1) + (Gates(0, 1) + Fails(0, 1)) }

  function Volleys(first: seq<Event>, c: nat, k: nat): seq<Event> {
    (if k == 0 then first else Volleys(first, c, k - 1)) + (Gates(k * DELAY, c) + Fails(k * DELAY, c))
  }

  lemma {:induction false} SingleLeads(n: nat, c: nat)
    requires n < THRESHOLD && c >= 1
    ensures Leads(FRESH, Single(n), Load(State(n, if n == 0 then None else Some(0), None), 0), n, c)
  {
    if n == 0 {
      NothingLeads(FRESH, c);
    } else {
      SingleLeads(n - 1, c);
      var mid := Load(State(n - 1, if n == 1 then None else Some(0), None), 0);
      VolleyLeads(mid, 0, 1, c);
      LeadsOn(FRESH, Single(n - 1), mid, n - 1, Gates(0, 1) + Fails(0, 1), Load(AfterFails(mid.brake, 0, 1), 0), 1, c);
    }
  }

  /** With `c` attempts at a time these record 19 + c + c * k failures within k
      delays: the bound cannot be lowered. */
  lemma BoundIsAttained(c: nat, k: nat)
    requires c >= 1
    ensures var n, last := THRESHOLD - 1 + c + c * k, k * DELAY;
      Leads(FRESH, Guesses(c, k), Load(State(n, Some(last), Some(last + DELAY)), 0), n, c)
  {
    SingleLeads(THRESHOLD - 1, c);
    VolleysLead(Single(THRESHOLD - 1), c, k);
  }

  lemma {:induction false} VolleysLead(first: seq<Event>, c: nat, k: nat)
    requires c >= 1 && Leads(FRESH, first, Load(State(THRESHOLD - 1, Some(0), None), 0), THRESHOLD - 1, c)
    ensures var n, last := THRESHOLD - 1 + c + c * k, k * DELAY;
      Leads(FRESH, Volleys(first, c, k), Load(State(n, Some(last), Some(last + DELAY)), 0), n, c)
  {
    if k == 0 {
      NextVolley(first, State(THRESHOLD - 1, Some(0), None), 0, c);
      assert c * k == 0;
    } else {
      VolleysLead(first, c, k - 1);
      var n, t := THRESHOLD - 1 + c + c * (k - 1), k * DELAY;
      assert c * k == c * (k - 1) + c && (k - 1) * DELAY == t - DELAY;
      NextVolley(Volleys(first, c, k - 1), State(n, Some(t - DELAY), Some(t)), t, c);
    }
  }

  lemma NextVolley(es: seq<Event>, s: State, t: int, c: nat)
    requires c >= 1 && s.failures >= THRESHOLD - 1 && Open(s, t) && Recent(s, t)
    requires Leads(FRESH, es, Load(s, 0), s.failures, c)
    ensures var n := s.failures + c;
      Leads(FRESH, es + (Gates(t, c) + Fails(t, c)), Load(State(n, Some(t), Some(t + DELAY)), 0), n, c)
  {
    VolleyLeads(Load(s, 0), t, c, c);
    LeadsOn(FRESH, es, Load(s, 0), s.failures, Gates(t, c) + Fails(t, c), Load(AfterFails(s, t, c), 0), c, c);
  }

  /** And their clock does not go back, from 0 to the last delay. */
  lemma GuessesKeepTime(c: nat, k: nat)
    ensures var es := Guesses(c, k); ClockFrom(0, es) && forall i :: 0 <= i < |es| ==> es[i].now <= k * DELAY
  {
    SingleTime(THRESHOLD - 1);
    VolleysKeepTime(Single(THRESHOLD - 1), c, k);
  }

  lemma {:induction false} VolleysKeepTime(first: seq<Event>, c: nat, k: nat)
    requires forall i :: 0 <= i < |first| ==> first[i].now == 0
    ensures var es := Volleys(first, c, k); ClockFrom(0, es) && forall i :: 0 <= i < |es| ==> es[i].now <= k * DELAY
  {
    var t := k * DELAY;
    VolleyTime(t, c);
    if k == 0 {
      LaterTime(first, Gates(t, c) + Fails(t, c), t);
    } else {
      VolleysKeepTime(first, c, k - 1);
      LaterTime(Volleys(first, c, k - 1), Gates(t, c) + Fails(t, c), t);
    }
  }

  lemma LaterTime(a: seq<Event>, b: seq<Event>, t: int)
    requires t >= 0 && ClockFrom(0, a) && (forall i :: 0 <= i < |a| ==> a[i].now <= t)
    requires forall i :: 0 <= i < |b| ==> b[i].now == t
    ensures ClockFrom(0, a + b) && forall i :: 0 <= i < |a + b| ==> (a + b)[i].now <= t
  {
  }

  lemma {:induction false} VolleyTime(t: int, n: nat)
    ensures forall i :: 0 <= i < |Gates(t, n)| ==> Gates(t, n)[i].now == t
    ensures forall i :: 0 <= i < |Fails(t, n)| ==> Fails(t, n)[i].now == t
  {
    if n > 0 { VolleyTime(t, n - 1); }
  }

  lemma {:induction false} SingleTime(n: nat)
    ensures forall i :: 0 <= i < |Single(n)| ==> Single(n)[i].now == 0
  {
    VolleyTime(0, 1);
    if n > 0 { SingleTime(n - 1); }
  }
}
