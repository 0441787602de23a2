/** Signed session cookies and their revocation (internal/adminui/session.go).
    The MAC is a parameter: the hex digest of HMAC under the process's key, of
    which only its fixed length matters. Times are nanoseconds. */
module Sessions {
  import opened Options
  import opened Sequences
  import Decimal
  import Utf8

  type Mac = string -> string

  const SECOND := 1_000_000_000
  const TTL := 12 * 3600 * SECOND

  /** `t.Unix()`: whole seconds, rounded down. */
  function Unix(t: int): int { t / SECOND }

  ghost predicate FixedLength(mac: Mac) { forall x :: |mac(x)| == 64 }

  predicate NoBar(s: string) { '|' !in s }

  function HexDigit(d: nat): (c: char)
    requires d < 16
    ensures c != '|'
  {
    if d < 10 then '0' + d as char else 'a' + (d - 10) as char
  }

  /** `hex.EncodeToString` */
  function Hex(b: Utf8.Bytes): (s: string)
    ensures |s| == 2 * |b| && NoBar(s)
  {
    if b == [] then "" else [HexDigit(b[0] / 16), HexDigit(b[0] % 16)] + Hex(b[1..])
  }

  /** Different random bytes make different nonces. */
  lemma {:induction false} HexIsInjective(a: Utf8.Bytes, b: Utf8.Bytes)
    requires Hex(a) == Hex(b)
    ensures a == b
  {
    assert |a| == |b|;
    if a != [] {
      var s, t := Hex(a), Hex(b);
      assert s[0] == t[0] && s[1] == t[1];
      assert s[2..] == Hex(a[1..]) && t[2..] == Hex(b[1..]);
      HexIsInjective(a[1..], b[1..]);
      assert a[0] == b[0];
      assert a == [a[0]] + a[1..] && b == [b[0]] + b[1..];
    }
  }

  function Sign(mac: Mac, expiry: int, nonce: string): string {
    var payload := Decimal.IntText(expiry) + "|" + nonce;
    payload + "|" + mac(payload)
  }

  /** Logged-out nonces with the time after which they may be swept. */
  type Revoked = map<string, int>

  datatype Session = Session(nonce: string, expiry: int)

  lemma CutAt(s: string, i: nat)
    requires i < |s| && s[i] == '|'
    ensures s == s[..i] + "|" + s[i + 1..]
  {
  }

  lemma Join3(a: string, b: string, c: string)
    ensures a + "|" + (b + "|" + c) == a + "|" + b + "|" + c
  {
  }

  /** `strings.SplitN(value, "|", 3)` when it gives three parts. */
  function Split3(value: string): (r: Option<(string, string, string)>)
    ensures r.Some? ==>
      var (a, b, c) := r.value;
      NoBar(a) && NoBar(b) && value == a + "|" + b + "|" + c
  {
    var i := IndexOf(value, '|');
    if i == |value| then None
    else
      var rest := value[i + 1..];
      var j := IndexOf(rest, '|');
      if j == |rest| then None
      else
        CutAt(value, i);
        CutAt(rest, j);
        Join3(value[..i], rest[..j], rest[j + 1..]);
        Some((value[..i], rest[..j], rest[j + 1..]))
  }

  /** The signature and the expiry, by the clock reading `now`. */
  function VerifySigned(mac: Mac, value: string, now: int): Option<Session> {
    match Split3(value)
    case None => None
    case Some((expiryText, nonce, sig)) =>
      var expiry := Decimal.ParseInt64(expiryText);
      if expiry.None? || sig != mac(expiryText + "|" + nonce) || Unix(now) > expiry.value then None
      else Some(Session(nonce, expiry.value))
  }

  /** `revoked` is the set at the look-up, which comes after the clock reading. */
  function Verify(mac: Mac, revoked: Revoked, value: string, now: int): Option<Session> {
    var signed := VerifySigned(mac, value, now);
    if signed.Some? && signed.value.nonce in revoked then None else signed
  }

  function Revoke(revoked: Revoked, nonce: string, now: int): Revoked {
    if nonce == "" then revoked
    else (map n | n in revoked && now <= revoked[n] :: revoked[n])[nonce := now + TTL]
  }

  /** The expiry that a cookie issued at `t` carries. */
  function ExpiryAt(t: int): int { Unix(t + TTL) }

  class SessionManager {
    const mac: Mac
    var revoked: Revoked

    constructor (mac: Mac)
      ensures this.mac == mac && revoked == map[]
    {
      this.mac, revoked := mac, map[];
    }

    method RevokeSession(nonce: string, now: int)
      modifies this
      ensures revoked == Revoke(old(revoked), nonce, now)
      ensures nonce == "" ==> revoked == old(revoked)
    {
      if nonce == "" { return; }
      var todo := revoked.Keys;
      while todo != {}
        invariant todo <= old(revoked).Keys
        invariant revoked == map n | n in old(revoked) && (n in todo || now <= old(revoked)[n]) :: old(revoked)[n]
        decreases todo
      {
        var n :| n in todo;
        todo := todo - {n};
        if now > revoked[n] { revoked := revoked - {n}; }
      }
      revoked := revoked[nonce := now + TTL];
    }

    /** A verification that reads the clock at `now`; the logouts `others` come
        before it looks its nonce up. */
    method CheckCookie(value: string, now: int, others: seq<Logout>) returns (session: Option<Session>)
      modifies this
      ensures revoked == AfterLogouts(old(revoked), others)
      ensures session == Verify(mac, revoked, value, now)
    {
      var signed := VerifySigned(mac, value, now);
      var i := 0;
      while i < |others|
        invariant 0 <= i <= |others| && revoked == AfterLogouts(old(revoked), others[..i])
      {
        assert others[..i + 1][..i] == others[..i];
        RevokeSession(others[i].nonce, others[i].now);
        i := i + 1;
      }
      assert others[..i] == others;
      if signed.None? { return None; }
      if signed.value.nonce in revoked { return None; }
      return signed;
    }

    /** The cookie for a nonce made of random bytes: at any later time, whatever has
        been revoked by then, it is accepted and yields the nonce exactly if the
        nonce is not revoked and the second twelve hours after that of the issue is
        not over. */
    method Issue(random: Utf8.Bytes, now: int) returns (nonce: string, cookie: string)
      requires FixedLength(mac) && 0 <= now <= Decimal.MAX_INT64
      ensures nonce == Hex(random)
      ensures AcceptedUntil(mac, cookie, nonce, EndOf(now))
    {
      nonce := Hex(random);
      cookie := Sign(mac, Unix(now + TTL), nonce);
      IssuedIsAccepted(mac, nonce, now);
    }
  }

  // ---- cookies ----

  lemma {:induction false} FirstBarIs(s: string, t: string)
    requires NoBar(s)
    ensures IndexOf(s + "|" + t, '|') == |s|
  {
    if s != "" {
      assert (s + "|" + t)[1..] == s[1..] + "|" + t;
      FirstBarIs(s[1..], t);
    }
  }

  lemma ExpiryHasNoBar(n: int)
    ensures NoBar(Decimal.IntText(n))
  {
    Decimal.NatTextDigits(if n < 0 then -n else n);
  }

  lemma SplitInverts(a: string, b: string, c: string)
    requires NoBar(a) && NoBar(b)
    ensures Split3(a + "|" + b + "|" + c) == Some((a, b, c))
  {
    var rest := b + "|" + c;
    var value := a + "|" + b + "|" + c;
    assert value == a + "|" + rest;
    FirstBarIs(a, rest);
    assert value[..|a|] == a && value[|a| + 1..] == rest;
    FirstBarIs(b, c);
    assert rest[..|b|] == b && rest[|b| + 1..] == c;
  }

  lemma BarMoves(e: string, head: string, tail: string, full: string)
    ensures e + "|" + (head + "|" + tail) + "|" + full == e + "|" + head + "|" + (tail + "|" + full)
  {
    Join3(e, head, tail);
    Join3(e + "|" + head, tail, full);
  }

  /** A bar in the nonce ends it early and leaves too long a signature. */
  lemma BarredNonceIsRefused(mac: Mac, revoked: Revoked, e: string, nonce: string, now: int)
    requires FixedLength(mac) && NoBar(e) && !NoBar(nonce)
    ensures Verify(mac, revoked, e + "|" + nonce + "|" + mac(e + "|" + nonce), now).None?
  {
    var k, full := IndexOf(nonce, '|'), mac(e + "|" + nonce);
    assert k < |nonce| by { assert nonce[..|nonce|] == nonce; }
    var head, tail := nonce[..k], nonce[k + 1..];
    assert nonce == head + "|" + tail;
    var sig := tail + "|" + full;
    BarMoves(e, head, tail, full);
    SplitInverts(e, head, sig);
    assert |sig| > 64 == |mac(e + "|" + head)|;
  }

  /** `verify` gives back what `sign` was given exactly when the cookie has not
      expired, the nonce is not revoked and contains no bar. */
  lemma VerifyInvertsSign(mac: Mac, revoked: Revoked, expiry: int, nonce: string, now: int)
    requires FixedLength(mac) && Decimal.MIN_INT64 <= expiry <= Decimal.MAX_INT64
    ensures Verify(mac, revoked, Sign(mac, expiry, nonce), now) ==
      if NoBar(nonce) && Unix(now) <= expiry && nonce !in revoked
      then Some(Session(nonce, expiry)) else None
  {
    var e := Decimal.IntText(expiry);
    ExpiryHasNoBar(expiry);
    Decimal.ParseIntInverts(expiry);
    if NoBar(nonce) {
      SplitInverts(e, nonce, mac(e + "|" + nonce));
    } else {
      BarredNonceIsRefused(mac, revoked, e, nonce, now);
    }
  }

  ghost predicate AcceptedUntil(mac: Mac, cookie: string, nonce: string, end: int) {
    forall revoked, t ::
      && (Verify(mac, revoked, cookie, t).Some? <==> nonce !in revoked && t < end)
      && YieldsOnly(Verify(mac, revoked, cookie, t), nonce)
  }

  predicate YieldsOnly(r: Option<Session>, nonce: string) { r.Some? ==> r.value.nonce == nonce }

  lemma IssuedIsAccepted(mac: Mac, nonce: string, now: int)
    requires FixedLength(mac) && NoBar(nonce) && 0 <= now <= Decimal.MAX_INT64
    ensures AcceptedUntil(mac, Sign(mac, ExpiryAt(now), nonce), nonce, EndOf(now))
  {
    forall revoked, t
      ensures Verify(mac, revoked, Sign(mac, ExpiryAt(now), nonce), t) ==
        if t < EndOf(now) && nonce !in revoked then Some(Session(nonce, ExpiryAt(now))) else None
    {
      VerifyIssued(mac, revoked, nonce, now, t);
    }
  }

  lemma WithinSecond(t: int, s: int)
    ensures Unix(t) <= s <==> t < (s + 1) * SECOND
  {
  }

  /** Whatever is accepted carries the MAC of exactly its own expiry and nonce. */
  lemma AcceptedIsSigned(mac: Mac, revoked: Revoked, value: string, now: int)
    requires Verify(mac, revoked, value, now).Some?
    ensures var s := Verify(mac, revoked, value, now).value;
      var e := value[..IndexOf(value, '|')];
      && NoBar(e) && NoBar(s.nonce) && Decimal.ParseInt64(e) == Some(s.expiry)
      && value == e + "|" + s.nonce + "|" + mac(e + "|" + s.nonce)
      && Unix(now) <= s.expiry && s.nonce !in revoked
  {
    var (e, nonce, sig) := Split3(value).value;
    assert value == e + "|" + nonce + "|" + sig;
  }

  // ---- revocation ----

  datatype Logout = Logout(nonce: string, now: int)

  function AfterLogouts(revoked: Revoked, xs: seq<Logout>): Revoked
    decreases |xs|
  {
    if xs == [] then revoked
    else Revoke(AfterLogouts(revoked, xs[..|xs| - 1]), xs[|xs| - 1].nonce, xs[|xs| - 1].now)
  }

  predicate ClockFrom(start: int, xs: seq<Logout>, now: int) {
    && start <= now && (forall i :: 0 <= i < |xs| ==> start <= xs[i].now <= now)
    && (forall i, j :: 0 <= i < j < |xs| ==> xs[i].now <= xs[j].now)
  }

  /** From the logout of `nonce` at `r` on, its entry is there and sweepable no
      sooner than a cookie lifetime later, or that lifetime is over. */
  lemma {:induction false} EntryOutlivesLifetime(revoked: Revoked, nonce: string, r: int, later: seq<Logout>, now: int)
    requires nonce != "" && ClockFrom(r, later, now)
    ensures var m := AfterLogouts(Revoke(revoked, nonce, r), later);
      (nonce in m && m[nonce] >= r + TTL) || now > r + TTL
    decreases |later|
  {
    if later != [] {
      var init, x := later[..|later| - 1], later[|later| - 1];
      EntryOutlivesLifetime(revoked, nonce, r, init, x.now);
    }
  }

  /** The end of the last second in which a cookie issued at `issued` is accepted. */
  function EndOf(issued: int): int { (Unix(issued) + 12 * 3600 + 1) * SECOND }

  /** A verification that looks its nonce up at `seen`, after the logout at `r` and
      the logouts `later`, and has read the clock at `now`, not before `from` and at
      most `gap` earlier. */
  predicate Verification(r: int, later: seq<Logout>, from: int, now: int, seen: int, gap: nat) {
    from <= now <= seen <= now + gap && ClockFrom(r, later, seen)
  }

  /** The cookie issued at `issued` and logged out at `r` is refused by every
      verification that looks up later, through any further logouts and the sweeps
      they bring. */
  ghost predicate RefusedForGood(mac: Mac, revoked: Revoked, nonce: string, issued: int, r: int, from: int, gap: nat) {
    forall later, now, seen :: Verification(r, later, from, now, seen, gap) ==>
      Verify(mac, AfterLogouts(Revoke(revoked, nonce, r), later), Sign(mac, ExpiryAt(issued), nonce), now).None?
  }

  lemma WholeSeconds(t: int)
    ensures Unix(t + TTL) == Unix(t) + 12 * 3600
  {
  }

  lemma VerifyIssued(mac: Mac, revoked: Revoked, nonce: string, issued: int, now: int)
    requires FixedLength(mac) && NoBar(nonce) && 0 <= issued <= Decimal.MAX_INT64
    ensures Verify(mac, revoked, Sign(mac, ExpiryAt(issued), nonce), now) ==
      if now < EndOf(issued) && nonce !in revoked then Some(Session(nonce, ExpiryAt(issued))) else None
  {
    WholeSeconds(issued);
    VerifyInvertsSign(mac, revoked, ExpiryAt(issued), nonce, now);
    WithinSecond(now, ExpiryAt(issued));
  }

  /** When no more than `gap` passes between the clock reading and the look-up of a
      verification, and none reads the clock before `from`: the cookie is refused for
      good if and only if a nanosecond after the logout at least the gap has passed
      since the end of the issue's second, or the cookie has expired by `from`. */
  lemma RefusedForGoodIff(mac: Mac, revoked: Revoked, nonce: string, issued: int, r: int, from: int, gap: nat, other: string)
    requires FixedLength(mac) && nonce != "" && NoBar(nonce) && 0 <= issued <= Decimal.MAX_INT64 && issued <= r
    requires other != "" && other != nonce
    ensures RefusedForGood(mac, revoked, nonce, issued, r, from, gap)
            <==> (Unix(issued) + 1) * SECOND + gap <= r + 1 || EndOf(issued) <= from
  {
    if (Unix(issued) + 1) * SECOND + gap <= r + 1 || EndOf(issued) <= from {
      forall later, now, seen | Verification(r, later, from, now, seen, gap)
        ensures Verify(mac, AfterLogouts(Revoke(revoked, nonce, r), later), Sign(mac, ExpiryAt(issued), nonce), now).None?
      {
        EntryOutlivesLifetime(revoked, nonce, r, later, seen);
        VerifyIssued(mac, AfterLogouts(Revoke(revoked, nonce, r), later), nonce, issued, now);
      }
    } else {
      EarlyLogoutComesBack(mac, revoked, nonce, issued, r, from, gap, other);
    }
  }

  /** The verification that accepts an early logged-out cookie: it reads the clock
      in the last nanosecond before the end and looks up after the entry could be
      swept. */
  function LastReading(issued: int): int { EndOf(issued) - 1 }

  function LateLookUp(issued: int, r: int): int {
    if LastReading(issued) > r + TTL then LastReading(issued) else r + TTL + 1
  }

  /** Otherwise the logout of whoever else, right before the look-up, sweeps the
      entry and lets the cookie in again. */
  lemma EarlyLogoutComesBack(mac: Mac, revoked: Revoked, nonce: string, issued: int, r: int, from: int, gap: nat, other: string)
    requires FixedLength(mac) && nonce != "" && NoBar(nonce) && 0 <= issued <= Decimal.MAX_INT64 && issued <= r
    requires other != "" && other != nonce
    requires r + 1 < (Unix(issued) + 1) * SECOND + gap && from < EndOf(issued)
    ensures var now, seen := LastReading(issued), LateLookUp(issued, r);
      var later := [Logout(other, seen)];
      && Verification(r, later, from, now, seen, gap)
      && Verify(mac, AfterLogouts(Revoke(revoked, nonce, r), later), Sign(mac, ExpiryAt(issued), nonce), now)
         == Some(Session(nonce, ExpiryAt(issued)))
    ensures !RefusedForGood(mac, revoked, nonce, issued, r, from, gap)
  {
    var now, seen := LastReading(issued), LateLookUp(issued, r);
    var later := [Logout(other, seen)];
    LogoutSweeps(revoked, nonce, r, other, seen);
    VerifyIssued(mac, AfterLogouts(Revoke(revoked, nonce, r), later), nonce, issued, now);
    assert Verification(r, later, from, now, seen, gap);
  }

  lemma LogoutSweeps(revoked: Revoked, nonce: string, r: int, other: string, now: int)
    requires nonce != "" && other != "" && other != nonce && now > r + TTL
    ensures nonce !in AfterLogouts(Revoke(revoked, nonce, r), [Logout(other, now)])
  {
    var m, later := Revoke(revoked, nonce, r), [Logout(other, now)];
    assert AfterLogouts(m, later[..0]) == m;
    assert later[|later| - 1] == Logout(other, now);
  }

  /** A logout `margin` after the issue holds against every verification since. */
  ghost predicate HoldsAfter(mac: Mac, revoked: Revoked, nonce: string, issued: int, margin: nat, gap: nat) {
    RefusedForGood(mac, revoked, nonce, issued, issued + margin, issued, gap)
  }

  /** So against every verification since the issue, a margin between issue and
      logout is enough for all issue times exactly from one second plus the gap, less
      a nanosecond, up: a second is what rounding the expiry costs. */
  lemma MarginIsOneSecond(mac: Mac, revoked: Revoked, nonce: string, margin: nat, gap: nat, other: string)
    requires FixedLength(mac) && nonce != "" && NoBar(nonce) && other != "" && other != nonce
    ensures (forall issued :: 0 <= issued <= Decimal.MAX_INT64 ==> HoldsAfter(mac, revoked, nonce, issued, margin, gap))
            <==> margin + 1 >= SECOND + gap
  {
    if margin + 1 >= SECOND + gap {
      forall issued | 0 <= issued <= Decimal.MAX_INT64
        ensures HoldsAfter(mac, revoked, nonce, issued, margin, gap)
      {
        RefusedForGoodIff(mac, revoked, nonce, issued, issued + margin, issued, gap, other);
      }
    } else {
      RefusedForGoodIff(mac, revoked, nonce, 0, margin, 0, gap, other);
      assert !HoldsAfter(mac, revoked, nonce, 0, margin, gap);
    }
  }
}
