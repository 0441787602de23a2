/** The users, subscriptions, topics and apps tables, and the four recipient
    resolvers that read them (internal/dispatch/strategy). */
module Registry {
  import opened Options

  datatype Status = Active | Paused | Anonymized

  datatype User = User(
    telegramId: int, username: Option<string>, preferredLang: Option<string>, grade: string,
    agreedAt: Option<int>, chatId: Option<int>, linkedAt: Option<int>, botIsAdmin: bool,
    status: Status, anonymized: bool)

  datatype Token = Token(userId: int, expiresAt: int)

  datatype AppInfo = AppInfo(active: bool, minGrade: string)

  datatype Db = Db(
    users: map<int, User>, nextId: int, tokens: map<string, Token>,
    apps: map<string, AppInfo>, subscriptions: set<(int, string)>, topics: map<(int, string), int>)

  /** `SELECT id FROM users ORDER BY id` */
  predicate ListsUsers(ids: seq<int>, db: Db) {
    && (forall i, j :: 0 <= i < j < |ids| ==> ids[i] < ids[j])
    && (forall i :: 0 <= i < |ids| ==> ids[i] in db.users)
    && (forall id :: id in db.users ==> id in ids)
  }

  predicate AppActive(db: Db, app: string) { app in db.apps && db.apps[app].active }

  predicate Subscribed(db: Db, id: int, app: string) { (id, app) in db.subscriptions }

  predicate UniqueTelegramIds(db: Db) {
    forall i, j :: i in db.users && j in db.users && db.users[i].telegramId == db.users[j].telegramId ==> i == j
  }
}

module Grades {
  /** `unicode.IsSpace` */
  predicate IsSpace(c: char) {
    c == ' ' || '\t' <= c <= '\r' || c == '\U{85}' || c == '\U{A0}' || c == '\U{1680}' || '\U{2000}' <= c <= '\U{200A}'
    || c == '\U{2028}' || c == '\U{2029}' || c == '\U{202F}' || c == '\U{205F}' || c == '\U{3000}'
  }

  /** `unicode.ToLower` where it yields an ASCII letter: from the capitals, the
      capital I with a dot above and the Kelvin sign. */
  function LowerChar(c: char): char {
    if 'A' <= c <= 'Z' then c - 'A' + 'a'
    else if c == '\U{130}' then 'i'
    else if c == '\U{212A}' then 'k'
    else c
  }

  function Lower(s: string): (r: string)
    ensures |r| == |s|
  {
    if s == "" then "" else [LowerChar(s[0])] + Lower(s[1..])
  }

  function TrimLeft(s: string): string { if s != "" && IsSpace(s[0]) then TrimLeft(s[1..]) else s }

  function TrimRight(s: string): string {
    if s != "" && IsSpace(s[|s| - 1]) then TrimRight(s[..|s| - 1]) else s
  }

  /** `strings.ToLower(strings.TrimSpace(g))` */
  function Canon(g: string): string { Lower(TrimRight(TrimLeft(g))) }

  function CanonRank(c: string): nat {
    if c == "admin" then 3
    else if c == "developer" || c == "dev" then 2
    else if c == "user" then 1
    else 0
  }

  function Rank(g: string): nat { CanonRank(Canon(g)) }

  function Normalize(g: string): string {
    var c := Canon(g);
    if c == "dev" then "developer" else if c == "" then "user" else c
  }

  function Max(a: string, b: string): string { if Rank(a) >= Rank(b) then a else b }

  predicate Trimmed(s: string) { s == "" || (!IsSpace(s[0]) && !IsSpace(s[|s| - 1])) }

  lemma {:induction false} TrimRightFacts(s: string)
    ensures TrimRight(s) <= s && (TrimRight(s) == "" || !IsSpace(TrimRight(s)[|TrimRight(s)| - 1]))
    decreases |s|
  {
    if s != "" && IsSpace(s[|s| - 1]) { TrimRightFacts(s[..|s| - 1]); }
  }

  lemma {:induction false} TrimLeftFacts(s: string)
    ensures TrimLeft(s) == "" || !IsSpace(TrimLeft(s)[0])
  {
    if s != "" && IsSpace(s[0]) { TrimLeftFacts(s[1..]); }
  }

  lemma {:induction false} LowerFacts(s: string)
    ensures forall i :: 0 <= i < |s| ==> (IsSpace(Lower(s)[i]) <==> IsSpace(s[i]))
    ensures Lower(Lower(s)) == Lower(s)
  {
    if s != "" {
      LowerFacts(s[1..]);
      assert Lower(s)[1..] == Lower(s[1..]);
      assert forall i :: 1 <= i < |s| ==> s[i] == s[1..][i - 1] && Lower(s)[i] == Lower(s[1..])[i - 1];
    }
  }

  /** Canonical text stays as it is, so reading a normalized grade again is safe. */
  lemma CanonIsIdempotent(g: string)
    ensures Canon(Canon(g)) == Canon(g)
  {
    var l := TrimLeft(g);
    var t := TrimRight(l);
    TrimLeftFacts(g);
    TrimRightFacts(l);
    LowerFacts(t);
    assert Trimmed(t) && Trimmed(Lower(t));
  }

  /** Normalizing keeps the rank, except that no grade at all asks for "user". */
  lemma NormalizeKeepsRank(g: string)
    ensures Rank(Normalize(g)) == if Canon(g) == "" then 1 else Rank(g)
  {
    CanonIsIdempotent(g);
    if Canon(g) == "dev" { PlainIsCanonical("developer"); }
    if Canon(g) == "" { PlainIsCanonical("user"); }
  }

  lemma {:induction false} LowerPlain(s: string)
    requires forall i :: 0 <= i < |s| ==> 'a' <= s[i] <= 'z'
    ensures Lower(s) == s
  {
    if s != "" {
      LowerPlain(s[1..]);
      assert [s[0]] + s[1..] == s;
    }
  }

  lemma PlainIsCanonical(s: string)
    requires forall i :: 0 <= i < |s| ==> 'a' <= s[i] <= 'z'
    ensures Canon(s) == s
  {
    LowerPlain(s);
  }

  /** Stored grades, which are lower-case words: users below developers, also written
      dev, below administrators; any other word ranks below them all, so that it
      passes no check. */
  lemma StoredGradesAreOrdered(a: string, b: string)
    requires forall i :: 0 <= i < |a| ==> 'a' <= a[i] <= 'z'
    requires forall i :: 0 <= i < |b| ==> 'a' <= b[i] <= 'z'
    ensures a == "user" && (b == "developer" || b == "dev") ==> 0 < Rank(a) < Rank(b)
    ensures (a == "developer" || a == "dev") && b == "admin" ==> Rank(a) < Rank(b)
    ensures a == "developer" && b == "dev" ==> Rank(a) == Rank(b)
    ensures a != "user" && a != "developer" && a != "dev" && a != "admin" ==> Rank(a) == 0
  {
    PlainIsCanonical(a);
    PlainIsCanonical(b);
  }

  lemma MaxHasMaxRank(a: string, b: string)
    ensures Rank(Max(a, b)) == if Rank(a) >= Rank(b) then Rank(a) else Rank(b)
  {
  }
}

module Recipients {
  import opened Options
  import opened Registry
  import Grades

  datatype Channel = Supergroup | General | Dm

  datatype Handle = Handle(userId: int, chatId: int, topicId: int, channel: Channel)

  datatype Code =
    | UnknownRecipient | RecipientInactive | NotSubscribed | NotLinked | BotNotAdmin | TopicMissing | GradeInsufficient

  datatype Skip = Skip(userId: int, code: Code)

  datatype Resolution = Resolution(recipients: seq<Handle>, skipped: seq<Skip>) {
    function Add(id: int, v: Verdict): Resolution {
      match v
      case Deliver(h) => Resolution(recipients + [h], skipped)
      case SkipWith(code) => Resolution(recipients, skipped + [Skip(id, code)])
    }
  }

  datatype Outcome = Resolved(res: Resolution) | AppNotFound

  datatype Verdict = Deliver(handle: Handle) | SkipWith(code: Code)

  const NOBODY := Resolution([], [])

  function TopicOf(db: Db, id: int, app: string): Option<int> {
    if (id, app) in db.topics then Some(db.topics[(id, app)]) else None
  }

  // ---- direct ----

  /** The checks of the direct resolver on a known user, in their order. */
  function DirectVerdict(db: Db, app: string, id: int): Verdict
    requires id in db.users
  {
    var u := db.users[id];
    if u.status != Active then SkipWith(RecipientInactive)
    else if !Subscribed(db, id, app) then SkipWith(NotSubscribed)
    else if u.chatId.None? then SkipWith(NotLinked)
    else if !u.botIsAdmin then SkipWith(BotNotAdmin)
    else if TopicOf(db, id, app).None? then SkipWith(TopicMissing)
    else Deliver(Handle(id, u.chatId.value, TopicOf(db, id, app).value, Supergroup))
  }

  /** `id` is among the first `n` of a list. */
  predicate Among(ids: seq<int>, n: nat, id: int)
    requires n <= |ids|
  {
    n > 0 && (ids[n - 1] == id || Among(ids, n - 1, id))
  }

  /** The first `n` requested ids: a known id counts at its first occurrence only. */
  function DirectTo(db: Db, app: string, ids: seq<int>, n: nat): Resolution
    requires n <= |ids|
  {
    if n == 0 then NOBODY
    else
      var prev, id := DirectTo(db, app, ids, n - 1), ids[n - 1];
      if id !in db.users then prev.Add(id, SkipWith(UnknownRecipient))
      else if Among(ids, n - 1, id) then prev
      else prev.Add(id, DirectVerdict(db, app, id))
  }

  function Direct(db: Db, app: string, ids: seq<int>): Resolution { DirectTo(db, app, ids, |ids|) }

  method ResolveDirect(db: Db, ids: seq<int>, app: string) returns (o: Outcome)
    ensures o == if app in db.apps && db.apps[app].active then Resolved(Direct(db, app, ids)) else AppNotFound
  {
    if !AppActive(db, app) { return AppNotFound; }
    var seen: set<int>, res, idx := {}, NOBODY, 0;
    while idx < |ids|
      invariant 0 <= idx <= |ids|
      invariant forall id :: id in seen <==> id in db.users && Among(ids, idx, id)
      invariant res == DirectTo(db, app, ids, idx)
    {
      var id := ids[idx];
      idx := idx + 1;
      if id !in db.users {
        res := res.(skipped := res.skipped + [Skip(id, UnknownRecipient)]);
        continue;
      }
      if id in seen { continue; }
      seen := seen + {id};
      var u := db.users[id];
      if u.status != Active {
        res := res.(skipped := res.skipped + [Skip(id, RecipientInactive)]);
        continue;
      }
      if !Subscribed(db, id, app) {
        res := res.(skipped := res.skipped + [Skip(id, NotSubscribed)]);
        continue;
      }
      if u.chatId.None? {
        res := res.(skipped := res.skipped + [Skip(id, NotLinked)]);
        continue;
      }
      if !u.botIsAdmin {
        res := res.(skipped := res.skipped + [Skip(id, BotNotAdmin)]);
        continue;
      }
      if (id, app) !in db.topics {
        res := res.(skipped := res.skipped + [Skip(id, TopicMissing)]);
        continue;
      }
      res := res.(recipients := res.recipients + [Handle(id, u.chatId.value, db.topics[(id, app)], Supergroup)]);
    }
    o := Resolved(res);
  }

  // ---- topic ----

  /** The checks of the topic resolver on a subscribed, active user. */
  function TopicVerdict(db: Db, app: string, rank: nat, id: int): Verdict
    requires id in db.users
  {
    var u := db.users[id];
    if Grades.Rank(u.grade) < rank then SkipWith(GradeInsufficient)
    else if u.chatId.None? then SkipWith(NotLinked)
    else if !u.botIsAdmin then SkipWith(BotNotAdmin)
    else if TopicOf(db, id, app).None? then SkipWith(TopicMissing)
    else Deliver(Handle(id, u.chatId.value, TopicOf(db, id, app).value, Supergroup))
  }

  /** The rows of the topic query: active subscribers. */
  predicate Addressed(db: Db, app: string, id: int)
    requires id in db.users
  {
    Subscribed(db, id, app) && db.users[id].status == Active
  }

  function TopicTo(db: Db, app: string, rank: nat, order: seq<int>, n: nat): Resolution
    requires n <= |order| && forall i :: 0 <= i < |order| ==> order[i] in db.users
  {
    if n == 0 then NOBODY
    else
      var prev, id := TopicTo(db, app, rank, order, n - 1), order[n - 1];
      if Addressed(db, app, id) then prev.Add(id, TopicVerdict(db, app, rank, id)) else prev
  }

  /** The rank that a user needs: the app's, or the request's if that is higher. */
  function RequiredRank(db: Db, app: string, minGrade: string): nat
    requires app in db.apps
  {
    Grades.Rank(Grades.Max(db.apps[app].minGrade, Grades.Normalize(minGrade)))
  }

  /** TopicStrategy.Resolve on a request's minimum grade; rows come ordered by id. */
  method ResolveTopic(db: Db, order: seq<int>, app: string, minGrade: string) returns (o: Outcome)
    requires ListsUsers(order, db)
    ensures o == if app in db.apps && db.apps[app].active then Resolved(TopicTo(db, app, RequiredRank(db, app, minGrade), order, |order|))
                 else AppNotFound
  {
    if !AppActive(db, app) { return AppNotFound; }
    var effective := Grades.Max(db.apps[app].minGrade, Grades.Normalize(minGrade));
    var res, i := NOBODY, 0;
    while i < |order|
      invariant 0 <= i <= |order| && res == TopicTo(db, app, Grades.Rank(effective), order, i)
    {
      var id := order[i];
      i := i + 1;
      var u := db.users[id];
      if !Subscribed(db, id, app) || u.status != Active { continue; }
      if Grades.Rank(u.grade) < Grades.Rank(effective) {
        res := res.(skipped := res.skipped + [Skip(id, GradeInsufficient)]);
      } else if u.chatId.None? {
        res := res.(skipped := res.skipped + [Skip(id, NotLinked)]);
      } else if !u.botIsAdmin {
        res := res.(skipped := res.skipped + [Skip(id, BotNotAdmin)]);
      } else if (id, app) !in db.topics {
        res := res.(skipped := res.skipped + [Skip(id, TopicMissing)]);
      } else {
        res := res.(recipients := res.recipients + [Handle(id, u.chatId.value, db.topics[(id, app)], Supergroup)]);
      }
    }
    o := Resolved(res);
  }

  // ---- broadcast ----

  function BroadcastVerdict(db: Db, rank: nat, id: int): Verdict
    requires id in db.users
  {
    var u := db.users[id];
    if Grades.Rank(u.grade) < rank then SkipWith(GradeInsufficient)
    else if u.chatId.None? then SkipWith(NotLinked)
    else if !u.botIsAdmin then SkipWith(BotNotAdmin)
    else Deliver(Handle(id, u.chatId.value, 0, General))
  }

  function BroadcastTo(db: Db, rank: nat, order: seq<int>, n: nat): Resolution
    requires n <= |order| && forall i :: 0 <= i < |order| ==> order[i] in db.users
  {
    if n == 0 then NOBODY
    else
      var prev, id := BroadcastTo(db, rank, order, n - 1), order[n - 1];
      if db.users[id].status == Active then prev.Add(id, BroadcastVerdict(db, rank, id)) else prev
  }

  method ResolveBroadcast(db: Db, order: seq<int>, minGrade: string) returns (res: Resolution)
    requires ListsUsers(order, db)
    ensures res == BroadcastTo(db, Grades.Rank(Grades.Normalize(minGrade)), order, |order|)
  {
    var grade := Grades.Normalize(minGrade);
    res := NOBODY;
    var i := 0;
    while i < |order|
      invariant 0 <= i <= |order| && res == BroadcastTo(db, Grades.Rank(grade), order, i)
    {
      var id := order[i];
      i := i + 1;
      var u := db.users[id];
      if u.status != Active { continue; }
      if Grades.Rank(u.grade) < Grades.Rank(grade) {
        res := res.(skipped := res.skipped + [Skip(id, GradeInsufficient)]);
        continue;
      }
      if u.chatId.None? {
        res := res.(skipped := res.skipped + [Skip(id, NotLinked)]);
        continue;
      }
      if !u.botIsAdmin {
        res := res.(skipped := res.skipped + [Skip(id, BotNotAdmin)]);
        continue;
      }
      res := res.(recipients := res.recipients + [Handle(id, u.chatId.value, 0, General)]);
    }
  }

  // ---- direct message ----

  /** The user with a telegram id (a unique column). */
  function ByTelegram(db: Db, order: seq<int>, n: nat, tg: int): (r: Option<int>)
    requires n <= |order| && forall i :: 0 <= i < |order| ==> order[i] in db.users
    ensures r.Some? ==> r.value in db.users && db.users[r.value].telegramId == tg
    ensures r.None? ==> forall i :: 0 <= i < n ==> db.users[order[i]].telegramId != tg
  {
    if n == 0 then None
    else if db.users[order[n - 1]].telegramId == tg then Some(order[n - 1])
    else ByTelegram(db, order, n - 1, tg)
  }

  function DmVerdict(db: Db, id: int): Verdict
    requires id in db.users
  {
    var u := db.users[id];
    if u.status != Active then SkipWith(RecipientInactive) else Deliver(Handle(id, u.telegramId, 0, Dm))
  }

  function DmTo(db: Db, order: seq<int>, tgs: seq<int>, n: nat): Resolution
    requires n <= |tgs| && forall i :: 0 <= i < |order| ==> order[i] in db.users
  {
    if n == 0 then NOBODY
    else
      var prev, tg := DmTo(db, order, tgs, n - 1), tgs[n - 1];
      var id := ByTelegram(db, order, |order|, tg);
      if id.None? then prev.Add(tg, SkipWith(UnknownRecipient))
      else if exists k :: 0 <= k < n - 1 && ByTelegram(db, order, |order|, tgs[k]) == id then prev
      else prev.Add(id.value, DmVerdict(db, id.value))
  }

  method ResolveDirectDm(db: Db, order: seq<int>, tgs: seq<int>) returns (res: Resolution)
    requires ListsUsers(order, db)
    ensures res == DmTo(db, order, tgs, |tgs|)
  {
    var seen: set<int>, i := {}, 0;
    res := NOBODY;
    while i < |tgs|
      invariant 0 <= i <= |tgs| && res == DmTo(db, order, tgs, i)
      invariant forall id :: id in seen <==> exists k :: 0 <= k < i && ByTelegram(db, order, |order|, tgs[k]) == Some(id)
    {
      var tg := tgs[i];
      var found := ByTelegram(db, order, |order|, tg);
      i := i + 1;
      if found.None? {
        res := res.(skipped := res.skipped + [Skip(tg, UnknownRecipient)]);
        continue;
      }
      var id := found.value;
      if id in seen { continue; }
      seen := seen + {id};
      var u := db.users[id];
      if u.status != Active {
        res := res.(skipped := res.skipped + [Skip(id, RecipientInactive)]);
        continue;
      }
      res := res.(recipients := res.recipients + [Handle(id, u.telegramId, 0, Dm)]);
    }
  }

  // ---- what the resolvers promise ----

  /** How often a result speaks of a user. */
  function HandlesFor(hs: seq<Handle>, id: int): nat {
    if hs == [] then 0 else HandlesFor(hs[..|hs| - 1], id) + if hs[|hs| - 1].userId == id then 1 else 0
  }

  function SkipsFor(ss: seq<Skip>, id: int): nat {
    if ss == [] then 0 else SkipsFor(ss[..|ss| - 1], id) + if ss[|ss| - 1].userId == id then 1 else 0
  }

  lemma HandlesSnoc(hs: seq<Handle>, h: Handle, id: int)
    ensures HandlesFor(hs + [h], id) == HandlesFor(hs, id) + if h.userId == id then 1 else 0
  {
    assert (hs + [h])[..|hs|] == hs;
  }

  lemma SkipsSnoc(ss: seq<Skip>, s: Skip, id: int)
    ensures SkipsFor(ss + [s], id) == SkipsFor(ss, id) + if s.userId == id then 1 else 0
  {
    assert (ss + [s])[..|ss|] == ss;
  }

  lemma AddCounts(r: Resolution, id: int, v: Verdict, other: int)
    requires v.Deliver? ==> v.handle.userId == id
    ensures HandlesFor(r.Add(id, v).recipients, other) ==
            HandlesFor(r.recipients, other) + if v.Deliver? && id == other then 1 else 0
    ensures SkipsFor(r.Add(id, v).skipped, other) ==
            SkipsFor(r.skipped, other) + if v.SkipWith? && id == other then 1 else 0
  {
    match v
    case Deliver(h) => HandlesSnoc(r.recipients, h, other);
    case SkipWith(code) => SkipsSnoc(r.skipped, Skip(id, code), other);
  }

  /** Every distinct known id that was requested, and no other, is in exactly one
      of the two lists, once: where its verdict says. */
  lemma {:induction false} DirectPartitions(db: Db, app: string, ids: seq<int>, n: nat, id: int)
    requires n <= |ids| && id in db.users
    ensures var r := DirectTo(db, app, ids, n);
      var requested := if Among(ids, n, id) then 1 else 0;
      && HandlesFor(r.recipients, id) == (if DirectVerdict(db, app, id).Deliver? then requested else 0)
      && SkipsFor(r.skipped, id) == (if DirectVerdict(db, app, id).Deliver? then 0 else requested)
  {
    if n > 0 {
      DirectPartitions(db, app, ids, n - 1, id);
      var prev, last := DirectTo(db, app, ids, n - 1), ids[n - 1];
      if last !in db.users {
        AddCounts(prev, last, SkipWith(UnknownRecipient), id);
      } else if !Among(ids, n - 1, last) {
        AddCounts(prev, last, DirectVerdict(db, app, last), id);
      }
    }
  }

  /** The topic resolver speaks of every subscribed active user, and of nobody
      else, exactly once. */
  lemma {:induction false} TopicPartitions(db: Db, app: string, rank: nat, order: seq<int>, n: nat, id: int)
    requires ListsUsers(order, db) && n <= |order| && id in db.users
    ensures var r, v := TopicTo(db, app, rank, order, n), TopicVerdict(db, app, rank, id);
      var listed := if Among(order, n, id) && Addressed(db, app, id) then 1 else 0;
      && HandlesFor(r.recipients, id) == (if v.Deliver? then listed else 0)
      && SkipsFor(r.skipped, id) == (if v.Deliver? then 0 else listed)
  {
    if n > 0 {
      TopicPartitions(db, app, rank, order, n - 1, id);
      TopicStep(db, app, rank, order, n, id);
      if order[n - 1] == id { NotAmongEarlier(order, n - 1, id); }
    }
  }

  lemma TopicStep(db: Db, app: string, rank: nat, order: seq<int>, n: nat, id: int)
    requires ListsUsers(order, db) && 0 < n <= |order| && id in db.users
    ensures var r, before, v := TopicTo(db, app, rank, order, n), TopicTo(db, app, rank, order, n - 1), TopicVerdict(db, app, rank, id);
      var one := if order[n - 1] == id && Addressed(db, app, id) then 1 else 0;
      && HandlesFor(r.recipients, id) == HandlesFor(before.recipients, id) + (if v.Deliver? then one else 0)
      && SkipsFor(r.skipped, id) == SkipsFor(before.skipped, id) + (if v.Deliver? then 0 else one)
  {
    var last := order[n - 1];
    if Addressed(db, app, last) {
      AddCounts(TopicTo(db, app, rank, order, n - 1), last, TopicVerdict(db, app, rank, last), id);
    }
  }

  /** The broadcast resolver speaks of every active user, and of nobody else,
      exactly once. */
  lemma {:induction false} BroadcastPartitions(db: Db, rank: nat, order: seq<int>, n: nat, id: int)
    requires ListsUsers(order, db) && n <= |order| && id in db.users
    ensures var r, v := BroadcastTo(db, rank, order, n), BroadcastVerdict(db, rank, id);
      var listed := if Among(order, n, id) && db.users[id].status == Active then 1 else 0;
      && HandlesFor(r.recipients, id) == (if v.Deliver? then listed else 0)
      && SkipsFor(r.skipped, id) == (if v.Deliver? then 0 else listed)
  {
    if n > 0 {
      BroadcastPartitions(db, rank, order, n - 1, id);
      BroadcastStep(db, rank, order, n, id);
      if order[n - 1] == id { NotAmongEarlier(order, n - 1, id); }
    }
  }

  lemma BroadcastStep(db: Db, rank: nat, order: seq<int>, n: nat, id: int)
    requires ListsUsers(order, db) && 0 < n <= |order| && id in db.users
    ensures var r, before, v := BroadcastTo(db, rank, order, n), BroadcastTo(db, rank, order, n - 1), BroadcastVerdict(db, rank, id);
      var one := if order[n - 1] == id && db.users[id].status == Active then 1 else 0;
      && HandlesFor(r.recipients, id) == HandlesFor(before.recipients, id) + (if v.Deliver? then one else 0)
      && SkipsFor(r.skipped, id) == SkipsFor(before.skipped, id) + (if v.Deliver? then 0 else one)
  {
    var last := order[n - 1];
    if db.users[last].status == Active {
      AddCounts(BroadcastTo(db, rank, order, n - 1), last, BroadcastVerdict(db, rank, last), id);
    }
  }

  lemma TelegramFinds(db: Db, order: seq<int>, tg: int, id: int)
    requires ListsUsers(order, db) && UniqueTelegramIds(db) && id in db.users
    ensures ByTelegram(db, order, |order|, tg) == Some(id) <==> db.users[id].telegramId == tg
  {
    assert id in order;
    var i :| 0 <= i < |order| && order[i] == id;
    var found := ByTelegram(db, order, |order|, tg);
    if found.Some? && db.users[id].telegramId == tg {
      var other := found.value;
      assert other in db.users;
      assert db.users[other].telegramId == db.users[id].telegramId;
      assert other == id;
    }
  }

  /** How often exactly this skip is listed. */
  function CountSkip(ss: seq<Skip>, s: Skip): nat {
    if ss == [] then 0 else CountSkip(ss[..|ss| - 1], s) + if ss[|ss| - 1] == s then 1 else 0
  }

  lemma AddCountsSkip(r: Resolution, id: int, v: Verdict, s: Skip)
    ensures CountSkip(r.Add(id, v).skipped, s) ==
            CountSkip(r.skipped, s) + if v.SkipWith? && Skip(id, v.code) == s then 1 else 0
  {
    if v.SkipWith? {
      var x := Skip(id, v.code);
      assert (r.skipped + [x])[..|r.skipped|] == r.skipped;
    }
  }

  /** The direct-message resolver speaks of a known user once if requested under
      the telegram id, however often, and else not: with a handle if active, as
      inactive otherwise. (A skip of an unknown request carries the telegram id, so
      skips are counted together with their code.) */
  lemma {:induction false} DmPartitions(db: Db, order: seq<int>, tgs: seq<int>, n: nat, id: int)
    requires ListsUsers(order, db) && UniqueTelegramIds(db) && n <= |tgs| && id in db.users
    ensures var r, u := DmTo(db, order, tgs, n), db.users[id];
      var requested := if u.telegramId in tgs[..n] then 1 else 0;
      && HandlesFor(r.recipients, id) == (if u.status == Active then requested else 0)
      && CountSkip(r.skipped, Skip(id, RecipientInactive)) == (if u.status == Active then 0 else requested)
  {
    if n > 0 {
      DmPartitions(db, order, tgs, n - 1, id);
      DmStep(db, order, tgs, n, id);
      assert tgs[..n] == tgs[..n - 1] + [tgs[n - 1]];
    }
  }

  lemma DmStep(db: Db, order: seq<int>, tgs: seq<int>, n: nat, id: int)
    requires ListsUsers(order, db) && UniqueTelegramIds(db) && 0 < n <= |tgs| && id in db.users
    ensures var r, prev, u := DmTo(db, order, tgs, n), DmTo(db, order, tgs, n - 1), db.users[id];
      var one := if u.telegramId == tgs[n - 1] && tgs[n - 1] !in tgs[..n - 1] then 1 else 0;
      var inactive := Skip(id, RecipientInactive);
      && HandlesFor(r.recipients, id) == HandlesFor(prev.recipients, id) + (if u.status == Active then one else 0)
      && CountSkip(r.skipped, inactive) == CountSkip(prev.skipped, inactive) + (if u.status == Active then 0 else one)
  {
    var prev, tg := DmTo(db, order, tgs, n - 1), tgs[n - 1];
    var found := ByTelegram(db, order, |order|, tg);
    TelegramFinds(db, order, tg, id);
    if found.None? {
      AddCounts(prev, tg, SkipWith(UnknownRecipient), id);
      AddCountsSkip(prev, tg, SkipWith(UnknownRecipient), Skip(id, RecipientInactive));
    } else {
      AddCounts(prev, found.value, DmVerdict(db, found.value), id);
      AddCountsSkip(prev, found.value, DmVerdict(db, found.value), Skip(id, RecipientInactive));
      if found == Some(id) { DmSeen(db, order, tgs, n - 1, id); }
    }
  }

  // ---- where messages go ----

  /** A handle as the four resolvers may make it: for a user of the table, by the
      user's own columns. */
  predicate GoodHandle(db: Db, h: Handle, channel: Channel, app: string) {
    && h.userId in db.users && h.channel == channel
    && var u := db.users[h.userId];
       match channel
       case Supergroup =>
         && u.chatId == Some(h.chatId) && u.botIsAdmin && u.status == Active && Subscribed(db, h.userId, app)
         && (h.userId, app) in db.topics && db.topics[(h.userId, app)] == h.topicId
       case General => u.chatId == Some(h.chatId) && u.botIsAdmin && u.status == Active && h.topicId == 0
       case Dm => u.telegramId == h.chatId && u.status == Active && h.topicId == 0
  }

  predicate GoodHandles(db: Db, r: Resolution, channel: Channel, app: string) {
    forall i :: 0 <= i < |r.recipients| ==> GoodHandle(db, r.recipients[i], channel, app)
  }

  /** Direct messages to an app's topic go to the topic of that app in the linked
      chat of an active subscriber, where the bot is administrator. */
  lemma {:induction false} DirectGoesToTopics(db: Db, app: string, ids: seq<int>, n: nat)
    requires n <= |ids|
    ensures GoodHandles(db, DirectTo(db, app, ids, n), Supergroup, app)
  {
    if n > 0 { DirectGoesToTopics(db, app, ids, n - 1); }
  }

  lemma {:induction false} TopicGoesToTopics(db: Db, app: string, rank: nat, order: seq<int>, n: nat)
    requires n <= |order| && forall i :: 0 <= i < |order| ==> order[i] in db.users
    ensures var r := TopicTo(db, app, rank, order, n);
      && GoodHandles(db, r, Supergroup, app)
      && forall i :: 0 <= i < |r.recipients| ==>
           r.recipients[i].userId in db.users && Grades.Rank(db.users[r.recipients[i].userId].grade) >= rank
  {
    if n > 0 { TopicGoesToTopics(db, app, rank, order, n - 1); }
  }

  /** Broadcasts go to the general topic of the linked chat of active users of rank. */
  lemma {:induction false} BroadcastGoesToChats(db: Db, app: string, rank: nat, order: seq<int>, n: nat)
    requires n <= |order| && forall i :: 0 <= i < |order| ==> order[i] in db.users
    ensures var r := BroadcastTo(db, rank, order, n);
      && GoodHandles(db, r, General, app)
      && forall i :: 0 <= i < |r.recipients| ==>
           r.recipients[i].userId in db.users && Grades.Rank(db.users[r.recipients[i].userId].grade) >= rank
  {
    if n > 0 { BroadcastGoesToChats(db, app, rank, order, n - 1); }
  }

  /** Direct messages go to the telegram id that was asked for, on behalf of the
      active user who has it. */
  lemma {:induction false} DmGoesToTheRequested(db: Db, app: string, order: seq<int>, tgs: seq<int>, n: nat)
    requires n <= |tgs| && forall i :: 0 <= i < |order| ==> order[i] in db.users
    ensures var r := DmTo(db, order, tgs, n);
      && GoodHandles(db, r, Dm, app)
      && forall i :: 0 <= i < |r.recipients| ==> r.recipients[i].chatId in tgs[..n]
  {
    if n > 0 {
      DmGoesToTheRequested(db, app, order, tgs, n - 1);
      assert tgs[..n] == tgs[..n - 1] + [tgs[n - 1]];
    }
  }

  /** Some active user has this telegram id. */
  ghost predicate HasActiveUser(db: Db, tg: int) {
    exists id :: id in db.users && db.users[id].telegramId == tg && db.users[id].status == Active
  }

  /** The first occurrences among the first `n` requested ids that active users have. */
  ghost function FirstActive(db: Db, tgs: seq<int>, n: nat): seq<int>
    requires n <= |tgs|
  {
    if n == 0 then []
    else
      var tg := tgs[n - 1];
      if HasActiveUser(db, tg) && tg !in tgs[..n - 1] then FirstActive(db, tgs, n - 1) + [tg]
      else FirstActive(db, tgs, n - 1)
  }

  function ChatsOf(hs: seq<Handle>): seq<int> {
    if hs == [] then [] else ChatsOf(hs[..|hs| - 1]) + [hs[|hs| - 1].chatId]
  }

  lemma ChatsSnoc(hs: seq<Handle>, h: Handle)
    ensures ChatsOf(hs + [h]) == ChatsOf(hs) + [h.chatId]
  {
    assert (hs + [h])[..|hs|] == hs;
  }

  /** The chats of a direct-message result, in order, are exactly those. */
  lemma {:induction false} DmChatsInOrder(db: Db, order: seq<int>, tgs: seq<int>, n: nat)
    requires ListsUsers(order, db) && UniqueTelegramIds(db) && n <= |tgs|
    ensures ChatsOf(DmTo(db, order, tgs, n).recipients) == FirstActive(db, tgs, n)
  {
    if n > 0 {
      DmChatsInOrder(db, order, tgs, n - 1);
      DmChatsStep(db, order, tgs, n);
    }
  }

  lemma DmChatsStep(db: Db, order: seq<int>, tgs: seq<int>, n: nat)
    requires ListsUsers(order, db) && UniqueTelegramIds(db) && 0 < n <= |tgs|
    ensures var tg := tgs[n - 1];
      ChatsOf(DmTo(db, order, tgs, n).recipients) == ChatsOf(DmTo(db, order, tgs, n - 1).recipients) +
        if HasActiveUser(db, tg) && tg !in tgs[..n - 1] then [tg] else []
  {
    var prev, tg := DmTo(db, order, tgs, n - 1), tgs[n - 1];
    var found := ByTelegram(db, order, |order|, tg);
    ActiveIsFound(db, order, tg);
    if found.Some? {
      var id := found.value;
      TelegramFinds(db, order, tg, id);
      DmSeen(db, order, tgs, n - 1, id);
      ChatsSnoc(prev.recipients, Handle(id, db.users[id].telegramId, 0, Dm));
    }
  }

  lemma ActiveIsFound(db: Db, order: seq<int>, tg: int)
    requires ListsUsers(order, db) && UniqueTelegramIds(db)
    ensures var found := ByTelegram(db, order, |order|, tg);
      HasActiveUser(db, tg) <==> found.Some? && db.users[found.value].status == Active
  {
    if HasActiveUser(db, tg) {
      var id :| id in db.users && db.users[id].telegramId == tg && db.users[id].status == Active;
      TelegramFinds(db, order, tg, id);
    }
    var found := ByTelegram(db, order, |order|, tg);
    if found.Some? {
      var id := found.value;
      assert id in db.users && db.users[id].telegramId == tg;
    }
  }

  /** The first occurrences among the first `n` requested ids of users to deliver to. */
  function FirstDeliverable(db: Db, app: string, ids: seq<int>, n: nat): seq<int>
    requires n <= |ids|
  {
    if n == 0 then []
    else
      var id := ids[n - 1];
      if id in db.users && Reachable(db, app, id) && id !in ids[..n - 1] then FirstDeliverable(db, app, ids, n - 1) + [id]
      else FirstDeliverable(db, app, ids, n - 1)
  }

  /** An active subscriber with a linked chat, the bot in it, and a topic. */
  predicate Reachable(db: Db, app: string, id: int)
    requires id in db.users
  {
    var u := db.users[id];
    u.status == Active && Subscribed(db, id, app) && u.chatId.Some? && u.botIsAdmin && (id, app) in db.topics
  }

  function UsersOf(hs: seq<Handle>): seq<int> {
    if hs == [] then [] else UsersOf(hs[..|hs| - 1]) + [hs[|hs| - 1].userId]
  }

  lemma UsersSnoc(hs: seq<Handle>, h: Handle)
    ensures UsersOf(hs + [h]) == UsersOf(hs) + [h.userId]
  {
    assert (hs + [h])[..|hs|] == hs;
  }

  lemma {:induction false} AmongIsIn(ids: seq<int>, n: nat, id: int)
    requires n <= |ids|
    ensures Among(ids, n, id) <==> id in ids[..n]
  {
    if n > 0 {
      AmongIsIn(ids, n - 1, id);
      assert ids[..n] == ids[..n - 1] + [ids[n - 1]];
    }
  }

  /** The users of a direct result, in order, are exactly those. */
  lemma {:induction false} DirectUsersInOrder(db: Db, app: string, ids: seq<int>, n: nat)
    requires n <= |ids|
    ensures UsersOf(DirectTo(db, app, ids, n).recipients) == FirstDeliverable(db, app, ids, n)
  {
    if n > 0 {
      DirectUsersInOrder(db, app, ids, n - 1);
      var id, prev := ids[n - 1], DirectTo(db, app, ids, n - 1);
      AmongIsIn(ids, n - 1, id);
      if id in db.users && DirectVerdict(db, app, id).Deliver? {
        UsersSnoc(prev.recipients, DirectVerdict(db, app, id).handle);
      }
    }
  }

  /** What is wrong with a user as a recipient, by code. */
  predicate Defect(db: Db, app: string, rank: nat, id: int, code: Code)
    requires id in db.users
  {
    var u := db.users[id];
    match code
    case UnknownRecipient => false
    case RecipientInactive => u.status != Active
    case NotSubscribed => !Subscribed(db, id, app)
    case GradeInsufficient => Grades.Rank(u.grade) < rank
    case NotLinked => u.chatId.None?
    case BotNotAdmin => !u.botIsAdmin
    case TopicMissing => (id, app) !in db.topics
  }

  /** The order in which defects are reported. */
  function Precedence(code: Code): nat {
    match code
    case UnknownRecipient => 0
    case RecipientInactive => 1
    case NotSubscribed => 2
    case GradeInsufficient => 3
    case NotLinked => 4
    case BotNotAdmin => 5
    case TopicMissing => 6
  }

  /** A verdict with regard to the defects that a resolver looks at: delivery exactly
      if there is none, otherwise the one that comes first. */
  ghost predicate FirstDefect(db: Db, app: string, rank: nat, id: int, looksAt: set<Code>, v: Verdict)
    requires id in db.users
  {
    match v
    case Deliver(_) => forall c :: c in looksAt ==> !Defect(db, app, rank, id, c)
    case SkipWith(code) =>
      && code in looksAt && Defect(db, app, rank, id, code)
      && forall c :: c in looksAt && Precedence(c) < Precedence(code) ==> !Defect(db, app, rank, id, c)
  }

  /** Each resolver's verdict is the first defect that it looks at. */
  lemma DirectTellsFirstDefect(db: Db, app: string, rank: nat, id: int)
    requires id in db.users
    ensures FirstDefect(db, app, rank, id, {RecipientInactive, NotSubscribed, NotLinked, BotNotAdmin, TopicMissing},
                        DirectVerdict(db, app, id))
  {
  }

  lemma TopicTellsFirstDefect(db: Db, app: string, rank: nat, id: int)
    requires id in db.users
    ensures FirstDefect(db, app, rank, id, {GradeInsufficient, NotLinked, BotNotAdmin, TopicMissing},
                        TopicVerdict(db, app, rank, id))
  {
  }

  lemma BroadcastTellsFirstDefect(db: Db, app: string, rank: nat, id: int)
    requires id in db.users
    ensures FirstDefect(db, app, rank, id, {GradeInsufficient, NotLinked, BotNotAdmin}, BroadcastVerdict(db, rank, id))
  {
  }

  /** A requested id that nobody has is listed as unknown as often as it was
      requested by the direct resolver, too. */
  lemma {:induction false} DirectUnknown(db: Db, app: string, ids: seq<int>, n: nat, id: int)
    requires n <= |ids|
    ensures CountSkip(DirectTo(db, app, ids, n).skipped, Skip(id, UnknownRecipient)) ==
      if id in db.users then 0 else Requests(ids, n, id)
  {
    if n > 0 {
      DirectUnknown(db, app, ids, n - 1, id);
      DirectUnknownStep(db, app, ids, n, id);
    }
  }

  lemma DirectUnknownStep(db: Db, app: string, ids: seq<int>, n: nat, id: int)
    requires 0 < n <= |ids|
    ensures var s, last := Skip(id, UnknownRecipient), ids[n - 1];
      CountSkip(DirectTo(db, app, ids, n).skipped, s) == CountSkip(DirectTo(db, app, ids, n - 1).skipped, s) +
        if last !in db.users && last == id then 1 else 0
  {
    var prev, last := DirectTo(db, app, ids, n - 1), ids[n - 1];
    if last !in db.users {
      AddCountsSkip(prev, last, SkipWith(UnknownRecipient), Skip(id, UnknownRecipient));
    } else if !Among(ids, n - 1, last) {
      var verdict := DirectVerdict(db, app, last);
      assert verdict != SkipWith(UnknownRecipient);
      AddCountsSkip(prev, last, verdict, Skip(id, UnknownRecipient));
    }
  }

  /** A requested telegram id that nobody has is listed as unknown as often as it
      was requested; one that somebody has, never. */
  lemma {:induction false} DmUnknown(db: Db, order: seq<int>, tgs: seq<int>, n: nat, tg: int)
    requires ListsUsers(order, db) && n <= |tgs|
    ensures CountSkip(DmTo(db, order, tgs, n).skipped, Skip(tg, UnknownRecipient)) ==
      if ByTelegram(db, order, |order|, tg).None? then Requests(tgs, n, tg) else 0
  {
    if n > 0 {
      DmUnknown(db, order, tgs, n - 1, tg);
      DmUnknownStep(db, order, tgs, n, tg);
    }
  }

  lemma DmUnknownStep(db: Db, order: seq<int>, tgs: seq<int>, n: nat, tg: int)
    requires ListsUsers(order, db) && 0 < n <= |tgs|
    ensures var s, last := Skip(tg, UnknownRecipient), tgs[n - 1];
      CountSkip(DmTo(db, order, tgs, n).skipped, s) == CountSkip(DmTo(db, order, tgs, n - 1).skipped, s) +
        if ByTelegram(db, order, |order|, last).None? && last == tg then 1 else 0
  {
    var prev, last := DmTo(db, order, tgs, n - 1), tgs[n - 1];
    var found := ByTelegram(db, order, |order|, last);
    if found.None? {
      AddCountsSkip(prev, last, SkipWith(UnknownRecipient), Skip(tg, UnknownRecipient));
    } else {
      AddCountsSkip(prev, found.value, DmVerdict(db, found.value), Skip(tg, UnknownRecipient));
    }
  }

  function Requests(tgs: seq<int>, n: nat, tg: int): nat
    requires n <= |tgs|
  {
    if n == 0 then 0 else Requests(tgs, n - 1, tg) + if tgs[n - 1] == tg then 1 else 0
  }

  lemma DmSeen(db: Db, order: seq<int>, tgs: seq<int>, n: nat, id: int)
    requires ListsUsers(order, db) && UniqueTelegramIds(db) && n <= |tgs| && id in db.users
    ensures (exists k :: 0 <= k < n && ByTelegram(db, order, |order|, tgs[k]) == Some(id))
            <==> db.users[id].telegramId in tgs[..n]
  {
    forall k | 0 <= k < n
      ensures ByTelegram(db, order, |order|, tgs[k]) == Some(id) <==> db.users[id].telegramId == tgs[k]
    {
      TelegramFinds(db, order, tgs[k], id);
    }
    if db.users[id].telegramId in tgs[..n] {
      var k :| 0 <= k < n && tgs[k] == db.users[id].telegramId;
      assert ByTelegram(db, order, |order|, tgs[k]) == Some(id);
    }
  }

  /** On an active subscriber the broadcast and the topic resolver differ only in
      the topic: the same chat or the same skip code, a missing topic excepted. */
  lemma BroadcastIgnoresTopics(db: Db, app: string, rank: nat, id: int)
    requires id in db.users
    ensures var t, b := TopicVerdict(db, app, rank, id), BroadcastVerdict(db, rank, id);
      if t.Deliver? then b == Deliver(t.handle.(topicId := 0, channel := General))
      else if t.code == TopicMissing then b.Deliver?
      else b == t
  {
  }

  /** A subscribed, active user of sufficient grade gets the same handle or the
      same skip code from the direct and the topic resolver. */
  lemma VerdictsAgree(db: Db, app: string, rank: nat, id: int)
    requires id in db.users && Subscribed(db, id, app) && db.users[id].status == Active
    requires Grades.Rank(db.users[id].grade) >= rank
    ensures DirectVerdict(db, app, id) == TopicVerdict(db, app, rank, id)
  {
  }

  /** The topic resolver delivers to exactly those of sufficient grade to whom the
      direct one does, and with the same handle. */
  lemma DeliversAlike(db: Db, app: string, rank: nat, id: int)
    requires id in db.users
    ensures var d, t := DirectVerdict(db, app, id), TopicVerdict(db, app, rank, id);
      var high := Grades.Rank(db.users[id].grade) >= rank;
      && (Addressed(db, app, id) && t.Deliver? <==> d.Deliver? && high)
      && (d.Deliver? && high ==> t == d)
      && (d.Deliver? ==> d.handle.userId == id)
  {
    if Addressed(db, app, id) && Grades.Rank(db.users[id].grade) >= rank { VerdictsAgree(db, app, rank, id); }
  }

  /** The handles of users of at least the given rank. */
  function OfRank(db: Db, rank: nat, hs: seq<Handle>): seq<Handle> {
    if hs == [] then []
    else
      var init, h := OfRank(db, rank, hs[..|hs| - 1]), hs[|hs| - 1];
      if h.userId in db.users && Grades.Rank(db.users[h.userId].grade) >= rank then init + [h] else init
  }

  lemma OfRankSnoc(db: Db, rank: nat, hs: seq<Handle>, h: Handle)
    requires h.userId in db.users
    ensures OfRank(db, rank, hs + [h]) ==
      OfRank(db, rank, hs) + if Grades.Rank(db.users[h.userId].grade) >= rank then [h] else []
  {
    assert (hs + [h])[..|hs|] == hs;
  }

  lemma {:induction false} NotAmongEarlier(ids: seq<int>, n: nat, id: int)
    requires n <= |ids| && forall i :: 0 <= i < n ==> ids[i] != id
    ensures !Among(ids, n, id)
  {
    if n > 0 { NotAmongEarlier(ids, n - 1, id); }
  }

  /** The topic recipients are the direct recipients for the list of all users,
      filtered by the required rank: same handles, same order. */
  lemma {:induction false} TopicIsFilteredDirect(db: Db, app: string, rank: nat, order: seq<int>, n: nat)
    requires ListsUsers(order, db) && n <= |order|
    ensures TopicTo(db, app, rank, order, n).recipients == OfRank(db, rank, DirectTo(db, app, order, n).recipients)
  {
    if n > 0 {
      TopicIsFilteredDirect(db, app, rank, order, n - 1);
      NotAmongEarlier(order, n - 1, order[n - 1]);
      SameNext(db, app, rank, TopicTo(db, app, rank, order, n - 1), DirectTo(db, app, order, n - 1), order[n - 1]);
    }
  }

  /** One more user keeps the topic's recipients the filtered direct ones. */
  lemma SameNext(db: Db, app: string, rank: nat, topic: Resolution, direct: Resolution, id: int)
    requires id in db.users && topic.recipients == OfRank(db, rank, direct.recipients)
    ensures var next := if Addressed(db, app, id) then topic.Add(id, TopicVerdict(db, app, rank, id)) else topic;
      next.recipients == OfRank(db, rank, direct.Add(id, DirectVerdict(db, app, id)).recipients)
  {
    var d := DirectVerdict(db, app, id);
    DeliversAlike(db, app, rank, id);
    if d.Deliver? { OfRankSnoc(db, rank, direct.recipients, d.handle); }
  }

  /** And that rank is the larger of the app's and the request's. */
  lemma RequiredRankIsMax(db: Db, app: string, minGrade: string)
    requires app in db.apps
    ensures var a, r := Grades.Rank(db.apps[app].minGrade), if Grades.Canon(minGrade) == "" then 1 else Grades.Rank(minGrade);
      RequiredRank(db, app, minGrade) == if a >= r then a else r
  {
    Grades.NormalizeKeepsRank(minGrade);
    Grades.MaxHasMaxRank(db.apps[app].minGrade, Grades.Normalize(minGrade));
  }

  /** All handles belong to active users. */
  predicate OnlyActive(db: Db, r: Resolution) {
    forall i :: 0 <= i < |r.recipients| ==>
      r.recipients[i].userId in db.users && db.users[r.recipients[i].userId].status == Active
  }

  lemma {:induction false} DirectOnlyActive(db: Db, app: string, ids: seq<int>, n: nat)
    requires n <= |ids|
    ensures OnlyActive(db, DirectTo(db, app, ids, n))
  {
    if n > 0 { DirectOnlyActive(db, app, ids, n - 1); }
  }

  lemma {:induction false} TopicOnlyActive(db: Db, app: string, rank: nat, order: seq<int>, n: nat)
    requires n <= |order| && forall i :: 0 <= i < |order| ==> order[i] in db.users
    ensures OnlyActive(db, TopicTo(db, app, rank, order, n))
  {
    if n > 0 { TopicOnlyActive(db, app, rank, order, n - 1); }
  }

  lemma {:induction false} BroadcastOnlyActive(db: Db, rank: nat, order: seq<int>, n: nat)
    requires n <= |order| && forall i :: 0 <= i < |order| ==> order[i] in db.users
    ensures OnlyActive(db, BroadcastTo(db, rank, order, n))
  {
    if n > 0 { BroadcastOnlyActive(db, rank, order, n - 1); }
  }

  lemma {:induction false} DmOnlyActive(db: Db, order: seq<int>, tgs: seq<int>, n: nat)
    requires n <= |tgs| && forall i :: 0 <= i < |order| ==> order[i] in db.users
    ensures OnlyActive(db, DmTo(db, order, tgs, n))
  {
    if n > 0 { DmOnlyActive(db, order, tgs, n - 1); }
  }
}
