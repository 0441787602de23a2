/** The life of a user: registration, consent, linking a personal supergroup,
    promotion of the bot, pausing and anonymization (internal/registry,
    internal/bot/handlers). A handler is one step, and where it consists of two
    statements each of them is a step as well. The server runs one poller that
    handles one update at a time, and only the admin API works beside it: such runs
    are those of `Unit`, and they come down to whole handlers. Runs in which bot
    steps fall between the two statements of a handler need a second process, or a
    caller of pausing, leaving and resetting that the server does not have yet. */
module Lifecycle {
  import opened Options
  import opened Registry
  import Recipients

  /** The bot's new standing in a chat. */
  datatype Member = Administrator(allRights: bool) | Demoted | OtherStatus

  datatype Step =
    | Start(telegramId: int, username: string, lang: string)
    | Agree(userId: int, now: int)
    | LeaveAll(userId: int)
    | SetStatus(userId: int, status: string)
    | SetGrade(telegramId: int, grade: string)
    | IssueToken(token: string, userId: int, expiresAt: int)
    | StartGroup(token: string, chatId: int, now: int)
    | MyChatMember(chatType: string, chatId: int, owner: int, member: Member)  // `owner`: the row found by chat id
    | ResetLink(userId: int)
    | ConsumeToken(token: string)                      // the first statement of StartGroup
    | WriteLink(userId: int, chatId: int, now: int)    // and its second
    | WriteAdmin(userId: int, isAdmin: bool)           // the second statement of MyChatMember; its first is a look-up
    | Catalogue(apps: map<string, AppInfo>, subscriptions: set<(int, string)>, topics: map<(int, string), int>)

  function SetUser(db: Db, id: int, u: User): Db { db.(users := db.users[id := u]) }

  function NewUser(telegramId: int, username: string, lang: string): User {
    User(telegramId, NullIfEmpty(username), NullIfEmpty(lang), "user", None, None, None, false, Active, false)
  }

  function Anonymous(u: User): User {
    u.(username := None, preferredLang := None, chatId := None, linkedAt := None,
       botIsAdmin := false, anonymized := true, status := Anonymized)
  }

  function LinkSupergroup(db: Db, id: int, chatId: int, now: int): Db {
    if id in db.users && db.users[id].status != Anonymized
    then SetUser(db, id, db.users[id].(chatId := Some(chatId), linkedAt := Some(now), botIsAdmin := false))
    else db
  }

  function SetBotIsAdmin(db: Db, id: int, isAdmin: bool): Db {
    if id in db.users then SetUser(db, id, db.users[id].(botIsAdmin := isAdmin)) else db
  }

  /** The id of the user with a telegram id, if any. */
  ghost function Holder(db: Db, telegramId: int): Option<int> {
    if id :| id in db.users && db.users[id].telegramId == telegramId then Some(id) else None
  }

  ghost function Apply(db: Db, step: Step): Db {
    match step
    case Start(tg, username, lang) =>
      var holder := Holder(db, tg);
      var db' := db.(nextId := db.nextId + 1);  // the sequence advances even on conflict
      if holder.None? then SetUser(db', db.nextId, NewUser(tg, username, lang))
      else if username == "" then db'
      else SetUser(db', holder.value, db.users[holder.value].(username := Some(username)))
    case Agree(id, now) =>
      if id in db.users && db.users[id].agreedAt.None?
      then SetUser(db, id, db.users[id].(agreedAt := Some(now))) else db
    case LeaveAll(id) =>
      if id in db.users then SetUser(db, id, Anonymous(db.users[id])) else db
    case SetStatus(id, status) =>
      if (status == "active" || status == "paused") && id in db.users && db.users[id].status != Anonymized
      then SetUser(db, id, db.users[id].(status := if status == "active" then Active else Paused)) else db
    case SetGrade(tg, grade) =>
      var holder := Holder(db, tg);
      if holder.Some? && (grade == "user" || grade == "developer" || grade == "admin")
      then SetUser(db, holder.value, db.users[holder.value].(grade := grade)) else db
    case IssueToken(token, id, expiresAt) =>
      if id in db.users && token !in db.tokens then db.(tokens := db.tokens[token := Token(id, expiresAt)]) else db
    case StartGroup(token, chatId, now) =>
      if token !in db.tokens then db
      else
        var t := db.tokens[token];
        var db' := db.(tokens := db.tokens - {token});
        if now > t.expiresAt then db' else LinkSupergroup(db', t.userId, chatId, now)
    case MyChatMember(chatType, chatId, owner, member) =>
      if (chatType != "supergroup" && chatType != "group")
         || owner !in db.users || db.users[owner].chatId != Some(chatId) then db
      else (match member
            case Administrator(allRights) => SetBotIsAdmin(db, owner, allRights)
            case Demoted => SetBotIsAdmin(db, owner, false)
            case OtherStatus => db)
    case ResetLink(id) =>
      if id in db.users
      then SetUser(db, id, db.users[id].(chatId := None, linkedAt := None, botIsAdmin := false)) else db
    case ConsumeToken(token) => db.(tokens := db.tokens - {token})
    case WriteLink(id, chatId, now) => LinkSupergroup(db, id, chatId, now)
    case WriteAdmin(id, isAdmin) => SetBotIsAdmin(db, id, isAdmin)
    case Catalogue(apps, subscriptions, topics) =>
      db.(apps := apps, subscriptions := subscriptions, topics := topics)
  }

  ghost function Run(db: Db, steps: seq<Step>): Db
    decreases |steps|
  {
    if steps == [] then db else Apply(Run(db, steps[..|steps| - 1]), steps[|steps| - 1])
  }

  /** An anonymized row holds no chat. */
  predicate GoodRow(u: User) {
    && (u.status == Anonymized <==> u.anonymized)
    && (u.anonymized ==> u.chatId.None? && u.linkedAt.None?)
  }

  /** What every step keeps, late ones included. */
  predicate Core(db: Db) {
    && (forall id :: id in db.users ==> GoodRow(db.users[id]) && id < db.nextId)
    && UniqueTelegramIds(db)
  }

  /** Only a linked chat can have the bot as administrator. */
  predicate BotInChat(u: User) { u.botIsAdmin ==> u.chatId.Some? }

  predicate Inv(db: Db) {
    Core(db) && forall id :: id in db.users ==> BotInChat(db.users[id])
  }

  /** A promotion written apart from its look-up. */
  predicate LatePromotion(step: Step) { step.WriteAdmin? && step.isAdmin }

  predicate NoLatePromotion(steps: seq<Step>) {
    forall i :: 0 <= i < |steps| ==> !LatePromotion(steps[i])
  }

  const EMPTY := Db(map[], 1, map[], map[], {}, map[])

  lemma SetUserKeeps(db: Db, id: int, u: User)
    requires Core(db) && id in db.users && GoodRow(u) && u.telegramId == db.users[id].telegramId
    ensures Core(SetUser(db, id, u))
    ensures Inv(db) && BotInChat(u) ==> Inv(SetUser(db, id, u))
  {
  }

  lemma StartKeepsInv(db: Db, tg: int, username: string, lang: string)
    requires Core(db)
    ensures Core(Apply(db, Start(tg, username, lang)))
    ensures Inv(db) ==> Inv(Apply(db, Start(tg, username, lang)))
  {
    var db' := db.(nextId := db.nextId + 1);
    var holder := Holder(db, tg);
    if holder.Some? {
      SetUserKeeps(db', holder.value, db.users[holder.value].(username := Some(username)));
    } else {
      assert forall id :: id in db.users ==> db.users[id].telegramId != tg;
    }
  }

  lemma LinkKeepsInv(db: Db, id: int, chatId: int, now: int)
    requires Core(db)
    ensures Core(LinkSupergroup(db, id, chatId, now))
    ensures Inv(db) ==> Inv(LinkSupergroup(db, id, chatId, now))
  {
    if id in db.users && db.users[id].status != Anonymized {
      SetUserKeeps(db, id, db.users[id].(chatId := Some(chatId), linkedAt := Some(now), botIsAdmin := false));
    }
  }

  lemma AdminKeepsInv(db: Db, id: int, isAdmin: bool)
    requires Core(db)
    ensures Core(SetBotIsAdmin(db, id, isAdmin))
    ensures Inv(db) && (isAdmin && id in db.users ==> db.users[id].chatId.Some?) ==> Inv(SetBotIsAdmin(db, id, isAdmin))
  {
    if id in db.users { SetUserKeeps(db, id, db.users[id].(botIsAdmin := isAdmin)); }
  }

  /** Every step keeps the core; every step but a late promotion keeps it all. */
  lemma StepKeepsInv(db: Db, step: Step)
    requires Core(db)
    ensures Core(Apply(db, step))
    ensures Inv(db) && !LatePromotion(step) ==> Inv(Apply(db, step))
  {
    match step
    case Start(tg, username, lang) => StartKeepsInv(db, tg, username, lang);
    case StartGroup(token, chatId, now) =>
      if token in db.tokens { LinkKeepsInv(db.(tokens := db.tokens - {token}), db.tokens[token].userId, chatId, now); }
    case WriteLink(id, chatId, now) => LinkKeepsInv(db, id, chatId, now);
    case MyChatMember(_, _, owner, _) =>
      AdminKeepsInv(db, owner, true);
      AdminKeepsInv(db, owner, false);
    case WriteAdmin(id, isAdmin) => AdminKeepsInv(db, id, isAdmin);
    case _ => UpdateKeepsInv(db, step);
  }

  predicate PlainUpdate(step: Step) {
    step.Agree? || step.LeaveAll? || step.SetStatus? || step.SetGrade? || step.IssueToken? || step.ResetLink?
    || step.ConsumeToken? || step.Catalogue?
  }

  lemma UpdateKeepsInv(db: Db, step: Step)
    requires Core(db) && PlainUpdate(step)
    ensures Core(Apply(db, step))
    ensures Inv(db) ==> Inv(Apply(db, step))
  {
    match step
    case Agree(id, now) =>
      if id in db.users { SetUserKeeps(db, id, db.users[id].(agreedAt := Some(now))); }
    case LeaveAll(id) =>
      if id in db.users { SetUserKeeps(db, id, Anonymous(db.users[id])); }
    case SetStatus(id, status) =>
      if id in db.users && db.users[id].status != Anonymized {
        SetUserKeeps(db, id, db.users[id].(status := if status == "active" then Active else Paused));
      }
    case SetGrade(tg, grade) =>
      var holder := Holder(db, tg);
      if holder.Some? { SetUserKeeps(db, holder.value, db.users[holder.value].(grade := grade)); }
    case ResetLink(id) =>
      if id in db.users {
        SetUserKeeps(db, id, db.users[id].(chatId := None, linkedAt := None, botIsAdmin := false));
      }
    case _ =>
  }

  lemma {:induction false} RunKeepsInv(db: Db, steps: seq<Step>)
    requires Core(db)
    ensures Core(Run(db, steps))
    ensures Inv(db) && NoLatePromotion(steps) ==> Inv(Run(db, steps))
    decreases |steps|
  {
    if steps != [] {
      RunKeepsInv(db, steps[..|steps| - 1]);
      StepKeepsInv(Run(db, steps[..|steps| - 1]), steps[|steps| - 1]);
    }
  }

  lemma {:induction false} RunSplits(db: Db, first: seq<Step>, second: seq<Step>)
    ensures Run(db, first + second) == Run(Run(db, first), second)
    decreases |second|
  {
    if second == [] {
      assert first + second == first;
    } else {
      var init := second[..|second| - 1];
      RunSplits(db, first, init);
      assert (first + second)[..|first + second| - 1] == first + init;
    }
  }

  // ---- anonymization ----

  lemma StepKeepsAnonymity(db: Db, step: Step, id: int)
    requires Core(db) && id in db.users
    ensures id in Apply(db, step).users
    ensures db.users[id].status == Anonymized ==> Apply(db, step).users[id].status == Anonymized
  {
    if step.Start? || step.SetGrade? {
      UpsertKeepsAnonymity(db, step, id);
    } else {
      UpdateKeepsAnonymity(db, step, id);
    }
  }

  lemma UpsertKeepsAnonymity(db: Db, step: Step, id: int)
    requires Core(db) && id in db.users && (step.Start? || step.SetGrade?)
    ensures id in Apply(db, step).users && Apply(db, step).users[id].status == db.users[id].status
  {
  }

  lemma UpdateKeepsAnonymity(db: Db, step: Step, id: int)
    requires id in db.users && !step.Start? && !step.SetGrade?
    ensures id in Apply(db, step).users
    ensures db.users[id].status == Anonymized ==> Apply(db, step).users[id].status == Anonymized
  {
  }

  /** Anonymized is absorbing: in every later state of every run, late promotions
      included, the row is still there, anonymized and without a chat; and without
      the bot if no promotion came late. */
  lemma {:induction false} AnonymizedIsAbsorbing(db: Db, steps: seq<Step>, id: int)
    requires Core(db) && id in db.users && db.users[id].status == Anonymized
    ensures var late := Run(db, steps);
      && id in late.users && late.users[id].status == Anonymized && late.users[id].chatId.None?
      && (Inv(db) && NoLatePromotion(steps) ==> !late.users[id].botIsAdmin)
    decreases |steps|
  {
    RunKeepsInv(db, steps);
    if steps != [] {
      var init := steps[..|steps| - 1];
      AnonymizedIsAbsorbing(db, init, id);
      RunKeepsInv(db, init);
      StepKeepsAnonymity(Run(db, init), steps[|steps| - 1], id);
    }
  }

  predicate Receives(r: Recipients.Resolution, id: int) {
    exists i :: 0 <= i < |r.recipients| && r.recipients[i].userId == id
  }

  lemma InactiveReceivesNothing(db: Db, r: Recipients.Resolution, id: int)
    requires Recipients.OnlyActive(db, r) && id in db.users && db.users[id].status != Active
    ensures !Receives(r, id)
  {
  }

  /** None of the four strategies delivers to the user. */
  predicate ReachedByNone(db: Db, id: int, order: seq<int>, app: string, rank: nat, ids: seq<int>)
    requires ListsUsers(order, db)
  {
    && !Receives(Recipients.Direct(db, app, ids), id)
    && !Receives(Recipients.TopicTo(db, app, rank, order, |order|), id)
    && !Receives(Recipients.BroadcastTo(db, rank, order, |order|), id)
    && !Receives(Recipients.DmTo(db, order, ids, |ids|), id)
  }

  /** Once anonymized, a user is never again a recipient of any of the four
      strategies: whatever steps follow, late promotions included, whatever is
      requested. */
  lemma AnonymizedNeverReceives(db: Db, steps: seq<Step>, id: int, order: seq<int>, app: string, rank: nat, ids: seq<int>)
    requires Core(db) && id in db.users && db.users[id].status == Anonymized
    requires ListsUsers(order, Run(db, steps))
    ensures ReachedByNone(Run(db, steps), id, order, app, rank, ids)
  {
    AnonymizedIsAbsorbing(db, steps, id);
    InactiveIsReachedByNone(Run(db, steps), id, order, app, rank, ids);
  }

  lemma InactiveIsReachedByNone(db: Db, id: int, order: seq<int>, app: string, rank: nat, ids: seq<int>)
    requires id in db.users && db.users[id].status != Active && ListsUsers(order, db)
    ensures ReachedByNone(db, id, order, app, rank, ids)
  {
    Recipients.DirectOnlyActive(db, app, ids, |ids|);
    Recipients.TopicOnlyActive(db, app, rank, order, |order|);
    Recipients.BroadcastOnlyActive(db, rank, order, |order|);
    Recipients.DmOnlyActive(db, order, ids, |ids|);
    InactiveReceivesNothing(db, Recipients.Direct(db, app, ids), id);
    InactiveReceivesNothing(db, Recipients.TopicTo(db, app, rank, order, |order|), id);
    InactiveReceivesNothing(db, Recipients.BroadcastTo(db, rank, order, |order|), id);
    InactiveReceivesNothing(db, Recipients.DmTo(db, order, ids, |ids|), id);
  }

  // ---- a promotion between whose look-up and write other steps come ----

  /** The step sets the link of `id` when it is taken in `db`. */
  predicate MovesLink(db: Db, step: Step, id: int) {
    match step
    case LeaveAll(i) => i == id
    case ResetLink(i) => i == id
    case StartGroup(token, _, now) =>
      token in db.tokens && db.tokens[token].userId == id && now <= db.tokens[token].expiresAt && MayLink(db, id)
    case WriteLink(i, _, _) => i == id && MayLink(db, id)
    case _ => false
  }

  predicate MayLink(db: Db, id: int) { id in db.users && db.users[id].status != Anonymized }

  /** The chat that a step which sets the link sets it to. */
  function LinkOf(step: Step): Option<int> {
    match step
    case StartGroup(_, chatId, _) => Some(chatId)
    case WriteLink(_, chatId, _) => Some(chatId)
    case _ => None
  }

  lemma StepLink(db: Db, step: Step, id: int)
    requires Core(db) && id in db.users
    ensures id in Apply(db, step).users
    ensures Apply(db, step).users[id].chatId == if MovesLink(db, step, id) then LinkOf(step) else db.users[id].chatId
  {
    if step.Start? || step.SetGrade? { UpsertKeepsLink(db, step, id); } else { UpdateMovesLink(db, step, id); }
  }

  lemma UpsertKeepsLink(db: Db, step: Step, id: int)
    requires Core(db) && id in db.users && (step.Start? || step.SetGrade?)
    ensures id in Apply(db, step).users && Apply(db, step).users[id].chatId == db.users[id].chatId
  {
  }

  lemma UpdateMovesLink(db: Db, step: Step, id: int)
    requires id in db.users && !step.Start? && !step.SetGrade?
    ensures id in Apply(db, step).users
    ensures Apply(db, step).users[id].chatId == if MovesLink(db, step, id) then LinkOf(step) else db.users[id].chatId
  {
  }

  /** How many steps a run takes up to the last one that sets the link of `id`, 0
      if none does. */
  ghost function LastMove(db: Db, steps: seq<Step>, id: int): (n: nat)
    ensures n <= |steps|
    decreases |steps|
  {
    if steps == [] then 0
    else
      var init := steps[..|steps| - 1];
      if MovesLink(Run(db, init), steps[|steps| - 1], id) then |steps| else LastMove(db, init, id)
  }

  lemma {:induction false} LinkAfterRun(db: Db, steps: seq<Step>, id: int)
    requires Core(db) && id in db.users
    ensures var late, n := Run(db, steps), LastMove(db, steps, id);
      id in late.users && late.users[id].chatId == if n == 0 then db.users[id].chatId else LinkOf(steps[n - 1])
    decreases |steps|
  {
    if steps != [] {
      var init := steps[..|steps| - 1];
      LinkAfterRun(db, init, id);
      RunKeepsInv(db, init);
      StepLink(Run(db, init), steps[|steps| - 1], id);
    }
  }

  /** The chats in which Telegram has last reported the bot to hold all rights. */
  function Reported(rights: set<int>, step: Step): set<int> {
    match step
    case MyChatMember(chatType, chatId, _, Administrator(allRights)) =>
      if !IsGroup(chatType) then rights else if allRights then rights + {chatId} else rights - {chatId}
    case MyChatMember(chatType, chatId, _, Demoted) => if IsGroup(chatType) then rights - {chatId} else rights
    case _ => rights
  }

  predicate IsGroup(chatType: string) { chatType == "supergroup" || chatType == "group" }

  function ReportedAfter(rights: set<int>, steps: seq<Step>): set<int>
    decreases |steps|
  {
    if steps == [] then rights else Reported(ReportedAfter(rights, steps[..|steps| - 1]), steps[|steps| - 1])
  }

  /** The step reports on the bot's rights in `chat`. */
  predicate Reports(step: Step, chat: int) {
    step.MyChatMember? && IsGroup(step.chatType) && step.chatId == chat && !step.member.OtherStatus?
  }

  /** How many steps a run takes up to the last report on `chat`, 0 if there is none. */
  function LastReport(steps: seq<Step>, chat: int): (n: nat)
    ensures n <= |steps| && (n > 0 ==> Reports(steps[n - 1], chat))
    decreases |steps|
  {
    if steps == [] then 0
    else if Reports(steps[|steps| - 1], chat) then |steps|
    else LastReport(steps[..|steps| - 1], chat)
  }

  lemma {:induction false} LastReportDecides(rights: set<int>, steps: seq<Step>, chat: int)
    ensures var n := LastReport(steps, chat);
      chat in ReportedAfter(rights, steps) <==> if n == 0 then chat in rights else steps[n - 1].member == Administrator(true)
    decreases |steps|
  {
    if steps != [] { LastReportDecides(rights, steps[..|steps| - 1], chat); }
  }

  /** The flag says what was last reported about the chat that the row is linked to. */
  predicate FlagAgrees(db: Db, rights: set<int>, id: int)
    requires id in db.users
  {
    var u := db.users[id];
    u.botIsAdmin <==> u.chatId.Some? && u.chatId.value in rights
  }

  /** The handler of a promotion reported in chat `c` finds `id` as the owner of `c`
      and writes the flag after any further steps. The row is then linked to the
      chat that the last step to set the link has set it to, `c` if none has. The
      flag agrees with the last report if and only if that is a chat, and the last
      report on it since, or before if there is none, gives the bot all rights. And
      the flag stands without a chat if and only if that last step was a leaving or
      a reset. */
  lemma LatePromotionIff(db: Db, steps: seq<Step>, id: int, c: int, rights: set<int>)
    requires Core(db) && LinkedTo(db, id, c) && c in rights
    ensures var written, n := Apply(Run(db, steps), WriteAdmin(id, true)), LastMove(db, steps, id);
      var chat := if n == 0 then Some(c) else LinkOf(steps[n - 1]);
      && id in written.users && written.users[id].botIsAdmin && written.users[id].chatId == chat
      && (FlagAgrees(written, ReportedAfter(rights, steps), id) <==>
            chat.Some? &&
            var k := LastReport(steps, chat.value);
            if k == 0 then chat.value in rights else steps[k - 1].member == Administrator(true))
      && (Inv(db) && NoLatePromotion(steps) ==>
            (Inv(written) <==> n == 0 || !(steps[n - 1].LeaveAll? || steps[n - 1].ResetLink?)))
  {
    var late, n := Run(db, steps), LastMove(db, steps, id);
    LinkAfterRun(db, steps, id);
    var chat := late.users[id].chatId;
    if chat.Some? { LastReportDecides(rights, steps, chat.value); }
    LateWriteKeepsIff(db, steps, id);
  }

  lemma LateWriteKeepsIff(db: Db, steps: seq<Step>, id: int)
    requires Core(db) && id in db.users && db.users[id].chatId.Some?
    ensures var written, n := Apply(Run(db, steps), WriteAdmin(id, true)), LastMove(db, steps, id);
      Inv(db) && NoLatePromotion(steps) ==>
        (Inv(written) <==> n == 0 || !(steps[n - 1].LeaveAll? || steps[n - 1].ResetLink?))
  {
    var late := Run(db, steps);
    LinkAfterRun(db, steps, id);
    LastMoveMoves(db, steps, id);
    RunKeepsInv(db, steps);
    AdminKeepsInv(late, id, true);
    if late.users[id].chatId.None? {
      assert !BotInChat(Apply(late, WriteAdmin(id, true)).users[id]);
    }
  }

  lemma {:induction false} LastMoveMoves(db: Db, steps: seq<Step>, id: int)
    ensures var n := LastMove(db, steps, id);
      n > 0 ==> steps[n - 1].LeaveAll? || steps[n - 1].ResetLink? || steps[n - 1].StartGroup? || steps[n - 1].WriteLink?
    decreases |steps|
  {
    if steps != [] { LastMoveMoves(db, steps[..|steps| - 1], id); }
  }

  /** The row stays linked to `c` from the look-up to the write if and only if no
      step on the way leaves, resets, or links it to another chat. */
  lemma LinkedThroughoutIff(db: Db, steps: seq<Step>, id: int, c: int)
    requires Core(db) && id in db.users && db.users[id].chatId == Some(c)
    ensures (forall k :: 0 <= k <= |steps| ==> LinkedTo(Run(db, steps[..k]), id, c))
            <==> (forall k :: 0 <= k < |steps| ==> !MovesAway(Run(db, steps[..k]), steps[k], id, c))
  {
    if forall k :: 0 <= k < |steps| ==> !MovesAway(Run(db, steps[..k]), steps[k], id, c) {
      forall k | 0 <= k <= |steps|
        ensures LinkedTo(Run(db, steps[..k]), id, c)
      {
        StaysLinked(db, steps, id, c, k);
      }
    } else {
      var k :| 0 <= k < |steps| && MovesAway(Run(db, steps[..k]), steps[k], id, c);
      GetsUnlinked(db, steps, id, c, k);
      assert !LinkedTo(Run(db, steps[..k + 1]), id, c);
    }
  }

  lemma GetsUnlinked(db: Db, steps: seq<Step>, id: int, c: int, k: nat)
    requires Core(db) && id in db.users && k < |steps| && MovesAway(Run(db, steps[..k]), steps[k], id, c)
    ensures !LinkedTo(Run(db, steps[..k + 1]), id, c)
  {
    RunStep(db, steps, k);
    RunKeepsInv(db, steps[..k]);
    LinkAfterRun(db, steps[..k], id);
    StepLink(Run(db, steps[..k]), steps[k], id);
  }

  predicate LinkedTo(db: Db, id: int, c: int) { id in db.users && db.users[id].chatId == Some(c) }

  predicate MovesAway(db: Db, step: Step, id: int, c: int) { MovesLink(db, step, id) && LinkOf(step) != Some(c) }

  lemma RunStep(db: Db, steps: seq<Step>, k: nat)
    requires k < |steps|
    ensures Run(db, steps[..k + 1]) == Apply(Run(db, steps[..k]), steps[k])
  {
    assert steps[..k + 1][..k] == steps[..k];
  }

  lemma {:induction false} StaysLinked(db: Db, steps: seq<Step>, id: int, c: int, k: nat)
    requires Core(db) && LinkedTo(db, id, c) && k <= |steps|
    requires forall i :: 0 <= i < |steps| ==> !MovesAway(Run(db, steps[..i]), steps[i], id, c)
    ensures LinkedTo(Run(db, steps[..k]), id, c)
  {
    if k > 0 {
      StaysLinked(db, steps, id, c, k - 1);
      RunStep(db, steps, k - 1);
      RunKeepsInv(db, steps[..k - 1]);
      StepLink(Run(db, steps[..k - 1]), steps[k - 1], id);
    }
  }

  lemma LeavingLasts(db: Db, steps: seq<Step>, k: nat, id: int)
    requires Core(db) && id in db.users && k < |steps| && steps[k] == LeaveAll(id)
    ensures var late := Run(db, steps);
      id in late.users && late.users[id].status == Anonymized && late.users[id].chatId.None?
  {
    RunStep(db, steps, k);
    RunKeepsInv(db, steps[..k + 1]);
    LinkAfterRun(db, steps[..k], id);
    assert steps == steps[..k + 1] + steps[k + 1..];
    RunSplits(db, steps[..k + 1], steps[k + 1..]);
    AnonymizedIsAbsorbing(Run(db, steps[..k + 1]), steps[k + 1..], id);
  }

  /** If the user leaves in between, the flag stands without a chat; yet from then
      on, whatever steps follow, the user is no recipient of any strategy. */
  lemma LeavingBeforePromotion(db: Db, steps: seq<Step>, k: nat, id: int, later: seq<Step>,
                               order: seq<int>, app: string, rank: nat, ids: seq<int>)
    requires Core(db) && id in db.users && k < |steps| && steps[k] == LeaveAll(id)
    requires ListsUsers(order, Run(Apply(Run(db, steps), WriteAdmin(id, true)), later))
    ensures var written := Apply(Run(db, steps), WriteAdmin(id, true));
      && id in written.users && written.users[id].status == Anonymized && written.users[id].chatId.None?
      && !Inv(written)
      && ReachedByNone(Run(written, later), id, order, app, rank, ids)
  {
    LeavingLasts(db, steps, k, id);
    RunKeepsInv(db, steps);
    var written := Apply(Run(db, steps), WriteAdmin(id, true));
    AdminKeepsInv(Run(db, steps), id, true);
    assert !BotInChat(written.users[id]);
    AnonymizedNeverReceives(written, later, id, order, app, rank, ids);
  }

  /** Otherwise a wrong flag is heeded: after any steps in between that leave the
      row linked to a chat where the bot was last reported without all rights, an
      active subscriber with a topic is delivered to in that chat. */
  lemma WrongFlagDelivers(db: Db, steps: seq<Step>, id: int, c: int, rights: set<int>, app: string)
    requires Core(db) && LinkedTo(db, id, c)
    requires var late := Run(db, steps);
      && id in late.users && late.users[id].status == Active && Subscribed(late, id, app) && (id, app) in late.topics
      && late.users[id].chatId.Some? && late.users[id].chatId.value !in ReportedAfter(rights, steps)
    ensures var late := Run(db, steps);
      var written := Apply(late, WriteAdmin(id, true));
      var handle := Recipients.Handle(id, late.users[id].chatId.value, late.topics[(id, app)], Recipients.Supergroup);
      && id in written.users && !FlagAgrees(written, ReportedAfter(rights, steps), id)
      && Recipients.DirectVerdict(written, app, id) == Recipients.Deliver(handle)
      && Recipients.DirectVerdict(late, app, id) ==
         (if late.users[id].botIsAdmin then Recipients.Deliver(handle) else Recipients.SkipWith(Recipients.BotNotAdmin))
  {
    LinkAfterRun(db, steps, id);
  }

  /** A new user draws two tokens, links chat `c` with the first and subscribes. */
  function Story(c: int): seq<Step> {
    [Start(7, "", ""), IssueToken("a", 1, 9), IssueToken("b", 1, 9), StartGroup("a", c, 5),
     Catalogue(map[], {(1, "app")}, map[(1, "app") := 3])]
  }

  const TWO_TOKENS := Db(map[1 := NewUser(7, "", "")], 2, map["a" := Token(1, 9), "b" := Token(1, 9)], map[], {}, map[])

  lemma StoryBegins(story: seq<Step>)
    requires |story| >= 3 && story[..3] == [Start(7, "", ""), IssueToken("a", 1, 9), IssueToken("b", 1, 9)]
    ensures Run(EMPTY, story[..3]) == TWO_TOKENS
  {
    assert story[0] == story[..3][0] && story[1] == story[..3][1] && story[2] == story[..3][2];
    assert story[..0] == [];
    RunStep(EMPTY, story, 0);
    var one := Db(map[1 := NewUser(7, "", "")], 2, map[], map[], {}, map[]);
    assert Run(EMPTY, story[..1]) == one by { assert Holder(EMPTY, 7) == None; }
    RunStep(EMPTY, story, 1);
    var two := one.(tokens := map["a" := Token(1, 9)]);
    assert Run(EMPTY, story[..2]) == two;
    RunStep(EMPTY, story, 2);
    assert TWO_TOKENS == two.(tokens := two.tokens["b" := Token(1, 9)]);
  }

  /** Ready for a late promotion in `c`: the look-up finds an active subscriber. */
  predicate Expecting(db: Db, c: int) {
    && Inv(db) && LinkedTo(db, 1, c) && db.users[1].status == Active
    && Subscribed(db, 1, "app") && (1, "app") in db.topics
    && "b" in db.tokens && db.tokens["b"] == Token(1, 9)
  }

  lemma StoryIsReached(c: int)
    ensures Expecting(Run(EMPTY, Story(c)), c)
  {
    var story := Story(c);
    StoryKeepsInv(c);
    StoryBegins(story);
    RunStep(EMPTY, story, 3);
    StoryLinks(c);
    RunStep(EMPTY, story, 4);
    assert story[..5] == story;
  }

  lemma StoryKeepsInv(c: int)
    ensures Inv(Run(EMPTY, Story(c)))
  {
    RunKeepsInv(EMPTY, Story(c));
  }

  lemma StoryLinks(c: int)
    ensures var db := Apply(TWO_TOKENS, StartGroup("a", c, 5));
      LinkedTo(db, 1, c) && db.users[1].status == Active && "b" in db.tokens && db.tokens["b"] == Token(1, 9)
  {
  }

  /** From the empty database a run leads to a user for whom a promotion in `c` is
      reported and looked up, and whose flag is wrong after its late write if
      meanwhile the user leaves, links another chat, or the bot is demoted. */
  lemma LateCasesAreReachable(c: int, d: int, step: Step)
    requires step == LeaveAll(1) || (step == StartGroup("b", d, 6) && d != c) || step == MyChatMember("supergroup", c, 1, Demoted)
    ensures var db := Run(EMPTY, Story(c));
      var written := Apply(Apply(db, step), WriteAdmin(1, true));
      && Expecting(db, c)
      && 1 in written.users && !FlagAgrees(written, Reported({c}, step), 1)
  {
    StoryIsReached(c);
  }

  // ---- the server as it runs: one poller, and the admin API beside it ----

  /** Steps of the admin API, and of the catalogue of apps, subscriptions and topics. */
  predicate ApiStep(step: Step) { step.SetGrade? || step.Catalogue? }

  predicate ApiSteps(steps: seq<Step>) { forall i :: 0 <= i < |steps| ==> ApiStep(steps[i]) }

  /** What the server does next: a step in one statement, or a handler of two
      statements with steps of the API in between. */
  datatype Unit =
    | Single(step: Step)
    | Linking(token: string, chatId: int, now: int, between: seq<Step>)
    | Standing(chatType: string, chatId: int, owner: int, member: Member, between: seq<Step>)

  predicate Served(unit: Unit) {
    match unit
    case Single(step) => !step.WriteLink? && !step.WriteAdmin?
    case Linking(_, _, _, between) => ApiSteps(between)
    case Standing(_, _, _, _, between) => ApiSteps(between)
  }

  /** The second statement of a handler, decided by what its first one found in `db`. */
  ghost function Second(db: Db, unit: Unit): Option<Step> {
    match unit
    case Single(_) => None
    case Linking(token, chatId, now, _) =>
      if token in db.tokens && now <= db.tokens[token].expiresAt
      then Some(WriteLink(db.tokens[token].userId, chatId, now)) else None
    case Standing(chatType, chatId, owner, member, _) =>
      if !IsGroup(chatType) || !LinkedTo(db, owner, chatId) || member.OtherStatus? then None
      else Some(WriteAdmin(owner, member.Administrator? && member.allRights))
  }

  ghost function ApplyOption(db: Db, step: Option<Step>): Db { if step.None? then db else Apply(db, step.value) }

  ghost function Serve(db: Db, unit: Unit): Db {
    match unit
    case Single(step) => Apply(db, step)
    case Linking(token, _, _, between) => ApplyOption(Run(Apply(db, ConsumeToken(token)), between), Second(db, unit))
    case Standing(_, _, _, _, between) => ApplyOption(Run(db, between), Second(db, unit))
  }

  /** The same with the handler as one step, before what came in between. */
  function Serial(unit: Unit): seq<Step> {
    match unit
    case Single(step) => [step]
    case Linking(token, chatId, now, between) => [StartGroup(token, chatId, now)] + between
    case Standing(chatType, chatId, owner, member, between) => [MyChatMember(chatType, chatId, owner, member)] + between
  }

  lemma ApiCommutes(db: Db, api: Step, step: Step)
    requires Core(db) && ApiStep(api) && (step.WriteLink? || step.WriteAdmin?)
    ensures Apply(Apply(db, api), step) == Apply(Apply(db, step), api)
  {
    if api.SetGrade? {
      StepKeepsInv(db, step);
      WriteKeepsIds(db, step);
      SameHolder(db, Apply(db, step), api.telegramId);
      var holder := Holder(db, api.telegramId);
      if holder.Some? { GradeCommutes(db, holder.value, api.grade, step); }
    }
  }

  lemma WriteKeepsIds(db: Db, step: Step)
    requires step.WriteLink? || step.WriteAdmin?
    ensures var db' := Apply(db, step);
      db'.users.Keys == db.users.Keys && forall id :: id in db.users ==> db'.users[id].telegramId == db.users[id].telegramId
  {
  }

  function WithGrade(db: Db, id: int, grade: string): Db
    requires id in db.users
  {
    SetUser(db, id, db.users[id].(grade := grade))
  }

  lemma GradeCommutes(db: Db, id: int, grade: string, step: Step)
    requires id in db.users && (step.WriteLink? || step.WriteAdmin?)
    ensures id in Apply(db, step).users
    ensures Apply(WithGrade(db, id, grade), step) == WithGrade(Apply(db, step), id, grade)
  {
    match step
    case WriteLink(target, chatId, now) => GradeBeforeLink(db, id, grade, target, chatId, now);
    case WriteAdmin(target, isAdmin) => GradeBeforeAdmin(db, id, grade, target, isAdmin);
  }

  lemma GradeBeforeLink(db: Db, id: int, grade: string, target: int, chatId: int, now: int)
    requires id in db.users
    ensures var linked := LinkSupergroup(db, target, chatId, now);
      id in linked.users && LinkSupergroup(WithGrade(db, id, grade), target, chatId, now) == WithGrade(linked, id, grade)
  {
    assert LinkSupergroup(WithGrade(db, id, grade), target, chatId, now).users ==
           WithGrade(LinkSupergroup(db, target, chatId, now), id, grade).users;
  }

  lemma GradeBeforeAdmin(db: Db, id: int, grade: string, target: int, isAdmin: bool)
    requires id in db.users
    ensures var written := SetBotIsAdmin(db, target, isAdmin);
      id in written.users && SetBotIsAdmin(WithGrade(db, id, grade), target, isAdmin) == WithGrade(written, id, grade)
  {
    assert SetBotIsAdmin(WithGrade(db, id, grade), target, isAdmin).users ==
           WithGrade(SetBotIsAdmin(db, target, isAdmin), id, grade).users;
  }

  lemma SameHolder(db: Db, db': Db, telegramId: int)
    requires Core(db) && Core(db') && db.users.Keys == db'.users.Keys
    requires forall id :: id in db.users ==> db'.users[id].telegramId == db.users[id].telegramId
    ensures Holder(db, telegramId) == Holder(db', telegramId)
  {
    var h, h' := Holder(db, telegramId), Holder(db', telegramId);
    if h.Some? { assert h.value in db'.users; }
    if h'.Some? { assert h'.value in db.users; }
  }

  lemma {:induction false} ApiRunCommutes(db: Db, between: seq<Step>, step: Step)
    requires Core(db) && ApiSteps(between) && (step.WriteLink? || step.WriteAdmin?)
    ensures Apply(Run(db, between), step) == Run(Apply(db, step), between)
    decreases |between|
  {
    if between != [] {
      var init := between[..|between| - 1];
      ApiRunCommutes(db, init, step);
      RunKeepsInv(db, init);
      ApiCommutes(Run(db, init), between[|between| - 1], step);
    }
  }

  /** What the API does during a handler might as well have come after it. */
  lemma HandlersAreAtomic(db: Db, unit: Unit)
    requires Core(db) && Served(unit)
    ensures Serve(db, unit) == Run(db, Serial(unit))
  {
    match unit
    case Single(step) => RunFirst(db, step, []);
    case Linking(token, chatId, now, between) =>
      var second := Second(db, unit);
      StepKeepsInv(db, ConsumeToken(token));
      StartGroupIsItsStatements(db, token, chatId, now);
      if second.Some? { ApiRunCommutes(Apply(db, ConsumeToken(token)), between, second.value); }
      RunFirst(db, StartGroup(token, chatId, now), between);
    case Standing(chatType, chatId, owner, member, between) =>
      var second := Second(db, unit);
      MyChatMemberIsItsStatements(db, chatType, chatId, owner, member);
      if second.Some? { ApiRunCommutes(db, between, second.value); }
      RunFirst(db, MyChatMember(chatType, chatId, owner, member), between);
  }

  lemma RunFirst(db: Db, step: Step, rest: seq<Step>)
    ensures Run(db, [step] + rest) == Run(Apply(db, step), rest)
  {
    RunSplits(db, [step], rest);
    assert [step][..0] == [];
    assert Run(db, []) == db;
    if rest == [] { assert [step] + rest == [step]; }
  }

  ghost function ServeAll(db: Db, units: seq<Unit>): Db
    decreases |units|
  {
    if units == [] then db else Serve(ServeAll(db, units[..|units| - 1]), units[|units| - 1])
  }

  function SerialAll(units: seq<Unit>): seq<Step>
    decreases |units|
  {
    if units == [] then [] else SerialAll(units[..|units| - 1]) + Serial(units[|units| - 1])
  }

  predicate AllServed(units: seq<Unit>) { forall i :: 0 <= i < |units| ==> Served(units[i]) }

  /** Every run of the server equals a run of whole handlers and single statements
      without a late promotion; so it keeps the invariant. */
  lemma ServerRunsAreSerial(db: Db, units: seq<Unit>)
    requires Core(db) && AllServed(units)
    ensures ServeAll(db, units) == Run(db, SerialAll(units)) && NoLatePromotion(SerialAll(units))
    ensures Core(ServeAll(db, units)) && (Inv(db) ==> Inv(ServeAll(db, units)))
  {
    ServedInSeries(db, units);
    SeriesIsTimely(units);
    RunKeepsInv(db, SerialAll(units));
  }

  lemma {:induction false} ServedInSeries(db: Db, units: seq<Unit>)
    requires Core(db) && AllServed(units)
    ensures ServeAll(db, units) == Run(db, SerialAll(units))
    decreases |units|
  {
    if units != [] {
      var init, last := units[..|units| - 1], units[|units| - 1];
      ServedInSeries(db, init);
      RunKeepsInv(db, SerialAll(init));
      HandlersAreAtomic(ServeAll(db, init), last);
      RunSplits(db, SerialAll(init), Serial(last));
    }
  }

  lemma {:induction false} SeriesIsTimely(units: seq<Unit>)
    requires AllServed(units)
    ensures NoLatePromotion(SerialAll(units))
    decreases |units|
  {
    if units != [] {
      SeriesIsTimely(units[..|units| - 1]);
      UnitIsTimely(units[|units| - 1]);
    }
  }

  lemma UnitIsTimely(unit: Unit)
    requires Served(unit)
    ensures NoLatePromotion(Serial(unit))
  {
  }

  /** In every run of the server a promotion lands on the chat that was looked up:
      the row is still linked to it, whatever the API did in between. */
  lemma ServerPromotionLands(db: Db, chatType: string, c: int, id: int, between: seq<Step>, rights: set<int>)
    requires Inv(db) && ApiSteps(between) && IsGroup(chatType) && LinkedTo(db, id, c) && c in rights
    ensures var after := Serve(db, Standing(chatType, c, id, Administrator(true), between));
      && Inv(after) && LinkedTo(after, id, c) && after.users[id].botIsAdmin
      && FlagAgrees(after, ReportedAfter(rights, between), id)
  {
    LatePromotionIff(db, between, id, c, rights);
    ApiMovesNothing(db, between, id, c);
    assert NoLatePromotion(between);
  }

  lemma {:induction false} ApiMovesNothing(db: Db, between: seq<Step>, id: int, c: int)
    requires ApiSteps(between)
    ensures LastMove(db, between, id) == 0 && LastReport(between, c) == 0
    decreases |between|
  {
    if between != [] { ApiMovesNothing(db, between[..|between| - 1], id, c); }
  }

  /** No flag claims rights that were last reported to be missing. */
  predicate FlagSound(u: User, rights: set<int>) { u.botIsAdmin ==> u.chatId.Some? && u.chatId.value in rights }

  predicate FlagsSound(db: Db, rights: set<int>) { forall id :: id in db.users ==> FlagSound(db.users[id], rights) }

  /** The look-up of a report finds the only owner of the chat, if it has one. */
  predicate FindsOwner(db: Db, step: Step) {
    step.MyChatMember? ==> forall id :: id in db.users && LinkedTo(db, id, step.chatId) ==> id == step.owner
  }

  lemma StepKeepsFlags(db: Db, step: Step, rights: set<int>)
    requires Core(db) && FlagsSound(db, rights) && FindsOwner(db, step) && !LatePromotion(step)
    ensures FlagsSound(Apply(db, step), Reported(rights, step))
  {
    var db', rights' := Apply(db, step), Reported(rights, step);
    forall id | id in db'.users
      ensures FlagSound(db'.users[id], rights')
    {
      if step.MyChatMember? { ReportKeepsFlag(db, step, rights, id); } else { OtherStepKeepsFlag(db, step, rights, id); }
    }
  }

  lemma ReportKeepsFlag(db: Db, step: Step, rights: set<int>, id: int)
    requires id in db.users && FlagSound(db.users[id], rights) && FindsOwner(db, step) && step.MyChatMember?
    ensures id in Apply(db, step).users && FlagSound(Apply(db, step).users[id], Reported(rights, step))
  {
    MyChatMemberIsItsStatements(db, step.chatType, step.chatId, step.owner, step.member);
    assert LinkedTo(db, id, step.chatId) ==> id == step.owner;
  }

  lemma OtherStepKeepsFlag(db: Db, step: Step, rights: set<int>, id: int)
    requires FlagsSound(db, rights) && !step.MyChatMember? && !LatePromotion(step) && id in Apply(db, step).users
    ensures FlagSound(Apply(db, step).users[id], rights)
  {
  }

  /** In every run of whole handlers, and by the above in every run of the server, in
      which reports find the only owner of their chat: whoever is marked as having
      the bot as administrator is linked to a chat in which the bot was last
      reported with all rights. */
  lemma {:induction false} RunKeepsFlags(db: Db, steps: seq<Step>, rights: set<int>)
    requires Core(db) && FlagsSound(db, rights) && NoLatePromotion(steps)
    requires forall k :: 0 <= k < |steps| ==> FindsOwner(Run(db, steps[..k]), steps[k])
    ensures FlagsSound(Run(db, steps), ReportedAfter(rights, steps))
    decreases |steps|
  {
    if steps != [] {
      var init := steps[..|steps| - 1];
      forall k | 0 <= k < |init|
        ensures FindsOwner(Run(db, init[..k]), init[k])
      {
        assert init[..k] == steps[..k];
        assert FindsOwner(Run(db, steps[..k]), steps[k]);
      }
      RunKeepsFlags(db, init, rights);
      RunKeepsInv(db, init);
      assert FindsOwner(Run(db, steps[..|init|]), steps[|init|]);
      StepKeepsFlags(Run(db, init), steps[|init|], ReportedAfter(rights, init));
    }
  }

  // ---- tokens ----

  ghost predicate NotIssued(steps: seq<Step>, token: string) {
    forall i :: 0 <= i < |steps| && steps[i].IssueToken? ==> steps[i].token != token
  }

  lemma StepDrawsNoToken(db: Db, step: Step, token: string)
    requires token !in db.tokens && (step.IssueToken? ==> step.token != token)
    ensures token !in Apply(db, step).tokens
  {
  }

  lemma {:induction false} TokenStaysGone(db: Db, steps: seq<Step>, token: string)
    requires token !in db.tokens && NotIssued(steps, token)
    ensures token !in Run(db, steps).tokens
    decreases |steps|
  {
    if steps != [] {
      var init := steps[..|steps| - 1];
      TokenStaysGone(db, init, token);
      StepDrawsNoToken(Run(db, init), steps[|steps| - 1], token);
    }
  }

  /** A startgroup token works once: using it consumes it, expired or not, and
      until the same token is issued again every later use changes nothing,
      whatever happened in between. */
  lemma TokenIsOneShot(db: Db, token: string, chatId: int, now: int, steps: seq<Step>, chatId2: int, now2: int)
    requires NotIssued(steps, token)
    ensures var late := Run(Apply(db, StartGroup(token, chatId, now)), steps);
      Apply(late, StartGroup(token, chatId2, now2)) == late
  {
    TokenStaysGone(Apply(db, StartGroup(token, chatId, now)), steps, token);
  }

  /** A fresh token links the user it was issued for: whatever happens in between, as
      long as nobody uses it, its first use in time links that user, unless
      anonymized by then, to the chat it is used in; a late use links nobody. */
  lemma TokenLinksItsUser(db: Db, token: string, id: int, expiresAt: int, steps: seq<Step>, chatId: int, now: int)
    requires Core(db) && id in db.users && token !in db.tokens && NotUsed(steps, token)
    ensures var before := Run(Apply(db, IssueToken(token, id, expiresAt)), steps);
      var after := Apply(before, StartGroup(token, chatId, now));
      && id in before.users && id in after.users
      && (now <= expiresAt && before.users[id].status != Anonymized ==>
            LinkedTo(after, id, chatId) && after.users[id].linkedAt == Some(now) && !after.users[id].botIsAdmin)
      && (now > expiresAt ==> after.users == before.users)
      && (forall other :: other in before.users && other != id ==> other in after.users && after.users[other] == before.users[other])
  {
    var issued := Apply(db, IssueToken(token, id, expiresAt));
    StepKeepsInv(db, IssueToken(token, id, expiresAt));
    LinkAfterRun(issued, steps, id);
    TokenIsKept(issued, steps, token);
  }

  ghost predicate NotUsed(steps: seq<Step>, token: string) {
    forall i :: 0 <= i < |steps| ==>
      !(steps[i].StartGroup? && steps[i].token == token) && !(steps[i].ConsumeToken? && steps[i].token == token)
  }

  lemma StepKeepsToken(db: Db, step: Step, token: string)
    requires token in db.tokens && NotUsed([step], token)
    ensures token in Apply(db, step).tokens && Apply(db, step).tokens[token] == db.tokens[token]
  {
    assert [step][0] == step;
  }

  lemma {:induction false} TokenIsKept(db: Db, steps: seq<Step>, token: string)
    requires token in db.tokens && NotUsed(steps, token)
    ensures token in Run(db, steps).tokens && Run(db, steps).tokens[token] == db.tokens[token]
    decreases |steps|
  {
    if steps != [] {
      var init := steps[..|steps| - 1];
      TokenIsKept(db, init, token);
      StepKeepsToken(Run(db, init), steps[|steps| - 1], token);
    }
  }

  // ---- what a row goes through ----

  /** The row that a step may change, if any. */
  ghost function Target(db: Db, step: Step): Option<int> {
    match step
    case Start(tg, _, _) => if Holder(db, tg).Some? then Holder(db, tg) else Some(db.nextId)
    case SetGrade(tg, _) => Holder(db, tg)
    case Agree(id, _) => Some(id)
    case LeaveAll(id) => Some(id)
    case SetStatus(id, _) => Some(id)
    case ResetLink(id) => Some(id)
    case WriteLink(id, _, _) => Some(id)
    case WriteAdmin(id, _) => Some(id)
    case StartGroup(token, _, _) => if token in db.tokens then Some(db.tokens[token].userId) else None
    case MyChatMember(_, _, owner, _) => Some(owner)
    case _ => None
  }

  /** A step changes one row at most and removes none. */
  lemma StepTouchesOneRow(db: Db, step: Step, id: int)
    requires id in db.users
    ensures id in Apply(db, step).users
    ensures Target(db, step) != Some(id) ==> Apply(db, step).users[id] == db.users[id]
  {
    if step.Start? || step.SetGrade? { UpsertTouchesOneRow(db, step, id); } else { UpdateTouchesOneRow(db, step, id); }
  }

  lemma UpsertTouchesOneRow(db: Db, step: Step, id: int)
    requires (step.Start? || step.SetGrade?) && id in db.users
    ensures id in Apply(db, step).users
    ensures Target(db, step) != Some(id) ==> Apply(db, step).users[id] == db.users[id]
  {
  }

  lemma UpdateTouchesOneRow(db: Db, step: Step, id: int)
    requires !step.Start? && !step.SetGrade? && id in db.users
    ensures id in Apply(db, step).users
    ensures Target(db, step) != Some(id) ==> Apply(db, step).users[id] == db.users[id]
  {
  }

  /** Who starts for the first time becomes an active user of the lowest grade, who has
      agreed to nothing and linked nothing, under the names given. */
  lemma NewUserStartsPlain(db: Db, tg: int, username: string, lang: string)
    requires Core(db) && forall id :: id in db.users ==> db.users[id].telegramId != tg
    ensures var after := Apply(db, Start(tg, username, lang));
      && db.nextId !in db.users && after.users.Keys == db.users.Keys + {db.nextId}
      && var u := after.users[db.nextId];
         && u.telegramId == tg && u.grade == "user" && u.status == Active && !u.anonymized
         && u.agreedAt.None? && u.chatId.None? && u.linkedAt.None? && !u.botIsAdmin
         && (username != "" ==> u.username == Some(username)) && (username == "" ==> u.username.None?)
         && (lang != "" ==> u.preferredLang == Some(lang)) && (lang == "" ==> u.preferredLang.None?)
  {
    assert Holder(db, tg) == None;
  }

  /** Who starts again keeps everything but a username that is given anew. */
  lemma KnownUserStartsAgain(db: Db, tg: int, username: string, lang: string, id: int)
    requires Core(db) && id in db.users && db.users[id].telegramId == tg
    ensures var after := Apply(db, Start(tg, username, lang));
      && after.users.Keys == db.users.Keys
      && after.users[id].(username := None) == db.users[id].(username := None)
      && (username != "" ==> after.users[id].username == Some(username))
      && (username == "" ==> after.users[id].username == db.users[id].username)
  {
    var h := Holder(db, tg).value;
    assert h in db.users && db.users[h].telegramId == db.users[id].telegramId;
    assert h == id;
  }

  /** Leaving erases the names and the link, and the names stay erased through any
      steps until the same person starts again. */
  lemma LeavingErases(db: Db, id: int, steps: seq<Step>)
    requires Core(db) && id in db.users
    requires forall i :: 0 <= i < |steps| && steps[i].Start? ==> steps[i].telegramId != db.users[id].telegramId
    ensures var late := Run(Apply(db, LeaveAll(id)), steps);
      && id in late.users && late.users[id].username.None? && late.users[id].preferredLang.None?
      && late.users[id].chatId.None? && late.users[id].linkedAt.None?
  {
    var left := Apply(db, LeaveAll(id));
    StepKeepsInv(db, LeaveAll(id));
    AnonymizedIsAbsorbing(left, steps, id);
    RunKeepsInv(left, steps);
    NamesStayErased(left, steps, id);
  }

  predicate Nameless(u: User) { u.username.None? && u.preferredLang.None? }

  lemma {:induction false} NamesStayErased(db: Db, steps: seq<Step>, id: int)
    requires Core(db) && id in db.users && Nameless(db.users[id])
    requires forall i :: 0 <= i < |steps| && steps[i].Start? ==> steps[i].telegramId != db.users[id].telegramId
    ensures var late := Run(db, steps);
      id in late.users && Nameless(late.users[id]) && late.users[id].telegramId == db.users[id].telegramId
    decreases |steps|
  {
    if steps != [] {
      var init := steps[..|steps| - 1];
      NamesStayErased(db, init, id);
      RunKeepsInv(db, init);
      StepNamesNobody(Run(db, init), steps[|steps| - 1], id);
    }
  }

  lemma StepNamesNobody(db: Db, step: Step, id: int)
    requires Core(db) && id in db.users && Nameless(db.users[id])
    requires step.Start? ==> step.telegramId != db.users[id].telegramId
    ensures var after := Apply(db, step);
      id in after.users && Nameless(after.users[id]) && after.users[id].telegramId == db.users[id].telegramId
  {
    if step.Start? || step.SetGrade? { UpsertNamesNobody(db, step, id); } else { UpdateNamesNobody(db, step, id); }
  }

  lemma UpsertNamesNobody(db: Db, step: Step, id: int)
    requires (step.Start? || step.SetGrade?) && Core(db) && id in db.users && Nameless(db.users[id])
    requires step.Start? ==> step.telegramId != db.users[id].telegramId
    ensures var after := Apply(db, step);
      id in after.users && Nameless(after.users[id]) && after.users[id].telegramId == db.users[id].telegramId
  {
  }

  lemma UpdateNamesNobody(db: Db, step: Step, id: int)
    requires !step.Start? && !step.SetGrade? && Core(db) && id in db.users && Nameless(db.users[id])
    ensures var after := Apply(db, step);
      id in after.users && Nameless(after.users[id]) && after.users[id].telegramId == db.users[id].telegramId
  {
  }

  /** Setting active lifts a pause. */
  lemma ActiveAgain(db: Db, id: int)
    requires id in db.users && db.users[id].status != Anonymized
    ensures var again := Apply(db, SetStatus(id, "active"));
      id in again.users && again.users[id] == db.users[id].(status := Active)
  {
  }

  /** Pausing stops all deliveries, through any steps until the user is set active
      again. */
  lemma PausedNeverReceives(db: Db, id: int, steps: seq<Step>, order: seq<int>, app: string, rank: nat, ids: seq<int>)
    requires Core(db) && id in db.users
    requires forall i :: 0 <= i < |steps| ==> steps[i] != SetStatus(id, "active")
    requires ListsUsers(order, Run(Apply(db, SetStatus(id, "paused")), steps))
    ensures ReachedByNone(Run(Apply(db, SetStatus(id, "paused")), steps), id, order, app, rank, ids)
  {
    var paused := Apply(db, SetStatus(id, "paused"));
    StepKeepsInv(db, SetStatus(id, "paused"));
    PausingPauses(db, id);
    StaysInactive(paused, steps, id);
    InactiveIsReachedByNone(Run(paused, steps), id, order, app, rank, ids);
  }

  lemma PausingPauses(db: Db, id: int)
    requires id in db.users
    ensures var paused := Apply(db, SetStatus(id, "paused")); id in paused.users && paused.users[id].status != Active
  {
  }

  lemma {:induction false} StaysInactive(db: Db, steps: seq<Step>, id: int)
    requires Core(db) && id in db.users && db.users[id].status != Active
    requires forall i :: 0 <= i < |steps| ==> steps[i] != SetStatus(id, "active")
    ensures id in Run(db, steps).users && Run(db, steps).users[id].status != Active
    decreases |steps|
  {
    if steps != [] {
      var init := steps[..|steps| - 1];
      StaysInactive(db, init, id);
      RunKeepsInv(db, init);
      StepKeepsInactive(Run(db, init), steps[|steps| - 1], id);
    }
  }

  lemma StepKeepsInactive(db: Db, step: Step, id: int)
    requires Core(db) && id in db.users && db.users[id].status != Active && step != SetStatus(id, "active")
    ensures id in Apply(db, step).users && Apply(db, step).users[id].status != Active
  {
    if step.Start? || step.SetGrade? { UpsertKeepsInactive(db, step, id); } else { UpdateKeepsInactive(db, step, id); }
  }

  lemma UpsertKeepsInactive(db: Db, step: Step, id: int)
    requires (step.Start? || step.SetGrade?) && Core(db) && id in db.users && db.users[id].status != Active && step != SetStatus(id, "active")
    ensures id in Apply(db, step).users && Apply(db, step).users[id].status != Active
  {
  }

  lemma UpdateKeepsInactive(db: Db, step: Step, id: int)
    requires !step.Start? && !step.SetGrade? && Core(db) && id in db.users && db.users[id].status != Active && step != SetStatus(id, "active")
    ensures id in Apply(db, step).users && Apply(db, step).users[id].status != Active
  {
  }

  /** The time of the first agreement is never lost or overwritten. */
  lemma {:induction false} AgreementLasts(db: Db, steps: seq<Step>, id: int)
    requires Core(db) && id in db.users && db.users[id].agreedAt.Some?
    ensures id in Run(db, steps).users && Run(db, steps).users[id].agreedAt == db.users[id].agreedAt
    decreases |steps|
  {
    if steps != [] {
      var init := steps[..|steps| - 1];
      AgreementLasts(db, init, id);
      RunKeepsInv(db, init);
      StepKeepsAgreement(Run(db, init), steps[|steps| - 1], id);
    }
  }

  lemma StepKeepsAgreement(db: Db, step: Step, id: int)
    requires Core(db) && id in db.users
    ensures id in Apply(db, step).users
    ensures db.users[id].agreedAt.Some? ==> Apply(db, step).users[id].agreedAt == db.users[id].agreedAt
    ensures db.users[id].agreedAt.None? ==>
      Apply(db, step).users[id].agreedAt == if step.Agree? && step.userId == id then Some(step.now) else None
  {
    if step.Start? || step.SetGrade? { UpsertKeepsAgreement(db, step, id); } else { UpdateKeepsAgreement(db, step, id); }
  }

  lemma UpsertKeepsAgreement(db: Db, step: Step, id: int)
    requires (step.Start? || step.SetGrade?) && Core(db) && id in db.users
    ensures id in Apply(db, step).users
    ensures db.users[id].agreedAt.Some? ==> Apply(db, step).users[id].agreedAt == db.users[id].agreedAt
    ensures db.users[id].agreedAt.None? ==>
      Apply(db, step).users[id].agreedAt == if step.Agree? && step.userId == id then Some(step.now) else None
  {
  }

  lemma UpdateKeepsAgreement(db: Db, step: Step, id: int)
    requires !step.Start? && !step.SetGrade? && Core(db) && id in db.users
    ensures id in Apply(db, step).users
    ensures db.users[id].agreedAt.Some? ==> Apply(db, step).users[id].agreedAt == db.users[id].agreedAt
    ensures db.users[id].agreedAt.None? ==>
      Apply(db, step).users[id].agreedAt == if step.Agree? && step.userId == id then Some(step.now) else None
  {
  }

  /** A user's grade is what it was last set to. */
  lemma StepKeepsGrade(db: Db, step: Step, id: int)
    requires Core(db) && id in db.users
    ensures var regraded := step.SetGrade? && step.telegramId == db.users[id].telegramId
                       && (step.grade == "user" || step.grade == "developer" || step.grade == "admin");
      id in Apply(db, step).users && Apply(db, step).users[id].grade == if regraded then step.grade else db.users[id].grade
  {
    if step.SetGrade? {
      var h := Holder(db, step.telegramId);
      if h.Some? && db.users[id].telegramId == step.telegramId {
        assert db.users[h.value].telegramId == db.users[id].telegramId;
        assert h.value == id;
      }
    }
  }

  // ---- handlers and their statements ----

  /** The handlers taken as one step are their statements in order. */
  lemma StartGroupIsItsStatements(db: Db, token: string, chatId: int, now: int)
    ensures Apply(db, StartGroup(token, chatId, now)) ==
      if token in db.tokens && now <= db.tokens[token].expiresAt
      then Apply(Apply(db, ConsumeToken(token)), WriteLink(db.tokens[token].userId, chatId, now))
      else Apply(db, ConsumeToken(token))
  {
    assert token !in db.tokens ==> db.tokens - {token} == db.tokens;
  }

  lemma MyChatMemberIsItsStatements(db: Db, chatType: string, chatId: int, owner: int, member: Member)
    ensures Apply(db, MyChatMember(chatType, chatId, owner, member)) ==
      if IsGroup(chatType) && LinkedTo(db, owner, chatId) && !member.OtherStatus?
      then Apply(db, WriteAdmin(owner, member.Administrator? && member.allRights)) else db
  {
  }

  class Store {
    var db: Db

    constructor ()
      ensures db == EMPTY && Inv(db)
    {
      db := EMPTY;
    }

    /** ON CONFLICT (telegram_id). */
    method UpsertOnStart(telegramId: int, username: string, lang: string)
      requires Core(db)
      modifies this
      ensures db == Apply(old(db), Start(telegramId, username, lang))
      ensures Core(db) && (Inv(old(db)) ==> Inv(db))
    {
      StepKeepsInv(db, Start(telegramId, username, lang));
      if id :| id in db.users && db.users[id].telegramId == telegramId {
        assert Holder(db, telegramId) == Some(id);
        db := db.(nextId := db.nextId + 1);
        if username != "" { db := db.(users := db.users[id := db.users[id].(username := Some(username))]); }
      } else {
        assert Holder(db, telegramId) == None;
        db := db.(users := db.users[db.nextId := NewUser(telegramId, username, lang)], nextId := db.nextId + 1);
      }
    }

    method MarkAgreed(id: int, now: int) returns (transitioned: bool)
      requires Core(db)
      modifies this
      ensures db == Apply(old(db), Agree(id, now))
      ensures Core(db) && (Inv(old(db)) ==> Inv(db))
      ensures transitioned <==> old(id in db.users && db.users[id].agreedAt.None?)
    {
      StepKeepsInv(db, Agree(id, now));
      transitioned := id in db.users && db.users[id].agreedAt.None?;
      if transitioned { db := db.(users := db.users[id := db.users[id].(agreedAt := Some(now))]); }
    }

    method Anonymize(id: int)
      requires Core(db)
      modifies this
      ensures db == Apply(old(db), LeaveAll(id))
      ensures Core(db) && (Inv(old(db)) ==> Inv(db))
    {
      StepKeepsInv(db, LeaveAll(id));
      if id in db.users { db := db.(users := db.users[id := Anonymous(db.users[id])]); }
    }

    method ChangeStatus(id: int, status: string) returns (ok: bool)
      requires Core(db)
      modifies this
      ensures db == Apply(old(db), SetStatus(id, status))
      ensures Core(db) && (Inv(old(db)) ==> Inv(db))
      ensures ok <==> status == "active" || status == "paused"
    {
      StepKeepsInv(db, SetStatus(id, status));
      if status != "active" && status != "paused" { return false; }
      if id in db.users && db.users[id].status != Anonymized {
        db := db.(users := db.users[id := db.users[id].(status := if status == "active" then Active else Paused)]);
      }
      return true;
    }

    /** ON CONFLICT (token) DO NOTHING; a missing user is a foreign-key error. */
    method AddToken(token: string, id: int, expiresAt: int) returns (ok: bool)
      requires Core(db)
      modifies this
      ensures db == Apply(old(db), IssueToken(token, id, expiresAt))
      ensures Core(db) && (Inv(old(db)) ==> Inv(db))
      ensures ok <==> old(id in db.users || token in db.tokens)
    {
      if token in db.tokens { return true; }
      if id !in db.users { return false; }
      db := db.(tokens := db.tokens[token := Token(id, expiresAt)]);
      return true;
    }

    method Unlink(id: int)
      requires Core(db)
      modifies this
      ensures db == Apply(old(db), ResetLink(id))
      ensures Core(db) && (Inv(old(db)) ==> Inv(db))
    {
      StepKeepsInv(db, ResetLink(id));
      if id in db.users {
        db := db.(users := db.users[id := db.users[id].(chatId := None, linkedAt := None, botIsAdmin := false)]);
      }
    }

    /** The user of a token that is there and not expired; it is deleted either way. */
    method TakeToken(token: string, now: int) returns (userId: Option<int>)
      modifies this
      ensures db == Apply(old(db), ConsumeToken(token))
      ensures userId == if token in old(db).tokens && now <= old(db).tokens[token].expiresAt
                        then Some(old(db).tokens[token].userId) else None
    {
      if token !in db.tokens {
        assert db.tokens - {token} == db.tokens;
        return None;
      }
      var t := db.tokens[token];
      db := db.(tokens := db.tokens - {token});
      userId := if now > t.expiresAt then None else Some(t.userId);
    }

    method Link(id: int, chatId: int, now: int)
      modifies this
      ensures db == Apply(old(db), WriteLink(id, chatId, now))
    {
      if id in db.users && db.users[id].status != Anonymized {
        var u := db.users[id];
        db := db.(users := db.users[id := u.(chatId := Some(chatId), linkedAt := Some(now), botIsAdmin := false)]);
      }
    }

    method SetAdmin(id: int, isAdmin: bool)
      modifies this
      ensures db == Apply(old(db), WriteAdmin(id, isAdmin))
    {
      if id in db.users { db := db.(users := db.users[id := db.users[id].(botIsAdmin := isAdmin)]); }
    }

    /** Of the rows with that chat id any one may be found. */
    method FindUserByChatId(chatId: int) returns (found: Option<int>)
      ensures found.Some? ==> LinkedTo(db, found.value, chatId)
      ensures found.None? ==> forall id :: id in db.users ==> !LinkedTo(db, id, chatId)
    {
      if id :| id in db.users && db.users[id].chatId == Some(chatId) { return Some(id); }
      return None;
    }

    /** StartgroupHandler: consume the token, then link. */
    method HandleStartGroup(token: string, chatId: int, now: int) returns (linked: bool)
      requires Core(db)
      modifies this
      ensures db == Apply(old(db), StartGroup(token, chatId, now))
      ensures Core(db) && (Inv(old(db)) ==> Inv(db))
      ensures linked <==> old(token in db.tokens && now <= db.tokens[token].expiresAt)
    {
      StartGroupIsItsStatements(db, token, chatId, now);
      StepKeepsInv(db, StartGroup(token, chatId, now));
      var userId := TakeToken(token, now);
      if userId.None? { return false; }
      Link(userId.value, chatId, now);
      return true;
    }

    /** PromoteHandler without interruption; `audited` is the error code of the
        event that it writes, "" if it writes none. */
    method HandleMyChatMember(chatType: string, chatId: int, member: Member) returns (ghost owner: int, audited: string)
      requires Core(db)
      modifies this
      ensures db == Apply(old(db), MyChatMember(chatType, chatId, owner, member))
      ensures Core(db) && (Inv(old(db)) ==> Inv(db))
      ensures Tracked(chatType, chatId, old(db)) ==> LinkedTo(old(db), owner, chatId)
      ensures audited == "intrusion_unmitigated" <==> Tracked(chatType, chatId, old(db)) && member == Administrator(false)
      ensures audited == "bot_not_admin" <==> Tracked(chatType, chatId, old(db)) && member == Demoted
      ensures audited == "" || audited == "intrusion_unmitigated" || audited == "bot_not_admin"
    {
      owner := db.nextId;
      if chatType != "supergroup" && chatType != "group" { return owner, ""; }
      var found := FindUserByChatId(chatId);
      if found.None? { return owner, ""; }
      owner := found.value;
      StepKeepsInv(db, MyChatMember(chatType, chatId, owner, member));
      match member
      case Administrator(allRights) =>
        SetAdmin(found.value, allRights);
        audited := if allRights then "" else "intrusion_unmitigated";
      case Demoted =>
        SetAdmin(found.value, false);
        audited := "bot_not_admin";
      case OtherStatus =>
        audited := "";
    }
  }

  /** The update is about a group that some user has linked. */
  ghost predicate Tracked(chatType: string, chatId: int, db: Db) {
    IsGroup(chatType) && exists id :: id in db.users && LinkedTo(db, id, chatId)
  }
}
