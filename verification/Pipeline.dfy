/** The dispatch pipeline shared by the four send endpoints: runStrategyDispatch
    of internal/api/handlers/common.go. The audit writer may fail at any write,
    the dispatcher at any send, and the resolver may return anything. */
module Pipeline {
  import opened Options
  import opened Sequences
  import R = Recipients

  datatype Stage = Received | Validated | Dispatched | Delivered | Deferred | Denied

  /** An audit event; the fields that all events of a request share are left out. */
  datatype Event = Event(stage: Stage, channel: Option<R.Channel>, userId: int, chatId: int, code: string,
                         counts: Option<(nat, nat, nat)>)

  function Plain(stage: Stage): Event { Event(stage, None, 0, 0, "", None) }

  function DeniedWith(code: string): Event { Plain(Denied).(code := code) }

  datatype SendResult = SentOk(messageId: int) | ChatNotFound | BotNotAdmin | RateLimited | TelegramAuth | OtherError

  /** classifyDispatchErr */
  function ErrorCode(r: SendResult): string {
    match r
    case SentOk(_) => ""
    case ChatNotFound => "chat_not_found"
    case BotNotAdmin => "bot_not_admin"
    case RateLimited => "telegram_rate_limited"
    case TelegramAuth => "telegram_auth_failed"
    case OtherError => "telegram_transient"
  }

  datatype Body = Body(recipients: seq<int>, appId: string, minGrade: string, schemaVersion: int, text: string)

  datatype Opts = Opts(requireAppId: bool, requireRecipients: bool, allowMinGrade: bool, defaultChannel: R.Channel)

  /** What a strategy's resolver may answer. */
  datatype Answer = Resolved(res: R.Resolution) | AppNotFound | EmptyRecipients | ResolverError

  /** The surroundings of one request: whether there is an audit writer, which of
      its writes fail (by number), the resolver, and how each send ends. */
  datatype Env = Env(hasWriter: bool, fails: nat -> bool, resolve: Body -> Answer, send: nat -> SendResult)

  datatype ReportStatus = DeliveredTo | FailedFor | SkippedFor

  datatype Report = Report(userId: int, status: ReportStatus, reason: string, messageId: int)

  datatype Response = Response(delivered: nat, failed: nat, skipped: nat, reports: seq<Report>)

  datatype Reply = Ok(resp: Response) | Error(code: string)

  /** What happens, in order: audit writes that succeed or fail, and sends. */
  datatype Action = Wrote(event: Event) | WriteFailed(event: Event) | Sent(handle: R.Handle)

  /** What a request sets out to do, step by step, the last step outermost. */
  datatype Item = Write(event: Event) | Send(handle: R.Handle)

  datatype Plan = Nothing | Then(before: Plan, item: Item)

  /** What it has done so far, and the number of writes it has attempted. */
  datatype Log = Log(trace: seq<Action>, writes: nat)

  const START := Log([], 0)

  predicate WriteOk(env: Env, writes: nat) { !env.hasWriter || !env.fails(writes) }

  /** One step. writeAuditSafe: without a writer nothing happens; a failure is only
      logged. */
  function Record(env: Env, log: Log, item: Item): Log {
    match item
    case Send(h) => log.(trace := log.trace + [Sent(h)])
    case Write(e) =>
      if !env.hasWriter then log
      else Log(log.trace + [if env.fails(log.writes) then WriteFailed(e) else Wrote(e)], log.writes + 1)
  }

  function Play(env: Env, plan: Plan): Log {
    match plan
    case Nothing => START
    case Then(before, item) => Record(env, Play(env, before), item)
  }

  // ---- specification ----

  /** The refusal of a request before the resolver runs, "" if there is none. */
  function Refusal(opts: Opts, body: Option<Body>): string {
    if body.None? then "malformed_json"
    else
      var b := body.value;
      if b.schemaVersion == 0 then "missing_envelope_version"
      else if b.schemaVersion != 1 then "unsupported_envelope_version"
      else if b.text == "" then "empty_envelope_text"
      else if opts.requireAppId && b.appId == "" then "missing_app_id"
      else if opts.requireRecipients && b.recipients == [] then "empty_recipients"
      else ""
  }

  function Effective(opts: Opts, b: Body): Body { if opts.allowMinGrade then b else b.(minGrade := "") }

  function AnswerCode(a: Answer): string {
    match a
    case Resolved(_) => ""
    case AppNotFound => "app_not_found"
    case EmptyRecipients => "empty_recipients"
    case ResolverError => "resolver_error"
  }

  function About(stage: Stage, h: R.Handle, code: string): Event {
    Event(stage, Some(h.channel), h.userId, h.chatId, code, None)
  }

  /** One accepted recipient: announce, send, record how it went. */
  function Ending(env: Env, h: R.Handle, i: nat): Event {
    var r := env.send(i);
    if r.SentOk? then About(Delivered, h, "") else About(Deferred, h, ErrorCode(r))
  }

  function PlanSend(env: Env, plan: Plan, h: R.Handle, i: nat): Plan {
    Then(Then(Then(plan, Write(About(Dispatched, h, ""))), Send(h)), Write(Ending(env, h, i)))
  }

  /** The plan with the first `n` recipients added. */
  function PlanSends(env: Env, plan: Plan, hs: seq<R.Handle>, n: nat): Plan
    requires n <= |hs|
  {
    if n == 0 then plan else PlanSend(env, PlanSends(env, plan, hs, n - 1), hs[n - 1], n - 1)
  }

  function SkipEvent(opts: Opts, s: R.Skip): Event {
    Event(Denied, Some(opts.defaultChannel), s.userId, 0, CodeText(s.code), None)
  }

  /** The plan with the first `n` skips added. */
  function PlanSkips(opts: Opts, plan: Plan, ss: seq<R.Skip>, n: nat): Plan
    requires n <= |ss|
  {
    if n == 0 then plan else Then(PlanSkips(opts, plan, ss, n - 1), Write(SkipEvent(opts, ss[n - 1])))
  }

  function CodeText(c: R.Code): string {
    match c
    case UnknownRecipient => "unknown_recipient"
    case RecipientInactive => "recipient_inactive"
    case NotSubscribed => "recipient_not_subscribed"
    case NotLinked => "recipient_not_linked"
    case BotNotAdmin => "bot_not_admin"
    case TopicMissing => "recipient_topic_missing"
    case GradeInsufficient => "grade_insufficient"
  }

  function ValidatedEvent(b: Body, res: R.Resolution): Event {
    Plain(Validated).(counts := Some((|b.recipients|, |res.recipients|, |res.skipped|)))
  }

  const ARRIVED := Then(Nothing, Write(Plain(Received)))

  /** The two writes that must succeed before anything is sent. */
  function Gate(b: Body, res: R.Resolution): Plan { Then(ARRIVED, Write(ValidatedEvent(b, res))) }

  /** All the steps of a request, and its reply. */
  function Dispatch(env: Env, opts: Opts, body: Option<Body>): (Plan, Reply) {
    var code := Refusal(opts, body);
    if !WriteOk(env, 0) then (ARRIVED, Error("audit_unavailable"))
    else if code != "" then (Then(ARRIVED, Write(DeniedWith(code))), Error(code))
    else
      var b := Effective(opts, body.value);
      match env.resolve(b)
      case Resolved(res) =>
        if !WriteOk(env, 1) then (Gate(b, res), Error("audit_unavailable"))
        else
          var hs, ss := res.recipients, res.skipped;
          (PlanSkips(opts, PlanSends(env, Gate(b, res), hs, |hs|), ss, |ss|),
           Ok(SkipsResponse(SendsResponse(env, hs, |hs|), ss, |ss|)))
      case answer => (Then(ARRIVED, Write(DeniedWith(AnswerCode(answer)))), Error(AnswerCode(answer)))
  }

  function SendsResponse(env: Env, hs: seq<R.Handle>, n: nat): Response
    requires n <= |hs|
  {
    if n == 0 then Response(0, 0, 0, [])
    else AddSend(SendsResponse(env, hs, n - 1), hs[n - 1], env.send(n - 1))
  }

  function AddSend(resp: Response, h: R.Handle, r: SendResult): Response {
    if r.SentOk? then
      resp.(delivered := resp.delivered + 1,
            reports := resp.reports + [Report(h.userId, DeliveredTo, "", r.messageId)])
    else
      resp.(failed := resp.failed + 1, reports := resp.reports + [Report(h.userId, FailedFor, ErrorCode(r), 0)])
  }

  function SkipsResponse(start: Response, ss: seq<R.Skip>, n: nat): Response
    requires n <= |ss|
  {
    if n == 0 then start
    else
      var prev := SkipsResponse(start, ss, n - 1);
      prev.(skipped := prev.skipped + 1,
            reports := prev.reports + [Report(ss[n - 1].userId, SkippedFor, CodeText(ss[n - 1].code), 0)])
  }

  // ---- the handler ----

  method SendAll(env: Env, start: Log, ghost plan: Plan, hs: seq<R.Handle>) returns (log: Log, resp: Response)
    requires start == Play(env, plan)
    ensures log == Play(env, PlanSends(env, plan, hs, |hs|)) && resp == SendsResponse(env, hs, |hs|)
  {
    log, resp := start, Response(0, 0, 0, []);
    var i := 0;
    while i < |hs|
      invariant 0 <= i <= |hs| && resp == SendsResponse(env, hs, i)
      invariant log == Play(env, PlanSends(env, plan, hs, i))
    {
      var h := hs[i];
      PlayOneSend(env, PlanSends(env, plan, hs, i), h, i);
      log := Record(env, log, Write(About(Dispatched, h, "")));
      var result := env.send(i);
      log := Record(env, log, Send(h));
      if result.SentOk? {
        log := Record(env, log, Write(About(Delivered, h, "")));
        resp := resp.(delivered := resp.delivered + 1,
                      reports := resp.reports + [Report(h.userId, DeliveredTo, "", result.messageId)]);
      } else {
        log := Record(env, log, Write(About(Deferred, h, ErrorCode(result))));
        resp := resp.(failed := resp.failed + 1,
                      reports := resp.reports + [Report(h.userId, FailedFor, ErrorCode(result), 0)]);
      }
      i := i + 1;
    }
  }

  method RecordSkips(env: Env, opts: Opts, start: Log, ghost plan: Plan, before: Response, ss: seq<R.Skip>)
    returns (log: Log, resp: Response)
    requires start == Play(env, plan)
    ensures log == Play(env, PlanSkips(opts, plan, ss, |ss|)) && resp == SkipsResponse(before, ss, |ss|)
  {
    log, resp := start, before;
    var k := 0;
    while k < |ss|
      invariant 0 <= k <= |ss| && resp == SkipsResponse(before, ss, k)
      invariant log == Play(env, PlanSkips(opts, plan, ss, k))
    {
      log := Record(env, log, Write(SkipEvent(opts, ss[k])));
      resp := resp.(skipped := resp.skipped + 1,
                    reports := resp.reports + [Report(ss[k].userId, SkippedFor, CodeText(ss[k].code), 0)]);
      k := k + 1;
    }
  }

  method RunStrategyDispatch(env: Env, opts: Opts, body: Option<Body>) returns (trace: seq<Action>, reply: Reply)
    ensures reply == Dispatch(env, opts, body).1
    ensures trace == Play(env, Dispatch(env, opts, body).0).trace
  {
    var log := Record(env, START, Write(Plain(Received)));
    assert log == Play(env, ARRIVED);
    if !WriteOk(env, 0) { return log.trace, Error("audit_unavailable"); }
    var code := Refusal(opts, body);
    if code != "" {
      log := Record(env, log, Write(DeniedWith(code)));
      return log.trace, Error(code);
    }
    var b := Effective(opts, body.value);
    var answer := env.resolve(b);
    if !answer.Resolved? {
      log := Record(env, log, Write(DeniedWith(AnswerCode(answer))));
      return log.trace, Error(AnswerCode(answer));
    }
    var hs, ss := answer.res.recipients, answer.res.skipped;
    log := Record(env, log, Write(ValidatedEvent(b, answer.res)));
    ghost var gate := Gate(b, answer.res);
    assert log == Play(env, gate);
    if !WriteOk(env, 1) { return log.trace, Error("audit_unavailable"); }
    var resp;
    log, resp := SendAll(env, log, gate, hs);
    log, resp := RecordSkips(env, opts, log, PlanSends(env, gate, hs, |hs|), resp, ss);
    return log.trace, Ok(resp);
  }

  lemma PlayOneSend(env: Env, plan: Plan, h: R.Handle, i: nat)
    ensures Play(env, PlanSend(env, plan, h, i)) ==
            Record(env, Record(env, Record(env, Play(env, plan), Write(About(Dispatched, h, ""))), Send(h)),
                   Write(Ending(env, h, i)))
    ensures Play(env, plan).trace <= Play(env, PlanSend(env, plan, h, i)).trace
  {
    var one := Then(plan, Write(About(Dispatched, h, "")));
    assert Play(env, Then(one, Send(h))) == Record(env, Play(env, one), Send(h));
  }

  // ---- what every request keeps to ----

  /** The handles sent, in order. */
  function SentOf(trace: seq<Action>): seq<R.Handle> {
    if trace == [] then []
    else
      var init, a := SentOf(trace[..|trace| - 1]), trace[|trace| - 1];
      if a.Sent? then init + [a.handle] else init
  }

  /** The stages written, in order. */
  function StagesOf(trace: seq<Action>): seq<Stage> {
    if trace == [] then []
    else
      var init, a := StagesOf(trace[..|trace| - 1]), trace[|trace| - 1];
      if a.Wrote? then init + [a.event.stage] else init
  }

  /** The handles that a plan sends, and the stages that it writes. */
  function SendsIn(plan: Plan): seq<R.Handle> {
    match plan
    case Nothing => []
    case Then(before, Send(h)) => SendsIn(before) + [h]
    case Then(before, Write(_)) => SendsIn(before)
  }

  function StagesIn(plan: Plan): seq<Stage> {
    match plan
    case Nothing => []
    case Then(before, Send(_)) => StagesIn(before)
    case Then(before, Write(e)) => StagesIn(before) + [e.stage]
  }

  lemma SentSnoc(trace: seq<Action>, a: Action)
    ensures SentOf(trace + [a]) == SentOf(trace) + if a.Sent? then [a.handle] else []
    ensures StagesOf(trace + [a]) == StagesOf(trace) + if a.Wrote? then [a.event.stage] else []
  {
    assert (trace + [a])[..|trace|] == trace;
  }

  ghost predicate NeverFails(env: Env) { env.hasWriter && forall n :: !env.fails(n) }

  /** Failing writes lose nothing of the sends, and a writer that never fails
      puts every planned stage on record. */
  lemma {:induction false} PlayFollowsPlan(env: Env, plan: Plan)
    ensures SentOf(Play(env, plan).trace) == SendsIn(plan)
    ensures NeverFails(env) ==> StagesOf(Play(env, plan).trace) == StagesIn(plan)
  {
    match plan
    case Nothing =>
    case Then(before, item) =>
      PlayFollowsPlan(env, before);
      var log := Play(env, before);
      if item.Send? {
        SentSnoc(log.trace, Sent(item.handle));
      } else if env.hasWriter {
        SentSnoc(log.trace, if env.fails(log.writes) then WriteFailed(item.event) else Wrote(item.event));
      }
  }

  /** Stages of the send with number `i`, and of the first `n` sends. */
  function OneSend(env: Env, i: nat): seq<Stage> {
    [Dispatched, if env.send(i).SentOk? then Delivered else Deferred]
  }

  function SendStages(env: Env, n: nat): seq<Stage> {
    if n == 0 then [] else SendStages(env, n - 1) + OneSend(env, n - 1)
  }

  function Repeat(s: Stage, n: nat): seq<Stage> { if n == 0 then [] else Repeat(s, n - 1) + [s] }

  lemma TakeOneMore<T>(a: seq<T>, s: seq<T>, n: nat)
    requires 0 < n <= |s|
    ensures a + s[..n - 1] + [s[n - 1]] == a + s[..n]
  {}

  /** Recording skips goes on from what was done before. */
  lemma {:induction false} SkipsGrow(env: Env, opts: Opts, plan: Plan, ss: seq<R.Skip>, m: nat, n: nat)
    requires m <= n <= |ss|
    ensures Play(env, PlanSkips(opts, plan, ss, m)).trace <= Play(env, PlanSkips(opts, plan, ss, n)).trace
  {
    if m < n { SkipsGrow(env, opts, plan, ss, m, n - 1); }
  }

  lemma PlanOneSend(env: Env, plan: Plan, h: R.Handle, i: nat)
    ensures SendsIn(PlanSend(env, plan, h, i)) == SendsIn(plan) + [h]
    ensures StagesIn(PlanSend(env, plan, h, i)) == StagesIn(plan) + OneSend(env, i)
  {
    var one := Then(plan, Write(About(Dispatched, h, "")));
    assert StagesIn(one) == StagesIn(plan) + [Dispatched] && SendsIn(one) == SendsIn(plan);
    var two := Then(one, Send(h));
    assert StagesIn(two) == StagesIn(one) && SendsIn(two) == SendsIn(plan) + [h];
  }

  lemma {:induction false} PlanSendsFacts(env: Env, plan: Plan, hs: seq<R.Handle>, n: nat)
    requires n <= |hs|
    ensures SendsIn(PlanSends(env, plan, hs, n)) == SendsIn(plan) + hs[..n]
    ensures StagesIn(PlanSends(env, plan, hs, n)) == StagesIn(plan) + SendStages(env, n)
  {
    if n > 0 {
      PlanSendsFacts(env, plan, hs, n - 1);
      PlanOneSend(env, PlanSends(env, plan, hs, n - 1), hs[n - 1], n - 1);
      TakeOneMore(SendsIn(plan), hs, n);
      Regroup(StagesIn(plan), SendStages(env, n - 1), OneSend(env, n - 1));
    }
  }

  lemma {:induction false} PlanSkipsFacts(opts: Opts, plan: Plan, ss: seq<R.Skip>, n: nat)
    requires n <= |ss|
    ensures SendsIn(PlanSkips(opts, plan, ss, n)) == SendsIn(plan)
    ensures StagesIn(PlanSkips(opts, plan, ss, n)) == StagesIn(plan) + Repeat(Denied, n)
  {
    if n > 0 {
      PlanSkipsFacts(opts, plan, ss, n - 1);
      Regroup(StagesIn(plan), Repeat(Denied, n - 1), [Denied]);
    }
  }

  /** The resolver's result that a successful reply is about. */
  function ResolvedFor(env: Env, opts: Opts, body: Option<Body>): R.Resolution
    requires Dispatch(env, opts, body).1.Ok?
  {
    env.resolve(Effective(opts, body.value)).res
  }

  /** The plan of a request that gets through. */
  lemma PlanOfSuccess(env: Env, opts: Opts, body: Option<Body>)
    requires Dispatch(env, opts, body).1.Ok?
    ensures var plan, res := Dispatch(env, opts, body).0, ResolvedFor(env, opts, body);
      && SendsIn(plan) == res.recipients
      && StagesIn(plan) == [Received, Validated] + SendStages(env, |res.recipients|) + Repeat(Denied, |res.skipped|)
  {
    var b, res := Effective(opts, body.value), ResolvedFor(env, opts, body);
    var hs, gate := res.recipients, Gate(b, res);
    assert StagesIn(ARRIVED) == [Received];
    assert StagesIn(gate) == [Received, Validated] && SendsIn(gate) == [];
    PlanSendsFacts(env, gate, hs, |hs|);
    PlanSkipsFacts(opts, PlanSends(env, gate, hs, |hs|), res.skipped, |res.skipped|);
    assert hs[..|hs|] == hs;
  }

  lemma PlanOfRefusal(env: Env, opts: Opts, body: Option<Body>)
    requires Dispatch(env, opts, body).1.Error?
    ensures var plan := Dispatch(env, opts, body).0;
      && SendsIn(plan) == []
      && (WriteOk(env, 0) && WriteOk(env, 1) ==> StagesIn(plan) == [Received, Denied])
  {
    assert StagesIn(ARRIVED) == [Received] && SendsIn(ARRIVED) == [];
  }

  /** For every request, resolver, send outcome and pattern of failing writes: a
      successful reply means that exactly the resolved handles were sent, once
      each and in order; any other reply means that nothing was sent. */
  lemma EachHandleSentOnce(env: Env, opts: Opts, body: Option<Body>)
    ensures var (plan, reply) := Dispatch(env, opts, body);
      SentOf(Play(env, plan).trace) == if reply.Ok? then ResolvedFor(env, opts, body).recipients else []
  {
    var (plan, reply) := Dispatch(env, opts, body);
    PlayFollowsPlan(env, plan);
    if reply.Ok? { PlanOfSuccess(env, opts, body); } else { PlanOfRefusal(env, opts, body); }
  }

  /** With an audit writer, nothing is sent unless both `received` and `validated`
      were written first. */
  lemma NothingSentUnlogged(env: Env, opts: Opts, body: Option<Body>)
    requires env.hasWriter && SentOf(Play(env, Dispatch(env, opts, body).0).trace) != []
    ensures var (plan, reply) := Dispatch(env, opts, body);
      var trace := Play(env, plan).trace;
      && reply.Ok? && |trace| >= 2
      && trace[0] == Wrote(Plain(Received))
      && trace[1] == Wrote(ValidatedEvent(Effective(opts, body.value), ResolvedFor(env, opts, body)))
  {
    EachHandleSentOnce(env, opts, body);
    var b, res := Effective(opts, body.value), ResolvedFor(env, opts, body);
    var sends := PlanSends(env, Gate(b, res), res.recipients, |res.recipients|);
    GateTrace(env, b, res);
    SendsGrow(env, Gate(b, res), res.recipients, 0, |res.recipients|);
    SkipsGrow(env, opts, sends, res.skipped, 0, |res.skipped|);
  }

  lemma GateTrace(env: Env, b: Body, res: R.Resolution)
    requires env.hasWriter && WriteOk(env, 0) && WriteOk(env, 1)
    ensures Play(env, Gate(b, res)).trace == [Wrote(Plain(Received)), Wrote(ValidatedEvent(b, res))]
  {
    assert Play(env, ARRIVED) == Log([Wrote(Plain(Received))], 1);
  }

  /** With a writer that never fails the stages on record are received and denied,
      or received and validated, then dispatched with delivered or deferred for
      each recipient, then denied for each one skipped. */
  lemma ReliableTrace(env: Env, opts: Opts, body: Option<Body>)
    requires NeverFails(env)
    ensures var (plan, reply) := Dispatch(env, opts, body);
      StagesOf(Play(env, plan).trace) ==
        if reply.Error? then [Received, Denied]
        else
          var res := ResolvedFor(env, opts, body);
          [Received, Validated] + SendStages(env, |res.recipients|) + Repeat(Denied, |res.skipped|)
  {
    var (plan, reply) := Dispatch(env, opts, body);
    PlayFollowsPlan(env, plan);
    if reply.Ok? { PlanOfSuccess(env, opts, body); } else { PlanOfRefusal(env, opts, body); }
  }

  /** Sends among the first `n` that ended well. */
  function GoodSends(env: Env, n: nat): nat {
    if n == 0 then 0 else GoodSends(env, n - 1) + if env.send(n - 1).SentOk? then 1 else 0
  }

  /** A report line that tells how a send ended. */
  predicate Tells(r: Report, result: SendResult) {
    if result.SentOk? then r.status == DeliveredTo && r.reason == "" && r.messageId == result.messageId
    else r.status == FailedFor && r.reason == ErrorCode(result) && r.messageId == 0
  }

  lemma {:induction false} SendsCount(env: Env, hs: seq<R.Handle>, n: nat)
    requires n <= |hs|
    ensures var r := SendsResponse(env, hs, n);
      && r.delivered == GoodSends(env, n) && r.delivered + r.failed == n && r.skipped == 0
      && |r.reports| == n
  {
    if n > 0 { SendsCount(env, hs, n - 1); }
  }

  lemma SendsReport(env: Env, hs: seq<R.Handle>, n: nat, i: nat)
    requires i < n <= |hs|
    ensures var r := SendsResponse(env, hs, n);
      i < |r.reports| == n && r.reports[i].userId == hs[i].userId && Tells(r.reports[i], env.send(i))
  {
    SendsCount(env, hs, n);
    SendsCount(env, hs, i);
    ReportsGrow(env, hs, i + 1, n);
  }

  lemma {:induction false} ReportsGrow(env: Env, hs: seq<R.Handle>, m: nat, n: nat)
    requires m <= n <= |hs|
    ensures SendsResponse(env, hs, m).reports <= SendsResponse(env, hs, n).reports
  {
    if m < n { ReportsGrow(env, hs, m, n - 1); }
  }

  lemma {:induction false} SkipsCount(start: Response, ss: seq<R.Skip>, n: nat)
    requires n <= |ss|
    ensures var r := SkipsResponse(start, ss, n);
      && r.delivered == start.delivered && r.failed == start.failed && r.skipped == start.skipped + n
      && |r.reports| == |start.reports| + n && start.reports <= r.reports
      && forall i :: 0 <= i < n ==> r.reports[|start.reports| + i] == Report(ss[i].userId, SkippedFor, CodeText(ss[i].code), 0)
  {
    if n > 0 { SkipsCount(start, ss, n - 1); }
  }

  /** The counters of a successful reply: they add up to the report, delivered is
      the number of sends that ended well, skipped that of the resolver's skips,
      and the report tells of each recipient in order how its send ended, and then
      of each one skipped why. */
  lemma CountersAddUp(env: Env, opts: Opts, body: Option<Body>)
    requires Dispatch(env, opts, body).1.Ok?
    ensures var r, res := Dispatch(env, opts, body).1.resp, ResolvedFor(env, opts, body);
      var k := |res.recipients|;
      && r.delivered + r.failed + r.skipped == |r.reports| == k + |res.skipped|
      && r.delivered == GoodSends(env, k) && r.skipped == |res.skipped|
      && RightReports(r.reports, env, res)
  {
    var res := ResolvedFor(env, opts, body);
    var k := |res.recipients|;
    SendsCount(env, res.recipients, k);
    SkipsCount(SendsResponse(env, res.recipients, k), res.skipped, |res.skipped|);
    ReportsAreRight(env, res);
  }

  /** The lines of a report: how the send to each recipient ended, in order, and then
      why each of the others was skipped. */
  predicate RightReports(reports: seq<Report>, env: Env, res: R.Resolution) {
    var k := |res.recipients|;
    && |reports| == k + |res.skipped|
    && (forall i :: 0 <= i < k ==> reports[i].userId == res.recipients[i].userId && Tells(reports[i], env.send(i)))
    && (forall i :: 0 <= i < |res.skipped| ==>
          reports[k + i] == Report(res.skipped[i].userId, SkippedFor, CodeText(res.skipped[i].code), 0))
  }

  lemma ReportsAreRight(env: Env, res: R.Resolution)
    ensures var sent := SendsResponse(env, res.recipients, |res.recipients|);
      RightReports(SkipsResponse(sent, res.skipped, |res.skipped|).reports, env, res)
  {
    var k := |res.recipients|;
    var sent := SendsResponse(env, res.recipients, k);
    SendsCount(env, res.recipients, k);
    forall i | 0 <= i < k
      ensures sent.reports[i].userId == res.recipients[i].userId && Tells(sent.reports[i], env.send(i))
    {
      SendsReport(env, res.recipients, k, i);
    }
    ReportsGoOn(sent, env, res);
  }

  lemma ReportsGoOn(sent: Response, env: Env, res: R.Resolution)
    requires |sent.reports| == |res.recipients|
    requires forall i :: 0 <= i < |sent.reports| ==>
      sent.reports[i].userId == res.recipients[i].userId && Tells(sent.reports[i], env.send(i))
    ensures RightReports(SkipsResponse(sent, res.skipped, |res.skipped|).reports, env, res)
  {
    SkipsCount(sent, res.skipped, |res.skipped|);
  }

  function CountOf(stages: seq<Stage>, s: Stage): nat {
    if stages == [] then 0
    else CountOf(stages[..|stages| - 1], s) + if stages[|stages| - 1] == s then 1 else 0
  }

  lemma {:induction false} CountAdds(a: seq<Stage>, b: seq<Stage>, s: Stage)
    ensures CountOf(a + b, s) == CountOf(a, s) + CountOf(b, s)
    decreases |b|
  {
    if b == [] {
      assert a + b == a;
    } else {
      CountAdds(a, b[..|b| - 1], s);
      assert (a + b)[..|a + b| - 1] == a + b[..|b| - 1];
    }
  }

  lemma CountPair(x: Stage, y: Stage, s: Stage)
    ensures CountOf([x, y], s) == (if x == s then 1 else 0) + (if y == s then 1 else 0)
  {
    assert [x, y][..1] == [x];
    assert CountOf([x], s) == CountOf([], s) + if x == s then 1 else 0;
  }

  function SendCount(env: Env, n: nat, s: Stage): int {
    match s
    case Dispatched => n
    case Delivered => GoodSends(env, n)
    case Deferred => n - GoodSends(env, n)
    case _ => 0
  }

  lemma {:induction false} CountSends(env: Env, n: nat, s: Stage)
    ensures CountOf(SendStages(env, n), s) == SendCount(env, n, s)
  {
    if n > 0 {
      CountSends(env, n - 1, s);
      CountAdds(SendStages(env, n - 1), OneSend(env, n - 1), s);
      CountPair(Dispatched, if env.send(n - 1).SentOk? then Delivered else Deferred, s);
    }
  }

  lemma {:induction false} CountRepeat(n: nat, s: Stage)
    ensures CountOf(Repeat(Denied, n), s) == if s == Denied then n else 0
  {
    if n > 0 {
      CountRepeat(n - 1, s);
      assert Repeat(Denied, n)[..n - 1] == Repeat(Denied, n - 1) by { RepeatLength(n - 1); }
    }
  }

  lemma {:induction false} RepeatLength(n: nat)
    ensures |Repeat(Denied, n)| == n
  {
    if n > 0 { RepeatLength(n - 1); }
  }

  /** With a writer that never fails, the audit trail and the reply count alike:
      every send was announced, and delivered, deferred and denied events are as
      many as the reply says. */
  lemma TraceMatchesCounters(env: Env, opts: Opts, body: Option<Body>)
    requires NeverFails(env) && Dispatch(env, opts, body).1.Ok?
    ensures var (plan, reply) := Dispatch(env, opts, body);
      var stages := StagesOf(Play(env, plan).trace);
      && CountOf(stages, Dispatched) == |SentOf(Play(env, plan).trace)|
      && CountOf(stages, Delivered) == reply.resp.delivered
      && CountOf(stages, Deferred) == reply.resp.failed
      && CountOf(stages, Denied) == reply.resp.skipped
  {
    ReliableTrace(env, opts, body);
    EachHandleSentOnce(env, opts, body);
    CountersAddUp(env, opts, body);
    var res := ResolvedFor(env, opts, body);
    CountTrace(env, |res.recipients|, |res.skipped|, Dispatched);
    CountTrace(env, |res.recipients|, |res.skipped|, Delivered);
    CountTrace(env, |res.recipients|, |res.skipped|, Deferred);
    CountTrace(env, |res.recipients|, |res.skipped|, Denied);
  }

  lemma CountTrace(env: Env, n: nat, m: nat, s: Stage)
    requires s != Received && s != Validated
    ensures CountOf([Received, Validated] + SendStages(env, n) + Repeat(Denied, m), s) ==
            SendCount(env, n, s) + if s == Denied then m else 0
  {
    CountAdds([Received, Validated] + SendStages(env, n), Repeat(Denied, m), s);
    CountAdds([Received, Validated], SendStages(env, n), s);
    CountPair(Received, Validated, s);
    CountSends(env, n, s);
    CountRepeat(m, s);
  }

  // ---- which requests get through ----

  /** What an endpoint asks of a request. */
  predicate InOrder(opts: Opts, b: Body) {
    && b.schemaVersion == 1 && b.text != ""
    && (opts.requireAppId ==> b.appId != "") && (opts.requireRecipients ==> b.recipients != [])
  }

  /** The body that the resolver sees: without its grade unless the endpoint takes one. */
  predicate SeenAs(opts: Opts, b: Body, seen: Body) {
    && seen.recipients == b.recipients && seen.appId == b.appId && seen.text == b.text
    && seen.schemaVersion == b.schemaVersion
    && (if opts.allowMinGrade then seen.minGrade == b.minGrade else seen.minGrade == "")
  }

  /** A request succeeds if and only if it can be read and is in order, both of the
      writes before the first send succeed where there is a writer, and the resolver
      resolves what it sees; it fails for the audit trail if and only if there is a
      writer and one of those writes fails when its turn has come. */
  lemma SucceedsIff(env: Env, opts: Opts, body: Option<Body>, seen: Body)
    requires body.Some? ==> SeenAs(opts, body.value, seen)
    ensures var reply, readable := Dispatch(env, opts, body).1, body.Some? && InOrder(opts, body.value);
      var fails0, fails1 := env.hasWriter && env.fails(0), env.hasWriter && env.fails(1);
      && (reply.Ok? <==> readable && !fails0 && env.resolve(seen).Resolved? && !fails1)
      && (reply == Error("audit_unavailable") <==> fails0 || (readable && env.resolve(seen).Resolved? && fails1))
      && (reply.Ok? ==> ResolvedFor(env, opts, body) == env.resolve(seen).res)
      && (readable && !fails0 && !env.resolve(seen).Resolved? ==>
            reply == Error(match env.resolve(seen)
                           case AppNotFound => "app_not_found"
                           case EmptyRecipients => "empty_recipients"
                           case _ => "resolver_error"))
  {
    if body.Some? { assert Effective(opts, body.value) == seen; }
  }

  /** The refusal of a request that can be recorded tells the first thing wrong with it. */
  lemma RefusalTellsWhy(env: Env, opts: Opts, body: Option<Body>)
    requires !(env.hasWriter && env.fails(0))
    ensures var reply := Dispatch(env, opts, body).1;
      && (body.None? <==> reply == Error("malformed_json"))
      && (body.Some? && !InOrder(opts, body.value) ==>
            var b := body.value;
            reply == Error(
              if b.schemaVersion == 0 then "missing_envelope_version"
              else if b.schemaVersion != 1 then "unsupported_envelope_version"
              else if b.text == "" then "empty_envelope_text"
              else if b.appId == "" && opts.requireAppId then "missing_app_id"
              else "empty_recipients"))
  {
  }

  /** Where an endpoint takes no grade, the one in the request makes no difference. */
  lemma GradeOnlyWhereTaken(env: Env, opts: Opts, b: Body, grade: string)
    requires !opts.allowMinGrade
    ensures Dispatch(env, opts, Some(b.(minGrade := grade))) == Dispatch(env, opts, Some(b))
  {
    assert Effective(opts, b.(minGrade := grade)) == Effective(opts, b);
  }

  /** What failed, read from the code in an event or a report. */
  function FailureNamed(code: string): SendResult {
    if code == "chat_not_found" then ChatNotFound
    else if code == "bot_not_admin" then BotNotAdmin
    else if code == "telegram_rate_limited" then RateLimited
    else if code == "telegram_auth_failed" then TelegramAuth
    else OtherError
  }

  lemma CodeTellsFailure(r: SendResult)
    ensures !r.SentOk? ==> FailureNamed(ErrorCode(r)) == r
  {
  }

  /** Why somebody was skipped, read from the code. */
  function SkipNamed(code: string): Option<R.Code> {
    if code == "unknown_recipient" then Some(R.UnknownRecipient)
    else if code == "recipient_inactive" then Some(R.RecipientInactive)
    else if code == "recipient_not_subscribed" then Some(R.NotSubscribed)
    else if code == "recipient_not_linked" then Some(R.NotLinked)
    else if code == "bot_not_admin" then Some(R.BotNotAdmin)
    else if code == "recipient_topic_missing" then Some(R.TopicMissing)
    else if code == "grade_insufficient" then Some(R.GradeInsufficient)
    else None
  }

  lemma CodeTellsSkip(c: R.Code)
    ensures SkipNamed(CodeText(c)) == Some(c)
  {
  }

  // ---- what the audit trail says of whom ----

  predicate IsAbout(e: Event, h: R.Handle) {
    e.userId == h.userId && e.chatId == h.chatId && e.channel == Some(h.channel)
  }

  predicate Announces(a: Action, h: R.Handle) {
    a.Wrote? && a.event.stage == Dispatched && IsAbout(a.event, h) && a.event.code == ""
  }

  predicate Concludes(a: Action, h: R.Handle, result: SendResult) {
    && a.Wrote? && IsAbout(a.event, h)
    && if result.SentOk? then a.event.stage == Delivered && a.event.code == ""
       else a.event.stage == Deferred && a.event.code == ErrorCode(result)
  }

  predicate Excuses(a: Action, opts: Opts, s: R.Skip) {
    && a.Wrote? && a.event.stage == Denied && a.event.userId == s.userId && a.event.chatId == 0
    && a.event.channel == Some(opts.defaultChannel) && a.event.code == CodeText(s.code)
  }

  /** From `at` on: an announcement of `h`, the send, and how it ended. */
  predicate ToldAt(trace: seq<Action>, at: nat, h: R.Handle, result: SendResult) {
    at + 2 < |trace| && Announces(trace[at], h) && trace[at + 1] == Sent(h) && Concludes(trace[at + 2], h, result)
  }

  lemma OneSendIsTold(env: Env, plan: Plan, h: R.Handle, i: nat)
    requires NeverFails(env)
    ensures var before, after := Play(env, plan).trace, Play(env, PlanSend(env, plan, h, i)).trace;
      before <= after && |after| == |before| + 3 && ToldAt(after, |before|, h, env.send(i))
  {
    var log := Play(env, plan);
    PlayOneSend(env, plan, h, i);
    assert Record(env, log, Write(About(Dispatched, h, ""))).trace == log.trace + [Wrote(About(Dispatched, h, ""))];
  }

  lemma ToldStays(trace: seq<Action>, longer: seq<Action>, at: nat, h: R.Handle, result: SendResult)
    requires trace <= longer && ToldAt(trace, at, h, result)
    ensures ToldAt(longer, at, h, result)
  {
  }

  lemma SendsAreTold(env: Env, plan: Plan, hs: seq<R.Handle>, n: nat, i: nat, base: nat)
    requires NeverFails(env) && i < n <= |hs| && base == |Play(env, plan).trace|
    ensures ToldAt(Play(env, PlanSends(env, plan, hs, n)).trace, base + 3 * i, hs[i], env.send(i))
  {
    SendIsTold(env, plan, hs, i, base);
    SendsGrow(env, plan, hs, i + 1, n);
    ToldStays(Play(env, PlanSends(env, plan, hs, i + 1)).trace, Play(env, PlanSends(env, plan, hs, n)).trace, base + 3 * i,
              hs[i], env.send(i));
  }

  lemma SendIsTold(env: Env, plan: Plan, hs: seq<R.Handle>, i: nat, base: nat)
    requires NeverFails(env) && i < |hs| && base == |Play(env, plan).trace|
    ensures ToldAt(Play(env, PlanSends(env, plan, hs, i + 1)).trace, base + 3 * i, hs[i], env.send(i))
  {
    SendsLength(env, plan, hs, i, base);
    OneSendIsTold(env, PlanSends(env, plan, hs, i), hs[i], i);
  }

  lemma {:induction false} SendsGrow(env: Env, plan: Plan, hs: seq<R.Handle>, m: nat, n: nat)
    requires m <= n <= |hs|
    ensures Play(env, PlanSends(env, plan, hs, m)).trace <= Play(env, PlanSends(env, plan, hs, n)).trace
  {
    if m < n {
      SendsGrow(env, plan, hs, m, n - 1);
      PlayOneSend(env, PlanSends(env, plan, hs, n - 1), hs[n - 1], n - 1);
    }
  }

  lemma {:induction false} SendsLength(env: Env, plan: Plan, hs: seq<R.Handle>, n: nat, base: nat)
    requires NeverFails(env) && n <= |hs| && base == |Play(env, plan).trace|
    ensures |Play(env, PlanSends(env, plan, hs, n)).trace| == base + 3 * n
  {
    if n > 0 {
      SendsLength(env, plan, hs, n - 1, base);
      OneSendIsTold(env, PlanSends(env, plan, hs, n - 1), hs[n - 1], n - 1);
    }
  }

  lemma {:induction false} SkipsLength(env: Env, opts: Opts, plan: Plan, ss: seq<R.Skip>, n: nat, base: nat)
    requires NeverFails(env) && n <= |ss| && base == |Play(env, plan).trace|
    ensures |Play(env, PlanSkips(opts, plan, ss, n)).trace| == base + n
  {
    if n > 0 { SkipsLength(env, opts, plan, ss, n - 1, base); }
  }

  lemma SkipIsTold(env: Env, opts: Opts, plan: Plan, ss: seq<R.Skip>, n: nat, i: nat, base: nat)
    requires NeverFails(env) && i < n <= |ss| && base == |Play(env, plan).trace|
    ensures var trace := Play(env, PlanSkips(opts, plan, ss, n)).trace;
      base + i < |trace| && Excuses(trace[base + i], opts, ss[i])
  {
    SkipsLength(env, opts, plan, ss, i, base);
    var before, after := Play(env, PlanSkips(opts, plan, ss, i)).trace, Play(env, PlanSkips(opts, plan, ss, i + 1)).trace;
    assert after == before + [Wrote(SkipEvent(opts, ss[i]))];
    SkipsGrow(env, opts, plan, ss, i + 1, n);
  }

  lemma SkipsAreTold(env: Env, opts: Opts, plan: Plan, ss: seq<R.Skip>, told: seq<Action>)
    requires NeverFails(env) && told == Play(env, plan).trace
    ensures var trace := Play(env, PlanSkips(opts, plan, ss, |ss|)).trace;
      && |trace| == |told| + |ss| && told <= trace
      && forall i :: 0 <= i < |ss| ==> Excuses(trace[|told| + i], opts, ss[i])
  {
    SkipsLength(env, opts, plan, ss, |ss|, |told|);
    SkipsGrow(env, opts, plan, ss, 0, |ss|);
    forall i | 0 <= i < |ss|
      ensures Excuses(Play(env, PlanSkips(opts, plan, ss, |ss|)).trace[|told| + i], opts, ss[i])
    {
      SkipIsTold(env, opts, plan, ss, |ss|, i, |told|);
    }
  }

  /** A complete and right audit trail: received; validated, with the numbers of
      requested, resolved and skipped; for each recipient in order an announcement,
      the send, and its end, each about that user in that chat; and for each skip in
      order its reason. */
  predicate RightTrail(trace: seq<Action>, env: Env, opts: Opts, requested: nat, res: R.Resolution) {
    var k := |res.recipients|;
    && |trace| == 2 + 3 * k + |res.skipped|
    && RightStart(trace, requested, res)
    && (forall i :: 0 <= i < k ==> ToldAt(trace, 2 + 3 * i, res.recipients[i], env.send(i)))
    && (forall i :: 0 <= i < |res.skipped| ==> Excuses(trace[2 + 3 * k + i], opts, res.skipped[i]))
  }

  predicate RightStart(trace: seq<Action>, requested: nat, res: R.Resolution) {
    && |trace| >= 2
    && trace[0].Wrote? && trace[0].event.stage == Received
    && trace[1].Wrote? && trace[1].event.stage == Validated
    && trace[1].event.counts == Some((requested, |res.recipients|, |res.skipped|))
  }

  /** With a writer that never fails, such is the trail of every successful request. */
  lemma TrailIsRight(env: Env, opts: Opts, body: Option<Body>)
    requires NeverFails(env) && Dispatch(env, opts, body).1.Ok?
    ensures RightTrail(Play(env, Dispatch(env, opts, body).0).trace, env, opts, |body.value.recipients|,
                       ResolvedFor(env, opts, body))
  {
    var b, res := Effective(opts, body.value), ResolvedFor(env, opts, body);
    PlanTellsAll(env, opts, b, res);
  }

  lemma PlanTellsAll(env: Env, opts: Opts, b: Body, res: R.Resolution)
    requires NeverFails(env)
    ensures var sends := PlanSends(env, Gate(b, res), res.recipients, |res.recipients|);
      var plan := PlanSkips(opts, sends, res.skipped, |res.skipped|);
      RightTrail(Play(env, plan).trace, env, opts, |b.recipients|, res)
  {
    SendsTellAll(env, b, res);
    SkipsTellTheRest(env, opts, PlanSends(env, Gate(b, res), res.recipients, |res.recipients|), |b.recipients|, res);
  }

  lemma SkipsTellTheRest(env: Env, opts: Opts, sends: Plan, requested: nat, res: R.Resolution)
    requires NeverFails(env)
    requires var told := Play(env, sends).trace;
      && |told| == 2 + 3 * |res.recipients| && RightStart(told, requested, res)
      && forall i :: 0 <= i < |res.recipients| ==> ToldAt(told, 2 + 3 * i, res.recipients[i], env.send(i))
    ensures RightTrail(Play(env, PlanSkips(opts, sends, res.skipped, |res.skipped|)).trace, env, opts, requested, res)
  {
    var told := Play(env, sends).trace;
    SkipsAreTold(env, opts, sends, res.skipped, told);
    TrailGoesOn(told, Play(env, PlanSkips(opts, sends, res.skipped, |res.skipped|)).trace, env, opts, requested, res);
  }

  lemma TrailGoesOn(told: seq<Action>, trace: seq<Action>, env: Env, opts: Opts, requested: nat, res: R.Resolution)
    requires told <= trace && |told| == 2 + 3 * |res.recipients| && |trace| == |told| + |res.skipped|
    requires RightStart(told, requested, res)
    requires forall i :: 0 <= i < |res.recipients| ==> ToldAt(told, 2 + 3 * i, res.recipients[i], env.send(i))
    requires forall i :: 0 <= i < |res.skipped| ==> Excuses(trace[|told| + i], opts, res.skipped[i])
    ensures RightTrail(trace, env, opts, requested, res)
  {
    forall i | 0 <= i < |res.recipients|
      ensures ToldAt(trace, 2 + 3 * i, res.recipients[i], env.send(i))
    {
      ToldStays(told, trace, 2 + 3 * i, res.recipients[i], env.send(i));
    }
  }

  lemma SendsTellAll(env: Env, b: Body, res: R.Resolution)
    requires NeverFails(env)
    ensures var k := |res.recipients|;
      var trace := Play(env, PlanSends(env, Gate(b, res), res.recipients, k)).trace;
      && |trace| == 2 + 3 * k && RightStart(trace, |b.recipients|, res)
      && forall i :: 0 <= i < k ==> ToldAt(trace, 2 + 3 * i, res.recipients[i], env.send(i))
  {
    var k, gate := |res.recipients|, Gate(b, res);
    GateTrace(env, b, res);
    SendsGrow(env, gate, res.recipients, 0, k);
    SendsLength(env, gate, res.recipients, k, 2);
    var trace := Play(env, PlanSends(env, gate, res.recipients, k)).trace;
    forall i | 0 <= i < k
      ensures ToldAt(trace, 2 + 3 * i, res.recipients[i], env.send(i))
    {
      SendsAreTold(env, gate, res.recipients, k, i, 2);
    }
  }
}
