/** App registration with versioned capability sets: the four admin transactions
    (internal/api/handlers/admin_apps.go), key resolution on one snapshot
    (internal/auth/store.go) and the admin UI's form diff (internal/adminui/apps.go). */
module Apps {
  import opened Options
  import opened Sequences

  /** Capability names; `Unknown` stands for every other string. */
  datatype Capability =
    | DirectSend | DirectDm | TopicSend | BroadcastSend | NoopInvoke
    | AppsRegister | UsersPromote | UsersDeactivate | AuditSearch | AuditFreeze
    | Unknown(name: string)

  predicate Forbidden(c: Capability) {
    c.AppsRegister? || c.UsersPromote? || c.UsersDeactivate? || c.AuditSearch? || c.AuditFreeze?
  }

  predicate Grantable(c: Capability) {
    c.DirectSend? || c.DirectDm? || c.TopicSend? || c.BroadcastSend? || c.NoopInvoke?
  }

  datatype App = App(name: string, description: string, minGrade: string, active: bool, version: int, createdBy: string)

  /** The apps table and, per app, its capability rows. */
  datatype Db = Db(apps: map<string, App>, caps: map<string, set<Capability>>)

  function CapsOf(db: Db, id: string): set<Capability> {
    if id in db.caps then db.caps[id] else {}
  }

  /** Capability rows reference an existing app. */
  predicate ForeignKeys(db: Db) { forall id :: id in db.caps ==> id in db.apps }

  datatype PatchFields = PatchFields(description: Option<string>, minGrade: Option<string>, active: Option<bool>,
                                     add: seq<Capability>, remove: seq<Capability>)

  /** Where the database fails a transaction, which is then rolled back: when it
      begins, at its first statement, or at any later one including the commit. */
  datatype Fault = NoFault | AtBegin | AtFirst | Later

  /** A request. */
  datatype Op =
    | Create(requester: Option<string>, id: string, name: string, description: string, minGrade: string,
             caps: seq<Capability>, fault: Fault)
    | Patch(id: string, fields: PatchFields, fault: Fault)
    | Delete(id: string, fault: Fault)
    | Purge(id: string, fault: Fault)

  datatype Reply = Done | Refused(code: string)

  predicate ValidGrade(g: string) { g == "user" || g == "developer" || g == "admin" }

  predicate ValidAppId(id: string) {
    && 3 <= |id| <= 64
    && (forall i :: 0 <= i < |id| ==> IdChar(id[i]) || (i > 0 && (id[i] == '_' || id[i] == '-')))
  }

  predicate IdChar(c: char) { 'a' <= c <= 'z' || '0' <= c <= '9' }

  /** The refusal of a list of capabilities to grant, "" if all may be granted. */
  function GrantCode(cs: seq<Capability>): (code: string)
    ensures code == "" <==> forall c :: c in cs ==> Grantable(c)
    ensures code == "" || code == "forbidden_capability" || code == "unknown_capability"
  {
    if cs == [] then ""
    else
      assert cs[0] in cs;
      if Forbidden(cs[0]) then "forbidden_capability"
      else if !Grantable(cs[0]) then "unknown_capability"
      else GrantCode(cs[1..])
  }

  function ToSet<T>(s: seq<T>): set<T> { set x | x in s }

  function GetOr<T>(o: Option<T>, default: T): T { if o.Some? then o.value else default }

  function PatchApp(a: App, f: PatchFields): App {
    var changed := f.add != [] || f.remove != [];
    App(a.name, GetOr(f.description, a.description), GetOr(f.minGrade, a.minGrade), GetOr(f.active, a.active),
        if changed then a.version + 1 else a.version, a.createdBy)
  }

  /** One request as one atomic transaction. */
  function Exec(db: Db, op: Op): (Db, Reply) {
    match op
    case Create(requester, id, name, description, minGrade, caps, fault) =>
      if id == "" || name == "" then (db, Refused("missing_required_fields"))
      else if !ValidAppId(id) then (db, Refused("invalid_app_id"))
      else if minGrade != "" && !ValidGrade(minGrade) then (db, Refused("invalid_min_grade"))
      else if GrantCode(caps) != "" then (db, Refused(GrantCode(caps)))
      else if fault.AtBegin? then (db, Refused("db_error"))
      else if id in db.apps || fault.AtFirst? then (db, Refused("app_already_exists"))
      else if fault.Later? then (db, Refused("db_error"))
      else
        var app := App(name, description, if minGrade == "" then "user" else minGrade, true, 1, GetOr(requester, ""));
        (Db(db.apps[id := app], db.caps[id := CapsOf(db, id) + ToSet(caps)]), Done)
    case Patch(id, f, fault) =>
      if f.minGrade.Some? && !ValidGrade(f.minGrade.value) then (db, Refused("invalid_min_grade"))
      else if GrantCode(f.add) != "" then (db, Refused(GrantCode(f.add)))
      else if fault.AtBegin? then (db, Refused("db_error"))
      else if id !in db.apps || fault.AtFirst? then (db, Refused("app_not_found"))
      else if fault.Later? then (db, Refused("db_error"))
      else
        (Db(db.apps[id := PatchApp(db.apps[id], f)],
            db.caps[id := CapsOf(db, id) + ToSet(f.add) - ToSet(f.remove)]), Done)
    case Delete(id, fault) =>
      if fault.AtBegin? || fault.AtFirst? then (db, Refused("db_error"))
      else if id !in db.apps then (db, Refused("app_not_found"))
      else if fault.Later? then (db, Refused("db_error"))
      else
        var a := db.apps[id];
        (db.(apps := db.apps[id := a.(active := false, version := a.version + 1)]), Done)
    case Purge(id, fault) =>
      if fault.AtBegin? || fault.AtFirst? then (db, Refused("db_error"))
      else if id !in db.apps then (db, Refused("app_not_found"))
      else if fault.Later? then (db, Refused("db_error"))
      else (Db(db.apps - {id}, db.caps - {id}), Done)
  }

  method ValidateCapabilityGrant(cs: seq<Capability>) returns (code: string)
    ensures code == GrantCode(cs)
  {
    var i := 0;
    while i < |cs|
      invariant 0 <= i <= |cs| && GrantCode(cs) == GrantCode(cs[i..])
    {
      if Forbidden(cs[i]) { return "forbidden_capability"; }
      if !Grantable(cs[i]) { return "unknown_capability"; }
      assert cs[i..][1..] == cs[i + 1..];
      i := i + 1;
    }
    code := "";
  }

  class AdminApps {
    var apps: map<string, App>
    var caps: map<string, set<Capability>>

    ghost function View(): Db
      reads this
    {
      Db(apps, caps)
    }

    /** `INSERT ... ON CONFLICT DO NOTHING` for each capability. */
    method InsertCapabilities(id: string, cs: seq<Capability>)
      modifies this`caps
      ensures caps == old(caps)[id := CapsOf(old(View()), id) + ToSet(cs)]
    {
      var rows := if id in caps then caps[id] else {};
      var i := 0;
      while i < |cs|
        invariant 0 <= i <= |cs| && caps == old(caps)
        invariant rows == CapsOf(old(View()), id) + ToSet(cs[..i])
      {
        assert cs[..i + 1] == cs[..i] + [cs[i]];
        rows := rows + {cs[i]};
        i := i + 1;
      }
      assert cs[..i] == cs;
      caps := caps[id := rows];
    }

    method DeleteCapabilities(id: string, cs: seq<Capability>)
      modifies this`caps
      ensures caps == old(caps)[id := CapsOf(old(View()), id) - ToSet(cs)]
    {
      var rows := if id in caps then caps[id] else {};
      var i := 0;
      while i < |cs|
        invariant 0 <= i <= |cs| && caps == old(caps)
        invariant rows == CapsOf(old(View()), id) - ToSet(cs[..i])
      {
        assert cs[..i + 1] == cs[..i] + [cs[i]];
        rows := rows - {cs[i]};
        i := i + 1;
      }
      assert cs[..i] == cs;
      caps := caps[id := rows];
    }

    method CreateApp(requester: Option<string>, id: string, name: string, description: string, minGrade: string,
                     cs: seq<Capability>, fault: Fault)
      returns (r: Reply)
      modifies this
      ensures (View(), r) == Exec(old(View()), Create(requester, id, name, description, minGrade, cs, fault))
    {
      if id == "" || name == "" { return Refused("missing_required_fields"); }
      if !ValidAppId(id) { return Refused("invalid_app_id"); }
      if minGrade != "" && !ValidGrade(minGrade) { return Refused("invalid_min_grade"); }
      var code := ValidateCapabilityGrant(cs);
      if code != "" { return Refused(code); }
      if fault.AtBegin? { return Refused("db_error"); }
      if id in apps || fault.AtFirst? { return Refused("app_already_exists"); }
      if fault.Later? { return Refused("db_error"); }
      InsertCapabilities(id, cs);
      var createdBy := "";
      if requester.Some? { createdBy := requester.value; }
      apps := apps[id := App(name, description, if minGrade == "" then "user" else minGrade, true, 1, createdBy)];
      return Done;
    }

    method PatchAppById(id: string, f: PatchFields, fault: Fault) returns (r: Reply)
      modifies this
      ensures (View(), r) == Exec(old(View()), Patch(id, f, fault))
    {
      if f.minGrade.Some? && !ValidGrade(f.minGrade.value) { return Refused("invalid_min_grade"); }
      var code := ValidateCapabilityGrant(f.add);
      if code != "" { return Refused(code); }
      if fault.AtBegin? { return Refused("db_error"); }
      if id !in apps || fault.AtFirst? { return Refused("app_not_found"); }
      if fault.Later? { return Refused("db_error"); }
      var a := apps[id];
      if f.description.Some? { a := a.(description := f.description.value); }
      if f.minGrade.Some? { a := a.(minGrade := f.minGrade.value); }
      if f.active.Some? { a := a.(active := f.active.value); }
      InsertCapabilities(id, f.add);
      DeleteCapabilities(id, f.remove);
      assert caps == old(caps)[id := CapsOf(old(View()), id) + ToSet(f.add) - ToSet(f.remove)];
      if |f.add| > 0 || |f.remove| > 0 { a := a.(version := a.version + 1); }
      apps := apps[id := a];
      return Done;
    }

    method DeleteApp(id: string, fault: Fault) returns (r: Reply)
      modifies this
      ensures (View(), r) == Exec(old(View()), Delete(id, fault))
    {
      if fault.AtBegin? || fault.AtFirst? { return Refused("db_error"); }
      if id !in apps { return Refused("app_not_found"); }
      if fault.Later? { return Refused("db_error"); }
      apps := apps[id := apps[id].(active := false, version := apps[id].version + 1)];
      return Done;
    }

    method PurgeApp(id: string, fault: Fault) returns (r: Reply)
      modifies this
      ensures (View(), r) == Exec(old(View()), Purge(id, fault))
    {
      if fault.AtBegin? || fault.AtFirst? { return Refused("db_error"); }
      if id !in apps { return Refused("app_not_found"); }
      if fault.Later? { return Refused("db_error"); }
      apps := apps - {id};
      caps := caps - {id};
      return Done;
    }
  }

  // ---- histories ----

  function Run(db: Db, ops: seq<Op>): Db
    decreases |ops|
  {
    if ops == [] then db else Exec(Run(db, ops[..|ops| - 1]), ops[|ops| - 1]).0
  }

  function Management(cs: set<Capability>): set<Capability> { set c | c in cs && Forbidden(c) }

  /** The app exists throughout: one lifetime, not purged in between. */
  predicate Lives(db: Db, ops: seq<Op>, id: string) {
    forall k :: 0 <= k <= |ops| ==> id in Run(db, ops[..k]).apps
  }

  /** What one snapshot may show after another of the same lifetime. */
  predicate Later(a: Db, b: Db, id: string)
    requires id in a.apps && id in b.apps
  {
    && a.apps[id].version <= b.apps[id].version
    && (a.apps[id].version == b.apps[id].version ==> CapsOf(a, id) == CapsOf(b, id))
  }

  lemma StepIsLater(db: Db, op: Op, id: string)
    requires id in db.apps && id in Exec(db, op).0.apps
    ensures Later(db, Exec(db, op).0, id)
  {
    if op.Patch? && op.id == id && op.fields.add == [] && op.fields.remove == [] {
      assert CapsOf(db, id) + ToSet<Capability>([]) - ToSet<Capability>([]) == CapsOf(db, id);
    }
  }

  /** Over every history, within one lifetime of an app: the version never goes
      back, and it determines the capability set. */
  lemma {:induction false} VersionDeterminesCapabilities(db: Db, ops: seq<Op>, id: string)
    requires Lives(db, ops, id)
    ensures id in db.apps && id in Run(db, ops).apps && Later(db, Run(db, ops), id)
    decreases |ops|
  {
    assert ops[..|ops|] == ops && ops[..0] == [];
    assert id in Run(db, ops[..|ops|]).apps && id in Run(db, ops[..0]).apps;
    if ops != [] {
      var init := ops[..|ops| - 1];
      assert Lives(db, init, id) by {
        forall k | 0 <= k <= |init| ensures id in Run(db, init[..k]).apps {
          assert init[..k] == ops[..k];
          assert id in Run(db, ops[..k]).apps;
        }
      }
      VersionDeterminesCapabilities(db, init, id);
      StepIsLater(Run(db, init), ops[|ops| - 1], id);
    }
  }

  lemma StepKeepsForeignKeys(db: Db, op: Op)
    requires ForeignKeys(db)
    ensures ForeignKeys(Exec(db, op).0)
  {
  }

  lemma StepShrinksManagement(db: Db, op: Op, id: string)
    requires ForeignKeys(db)
    ensures Management(CapsOf(Exec(db, op).0, id)) <= Management(CapsOf(db, id))
  {
    assert forall c :: c in CapsOf(Exec(db, op).0, id) ==> c in CapsOf(db, id) || Grantable(c);
  }

  /** Management capabilities only ever shrink, even across purge and re-creation;
      so an app that the API created never holds one. */
  lemma {:induction false} ManagementOnlyShrinks(db: Db, ops: seq<Op>, id: string)
    requires ForeignKeys(db)
    ensures ForeignKeys(Run(db, ops))
    ensures Management(CapsOf(Run(db, ops), id)) <= Management(CapsOf(db, id))
    ensures id !in db.apps ==> Management(CapsOf(Run(db, ops), id)) == {}
    decreases |ops|
  {
    if ops != [] {
      var init := ops[..|ops| - 1];
      ManagementOnlyShrinks(db, init, id);
      StepKeepsForeignKeys(Run(db, init), ops[|ops| - 1]);
      StepShrinksManagement(Run(db, init), ops[|ops| - 1], id);
    }
  }

  // ---- key resolution ----

  datatype KeyRow = KeyRow(appId: string, hash: string, prefix: string, revoked: bool)

  datatype KeyCheck = Matches | Differs | Malformed

  datatype Identity = Identity(appId: string, caps: set<Capability>, version: int, prefix: string)

  datatype Resolved = Resolved(id: Identity) | BearerMalformed | KeyNotFound | DbError

  /** Where the database fails a resolution: at the start, when row `i` is read,
      after the rows, when capabilities are loaded, or at the commit. */
  datatype ReadFault = Healthy | AtQuery | AtRow(i: nat) | AtRowsEnd | AtCapabilities | AtEnd

  /** The key prefix of a bearer token `tg_<prefix>_<secret>`. */
  function ParseBearer(token: string): Option<string> {
    if |token| < 3 || token[..3] != "tg_" then None
    else
      var rest := token[3..];
      var i := IndexOf(rest, '_');
      if i == 0 || i >= |rest| - 1 then None else Some(rest[..i])
  }

  /** A token parses exactly if it is `tg_`, a prefix without underscore, an
      underscore and a secret, both non-empty; and then it yields that prefix. */
  lemma ParseBearerForm(prefix: string, secret: string)
    requires '_' !in prefix
    ensures ParseBearer("tg_" + prefix + "_" + secret) ==
      if prefix != "" && secret != "" then Some(prefix) else None
  {
    var token := "tg_" + prefix + "_" + secret;
    var rest := prefix + "_" + secret;
    assert token[..3] == "tg_" && token[3..] == rest;
    assert forall k :: 0 <= k < |prefix| ==> rest[k] == prefix[k] && prefix[k] in prefix;
    assert rest[|prefix|] == '_';
    assert rest[..|prefix|] == prefix;
  }

  /** A row of the key query. */
  predicate Candidate(db: Db, prefix: string, k: KeyRow) {
    k.prefix == prefix && !k.revoked && k.appId in db.apps && db.apps[k.appId].active
  }

  /** A key row that lets a bearer in: live, of an active app, with its hash. */
  predicate Admits(db: Db, check: (string, string) -> KeyCheck, bearer: string, k: KeyRow) {
    ParseBearer(bearer) == Some(k.prefix) && Candidate(db, k.prefix, k) && check(bearer, k.hash) == Matches
  }

  /** The fault comes up before the answer is complete. */
  predicate Hits(db: Db, keys: seq<KeyRow>, check: (string, string) -> KeyCheck, bearer: string, fault: ReadFault) {
    match fault
    case Healthy => false
    case AtQuery => true
    case AtRow(i) =>
      && i < |keys| && ParseBearer(bearer) == Some(keys[i].prefix) && Candidate(db, keys[i].prefix, keys[i])
      && forall n :: 0 <= n < i ==> !Admits(db, check, bearer, keys[n])
    case AtRowsEnd => true
    case _ => exists k :: k in keys && Admits(db, check, bearer, k)
  }

  /** `Resolve` inside one repeatable-read snapshot `db`, `keys`. */
  method Resolve(db: Db, keys: seq<KeyRow>, check: (string, string) -> KeyCheck, bearer: string, fault: ReadFault)
    returns (r: Resolved)
    ensures r.BearerMalformed? <==> ParseBearer(bearer).None?
    ensures r.DbError? <==> ParseBearer(bearer).Some? && Hits(db, keys, check, bearer, fault)
    ensures r.KeyNotFound? <==>
      && ParseBearer(bearer).Some? && !Hits(db, keys, check, bearer, fault)
      && forall k :: k in keys ==> !Admits(db, check, bearer, k)
    ensures r.Resolved? ==>
      exists k :: && k in keys && Admits(db, check, bearer, k)
                  && r.id == Identity(k.appId, CapsOf(db, k.appId), db.apps[k.appId].version, k.prefix)
  {
    var prefix := ParseBearer(bearer);
    if prefix.None? { return BearerMalformed; }
    if fault.AtQuery? { return DbError; }
    var i := 0;
    while i < |keys|
      invariant 0 <= i <= |keys|
      invariant forall n :: 0 <= n < i ==> !Admits(db, check, bearer, keys[n])
      invariant fault.AtRow? && fault.i < i ==> !Hits(db, keys, check, bearer, fault)
    {
      var k := keys[i];
      if Candidate(db, prefix.value, k) {
        if fault == AtRow(i) { return DbError; }
        if check(bearer, k.hash) == Matches {
          assert k in keys && Admits(db, check, bearer, k);
          if fault.AtRowsEnd? || fault.AtCapabilities? || fault.AtEnd? { return DbError; }
          return Resolved(Identity(k.appId, CapsOf(db, k.appId), db.apps[k.appId].version, k.prefix));
        }
      }
      i := i + 1;
    }
    if fault.AtRowsEnd? { return DbError; }
    return KeyNotFound;
  }

  /** What two resolutions may see: on snapshots of one lifetime of the app, equal
      versions mean equal capability sets, and the later version is no smaller. */
  lemma ResolvedVersionsAgree(db: Db, ops: seq<Op>, first: Identity, second: Identity)
    requires Lives(db, ops, first.appId) && second.appId == first.appId
    requires first.appId in db.apps && first.version == db.apps[first.appId].version
    requires first.caps == CapsOf(db, first.appId)
    requires var late := Run(db, ops);
      first.appId in late.apps && second.version == late.apps[first.appId].version && second.caps == CapsOf(late, first.appId)
    ensures first.version <= second.version
    ensures first.version == second.version ==> first.caps == second.caps
  {
    VersionDeterminesCapabilities(db, ops, first.appId);
  }

  // ---- who is let in ----

  /** An app whose keys are let in. */
  predicate IsActive(db: Db, id: string) { id in db.apps && db.apps[id].active }

  /** The transaction goes through and decides whether app `id` is active. */
  predicate Switches(db: Db, op: Op, id: string) {
    && op.id == id && Exec(db, op).1 == Done
    && (op.Patch? ==> op.fields.active.Some?)
  }

  /** What it decides. */
  function SwitchesTo(op: Op): bool { op.Create? || (op.Patch? && op.fields.active == Some(true)) }

  lemma StepSwitches(db: Db, op: Op, id: string)
    ensures IsActive(Exec(db, op).0, id) <==> if Switches(db, op, id) then SwitchesTo(op) else IsActive(db, id)
  {
  }

  /** How many transactions a history has up to the last that decided, 0 if none did. */
  function LastSwitch(db: Db, ops: seq<Op>, id: string): (n: nat)
    ensures n <= |ops|
    decreases |ops|
  {
    if ops == [] then 0
    else
      var init := ops[..|ops| - 1];
      if Switches(Run(db, init), ops[|ops| - 1], id) then |ops| else LastSwitch(db, init, id)
  }

  lemma {:induction false} LastSwitchDecides(db: Db, ops: seq<Op>, id: string)
    ensures var n := LastSwitch(db, ops, id);
      IsActive(Run(db, ops), id) <==> if n == 0 then IsActive(db, id) else SwitchesTo(ops[n - 1])
    decreases |ops|
  {
    if ops != [] {
      var init := ops[..|ops| - 1];
      LastSwitchDecides(db, init, id);
      StepSwitches(Run(db, init), ops[|ops| - 1], id);
    }
  }

  /** A live key with a matching hash: all that admission asks of the key itself. */
  predicate Fits(check: (string, string) -> KeyCheck, bearer: string, k: KeyRow) {
    ParseBearer(bearer) == Some(k.prefix) && !k.revoked && check(bearer, k.hash) == Matches
  }

  /** After every history a key is let in if and only if it fits, and the last
      transaction that decided on its app created it or set it active or, if none has,
      the app was active before. */
  lemma AdmittedIff(db: Db, ops: seq<Op>, check: (string, string) -> KeyCheck, bearer: string, k: KeyRow)
    ensures var n := LastSwitch(db, ops, k.appId);
      Admits(Run(db, ops), check, bearer, k) <==>
        Fits(check, bearer, k) && if n == 0 then IsActive(db, k.appId) else SwitchesTo(ops[n - 1])
  {
    LastSwitchDecides(db, ops, k.appId);
  }

  /** So once Delete has gone through, no key of the app is let in, whatever follows,
      until the app is patched active or, purged, is created again. */
  lemma {:induction false} DeletedStaysOut(db: Db, id: string, fault: Fault, ops: seq<Op>,
                                           check: (string, string) -> KeyCheck, bearer: string, k: KeyRow)
    requires Exec(db, Delete(id, fault)).1 == Done && k.appId == id
    requires var deleted := Exec(db, Delete(id, fault)).0;
      forall i :: 0 <= i < |ops| && SwitchesTo(ops[i]) ==> !Switches(Run(deleted, ops[..i]), ops[i], id)
    ensures !Admits(Run(Exec(db, Delete(id, fault)).0, ops), check, bearer, k)
    decreases |ops|
  {
    var deleted := Exec(db, Delete(id, fault)).0;
    StepSwitches(db, Delete(id, fault), id);
    if ops != [] {
      var init, last := ops[..|ops| - 1], ops[|ops| - 1];
      forall i | 0 <= i < |init| && SwitchesTo(init[i])
        ensures !Switches(Run(deleted, init[..i]), init[i], id)
      {
        assert init[..i] == ops[..i];
        assert SwitchesTo(ops[i]) && !Switches(Run(deleted, ops[..i]), ops[i], id);
      }
      DeletedStaysOut(db, id, fault, init, check, bearer, k);
      assert ops[..|init|] == init;
      StaysInactive(Run(deleted, init), last, check, bearer, k);
    }
  }

  lemma StaysInactive(db: Db, op: Op, check: (string, string) -> KeyCheck, bearer: string, k: KeyRow)
    requires !Admits(db, check, bearer, k) && (SwitchesTo(op) ==> !Switches(db, op, k.appId))
    ensures !Admits(Exec(db, op).0, check, bearer, k)
  {
    StepSwitches(db, op, k.appId);
  }

  // ---- what is stored ----

  /** Transactions on one app leave all others alone. */
  lemma OthersUntouched(db: Db, op: Op, id: string)
    requires op.id != id
    ensures var db' := Exec(db, op).0;
      && (id in db'.apps <==> id in db.apps) && (id in db.apps ==> db'.apps[id] == db.apps[id])
      && CapsOf(db', id) == CapsOf(db, id)
  {
  }

  /** A request that is refused, for whatever reason, changes nothing. */
  lemma RefusedChangesNothing(db: Db, op: Op)
    requires Exec(db, op).1 != Done
    ensures Exec(db, op).0 == db
  {
  }

  /** A created app holds what was asked for: it is active, at version 1, open to
      users unless a grade was given, and credited to the requester. */
  lemma CreatedAsAsked(db: Db, op: Op)
    requires op.Create? && ForeignKeys(db) && Exec(db, op).1 == Done
    ensures op.id !in db.apps && ValidAppId(op.id) && op.name != "" && forall c :: c in op.caps ==> Grantable(c)
    ensures var db' := Exec(db, op).0;
      && op.id in db'.apps
      && var a := db'.apps[op.id];
         && a.name == op.name && a.description == op.description && a.active && a.version == 1
         && (op.requester.Some? ==> a.createdBy == op.requester.value)
         && (op.minGrade != "" ==> a.minGrade == op.minGrade && ValidGrade(a.minGrade))
         && (op.minGrade == "" ==> a.minGrade == "user")
         && forall c :: c in CapsOf(db', op.id) <==> c in op.caps
  {
  }

  /** A patch changes exactly the fields that it gives. */
  lemma PatchChangesWhatItGives(db: Db, op: Op)
    requires op.Patch? && Exec(db, op).1 == Done
    ensures var db' := Exec(db, op).0;
      && op.id in db.apps && op.id in db'.apps
      && var f, a, b := op.fields, db.apps[op.id], db'.apps[op.id];
         && (if f.description.Some? then b.description == f.description.value else b.description == a.description)
         && (if f.minGrade.Some? then b.minGrade == f.minGrade.value && ValidGrade(b.minGrade) else b.minGrade == a.minGrade)
         && (if f.active.Some? then b.active == f.active.value else b.active == a.active)
         && b.name == a.name && b.createdBy == a.createdBy
         && (forall c :: c in f.remove ==> c !in CapsOf(db', op.id))
         && (forall c :: c in f.add && c !in f.remove ==> c in CapsOf(db', op.id))
         && (forall c :: c !in f.add && c !in f.remove ==> (c in CapsOf(db', op.id) <==> c in CapsOf(db, op.id)))
  {
  }

  /** Delete, and a patch that names capabilities, raise the version by one; a patch
      that names none keeps it. */
  lemma VersionRises(db: Db, op: Op)
    requires (op.Delete? || op.Patch?) && Exec(db, op).1 == Done
    ensures var db' := Exec(db, op).0;
      && op.id in db.apps && op.id in db'.apps
      && db'.apps[op.id].version - db.apps[op.id].version ==
         if op.Delete? || op.fields.add != [] || op.fields.remove != [] then 1 else 0
  {
  }

  /** Without a fault a request goes through exactly if it is in order. */
  lemma GoesThroughIff(db: Db, op: Op)
    requires op.fault.NoFault?
    ensures Exec(db, op).1 == Done <==>
      match op
      case Create(_, id, name, _, grade, caps, _) =>
        && name != "" && id !in db.apps && (grade == "" || ValidGrade(grade))
        && 3 <= |id| <= 64 && id[0] != '_' && id[0] != '-'
        && (forall i :: 0 <= i < |id| ==> 'a' <= id[i] <= 'z' || '0' <= id[i] <= '9' || id[i] == '_' || id[i] == '-')
        && forall c :: c in caps ==> Grantable(c)
      case Patch(id, f, _) =>
        && id in db.apps && (f.minGrade.Some? ==> ValidGrade(f.minGrade.value))
        && forall c :: c in f.add ==> Grantable(c)
      case Delete(id, _) => id in db.apps
      case Purge(id, _) => id in db.apps
  {
  }

  /** A purged app is gone, with its capabilities. */
  lemma PurgedIsGone(db: Db, id: string, fault: Fault)
    requires Exec(db, Purge(id, fault)).1 == Done
    ensures id !in Exec(db, Purge(id, fault)).0.apps && CapsOf(Exec(db, Purge(id, fault)).0, id) == {}
  {
  }

  /** Every capability by name is either for apps or for management; others are neither. */
  lemma CapabilitiesAreSorted(c: Capability)
    ensures !c.Unknown? ==> (Grantable(c) <==> !Forbidden(c))
    ensures c.Unknown? ==> !Grantable(c) && !Forbidden(c)
  {
  }

  /** The refusal names the first capability that may not be granted: management ones
      are forbidden, any others unknown. */
  lemma {:induction false} GrantCodeNamesFirst(cs: seq<Capability>, i: nat)
    requires i < |cs| && !Grantable(cs[i]) && forall k :: 0 <= k < i ==> Grantable(cs[k])
    ensures GrantCode(cs) == if Forbidden(cs[i]) then "forbidden_capability" else "unknown_capability"
  {
    if i > 0 { GrantCodeNamesFirst(cs[1..], i - 1); }
  }

  // ---- the admin UI's form ----

  function Filter(vals: seq<Capability>): seq<Capability> {
    if vals == [] then []
    else
      var init, last := Filter(vals[..|vals| - 1]), vals[|vals| - 1];
      if Grantable(last) then init + [last] else init
  }

  method FilterGrantable(vals: seq<Capability>) returns (out: seq<Capability>)
    ensures out == Filter(vals)
  {
    out := [];
    var i := 0;
    while i < |vals|
      invariant 0 <= i <= |vals| && out == Filter(vals[..i])
    {
      assert vals[..i + 1][..i] == vals[..i];
      if Grantable(vals[i]) { out := out + [vals[i]]; }
      i := i + 1;
    }
    assert vals[..i] == vals;
  }

  lemma {:induction false} FilterMembers(vals: seq<Capability>)
    ensures forall c :: c in Filter(vals) <==> c in vals && Grantable(c)
  {
    if vals != [] {
      FilterMembers(vals[..|vals| - 1]);
      assert vals == vals[..|vals| - 1] + [vals[|vals| - 1]];
    }
  }

  /** The elements of `xs` that `ys` lacks, in order. */
  function Without(xs: seq<Capability>, ys: seq<Capability>): (r: seq<Capability>)
    ensures forall c :: c in r <==> c in xs && c !in ys
  {
    if xs == [] then []
    else
      var init, last := Without(xs[..|xs| - 1], ys), xs[|xs| - 1];
      assert xs == xs[..|xs| - 1] + [last];
      if last !in ys then init + [last] else init
  }

  method Missing(xs: seq<Capability>, ys: seq<Capability>) returns (out: seq<Capability>)
    ensures out == Without(xs, ys)
  {
    out := [];
    var i := 0;
    while i < |xs|
      invariant 0 <= i <= |xs| && out == Without(xs[..i], ys)
    {
      assert xs[..i + 1][..i] == xs[..i];
      if xs[i] !in ys { out := out + [xs[i]]; }
      i := i + 1;
    }
    assert xs[..i] == xs;
  }

  /** A submitted form; an absent field is None. */
  datatype Form = Form(description: Option<string>, minGrade: Option<string>, setActive: string,
                       capabilities: Option<seq<Capability>>)
  {
    /** The form with the checkboxes; unticking them all still leaves the grade. */
    predicate Full() { capabilities.Some? || minGrade.Some? }

    function Ticked(): seq<Capability> { GetOr(capabilities, []) }
  }

  /** What the UI's own look-up of the app gives. */
  datatype Lookup = NoStore | LookupFails | Holds(caps: seq<Capability>)

  /** The request that a form turns into, None if an error page is shown instead. */
  function FormFields(form: Form, lookup: Lookup): Option<PatchFields> {
    var active := if form.setActive == "" then None else Some(form.setActive == "1");
    if !form.Full() then Some(PatchFields(form.description, form.minGrade, active, [], []))
    else match lookup
      case Holds(caps) =>
        var desired, current := Filter(form.Ticked()), Filter(caps);
        Some(PatchFields(form.description, form.minGrade, active, Without(desired, current), Without(current, desired)))
      case _ => None
  }

  /** handleAppPatch up to the request that it sends. */
  method BuildPatch(form: Form, lookup: Lookup) returns (f: Option<PatchFields>)
    ensures f == FormFields(form, lookup)
  {
    var description, minGrade := form.description, form.minGrade;
    var active: Option<bool> := None;
    if form.setActive != "" { active := Some(form.setActive == "1"); }
    var add: seq<Capability>, remove: seq<Capability> := [], [];
    if form.capabilities.Some? || form.minGrade.Some? {
      if !lookup.Holds? { return None; }
      var desired := FilterGrantable(form.Ticked());
      var current := FilterGrantable(lookup.caps);
      add := Missing(desired, current);
      remove := Missing(current, desired);
    }
    return Some(PatchFields(description, minGrade, active, add, remove));
  }

  /** For every form, when nothing commits between the UI's look-up and the server's
      Patch: a request is sent; it is refused only for its grade, never as forbidden
      or unknown; a full form leaves exactly the capabilities outside the grantable
      ones that the app had, plus the grantable ones that are ticked; any other form
      leaves the set alone; and the version is bumped exactly if the set changes. */
  lemma FormPatchLandsExactly(db: Db, id: string, form: Form, current: seq<Capability>)
    requires id in db.apps && ToSet(current) == CapsOf(db, id)
    ensures var f := FormFields(form, Holds(current));
      && f.Some?
      && var (db', r) := Exec(db, Patch(id, f.value, NoFault));
         && r == (if form.minGrade.None? || ValidGrade(form.minGrade.value) then Done else Refused("invalid_min_grade"))
         && (r == Done ==>
               && (forall c :: c in CapsOf(db', id) <==>
                     if form.Full() && Grantable(c) then c in form.Ticked() else c in CapsOf(db, id))
               && ShowsForm(form, db.apps[id], db'.apps[id])
               && db'.apps[id].version == db.apps[id].version + if CapsOf(db', id) != CapsOf(db, id) then 1 else 0)
  {
    var f := FormFields(form, Holds(current)).value;
    var before := CapsOf(db, id);
    assert forall c :: c in current <==> c in before;
    DiffMembers(form, current);
    PatchSet(db, id, f);
    if PatchGoesThrough(db, id, f) { PatchChangesWhatItGives(db, Patch(id, f, NoFault)); }
    var after := before + ToSet(f.add) - ToSet(f.remove);
    if f.add != [] {
      assert f.add[0] in after && f.add[0] !in before;
    } else if f.remove != [] {
      assert f.remove[0] !in after && f.remove[0] in before;
    } else {
      assert after == before;
    }
  }

  predicate PatchGoesThrough(db: Db, id: string, f: PatchFields) { Exec(db, Patch(id, f, NoFault)).1 == Done }

  /** The app's own fields after a form: those in the form as it gives them, "1" for
      active and any other value for not, and the others as before. */
  predicate ShowsForm(form: Form, before: App, after: App) {
    && after.name == before.name && after.createdBy == before.createdBy
    && after.description == GetOr(form.description, before.description)
    && after.minGrade == GetOr(form.minGrade, before.minGrade)
    && (form.setActive == "" ==> after.active == before.active)
    && (form.setActive != "" ==> (after.active <==> form.setActive == "1"))
  }

  lemma DiffMembers(form: Form, current: seq<Capability>)
    ensures var f := FormFields(form, Holds(current)).value;
      && (forall c :: c in f.add <==> form.Full() && Grantable(c) && c in form.Ticked() && c !in current)
      && (forall c :: c in f.remove <==> form.Full() && Grantable(c) && c in current && c !in form.Ticked())
  {
    FilterMembers(form.Ticked());
    FilterMembers(current);
  }

  lemma PatchSet(db: Db, id: string, f: PatchFields)
    requires id in db.apps && (forall c :: c in f.add ==> Grantable(c))
    ensures var (db', r) := Exec(db, Patch(id, f, NoFault));
      && r == (if f.minGrade.None? || ValidGrade(f.minGrade.value) then Done else Refused("invalid_min_grade"))
      && (r == Done ==>
            && id in db'.apps && CapsOf(db', id) == CapsOf(db, id) + ToSet(f.add) - ToSet(f.remove)
            && db'.apps[id].version == db.apps[id].version + if f.add != [] || f.remove != [] then 1 else 0)
  {
    assert GrantCode(f.add) == "";
  }
}
