/** Concurrent audit writers (internal/audit/writer.go) over one audit_log
    table, and the migration's backfill. Each statement of a Write transaction
    is one step; any number of writers interleave their steps arbitrarily. */
module AuditWriter {
  import opened Options
  import opened AuditChain
  import AuditPayload

  datatype Event = Event(
    at: Option<int>, traceId: string, messageId: string, stage: string, appId: string,
    capability: string, capabilitySetVer: int, endpoint: string, routeStrategy: string,
    deliveryChannel: string, recipientUserId: int, recipientChatId: int, errorCode: string,
    details: string)

  function NullIfZero(n: int): Option<int> { if n == 0 then None else Some(n) }

  /** The column values that the insert statement derives from an event. */
  function ToColumns(e: Event, now: int): AuditPayload.Columns {
    AuditPayload.Columns(
      if e.at.Some? then e.at.value else now,
      NullIfEmpty(e.traceId), NullIfEmpty(e.messageId), Some(e.stage), NullIfEmpty(e.appId),
      NullIfEmpty(e.capability), NullIfZero(e.capabilitySetVer), NullIfEmpty(e.endpoint),
      NullIfEmpty(e.routeStrategy), NullIfEmpty(e.deliveryChannel), NullIfZero(e.recipientUserId),
      NullIfZero(e.recipientChatId), NullIfEmpty(e.errorCode), Some(e.details))
  }

  function TextOf(v: Option<string>): string { if v.None? then "" else v.value }

  function NumberOf(v: Option<int>): int { if v.None? then 0 else v.value }

  /** When an event happened: its own time, that of the insert if it has none. */
  function TimeOf(e: Event, now: int): int { if e.at.Some? then e.at.value else now }

  /** Each column, read with "" and 0 for NULL, gives back the event's own field. */
  predicate Records(c: AuditPayload.Columns, e: Event, now: int) {
    && c.at == TimeOf(e, now)
    && TextOf(c.traceId) == e.traceId && TextOf(c.messageId) == e.messageId
    && c.stage == Some(e.stage) && c.details == Some(e.details)
    && TextOf(c.appId) == e.appId && TextOf(c.capability) == e.capability
    && NumberOf(c.capabilitySetVer) == e.capabilitySetVer
    && TextOf(c.endpoint) == e.endpoint && TextOf(c.routeStrategy) == e.routeStrategy
    && TextOf(c.deliveryChannel) == e.deliveryChannel
    && NumberOf(c.recipientUserId) == e.recipientUserId && NumberOf(c.recipientChatId) == e.recipientChatId
    && TextOf(c.errorCode) == e.errorCode
  }

  lemma ColumnsRecordEvent(e: Event, now: int)
    ensures Records(ToColumns(e, now), e, now)
  {
  }

  type WriterId = nat

  /** A transaction that has begun, then holds the chain lock, then holds an
      inserted but uncommitted row. */
  datatype Tx = Begun | Locked | Inserted(row: AuditRow)

  /** The shared database: committed rows in commit order, the id sequence (never
      rolled back), the advisory lock, and the open transactions. */
  datatype Db = Db(table: seq<AuditRow>, nextId: nat, lock: Option<WriterId>, open: map<WriterId, Tx>)

  datatype Step =
    | Begin(w: WriterId)
    | TakeLock(w: WriterId)
    | Insert(w: WriterId, event: Event, now: int)
    | InsertFails(w: WriterId)  // after drawing an id, e.g. on a CHECK violation
    | Commit(w: WriterId)
    | Rollback(w: WriterId)

  /** `ORDER BY id DESC LIMIT 1` */
  function NewestRow(table: seq<AuditRow>): AuditRow
    requires table != []
  {
    var last := table[|table| - 1];
    if |table| == 1 then last
    else
      var newest := NewestRow(table[..|table| - 1]);
      if newest.id > last.id then newest else last
  }

  /** The row that the insert statement builds, linked to the newest committed row. */
  function ChainedRow(sha: Digest, table: seq<AuditRow>, id: nat, c: AuditPayload.Columns): AuditRow {
    var prev := if table == [] then GenesisHash(sha) else NewestRow(table).rowHash;
    AuditRow(id, c, prev, ComputeRowHash(sha, prev, AuditPayload.Payload(c)))
  }

  function Release(s: Db, w: WriterId): Db {
    s.(open := s.open - {w}, lock := if s.lock == Some(w) then None else s.lock)
  }

  /** One step. A step that the writer is not ready for, or that must wait for
      the lock, leaves everything as it is. */
  function Apply(sha: Digest, s: Db, step: Step): Db {
    var w := step.w;
    match step
    case Begin(_) =>
      if w in s.open then s else s.(open := s.open[w := Begun])
    case TakeLock(_) =>
      if w in s.open && s.open[w].Begun? && s.lock.None?
      then s.(lock := Some(w), open := s.open[w := Locked]) else s
    case Insert(_, e, now) =>
      if w in s.open && s.open[w].Locked? then
        var row := ChainedRow(sha, s.table, s.nextId, ToColumns(e, now));
        s.(nextId := s.nextId + 1, open := s.open[w := Inserted(row)])
      else s
    case InsertFails(_) =>
      if w in s.open && s.open[w].Locked? then Release(s.(nextId := s.nextId + 1), w) else s
    case Commit(_) =>
      if w in s.open && s.open[w].Inserted?
      then Release(s.(table := s.table + [s.open[w].row]), w) else s
    case Rollback(_) =>
      if w in s.open then Release(s, w) else s
  }

  function Run(sha: Digest, s: Db, steps: seq<Step>): Db
    decreases |steps|
  {
    if steps == [] then s else Run(sha, Apply(sha, s, steps[0]), steps[1..])
  }

  predicate IdsAscend(rows: seq<AuditRow>) {
    && (forall i, j :: 0 <= i < j < |rows| ==> rows[i].id < rows[j].id)
    && (forall i :: 0 <= i < |rows| ==> 1 <= rows[i].id)
  }

  predicate IdsBelow(rows: seq<AuditRow>, bound: int) {
    forall i :: 0 <= i < |rows| ==> rows[i].id < bound
  }

  predicate GoodTable(sha: Digest, table: seq<AuditRow>, nextId: nat) {
    ValidLog(sha, table) && IdsAscend(table) && IdsBelow(table, nextId) && nextId >= 1
  }

  /** No writer at work; the table is empty, or filled and linked by the backfill. */
  predicate Initial(sha: Digest, s: Db) {
    GoodTable(sha, s.table, s.nextId) && s.open == map[] && s.lock == None
  }

  /** The lock is held by exactly the one transaction that got past it. */
  predicate LockInv(s: Db) {
    && (s.lock.Some? ==> s.lock.value in s.open)
    && (forall w :: w in s.open ==> (s.lock == Some(w) <==> !s.open[w].Begun?))
  }

  /** What every step keeps. */
  predicate Inv(sha: Digest, s: Db) {
    && GoodTable(sha, s.table, s.nextId) && LockInv(s)
    && (forall w :: w in s.open && s.open[w].Inserted? ==> Linkable(sha, s.table, s.nextId, s.open[w].row))
  }

  /** `row` may be appended: it links to the head and its id is drawn and new. */
  predicate Linkable(sha: Digest, table: seq<AuditRow>, nextId: nat, row: AuditRow) {
    && row.prevHash == LogHead(sha, table)
    && row.rowHash == ComputeRowHash(sha, row.prevHash, AuditPayload.Payload(row.columns))
    && IdsBelow(table, row.id) && 1 <= row.id < nextId
  }

  lemma {:induction false} NewestIsLast(table: seq<AuditRow>)
    requires table != [] && IdsAscend(table)
    ensures NewestRow(table) == table[|table| - 1]
  {
    if |table| > 1 { NewestIsLast(table[..|table| - 1]); }
  }

  lemma LinkIsHead(sha: Digest, table: seq<AuditRow>, id: nat, c: AuditPayload.Columns)
    requires IdsAscend(table)
    ensures ChainedRow(sha, table, id, c).prevHash == LogHead(sha, table)
  {
    if table != [] {
      NewestIsLast(table);
      assert View(table)[|table| - 1] == ViewRow(table[|table| - 1]);
    }
  }

  lemma ChainedRowLinks(sha: Digest, table: seq<AuditRow>, id: nat, c: AuditPayload.Columns)
    requires IdsAscend(table) && IdsBelow(table, id) && id >= 1
    ensures Linkable(sha, table, id + 1, ChainedRow(sha, table, id, c))
  {
    LinkIsHead(sha, table, id, c);
  }

  lemma AppendKeepsTable(sha: Digest, table: seq<AuditRow>, nextId: nat, row: AuditRow)
    requires GoodTable(sha, table, nextId) && Linkable(sha, table, nextId, row)
    ensures GoodTable(sha, table + [row], nextId)
  {
    LogSnoc(sha, table, row);
  }

  lemma InsertKeepsInv(sha: Digest, s: Db, w: WriterId, e: Event, now: int)
    requires Inv(sha, s)
    ensures Inv(sha, Apply(sha, s, Insert(w, e, now)))
  {
    ChainedRowLinks(sha, s.table, s.nextId, ToColumns(e, now));
    var s' := Apply(sha, s, Insert(w, e, now));
    assert LockInv(s');
    forall v | v in s'.open && s'.open[v].Inserted?
      ensures Linkable(sha, s'.table, s'.nextId, s'.open[v].row)
    {
      assert v != w ==> v in s.open && s.lock == Some(v);
    }
  }

  lemma CommitKeepsInv(sha: Digest, s: Db, w: WriterId)
    requires Inv(sha, s)
    ensures Inv(sha, Apply(sha, s, Commit(w)))
  {
    if w in s.open && s.open[w].Inserted? {
      AppendKeepsTable(sha, s.table, s.nextId, s.open[w].row);
      var s' := Apply(sha, s, Commit(w));
      forall v | v in s'.open ensures s'.open[v].Begun? {
        assert s.lock == Some(w);
      }
    }
  }

  lemma StepKeepsInv(sha: Digest, s: Db, step: Step)
    requires Inv(sha, s)
    ensures Inv(sha, Apply(sha, s, step))
    ensures s.table <= Apply(sha, s, step).table
  {
    match step
    case Insert(w, e, now) => InsertKeepsInv(sha, s, w, e, now);
    case Commit(w) => CommitKeepsInv(sha, s, w);
    case _ =>
  }

  lemma {:induction false} RunKeepsInv(sha: Digest, s: Db, steps: seq<Step>)
    requires Inv(sha, s)
    ensures Inv(sha, Run(sha, s, steps))
    ensures s.table <= Run(sha, s, steps).table
    decreases |steps|
  {
    if steps != [] {
      StepKeepsInv(sha, s, steps[0]);
      RunKeepsInv(sha, Apply(sha, s, steps[0]), steps[1..]);
    }
  }

  lemma {:induction false} RunSplits(sha: Digest, s: Db, first: seq<Step>, second: seq<Step>)
    ensures Run(sha, s, first + second) == Run(sha, Run(sha, s, first), second)
    decreases |first|
  {
    if first == [] {
      assert first + second == second;
    } else {
      assert (first + second)[1..] == first[1..] + second;
      RunSplits(sha, Apply(sha, s, first[0]), first[1..], second);
    }
  }

  /** In every interleaving, at every moment: the committed rows are one unforked
      chain from the genesis hash; later snapshots only append to earlier ones;
      and whatever becomes visible later has a larger id. */
  lemma EveryInterleavingChains(sha: Digest, s: Db, before: seq<Step>, after: seq<Step>)
    requires Initial(sha, s)
    ensures var early, late := Run(sha, s, before).table, Run(sha, s, before + after).table;
      && ValidLog(sha, early) && ValidLog(sha, late)
      && early <= late
      && forall i, j :: 0 <= i < |early| <= j < |late| ==> early[i].id < late[j].id
  {
    RunSplits(sha, s, before, after);
    RunKeepsInv(sha, s, before);
    RunKeepsInv(sha, Run(sha, s, before), after);
    var early, late := Run(sha, s, before).table, Run(sha, s, before + after).table;
    assert forall i :: 0 <= i < |early| ==> early[i] == late[i];
  }

  /** Every attempt to insert under the lock draws an id for good, whether it succeeds
      or not; nothing else moves the sequence. */
  lemma InsertsDrawIds(sha: Digest, s: Db, step: Step)
    ensures Apply(sha, s, step).nextId == s.nextId +
      if (step.Insert? || step.InsertFails?) && step.w in s.open && s.open[step.w].Locked? then 1 else 0
  {
  }

  /** `ORDER BY id` over a table; ids are its primary key. */
  ghost predicate ListsById(listing: seq<AuditRow>, table: seq<AuditRow>) {
    && |listing| == |table| && (forall r :: r in listing <==> r in table)
    && forall i, j :: 0 <= i < j < |listing| ==> listing[i].id < listing[j].id
  }

  lemma LastOfListing(listing: seq<AuditRow>, table: seq<AuditRow>)
    requires ListsById(listing, table) && IdsAscend(table) && table != []
    ensures listing != [] && listing[|listing| - 1] == table[|table| - 1]
    ensures ListsById(listing[..|listing| - 1], table[..|table| - 1])
  {
    var n, m := |table| - 1, |listing| - 1;
    assert table[n] in listing && listing[m] in table;
    var l, t := listing[..m], table[..n];
    forall r ensures r in l <==> r in t {
      assert r in listing <==> r in l || r == listing[m];
      assert r in table <==> r in t || r == table[n];
      assert r in l ==> r.id < listing[m].id;
      assert r in t ==> r.id < table[n].id;
    }
  }

  lemma {:induction false} ListingIsCommitOrder(listing: seq<AuditRow>, table: seq<AuditRow>)
    requires ListsById(listing, table) && IdsAscend(table)
    ensures listing == table
    decreases |table|
  {
    if table != [] {
      LastOfListing(listing, table);
      ListingIsCommitOrder(listing[..|listing| - 1], table[..|table| - 1]);
      assert listing == listing[..|listing| - 1] + [listing[|listing| - 1]];
    }
  }

  /** The checker run over an id-ordered read of any committed snapshot of any
      run says OK and counts the whole table. */
  method VerifyAuditChain(sha: Digest, ghost s: Db, ghost steps: seq<Step>, snapshot: seq<AuditRow>)
    returns (res: VerifyResult)
    requires Initial(sha, s) && ListsById(snapshot, Run(sha, s, steps).table)
    ensures res == VerifyResult(true, |Run(sha, s, steps).table|, None)
  {
    RunKeepsInv(sha, s, steps);
    ListingIsCommitOrder(snapshot, Run(sha, s, steps).table);
    var failed;
    res, failed := VerifyChain(sha, RowStream(View(snapshot), None));
    assert View(snapshot)[..|snapshot|] == View(snapshot);
  }

  // ---- the transaction as the program runs it ----

  /** Where a Write fails; with `AnswerLost` the commit succeeds, but its answer does
      not arrive and an error is reported. */
  datatype Fault = NoFault | AtBegin | AtLock | AtInsert(drewId: bool) | AtCommit | AnswerLost

  /** What other writers do while one Write waits for the lock, between the lock
      and its insert, and between the insert and its commit. */
  datatype Others = Others(beforeLock: seq<Step>, beforeInsert: seq<Step>, beforeCommit: seq<Step>) {
    predicate Exclude(w: WriterId) { NotBy(w, beforeLock) && NotBy(w, beforeInsert) && NotBy(w, beforeCommit) }
  }

  predicate NotBy(w: WriterId, steps: seq<Step>) { forall i :: 0 <= i < |steps| ==> steps[i].w != w }

  /** How far a Write has come: still waiting for the lock, or returned. */
  datatype Outcome = Committed | Failed | Waiting

  class PgWriter {
    const sha: Digest
    var table: seq<AuditRow>
    var nextId: nat
    var lock: Option<WriterId>
    var open: map<WriterId, Tx>

    ghost function State(): Db
      reads this
    {
      Db(table, nextId, lock, open)
    }

    constructor (sha: Digest, table: seq<AuditRow>, nextId: nat)
      ensures this.sha == sha && State() == Db(table, nextId, None, map[])
    {
      this.sha, this.table, this.nextId := sha, table, nextId;
      lock, open := None, map[];
    }

    method BeginTx(w: WriterId)
      modifies this
      ensures State() == Apply(sha, old(State()), Begin(w))
    {
      if w !in open { open := open[w := Begun]; }
    }

    /** `pg_advisory_xact_lock`; `got` is false while another writer holds it. */
    method LockChain(w: WriterId) returns (got: bool)
      modifies this
      ensures State() == Apply(sha, old(State()), TakeLock(w))
      ensures got <==> old(w in open && open[w].Begun? && lock.None?)
    {
      got := w in open && open[w].Begun? && lock.None?;
      if got {
        lock := Some(w);
        open := open[w := Locked];
      }
    }

    method InsertChained(w: WriterId, e: Event, now: int)
      modifies this
      ensures State() == Apply(sha, old(State()), Insert(w, e, now))
    {
      if w in open && open[w].Locked? {
        var prev := GenesisHash(sha);
        if table != [] {
          var i, newest := 1, table[0];
          while i < |table|
            invariant 1 <= i <= |table| && newest == NewestRow(table[..i])
            modifies {}
          {
            if newest.id <= table[i].id { newest := table[i]; }
            assert table[..i + 1][..i] == table[..i];
            i := i + 1;
          }
          assert table[..i] == table;
          prev := newest.rowHash;
        }
        var c := ToColumns(e, now);
        open := open[w := Inserted(AuditRow(nextId, c, prev, ComputeRowHash(sha, prev, AuditPayload.Payload(c))))];
        nextId := nextId + 1;
      }
    }

    method CommitTx(w: WriterId)
      modifies this
      ensures State() == Apply(sha, old(State()), Commit(w))
    {
      if w in open && open[w].Inserted? {
        table := table + [open[w].row];
        open := open - {w};
        if lock == Some(w) { lock := None; }
      }
    }

    method RollbackTx(w: WriterId)
      modifies this
      ensures State() == Apply(sha, old(State()), Rollback(w))
    {
      if w in open {
        open := open - {w};
        if lock == Some(w) { lock := None; }
      }
    }

    /** The insert fails after its id was drawn; the transaction is rolled back. */
    method FailInsert(w: WriterId)
      modifies this
      ensures State() == Apply(sha, old(State()), InsertFails(w))
    {
      if w in open && open[w].Locked? {
        nextId := nextId + 1;
        open := open - {w};
        if lock == Some(w) { lock := None; }
      }
    }

    method Perform(step: Step)
      modifies this
      ensures State() == Apply(sha, old(State()), step)
    {
      match step
      case Begin(w) => BeginTx(w);
      case TakeLock(w) => var got := LockChain(w);
      case Insert(w, e, now) => InsertChained(w, e, now);
      case InsertFails(w) => FailInsert(w);
      case Commit(w) => CommitTx(w);
      case Rollback(w) => RollbackTx(w);
    }

    /** What the other writers do in the meantime. */
    method PerformAll(steps: seq<Step>)
      modifies this
      ensures State() == Run(sha, old(State()), steps)
    {
      var i := 0;
      while i < |steps|
        invariant 0 <= i <= |steps|
        invariant Run(sha, State(), steps[i..]) == Run(sha, old(State()), steps)
      {
        assert steps[i..][1..] == steps[i + 1..];
        Perform(steps[i]);
        i := i + 1;
      }
    }

    /** One Write amid the steps of others. */
    method Write(w: WriterId, e: Event, now: int, fault: Fault, others: Others) returns (o: Outcome)
      requires w !in open
      modifies this
      ensures (State(), o) == WriteAmid(sha, old(State()), w, e, now, fault, others)
    {
      if fault.AtBegin? { return Failed; }
      BeginTx(w);
      PerformAll(others.beforeLock);
      if fault.AtLock? {
        RollbackTx(w);
        return Failed;
      }
      if lock.Some? { return Waiting; }
      var got := LockChain(w);
      PerformAll(others.beforeInsert);
      if fault.AtInsert? {
        if fault.drewId { FailInsert(w); } else { RollbackTx(w); }
        return Failed;
      }
      InsertChained(w, e, now);
      PerformAll(others.beforeCommit);
      if fault.AtCommit? {
        RollbackTx(w);
        return Failed;
      }
      CommitTx(w);
      return if fault.AnswerLost? then Failed else Committed;
    }
  }

  function WriteAmid(sha: Digest, s: Db, w: WriterId, e: Event, now: int, fault: Fault, others: Others): (Db, Outcome) {
    if fault.AtBegin? then (s, Failed)
    else
      var s1 := Run(sha, Apply(sha, s, Begin(w)), others.beforeLock);
      if fault.AtLock? then (Apply(sha, s1, Rollback(w)), Failed)
      else if s1.lock.Some? then (s1, Waiting)
      else AfterGrant(sha, s1, w, e, now, fault, others)
  }

  /** From the grant of the lock to the return. */
  function AfterGrant(sha: Digest, s1: Db, w: WriterId, e: Event, now: int, fault: Fault, others: Others): (Db, Outcome) {
    var s2 := Run(sha, Apply(sha, s1, TakeLock(w)), others.beforeInsert);
    match fault
    case AtInsert(drewId) => (Apply(sha, s2, if drewId then InsertFails(w) else Rollback(w)), Failed)
    case _ =>
      var s3 := Run(sha, Apply(sha, s2, Insert(w, e, now)), others.beforeCommit);
      if fault.AtCommit? then (Apply(sha, s3, Rollback(w)), Failed)
      else (Apply(sha, s3, Commit(w)), if fault.AnswerLost? then Failed else Committed)
  }

  function WithBegun(s: Db, w: WriterId): Db { s.(open := s.open[w := Begun]) }

  /** A transaction that has only begun is invisible to the others. */
  lemma BegunIsInvisible(sha: Digest, s: Db, w: WriterId, step: Step)
    requires w !in s.open && step.w != w
    ensures w !in Apply(sha, s, step).open
    ensures Apply(sha, WithBegun(s, w), step) == WithBegun(Apply(sha, s, step), w)
  {
    var v := step.w;
    match step
    case Begin(_) => SwapUpdates(s.open, w, v, Begun);
    case TakeLock(_) => SwapUpdates(s.open, w, v, Locked);
    case Insert(_, e, now) => SwapUpdates(s.open, w, v, Inserted(ChainedRow(sha, s.table, s.nextId, ToColumns(e, now))));
    case _ => assert s.open[w := Begun] - {v} == (s.open - {v})[w := Begun];
  }

  lemma SwapUpdates(open: map<WriterId, Tx>, w: WriterId, v: WriterId, tx: Tx)
    requires w != v
    ensures open[w := Begun][v := tx] == open[v := tx][w := Begun]
  {
  }

  lemma {:induction false} WaitingIsInvisible(sha: Digest, s: Db, w: WriterId, steps: seq<Step>)
    requires w !in s.open && NotBy(w, steps)
    ensures w !in Run(sha, s, steps).open
    ensures Run(sha, WithBegun(s, w), steps) == WithBegun(Run(sha, s, steps), w)
    decreases |steps|
  {
    if steps != [] {
      BegunIsInvisible(sha, s, w, steps[0]);
      WaitingIsInvisible(sha, Apply(sha, s, steps[0]), w, steps[1..]);
    }
  }

  /** While one writer holds the lock the others change nothing that it sees. */
  lemma {:induction false} OthersWait(sha: Digest, s: Db, w: WriterId, steps: seq<Step>)
    requires LockInv(s) && s.lock == Some(w) && NotBy(w, steps)
    ensures var s' := Run(sha, s, steps);
      && LockInv(s') && s'.table == s.table && s'.nextId == s.nextId && s'.lock == Some(w)
      && w in s'.open && s'.open[w] == s.open[w]
    decreases |steps|
  {
    if steps != [] {
      OtherWaits(sha, s, w, steps[0]);
      OthersWait(sha, Apply(sha, s, steps[0]), w, steps[1..]);
    }
  }

  lemma OtherWaits(sha: Digest, s: Db, w: WriterId, step: Step)
    requires LockInv(s) && s.lock == Some(w) && step.w != w
    ensures var s' := Apply(sha, s, step);
      && LockInv(s') && s'.table == s.table && s'.nextId == s.nextId && s'.lock == Some(w)
      && w in s'.open && s'.open[w] == s.open[w]
  {
  }

  /** The row of the event, linked to all that others have committed by the time
      the lock is granted. */
  function RowOf(sha: Digest, waited: Db, e: Event, now: int): AuditRow {
    ChainedRow(sha, waited.table, waited.nextId, ToColumns(e, now))
  }

  /** A Write amid any steps of any other writers. It waits exactly while the lock
      is held; granted the lock and without a fault it appends exactly its event's
      row, right after what the others committed while it waited; with a fault it
      appends nothing, unless only the answer to its commit was lost. Either way it
      returns without lock and transaction. */
  lemma WriteIsAllOrNothing(sha: Digest, s: Db, w: WriterId, e: Event, now: int, fault: Fault, others: Others)
    requires LockInv(s) && w !in s.open && others.Exclude(w)
    ensures var (s', o) := WriteAmid(sha, s, w, e, now, fault, others);
      var waited := Run(sha, s, others.beforeLock);
      && (o.Waiting? <==> !fault.AtBegin? && !fault.AtLock? && waited.lock.Some?)
      && (o.Waiting? ==> s' == WithBegun(waited, w))
      && (o.Committed? <==> fault.NoFault? && waited.lock.None?)
      && (o.Committed? ==> s'.table == waited.table + [RowOf(sha, waited, e, now)])
      && (o.Failed? && fault.AnswerLost? ==> s'.table == waited.table + [RowOf(sha, waited, e, now)])
      && (o.Failed? && !fault.AnswerLost? ==> s'.table == if fault.AtBegin? then s.table else waited.table)
      && (!o.Waiting? ==> w !in s'.open && s'.lock != Some(w))
  {
    assert Apply(sha, s, Begin(w)) == WithBegun(s, w);
    WaitingIsInvisible(sha, s, w, others.beforeLock);
    RunKeepsLock(sha, s, others.beforeLock);
    var waited := Run(sha, s, others.beforeLock);
    if !fault.AtBegin? && !fault.AtLock? && waited.lock.None? {
      GrantedWrite(sha, waited, w, e, now, fault, others);
    }
  }

  /** A committed Write puts its event on record: the newest row, and no other new
      one of its own, reads back as the event. */
  lemma CommittedIsRecorded(sha: Digest, s: Db, w: WriterId, e: Event, now: int, fault: Fault, others: Others)
    requires LockInv(s) && w !in s.open && others.Exclude(w)
    requires WriteAmid(sha, s, w, e, now, fault, others).1.Committed?
    ensures var table := WriteAmid(sha, s, w, e, now, fault, others).0.table;
      && table != [] && table[..|table| - 1] == Run(sha, s, others.beforeLock).table
      && Records(table[|table| - 1].columns, e, now)
  {
    WriteIsAllOrNothing(sha, s, w, e, now, fault, others);
    ColumnsRecordEvent(e, now);
  }

  lemma CommittedKeepsIds(sha: Digest, s: Db, w: WriterId, e: Event, now: int, fault: Fault, others: Others)
    requires Inv(sha, s) && w !in s.open && others.Exclude(w)
    requires WriteAmid(sha, s, w, e, now, fault, others).1.Committed?
    ensures IdsAscend(WriteAmid(sha, s, w, e, now, fault, others).0.table)
  {
    var waited := Run(sha, s, others.beforeLock);
    WriteIsAllOrNothing(sha, s, w, e, now, fault, others);
    RunKeepsInv(sha, s, others.beforeLock);
  }

  lemma StepKeepsLock(sha: Digest, s: Db, step: Step)
    requires LockInv(s)
    ensures LockInv(Apply(sha, s, step))
  {
  }

  lemma {:induction false} RunKeepsLock(sha: Digest, s: Db, steps: seq<Step>)
    requires LockInv(s)
    ensures LockInv(Run(sha, s, steps))
    decreases |steps|
  {
    if steps != [] {
      StepKeepsLock(sha, s, steps[0]);
      RunKeepsLock(sha, Apply(sha, s, steps[0]), steps[1..]);
    }
  }

  lemma GrantedWrite(sha: Digest, waited: Db, w: WriterId, e: Event, now: int, fault: Fault, others: Others)
    requires LockInv(waited) && w !in waited.open && waited.lock.None? && others.Exclude(w)
    ensures var (s', o) := AfterGrant(sha, WithBegun(waited, w), w, e, now, fault, others);
      && w !in s'.open && s'.lock != Some(w)
      && s'.table == if fault.AtInsert? || fault.AtCommit? then waited.table else waited.table + [RowOf(sha, waited, e, now)]
  {
    GrantHolds(sha, waited, w, others.beforeInsert);
    var s2 := Run(sha, Apply(sha, WithBegun(waited, w), TakeLock(w)), others.beforeInsert);
    InsertHolds(sha, s2, w, e, now, others.beforeCommit);
  }

  lemma GrantHolds(sha: Digest, waited: Db, w: WriterId, steps: seq<Step>)
    requires LockInv(waited) && w !in waited.open && waited.lock.None? && NotBy(w, steps)
    ensures var s := Run(sha, Apply(sha, WithBegun(waited, w), TakeLock(w)), steps);
      && LockInv(s) && s.lock == Some(w) && w in s.open && s.open[w] == Locked
      && s.table == waited.table && s.nextId == waited.nextId
  {
    StepKeepsLock(sha, waited, Begin(w));
    StepKeepsLock(sha, WithBegun(waited, w), TakeLock(w));
    OthersWait(sha, Apply(sha, WithBegun(waited, w), TakeLock(w)), w, steps);
  }

  lemma InsertHolds(sha: Digest, s: Db, w: WriterId, e: Event, now: int, steps: seq<Step>)
    requires LockInv(s) && s.lock == Some(w) && w in s.open && s.open[w] == Locked && NotBy(w, steps)
    ensures var s' := Run(sha, Apply(sha, s, Insert(w, e, now)), steps);
      && s'.table == s.table && s'.lock == Some(w)
      && w in s'.open && s'.open[w] == Inserted(RowOf(sha, s, e, now))
  {
    StepKeepsLock(sha, s, Insert(w, e, now));
    OthersWait(sha, Apply(sha, s, Insert(w, e, now)), w, steps);
  }

  // ---- backfill ----

  /** The migration's loop: `a` holds the rows as `ORDER BY id` delivers them;
      both hash columns are filled in place and nothing else changes. */
  method Backfill(sha: Digest, a: array<AuditRow>)
    modifies a
    ensures ValidLog(sha, a[..])
    ensures forall i :: 0 <= i < a.Length ==>
              a[i].id == old(a[i].id) && a[i].columns == old(a[i].columns)
    // so writers may start from it: under rising ids it is an initial state
    ensures forall n: nat :: IdsAscend(old(a[..])) && IdsBelow(old(a[..]), n) && n >= 1 ==>
              Initial(sha, Db(a[..], n, None, map[]))
  {
    var prev := GenesisHash(sha);
    var n := 0;
    while n < a.Length
      invariant 0 <= n <= a.Length
      invariant ValidLog(sha, a[..n]) && prev == LogHead(sha, a[..n])
      invariant forall i :: 0 <= i < a.Length ==>
                  a[i].id == old(a[i].id) && a[i].columns == old(a[i].columns)
    {
      var r := a[n];
      var cur := ComputeRowHash(sha, prev, AuditPayload.Payload(r.columns));
      ghost var done := a[..n];
      a[n] := AuditRow(r.id, r.columns, prev, cur);
      assert a[..n] == done;
      assert a[..n + 1] == done + [a[n]];
      LogSnoc(sha, done, a[n]);
      prev := cur;
      n := n + 1;
    }
    assert a[..n] == a[..];
    forall n: nat | IdsAscend(old(a[..])) && IdsBelow(old(a[..]), n) && n >= 1
      ensures Initial(sha, Db(a[..], n, None, map[]))
    {
      SameIdsStart(sha, old(a[..]), a[..], n);
    }
  }

  lemma LogSnoc(sha: Digest, log: seq<AuditRow>, row: AuditRow)
    requires ValidLog(sha, log) && row.prevHash == LogHead(sha, log)
    requires row.rowHash == ComputeRowHash(sha, row.prevHash, AuditPayload.Payload(row.columns))
    ensures ValidLog(sha, log + [row]) && LogHead(sha, log + [row]) == row.rowHash
  {
    ValidSnoc(sha, View(log), ViewRow(row));
    assert View(log + [row]) == View(log) + [ViewRow(row)];
  }

  lemma SameIdsStart(sha: Digest, before: seq<AuditRow>, after: seq<AuditRow>, n: nat)
    requires |before| == |after| && ValidLog(sha, after) && IdsAscend(before) && IdsBelow(before, n) && n >= 1
    requires forall i :: 0 <= i < |before| ==> after[i].id == before[i].id
    ensures Initial(sha, Db(after, n, None, map[]))
  {
  }
}
