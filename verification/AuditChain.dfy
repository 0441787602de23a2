/** The hash chain over audit rows and its streaming checker
    (internal/audit/chain.go). The digest is a parameter: every statement holds
    for any function, those about tampering for any with 32-byte results. */
module AuditChain {
  import opened Options
  import opened Utf8
  import AuditPayload

  type Digest = Bytes -> Bytes

  const GENESIS_SEED := "telegram_server-audit-genesis-v1"

  ghost predicate Is256Bit(sha: Digest) {
    forall b :: |sha(b)| == 32
  }

  /** The seed as bytes; it is as long as a digest. */
  function GenesisInput(): (b: Bytes)
    ensures |b| == 32
  {
    AsciiBytes(GENESIS_SEED)
  }

  /** Go hashes the seed's bytes and the migration its UTF-8 form: the same bytes. */
  lemma SeedsAgree()
    ensures Encode(GENESIS_SEED) == GenesisInput()
  {
    EncodeAscii(GENESIS_SEED);
  }

  /** `sha256` of the seed. */
  function GenesisHash(sha: Digest): Bytes {
    sha(GenesisInput())
  }

  function ComputeRowHash(sha: Digest, prev: Bytes, payload: Bytes): Bytes {
    sha(prev + payload)
  }

  /** One row as the verifier consumes it, the payload recomputed from the
      stored columns. */
  datatype ChainRow = ChainRow(id: int, at: int, stage: Option<string>,
                               prevHash: Bytes, rowHash: Bytes, payload: Bytes)

  datatype HashColumn = PrevHash | RowHash

  datatype VerifyBreak = VerifyBreak(id: int, at: int, stage: Option<string>, column: HashColumn,
                                     expected: Bytes, stored: Bytes)

  datatype VerifyResult = VerifyResult(ok: bool, rows: nat, brk: Option<VerifyBreak>)

  /** The hash that the row after `rows` must link to. */
  function HeadHash(sha: Digest, rows: seq<ChainRow>): Bytes {
    if rows == [] then GenesisHash(sha) else rows[|rows| - 1].rowHash
  }

  /** Row `i` links to its predecessor (genesis for the first) and carries the
      digest of that link and its own payload. */
  predicate LinkedAt(sha: Digest, rows: seq<ChainRow>, i: nat)
    requires i < |rows|
  {
    && rows[i].prevHash == HeadHash(sha, rows[..i])
    && rows[i].rowHash == ComputeRowHash(sha, rows[i].prevHash, rows[i].payload)
  }

  predicate ValidChain(sha: Digest, rows: seq<ChainRow>) {
    forall i :: 0 <= i < |rows| ==> LinkedAt(sha, rows, i)
  }

  /** The iterator handed to the checker: its rows in id order, and the position
      at which fetching fails, if any. */
  datatype RowStream = RowStream(rows: seq<ChainRow>, failAt: Option<nat>) {
    /** The rows that can be fetched before the failure. */
    function Readable(): (r: seq<ChainRow>)
      ensures r <= rows
    {
      if failAt.Some? && failAt.value <= |rows| then rows[..failAt.value] else rows
    }

    predicate Fails() { failAt.Some? && failAt.value <= |rows| }

    function Next(i: nat): Fetched {
      if failAt == Some(i) then FetchError
      else if i < |rows| then Fetched(rows[i])
      else EndOfRows
    }
  }

  datatype Fetched = Fetched(row: ChainRow) | EndOfRows | FetchError

  /** What a break report must say about the first bad row after `good`. */
  predicate Describes(sha: Digest, b: VerifyBreak, good: seq<ChainRow>, bad: ChainRow) {
    var head := HeadHash(sha, good);
    && b.id == bad.id && b.at == bad.at && b.stage == bad.stage
    && if bad.prevHash != head then
         b.column == PrevHash && b.expected == head && b.stored == bad.prevHash
       else
         && b.column == RowHash && b.stored == bad.rowHash
         && b.expected == ComputeRowHash(sha, head, bad.payload) && b.stored != b.expected
  }

  /** `n` is the length of the longest valid prefix of `rows`. */
  predicate LongestValidPrefix(sha: Digest, rows: seq<ChainRow>, n: nat) {
    && n <= |rows| && ValidChain(sha, rows[..n])
    && forall k :: n < k <= |rows| ==> !ValidChain(sha, rows[..k])
  }

  method VerifyChain(sha: Digest, s: RowStream) returns (res: VerifyResult, failed: bool)
    ensures LongestValidPrefix(sha, s.Readable(), res.rows)
    // the three ways to end exclude each other and are told apart exactly
    ensures failed <==> s.Fails() && ValidChain(sha, s.Readable())
    ensures res.ok <==> !s.Fails() && ValidChain(sha, s.rows)
    ensures res.brk.Some? <==> res.rows < |s.Readable()|
    ensures res.brk.Some? ==>
              Describes(sha, res.brk.value, s.Readable()[..res.rows], s.Readable()[res.rows])
  {
    var running := GenesisHash(sha);
    res := VerifyResult(false, 0, None);
    failed := false;
    ghost var all := s.Readable();
    while true
      invariant res.rows <= |all| && res.brk == None && !res.ok && !failed
      invariant running == HeadHash(sha, all[..res.rows])
      invariant ValidChain(sha, all[..res.rows])
      decreases |all| - res.rows
    {
      var fetched := s.Next(res.rows);
      if fetched.FetchError? {
        assert all[..res.rows] == all;
        return res, true;
      }
      if fetched.EndOfRows? {
        assert all[..res.rows] == all == s.rows;
        return res.(ok := true), false;
      }
      var row := fetched.row;
      if row.prevHash != running {
        BadRowStops(sha, all, res.rows);
        return res.(brk := Some(VerifyBreak(row.id, row.at, row.stage, PrevHash, running, row.prevHash))), false;
      }
      var want := ComputeRowHash(sha, running, row.payload);
      if row.rowHash != want {
        BadRowStops(sha, all, res.rows);
        return res.(brk := Some(VerifyBreak(row.id, row.at, row.stage, RowHash, want, row.rowHash))), false;
      }
      GoodRowExtends(sha, all, res.rows);
      running := row.rowHash;
      res := res.(rows := res.rows + 1);
    }
  }

  lemma GoodRowExtends(sha: Digest, rows: seq<ChainRow>, n: nat)
    requires n < |rows| && ValidChain(sha, rows[..n])
    requires rows[n].prevHash == HeadHash(sha, rows[..n])
    requires rows[n].rowHash == ComputeRowHash(sha, rows[n].prevHash, rows[n].payload)
    ensures ValidChain(sha, rows[..n + 1]) && HeadHash(sha, rows[..n + 1]) == rows[n].rowHash
  {
    assert rows[..n + 1] == rows[..n] + [rows[n]];
    ValidSnoc(sha, rows[..n], rows[n]);
  }

  lemma ValidSnoc(sha: Digest, rows: seq<ChainRow>, row: ChainRow)
    requires ValidChain(sha, rows)
    ensures ValidChain(sha, rows + [row]) <==>
            row.prevHash == HeadHash(sha, rows) && row.rowHash == ComputeRowHash(sha, row.prevHash, row.payload)
  {
    var all := rows + [row];
    forall i | 0 <= i < |rows| ensures LinkedAt(sha, all, i) {
      assert all[..i] == rows[..i];
      assert LinkedAt(sha, rows, i);
    }
    assert all[..|rows|] == rows;
    assert ValidChain(sha, all) ==> LinkedAt(sha, all, |rows|);
  }

  lemma ValidPrefix(sha: Digest, rows: seq<ChainRow>, k: nat)
    requires ValidChain(sha, rows) && k <= |rows|
    ensures ValidChain(sha, rows[..k])
  {
    forall i | 0 <= i < k ensures LinkedAt(sha, rows[..k], i) {
      assert LinkedAt(sha, rows, i);
      assert rows[..k][..i] == rows[..i];
    }
  }

  /** Nothing past a badly linked row can be valid again. */
  lemma BadRowStops(sha: Digest, rows: seq<ChainRow>, bad: nat)
    requires bad < |rows|
    requires rows[bad].prevHash != HeadHash(sha, rows[..bad])
          || rows[bad].rowHash != ComputeRowHash(sha, HeadHash(sha, rows[..bad]), rows[bad].payload)
    ensures forall k :: bad < k <= |rows| ==> !ValidChain(sha, rows[..k])
    ensures !ValidChain(sha, rows)
  {
    forall k | bad < k <= |rows| ensures !ValidChain(sha, rows[..k]) {
      assert rows[..k][..bad] == rows[..bad];
      assert !LinkedAt(sha, rows[..k], bad);
    }
    assert rows[..|rows|] == rows;
  }

  // ---- tamper evidence ----

  /** A stored audit row: its key, the columns the chain covers, both hashes. */
  datatype AuditRow = AuditRow(id: int, columns: AuditPayload.Columns, prevHash: Bytes, rowHash: Bytes)

  function ViewRow(r: AuditRow): ChainRow {
    ChainRow(r.id, r.columns.at, r.columns.stage, r.prevHash, r.rowHash, AuditPayload.Payload(r.columns))
  }

  function View(log: seq<AuditRow>): (v: seq<ChainRow>)
    ensures |v| == |log|
  {
    seq(|log|, i requires 0 <= i < |log| => ViewRow(log[i]))
  }

  predicate ValidLog(sha: Digest, log: seq<AuditRow>) {
    ValidChain(sha, View(log))
  }

  function LogHead(sha: Digest, log: seq<AuditRow>): Bytes {
    HeadHash(sha, View(log))
  }

  predicate SameColumns(a: seq<AuditRow>, b: seq<AuditRow>) {
    |a| == |b| && forall i :: 0 <= i < |a| ==> a[i].columns == b[i].columns
  }

  ghost predicate Collides(sha: Digest, p: (Bytes, Bytes)) {
    p.0 != p.1 && sha(p.0) == sha(p.1)
  }

  /** What was hashed to give the head of a log. */
  function HeadInput(log: seq<AuditRow>): Bytes {
    if log == [] then GenesisInput()
    else log[|log| - 1].prevHash + AuditPayload.Payload(log[|log| - 1].columns)
  }

  /** Walks two logs backwards from their heads to the first pair of hash inputs
      that differ. */
  function FindCollision(a: seq<AuditRow>, b: seq<AuditRow>): Option<(Bytes, Bytes)> {
    if HeadInput(a) != HeadInput(b) then Some((HeadInput(a), HeadInput(b)))
    else if a == [] || b == [] then None
    else FindCollision(a[..|a| - 1], b[..|b| - 1])
  }

  lemma LogHeadIsHashed(sha: Digest, log: seq<AuditRow>)
    requires ValidLog(sha, log)
    ensures LogHead(sha, log) == sha(HeadInput(log))
    ensures log != [] ==>
              var init := log[..|log| - 1];
              ValidLog(sha, init) && log[|log| - 1].prevHash == LogHead(sha, init)
  {
    if log != [] {
      var n, v := |log| - 1, View(log);
      assert LinkedAt(sha, v, n);
      ValidPrefix(sha, v, n);
      ViewInit(log);
    }
  }

  lemma ViewInit(log: seq<AuditRow>)
    requires log != []
    ensures var n := |log| - 1; View(log)[..n] == View(log[..n]) && View(log)[n] == ViewRow(log[n])
  {
  }

  /** A row hashes a digest and a payload, which is never empty, so its input is
      longer than the genesis seed. */
  lemma GenesisInputIsNoRow(sha: Digest, log: seq<AuditRow>)
    requires Is256Bit(sha) && ValidLog(sha, log) && log != []
    ensures HeadInput(log) != GenesisInput()
  {
    LogHeadIsHashed(sha, log);
    var last := log[|log| - 1];
    AuditPayload.PayloadNonEmpty(last.columns);
    LogHeadIsHashed(sha, log[..|log| - 1]);
    assert |last.prevHash| == 32;
  }

  lemma PrevHashIsDigest(sha: Digest, log: seq<AuditRow>)
    requires Is256Bit(sha) && ValidLog(sha, log) && log != []
    ensures |log[|log| - 1].prevHash| == 32
  {
    LogHeadIsHashed(sha, log);
    LogHeadIsHashed(sha, log[..|log| - 1]);
  }

  lemma SameInputSameRow(x: AuditRow, y: AuditRow)
    requires |x.prevHash| == |y.prevHash|
    requires x.prevHash + AuditPayload.Payload(x.columns) == y.prevHash + AuditPayload.Payload(y.columns)
    ensures x.prevHash == y.prevHash && x.columns == y.columns
  {
    var p, q := AuditPayload.Payload(x.columns), AuditPayload.Payload(y.columns);
    var n := |x.prevHash|;
    assert x.prevHash == (x.prevHash + p)[..n] && y.prevHash == (y.prevHash + q)[..n];
    assert p == (x.prevHash + p)[n..] && q == (y.prevHash + q)[n..];
    AuditPayload.PayloadInjective(x.columns, y.columns);
  }

  lemma SameColumnsSnoc(a: seq<AuditRow>, b: seq<AuditRow>)
    requires a != [] && b != [] && a[|a| - 1].columns == b[|b| - 1].columns
    requires SameColumns(a[..|a| - 1], b[..|b| - 1])
    ensures SameColumns(a, b)
  {
    forall i | 0 <= i < |a| - 1 ensures a[i].columns == b[i].columns {
      assert a[..|a| - 1][i].columns == b[..|b| - 1][i].columns;
    }
  }

  /** Two valid logs, of any lengths, with the same head hash: either every audit
      column of every row agrees, or walking back from the heads exhibits two
      different inputs with the same digest. */
  lemma {:induction false} TamperEvidence(sha: Digest, a: seq<AuditRow>, b: seq<AuditRow>)
    requires Is256Bit(sha)
    requires ValidLog(sha, a) && ValidLog(sha, b)
    requires LogHead(sha, a) == LogHead(sha, b)
    ensures match FindCollision(a, b)
            case Some(pair) => Collides(sha, pair)
            case None => SameColumns(a, b)
    decreases |a|
  {
    LogHeadIsHashed(sha, a);
    LogHeadIsHashed(sha, b);
    if HeadInput(a) != HeadInput(b) {
      return;
    }
    if a == [] || b == [] {
      if a != [] { GenesisInputIsNoRow(sha, a); }
      if b != [] { GenesisInputIsNoRow(sha, b); }
      return;
    }
    PrevHashIsDigest(sha, a);
    PrevHashIsDigest(sha, b);
    SameInputSameRow(a[|a| - 1], b[|b| - 1]);
    TamperEvidence(sha, a[..|a| - 1], b[..|b| - 1]);
    if FindCollision(a[..|a| - 1], b[..|b| - 1]).None? { SameColumnsSnoc(a, b); }
  }

  /** So against a digest without known collisions the checker catches every
      edit, insertion, deletion or reordering that leaves the newest row's hash
      alone: it does not accept a log whose columns were altered. */
  lemma TamperedLogIsRefused(sha: Digest, honest: seq<AuditRow>, altered: seq<AuditRow>)
    requires Is256Bit(sha) && ValidLog(sha, honest)
    requires LogHead(sha, honest) == LogHead(sha, altered)
    ensures SameColumns(honest, altered) || !ValidLog(sha, altered)
         || (FindCollision(honest, altered).Some? && Collides(sha, FindCollision(honest, altered).value))
  {
    if ValidLog(sha, altered) { TamperEvidence(sha, honest, altered); }
  }
}
