/** Audit search (internal/api/handlers/admin_audit.go) and the pages that the
    admin UI builds from it (internal/adminui/audit.go): keyset pagination over
    a table to which writers keep appending. */
module AuditPages {
  import opened Options
  import opened AuditChain
  import opened AuditWriter
  import opened Sequences
  import Decimal

  /** The search conditions; empty strings and missing times mean "any". */
  datatype Filter = Filter(traceId: string, appId: string, stage: string,
                           since: Option<int>, until: Option<int>)

  /** A search as it arrives, `limit` and `beforeId` still text. */
  datatype Query = Query(filter: Filter, limit: string, beforeId: string)

  datatype SearchResult = Rows(rows: seq<AuditRow>) | Denied(code: string)

  predicate Matches(f: Filter, r: AuditRow) {
    && (f.traceId == "" || r.columns.traceId == Some(f.traceId))
    && (f.appId == "" || r.columns.appId == Some(f.appId))
    && (f.stage == "" || r.columns.stage == Some(f.stage))
    && (f.since.Some? ==> f.since.value <= r.columns.at)
    && (f.until.Some? ==> r.columns.at <= f.until.value)
  }

  type Condition = AuditRow -> bool

  /** The WHERE clause of a filter. */
  function Where(f: Filter): Condition { r => Matches(f, r) }

  predicate Selected(keep: Condition, before: Option<int>, r: AuditRow) {
    keep(r) && (before.Some? ==> r.id < before.value)
  }

  /** The selected rows among the first `n`, newest first. */
  function MatchingTo(t: seq<AuditRow>, n: nat, keep: Condition, before: Option<int>): seq<AuditRow>
    requires n <= |t|
  {
    if n == 0 then []
    else if Selected(keep, before, t[n - 1]) then [t[n - 1]] + MatchingTo(t, n - 1, keep, before)
    else MatchingTo(t, n - 1, keep, before)
  }

  function Matching(t: seq<AuditRow>, keep: Condition, before: Option<int>): seq<AuditRow> {
    MatchingTo(t, |t|, keep, before)
  }

  function Take<T>(s: seq<T>, n: nat): seq<T> { if n < |s| then s[..n] else s }

  /** The row limit: 50 if absent, an error outside 1..500. */
  function ParseLimit(s: string): Option<int> {
    if s == "" then Some(50)
    else
      var v := Decimal.ParseInt64(s);
      if v.Some? && 1 <= v.value <= 500 then v else None
  }

  /** The cursor: none if absent, an error unless positive. */
  function ParseBefore(s: string): Option<Option<int>> {
    if s == "" then Some(None)
    else
      var v := Decimal.ParseInt64(s);
      if v.Some? && v.value >= 1 then Some(v) else None
  }

  function SearchSpec(stages: set<string>, table: seq<AuditRow>, q: Query): SearchResult {
    var limit, before := ParseLimit(q.limit), ParseBefore(q.beforeId);
    if limit.None? then Denied("invalid_limit")
    else if before.None? then Denied("invalid_before_id")
    else if q.filter.stage != "" && q.filter.stage !in stages then Denied("invalid_stage")
    else Rows(Take(Matching(table, Where(q.filter), before.value), limit.value))
  }

  method CollectRows(table: seq<AuditRow>, keep: Condition, before: Option<int>, limit: nat) returns (results: seq<AuditRow>)
    ensures results == Take(Matching(table, keep, before), limit)
  {
    ghost var all := Matching(table, keep, before);
    results := [];
    var i := |table|;
    while i > 0 && |results| < limit
      invariant 0 <= i <= |table| && |results| <= limit
      invariant results + MatchingTo(table, i, keep, before) == all
    {
      i := i - 1;
      if Selected(keep, before, table[i]) {
        Regroup(results, [table[i]], MatchingTo(table, i, keep, before));
        results := results + [table[i]];
      }
    }
    assert all[..|results|] == results;
  }

  method Search(stages: set<string>, table: seq<AuditRow>, q: Query) returns (r: SearchResult)
    ensures r == SearchSpec(stages, table, q)
  {
    var limit := 50;
    if q.limit != "" {
      var v := Decimal.ParseInt64(q.limit);
      if v.None? || v.value <= 0 || v.value > 500 { return Denied("invalid_limit"); }
      limit := v.value;
    }
    var before: Option<int> := None;
    if q.beforeId != "" {
      var v := Decimal.ParseInt64(q.beforeId);
      if v.None? || v.value <= 0 { return Denied("invalid_before_id"); }
      before := v;
    }
    if q.filter.stage != "" && q.filter.stage !in stages { return Denied("invalid_stage"); }
    var results := CollectRows(table, Where(q.filter), before, limit);
    r := Rows(results);
  }

  // ---- pages ----

  /** A page as rendered: the rows, the query of its "next" link, an error code. */
  datatype Page = Page(rows: seq<AuditRow>, next: Option<Query>, error: string)

  /** The page size that the limit text stands for, 0 if it is no positive number. */
  function PageSize(limit: string): nat {
    var n := Decimal.ParseInt64(limit);
    if n.Some? && n.value > 0 then n.value else 0
  }

  /** `n + 1` on a 64-bit int. */
  function Increment(n: int): int { if n == Decimal.MAX_INT64 then Decimal.MIN_INT64 else n + 1 }

  /** The limit sent to the server: one probe row more, capped at its maximum. */
  function FetchLimit(limit: string): string {
    var size := PageSize(limit);
    if size > 0 then Decimal.IntText(if Increment(size) < 500 then Increment(size) else 500) else limit
  }

  function PageOf(stages: set<string>, table: seq<AuditRow>, q: Query): Page {
    PageFrom(q, PageSize(q.limit), SearchSpec(stages, table, q.(limit := FetchLimit(q.limit))))
  }

  /** The page that shows a search result cut to `size` rows. */
  function PageFrom(q: Query, size: nat, found: SearchResult): Page {
    match found
    case Denied(code) => Page([], None, code)
    case Rows(rows) =>
      if size > 0 && |rows| > size
      then Page(rows[..size], Some(q.(beforeId := Decimal.IntText(rows[size - 1].id))), "")
      else Page(rows, None, "")
  }

  method AuditPageData(stages: set<string>, table: seq<AuditRow>, q: Query) returns (page: Page)
    ensures page == PageOf(stages, table, q)
  {
    var found := Search(stages, table, q.(limit := FetchLimit(q.limit)));
    page := ShowPage(q, PageSize(q.limit), found);
  }

  method ShowPage(q: Query, size: nat, found: SearchResult) returns (page: Page)
    ensures page == PageFrom(q, size, found)
  {
    if found.Denied? { return Page([], None, found.code); }
    var rows := found.rows;
    var hasNext := size > 0 && |rows| > size;
    if hasNext { rows := rows[..size]; }
    var shown, i := [], 0;
    while i < |rows|
      invariant 0 <= i <= |rows| && shown == rows[..i]
    {
      shown := shown + [rows[i]];
      i := i + 1;
    }
    var next: Option<Query> := None;
    if hasNext && |shown| > 0 {
      next := Some(q.(beforeId := Decimal.IntText(shown[|shown| - 1].id)));
    }
    page := Page(shown, next, "");
  }

  // ---- the same page with its numbers read ----

  datatype NumPage = NumPage(rows: seq<AuditRow>, next: Option<int>)

  function CursorText(before: Option<int>): string {
    if before.Some? then Decimal.IntText(before.value) else ""
  }

  /** The query for one page below a cursor; `limit` is any text that stands for a
      number, with a sign or leading zeros or not. */
  function PageQuery(f: Filter, limit: string, before: Option<int>): Query {
    Query(f, limit, CursorText(before))
  }

  /** The next `size` matches, and the id of the last one as the cursor for what
      remains, if anything does. */
  function NumPageOf(table: seq<AuditRow>, keep: Condition, size: nat, before: Option<int>): NumPage
    requires size > 0
  {
    var m := Matching(table, keep, before);
    if |m| > size then NumPage(m[..size], Some(m[size - 1].id)) else NumPage(m, None)
  }

  lemma NonEmptyText(n: int)
    ensures Decimal.IntText(n) != ""
  {
    Decimal.NatTextDigits(if n < 0 then -n else n);
  }

  lemma ParsesBack(n: int)
    requires 1 <= n <= Decimal.MAX_INT64
    ensures PageSize(Decimal.IntText(n)) == n
    ensures ParseBefore(Decimal.IntText(n)) == Some(Some(n))
    ensures ParseLimit(Decimal.IntText(n)) == if n <= 500 then Some(n) else None
  {
    NonEmptyText(n);
    Decimal.ParseIntInverts(n);
  }

  /** Page sizes up to 499: the page is the next `size` matches, with a link on
      exactly when there are more, and the link's text reads back as the cursor. */
  lemma PageIsNumPage(stages: set<string>, t: seq<AuditRow>, f: Filter, limit: string, before: Option<int>)
    requires 1 <= PageSize(limit) <= 499 && (f.stage == "" || f.stage in stages)
    requires before.Some? ==> 1 <= before.value <= Decimal.MAX_INT64
    ensures Prints(f, limit, PageOf(stages, t, PageQuery(f, limit, before)), NumPageOf(t, Where(f), PageSize(limit), before))
  {
    var size := PageSize(limit);
    ProbeFinds(stages, t, f, limit, before);
    var m := Matching(t, Where(f), before);
    assert |m| > size ==> Take(m, size + 1)[..size] == m[..size];
  }

  /** The page as it is rendered, its cursor as text in the link on. */
  predicate Prints(f: Filter, limit: string, page: Page, np: NumPage) {
    page == Page(np.rows, if np.next.Some? then Some(PageQuery(f, limit, np.next)) else None, "")
  }

  lemma ProbeFinds(stages: set<string>, t: seq<AuditRow>, f: Filter, limit: string, before: Option<int>)
    requires 1 <= PageSize(limit) <= 499 && (f.stage == "" || f.stage in stages)
    requires before.Some? ==> 1 <= before.value <= Decimal.MAX_INT64
    ensures var q := PageQuery(f, limit, before);
      SearchSpec(stages, t, q.(limit := FetchLimit(q.limit))) ==
        Rows(Take(Matching(t, Where(f), before), PageSize(limit) + 1))
  {
    ParsesBack(PageSize(limit) + 1);
    if before.Some? { ParsesBack(before.value); }
  }

  /** From 500 up the probe row no longer fits the server's cap: below any cursor
      the page has no link on and is complete exactly when at most 500 rows match;
      and at the largest limit, where the probe wraps around, it is an error. */
  lemma LargePagesTruncate(stages: set<string>, t: seq<AuditRow>, f: Filter, limit: string, before: Option<int>)
    requires PageSize(limit) >= 500 && (f.stage == "" || f.stage in stages)
    requires before.Some? ==> 1 <= before.value <= Decimal.MAX_INT64
    ensures var m, page := Matching(t, Where(f), before), PageOf(stages, t, PageQuery(f, limit, before));
      if PageSize(limit) == Decimal.MAX_INT64 then page == Page([], None, "invalid_limit")
      else page == Page(Take(m, 500), None, "") && (page.rows == m <==> |m| <= 500)
  {
    if before.Some? { ParsesBack(before.value); }
    if PageSize(limit) == Decimal.MAX_INT64 { WrappedLimit(); } else { ParsesBack(500); }
  }

  /** Sizes are read from any text of the number. */
  lemma SizeOfText(n: int)
    requires 1 <= n <= Decimal.MAX_INT64
    ensures PageSize(Decimal.IntText(n)) == n && PageSize("+" + Decimal.IntText(n)) == n && PageSize("0" + Decimal.IntText(n)) == n
  {
    ParsesBack(n);
    Decimal.SignAndZero(n);
  }

  lemma WrappedLimit()
    ensures ParseLimit(Decimal.IntText(Decimal.MIN_INT64)) == None
  {
    NonEmptyText(Decimal.MIN_INT64);
    Decimal.ParseIntInverts(Decimal.MIN_INT64);
  }

  // ---- following "next" links ----

  /** The matches of a prefix are selected rows of it, newest first, and all of them. */
  lemma {:induction false} MatchingFacts(t: seq<AuditRow>, n: nat, keep: Condition, before: Option<int>)
    requires n <= |t| && IdsAscend(t)
    ensures var m := MatchingTo(t, n, keep, before);
      && (forall r :: r in m <==> r in t[..n] && Selected(keep, before, r))
      && (forall i, j :: 0 <= i < j < |m| ==> m[i].id > m[j].id)
      && (forall i :: 0 <= i < |m| ==> n > 0 && m[i].id <= t[n - 1].id)
  {
    if n > 0 {
      MatchingFacts(t, n - 1, keep, before);
      assert t[..n] == t[..n - 1] + [t[n - 1]];
    }
  }

  /** A cursor above every id selects nothing away. */
  lemma {:induction false} HighCursor(t: seq<AuditRow>, n: nat, keep: Condition, c: int)
    requires n <= |t| && forall i :: 0 <= i < n ==> t[i].id < c
    ensures MatchingTo(t, n, keep, Some(c)) == MatchingTo(t, n, keep, None)
  {
    if n > 0 { HighCursor(t, n - 1, keep, c); }
  }

  /** Resuming below the id of the i-th match yields exactly the matches after it. */
  lemma {:induction false} CursorResumes(t: seq<AuditRow>, n: nat, keep: Condition, i: nat)
    requires n <= |t| && IdsAscend(t) && i < |MatchingTo(t, n, keep, None)|
    ensures var m := MatchingTo(t, n, keep, None);
      MatchingTo(t, n, keep, Some(m[i].id)) == m[i + 1..]
  {
    if n > 0 {
      var older := MatchingTo(t, n - 1, keep, None);
      if !keep(t[n - 1]) {
        CursorResumes(t, n - 1, keep, i);
        MatchingFacts(t, n - 1, keep, None);
      } else if i == 0 {
        HighCursor(t, n - 1, keep, t[n - 1].id);
      } else {
        MatchingFacts(t, n - 1, keep, None);
        CursorResumes(t, n - 1, keep, i - 1);
        assert ([t[n - 1]] + older)[i + 1..] == older[i..];
      }
    }
  }

  lemma {:induction false} MatchingOfPrefix(t: seq<AuditRow>, later: seq<AuditRow>, n: nat, keep: Condition, before: Option<int>)
    requires n <= |t| && t <= later
    ensures MatchingTo(later, n, keep, before) == MatchingTo(t, n, keep, before)
  {
    if n > 0 { MatchingOfPrefix(t, later, n - 1, keep, before); }
  }

  /** Rows appended later lie above any cursor taken from the older snapshot. */
  lemma {:induction false} NewRowsStayHidden(t: seq<AuditRow>, later: seq<AuditRow>, n: nat, keep: Condition, c: int)
    requires |t| <= n <= |later| && t <= later && IdsAscend(later)
    requires t != [] && c <= t[|t| - 1].id
    ensures MatchingTo(later, n, keep, Some(c)) == Matching(t, keep, Some(c))
  {
    if n == |t| {
      MatchingOfPrefix(t, later, n, keep, Some(c));
    } else {
      assert later[|t| - 1] == t[|t| - 1];
      NewRowsStayHidden(t, later, n - 1, keep, c);
    }
  }

  function RowsOf(pages: seq<NumPage>): seq<AuditRow> {
    if pages == [] then [] else RowsOf(pages[..|pages| - 1]) + pages[|pages| - 1].rows
  }

  /** Successive reads of a table that is only appended to, under rising ids. */
  predicate Growing(snaps: seq<seq<AuditRow>>)
    requires |snaps| > 0
  {
    forall k :: 0 <= k < |snaps| ==> IdsAscend(snaps[k]) && snaps[0] <= snaps[k]
  }

  /** The pages seen by opening the first page and following "next" links, each
      page computed on the snapshot that its request found. */
  predicate Walk(snaps: seq<seq<AuditRow>>, keep: Condition, size: nat, pages: seq<NumPage>)
    requires size > 0
  {
    && |pages| == |snaps| > 0 && Growing(snaps)
    && pages[0] == NumPageOf(snaps[0], keep, size, None)
    && forall k :: 0 <= k < |pages| - 1 ==>
         pages[k].next.Some? && pages[k + 1] == NumPageOf(snaps[k + 1], keep, size, pages[k].next)
  }

  /** What a walk has shown so far: the newest matches of the first snapshot, in
      full pages before the last, with a link on exactly while some remain. */
  predicate Shown(m: seq<AuditRow>, size: nat, count: nat, shown: seq<AuditRow>, next: Option<int>) {
    && shown <= m
    && (next.Some? <==> |shown| < |m|)
    && (next.Some? ==> 0 < |shown| == size * count && next.value == m[|shown| - 1].id)
    && |shown| <= size * count
    && (count > 1 ==> size * (count - 1) < |m|)
  }

  lemma NextPage(t: seq<AuditRow>, later: seq<AuditRow>, keep: Condition, size: nat, shown: nat)
    requires size > 0 && t <= later && IdsAscend(later)
    requires 0 < shown < |Matching(t, keep, None)|
    ensures var m := Matching(t, keep, None);
      NumPageOf(later, keep, size, Some(m[shown - 1].id)) ==
        if |m| - shown > size then NumPage(m[shown..shown + size], Some(m[shown + size - 1].id))
        else NumPage(m[shown..], None)
  {
    var m := Matching(t, keep, None);
    var c := m[shown - 1].id;
    assert IdsAscend(t);
    MatchingFacts(t, |t|, keep, None);
    NewRowsStayHidden(t, later, |later|, keep, c);
    CursorResumes(t, |t|, keep, shown - 1);
    SliceOfTail(m, shown, size);
  }

  lemma SliceOfTail<T>(m: seq<T>, from: nat, size: nat)
    requires from <= |m|
    ensures |m| - from > size ==> m[from..][..size] == m[from..from + size]
  {
  }

  lemma ShownStep(m: seq<AuditRow>, size: nat, count: nat, shown: seq<AuditRow>, next: Option<int>, page: NumPage)
    requires size > 0 && count > 0 && Shown(m, size, count, shown, next) && next.Some?
    requires var n := |shown|;
      page == if |m| - n > size then NumPage(m[n..n + size], Some(m[n + size - 1].id)) else NumPage(m[n..], None)
    ensures Shown(m, size, count + 1, shown + page.rows, page.next)
  {
    MulStep(size, count + 1);
    assert shown + page.rows == m[..|shown| + |page.rows|];
  }

  lemma WalkInit(snaps: seq<seq<AuditRow>>, keep: Condition, size: nat, pages: seq<NumPage>)
    requires size > 0 && Walk(snaps, keep, size, pages) && |pages| > 1
    ensures var k := |pages| - 1;
      && Walk(snaps[..k], keep, size, pages[..k])
      && pages[k - 1].next.Some? && pages[k] == NumPageOf(snaps[k], keep, size, pages[k - 1].next)
  {
    var k := |pages| - 1;
    assert pages[k - 1 + 1] == pages[k];
  }

  lemma {:induction false} WalkShows(snaps: seq<seq<AuditRow>>, keep: Condition, size: nat, pages: seq<NumPage>)
    requires size > 0 && Walk(snaps, keep, size, pages)
    ensures Shown(Matching(snaps[0], keep, None), size, |pages|, RowsOf(pages), pages[|pages| - 1].next)
    decreases |pages|
  {
    var k := |pages| - 1;
    if k == 0 {
      assert RowsOf(pages[..0]) == [];
    } else {
      WalkInit(snaps, keep, size, pages);
      var m, shown := Matching(snaps[0], keep, None), RowsOf(pages[..k]);
      WalkShows(snaps[..k], keep, size, pages[..k]);
      NextPage(snaps[0], snaps[k], keep, size, |shown|);
      ShownStep(m, size, k, shown, pages[k - 1].next, pages[k]);
    }
  }

  lemma CeilingUnique(size: nat, pages: nat, n: nat)
    requires size > 0 && pages > 0 && n <= size * pages
    requires pages > 1 ==> size * (pages - 1) < n
    ensures pages == if n == 0 then 1 else (n + size - 1) / size
  {
    if n > 0 {
      var q, r := (n + size - 1) / size, (n + size - 1) % size;
      assert n + size - 1 == size * q + r;
      if q < pages { MulLe(size, q, pages - 1); MulStep(size, pages); }
      if q > pages { MulLe(size, pages + 1, q); MulStep(size, pages + 1); }
      if pages == 1 { assert size * pages == size; }
    }
  }

  lemma MulLe(d: nat, a: nat, b: nat)
    requires a <= b
    ensures d * a <= d * b
  {
  }

  lemma MulStep(d: nat, a: nat)
    requires a > 0
    ensures d * a == d * (a - 1) + d
  {
  }

  /** The rows shown are the matches of `table`, each once and the newest first, in
      max(1, ceil(N/size)) pages. */
  ghost predicate ShowsEverything(shown: seq<AuditRow>, table: seq<AuditRow>, keep: Condition, size: nat, count: nat)
    requires size > 0
  {
    && (forall r :: r in shown <==> r in table && keep(r))
    && (forall i, j :: 0 <= i < j < |shown| ==> shown[i].id > shown[j].id)
    && count == if |shown| == 0 then 1 else (|shown| + size - 1) / size
  }

  /** A walk followed to its end shows every row that matched at the first query
      exactly once, in strictly decreasing id order, in max(1, ceil(N/size))
      pages, whatever was appended between the requests. */
  lemma WalkIsComplete(snaps: seq<seq<AuditRow>>, keep: Condition, size: nat, pages: seq<NumPage>)
    requires size > 0 && Walk(snaps, keep, size, pages)
    requires pages[|pages| - 1].next.None?
    ensures ShowsEverything(RowsOf(pages), snaps[0], keep, size, |pages|)
  {
    WalkShowsAll(snaps, keep, size, pages);
    MatchingFacts(snaps[0], |snaps[0]|, keep, None);
    assert snaps[0][..|snaps[0]|] == snaps[0];
  }

  lemma WalkShowsAll(snaps: seq<seq<AuditRow>>, keep: Condition, size: nat, pages: seq<NumPage>)
    requires size > 0 && Walk(snaps, keep, size, pages) && pages[|pages| - 1].next.None?
    ensures var shown := RowsOf(pages);
      && shown == Matching(snaps[0], keep, None)
      && |pages| == if |shown| == 0 then 1 else (|shown| + size - 1) / size
  {
    WalkShows(snaps, keep, size, pages);
    CeilingUnique(size, |pages|, |RowsOf(pages)|);
  }

  // ---- the links as the browser follows them ----

  function PageRows(pages: seq<Page>): seq<AuditRow> {
    if pages == [] then [] else PageRows(pages[..|pages| - 1]) + pages[|pages| - 1].rows
  }

  /** Opening the first page and following the "next" links as they are printed. */
  predicate LinkWalk(stages: set<string>, snaps: seq<seq<AuditRow>>, f: Filter, limit: string, pages: seq<Page>) {
    && |pages| == |snaps| > 0
    && pages[0] == PageOf(stages, snaps[0], PageQuery(f, limit, None))
    && forall k :: 0 <= k < |pages| - 1 ==>
         pages[k].next.Some? && pages[k + 1] == PageOf(stages, snaps[k + 1], pages[k].next.value)
  }

  /** Ids are values of a bigint column. */
  predicate IdsFit(snaps: seq<seq<AuditRow>>) {
    forall k :: 0 <= k < |snaps| ==> IdsBelow(snaps[k], Decimal.MAX_INT64 + 1)
  }

  lemma CursorFits(t: seq<AuditRow>, keep: Condition, size: nat, before: Option<int>)
    requires size > 0 && IdsAscend(t) && IdsBelow(t, Decimal.MAX_INT64 + 1)
    ensures var next := NumPageOf(t, keep, size, before).next;
      next.Some? ==> 1 <= next.value <= Decimal.MAX_INT64
  {
    var m := Matching(t, keep, before);
    MatchingFacts(t, |t|, keep, before);
    if |m| > size {
      assert m[size - 1] in m;
      assert m[size - 1] in t[..|t|];
    }
  }

  lemma WalkCursorFits(snaps: seq<seq<AuditRow>>, keep: Condition, size: nat, nums: seq<NumPage>)
    requires size > 0 && Walk(snaps, keep, size, nums) && IdsFit(snaps)
    ensures var next := nums[|nums| - 1].next;
      next.Some? ==> 1 <= next.value <= Decimal.MAX_INT64
  {
    var k := |nums| - 1;
    if k == 0 {
      CursorFits(snaps[0], keep, size, None);
    } else {
      WalkInit(snaps, keep, size, nums);
      CursorFits(snaps[k], keep, size, nums[k - 1].next);
    }
  }

  lemma LinkWalkInit(stages: set<string>, snaps: seq<seq<AuditRow>>, f: Filter, limit: string, pages: seq<Page>)
    requires LinkWalk(stages, snaps, f, limit, pages) && |pages| > 1
    ensures var k := |pages| - 1;
      && LinkWalk(stages, snaps[..k], f, limit, pages[..k])
      && pages[k - 1].next.Some? && pages[k] == PageOf(stages, snaps[k], pages[k - 1].next.value)
  {
    var k := |pages| - 1;
    assert pages[k - 1 + 1] == pages[k];
  }

  lemma WalkSnoc(snaps: seq<seq<AuditRow>>, keep: Condition, size: nat, nums: seq<NumPage>, np: NumPage)
    requires size > 0 && |snaps| > 1 && Growing(snaps) && Walk(snaps[..|snaps| - 1], keep, size, nums)
    requires nums[|nums| - 1].next.Some?
    requires np == NumPageOf(snaps[|snaps| - 1], keep, size, nums[|nums| - 1].next)
    ensures Walk(snaps, keep, size, nums + [np])
  {
    var all, n := nums + [np], |nums|;
    forall k | 0 <= k < |all| - 1
      ensures all[k].next.Some? && all[k + 1] == NumPageOf(snaps[k + 1], keep, size, all[k].next)
    {
      if k < n - 1 { assert all[k + 1] == nums[k + 1] && snaps[..n][k + 1] == snaps[k + 1]; }
    }
  }

  /** Every walk along printed links is a walk along numbers. */
  lemma {:induction false} LinksAreCursors(stages: set<string>, snaps: seq<seq<AuditRow>>, f: Filter, limit: string, pages: seq<Page>)
    returns (nums: seq<NumPage>)
    requires 1 <= PageSize(limit) <= 499 && (f.stage == "" || f.stage in stages)
    requires LinkWalk(stages, snaps, f, limit, pages) && Growing(snaps) && IdsFit(snaps)
    ensures Walk(snaps, Where(f), PageSize(limit), nums) && PageRows(pages) == RowsOf(nums)
    ensures Prints(f, limit, pages[|pages| - 1], nums[|nums| - 1])
    decreases |pages|
  {
    var k := |pages| - 1;
    if k == 0 {
      FirstLink(stages, snaps[0], f, limit, pages[0]);
      assert snaps == [snaps[0]] && pages == [pages[0]];
      nums := [NumPageOf(snaps[0], Where(f), PageSize(limit), None)];
    } else {
      LinkWalkInit(stages, snaps, f, limit, pages);
      var before := LinksAreCursors(stages, snaps[..k], f, limit, pages[..k]);
      var np := LinkIsCursor(stages, snaps, f, limit, pages, before);
      WalkSnoc(snaps, Where(f), PageSize(limit), before, np);
      nums := before + [np];
      RowsSnoc(pages, before, np);
    }
  }

  lemma RowsSnoc(pages: seq<Page>, nums: seq<NumPage>, np: NumPage)
    requires pages != [] && PageRows(pages[..|pages| - 1]) == RowsOf(nums) && pages[|pages| - 1].rows == np.rows
    ensures PageRows(pages) == RowsOf(nums + [np])
  {
    assert (nums + [np])[..|nums|] == nums;
  }

  lemma FirstLink(stages: set<string>, t: seq<AuditRow>, f: Filter, limit: string, page: Page)
    requires 1 <= PageSize(limit) <= 499 && (f.stage == "" || f.stage in stages)
    requires IdsAscend(t) && page == PageOf(stages, t, PageQuery(f, limit, None))
    ensures var np := NumPageOf(t, Where(f), PageSize(limit), None);
      && Walk([t], Where(f), PageSize(limit), [np]) && PageRows([page]) == RowsOf([np])
      && Prints(f, limit, page, np)
  {
    PageIsNumPage(stages, t, f, limit, None);
    SinglePage(page, NumPageOf(t, Where(f), PageSize(limit), None));
  }

  lemma SinglePage(page: Page, np: NumPage)
    ensures PageRows([page]) == page.rows && RowsOf([np]) == np.rows
  {
    assert [page][..0] == [] && [np][..0] == [];
    assert PageRows([]) == [] && RowsOf([]) == [];
  }

  /** One printed link, followed. */
  lemma LinkIsCursor(stages: set<string>, snaps: seq<seq<AuditRow>>, f: Filter, limit: string, pages: seq<Page>, before: seq<NumPage>)
    returns (np: NumPage)
    requires 1 <= PageSize(limit) <= 499 && (f.stage == "" || f.stage in stages) && |pages| == |snaps| > 1
    requires Growing(snaps) && IdsFit(snaps) && Walk(snaps[..|snaps| - 1], Where(f), PageSize(limit), before)
    requires var k := |pages| - 1;
      && pages[k - 1].next.Some? && pages[k] == PageOf(stages, snaps[k], pages[k - 1].next.value)
      && Prints(f, limit, pages[k - 1], before[k - 1])
    ensures before[|before| - 1].next.Some?
    ensures np == NumPageOf(snaps[|snaps| - 1], Where(f), PageSize(limit), before[|before| - 1].next)
    ensures Prints(f, limit, pages[|pages| - 1], np)
  {
    var k := |pages| - 1;
    var next := before[k - 1].next;
    WalkCursorFits(snaps[..k], Where(f), PageSize(limit), before);
    PageIsNumPage(stages, snaps[k], f, limit, next);
    np := NumPageOf(snaps[k], Where(f), PageSize(limit), next);
  }

  /** For every filter and every limit text of a size 1..499: following the printed
      links from the first page to one without a link shows every row that matched
      at the first request exactly once, newest first, in max(1, ceil(N/size)) pages,
      whatever was appended between the requests. */
  lemma LinksShowEverything(stages: set<string>, snaps: seq<seq<AuditRow>>, f: Filter, limit: string, pages: seq<Page>)
    requires 1 <= PageSize(limit) <= 499 && (f.stage == "" || f.stage in stages)
    requires LinkWalk(stages, snaps, f, limit, pages) && Growing(snaps) && IdsFit(snaps)
    requires pages[|pages| - 1].next.None?
    ensures ShowsEverything(PageRows(pages), snaps[0], Where(f), PageSize(limit), |pages|)
  {
    var nums := LinksAreCursors(stages, snaps, f, limit, pages);
    WalkIsComplete(snaps, Where(f), PageSize(limit), nums);
  }

  /** And there is such a page: a walk has a link on exactly while its pages hold
      fewer rows than matched at the first request, so it ends after as many pages as
      those rows fill. */
  lemma LinksEnd(stages: set<string>, snaps: seq<seq<AuditRow>>, f: Filter, limit: string, pages: seq<Page>)
    requires 1 <= PageSize(limit) <= 499 && (f.stage == "" || f.stage in stages)
    requires LinkWalk(stages, snaps, f, limit, pages) && Growing(snaps) && IdsFit(snaps)
    ensures pages[|pages| - 1].next.None? <==> PageSize(limit) * |pages| >= |Matching(snaps[0], Where(f), None)|
  {
    var nums := LinksAreCursors(stages, snaps, f, limit, pages);
    WalkShows(snaps, Where(f), PageSize(limit), nums);
  }

  /** Snapshots read during any run of the audit writers are such reads, so the
      above holds however the writers interleave between the page requests. */
  lemma WritersGrowSnapshots(sha: Digest, s: Db, histories: seq<seq<Step>>, snaps: seq<seq<AuditRow>>)
    requires Initial(sha, s) && |snaps| == |histories| > 0
    requires forall k :: 0 <= k < |histories| ==> histories[0] <= histories[k]
    requires forall k :: 0 <= k < |snaps| ==> snaps[k] == Run(sha, s, histories[k]).table
    ensures Growing(snaps)
  {
    forall k | 0 <= k < |snaps| ensures IdsAscend(snaps[k]) && snaps[0] <= snaps[k] {
      var before := histories[0];
      var after := histories[k][|before|..];
      assert histories[k] == before + after;
      RunKeepsInv(sha, s, histories[k]);
      EveryInterleavingChains(sha, s, before, after);
    }
  }

  // ---- what is written is found ----

  /** The event itself meets the conditions of a search. */
  predicate Concerns(f: Filter, e: Event, now: int) {
    && (f.traceId != "" ==> e.traceId == f.traceId)
    && (f.appId != "" ==> e.appId == f.appId)
    && (f.stage != "" ==> e.stage == f.stage)
    && (f.since.Some? ==> f.since.value <= TimeOf(e, now))
    && (f.until.Some? ==> TimeOf(e, now) <= f.until.value)
  }

  lemma RecordedIsSelected(f: Filter, row: AuditRow, e: Event, now: int)
    requires Records(row.columns, e, now)
    ensures Matches(f, row) <==> Concerns(f, e, now)
  {
  }

  /** What a Write records, a search finds: right after any committed Write of `e`
      amid others, a search by any filter lists the row of `e`, on top, if and only
      if `e` meets the filter. */
  lemma SearchFindsWritten(sha: Digest, s: Db, w: WriterId, e: Event, now: int, fault: Fault, others: Others,
                           stages: set<string>, f: Filter)
    requires Inv(sha, s) && w !in s.open && others.Exclude(w) && (f.stage == "" || f.stage in stages)
    requires WriteAmid(sha, s, w, e, now, fault, others).1.Committed?
    ensures var table := WriteAmid(sha, s, w, e, now, fault, others).0.table;
      var found := SearchSpec(stages, table, Query(f, "", ""));
      && table != [] && Records(table[|table| - 1].columns, e, now) && found.Rows?
      && (table[|table| - 1] in found.rows <==> Concerns(f, e, now))
      && (Concerns(f, e, now) ==> found.rows != [] && found.rows[0] == table[|table| - 1])
  {
    var table := WriteAmid(sha, s, w, e, now, fault, others).0.table;
    CommittedIsRecorded(sha, s, w, e, now, fault, others);
    CommittedKeepsIds(sha, s, w, e, now, fault, others);
    RecordedIsSelected(f, table[|table| - 1], e, now);
    NewestIsOnTop(stages, table, f);
  }

  lemma NewestIsOnTop(stages: set<string>, table: seq<AuditRow>, f: Filter)
    requires table != [] && IdsAscend(table) && (f.stage == "" || f.stage in stages)
    ensures var found, last := SearchSpec(stages, table, Query(f, "", "")), table[|table| - 1];
      && found.Rows? && (last in found.rows <==> Matches(f, last))
      && (Matches(f, last) ==> found.rows != [] && found.rows[0] == last)
  {
    var m := Matching(table, Where(f), None);
    MatchingFacts(table, |table|, Where(f), None);
    TakeIsNewest(table, f, None, 50);
    if Matches(f, table[|table| - 1]) { assert Take(m, 50)[0] == m[0]; }
  }

  /** The answer to any search: the newest matches below the cursor, all of them or as
      many as the limit says, 50 if it says nothing; refused exactly if the limit is
      no number from 1 to 500, the cursor no positive number, or the stage unknown. */
  lemma SearchAnswers(stages: set<string>, t: seq<AuditRow>, q: Query)
    requires IdsAscend(t)
    ensures var limit, cursor, r := Decimal.ParseInt64(q.limit), Decimal.ParseInt64(q.beforeId), SearchSpec(stages, t, q);
      var goodLimit := q.limit == "" || (limit.Some? && 0 < limit.value <= 500);
      var goodCursor := q.beforeId == "" || (cursor.Some? && 0 < cursor.value);
      && (r == Denied("invalid_limit") <==> !goodLimit)
      && (r == Denied("invalid_before_id") <==> goodLimit && !goodCursor)
      && (r == Denied("invalid_stage") <==> goodLimit && goodCursor && q.filter.stage != "" && q.filter.stage !in stages)
      && (r.Denied? <==> !goodLimit || !goodCursor || (q.filter.stage != "" && q.filter.stage !in stages))
      && (r.Rows? ==> NewestOf(r.rows, t, q.filter, if q.beforeId == "" then None else cursor,
                               if q.limit == "" then 50 else limit.value))
  {
    var before := if q.beforeId == "" then None else Decimal.ParseInt64(q.beforeId);
    TakeIsNewest(t, q.filter, before, if ParseLimit(q.limit).Some? then ParseLimit(q.limit).value else 1);
  }

  lemma TakeIsNewest(t: seq<AuditRow>, f: Filter, before: Option<int>, limit: int)
    requires IdsAscend(t) && limit > 0
    ensures NewestOf(Take(Matching(t, Where(f), before), limit), t, f, before, limit)
  {
    var m := Matching(t, Where(f), before);
    var rows := Take(m, limit);
    MatchingFacts(t, |t|, Where(f), before);
    assert t[..|t|] == t;
    forall r | r in rows
      ensures r in m
    {
    }
    forall r | r in m && r !in rows
      ensures |rows| == limit && forall i :: 0 <= i < |rows| ==> r.id < rows[i].id
    {
      var k :| 0 <= k < |m| && m[k] == r;
      assert forall i :: 0 <= i < |rows| ==> m[i] == rows[i] && rows[i] != r;
    }
  }

  /** Rows of the table that match, below the cursor, the newest first, at most
      `limit`, and any that is missing is older than all that are shown and then
      `limit` are shown. */
  ghost predicate NewestOf(rows: seq<AuditRow>, t: seq<AuditRow>, f: Filter, before: Option<int>, limit: int) {
    && |rows| <= limit
    && (forall i, j :: 0 <= i < j < |rows| ==> rows[i].id > rows[j].id)
    && (forall r :: r in rows ==> r in t && Matches(f, r) && (before.Some? ==> r.id < before.value))
    && (forall r :: r in t && Matches(f, r) && (before.Some? ==> r.id < before.value) && r !in rows ==>
          |rows| == limit && forall i :: 0 <= i < |rows| ==> r.id < rows[i].id)
  }
}
