/** The request chart of the dashboard: selectLineSeries of
    internal/adminui/dashboard.go. The map is walked in an arbitrary order. */
module LineChart {
  import opened Decimal

  const TOP: nat := 4

  type Counts = map<string, seq<int>>

  datatype AppTotal = AppTotal(id: string, total: int)

  datatype Line = Line(name: string, counts: seq<int>, rest: bool)

  // ---- the order of the lines ----

  /** String order: by code points, which is also the order of the UTF-8 bytes. */
  predicate Less(s: string, t: string) {
    t != "" && (s == "" || s[0] < t[0] || (s[0] == t[0] && Less(s[1..], t[1..])))
  }

  lemma {:induction false} LessTransitive(s: string, t: string, u: string)
    requires Less(s, t) && Less(t, u)
    ensures Less(s, u)
  {
    if s != "" && s[0] == t[0] == u[0] { LessTransitive(s[1..], t[1..], u[1..]); }
  }

  lemma {:induction false} LessTotal(s: string, t: string)
    ensures Less(s, t) || s == t || Less(t, s)
  {
    if s != "" && t != "" && s[0] == t[0] {
      LessTotal(s[1..], t[1..]);
      assert s == [s[0]] + s[1..] && t == [t[0]] + t[1..];
    }
  }

  lemma {:induction false} LessIrreflexive(s: string)
    ensures !Less(s, s)
  {
    if s != "" { LessIrreflexive(s[1..]); }
  }

  /** The order of a dictionary: the first difference decides, and a word comes before
      its continuations. */
  lemma {:induction false} FirstDifferenceDecides(s: string, t: string, k: nat)
    requires k <= |s| && k < |t| && s[..k] == t[..k] && (k == |s| || s[k] < t[k])
    ensures Less(s, t) && !Less(t, s)
  {
    if k > 0 {
      assert s[0] == s[..k][0] == t[..k][0] == t[0];
      assert s[1..][..k - 1] == s[..k][1..] == t[..k][1..] == t[1..][..k - 1];
      FirstDifferenceDecides(s[1..], t[1..], k - 1);
    }
  }

  /** Busiest first; the id breaks ties. */
  predicate Before(a: AppTotal, b: AppTotal) {
    a.total > b.total || (a.total == b.total && Less(a.id, b.id))
  }

  lemma BeforeTransitive(a: AppTotal, b: AppTotal, c: AppTotal)
    requires Before(a, b) && Before(b, c)
    ensures Before(a, c)
  {
    if a.total == b.total == c.total { LessTransitive(a.id, b.id, c.id); }
  }

  lemma BeforeTotal(a: AppTotal, b: AppTotal)
    ensures Before(a, b) || a == b || Before(b, a)
  {
    LessTotal(a.id, b.id);
  }

  lemma BeforeAsymmetric(a: AppTotal, b: AppTotal)
    requires Before(a, b)
    ensures a != b && !Before(b, a)
  {
    if Before(b, a) { BeforeTransitive(a, b, a); }
    LessIrreflexive(a.id);
  }

  ghost predicate Sorted(ts: seq<AppTotal>) {
    forall i, j :: 0 <= i < j < |ts| ==> Before(ts[i], ts[j])
  }

  // ---- specification ----

  function SumUpTo(counts: seq<int>, n: nat): int
    requires n <= |counts|
  {
    if n == 0 then 0 else SumUpTo(counts, n - 1) + counts[n - 1]
  }

  /** The counts from `i` on, added up from the front. */
  function SumFrom(counts: seq<int>, i: nat): int
    requires i <= |counts|
    decreases |counts| - i
  {
    if i == |counts| then 0 else counts[i] + SumFrom(counts, i + 1)
  }

  /** A total is the sum of all counts. */
  lemma {:induction false} TotalsAreSums(counts: seq<int>, i: nat)
    requires i <= |counts|
    ensures SumUpTo(counts, |counts|) == SumUpTo(counts, i) + SumFrom(counts, i)
    ensures i == 0 ==> SumUpTo(counts, |counts|) == SumFrom(counts, 0)
    decreases |counts| - i
  {
    if i < |counts| { TotalsAreSums(counts, i + 1); }
  }

  function TotalOf(perApp: Counts, id: string): AppTotal
    requires id in perApp
  {
    AppTotal(id, SumUpTo(perApp[id], |perApp[id]|))
  }

  ghost predicate Lists(perApp: Counts, ids: set<string>, ts: seq<AppTotal>) {
    && (forall i :: 0 <= i < |ts| ==> ts[i].id in perApp && ts[i].id in ids && ts[i] == TotalOf(perApp, ts[i].id))
    && (forall id :: id in perApp && id in ids ==> TotalOf(perApp, id) in ts)
  }

  ghost predicate Ranked(perApp: Counts, ts: seq<AppTotal>) {
    Lists(perApp, perApp.Keys, ts) && Sorted(ts)
  }

  /** What a list of counts adds to bucket `b`. */
  function At(counts: seq<int>, b: nat): int { if b < |counts| then counts[b] else 0 }

  /** What the apps ranked from `lo` up to `hi` add to bucket `b`. */
  function Column(perApp: Counts, ts: seq<AppTotal>, lo: nat, hi: nat, b: nat): int
    requires lo <= hi <= |ts| && forall i :: 0 <= i < |ts| ==> ts[i].id in perApp
    decreases hi
  {
    if hi == lo then 0 else Column(perApp, ts, lo, hi - 1, b) + At(perApp[ts[hi - 1].id], b)
  }

  /** "기타 N개" */
  function RestLabel(n: nat): string { "\U{AE30}\U{D0C0} " + IntText(n) + "\U{AC1C}" }

  function Shown(n: nat): nat { if n <= TOP + 1 then n else TOP }

  /** Each of the first `k` apps has a line of its own. */
  ghost predicate Alone(perApp: Counts, ts: seq<AppTotal>, k: nat, lines: seq<Line>) {
    && k <= |ts| && k <= |lines|
    && forall i :: 0 <= i < k ==> ts[i].id in perApp && lines[i] == Line(ts[i].id, perApp[ts[i].id], false)
  }

  /** The line for the apps from place `k` on. */
  ghost predicate Together(perApp: Counts, buckets: nat, ts: seq<AppTotal>, k: nat, line: Line)
    requires Ranked(perApp, ts) && k <= |ts|
  {
    && line.name == RestLabel(|ts| - k) && line.rest && |line.counts| == buckets
    && forall b :: 0 <= b < buckets ==> line.counts[b] == Column(perApp, ts, k, |ts|, b)
  }

  /** Lines drawn for apps in the order `ts`. */
  ghost predicate DrawnFrom(perApp: Counts, buckets: nat, ts: seq<AppTotal>, lines: seq<Line>)
    requires Ranked(perApp, ts)
  {
    var k := Shown(|ts|);
    && Alone(perApp, ts, k, lines)
    && |lines| == (if k < |ts| then k + 1 else k)
    && (k < |ts| ==> Together(perApp, buckets, ts, k, lines[k]))
  }

  ghost predicate Drawn(perApp: Counts, buckets: nat, lines: seq<Line>) {
    exists ts :: Ranked(perApp, ts) && DrawnFrom(perApp, buckets, ts, lines)
  }

  // ---- the code ----

  method Total(counts: seq<int>) returns (sum: int)
    ensures sum == SumUpTo(counts, |counts|)
  {
    sum := 0;
    for i := 0 to |counts|
      invariant sum == SumUpTo(counts, i)
    {
      sum := sum + counts[i];
    }
  }

  method Totals(perApp: Counts) returns (totals: seq<AppTotal>)
    ensures Lists(perApp, perApp.Keys, totals)
  {
    totals := [];
    var todo := perApp.Keys;
    while todo != {}
      invariant todo <= perApp.Keys && Lists(perApp, perApp.Keys - todo, totals)
    {
      var id :| id in todo;
      var sum := Total(perApp[id]);
      totals := totals + [AppTotal(id, sum)];
      todo := todo - {id};
    }
  }

  /** sort.Slice belongs to Go's library; any way of sorting gives the same list. */
  method Sort(totals: seq<AppTotal>) returns (sorted: seq<AppTotal>)
    ensures Sorted(sorted) && forall x :: x in sorted <==> x in totals
  {
    sorted := [];
    for i := 0 to |totals|
      invariant Sorted(sorted) && forall x :: x in sorted <==> x in totals[..i]
    {
      sorted := Insert(sorted, totals[i]);
    }
  }

  method Insert(s: seq<AppTotal>, x: AppTotal) returns (r: seq<AppTotal>)
    requires Sorted(s)
    ensures Sorted(r) && forall y :: y in r <==> y in s || y == x
  {
    var p := 0;
    while p < |s| && Before(s[p], x)
      invariant 0 <= p <= |s| && forall i :: 0 <= i < p ==> Before(s[i], x)
    {
      p := p + 1;
    }
    if p < |s| && s[p] == x { return s; }
    r := s[..p] + [x] + s[p..];
    SortedInsert(s, p, x);
  }

  lemma SortedInsert(s: seq<AppTotal>, p: nat, x: AppTotal)
    requires Sorted(s) && p <= |s| && (forall i :: 0 <= i < p ==> Before(s[i], x))
    requires p < |s| ==> !Before(s[p], x) && s[p] != x
    ensures Sorted(s[..p] + [x] + s[p..])
  {
    forall j | p <= j < |s|
      ensures Before(x, s[j])
    {
      BeforeTotal(x, s[p]);
      if p < j { BeforeTransitive(x, s[p], s[j]); }
    }
  }

  method AddInto(rest: array<int>, counts: seq<int>)
    requires |counts| <= rest.Length
    modifies rest
    ensures forall b :: 0 <= b < rest.Length ==> rest[b] == old(rest[b]) + At(counts, b)
  {
    for i := 0 to |counts|
      invariant forall b :: 0 <= b < rest.Length ==> rest[b] == old(rest[b]) + if b < i then counts[b] else 0
    {
      rest[i] := rest[i] + counts[i];
    }
  }

  method Fold(perApp: Counts, buckets: nat, ts: seq<AppTotal>, lo: nat) returns (counts: seq<int>)
    requires lo <= |ts| && forall i :: 0 <= i < |ts| ==> ts[i].id in perApp
    requires forall i :: lo <= i < |ts| ==> |perApp[ts[i].id]| <= buckets
    ensures |counts| == buckets && forall b :: 0 <= b < buckets ==> counts[b] == Column(perApp, ts, lo, |ts|, b)
  {
    var rest := new int[buckets](_ => 0);
    for j := lo to |ts|
      invariant forall b :: 0 <= b < buckets ==> rest[b] == Column(perApp, ts, lo, j, b)
    {
      AddInto(rest, perApp[ts[j].id]);
    }
    return rest[..];
  }

  lemma SameLists(perApp: Counts, totals: seq<AppTotal>, ts: seq<AppTotal>)
    requires Lists(perApp, perApp.Keys, totals) && forall x :: x in ts <==> x in totals
    ensures Lists(perApp, perApp.Keys, ts)
  {
    forall i | 0 <= i < |ts|
      ensures ts[i].id in perApp && ts[i] == TotalOf(perApp, ts[i].id)
    {
      assert ts[i] in totals;
    }
  }

  lemma FoldedFit(perApp: Counts, buckets: nat, ts: seq<AppTotal>)
    requires Ranked(perApp, ts) && |ts| > TOP + 1
    requires forall id :: id in perApp && |perApp| > TOP + 1 && |Ahead(perApp, id)| >= TOP ==> |perApp[id]| <= buckets
    ensures forall i :: TOP <= i < |ts| ==> |perApp[ts[i].id]| <= buckets
  {
    RankingLength(perApp, ts);
    forall i | TOP <= i < |ts|
      ensures |perApp[ts[i].id]| <= buckets
    {
      PlaceIsAhead(perApp, ts, i);
    }
  }

  /** A folded app's counts must fit the buckets: adding them up runs past the end
      otherwise. */
  method SelectLineSeries(perApp: Counts, buckets: nat) returns (lines: seq<Line>)
    requires forall id :: id in perApp && |perApp| > TOP + 1 && |Ahead(perApp, id)| >= TOP ==> |perApp[id]| <= buckets
    ensures Drawn(perApp, buckets, lines)
  {
    var totals := Totals(perApp);
    var ts := Sort(totals);
    SameLists(perApp, totals, ts);
    var k := if |ts| <= TOP + 1 then |ts| else TOP;
    lines := [];
    for i := 0 to k
      invariant |lines| == i && forall j :: 0 <= j < i ==> lines[j] == Line(ts[j].id, perApp[ts[j].id], false)
    {
      lines := lines + [Line(ts[i].id, perApp[ts[i].id], false)];
    }
    if k < |ts| {
      FoldedFit(perApp, buckets, ts);
      var rest := Fold(perApp, buckets, ts, TOP);
      lines := lines + [Line(RestLabel(|ts| - TOP), rest, true)];
    }
    assert DrawnFrom(perApp, buckets, ts, lines);
  }

  // ---- one answer for every order of the map ----

  lemma {:induction false} SortedAgree(s: seq<AppTotal>, t: seq<AppTotal>, i: nat)
    requires Sorted(s) && Sorted(t) && forall x :: x in s <==> x in t
    requires i <= |s|
    ensures i <= |t| && s[..i] == t[..i]
  {
    if i > 0 {
      SortedAgree(s, t, i - 1);
      var x := s[i - 1];
      assert x in t;
      var j :| 0 <= j < |t| && t[j] == x;
      if j < i - 1 { BeforeAsymmetric(s[j], s[i - 1]); }
      if j > i - 1 { NoneSkipped(s, t, i - 1, j); }
    }
  }

  lemma NoneSkipped(s: seq<AppTotal>, t: seq<AppTotal>, n: nat, j: nat)
    requires Sorted(s) && Sorted(t) && forall x :: x in s <==> x in t
    requires n < |s| && n < j < |t| && s[..n] == t[..n]
    ensures t[j] != s[n]
  {
    if t[j] == s[n] {
      assert t[n] in s;
      var m :| 0 <= m < |s| && s[m] == t[n];
      BeforeAsymmetric(t[n], t[j]);
      if m < n {
        assert t[m] == s[m];
        BeforeAsymmetric(t[m], t[n]);
      }
    }
  }

  lemma RankingIsUnique(perApp: Counts, s: seq<AppTotal>, t: seq<AppTotal>)
    requires Ranked(perApp, s) && Ranked(perApp, t)
    ensures s == t
  {
    SortedAgree(s, t, |s|);
    SortedAgree(t, s, |t|);
  }

  lemma TogetherIsUnique(perApp: Counts, buckets: nat, ts: seq<AppTotal>, k: nat, line: Line, other: Line)
    requires Ranked(perApp, ts) && k <= |ts|
    requires Together(perApp, buckets, ts, k, line) && Together(perApp, buckets, ts, k, other)
    ensures line == other
  {
    assert line.counts == other.counts;
  }

  lemma AloneIsUnique(perApp: Counts, ts: seq<AppTotal>, k: nat, lines: seq<Line>, others: seq<Line>)
    requires Alone(perApp, ts, k, lines) && Alone(perApp, ts, k, others)
    ensures lines[..k] == others[..k]
  {}

  lemma DrawnFromIsUnique(perApp: Counts, buckets: nat, ts: seq<AppTotal>, lines: seq<Line>, others: seq<Line>)
    requires Ranked(perApp, ts)
    requires DrawnFrom(perApp, buckets, ts, lines) && DrawnFrom(perApp, buckets, ts, others)
    ensures lines == others
  {
    var k := Shown(|ts|);
    AloneIsUnique(perApp, ts, k, lines, others);
    if k < |ts| { TogetherIsUnique(perApp, buckets, ts, k, lines[k], others[k]); }
    SamePrefix(lines, others, k);
  }

  lemma SamePrefix(lines: seq<Line>, others: seq<Line>, k: nat)
    requires k <= |lines| == |others| <= k + 1 && lines[..k] == others[..k]
    requires k < |lines| ==> lines[k] == others[k]
    ensures lines == others
  {
    forall i | 0 <= i < |lines|
      ensures lines[i] == others[i]
    {
      if i < k { assert lines[i] == lines[..k][i]; }
    }
  }

  /** Whatever order the map is walked in, the same lines are drawn. */
  lemma DrawnIsUnique(perApp: Counts, buckets: nat, lines: seq<Line>, others: seq<Line>)
    requires Drawn(perApp, buckets, lines) && Drawn(perApp, buckets, others)
    ensures lines == others
  {
    var s :| Ranked(perApp, s) && DrawnFrom(perApp, buckets, s, lines);
    var t :| Ranked(perApp, t) && DrawnFrom(perApp, buckets, t, others);
    RankingIsUnique(perApp, s, t);
    DrawnFromIsUnique(perApp, buckets, s, lines, others);
  }

  // ---- no request is lost or counted twice ----

  /** What all apps together add to bucket `b`. */
  ghost function AllApps(perApp: Counts, b: nat): int {
    if perApp == map[] then 0
    else
      var id :| id in perApp;
      At(perApp[id], b) + AllApps(perApp - {id}, b)
  }

  lemma {:induction false} AllAppsRemove(perApp: Counts, id: string, b: nat)
    requires id in perApp
    ensures AllApps(perApp, b) == At(perApp[id], b) + AllApps(perApp - {id}, b)
    decreases |perApp|
  {
    var other :| other in perApp && AllApps(perApp, b) == At(perApp[other], b) + AllApps(perApp - {other}, b);
    if other != id {
      AllAppsRemove(perApp - {other}, id, b);
      AllAppsRemove(perApp - {id}, other, b);
      assert perApp - {other} - {id} == perApp - {id} - {other};
    }
  }

  lemma {:induction false} ColumnIsAllApps(perApp: Counts, some: Counts, ts: seq<AppTotal>, n: nat, b: nat)
    requires Ranked(perApp, ts) && n <= |ts|
    requires forall id :: id in some <==> id in perApp && TotalOf(perApp, id) in ts[..n]
    requires forall id :: id in some ==> id in perApp && some[id] == perApp[id]
    ensures Column(perApp, ts, 0, n, b) == AllApps(some, b)
  {
    if n > 0 {
      var last := ts[n - 1];
      assert last in ts[..n];
      LastIsNew(ts, n);
      AllAppsRemove(some, last.id, b);
      ColumnIsAllApps(perApp, some - {last.id}, ts, n - 1, b);
    }
  }

  lemma LastIsNew(ts: seq<AppTotal>, n: nat)
    requires Sorted(ts) && 0 < n <= |ts|
    ensures ts[n - 1] !in ts[..n - 1]
    ensures forall x :: x in ts[..n] <==> x in ts[..n - 1] || x == ts[n - 1]
  {
    assert ts[..n] == ts[..n - 1] + [ts[n - 1]];
    forall i | 0 <= i < n - 1
      ensures ts[i] != ts[n - 1]
    {
      BeforeAsymmetric(ts[i], ts[n - 1]);
    }
  }

  /** What the first `n` lines add to bucket `b`. */
  function LinesAt(lines: seq<Line>, n: nat, b: nat): int
    requires n <= |lines|
  {
    if n == 0 then 0 else LinesAt(lines, n - 1, b) + At(lines[n - 1].counts, b)
  }

  lemma {:induction false} OwnLines(perApp: Counts, ts: seq<AppTotal>, lines: seq<Line>, n: nat, b: nat)
    requires Ranked(perApp, ts) && Alone(perApp, ts, n, lines)
    ensures LinesAt(lines, n, b) == Column(perApp, ts, 0, n, b)
  {
    if n > 0 { OwnLines(perApp, ts, lines, n - 1, b); }
  }

  lemma {:induction false} ColumnSplits(perApp: Counts, ts: seq<AppTotal>, k: nat, n: nat, b: nat)
    requires Ranked(perApp, ts) && k <= n <= |ts|
    ensures Column(perApp, ts, 0, n, b) == Column(perApp, ts, 0, k, b) + Column(perApp, ts, k, n, b)
  {
    if k < n { ColumnSplits(perApp, ts, k, n - 1, b); }
  }

  lemma LinesAreColumns(perApp: Counts, buckets: nat, ts: seq<AppTotal>, lines: seq<Line>, b: nat)
    requires Ranked(perApp, ts) && DrawnFrom(perApp, buckets, ts, lines) && b < buckets
    ensures LinesAt(lines, |lines|, b) == Column(perApp, ts, 0, |ts|, b)
  {
    var k := Shown(|ts|);
    OwnLines(perApp, ts, lines, k, b);
    ColumnSplits(perApp, ts, k, |ts|, b);
  }

  /** In every bucket the lines add up to what all apps add up to. */
  lemma BucketsAreKept(perApp: Counts, buckets: nat, lines: seq<Line>, b: nat)
    requires Drawn(perApp, buckets, lines) && b < buckets
    ensures LinesAt(lines, |lines|, b) == AllApps(perApp, b)
  {
    var ts :| Ranked(perApp, ts) && DrawnFrom(perApp, buckets, ts, lines);
    LinesAreColumns(perApp, buckets, ts, lines, b);
    assert ts[..|ts|] == ts;
    ColumnIsAllApps(perApp, perApp, ts, |ts|, b);
  }

  // ---- which apps have a line of their own ----

  /** Apps that come before `id`. */
  ghost function Ahead(perApp: Counts, id: string): set<string>
    requires id in perApp
  {
    set k | k in perApp && Before(TotalOf(perApp, k), TotalOf(perApp, id))
  }

  lemma {:induction false} FirstIds(perApp: Counts, ts: seq<AppTotal>, n: nat) returns (ids: set<string>)
    requires Ranked(perApp, ts) && n <= |ts|
    ensures |ids| == n && forall id :: id in ids <==> id in perApp && TotalOf(perApp, id) in ts[..n]
  {
    if n == 0 { return {}; }
    ids := FirstIds(perApp, ts, n - 1);
    LastIsNew(ts, n);
    ids := ids + {ts[n - 1].id};
  }

  lemma PlaceIsAhead(perApp: Counts, ts: seq<AppTotal>, n: nat)
    requires Ranked(perApp, ts) && n < |ts|
    ensures |Ahead(perApp, ts[n].id)| == n
  {
    var ids := FirstIds(perApp, ts, n);
    forall id | id in perApp
      ensures id in ids <==> id in Ahead(perApp, ts[n].id)
    {
      var i :| 0 <= i < |ts| && ts[i] == TotalOf(perApp, id);
      if i < n {
        assert ts[i] in ts[..n];
      } else {
        NotAmongFirst(ts, n, i);
      }
    }
    assert ids == Ahead(perApp, ts[n].id);
  }

  lemma NotAmongFirst(ts: seq<AppTotal>, n: nat, i: nat)
    requires Sorted(ts) && n <= i < |ts|
    ensures ts[i] !in ts[..n] && !Before(ts[i], ts[n])
  {
    forall j | 0 <= j < n
      ensures ts[j] != ts[i]
    {
      BeforeAsymmetric(ts[j], ts[i]);
    }
    if n < i { BeforeAsymmetric(ts[n], ts[i]); } else { LessIrreflexive(ts[n].id); }
  }

  lemma FindPlace(perApp: Counts, ts: seq<AppTotal>, id: string) returns (place: nat)
    requires Ranked(perApp, ts) && id in perApp
    ensures place < |ts| == |perApp| && ts[place] == TotalOf(perApp, id) && place == |Ahead(perApp, id)|
  {
    assert TotalOf(perApp, id) in ts;
    place :| 0 <= place < |ts| && ts[place] == TotalOf(perApp, id);
    PlaceIsAhead(perApp, ts, place);
    RankingLength(perApp, ts);
  }

  lemma Named(perApp: Counts, ts: seq<AppTotal>, k: nat, lines: seq<Line>, place: nat)
    requires Alone(perApp, ts, k, lines) && place < k
    ensures ts[place].id in perApp && lines[place] == Line(ts[place].id, perApp[ts[place].id], false)
  {}

  lemma NotNamed(perApp: Counts, ts: seq<AppTotal>, k: nat, lines: seq<Line>, place: nat)
    requires Ranked(perApp, ts) && Alone(perApp, ts, k, lines) && k <= place < |ts|
    ensures forall i :: 0 <= i < k ==> lines[i].name != ts[place].id
  {
    forall i | 0 <= i < k
      ensures ts[i].id != ts[place].id
    {
      BeforeAsymmetric(ts[i], ts[place]);
    }
  }

  lemma AloneIffEarly(perApp: Counts, buckets: nat, ts: seq<AppTotal>, lines: seq<Line>, place: nat)
    requires Ranked(perApp, ts) && DrawnFrom(perApp, buckets, ts, lines) && place < |ts|
    ensures var id := ts[place].id;
      if place < Shown(|ts|) then place < |lines| && lines[place] == Line(id, perApp[id], false)
      else forall i :: 0 <= i < |lines| && lines[i].name == id ==> lines[i].rest
  {
    var k := Shown(|ts|);
    if k <= place { NotNamed(perApp, ts, k, lines, place); } else { Named(perApp, ts, k, lines, place); }
  }

  /** Line `i` of the apps drawn alone is the app with exactly `i` apps ahead of
      it, with its own counts; an app has such a line if and only if all apps do
      or fewer than four are ahead of it. */
  lemma AloneIffFewAhead(perApp: Counts, buckets: nat, lines: seq<Line>, id: string)
    requires Drawn(perApp, buckets, lines) && id in perApp
    ensures var n := |Ahead(perApp, id)|;
      if |perApp| <= TOP + 1 || n < TOP then n < |lines| && lines[n] == Line(id, perApp[id], false)
      else forall i :: 0 <= i < |lines| && lines[i].name == id ==> lines[i].rest
  {
    var ts :| Ranked(perApp, ts) && DrawnFrom(perApp, buckets, ts, lines);
    var place := FindPlace(perApp, ts, id);
    AloneIffEarly(perApp, buckets, ts, lines, place);
  }

  lemma RankingLength(perApp: Counts, ts: seq<AppTotal>)
    requires Ranked(perApp, ts)
    ensures |ts| == |perApp|
  {
    var ids := FirstIds(perApp, ts, |ts|);
    assert ts[..|ts|] == ts;
    assert ids == perApp.Keys;
  }

  lemma BehindIsSmaller(perApp: Counts, ts: seq<AppTotal>, k: nat, lines: seq<Line>, i: nat, place: nat)
    requires Ranked(perApp, ts) && Alone(perApp, ts, k, lines) && i < k <= place < |ts|
    ensures lines[i].name in perApp && ts[place].total <= TotalOf(perApp, lines[i].name).total
  {
    assert Before(ts[i], ts[place]);
  }

  /** Lines of single apps come by falling total, and by rising id where totals are
      equal. */
  lemma LinesAreRanked(perApp: Counts, buckets: nat, lines: seq<Line>, i: nat, j: nat)
    requires Drawn(perApp, buckets, lines) && i < j < |lines| && !lines[i].rest && !lines[j].rest
    ensures lines[i].name in perApp && lines[j].name in perApp
    ensures var a, b := TotalOf(perApp, lines[i].name).total, TotalOf(perApp, lines[j].name).total;
      a >= b && (a == b ==> Less(lines[i].name, lines[j].name))
  {
    var ts :| Ranked(perApp, ts) && DrawnFrom(perApp, buckets, ts, lines);
    AloneComesFirst(perApp, buckets, ts, lines, j);
    AloneIsRanked(perApp, ts, Shown(|ts|), lines, i, j);
  }

  lemma AloneComesFirst(perApp: Counts, buckets: nat, ts: seq<AppTotal>, lines: seq<Line>, j: nat)
    requires Ranked(perApp, ts) && DrawnFrom(perApp, buckets, ts, lines) && j < |lines| && !lines[j].rest
    ensures j < Shown(|ts|) && Alone(perApp, ts, Shown(|ts|), lines)
  {
  }

  lemma AloneIsRanked(perApp: Counts, ts: seq<AppTotal>, k: nat, lines: seq<Line>, i: nat, j: nat)
    requires Ranked(perApp, ts) && Alone(perApp, ts, k, lines) && i < j < k
    ensures lines[i].name in perApp && lines[j].name in perApp
    ensures var a, b := TotalOf(perApp, lines[i].name).total, TotalOf(perApp, lines[j].name).total;
      a >= b && (a == b ==> Less(lines[i].name, lines[j].name))
  {
    Named(perApp, ts, k, lines, i);
    Named(perApp, ts, k, lines, j);
    assert Before(ts[i], ts[j]);
  }

  /** Up to five apps are all drawn alone; of more, four are, and the last line says
      how many it stands for. */
  lemma LastLineCountsTheRest(perApp: Counts, buckets: nat, lines: seq<Line>)
    requires Drawn(perApp, buckets, lines)
    ensures if |perApp| <= 5 then |lines| == |perApp| && forall i :: 0 <= i < |lines| ==> !lines[i].rest
            else |lines| == 5 && lines[4].rest && lines[4].name == RestLabel(|perApp| - 4)
                 && forall i :: 0 <= i < 4 ==> !lines[i].rest
  {
    var ts :| Ranked(perApp, ts) && DrawnFrom(perApp, buckets, ts, lines);
    RankingLength(perApp, ts);
  }

  /** No app folded into the last line has a larger total than an app drawn alone. */
  lemma FoldedAreSmaller(perApp: Counts, buckets: nat, lines: seq<Line>, i: nat, id: string)
    requires Drawn(perApp, buckets, lines) && i < |lines| && !lines[i].rest
    requires id in perApp && forall j :: 0 <= j < |lines| && !lines[j].rest ==> lines[j].name != id
    ensures lines[i].name in perApp
    ensures TotalOf(perApp, id).total <= TotalOf(perApp, lines[i].name).total
  {
    var ts :| Ranked(perApp, ts) && DrawnFrom(perApp, buckets, ts, lines);
    var place := FindPlace(perApp, ts, id);
    AloneComesFirst(perApp, buckets, ts, lines, i);
    NamelessIsBehind(perApp, ts, Shown(|ts|), lines, place);
    BehindIsSmaller(perApp, ts, Shown(|ts|), lines, i, place);
  }

  lemma NamelessIsBehind(perApp: Counts, ts: seq<AppTotal>, k: nat, lines: seq<Line>, place: nat)
    requires Alone(perApp, ts, k, lines) && place < |ts|
    requires forall j :: 0 <= j < |lines| && !lines[j].rest ==> lines[j].name != ts[place].id
    ensures k <= place
  {
    if place < k { Named(perApp, ts, k, lines, place); }
  }
}
