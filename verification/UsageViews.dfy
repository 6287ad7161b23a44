/** The four dashboard views: totals, points over time, breakdown rows, and dedupe
    statistics, each as the loop that computes it and as what it must agree with. */
module UsageViews {
  import opened Common
  import opened UsageModel
  import opened UsageStore
  import opened UsageQueries
  import opened Sorting

  function SelectBuckets(table: Table, p: Key -> bool): Table {
    if table == [] then []
    else SelectBuckets(table[..|table| - 1], p) + if p(table[|table| - 1].key) then [table[|table| - 1]] else []
  }

  function Buckets(s: Store, f: Filters): Table { SelectBuckets(s.table, InBuckets(f)) }

  function TailRows(s: Store, f: Filters): seq<LogRow> { Keep(s.raw, InTail(f, s.watermark)) }

  lemma {:induction false} SumSelected(table: Table, p: Key -> bool, q: Key -> bool)
    ensures SumBy(SelectBuckets(table, p), q) == SumBy(table, Meet(p, q))
  {
    hide Add, SumBy;
    if table == [] {
      NoBuckets(q);
      NoBuckets(Meet(p, q));
    } else {
      var front, last := table[..|table| - 1], table[|table| - 1];
      SumSelected(front, p, q);
      assert table == front + [last];
      SumBySnoc(front, last, Meet(p, q));
      AddLaws(SumBy(front, Meet(p, q)), ZERO, ZERO);
      if p(last.key) {
        SumBySnoc(SelectBuckets(front, p), last, q);
      } else {
        assert SelectBuckets(front, p) + [] == SelectBuckets(front, p);
      }
    }
  }

  lemma NoBuckets(q: Key -> bool)
    ensures SumBy([], q) == ZERO
  {
  }

  lemma {:induction false} SelectPopulated(table: Table, p: Key -> bool)
    requires Populated(table)
    ensures Populated(SelectBuckets(table, p))
  {
    if table != [] { SelectPopulated(table[..|table| - 1], p); }
  }

  // ----- Totals --------------------------------------------------------------

  /** One raw row added field by field. */
  function AddRow(t: Sums, r: LogRow): (sums: Sums)
    ensures sums == Add(t, One(r))
  {
    t.(requests := t.requests + 1,
       cacheHits := t.cacheHits + if r.cacheHit then 1 else 0,
       failures := t.failures + if r.status == SUCCESS then 0 else 1,
       retries := t.retries + r.retries,
       inputTokens := t.inputTokens + r.inputTokens,
       outputTokens := t.outputTokens + r.outputTokens,
       cacheReads := t.cacheReads + r.cacheReads,
       cacheWrites := t.cacheWrites + r.cacheWrites,
       cost := t.cost + r.cost,
       latency := t.latency + r.latency)
  }

  /** summary's totals of a store. */
  function Totals(s: Store, f: Filters): Sums { Part(s.watermark, s.table, s.raw, f, Everything()) }

  method Summary(t: Tables, f: Filters) returns (totals: Sums)
    requires Inv(t.Snapshot())
    ensures totals == Totals(t.Snapshot(), f)
    ensures FloorHour(f.end) == f.end ==>
              totals == Scan(t.history, f, Everything()) && Counts(totals, Selected(t.history, f, Everything()))
  {
    hide Counts, Selected, Inv, Add, AddRow, Scan, Keep, SumRows, SelectBuckets, InBuckets, InTail, Part;
    totals := ZERO;
    var buckets := SelectBuckets(t.table, InBuckets(f));
    for i := 0 to |buckets|
      invariant totals == SumBy(buckets[..i], Everything())
    {
      assert buckets[..i + 1] == buckets[..i] + [buckets[i]];
      SumBySnoc(buckets[..i], buckets[i], Everything());
      totals := Add(totals, buckets[i].sums);
    }
    assert buckets[..|buckets|] == buckets;
    var rows := Keep(t.raw, InTail(f, t.watermark));
    var p := OfKey(Everything());
    RowsSoFar(rows, 0, p);
    AddLaws(totals, ZERO, ZERO);
    for i := 0 to |rows|
      invariant totals == Add(SumBy(buckets, Everything()), SumRows(rows[..i], p))
    {
      RowsSoFar(rows, i + 1, p);
      AddLaws(SumBy(buckets, Everything()), SumRows(rows[..i], p), One(rows[i]));
      totals := AddRow(totals, rows[i]);
    }
    assert rows[..|rows|] == rows;
    WholePart(t.Snapshot(), f, Everything());
    if FloorHour(f.end) == f.end {
      AlignedQueryIsScan(t.Snapshot(), f, Everything());
      ScanCounts(t.history, f, Everything());
    }
  }

  lemma RowsSoFar(rows: seq<LogRow>, i: nat, p: LogRow -> bool)
    requires i <= |rows|
    ensures i == 0 ==> SumRows(rows[..i], p) == ZERO
    ensures i > 0 && p(rows[i - 1]) ==> SumRows(rows[..i], p) == Add(SumRows(rows[..i - 1], p), One(rows[i - 1]))
  {
    if i > 0 { assert rows[..i][..i - 1] == rows[..i - 1]; }
  }

  /** Adding up what the two statements return is adding up the query's part. */
  lemma WholePart(s: Store, f: Filters, q: Key -> bool)
    ensures Add(SumBy(Buckets(s, f), q), SumRows(TailRows(s, f), OfKey(q))) == Part(s.watermark, s.table, s.raw, f, q)
  {
    hide Add, SumBy, SumRows, Keep, SelectBuckets;
    SumSelected(s.table, InBuckets(f), q);
    SumKeep(s.raw, InTail(f, s.watermark), OfKey(q));
  }

  datatype Derived = Derived(avgLatency: Option<real>, failureRate: Option<real>, cacheHitRate: Option<real>, costPerRequest: Option<real>)

  function Ratio(a: real, n: int): Option<real> { if n == 0 then None else Some(a / n as real) }

  function DerivedOf(s: Sums): Derived {
    Derived(Ratio(s.latency as real, s.requests), Ratio(s.failures as real, s.requests),
            Ratio(s.cacheHits as real, s.requests), Ratio(s.cost, s.requests))
  }

  predicate IsRate(r: Option<real>) { r.Some? ==> 0.0 <= r.value <= 1.0 }

  lemma RatioIsRate(a: int, n: int)
    requires 0 <= a <= n
    ensures IsRate(Ratio(a as real, n))
  {
    if n > 0 { assert a as real / n as real <= n as real / n as real == 1.0; }
  }

  /** Hits and failures are counted among requests, in every merged sum. */
  predicate Consistent(s: Sums) { 0 <= s.cacheHits <= s.requests && 0 <= s.failures <= s.requests }

  lemma {:induction false} RowsConsistent(rows: seq<LogRow>, p: LogRow -> bool)
    ensures Consistent(SumRows(rows, p))
  {
    if rows != [] { RowsConsistent(rows[..|rows| - 1], p); }
  }

  lemma AddConsistent(a: Sums, b: Sums)
    requires Consistent(a) && Consistent(b)
    ensures Consistent(Add(a, b))
  {
  }

  lemma PartConsistent(s: Store, f: Filters, q: Key -> bool)
    requires Inv(s)
    ensures Consistent(Part(s.watermark, s.table, s.raw, f, q))
  {
    hide Consistent, Add, SumRows, Keep, Inv, Part;
    var rolled := Keep(s.history, UpTo(s.watermark));
    QueryIsScan(s, f, q);
    RowsConsistent(s.history, Meet(InLog(f), OfKey(q)));
    RowsConsistent(rolled, Meet(Overhang(f), OfKey(q)));
    AddConsistent(Scan(s.history, f, q), Excess(rolled, f, q));
  }

  /** A per-request figure: absent without requests, else the total over their number. */
  ghost predicate PerRequest(figure: Option<real>, total: real, requests: int) {
    (figure.None? <==> requests == 0) && (figure.Some? ==> figure.value * requests as real == total)
  }

  lemma RatioIsPerRequest(a: real, n: int)
    ensures PerRequest(Ratio(a, n), a, n)
  {
  }

  /** What the card derives from the totals. */
  lemma DerivedMeans(s: Sums)
    ensures PerRequest(DerivedOf(s).avgLatency, s.latency as real, s.requests)
    ensures PerRequest(DerivedOf(s).failureRate, s.failures as real, s.requests)
    ensures PerRequest(DerivedOf(s).cacheHitRate, s.cacheHits as real, s.requests)
    ensures PerRequest(DerivedOf(s).costPerRequest, s.cost, s.requests)
  {
    hide Ratio, PerRequest;
    RatioIsPerRequest(s.latency as real, s.requests);
    RatioIsPerRequest(s.failures as real, s.requests);
    RatioIsPerRequest(s.cacheHits as real, s.requests);
    RatioIsPerRequest(s.cost, s.requests);
  }

  /** Every rate on the summary card is a rate. */
  lemma SummaryRates(s: Store, f: Filters)
    requires Inv(s)
    ensures IsRate(DerivedOf(Totals(s, f)).failureRate) && IsRate(DerivedOf(Totals(s, f)).cacheHitRate)
  {
    hide Inv, Part;
    PartConsistent(s, f, Everything());
    RatioIsRate(Totals(s, f).failures, Totals(s, f).requests);
    RatioIsRate(Totals(s, f).cacheHits, Totals(s, f).requests);
  }

  // ----- Groups --------------------------------------------------------------

  datatype View = Hourly | Daily | ByTaskType | ByModel | ByCaller | ByApiKey | ByMarket

  datatype Group = At(time: int) | Named(name: string)

  /** The group of a rollup bucket, and of a raw row, as each loop computes it. */
  function BucketGroup(view: View): Key -> Group {
    (k: Key) =>
      match view
      case Hourly => At(FloorHour(k.hour))
      case Daily => At(FloorDay(k.hour))
      case ByTaskType => Named(k.taskType)
      case ByModel => Named(k.modelId)
      case ByCaller => Named(k.callerType)
      case ByApiKey => Named(k.apiKeyId)
      case ByMarket => Named(k.market)
  }

  function RowGroup(view: View): LogRow -> Group {
    (r: LogRow) =>
      match view
      case Hourly => At(FloorHour(r.ts))
      case Daily => At(FloorDay(r.ts))
      case ByTaskType => Named(r.taskType)
      case ByModel => Named(r.modelId)
      case ByCaller => Named(r.callerType)
      case ByApiKey => Named(OrEmpty(r.apiKeyId))
      case ByMarket => Named(OrEmpty(r.market))
  }

  /** NULL and '' land together, and a bucket's day is its rows' day. */
  lemma SameGroup(view: View, r: LogRow)
    ensures RowGroup(view)(r) == BucketGroup(view)(KeyOf(r))
  {
    DayOfHour(r.ts);
    HourFacts(r.ts, 0);
  }

  type Groups = seq<Entry<Group>>

  function GroupsOf(s: Store, f: Filters, view: View): Groups {
    FoldRows(FoldEntries([], Buckets(s, f), BucketGroup(view)), TailRows(s, f), RowGroup(view))
  }

  method GroupBy(t: Tables, f: Filters, view: View) returns (groups: Groups)
    requires Inv(t.Snapshot())
    ensures groups == GroupsOf(t.Snapshot(), f, view)
  {
    hide Inv, Upsert, One, SelectBuckets, Keep, BucketGroup, RowGroup;
    groups := [];
    var buckets := SelectBuckets(t.table, InBuckets(f));
    for i := 0 to |buckets|
      invariant groups == FoldEntries([], buckets[..i], BucketGroup(view))
    {
      assert buckets[..i + 1][..i] == buckets[..i];
      groups := Upsert(groups, BucketGroup(view)(buckets[i].key), buckets[i].sums);
    }
    assert buckets[..|buckets|] == buckets;
    ghost var folded := groups;
    var rows := Keep(t.raw, InTail(f, t.watermark));
    for i := 0 to |rows|
      invariant groups == FoldRows(folded, rows[..i], RowGroup(view))
    {
      assert rows[..i + 1][..i] == rows[..i];
      groups := Upsert(groups, RowGroup(view)(rows[i]), One(rows[i]));
    }
    assert rows[..|rows|] == rows;
  }

  function InGroups(view: View, p: Group -> bool): Key -> bool { Via(BucketGroup(view), p) }

  /** Summing any groups of any view is querying the keys they stand for. */
  lemma GroupsArePart(s: Store, f: Filters, view: View, p: Group -> bool)
    ensures SumBy(GroupsOf(s, f, view), p) == Part(s.watermark, s.table, s.raw, f, InGroups(view, p))
    ensures DistinctKeys(GroupsOf(s, f, view))
  {
    hide Add, SumBy, SumRows, Keep, SelectBuckets, FoldRows, FoldEntries, BucketGroup, RowGroup, Part;
    var buckets, rows := Buckets(s, f), TailRows(s, f);
    NoGroups(p);
    FoldEntriesSum([], buckets, BucketGroup(view), p);
    FoldRowsSum(FoldEntries([], buckets, BucketGroup(view)), rows, RowGroup(view), p);
    AddLaws(SumBy(buckets, InGroups(view, p)), ZERO, ZERO);
    forall i | 0 <= i < |rows| ensures Via(RowGroup(view), p)(rows[i]) == OfKey(InGroups(view, p))(rows[i]) {
      SameGroup(view, rows[i]);
    }
    SumRowsSame(rows, Via(RowGroup(view), p), OfKey(InGroups(view, p)));
    WholePart(s, f, InGroups(view, p));
  }

  lemma NoGroups(p: Group -> bool)
    ensures SumBy([], p) == ZERO && DistinctKeys<Group>([]) && Populated<Group>([])
  {
  }

  function All(): Group -> bool { (g: Group) => true }

  function Is(g: Group): Group -> bool { (x: Group) => x == g }

  lemma {:induction false} SumByAt(d: Groups, i: nat)
    requires DistinctKeys(d) && i < |d|
    ensures SumBy(d, Is(d[i].key)) == d[i].sums
  {
    hide Add;
    AddLaws(d[i].sums, ZERO, ZERO);
    if i > 0 {
      assert d[0].key != d[i].key;
      SumByAt(d[1..], i - 1);
    } else {
      SumByNone(d[1..], d[0].key);
    }
  }

  lemma {:induction false} SumByNone(d: Groups, g: Group)
    requires forall j :: 0 <= j < |d| ==> d[j].key != g
    ensures SumBy(d, Is(g)) == ZERO
  {
    hide Add;
    AddLaws(ZERO, ZERO, ZERO);
    if d != [] { SumByNone(d[1..], g); }
  }

  /** Points and breakdown rows: the field sums over any view are the summary's. */
  lemma ViewsAgree(s: Store, f: Filters, view: View)
    ensures SumBy(GroupsOf(s, f, view), All()) == Totals(s, f)
  {
    hide Add, SumBy, SumRows, GroupsOf, BucketGroup;
    GroupsArePart(s, f, view, All());
    SumBySame(s.table, Meet(InBuckets(f), InGroups(view, All())), Meet(InBuckets(f), Everything()));
    SumRowsSame(s.raw, Meet(InTail(f, s.watermark), OfKey(InGroups(view, All()))), Meet(InTail(f, s.watermark), OfKey(Everything())));
  }

  /** The group a row belongs to in a view: the hour or the day its time lies in, or the
      value of the view's own column, with '' for NULL. */
  predicate BelongsTo(view: View, r: LogRow, g: Group) {
    match view
    case Hourly => g.At? && g.time % HOUR == 0 && g.time <= r.ts < g.time + HOUR
    case Daily => g.At? && g.time % DAY == 0 && g.time <= r.ts < g.time + DAY
    case ByTaskType => g == Named(r.taskType)
    case ByModel => g == Named(r.modelId)
    case ByCaller => g == Named(r.callerType)
    case ByApiKey => g.Named? && (r.apiKeyId == Some(g.name) || (r.apiKeyId == None && g.name == ""))
    case ByMarket => g.Named? && (r.market == Some(g.name) || (r.market == None && g.name == ""))
  }

  lemma InPeriod(ts: int, time: int, m: int)
    requires m > 0
    ensures time == ts - ts % m <==> time % m == 0 && time <= ts < time + m
  {
    var q, k := ts / m, time / m;
    assert ts == q * m + ts % m && time == k * m + time % m;
    Division(q, 0, m);
    if time % m == 0 && time <= ts < time + m { Division(k, ts - time, m); }
  }

  lemma RowGroupMeans(view: View, r: LogRow, g: Group)
    ensures RowGroup(view)(r) == g <==> BelongsTo(view, r, g)
  {
    if g.At? {
      InPeriod(r.ts, g.time, HOUR);
      InPeriod(r.ts, g.time, DAY);
    }
  }

  function InGroup(view: View, g: Group): LogRow -> bool { (r: LogRow) => BelongsTo(view, r, g) }

  /** GROUP BY over the whole history: each group holds the scan of its rows, and a
      group is shown exactly when it has one. */
  lemma GroupsAreGroupBy(s: Store, f: Filters, view: View, g: Group)
    requires Inv(s) && FloorHour(f.end) == f.end
    ensures forall i :: 0 <= i < |GroupsOf(s, f, view)| && GroupsOf(s, f, view)[i].key == g ==>
              Counts(GroupsOf(s, f, view)[i].sums, Keep(Selected(s.history, f, Everything()), InGroup(view, g)))
    ensures (exists i :: 0 <= i < |GroupsOf(s, f, view)| && GroupsOf(s, f, view)[i].key == g)
       <==> (exists j :: 0 <= j < |s.history| && InLog(f)(s.history[j]) && BelongsTo(view, s.history[j], g))
  {
    hide BelongsTo, Counts, Keep, Add, SumBy, SumRows, GroupsOf, BucketGroup, RowGroup, Part, Inv, InLog, DistinctKeys, Populated;
    var d := GroupsOf(s, f, view);
    GroupsArePart(s, f, view, Is(g));
    AlignedQueryIsScan(s, f, InGroups(view, Is(g)));
    forall j | 0 <= j < |s.history|
      ensures Meet(InLog(f), OfKey(InGroups(view, Is(g))))(s.history[j]) == Meet(InLog(f), InGroup(view, g))(s.history[j])
    {
      SameGroup(view, s.history[j]);
      RowGroupMeans(view, s.history[j], g);
    }
    SumRowsSame(s.history, Meet(InLog(f), OfKey(InGroups(view, Is(g)))), Meet(InLog(f), InGroup(view, g)));
    var scan := SumRows(s.history, Meet(InLog(f), InGroup(view, g)));
    assert SumBy(d, Is(g)) == scan;
    GroupsPopulated(s, f, view);
    SumRowsZero(s.history, Meet(InLog(f), InGroup(view, g)));
    SumCounts(s.history, Meet(InLog(f), InGroup(view, g)));
    KeepBoth(s.history, Meet(InLog(f), OfKey(Everything())), InGroup(view, g), Meet(InLog(f), InGroup(view, g)));
    Shown(d, g);
  }

  lemma Shown(d: Groups, g: Group)
    requires DistinctKeys(d) && Populated(d)
    ensures forall i :: 0 <= i < |d| && d[i].key == g ==> d[i].sums == SumBy(d, Is(g))
    ensures (exists i :: 0 <= i < |d| && d[i].key == g) <==> SumBy(d, Is(g)) != ZERO
  {
    hide SumBy, DistinctKeys;
    forall i | 0 <= i < |d| && d[i].key == g ensures d[i].sums == SumBy(d, Is(g)) { SumByAt(d, i); }
    if forall i :: 0 <= i < |d| ==> d[i].key != g { SumByNone(d, g); }
  }

  lemma GroupsPopulated(s: Store, f: Filters, view: View)
    requires Inv(s)
    ensures Populated(GroupsOf(s, f, view))
  {
    hide Populated, FoldRows, FoldEntries, Keep, SelectBuckets;
    NoGroups(All());
    SelectPopulated(s.table, InBuckets(f));
    FoldEntriesPopulated([], Buckets(s, f), BucketGroup(view));
    FoldRowsPopulated(FoldEntries([], Buckets(s, f), BucketGroup(view)), TailRows(s, f), RowGroup(view));
  }

  // ----- Sorted output -------------------------------------------------------

  function TimeOf(g: Group): int { if g.At? then g.time else 0 }

  function Earlier(): (Entry<Group>, Entry<Group>) -> bool {
    (a: Entry<Group>, b: Entry<Group>) => TimeOf(a.key) <= TimeOf(b.key)
  }

  function Costlier(): (Entry<Group>, Entry<Group>) -> bool {
    (a: Entry<Group>, b: Entry<Group>) => a.sums.cost >= b.sums.cost
  }

  lemma {:induction false} InsertSum(x: Entry<Group>, d: Groups, leq: (Entry<Group>, Entry<Group>) -> bool, p: Group -> bool)
    ensures SumBy(Insert(x, d, leq), p) == Add(if p(x.key) then x.sums else ZERO, SumBy(d, p))
  {
    hide Add;
    var mine := if p(x.key) then x.sums else ZERO;
    if d == [] || leq(x, d[0]) {
      assert Insert(x, d, leq)[1..] == d;
    } else {
      InsertSum(x, d[1..], leq, p);
      assert Insert(x, d, leq)[1..] == Insert(x, d[1..], leq);
      var head, rest := if p(d[0].key) then d[0].sums else ZERO, SumBy(d[1..], p);
      AddLaws(head, mine, rest);
      AddLaws(mine, head, rest);
    }
  }

  /** Sorting moves rows around and loses nothing. */
  lemma {:induction false} SortSum(d: Groups, leq: (Entry<Group>, Entry<Group>) -> bool, p: Group -> bool)
    ensures SumBy(Sort(d, leq), p) == SumBy(d, p)
  {
    if d != [] {
      SortSum(d[1..], leq, p);
      InsertSum(d[0], Sort(d[1..], leq), leq, p);
    }
  }

  method Timeseries(t: Tables, f: Filters, daily: bool) returns (points: Groups)
    requires Inv(t.Snapshot())
    ensures points == Sort(GroupsOf(t.Snapshot(), f, if daily then Daily else Hourly), Earlier())
    ensures SumBy(points, All()) == Totals(t.Snapshot(), f)
    ensures multiset(points) == multiset(GroupsOf(t.Snapshot(), f, if daily then Daily else Hourly))
    ensures forall i, j :: 0 <= i < j < |points| && points[i].key.At? && points[j].key.At? ==> points[i].key.time <= points[j].key.time
  {
    hide Inv, GroupsOf, Totals, SumBy, Ordered, Sort;
    var view := if daily then Daily else Hourly;
    var groups := GroupBy(t, f, view);
    points := Sort(groups, Earlier());
    SortSorts(groups, Earlier());
    SortSum(groups, Earlier(), All());
    ViewsAgree(t.Snapshot(), f, view);
    forall i, j | 0 <= i < j < |points| && points[i].key.At? && points[j].key.At? ensures points[i].key.time <= points[j].key.time {
      assert Earlier()(points[i], points[j]) by { PairOrdered(points, Earlier(), i, j); }
    }
  }

  method Breakdown(t: Tables, f: Filters, dimension: View) returns (rows: Groups)
    requires Inv(t.Snapshot()) && !dimension.Hourly? && !dimension.Daily?
    ensures rows == Sort(GroupsOf(t.Snapshot(), f, dimension), Costlier())
    ensures SumBy(rows, All()) == Totals(t.Snapshot(), f)
    ensures multiset(rows) == multiset(GroupsOf(t.Snapshot(), f, dimension))
    ensures forall i, j :: 0 <= i < j < |rows| ==> rows[i].sums.cost >= rows[j].sums.cost
  {
    hide Inv, GroupsOf, Totals, SumBy, Ordered, Sort;
    var groups := GroupBy(t, f, dimension);
    rows := Sort(groups, Costlier());
    SortSorts(groups, Costlier());
    SortSum(groups, Costlier(), All());
    ViewsAgree(t.Snapshot(), f, dimension);
    forall i, j | 0 <= i < j < |rows| ensures rows[i].sums.cost >= rows[j].sums.cost {
      assert Costlier()(rows[i], rows[j]) by { PairOrdered(rows, Costlier(), i, j); }
    }
  }

  lemma PairOrdered<A>(s: seq<A>, leq: (A, A) -> bool, i: nat, j: nat)
    requires Ordered(s, leq) && i < j < |s|
    ensures leq(s[i], s[j])
  {
  }

  // ----- Dedupe --------------------------------------------------------------

  datatype Dedupe = Dedupe(taskType: Group, attempted: int, hits: int, rate: Option<real>, savings: real)

  /** What the cache hits would have cost at the task's average billed price. */
  function Savings(s: Sums): real {
    var billable := s.requests - s.cacheHits;
    if billable > 0 then s.cacheHits as real * (s.cost / billable as real) else 0.0
  }

  function DedupeOf(e: Entry<Group>): Dedupe {
    Dedupe(e.key, e.sums.requests, e.sums.cacheHits, Ratio(e.sums.cacheHits as real, e.sums.requests), Savings(e.sums))
  }

  function TotalSavings(d: Groups): real {
    if d == [] then 0.0 else TotalSavings(d[..|d| - 1]) + Savings(d[|d| - 1].sums)
  }

  method DedupeStats(t: Tables, f: Filters) returns (byTask: seq<Dedupe>, overall: Dedupe)
    requires Inv(t.Snapshot())
    ensures var d, totals := GroupsOf(t.Snapshot(), f, ByTaskType), Totals(t.Snapshot(), f);
      && |byTask| == |d|
      && (forall i :: 0 <= i < |d| ==>
            && byTask[i].taskType == d[i].key && byTask[i].attempted == d[i].sums.requests && byTask[i].hits == d[i].sums.cacheHits
            && PerRequest(byTask[i].rate, d[i].sums.cacheHits as real, d[i].sums.requests) && byTask[i].savings == Savings(d[i].sums))
      && overall.attempted == totals.requests && overall.hits == totals.cacheHits
      && PerRequest(overall.rate, overall.hits as real, overall.attempted) && IsRate(overall.rate)
      && overall.savings == TotalSavings(d)
  {
    hide Inv, GroupsOf, Totals, SumBy, Part, DedupeOf, Savings, Ratio, IsRate, PerRequest;
    var d := GroupBy(t, f, ByTaskType);
    byTask := [];
    var attempted, hits, savings := 0, 0, 0.0;
    NoGroups(All());
    for i := 0 to |d|
      invariant |byTask| == i && forall j :: 0 <= j < i ==> byTask[j] == DedupeOf(d[j])
      invariant attempted == SumBy(d[..i], All()).requests && hits == SumBy(d[..i], All()).cacheHits
      invariant savings == TotalSavings(d[..i])
    {
      assert d[..i + 1] == d[..i] + [d[i]] && d[..i + 1][..i] == d[..i];
      SumBySnoc(d[..i], d[i], All());
      byTask := byTask + [DedupeOf(d[i])];
      attempted := attempted + d[i].sums.requests;
      hits := hits + d[i].sums.cacheHits;
      savings := savings + Savings(d[i].sums);
    }
    assert d[..|d|] == d;
    ViewsAgree(t.Snapshot(), f, ByTaskType);
    overall := Dedupe(Named(""), attempted, hits, Ratio(hits as real, attempted), savings);
    TotalsConsistent(t.Snapshot(), f);
    RatioIsRate(hits, attempted);
    RatioIsPerRequest(hits as real, attempted);
    forall i | 0 <= i < |d|
      ensures byTask[i].taskType == d[i].key && byTask[i].attempted == d[i].sums.requests && byTask[i].hits == d[i].sums.cacheHits
      ensures PerRequest(byTask[i].rate, d[i].sums.cacheHits as real, d[i].sums.requests) && byTask[i].savings == Savings(d[i].sums)
    {
      DedupeFields(d[i]);
    }
  }

  lemma DedupeFields(e: Entry<Group>)
    ensures var entry := DedupeOf(e);
      && entry.taskType == e.key && entry.attempted == e.sums.requests && entry.hits == e.sums.cacheHits
      && PerRequest(entry.rate, e.sums.cacheHits as real, e.sums.requests) && entry.savings == Savings(e.sums)
  {
    hide Savings;
  }

  lemma TotalsConsistent(s: Store, f: Filters)
    requires Inv(s)
    ensures Consistent(Totals(s, f))
  {
    hide Inv, Part;
    PartConsistent(s, f, Everything());
  }

  /** Each task's rate is a rate, and its cost plus its savings is what all its
      attempts would have cost at the average billed price. */
  lemma DedupeMeaning(s: Store, f: Filters, i: nat)
    requires Inv(s) && i < |GroupsOf(s, f, ByTaskType)|
    ensures var e := GroupsOf(s, f, ByTaskType)[i];
      && IsRate(DedupeOf(e).rate)
      && (e.sums.cacheHits < e.sums.requests ==>
           e.sums.cost + Savings(e.sums) == e.sums.requests as real * (e.sums.cost / (e.sums.requests - e.sums.cacheHits) as real))
      && (e.sums.cacheHits == e.sums.requests ==> Savings(e.sums) == 0.0)
  {
    hide Inv, GroupsOf, Part, SumBy, IsRate, Ratio;
    var d := GroupsOf(s, f, ByTaskType);
    var e := d[i];
    GroupsArePart(s, f, ByTaskType, Is(e.key));
    SumByAt(d, i);
    PartConsistent(s, f, InGroups(ByTaskType, Is(e.key)));
    RatioIsRate(e.sums.cacheHits, e.sums.requests);
    if e.sums.cacheHits < e.sums.requests { SavingsIdentity(e.sums.cost, e.sums.requests, e.sums.cacheHits); }
  }

  lemma SavingsIdentity(cost: real, requests: int, hits: int)
    requires 0 <= hits < requests
    ensures cost + hits as real * (cost / (requests - hits) as real) == requests as real * (cost / (requests - hits) as real)
  {
    var b := (requests - hits) as real;
    var price := cost / b;
    assert cost == b * price;
    assert requests as real == hits as real + b;
  }
}
