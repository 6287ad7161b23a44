/** The dashboard queries: every number merges rollup buckets up to the watermark
    with the raw rows above it, and must agree with a scan of everything logged. */
module UsageQueries {
  import opened Common
  import opened UsageModel
  import opened UsageStore

  // ----- Filters -------------------------------------------------------------

  datatype Filters = Filters(start: int, end: int, taskType: Option<string>, modelId: Option<string>, callerType: Option<string>,
                             apiKeyId: Option<string>, market: Option<string>)

  /** `if filter:` skips an absent filter and an empty one alike. */
  predicate Passes(filter: Option<string>, value: string) {
    filter.None? || filter.value == "" || value == filter.value
  }

  /** The same test on a nullable column: NULL = x is not true. */
  predicate PassesNullable(filter: Option<string>, value: Option<string>) {
    filter.None? || filter.value == "" || value == Some(filter.value)
  }

  predicate KeyDims(f: Filters, k: Key) {
    Passes(f.taskType, k.taskType) && Passes(f.modelId, k.modelId) && Passes(f.callerType, k.callerType)
    && Passes(f.apiKeyId, k.apiKeyId) && Passes(f.market, k.market)
  }

  predicate RowDims(f: Filters, r: LogRow) {
    Passes(f.taskType, r.taskType) && Passes(f.modelId, r.modelId) && Passes(f.callerType, r.callerType)
    && PassesNullable(f.apiKeyId, r.apiKeyId) && PassesNullable(f.market, r.market)
  }

  /** The buckets, and the rows, a query selects. */
  function InBuckets(f: Filters): Key -> bool {
    (k: Key) => FloorHour(f.start) <= k.hour < f.end && KeyDims(f, k)
  }

  function InLog(f: Filters): LogRow -> bool {
    (r: LogRow) => FloorHour(f.start) <= r.ts < f.end && RowDims(f, r)
  }

  function InTail(f: Filters, w: nat): LogRow -> bool {
    (r: LogRow) => r.id > w && InLog(f)(r)
  }

  /** Rows past a mid-hour end whose bucket is selected all the same. */
  function Overhang(f: Filters): LogRow -> bool {
    (r: LogRow) => f.end <= r.ts < CeilHour(f.end) && FloorHour(f.start) <= FloorHour(r.ts) && RowDims(f, r)
  }

  function Meet<A>(p: A -> bool, q: A -> bool): A -> bool { (a: A) => p(a) && q(a) }

  function OfKey(q: Key -> bool): LogRow -> bool { Via(KeyOf, q) }

  // ----- What a query adds up ------------------------------------------------

  /** The merged sums over the keys q selects: buckets plus tail. */
  function Part(w: nat, table: Table, raw: seq<LogRow>, f: Filters, q: Key -> bool): Sums {
    Add(SumBy(table, Meet(InBuckets(f), q)), SumRows(raw, Meet(InTail(f, w), OfKey(q))))
  }

  /** The obvious scan of every row ever logged. */
  function Scan(rows: seq<LogRow>, f: Filters, q: Key -> bool): Sums {
    SumRows(rows, Meet(InLog(f), OfKey(q)))
  }

  function Excess(rows: seq<LogRow>, f: Filters, q: Key -> bool): Sums {
    SumRows(rows, Meet(Overhang(f), OfKey(q)))
  }

  lemma BucketSelects(f: Filters, q: Key -> bool, r: LogRow)
    ensures Via(KeyOf, Meet(InBuckets(f), q))(r) == (Meet(InLog(f), OfKey(q))(r) || Meet(Overhang(f), OfKey(q))(r))
    ensures !(Meet(InLog(f), OfKey(q))(r) && Meet(Overhang(f), OfKey(q))(r))
  {
    hide FloorHour, CeilHour;
    HourFacts(r.ts, f.start);
    HourFacts(f.start, f.start);
    HourFacts(r.ts, FloorHour(f.start));
    HourFacts(r.ts, f.end);
    assert KeyDims(f, KeyOf(r)) == RowDims(f, r);
  }

  /** The rollup side of a query, in terms of the rows that were folded. */
  lemma BucketsAre(s: Store, f: Filters, q: Key -> bool)
    requires Inv(s)
    ensures var rolled := Keep(s.history, UpTo(s.watermark));
      SumBy(s.table, Meet(InBuckets(f), q)) == Add(Scan(rolled, f, q), Excess(rolled, f, q))
  {
    hide Keep, SumBy, SumRows, Add, Via, Meet;
    var rolled := Keep(s.history, UpTo(s.watermark));
    var p := Meet(InBuckets(f), q);
    assert SumBy(s.table, p) == SumRows(rolled, Via(KeyOf, p));
    forall i | 0 <= i < |rolled|
      ensures Via(KeyOf, p)(rolled[i]) == (Meet(InLog(f), OfKey(q))(rolled[i]) || Meet(Overhang(f), OfKey(q))(rolled[i]))
      ensures !(Meet(InLog(f), OfKey(q))(rolled[i]) && Meet(Overhang(f), OfKey(q))(rolled[i]))
    {
      BucketSelects(f, q, rolled[i]);
    }
    SumRowsSplit(rolled, Meet(InLog(f), OfKey(q)), Meet(Overhang(f), OfKey(q)), Via(KeyOf, p));
  }

  lemma {:induction false} SumKeep(rows: seq<LogRow>, p: LogRow -> bool, q: LogRow -> bool)
    ensures SumRows(Keep(rows, p), q) == SumRows(rows, Meet(p, q))
  {
    hide Add, One;
    if rows != [] {
      var front, last := rows[..|rows| - 1], rows[|rows| - 1];
      SumKeep(front, p, q);
      AddLaws(SumRows(front, Meet(p, q)), ZERO, ZERO);
      if p(last) {
        var kept := Keep(front, p);
        assert (kept + [last])[..|kept|] == kept;
      } else {
        assert Keep(front, p) + [] == Keep(front, p);
      }
    }
  }

  /** A sum over history is a sum up to a watermark plus a sum above it. */
  lemma SumCut(rows: seq<LogRow>, w: nat, p: LogRow -> bool)
    ensures SumRows(rows, p) == Add(SumRows(Keep(rows, UpTo(w)), p), SumRows(Keep(rows, Above(w)), p))
  {
    hide Add, Keep, SumRows;
    SumKeep(rows, UpTo(w), p);
    SumKeep(rows, Above(w), p);
    SumRowsSplit(rows, Meet(UpTo(w), p), Meet(Above(w), p), p);
  }

  /** The raw side of a query reads what history has above the watermark. */
  lemma TailIs(s: Store, f: Filters, q: Key -> bool)
    requires Inv(s)
    ensures SumRows(s.raw, Meet(InTail(f, s.watermark), OfKey(q))) == Scan(Keep(s.history, Above(s.watermark)), f, q)
  {
    hide Keep, SumRows, SumBy, FromHistory, Increasing, Populated, DistinctKeys;
    var p := Meet(InLog(f), OfKey(q));
    SumKeep(s.raw, Above(s.watermark), p);
    SumRowsSame(s.raw, Meet(InTail(f, s.watermark), OfKey(q)), Meet(Above(s.watermark), p));
  }

  // ----- The scan, field by field --------------------------------------------

  /** The rows a scan selects, in the order they were logged. */
  function Selected(rows: seq<LogRow>, f: Filters, q: Key -> bool): seq<LogRow> { Keep(rows, Meet(InLog(f), OfKey(q))) }

  function Total(rows: seq<LogRow>, field: LogRow -> int): int {
    if rows == [] then 0 else Total(rows[..|rows| - 1], field) + field(rows[|rows| - 1])
  }

  function TotalCost(rows: seq<LogRow>): real {
    if rows == [] then 0.0 else TotalCost(rows[..|rows| - 1]) + rows[|rows| - 1].cost
  }

  function Hits(): LogRow -> bool { (r: LogRow) => r.cacheHit }

  function Failures(): LogRow -> bool { (r: LogRow) => r.status != "success" }

  /** These sums are counts of the rows, of the cache hits and of the rows that did not
      succeed among them, and totals of the other columns. */
  ghost predicate Counts(sums: Sums, rows: seq<LogRow>) {
    && sums.requests == |rows| && sums.cacheHits == |Keep(rows, Hits())| && sums.failures == |Keep(rows, Failures())|
    && sums.retries == Total(rows, (r: LogRow) => r.retries)
    && sums.inputTokens == Total(rows, (r: LogRow) => r.inputTokens)
    && sums.outputTokens == Total(rows, (r: LogRow) => r.outputTokens)
    && sums.cacheReads == Total(rows, (r: LogRow) => r.cacheReads)
    && sums.cacheWrites == Total(rows, (r: LogRow) => r.cacheWrites)
    && sums.latency == Total(rows, (r: LogRow) => r.latency)
    && sums.cost == TotalCost(rows)
  }

  lemma CountsSnoc(sums: Sums, rows: seq<LogRow>, row: LogRow)
    requires Counts(sums, rows)
    ensures Counts(Add(sums, One(row)), rows + [row])
  {
    hide Keep;
    assert (rows + [row])[..|rows|] == rows;
    KeepSnoc(rows, row, Hits());
    KeepSnoc(rows, row, Failures());
  }

  lemma CountsNone(p: LogRow -> bool)
    ensures Counts(SumRows([], p), Keep([], p))
  {
  }

  lemma SumRowsSnoc(rows: seq<LogRow>, row: LogRow, p: LogRow -> bool)
    ensures SumRows(rows + [row], p) == Add(SumRows(rows, p), if p(row) then One(row) else ZERO)
  {
    hide Add;
    assert (rows + [row])[..|rows|] == rows;
  }

  lemma {:induction false} SumCounts(rows: seq<LogRow>, p: LogRow -> bool)
    ensures Counts(SumRows(rows, p), Keep(rows, p))
  {
    hide Counts, Add, One, SumRows, Keep;
    if rows == [] {
      CountsNone(p);
    } else {
      var front, last := rows[..|rows| - 1], rows[|rows| - 1];
      assert rows == front + [last];
      SumCounts(front, p);
      SumRowsSnoc(front, last, p);
      KeepSnoc(front, last, p);
      if p(last) {
        CountsSnoc(SumRows(front, p), Keep(front, p), last);
      } else {
        AddLaws(SumRows(front, p), ZERO, ZERO);
        assert Keep(front, p) + [] == Keep(front, p);
      }
    }
  }

  /** A scan counts and totals the rows it selects. */
  lemma ScanCounts(rows: seq<LogRow>, f: Filters, q: Key -> bool)
    ensures Counts(Scan(rows, f, q), Selected(rows, f, q))
  {
    SumCounts(rows, Meet(InLog(f), OfKey(q)));
  }

  /** A filter that is set compares its text with the column, NULL included as unequal. */
  predicate Wants(filter: Option<string>, value: Option<string>) {
    filter == None || filter == Some("") || value == filter
  }

  /** Which rows those are: from the full hour of the start to before the end, with
      the value of every filter that is set. */
  lemma SelectedExactly(rows: seq<LogRow>, f: Filters, q: Key -> bool, r: LogRow)
    ensures r in Selected(rows, f, q) <==>
      && r in rows && f.start - f.start % HOUR <= r.ts < f.end && q(KeyOf(r))
      && Wants(f.taskType, Some(r.taskType)) && Wants(f.modelId, Some(r.modelId)) && Wants(f.callerType, Some(r.callerType))
      && Wants(f.apiKeyId, r.apiKeyId) && Wants(f.market, r.market)
  {
    hide Keep, KeyOf;
    KeepMember(rows, Meet(InLog(f), OfKey(q)), r);
  }

  // ----- One consistent snapshot ---------------------------------------------

  /** For every filter, every part of the key space and any end: a query is the scan
      of all history plus exactly the already folded rows between a mid-hour end
      and the next hour. */
  lemma QueryIsScan(s: Store, f: Filters, q: Key -> bool)
    requires Inv(s)
    ensures Part(s.watermark, s.table, s.raw, f, q)
         == Add(Scan(s.history, f, q), Excess(Keep(s.history, UpTo(s.watermark)), f, q))
  {
    hide Add, Keep, SumRows, SumBy;
    var below, above := Keep(s.history, UpTo(s.watermark)), Keep(s.history, Above(s.watermark));
    BucketsAre(s, f, q);
    TailIs(s, f, q);
    SumCut(s.history, s.watermark, Meet(InLog(f), OfKey(q)));
    var a, e, t := Scan(below, f, q), Excess(below, f, q), Scan(above, f, q);
    AddLaws(a, e, t);
    AddLaws(e, t, ZERO);
    AddLaws(a, t, e);
  }

  lemma NoOverhang(f: Filters, q: Key -> bool, rows: seq<LogRow>)
    requires FloorHour(f.end) == f.end
    ensures Excess(rows, f, q) == ZERO
  {
    hide SumRows;
    assert CeilHour(f.end) == f.end;
    SumRowsZero(rows, Meet(Overhang(f), OfKey(q)));
  }

  /** With an hour-aligned end a query is the scan. */
  lemma AlignedQueryIsScan(s: Store, f: Filters, q: Key -> bool)
    requires Inv(s) && FloorHour(f.end) == f.end
    ensures Part(s.watermark, s.table, s.raw, f, q) == Scan(s.history, f, q)
  {
    hide Add, Part, Scan, Excess, Keep, Inv;
    QueryIsScan(s, f, q);
    NoOverhang(f, q, Keep(s.history, UpTo(s.watermark)));
    AddLaws(Scan(s.history, f, q), ZERO, ZERO);
  }

  /** With a mid-hour end it is the scan exactly when no folded row overhangs. */
  lemma MidHourExactly(s: Store, f: Filters, q: Key -> bool)
    requires Inv(s)
    ensures Part(s.watermark, s.table, s.raw, f, q) == Scan(s.history, f, q)
       <==> forall i :: 0 <= i < |Keep(s.history, UpTo(s.watermark))| ==>
              !Meet(Overhang(f), OfKey(q))(Keep(s.history, UpTo(s.watermark))[i])
  {
    hide Add, Part, Scan, Keep, Inv;
    var below := Keep(s.history, UpTo(s.watermark));
    QueryIsScan(s, f, q);
    AddLaws(Scan(s.history, f, q), Excess(below, f, q), ZERO);
    SumRowsZero(below, Meet(Overhang(f), OfKey(q)));
  }

  predicate AtMost(a: Sums, b: Sums) {
    && a.requests <= b.requests && a.cacheHits <= b.cacheHits && a.failures <= b.failures && a.retries <= b.retries
    && a.inputTokens <= b.inputTokens && a.outputTokens <= b.outputTokens && a.cacheReads <= b.cacheReads
    && a.cacheWrites <= b.cacheWrites && a.cost <= b.cost && a.latency <= b.latency
  }

  predicate NonNegative(r: LogRow) { AtMost(ZERO, One(r)) }

  lemma AddBounds(a: Sums, b: Sums, c: Sums)
    ensures AtMost(ZERO, b) ==> AtMost(a, Add(a, b))
    ensures AtMost(b, c) ==> AtMost(Add(a, b), Add(a, c))
    ensures AtMost(ZERO, a) && AtMost(ZERO, b) ==> AtMost(ZERO, Add(a, b))
    ensures AtMost(a, a)
  {
  }

  lemma {:induction false} SumRowsNonNegative(rows: seq<LogRow>, p: LogRow -> bool)
    requires forall i :: 0 <= i < |rows| ==> NonNegative(rows[i])
    ensures AtMost(ZERO, SumRows(rows, p))
  {
    hide Add, One, AtMost;
    AddBounds(ZERO, ZERO, ZERO);
    if rows != [] {
      var n := |rows| - 1;
      SumRowsNonNegative(rows[..n], p);
      AddBounds(SumRows(rows[..n], p), if p(rows[n]) then One(rows[n]) else ZERO, ZERO);
    }
  }

  lemma {:induction false} KeepNonNegative(rows: seq<LogRow>, p: LogRow -> bool)
    requires forall i :: 0 <= i < |rows| ==> NonNegative(rows[i])
    ensures forall i :: 0 <= i < |Keep(rows, p)| ==> NonNegative(Keep(rows, p)[i])
  {
    hide NonNegative;
    if rows != [] { KeepNonNegative(rows[..|rows| - 1], p); }
  }

  function ToNextHour(f: Filters): Filters { f.(end := CeilHour(f.end)) }

  /** Field by field, a mid-hour query lies between the scan to its end and the
      scan to the next hour. */
  lemma MidHourBounds(s: Store, f: Filters, q: Key -> bool)
    requires Inv(s) && forall i :: 0 <= i < |s.history| ==> NonNegative(s.history[i])
    ensures AtMost(Scan(s.history, f, q), Part(s.watermark, s.table, s.raw, f, q))
    ensures AtMost(Part(s.watermark, s.table, s.raw, f, q), Scan(s.history, ToNextHour(f), q))
  {
    hide Add, Part, Keep, Inv, SumRows, NonNegative, AtMost;
    var h, w := s.history, s.watermark;
    var below, above, over := Keep(h, UpTo(w)), Keep(h, Above(w)), Meet(Overhang(f), OfKey(q));
    QueryIsScan(s, f, q);
    KeepNonNegative(h, UpTo(w));
    KeepNonNegative(h, Above(w));
    SumRowsNonNegative(below, over);
    SumRowsNonNegative(above, over);
    AddBounds(Scan(h, f, q), SumRows(below, over), ZERO);
    SumCut(h, w, over);
    AddBounds(SumRows(below, over), SumRows(above, over), ZERO);
    AddBounds(Scan(h, f, q), SumRows(below, over), SumRows(h, over));
    NextHourScan(h, f, q);
  }

  lemma NextHourScan(rows: seq<LogRow>, f: Filters, q: Key -> bool)
    ensures Scan(rows, ToNextHour(f), q) == Add(Scan(rows, f, q), Excess(rows, f, q))
  {
    hide Add, SumRows, FloorHour;
    forall r: LogRow
      ensures Meet(InLog(ToNextHour(f)), OfKey(q))(r) == (Meet(InLog(f), OfKey(q))(r) || Meet(Overhang(f), OfKey(q))(r))
      ensures !(Meet(InLog(f), OfKey(q))(r) && Meet(Overhang(f), OfKey(q))(r))
    {
      StartIsHour(f, r);
      assert RowDims(ToNextHour(f), r) == RowDims(f, r);
    }
    SumRowsSplit(rows, Meet(InLog(f), OfKey(q)), Meet(Overhang(f), OfKey(q)), Meet(InLog(ToNextHour(f)), OfKey(q)));
  }

  lemma StartIsHour(f: Filters, r: LogRow)
    ensures FloorHour(f.start) <= FloorHour(r.ts) <==> FloorHour(f.start) <= r.ts
    ensures f.end <= CeilHour(f.end)
  {
    HourFacts(f.start, f.start);
    HourFacts(r.ts, FloorHour(f.start));
    HourFacts(f.end, f.end);
  }
}
