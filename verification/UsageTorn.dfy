/** A query reads the watermark, the buckets and the tail in three statements.  What
    it reports when rows are logged, rolled up and pruned between them. */
module UsageTorn {
  import opened Common
  import opened UsageModel
  import opened UsageStore
  import opened UsageQueries

  /** History only grows, and what a watermark has covered stays where it is. */
  lemma {:induction false} RunGrows(s: Store, run: seq<Label>)
    requires Inv(s) && ValidRun(s, run)
    ensures var s' := After(s, run);
      && Inv(s') && s.watermark <= s'.watermark
      && Keep(s'.history, UpTo(s.watermark)) == Keep(s.history, UpTo(s.watermark))
    decreases |run|
  {
    hide Inv, Keep;
    if run != [] {
      StepGrows(s, run[0]);
      RunGrows(Next(s, run[0]), run[1..]);
      var s', last := Next(s, run[0]), After(s, run);
      KeepKeep(last.history, UpTo(s'.watermark), UpTo(s.watermark));
      KeepKeep(s'.history, UpTo(s'.watermark), UpTo(s.watermark));
    }
  }

  lemma StepGrows(s: Store, l: Label)
    requires Inv(s) && Enabled(s, l)
    ensures var s' := Next(s, l);
      && Inv(s') && s.watermark <= s'.watermark
      && Keep(s'.history, UpTo(s.watermark)) == Keep(s.history, UpTo(s.watermark))
  {
    hide Keep, SumBy, SumRows, FoldRows, FoldEntries, Increasing, DistinctKeys, Populated, FromHistory;
    match l
    case Append(row) =>
      AppendInv(s, row);
      AppendGrows(s.history, row, s.watermark);
    case Rollup(batch) =>
      RollupInv(s, batch);
      if Batch(s, batch) != [] { BatchAdvances(s, batch); }
    case Prune(cutoff) =>
      PruneInv(s, cutoff);
  }

  // ----- What the three reads see of a row -----------------------------------

  /** Folded into the buckets after the watermark w was read, and still in the raw
      log when the tail is read: such a row is added twice. */
  function SeenTwice(w: nat, folded: nat, raw: seq<LogRow>): LogRow -> bool {
    (r: LogRow) => w < r.id <= folded && r in raw
  }

  /** Not in the buckets when they were read, and pruned when the tail is read: such
      a row is added nowhere. */
  function Unseen(folded: nat, raw: seq<LogRow>): LogRow -> bool {
    (r: LogRow) => r.id > folded && r !in raw
  }

  function Twice(w: nat, s1: Store, s2: Store): seq<LogRow> { Keep(s2.history, SeenTwice(w, s1.watermark, s2.raw)) }

  function Missed(s1: Store, s2: Store): seq<LogRow> { Keep(s2.history, Unseen(s1.watermark, s2.raw)) }

  lemma BucketRows(s1: Store, s2: Store, f: Filters, q: Key -> bool)
    requires Inv(s1) && Keep(s2.history, UpTo(s1.watermark)) == Keep(s1.history, UpTo(s1.watermark))
    ensures SumBy(s1.table, Meet(InBuckets(f), q))
         == Add(SumRows(s2.history, Meet(UpTo(s1.watermark), Meet(InLog(f), OfKey(q)))), Excess(Keep(s1.history, UpTo(s1.watermark)), f, q))
  {
    hide Inv, Keep, SumRows, SumBy, Add, Excess;
    BucketsAre(s1, f, q);
    SumKeep(s2.history, UpTo(s1.watermark), Meet(InLog(f), OfKey(q)));
  }

  /** The tail: rows of history that are still in the raw log, above the watermark. */
  lemma TailRows(s2: Store, w: nat, f: Filters, q: Key -> bool)
    requires FromHistory(s2)
    ensures SumRows(s2.raw, Meet(InTail(f, w), OfKey(q)))
         == SumRows(s2.history, Meet(In(s2.raw), Meet(InTail(f, w), OfKey(q))))
  {
    hide Keep, SumRows;
    SumKeep(s2.history, In(s2.raw), Meet(InTail(f, w), OfKey(q)));
  }

  /** Rows of history sorted by what the reads see of them. */
  lemma SeenParts(h: seq<LogRow>, raw: seq<LogRow>, w: nat, folded: nat, p: LogRow -> bool, tail: LogRow -> bool)
    requires w <= folded && forall r :: tail(r) <==> r in raw && r.id > w && p(r)
    ensures Add(Add(SumRows(h, Meet(UpTo(folded), p)), SumRows(h, tail)), SumRows(h, Meet(Unseen(folded, raw), p)))
         == Add(SumRows(h, p), SumRows(h, Meet(SeenTwice(w, folded, raw), p)))
  {
    hide SumRows, Add;
    var once := (r: LogRow) => r.id > folded && r in raw && p(r);
    var above := (r: LogRow) => r.id > folded && p(r);
    SumRowsSplit(h, Meet(SeenTwice(w, folded, raw), p), once, tail);
    SumRowsSplit(h, once, Meet(Unseen(folded, raw), p), above);
    SumRowsSplit(h, Meet(UpTo(folded), p), above, p);
    Rearranged(SumRows(h, Meet(UpTo(folded), p)), SumRows(h, Meet(SeenTwice(w, folded, raw), p)), SumRows(h, once),
               SumRows(h, Meet(Unseen(folded, raw), p)));
  }

  lemma Rearranged(a: Sums, t: Sums, o: Sums, m: Sums)
    ensures Add(Add(a, Add(t, o)), m) == Add(Add(a, Add(o, m)), t)
  {
  }

  lemma PartParts(a: Sums, e: Sums, b: Sums, m: Sums, scan: Sums, t: Sums)
    requires Add(Add(a, b), m) == Add(scan, t)
    ensures Add(Add(Add(a, e), b), m) == Add(Add(scan, e), t)
  {
  }

  /** Watermark read in s0, buckets in s1, raw rows in s2, whatever happened between
      the reads: the answer and the missed rows are the scan at s2, the overhang, and
      once more the rows seen twice. */
  lemma TornQuery(s0: Store, run1: seq<Label>, run2: seq<Label>, f: Filters, q: Key -> bool)
    requires Inv(s0) && ValidRun(s0, run1) && ValidRun(After(s0, run1), run2)
    ensures var s1 := After(s0, run1);
            var s2 := After(s1, run2);
      Add(Part(s0.watermark, s1.table, s2.raw, f, q), Scan(Missed(s1, s2), f, q))
        == Add(Add(Scan(s2.history, f, q), Excess(Keep(s1.history, UpTo(s1.watermark)), f, q)), Scan(Twice(s0.watermark, s1, s2), f, q))
  {
    hide Inv, Keep, SumRows, SumBy, Add, Excess, FromHistory, After;
    var w := s0.watermark;
    var s1 := After(s0, run1);
    var s2 := After(s1, run2);
    RunGrows(s0, run1);
    RunGrows(s1, run2);
    var p, tail := Meet(InLog(f), OfKey(q)), Meet(In(s2.raw), Meet(InTail(f, w), OfKey(q)));
    BucketRows(s1, s2, f, q);
    InvFromHistory(s2);
    TailRows(s2, w, f, q);
    SeenParts(s2.history, s2.raw, w, s1.watermark, p, tail);
    SumKeep(s2.history, Unseen(s1.watermark, s2.raw), p);
    SumKeep(s2.history, SeenTwice(w, s1.watermark, s2.raw), p);
    PartParts(SumRows(s2.history, Meet(UpTo(s1.watermark), p)), Excess(Keep(s1.history, UpTo(s1.watermark)), f, q), SumRows(s2.history, tail),
              Scan(Missed(s1, s2), f, q), Scan(s2.history, f, q), Scan(Twice(w, s1, s2), f, q));
  }

  lemma InvFromHistory(s: Store)
    requires Inv(s)
    ensures FromHistory(s)
  {
  }

  /** So with an hour-aligned end the three reads agree with the scan exactly when
      the rows seen twice and the rows missed make up for each other; where there are
      none of one kind, exactly when no matching row is of the other kind. */
  lemma TornExactly(s0: Store, run1: seq<Label>, run2: seq<Label>, f: Filters, q: Key -> bool)
    requires Inv(s0) && ValidRun(s0, run1) && ValidRun(After(s0, run1), run2)
    requires FloorHour(f.end) == f.end
    ensures var s1 := After(s0, run1);
            var s2 := After(s1, run2);
            var right := Part(s0.watermark, s1.table, s2.raw, f, q) == Scan(s2.history, f, q);
            var twice, missed := Twice(s0.watermark, s1, s2), Missed(s1, s2);
      && (right <==> Scan(twice, f, q) == Scan(missed, f, q))
      && (missed == [] ==> (right <==> forall i :: 0 <= i < |twice| ==> !Meet(InLog(f), OfKey(q))(twice[i])))
      && (twice == [] ==> (right <==> forall i :: 0 <= i < |missed| ==> !Meet(InLog(f), OfKey(q))(missed[i])))
  {
    hide Inv, Keep, Add, Part, Excess, After, Twice, Missed, SumRows;
    var s1 := After(s0, run1);
    var s2 := After(s1, run2);
    TornQuery(s0, run1, run2, f, q);
    NoOverhang(f, q, Keep(s1.history, UpTo(s1.watermark)));
    var twice, missed := Twice(s0.watermark, s1, s2), Missed(s1, s2);
    AddLaws(Scan(s2.history, f, q), ZERO, ZERO);
    Balance(Part(s0.watermark, s1.table, s2.raw, f, q), Scan(missed, f, q), Scan(s2.history, f, q), Scan(twice, f, q));
    SumRowsZero(twice, Meet(InLog(f), OfKey(q)));
    SumRowsZero(missed, Meet(InLog(f), OfKey(q)));
    SumNone(Meet(InLog(f), OfKey(q)));
  }

  lemma Balance(part: Sums, missed: Sums, scan: Sums, twice: Sums)
    requires Add(part, missed) == Add(scan, twice)
    ensures part == scan <==> twice == missed
  {
  }

  lemma SumNone(p: LogRow -> bool)
    ensures SumRows([], p) == ZERO
  {
  }

  /** When no rollup commits between the buckets and the tail nothing is missed, and
      when none commits between the watermark and the buckets nothing is seen twice.
      So an answer is right if the watermark still stands after the last read. */
  lemma WatermarkTells(s0: Store, run1: seq<Label>, run2: seq<Label>)
    requires Inv(s0) && ValidRun(s0, run1) && ValidRun(After(s0, run1), run2)
    ensures var s1 := After(s0, run1);
            var s2 := After(s1, run2);
      && s0.watermark <= s1.watermark <= s2.watermark
      && (s1.watermark == s2.watermark ==> Missed(s1, s2) == [])
      && (s0.watermark == s1.watermark ==> Twice(s0.watermark, s1, s2) == [])
  {
    hide Inv, After, Keep;
    var s1 := After(s0, run1);
    var s2 := After(s1, run2);
    RunGrows(s0, run1);
    RunGrows(s1, run2);
    if s1.watermark == s2.watermark {
      forall i | 0 <= i < |s2.history| ensures !Unseen(s1.watermark, s2.raw)(s2.history[i]) {
        if s2.history[i].id > s1.watermark { AboveKept(s2, s2.history[i]); }
      }
      KeepNone(s2.history, Unseen(s1.watermark, s2.raw));
    }
    if s0.watermark == s1.watermark { KeepNone(s2.history, SeenTwice(s0.watermark, s1.watermark, s2.raw)); }
  }

  /** A row above the watermark has not been pruned. */
  lemma AboveKept(s: Store, r: LogRow)
    requires Inv(s) && r in s.history && r.id > s.watermark
    ensures r in s.raw
  {
    hide Keep, SumBy, SumRows, Increasing, Populated, DistinctKeys, FromHistory;
    KeepMember(s.history, Above(s.watermark), r);
    KeepMember(s.raw, Above(s.watermark), r);
  }

  lemma {:induction false} KeepNone(rows: seq<LogRow>, p: LogRow -> bool)
    requires forall i :: 0 <= i < |rows| ==> !p(rows[i])
    ensures Keep(rows, p) == []
  {
    if rows != [] { KeepNone(rows[..|rows| - 1], p); }
  }

  // ----- Both failures, in one hour of one row -------------------------------

  const ROW := LogRow(1, 0, "match", "model", "web", None, None, false, SUCCESS, 0, 10, 20, 0, 0, 0.5, 100)
  const FIRST_HOUR := Filters(0, HOUR, None, None, None, None, None)

  /** The first row ever, logged and not yet rolled up. */
  const LOGGED := Store([ROW], [ROW], [], 0)

  lemma LoggedReached()
    ensures ValidRun(EMPTY, [Append(ROW)]) && After(EMPTY, [Append(ROW)]) == LOGGED && Inv(LOGGED)
  {
    InvStart();
    AppendInv(EMPTY, ROW);
    assert [Append(ROW)][1..] == [];
  }

  lemma RowMatches()
    ensures Scan([ROW], FIRST_HOUR, Everything()) == One(ROW) && Scan([], FIRST_HOUR, Everything()) == ZERO
  {
    hide Add;
    assert [ROW][..0] == [] && [ROW][0] == ROW;
    assert FloorHour(0) == 0;
    var p := Meet(InLog(FIRST_HOUR), OfKey(Everything()));
    assert p(ROW);
    SumNone(p);
    assert SumRows([ROW], p) == Add(SumRows([ROW][..0], p), One(ROW));
    AddLaws(One(ROW), ZERO, ZERO);
  }

  lemma KeepOne(p: LogRow -> bool)
    ensures Keep([ROW], p) == if p(ROW) then [ROW] else []
  {
    assert [ROW][..0] == [];
  }

  lemma RolledUp()
    ensures var s := Next(LOGGED, Rollup(1)); s.watermark == 1 && s.history == s.raw == [ROW]
  {
    hide FoldEntries, FoldRows;
    KeepOne(Above(0));
    assert [ROW][..0] == [] && MaxId([ROW]) == 1;
  }

  /** Runs of one and of two steps. */
  lemma ShortRuns(s: Store, a: Label, b: Label)
    requires Enabled(s, a)
    ensures After(s, []) == s && ValidRun(s, [])
    ensures ValidRun(s, [a]) && After(s, [a]) == Next(s, a)
    ensures Enabled(Next(s, a), b) ==> ValidRun(s, [a, b]) && After(s, [a, b]) == Next(Next(s, a), b)
  {
    hide Next, Enabled;
    assert [a][1..] == [] && [a, b][1..] == [b] && [b][1..] == [];
    if Enabled(Next(s, a), b) {
      assert ValidRun(Next(s, a), [b]) && After(Next(s, a), [b]) == Next(Next(s, a), b);
    }
  }

  /** A rollup commits between the watermark and the buckets: the row counts twice. */
  lemma DoubleCountExample()
    ensures ValidRun(LOGGED, [Rollup(1)])
    ensures var s := After(LOGGED, [Rollup(1)]);
      && Scan(s.history, FIRST_HOUR, Everything()) == One(ROW)
      && Part(0, s.table, s.raw, FIRST_HOUR, Everything()) == Add(One(ROW), One(ROW))
  {
    hide Inv, Keep, Part, Excess, Next, Scan, After, ValidRun, Add;
    LoggedReached();
    ShortRuns(LOGGED, Rollup(1), Rollup(1));
    RolledUp();
    RowMatches();
    var s := After(LOGGED, [Rollup(1)]);
    ShortRuns(s, Rollup(1), Rollup(1));
    TornQuery(LOGGED, [Rollup(1)], [], FIRST_HOUR, Everything());
    NoOverhang(FIRST_HOUR, Everything(), Keep(s.history, UpTo(s.watermark)));
    KeepOne(SeenTwice(0, 1, [ROW]));
    KeepOne(Unseen(1, [ROW]));
    assert Twice(0, s, s) == [ROW] && Missed(s, s) == [];
    AddLaws(Part(0, s.table, s.raw, FIRST_HOUR, Everything()), ZERO, ZERO);
    AddLaws(One(ROW), ZERO, ZERO);
  }

  lemma PrunedAway()
    ensures var s := Next(Next(LOGGED, Rollup(1)), Prune(HOUR)); s.raw == [] && s.history == [ROW]
  {
    hide RollupState, Keep;
    RolledUp();
    KeepOne(Survives(HOUR, 1));
  }

  /** A rollup and a prune commit between the buckets and the tail: the row is found
      in neither. */
  lemma MissedRowExample()
    ensures ValidRun(LOGGED, [Rollup(1), Prune(HOUR)])
    ensures var s := After(LOGGED, [Rollup(1), Prune(HOUR)]);
      && Scan(s.history, FIRST_HOUR, Everything()) == One(ROW)
      && Part(0, LOGGED.table, s.raw, FIRST_HOUR, Everything()) == ZERO
  {
    hide Inv, Keep, Part, Excess, Next, Scan, After, ValidRun, Add;
    LoggedReached();
    ShortRuns(LOGGED, Rollup(1), Prune(HOUR));
    PrunedAway();
    RowMatches();
    var run := [Rollup(1), Prune(HOUR)];
    var s := After(LOGGED, run);
    TornQuery(LOGGED, [], run, FIRST_HOUR, Everything());
    NoOverhang(FIRST_HOUR, Everything(), Keep(LOGGED.history, UpTo(0)));
    KeepOne(SeenTwice(0, 0, []));
    KeepOne(Unseen(0, []));
    assert Twice(0, LOGGED, s) == [] && Missed(LOGGED, s) == [ROW];
    AddLaws(One(ROW), ZERO, ZERO);
    NoPart(Part(0, LOGGED.table, s.raw, FIRST_HOUR, Everything()), One(ROW));
  }

  lemma NoPart(part: Sums, one: Sums)
    requires Add(part, one) == one
    ensures part == ZERO
  {
  }
}
