/** The raw call log, the hourly rollup and the prune, as steps on three tables.
    `history` remembers every row ever logged, pruned or not. */
module UsageStore {
  import opened Common
  import opened UsageModel

  datatype Key = Key(hour: int, taskType: string, modelId: string, callerType: string, apiKeyId: string, market: string)

  /** `value or ""` */
  function OrEmpty(value: Option<string>): string { if value.None? then "" else value.value }

  function KeyOf(row: LogRow): Key {
    Key(FloorHour(row.ts), row.taskType, row.modelId, row.callerType, OrEmpty(row.apiKeyId), OrEmpty(row.market))
  }

  function Self(k: Key): Key { k }

  type Table = seq<Entry<Key>>

  datatype Store = Store(history: seq<LogRow>, raw: seq<LogRow>, table: Table, watermark: nat)

  const EMPTY := Store([], [], [], 0)

  // ----- Selecting rows ------------------------------------------------------

  function Keep(rows: seq<LogRow>, p: LogRow -> bool): seq<LogRow> {
    if rows == [] then []
    else Keep(rows[..|rows| - 1], p) + if p(rows[|rows| - 1]) then [rows[|rows| - 1]] else []
  }

  function Above(w: nat): LogRow -> bool { (r: LogRow) => r.id > w }

  function UpTo(w: nat): LogRow -> bool { (r: LogRow) => r.id <= w }

  /** What a prune leaves. */
  function Survives(cutoff: int, w: nat): LogRow -> bool { (r: LogRow) => !(r.ts < cutoff && r.id <= w) }

  function In(rows: seq<LogRow>): LogRow -> bool { (r: LogRow) => r in rows }

  function LastId(rows: seq<LogRow>): nat { if rows == [] then 0 else rows[|rows| - 1].id }

  ghost predicate Increasing(rows: seq<LogRow>) {
    && (forall i :: 0 <= i < |rows| ==> rows[i].id > 0)
    && (forall i, j :: 0 <= i < j < |rows| ==> rows[i].id < rows[j].id)
  }

  lemma {:induction false} KeepKeep(rows: seq<LogRow>, p: LogRow -> bool, q: LogRow -> bool)
    requires forall r :: q(r) ==> p(r)
    ensures Keep(Keep(rows, p), q) == Keep(rows, q)
  {
    if rows != [] {
      var front, last := rows[..|rows| - 1], rows[|rows| - 1];
      KeepKeep(front, p, q);
      if p(last) { KeepSnoc(Keep(front, p), last, q); } else { assert Keep(front, p) + [] == Keep(front, p); }
    }
  }

  lemma KeepSnoc(rows: seq<LogRow>, row: LogRow, p: LogRow -> bool)
    ensures Keep(rows + [row], p) == Keep(rows, p) + if p(row) then [row] else []
  {
    assert (rows + [row])[..|rows|] == rows;
  }

  lemma {:induction false} KeepPrefix(rows: seq<LogRow>, c: nat, p: LogRow -> bool)
    requires c <= |rows| && forall i :: 0 <= i < |rows| ==> (p(rows[i]) <==> i < c)
    ensures Keep(rows, p) == rows[..c]
  {
    if rows != [] {
      var front, last := rows[..|rows| - 1], rows[|rows| - 1];
      if c <= |front| {
        KeepPrefix(front, c, p);
        assert front[..c] + [] == rows[..c];
      } else {
        KeepPrefix(front, |front|, p);
        assert front[..|front|] + [last] == rows[..c];
      }
    }
  }

  lemma {:induction false} KeepSuffix(rows: seq<LogRow>, c: nat, p: LogRow -> bool)
    requires c <= |rows| && forall i :: 0 <= i < |rows| ==> (p(rows[i]) <==> c <= i)
    ensures Keep(rows, p) == rows[c..]
  {
    if rows != [] {
      var front, last := rows[..|rows| - 1], rows[|rows| - 1];
      if c <= |front| {
        KeepSuffix(front, c, p);
        assert front[c..] + [last] == rows[c..];
      } else {
        KeepSuffix(front, |front|, p);
        assert front[|front|..] + [] == rows[c..];
      }
    }
  }

  /** Ids grow, so a watermark cuts the history in two. */
  lemma Cut(rows: seq<LogRow>, w: nat) returns (c: nat)
    requires Increasing(rows)
    ensures c <= |rows|
    ensures forall i :: 0 <= i < |rows| ==> (rows[i].id <= w <==> i < c)
    ensures Keep(rows, UpTo(w)) == rows[..c] && Keep(rows, Above(w)) == rows[c..]
  {
    hide Keep;
    c := 0;
    while c < |rows| && rows[c].id <= w
      invariant c <= |rows| && forall i :: 0 <= i < c ==> rows[i].id <= w
    {
      c := c + 1;
    }
    KeepPrefix(rows, c, UpTo(w));
    KeepSuffix(rows, c, Above(w));
  }

  // ----- Steps ---------------------------------------------------------------

  datatype Label = Append(row: LogRow) | Rollup(batch: nat) | Prune(cutoff: int)

  function Batch(s: Store, batch: nat): seq<LogRow> {
    var pending := Keep(s.raw, Above(s.watermark));
    if |pending| <= batch then pending else pending[..batch]
  }

  function MaxId(rows: seq<LogRow>): nat {
    if rows == [] then 0
    else var rest := MaxId(rows[..|rows| - 1]); if rest > rows[|rows| - 1].id then rest else rows[|rows| - 1].id
  }

  function RollupState(s: Store, batch: nat): Store {
    var rows := Batch(s, batch);
    if rows == [] then s
    else s.(table := FoldEntries(s.table, FoldRows([], rows, KeyOf), Self), watermark := MaxId(rows))
  }

  function PruneState(s: Store, cutoff: int): Store {
    if s.watermark == 0 then s else s.(raw := Keep(s.raw, Survives(cutoff, s.watermark)))
  }

  function Next(s: Store, l: Label): Store {
    match l
    case Append(row) => s.(history := s.history + [row], raw := s.raw + [row])
    case Rollup(batch) => RollupState(s, batch)
    case Prune(cutoff) => PruneState(s, cutoff)
  }

  /** Ids are handed out in increasing order and seen in that order. */
  predicate Enabled(s: Store, l: Label) {
    l.Append? ==> l.row.id > LastId(s.history)
  }

  ghost predicate ValidRun(s: Store, run: seq<Label>)
    decreases |run|
  {
    run == [] || (Enabled(s, run[0]) && ValidRun(Next(s, run[0]), run[1..]))
  }

  function After(s: Store, run: seq<Label>): Store
    decreases |run|
  {
    if run == [] then s else After(Next(s, run[0]), run[1..])
  }

  // ----- Nothing is missed and nothing is counted twice ----------------------

  /** The raw log holds some of the rows ever logged, in the order of logging. */
  predicate FromHistory(s: Store) { s.raw == Keep(s.history, In(s.raw)) }

  /** The table holds exactly the rows up to the watermark, and the raw log still
      has every row above it. */
  ghost predicate Inv(s: Store) {
    && Increasing(s.history) && s.watermark <= LastId(s.history) && FromHistory(s)
    && Keep(s.raw, Above(s.watermark)) == Keep(s.history, Above(s.watermark))
    && DistinctKeys(s.table) && Populated(s.table)
    && (forall p: Key -> bool :: SumBy(s.table, p) == SumRows(Keep(s.history, UpTo(s.watermark)), Via(KeyOf, p)))
  }

  lemma InvStart()
    ensures Inv(EMPTY)
  {
  }

  lemma AppendInv(s: Store, row: LogRow)
    requires Inv(s) && row.id > LastId(s.history)
    ensures Inv(Next(s, Append(row)))
  {
    hide SumBy, SumRows, Keep, Populated, DistinctKeys, FromHistory, Increasing;
    AppendGrows(s.history, row, s.watermark);
    KeepSnoc(s.raw, row, Above(s.watermark));
    AppendFromHistory(s, row);
  }

  /** A new row comes after all others, above any watermark. */
  lemma AppendGrows(history: seq<LogRow>, row: LogRow, w: nat)
    requires Increasing(history) && row.id > LastId(history) >= w
    ensures Increasing(history + [row]) && LastId(history + [row]) == row.id
    ensures Keep(history + [row], Above(w)) == Keep(history, Above(w)) + [row]
    ensures Keep(history + [row], UpTo(w)) == Keep(history, UpTo(w))
  {
    hide Keep;
    KeepSnoc(history, row, Above(w));
    KeepSnoc(history, row, UpTo(w));
    assert Keep(history, UpTo(w)) + [] == Keep(history, UpTo(w));
  }

  lemma {:induction false} KeepSame(rows: seq<LogRow>, p: LogRow -> bool, q: LogRow -> bool)
    requires forall i :: 0 <= i < |rows| ==> p(rows[i]) == q(rows[i])
    ensures Keep(rows, p) == Keep(rows, q)
  {
    if rows != [] { KeepSame(rows[..|rows| - 1], p, q); }
  }

  lemma AppendFromHistory(s: Store, row: LogRow)
    requires Increasing(s.history) && row.id > LastId(s.history) && FromHistory(s)
    ensures FromHistory(Next(s, Append(row)))
  {
    hide Keep;
    KeepSnoc(s.history, row, In(s.raw + [row]));
    forall i | 0 <= i < |s.history| ensures In(s.raw + [row])(s.history[i]) == In(s.raw)(s.history[i]) {
      assert s.history[i].id <= LastId(s.history);
    }
    KeepSame(s.history, In(s.raw + [row]), In(s.raw));
    assert row in s.raw + [row];
  }

  lemma {:induction false} KeepMember(rows: seq<LogRow>, p: LogRow -> bool, r: LogRow)
    ensures r in Keep(rows, p) <==> r in rows && p(r)
  {
    if rows != [] {
      var front, last := rows[..|rows| - 1], rows[|rows| - 1];
      KeepMember(front, p, r);
      assert rows == front + [last];
    }
  }

  lemma {:induction false} KeepBoth(rows: seq<LogRow>, p: LogRow -> bool, q: LogRow -> bool, both: LogRow -> bool)
    requires forall i :: 0 <= i < |rows| ==> both(rows[i]) == (p(rows[i]) && q(rows[i]))
    ensures Keep(Keep(rows, p), q) == Keep(rows, both)
  {
    if rows != [] {
      var front, last := rows[..|rows| - 1], rows[|rows| - 1];
      KeepBoth(front, p, q, both);
      if p(last) { KeepSnoc(Keep(front, p), last, q); } else { assert Keep(front, p) + [] == Keep(front, p); }
    }
  }

  lemma PruneFromHistory(s: Store, cutoff: int)
    requires FromHistory(s)
    ensures FromHistory(Next(s, Prune(cutoff)))
  {
    hide Keep;
    var p := Survives(cutoff, s.watermark);
    var raw := Keep(s.raw, p);
    forall i | 0 <= i < |s.history| ensures In(raw)(s.history[i]) == (In(s.raw)(s.history[i]) && p(s.history[i])) {
      KeepMember(s.raw, p, s.history[i]);
    }
    KeepBoth(s.history, In(s.raw), p, In(raw));
  }

  lemma PruneInv(s: Store, cutoff: int)
    requires Inv(s)
    ensures Inv(Next(s, Prune(cutoff)))
  {
    hide SumBy, SumRows, Keep, FromHistory, Increasing, Populated, DistinctKeys;
    KeepKeep(s.raw, Survives(cutoff, s.watermark), Above(s.watermark));
    PruneFromHistory(s, cutoff);
  }

  /** A prune deletes exactly the rows that are older than the cutoff and folded, and
      nothing before the first rollup. */
  lemma PruneExactly(s: Store, cutoff: int, r: LogRow)
    requires Inv(s)
    ensures r in Next(s, Prune(cutoff)).raw <==> r in s.raw && (r.ts >= cutoff || r.id > s.watermark || s.watermark == 0)
  {
    hide Keep;
    KeepMember(s.raw, Survives(cutoff, s.watermark), r);
  }

  /** A rollup takes the first rows above the watermark, as many as the batch allows. */
  lemma BatchExactly(s: Store, batch: nat)
    ensures Batch(s, batch) <= Keep(s.raw, Above(s.watermark))
    ensures |Batch(s, batch)| == batch || (|Batch(s, batch)| < batch && Batch(s, batch) == Keep(s.raw, Above(s.watermark)))
    ensures forall r :: r in Keep(s.raw, Above(s.watermark)) <==> r in s.raw && r.id > s.watermark
  {
    hide Keep;
    forall r ensures r in Keep(s.raw, Above(s.watermark)) <==> r in s.raw && r.id > s.watermark {
      KeepMember(s.raw, Above(s.watermark), r);
    }
  }

  lemma {:induction false} MaxIsLast(rows: seq<LogRow>)
    requires Increasing(rows)
    ensures MaxId(rows) == LastId(rows)
  {
    if rows != [] { MaxIsLast(rows[..|rows| - 1]); }
  }

  /** Taking the next n rows after a cut moves the cut past them. */
  lemma CutAdvances(h: seq<LogRow>, w: nat, rows: seq<LogRow>)
    requires Increasing(h) && rows != [] && rows <= Keep(h, Above(w))
    ensures w < MaxId(rows) <= LastId(h)
    ensures Keep(h, UpTo(MaxId(rows))) == Keep(h, UpTo(w)) + rows
  {
    hide Keep, MaxId;
    var c := Cut(h, w);
    var e := c + |rows|;
    assert rows == h[c..e];
    assert Increasing(rows);
    MaxIsLast(rows);
    assert MaxId(rows) == h[e - 1].id;
    var c' := Cut(h, MaxId(rows));
    assert e < |h| ==> h[e - 1].id < h[e].id;
    assert h[..e] == h[..c] + rows;
  }

  /** A batch is the next stretch of history, and moves the watermark past it. */
  lemma BatchAdvances(s: Store, batch: nat)
    requires Inv(s) && Batch(s, batch) != []
    ensures var rows, w := Batch(s, batch), MaxId(Batch(s, batch));
      && s.watermark < w <= LastId(s.history)
      && Keep(s.history, UpTo(w)) == Keep(s.history, UpTo(s.watermark)) + rows
      && Keep(s.raw, Above(w)) == Keep(s.history, Above(w))
  {
    hide SumBy, SumRows, Keep, MaxId, Increasing, DistinctKeys;
    CutAdvances(s.history, s.watermark, Batch(s, batch));
    var w := MaxId(Batch(s, batch));
    KeepKeep(s.raw, Above(s.watermark), Above(w));
    KeepKeep(s.history, Above(s.watermark), Above(w));
  }

  lemma FoldTotals(table: Table, rows: seq<LogRow>, p: Key -> bool)
    ensures var folded := FoldEntries(table, FoldRows([], rows, KeyOf), Self);
      && SumBy(folded, p) == Add(SumBy(table, p), SumRows(rows, Via(KeyOf, p)))
      && (DistinctKeys(table) ==> DistinctKeys(folded))
  {
    hide Add, SumRows;
    var groups := FoldRows([], rows, KeyOf);
    FoldRowsSum([], rows, KeyOf, p);
    AddLaws(SumRows(rows, Via(KeyOf, p)), ZERO, ZERO);
    FoldEntriesSum(table, groups, Self, p);
    assert forall k :: Via(Self, p)(k) == p(Self(k)) == p(k);
    SumBySame(groups, p, Via(Self, p));
  }

  lemma {:induction false} SumBySame<K>(d: seq<Entry<K>>, p: K -> bool, q: K -> bool)
    requires forall k :: p(k) == q(k)
    ensures SumBy(d, p) == SumBy(d, q)
  {
    if d != [] { SumBySame(d[1..], p, q); }
  }

  lemma RollupInv(s: Store, batch: nat)
    requires Inv(s)
    ensures Inv(Next(s, Rollup(batch)))
  {
    hide SumBy, SumRows, Add, Increasing, Keep, FoldEntries, FoldRows, DistinctKeys, Populated;
    var rows := Batch(s, batch);
    if rows != [] {
      BatchAdvances(s, batch);
      var s' := RollupState(s, batch);
      forall p: Key -> bool ensures SumBy(s'.table, p) == SumRows(Keep(s.history, UpTo(s'.watermark)), Via(KeyOf, p)) {
        FoldTotals(s.table, rows, p);
        SumRowsConcat(Keep(s.history, UpTo(s.watermark)), rows, Via(KeyOf, p));
      }
      FoldTotals(s.table, rows, Everything());
      NoneUnpopulated();
      FoldRowsPopulated([], rows, KeyOf);
      FoldEntriesPopulated(s.table, FoldRows([], rows, KeyOf), Self);
    }
  }

  lemma NoneUnpopulated()
    ensures Populated<Key>([])
  {
  }

  function Everything(): Key -> bool { (k: Key) => true }

  lemma {:induction false} RunInv(s: Store, run: seq<Label>)
    requires Inv(s) && ValidRun(s, run)
    ensures Inv(After(s, run))
    decreases |run|
  {
    hide Inv;
    if run != [] {
      match run[0] {
        case Append(row) => AppendInv(s, row);
        case Rollup(batch) => RollupInv(s, batch);
        case Prune(cutoff) => PruneInv(s, cutoff);
      }
      RunInv(Next(s, run[0]), run[1..]);
    }
  }

  // ----- The tables, updated in place ----------------------------------------

  class Tables {
    var raw: seq<LogRow>
    var table: Table
    var watermark: nat
    ghost var history: seq<LogRow>

    ghost function Snapshot(): Store
      reads this
    {
      Store(history, raw, table, watermark)
    }

    constructor ()
      ensures Snapshot() == EMPTY && Inv(Snapshot())
    {
      raw, table, watermark, history := [], [], 0, [];
      new;
      InvStart();
    }

    method Record(row: LogRow)
      requires Inv(Snapshot()) && row.id > LastId(history)
      modifies this
      ensures Snapshot() == Next(old(Snapshot()), Append(row)) && Inv(Snapshot())
    {
      AppendInv(Snapshot(), row);
      raw, history := raw + [row], history + [row];
    }

    /** One batch in one transaction. */
    method RollupHourly(batch: nat) returns (folded: nat)
      requires Inv(Snapshot())
      modifies this`table, this`watermark
      ensures Snapshot() == Next(old(Snapshot()), Rollup(batch)) && Inv(Snapshot())
      ensures folded == |Batch(old(Snapshot()), batch)|
    {
      hide Inv, FoldRows, FoldEntries, Keep;
      RollupInv(Snapshot(), batch);
      var pending := Keep(raw, Above(watermark));
      var rows := if |pending| <= batch then pending else pending[..batch];
      if rows == [] { return 0; }
      var groups := GroupRows(rows);
      var merged := MergeGroups(table, groups);
      table := merged;
      watermark := MaxId(rows);
      folded := |rows|;
    }

    method PruneLogs(cutoff: int) returns (deleted: nat)
      requires Inv(Snapshot())
      modifies this`raw
      ensures Snapshot() == Next(old(Snapshot()), Prune(cutoff)) && Inv(Snapshot())
      ensures deleted == |old(raw)| - |raw|
    {
      hide Inv, Keep;
      PruneInv(Snapshot(), cutoff);
      if watermark == 0 { return 0; }
      var kept := Keep(raw, Survives(cutoff, watermark));
      KeepShorter(raw, Survives(cutoff, watermark));
      deleted := |raw| - |kept|;
      raw := kept;
    }
  }

  lemma {:induction false} KeepShorter(rows: seq<LogRow>, p: LogRow -> bool)
    ensures |Keep(rows, p)| <= |rows|
  {
    if rows != [] { KeepShorter(rows[..|rows| - 1], p); }
  }

  method GroupRows(rows: seq<LogRow>) returns (groups: Table)
    ensures groups == FoldRows([], rows, KeyOf)
  {
    hide Upsert, One;
    groups := [];
    for i := 0 to |rows|
      invariant groups == FoldRows([], rows[..i], KeyOf)
    {
      assert rows[..i + 1][..i] == rows[..i];
      groups := Upsert(groups, KeyOf(rows[i]), One(rows[i]));
    }
    assert rows[..|rows|] == rows;
  }

  /** INSERT ... ON CONFLICT DO UPDATE, once per group. */
  method MergeGroups(table: Table, groups: Table) returns (merged: Table)
    ensures merged == FoldEntries(table, groups, Self)
  {
    hide Upsert;
    merged := table;
    for i := 0 to |groups|
      invariant merged == FoldEntries(table, groups[..i], Self)
    {
      assert groups[..i + 1][..i] == groups[..i];
      merged := Upsert(merged, groups[i].key, groups[i].sums);
    }
    assert groups[..|groups|] == groups;
  }
}
