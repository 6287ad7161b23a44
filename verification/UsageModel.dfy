/** Usage records, their additive sums, and dictionaries that accumulate sums by key. */
module UsageModel {
  import opened Common

  // ----- Time, in microseconds of UTC ----------------------------------------

  const HOUR: int := 3600_000_000
  const DAY: int := 86400_000_000

  function FloorHour(ts: int): int { ts - ts % HOUR }

  function FloorDay(ts: int): int { ts - ts % DAY }

  /** The first full hour at or after a time. */
  function CeilHour(ts: int): int { if ts % HOUR == 0 then ts else FloorHour(ts) + HOUR }

  lemma HourFacts(ts: int, edge: int)
    ensures FloorHour(edge) == edge ==> (edge <= ts <==> edge <= FloorHour(ts))
    ensures FloorHour(ts) < edge <==> ts < CeilHour(edge)
    ensures FloorHour(ts) <= ts < FloorHour(ts) + HOUR && FloorHour(FloorHour(ts)) == FloorHour(ts)
  {
    var q, e := ts / HOUR, edge / HOUR;
    assert ts == q * HOUR + ts % HOUR && edge == e * HOUR + edge % HOUR;
    assert FloorHour(ts) == q * HOUR && FloorHour(edge) == e * HOUR;
    assert FloorHour(FloorHour(ts)) == FloorHour(ts) by { assert (q * HOUR) % HOUR == 0; }
  }

  /** The day of an hour bucket is the day of every timestamp in it. */
  lemma DayOfHour(ts: int)
    ensures FloorDay(FloorHour(ts)) == FloorDay(ts)
  {
    var d, r := ts / DAY, ts % DAY;
    assert DAY == 24 * HOUR;
    assert ts == d * DAY + r;
    var h := r / HOUR;
    assert r == h * HOUR + r % HOUR;
    assert ts % HOUR == r % HOUR by { SameRemainder(24 * d, r, HOUR); }
    SameRemainder(d, h * HOUR, DAY);
    assert FloorHour(ts) == d * DAY + h * HOUR && 0 <= h * HOUR < DAY;
  }

  lemma SameRemainder(q: int, r: int, m: int)
    requires m > 0
    ensures (q * m + r) % m == r % m
  {
    var k := r / m;
    var s := r % m;
    assert q * m + r == (q + k) * m + s;
    assert ((q + k) * m + s) / m == q + k && ((q + k) * m + s) % m == s by { Division(q + k, s, m); }
  }

  // ----- Records and sums ----------------------------------------------------

  const SUCCESS := "success"

  datatype LogRow = LogRow(id: nat, ts: int, taskType: string, modelId: string, callerType: string,
                           apiKeyId: Option<string>, market: Option<string>, cacheHit: bool, status: string, retries: int,
                           inputTokens: int, outputTokens: int, cacheReads: int, cacheWrites: int, cost: real, latency: int)

  datatype Sums = Sums(requests: int, cacheHits: int, failures: int, retries: int, inputTokens: int, outputTokens: int,
                       cacheReads: int, cacheWrites: int, cost: real, latency: int)

  const ZERO := Sums(0, 0, 0, 0, 0, 0, 0, 0, 0.0, 0)

  function Add(a: Sums, b: Sums): Sums {
    Sums(a.requests + b.requests, a.cacheHits + b.cacheHits, a.failures + b.failures, a.retries + b.retries,
         a.inputTokens + b.inputTokens, a.outputTokens + b.outputTokens, a.cacheReads + b.cacheReads,
         a.cacheWrites + b.cacheWrites, a.cost + b.cost, a.latency + b.latency)
  }

  /** What one raw row contributes. */
  function One(row: LogRow): Sums {
    Sums(1, if row.cacheHit then 1 else 0, if row.status == SUCCESS then 0 else 1, row.retries, row.inputTokens,
         row.outputTokens, row.cacheReads, row.cacheWrites, row.cost, row.latency)
  }

  lemma AddLaws(a: Sums, b: Sums, c: Sums)
    ensures Add(a, Add(b, c)) == Add(Add(a, b), c)
    ensures Add(a, b) == Add(b, a)
    ensures Add(a, ZERO) == a == Add(ZERO, a)
    ensures Add(a, b) == a <==> b == ZERO
  {
  }

  lemma AddShuffle(a: Sums, b: Sums, c: Sums, d: Sums)
    ensures Add(Add(a, b), Add(c, d)) == Add(Add(a, c), Add(b, d))
  {
  }

  function SumRows(rows: seq<LogRow>, p: LogRow -> bool): Sums {
    if rows == [] then ZERO
    else Add(SumRows(rows[..|rows| - 1], p), if p(rows[|rows| - 1]) then One(rows[|rows| - 1]) else ZERO)
  }

  lemma {:induction false} SumRowsSame(rows: seq<LogRow>, p: LogRow -> bool, q: LogRow -> bool)
    requires forall i :: 0 <= i < |rows| ==> p(rows[i]) == q(rows[i])
    ensures SumRows(rows, p) == SumRows(rows, q)
  {
    if rows != [] { SumRowsSame(rows[..|rows| - 1], p, q); }
  }

  /** Splitting the rows a predicate selects splits the sum. */
  lemma {:induction false} SumRowsSplit(rows: seq<LogRow>, p: LogRow -> bool, q: LogRow -> bool, both: LogRow -> bool)
    requires forall i :: 0 <= i < |rows| ==> both(rows[i]) == (p(rows[i]) || q(rows[i])) && !(p(rows[i]) && q(rows[i]))
    ensures SumRows(rows, both) == Add(SumRows(rows, p), SumRows(rows, q))
  {
    hide Add, One;
    if rows != [] {
      var n := |rows| - 1;
      SumRowsSplit(rows[..n], p, q, both);
      var sp, sq := if p(rows[n]) then One(rows[n]) else ZERO, if q(rows[n]) then One(rows[n]) else ZERO;
      AddShuffle(SumRows(rows[..n], p), sp, SumRows(rows[..n], q), sq);
      AddLaws(sp, ZERO, ZERO);
      AddLaws(sq, ZERO, ZERO);
    } else {
      AddLaws(ZERO, ZERO, ZERO);
    }
  }

  lemma CountStep(a: Sums, hit: bool, row: LogRow)
    requires a.requests >= 0 && (a.requests == 0 <==> a == ZERO)
    ensures var b := Add(a, if hit then One(row) else ZERO);
      && b.requests == a.requests + (if hit then 1 else 0)
      && (b == ZERO <==> a == ZERO && !hit)
  {
    AddLaws(a, ZERO, ZERO);
  }

  /** A sum is zero exactly when it selects no row: every row is one request. */
  lemma {:induction false} SumRowsZero(rows: seq<LogRow>, p: LogRow -> bool)
    ensures SumRows(rows, p).requests >= 0
    ensures SumRows(rows, p) == ZERO <==> forall i :: 0 <= i < |rows| ==> !p(rows[i])
    ensures SumRows(rows, p).requests == 0 <==> SumRows(rows, p) == ZERO
  {
    hide Add, One;
    if rows != [] {
      var n := |rows| - 1;
      SumRowsZero(rows[..n], p);
      CountStep(SumRows(rows[..n], p), p(rows[n]), rows[n]);
    }
  }

  lemma {:induction false} SumRowsConcat(a: seq<LogRow>, b: seq<LogRow>, p: LogRow -> bool)
    ensures SumRows(a + b, p) == Add(SumRows(a, p), SumRows(b, p))
  {
    hide Add, One;
    AddLaws(SumRows(a, p), ZERO, ZERO);
    if b == [] {
      assert a + b == a;
    } else {
      var n := |b| - 1;
      SumRowsConcat(a, b[..n], p);
      assert (a + b)[..|a + b| - 1] == a + b[..n] && (a + b)[|a + b| - 1] == b[n];
      AddLaws(SumRows(a, p), SumRows(b[..n], p), if p(b[n]) then One(b[n]) else ZERO);
    }
  }

  // ----- Accumulating dictionaries -------------------------------------------

  datatype Entry<K> = Entry(key: K, sums: Sums)

  /** d.setdefault(k, zeros), then add s to d[k]; insertion order is kept. */
  function Upsert<K(==)>(d: seq<Entry<K>>, k: K, s: Sums): seq<Entry<K>> {
    if d == [] then [Entry(k, Add(ZERO, s))]
    else if d[0].key == k then [Entry(k, Add(d[0].sums, s))] + d[1..]
    else [d[0]] + Upsert(d[1..], k, s)
  }

  ghost predicate DistinctKeys<K>(d: seq<Entry<K>>) {
    forall i, j :: 0 <= i < j < |d| ==> d[i].key != d[j].key
  }

  function SumBy<K>(d: seq<Entry<K>>, p: K -> bool): Sums {
    if d == [] then ZERO
    else Add(if p(d[0].key) then d[0].sums else ZERO, SumBy(d[1..], p))
  }

  lemma {:induction false} UpsertSum<K>(d: seq<Entry<K>>, k: K, s: Sums, p: K -> bool)
    ensures SumBy(Upsert(d, k, s), p) == Add(SumBy(d, p), if p(k) then s else ZERO)
  {
    hide Add, One;
    var mine := if p(k) then s else ZERO;
    AddLaws(s, ZERO, ZERO);
    AddLaws(ZERO, ZERO, ZERO);
    if d == [] {
      assert Upsert(d, k, s)[1..] == [];
      AddLaws(mine, ZERO, ZERO);
    } else {
      var head, rest := if p(d[0].key) then d[0].sums else ZERO, SumBy(d[1..], p);
      AddLaws(head, rest, mine);
      AddLaws(head, mine, rest);
      AddLaws(rest, mine, ZERO);
      if d[0].key == k {
        assert Upsert(d, k, s)[1..] == d[1..];
      } else {
        UpsertSum(d[1..], k, s, p);
        assert Upsert(d, k, s)[1..] == Upsert(d[1..], k, s);
      }
    }
  }

  lemma {:induction false} UpsertKeys<K>(d: seq<Entry<K>>, k: K, s: Sums)
    requires DistinctKeys(d)
    ensures DistinctKeys(Upsert(d, k, s))
    ensures forall i :: 0 <= i < |Upsert(d, k, s)| ==> Upsert(d, k, s)[i].key == k || exists j :: 0 <= j < |d| && d[j].key == Upsert(d, k, s)[i].key
  {
    if d != [] && d[0].key != k {
      UpsertKeys(d[1..], k, s);
      var rest := Upsert(d[1..], k, s);
      forall i | 0 <= i < |rest| ensures rest[i].key != d[0].key {
        if rest[i].key != k {
          var j :| 0 <= j < |d[1..]| && d[1..][j].key == rest[i].key;
          assert d[j + 1].key == rest[i].key;
        }
      }
      forall i | 0 <= i < |Upsert(d, k, s)|
        ensures Upsert(d, k, s)[i].key == k || exists j :: 0 <= j < |d| && d[j].key == Upsert(d, k, s)[i].key
      {
        if i > 0 && rest[i - 1].key != k {
          var j :| 0 <= j < |d[1..]| && d[1..][j].key == rest[i - 1].key;
          assert d[j + 1].key == rest[i - 1].key;
        }
      }
    }
  }

  function FoldRows<K(==)>(d: seq<Entry<K>>, rows: seq<LogRow>, keyOf: LogRow -> K): seq<Entry<K>> {
    if rows == [] then d
    else Upsert(FoldRows(d, rows[..|rows| - 1], keyOf), keyOf(rows[|rows| - 1]), One(rows[|rows| - 1]))
  }

  function FoldEntries<J, K(==)>(d: seq<Entry<K>>, entries: seq<Entry<J>>, keyOf: J -> K): seq<Entry<K>> {
    if entries == [] then d
    else Upsert(FoldEntries(d, entries[..|entries| - 1], keyOf), keyOf(entries[|entries| - 1].key), entries[|entries| - 1].sums)
  }

  function Via<J, K>(keyOf: J -> K, p: K -> bool): J -> bool { (j: J) => p(keyOf(j)) }

  lemma {:induction false} FoldRowsSum<K>(d: seq<Entry<K>>, rows: seq<LogRow>, keyOf: LogRow -> K, p: K -> bool)
    ensures SumBy(FoldRows(d, rows, keyOf), p) == Add(SumBy(d, p), SumRows(rows, Via(keyOf, p)))
    ensures DistinctKeys(d) ==> DistinctKeys(FoldRows(d, rows, keyOf))
  {
    hide Add, One;
    AddLaws(SumBy(d, p), ZERO, ZERO);
    if rows != [] {
      var front, last := rows[..|rows| - 1], rows[|rows| - 1];
      FoldRowsSum(d, front, keyOf, p);
      UpsertSum(FoldRows(d, front, keyOf), keyOf(last), One(last), p);
      if DistinctKeys(d) { UpsertKeys(FoldRows(d, front, keyOf), keyOf(last), One(last)); }
      AddLaws(SumBy(d, p), SumRows(front, Via(keyOf, p)), if p(keyOf(last)) then One(last) else ZERO);
    }
  }

  lemma {:induction false} SumBySnoc<K>(d: seq<Entry<K>>, e: Entry<K>, p: K -> bool)
    ensures SumBy(d + [e], p) == Add(SumBy(d, p), if p(e.key) then e.sums else ZERO)
  {
    hide Add, One;
    var last := if p(e.key) then e.sums else ZERO;
    if d == [] {
      assert d + [e] == [e] && [e][1..] == [];
      AddLaws(last, ZERO, ZERO);
    } else {
      SumBySnoc(d[1..], e, p);
      assert (d + [e])[1..] == d[1..] + [e];
      AddLaws(if p(d[0].key) then d[0].sums else ZERO, SumBy(d[1..], p), last);
    }
  }

  lemma {:induction false} FoldEntriesSum<J, K>(d: seq<Entry<K>>, entries: seq<Entry<J>>, keyOf: J -> K, p: K -> bool)
    ensures SumBy(FoldEntries(d, entries, keyOf), p) == Add(SumBy(d, p), SumBy(entries, Via(keyOf, p)))
    ensures DistinctKeys(d) ==> DistinctKeys(FoldEntries(d, entries, keyOf))
  {
    hide Add, One;
    AddLaws(SumBy(d, p), ZERO, ZERO);
    if entries != [] {
      var front, last := entries[..|entries| - 1], entries[|entries| - 1];
      FoldEntriesSum(d, front, keyOf, p);
      UpsertSum(FoldEntries(d, front, keyOf), keyOf(last.key), last.sums, p);
      if DistinctKeys(d) { UpsertKeys(FoldEntries(d, front, keyOf), keyOf(last.key), last.sums); }
      assert entries == front + [last];
      SumBySnoc(front, last, Via(keyOf, p));
      AddLaws(SumBy(d, p), SumBy(front, Via(keyOf, p)), if p(keyOf(last.key)) then last.sums else ZERO);
    }
  }

  /** No group exists without a request in it. */
  ghost predicate Populated<K>(d: seq<Entry<K>>) {
    forall i :: 0 <= i < |d| ==> d[i].sums.requests > 0
  }

  lemma {:induction false} UpsertPopulated<K>(d: seq<Entry<K>>, k: K, s: Sums)
    requires Populated(d) && s.requests > 0
    ensures Populated(Upsert(d, k, s))
  {
    if d != [] && d[0].key != k { UpsertPopulated(d[1..], k, s); }
  }

  lemma {:induction false} FoldRowsPopulated<K>(d: seq<Entry<K>>, rows: seq<LogRow>, keyOf: LogRow -> K)
    requires Populated(d)
    ensures Populated(FoldRows(d, rows, keyOf))
  {
    if rows != [] {
      var front, last := rows[..|rows| - 1], rows[|rows| - 1];
      FoldRowsPopulated(d, front, keyOf);
      UpsertPopulated(FoldRows(d, front, keyOf), keyOf(last), One(last));
    }
  }

  lemma {:induction false} FoldEntriesPopulated<J, K>(d: seq<Entry<K>>, entries: seq<Entry<J>>, keyOf: J -> K)
    requires Populated(d) && Populated(entries)
    ensures Populated(FoldEntries(d, entries, keyOf))
  {
    if entries != [] {
      var front, last := entries[..|entries| - 1], entries[|entries| - 1];
      FoldEntriesPopulated(d, front, keyOf);
      UpsertPopulated(FoldEntries(d, front, keyOf), keyOf(last.key), last.sums);
    }
  }
}
