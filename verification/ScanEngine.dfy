/** Executing rules one by one and in batches, and when the two agree. */
module ScanEngine {
  import opened Common
  import opened ScanModel
  import opened ScanCompiler
  import opened Decimal

  // ----- Statements against the database -------------------------------------

  /** A table that does not change during the run, the window clause with its two
      parameters, and which statements the server fails. */
  datatype Db = Db(rows: seq<Row>, window: Cond, windowParams: Params, faults: Query -> Option<SqlError>)

  predicate DbOk(db: Db) {
    BindNames(db.window) <= WINDOW_NAMES && db.windowParams.Keys == WINDOW_NAMES
  }

  datatype Config = Config(rowsScanned: nat, threshold: real, cap: nat)

  datatype Reply<T> = Ok(value: T) | Err(error: SqlError)

  predicate Bound(c: Cond, env: Params) { BindNames(c) <= env.Keys }

  function OwnCond(rule: Rule): Cond { ConditionFor(rule, OWN_PREFIX).0 }

  /** {**compiled.params, **window_params} */
  function OwnEnv(db: Db, rule: Rule): Params { ConditionFor(rule, OWN_PREFIX).1 + db.windowParams }

  function BatchCond(chunk: seq<Rule>, i: nat): Cond
    requires i < |chunk|
  {
    ConditionFor(chunk[i], BatchPrefix(i)).0
  }

  function BatchEnv(db: Db, chunk: seq<Rule>): Params { Merged(chunk, |chunk|) + db.windowParams }

  /** compiled_by_id: the rule whose statements are kept under each id.  Of several
      rules with one id the last that compiled is kept. */
  type Statements = map<string, Rule>

  predicate Keeps(kept: Statements, rules: seq<Rule>) {
    forall i :: 0 <= i < |rules| ==> rules[i].id in kept && kept[rules[i].id].id == rules[i].id
  }

  /** No other rule took the id of one of these. */
  ghost predicate KeepsOwn(kept: Statements, rules: seq<Rule>) {
    forall i :: 0 <= i < |rules| ==> rules[i].id in kept && kept[rules[i].id] == rules[i]
  }

  function RunCount(db: Db, rule: Rule): Reply<nat> {
    if !Bound(OwnCond(rule), OwnEnv(db, rule)) then Err(Unbound(CountQuery(rule.id)))
    else if db.faults(CountQuery(rule.id)).Some? then Err(db.faults(CountQuery(rule.id)).value)
    else Ok(CountWhere(db.rows, Both(db.window, OwnCond(rule)), OwnEnv(db, rule)))
  }

  function RunDetail(db: Db, rule: Rule, cap: nat): Reply<seq<Row>> {
    if !Bound(OwnCond(rule), OwnEnv(db, rule)) then Err(Unbound(DetailQuery(rule.id)))
    else if db.faults(DetailQuery(rule.id)).Some? then Err(db.faults(DetailQuery(rule.id)).value)
    else Ok(Limit(Where(db.rows, Both(db.window, OwnCond(rule)), OwnEnv(db, rule)), cap + 1))
  }

  function Alias(i: nat): string { "c_" + Numeral(i) }

  /** The single result row of a batch, keyed by its column aliases. */
  function BatchRow(db: Db, chunk: seq<Rule>, k: nat): map<string, Option<int>>
    requires k <= |chunk|
  {
    if k == 0 then map[]
    else BatchRow(db, chunk, k - 1)
      [Alias(k - 1) := SumCase(Where(db.rows, db.window, BatchEnv(db, chunk)), BatchCond(chunk, k - 1), BatchEnv(db, chunk))]
  }

  function Ids(chunk: seq<Rule>): seq<string> {
    seq(|chunk|, i requires 0 <= i < |chunk| => chunk[i].id)
  }

  predicate BatchBound(db: Db, chunk: seq<Rule>) {
    forall i :: 0 <= i < |chunk| ==> Bound(BatchCond(chunk, i), BatchEnv(db, chunk))
  }

  function RunBatch(db: Db, chunk: seq<Rule>): Reply<map<string, Option<int>>> {
    if !BatchBound(db, chunk) then Err(Unbound(BatchQuery(Ids(chunk))))
    else if db.faults(BatchQuery(Ids(chunk))).Some? then Err(db.faults(BatchQuery(Ids(chunk))).value)
    else Ok(BatchRow(db, chunk, |chunk|))
  }

  lemma AliasInjective(i: nat, j: nat)
    requires Alias(i) == Alias(j)
    ensures i == j
  {
    assert Alias(i)[2..] == Numeral(i) && Alias(j)[2..] == Numeral(j);
    NumeralInjective(i, j);
  }

  lemma {:induction false} AliasAt(db: Db, chunk: seq<Rule>, k: nat, i: nat)
    requires i < k <= |chunk|
    ensures Alias(i) in BatchRow(db, chunk, k)
    ensures BatchRow(db, chunk, k)[Alias(i)] ==
              SumCase(Where(db.rows, db.window, BatchEnv(db, chunk)), BatchCond(chunk, i), BatchEnv(db, chunk))
  {
    hide Alias, SumCase, Where, BatchCond, BatchEnv;
    if i < k - 1 {
      AliasAt(db, chunk, k - 1, i);
      if Alias(i) == Alias(k - 1) { AliasInjective(i, k - 1); }
    }
  }

  /** Executing a compiled batch: its conditions under its parameters. */
  function SumsRow(db: Db, conditions: seq<Cond>, env: Params): map<string, Option<int>> {
    if conditions == [] then map[]
    else
      var k := |conditions| - 1;
      SumsRow(db, conditions[..k], env)[Alias(k) := SumCase(Where(db.rows, db.window, env), conditions[k], env)]
  }

  function RunSums(db: Db, conditions: seq<Cond>, params: Params, ids: seq<string>): Reply<map<string, Option<int>>> {
    var env := params + db.windowParams;
    if exists i :: 0 <= i < |conditions| && !Bound(conditions[i], env) then Err(Unbound(BatchQuery(ids)))
    else if db.faults(BatchQuery(ids)).Some? then Err(db.faults(BatchQuery(ids)).value)
    else Ok(SumsRow(db, conditions, env))
  }

  lemma {:induction false} SumsAreBatchRow(db: Db, chunk: seq<Rule>, conditions: seq<Cond>, k: nat)
    requires |conditions| == k <= |chunk| && forall i :: 0 <= i < k ==> conditions[i] == BatchCond(chunk, i)
    ensures SumsRow(db, conditions, BatchEnv(db, chunk)) == BatchRow(db, chunk, k)
  {
    hide Alias, SumCase, Where, BatchCond, BatchEnv;
    if k > 0 { SumsAreBatchRow(db, chunk, conditions[..k - 1], k - 1); }
  }

  /** What compile_batch hands over is the batch of the chunk. */
  lemma CompiledBatch(db: Db, chunk: seq<Rule>, conditions: seq<Cond>, ids: seq<string>)
    requires |conditions| == |ids| == |chunk|
    requires forall i :: 0 <= i < |chunk| ==> conditions[i] == BatchCond(chunk, i) && ids[i] == chunk[i].id
    ensures RunSums(db, conditions, Merged(chunk, |chunk|), ids) == RunBatch(db, chunk)
  {
    hide BatchCond, Bound, Merged, BatchRow;
    assert ids == Ids(chunk);
    SumsAreBatchRow(db, chunk, conditions, |chunk|);
  }

  // ----- Outcomes ------------------------------------------------------------

  function Classify(rule: Rule, count: int, detail: seq<Row>, cfg: Config): RuleOutcome {
    var percentage := if cfg.rowsScanned == 0 then None else Some(count as real / cfg.rowsScanned as real);
    var needs := rule.status == Active && percentage.Some? && percentage.value > cfg.threshold;
    RuleOutcome(rule, if rule.status == Calibration || needs then RanCalibration else RanActive,
                Some(count), percentage, Limit(detail, cfg.cap), |detail| > cfg.cap, needs, None, "")
  }

  /** From a successful count to an outcome of the rule: fetch details only for
      findings, by the statement kept under its id. */
  function FromCount(db: Db, statement: Rule, rule: Rule, count: int, cfg: Config): RuleOutcome {
    if count > 0 then
      match RunDetail(db, statement, cfg.cap)
      case Ok(detail) => Classify(rule, count, detail, cfg)
      case Err(e) => ErrorOutcome(rule, e)
    else Classify(rule, count, [], cfg)
  }

  /** _process_individual around _execute_individually. */
  function Individual(db: Db, statement: Rule, rule: Rule, cfg: Config): RuleOutcome {
    match RunCount(db, statement)
    case Ok(count) => FromCount(db, statement, rule, count, cfg)
    case Err(e) => ErrorOutcome(rule, e)
  }

  function Individually(db: Db, kept: Statements, chunk: seq<Rule>, cfg: Config): seq<RuleOutcome>
    requires Keeps(kept, chunk)
  {
    seq(|chunk|, i requires 0 <= i < |chunk| => Individual(db, kept[chunk[i].id], chunk[i], cfg))
  }

  /** What a batch returns: its own counts, or errors for all, or the fallback. */
  function Batched(db: Db, kept: Statements, chunk: seq<Rule>, cfg: Config): (outcomes: seq<RuleOutcome>)
    requires Keeps(kept, chunk)
    ensures |outcomes| == |chunk|
    ensures forall i :: 0 <= i < |chunk| ==> outcomes[i].rule == chunk[i]
  {
    match RunBatch(db, chunk)
    case Err(TimedOut) => seq(|chunk|, i requires 0 <= i < |chunk| => ErrorOutcome(chunk[i], TimedOut))
    case Err(_) => Individually(db, kept, chunk, cfg)
    case Ok(row) =>
      seq(|chunk|, i requires 0 <= i < |chunk| =>
        FromCount(db, kept[chunk[i].id], chunk[i], Served(row, i), cfg))
  }

  /** int(row[f"c_{idx}"] or 0) */
  function Served(row: map<string, Option<int>>, i: nat): int {
    if Alias(i) in row then OrZero(row[Alias(i)]) else 0
  }

  lemma AliasServed(db: Db, chunk: seq<Rule>, i: nat)
    requires i < |chunk| && RunBatch(db, chunk).Ok?
    ensures Alias(i) in RunBatch(db, chunk).value
  {
    hide Alias;
    AliasAt(db, chunk, |chunk|, i);
  }

  method ProcessBatch(db: Db, kept: Statements, chunk: seq<Rule>, cfg: Config) returns (results: seq<RuleOutcome>)
    requires Keeps(kept, chunk)
    ensures results == Batched(db, kept, chunk, cfg)
  {
    hide RunBatch, FromCount, Individual, Classify, ErrorOutcome, Alias, RunSums, Merged;
    var conditions, params, ids := CompileBatch(chunk);
    CompiledBatch(db, chunk, conditions, ids);
    var reply := RunSums(db, conditions, params, ids);
    if reply.Err? {
      if reply.error.TimedOut? {
        return seq(|chunk|, i requires 0 <= i < |chunk| => ErrorOutcome(chunk[i], TimedOut));
      }
      return Individually(db, kept, chunk, cfg);
    }
    results := [];
    for idx := 0 to |chunk|
      invariant |results| == idx
      invariant forall j :: 0 <= j < idx ==> results[j] == Batched(db, kept, chunk, cfg)[j]
    {
      AliasServed(db, chunk, idx);
      var outcome := OutcomeOfBatchCount(db, kept[chunk[idx].id], chunk[idx], OrZero(reply.value[Alias(idx)]), cfg);
      results := results + [outcome];
    }
  }

  /** One iteration of the loop over a successful batch. */
  method OutcomeOfBatchCount(db: Db, statement: Rule, rule: Rule, count: int, cfg: Config) returns (outcome: RuleOutcome)
    ensures outcome == FromCount(db, statement, rule, count, cfg)
  {
    var detail := [];
    if count > 0 {
      var reply := RunDetail(db, statement, cfg.cap);
      if reply.Err? {
        return ErrorOutcome(rule, reply.error);
      }
      detail := reply.value;
    }
    outcome := Classify(rule, count, detail, cfg);
  }

  // ----- Batching preserves meaning ------------------------------------------

  /** What a domain rule is for: a value that is present and not an allowed one. */
  predicate OutOfDomain(row: Row, column: string, allowed: seq<string>) {
    var v := Column(row, column);
    v != Null && v.s != "" && v.s !in allowed
  }

  lemma DomainMeaning(rule: Rule, prefix: string, row: Row, env: Params)
    requires rule.ruleClass.Domain? && Carries(env, prefix, rule.allowed)
    ensures Eval(ConditionFor(rule, prefix).0, row, env) == if OutOfDomain(row, rule.column, rule.allowed) then True else False
  {
    var names := ParamNames(prefix, |rule.allowed|);
    var present := Both(NotNull(rule.column), NotEmpty(rule.column));
    assert ConditionFor(rule, prefix).0 == Both(present, NotIn(rule.column, names));
    var v := Column(row, rule.column);
    assert Eval(present, row, env) == if v != Null && v.s != "" then True else False;
    NotInMeaning(rule.column, prefix, rule.allowed, row, env);
  }

  lemma NotInMeaning(column: string, prefix: string, allowed: seq<string>, row: Row, env: Params)
    requires Carries(env, prefix, allowed)
    ensures var v := Column(row, column);
      v != Null ==> Eval(NotIn(column, ParamNames(prefix, |allowed|)), row, env) == if v.s in allowed then False else True
  {
    var names := ParamNames(prefix, |allowed|);
    var v := Column(row, column);
    if v != Null && v.s in allowed {
      var j :| 0 <= j < |allowed| && allowed[j] == v.s;
      assert names[j] == ParamName(prefix, j);
    }
  }

  lemma DomainBound(rule: Rule, prefix: string, env: Params)
    requires rule.ruleClass.Domain? && Carries(env, prefix, rule.allowed)
    ensures Bound(ConditionFor(rule, prefix).0, env)
  {
    var names := ParamNames(prefix, |rule.allowed|);
    var c := ConditionFor(rule, prefix).0;
    var present := Both(NotNull(rule.column), NotEmpty(rule.column));
    assert c == Both(present, NotIn(rule.column, names));
    assert BindNames(present) == {};
    forall n | n in names ensures n in env {
      var j :| 0 <= j < |names| && names[j] == n;
      assert names[j] == ParamName(prefix, j);
    }
  }

  lemma OwnCarries(db: Db, rule: Rule)
    requires DbOk(db) && rule.ruleClass.Domain?
    ensures Carries(OwnEnv(db, rule), OWN_PREFIX, rule.allowed)
    ensures Bound(OwnCond(rule), OwnEnv(db, rule))
  {
    var own := ConditionFor(rule, OWN_PREFIX).1;
    OwnParams(rule, OWN_PREFIX);
    CarriesWindow(db, own, OWN_PREFIX, 0, rule.allowed);
    DomainBound(rule, OWN_PREFIX, OwnEnv(db, rule));
  }

  /** Adding the window parameters disturbs no allowed value. */
  lemma CarriesWindow(db: Db, own: Params, prefix: string, i: nat, allowed: seq<string>)
    requires DbOk(db) && (prefix == OWN_PREFIX || prefix == BatchPrefix(i)) && Carries(own, prefix, allowed)
    ensures Carries(own + db.windowParams, prefix, allowed)
  {
    forall j | 0 <= j < |allowed|
      ensures ParamName(prefix, j) in own + db.windowParams && (own + db.windowParams)[ParamName(prefix, j)] == allowed[j]
    {
      NotWindowName(i, j);
    }
  }

  lemma BatchCarries(db: Db, chunk: seq<Rule>, i: nat)
    requires DbOk(db) && i < |chunk| && chunk[i].ruleClass.Domain?
    ensures Carries(BatchEnv(db, chunk), BatchPrefix(i), chunk[i].allowed)
    ensures Bound(BatchCond(chunk, i), BatchEnv(db, chunk))
  {
    MergedAt(chunk, |chunk|);
    CarriesWindow(db, Merged(chunk, |chunk|), BatchPrefix(i), i, chunk[i].allowed);
    DomainBound(chunk[i], BatchPrefix(i), BatchEnv(db, chunk));
  }

  /** The window clause reads its own two parameters in every statement. */
  lemma WindowMeaning(db: Db, params: Params, row: Row)
    requires DbOk(db)
    ensures Eval(db.window, row, params + db.windowParams) == Eval(db.window, row, db.windowParams)
  {
    forall n | n in BindNames(db.window)
      ensures n in params + db.windowParams && (params + db.windowParams)[n] == db.windowParams[n] { }
    assert Restrict(params + db.windowParams, BindNames(db.window)) == Restrict(db.windowParams, BindNames(db.window));
    EvalDependsOnNames(db.window, row, params + db.windowParams, db.windowParams);
  }

  /** A rule means the same under the merged parameters as under its own. */
  lemma SameMeaning(db: Db, chunk: seq<Rule>, i: nat, row: Row)
    requires DbOk(db) && i < |chunk| && Bound(OwnCond(chunk[i]), OwnEnv(db, chunk[i]))
    ensures Eval(BatchCond(chunk, i), row, BatchEnv(db, chunk)) == Eval(OwnCond(chunk[i]), row, OwnEnv(db, chunk[i]))
  {
    var rule := chunk[i];
    if rule.ruleClass.Domain? {
      OwnCarries(db, rule);
      BatchCarries(db, chunk, i);
      DomainMeaning(rule, OWN_PREFIX, row, OwnEnv(db, rule));
      DomainMeaning(rule, BatchPrefix(i), row, BatchEnv(db, chunk));
    } else {
      var names := BindNames(rule.expr);
      assert OwnEnv(db, rule) == db.windowParams;
      forall n | n in names ensures n in BatchEnv(db, chunk) && BatchEnv(db, chunk)[n] == db.windowParams[n] { }
      assert Restrict(BatchEnv(db, chunk), names) == Restrict(OwnEnv(db, rule), names);
      EvalDependsOnNames(rule.expr, row, BatchEnv(db, chunk), OwnEnv(db, rule));
    }
  }

  /** The heart of batching: each SUM(CASE ...) of the single pass is the count of
      the rule's own statement. */
  lemma BatchCountIsOwnCount(db: Db, chunk: seq<Rule>, i: nat)
    requires DbOk(db) && i < |chunk| && Bound(OwnCond(chunk[i]), OwnEnv(db, chunk[i]))
    ensures OrZero(SumCase(Where(db.rows, db.window, BatchEnv(db, chunk)), BatchCond(chunk, i), BatchEnv(db, chunk)))
         == CountWhere(db.rows, Both(db.window, OwnCond(chunk[i])), OwnEnv(db, chunk[i]))
  {
    SumIsCount(db.rows, db.window, BatchCond(chunk, i), BatchEnv(db, chunk));
    var c, env := Both(db.window, BatchCond(chunk, i)), BatchEnv(db, chunk);
    var c', env' := Both(db.window, OwnCond(chunk[i])), OwnEnv(db, chunk[i]);
    forall row ensures Eval(c, row, env) == Eval(c', row, env') {
      SameMeaning(db, chunk, i, row);
      WindowMeaning(db, Merged(chunk, |chunk|), row);
      WindowMeaning(db, ConditionFor(chunk[i], OWN_PREFIX).1, row);
    }
    WhereDependsOnNames(db.rows, c, env, c', env');
  }

  predicate OwnBound(db: Db, chunk: seq<Rule>) {
    forall i :: 0 <= i < |chunk| ==> Bound(OwnCond(chunk[i]), OwnEnv(db, chunk[i]))
  }

  lemma OwnBoundMeansBatchBound(db: Db, chunk: seq<Rule>)
    requires DbOk(db) && OwnBound(db, chunk)
    ensures BatchBound(db, chunk)
  {
    forall i | 0 <= i < |chunk| ensures Bound(BatchCond(chunk, i), BatchEnv(db, chunk)) {
      if chunk[i].ruleClass.Domain? {
        BatchCarries(db, chunk, i);
      } else {
        assert Bound(OwnCond(chunk[i]), OwnEnv(db, chunk[i])) && OwnEnv(db, chunk[i]) == db.windowParams;
      }
    }
  }

  /** Server faults in none of the counting statements of a chunk. */
  predicate CountsServed(db: Db, chunk: seq<Rule>) {
    && db.faults(BatchQuery(Ids(chunk))).None?
    && forall i :: 0 <= i < |chunk| ==> db.faults(CountQuery(chunk[i].id)).None?
  }

  /** What the batch counts for its i-th rule. */
  function BatchCount(db: Db, chunk: seq<Rule>, i: nat): int
    requires i < |chunk|
  {
    OrZero(SumCase(Where(db.rows, db.window, BatchEnv(db, chunk)), BatchCond(chunk, i), BatchEnv(db, chunk)))
  }

  /** What a rule's count statement counts. */
  function OwnCount(db: Db, rule: Rule): nat { CountWhere(db.rows, Both(db.window, OwnCond(rule)), OwnEnv(db, rule)) }

  lemma BatchedAt(db: Db, kept: Statements, chunk: seq<Rule>, i: nat, cfg: Config)
    requires Keeps(kept, chunk) && i < |chunk| && RunBatch(db, chunk).Ok?
    ensures Batched(db, kept, chunk, cfg)[i] == FromCount(db, kept[chunk[i].id], chunk[i], BatchCount(db, chunk, i), cfg)
  {
    hide FromCount, Alias, SumCase, Where, BatchCond, BatchEnv, Bound;
    AliasAt(db, chunk, |chunk|, i);
  }

  /** The i-th rule of a counted batch is answered alike by the statement kept under
      its id: that statement is bound, and counts as many rows, or both count some
      and the details cannot be fetched. */
  predicate SameAnswer(db: Db, statement: Rule, chunk: seq<Rule>, i: nat, cfg: Config)
    requires i < |chunk|
  {
    var batch, own := BatchCount(db, chunk, i), OwnCount(db, statement);
    && Bound(OwnCond(statement), OwnEnv(db, statement))
    && (batch == own || (batch > 0 && own > 0 && RunDetail(db, statement, cfg.cap).Err?))
  }

  lemma AnswersExactly(db: Db, statement: Rule, chunk: seq<Rule>, i: nat, cfg: Config)
    requires i < |chunk| && db.faults(CountQuery(statement.id)).None?
    ensures FromCount(db, statement, chunk[i], BatchCount(db, chunk, i), cfg) == Individual(db, statement, chunk[i], cfg)
        <==> SameAnswer(db, statement, chunk, i, cfg)
  {
    hide BatchCount, CountWhere, OwnCond, OwnEnv, Where, Bound;
    if !Bound(OwnCond(statement), OwnEnv(db, statement)) {
      assert Individual(db, statement, chunk[i], cfg).error == Some(Unbound(CountQuery(statement.id)));
    }
  }

  /** Exactly when the two paths agree on a chunk whose counts are served, whatever
      ids its rules share and however detail statements fail. */
  lemma BatchDiffersExactly(db: Db, kept: Statements, chunk: seq<Rule>, cfg: Config)
    requires CountsServed(db, chunk) && Keeps(kept, chunk)
    ensures Batched(db, kept, chunk, cfg) == Individually(db, kept, chunk, cfg) <==>
              (BatchBound(db, chunk) ==> forall i :: 0 <= i < |chunk| ==> SameAnswer(db, kept[chunk[i].id], chunk, i, cfg))
  {
    hide FromCount, Individual, SameAnswer, BatchCount, BatchRow, Bound, BatchCond, BatchEnv;
    if BatchBound(db, chunk) {
      forall i | 0 <= i < |chunk|
        ensures Batched(db, kept, chunk, cfg)[i] == Individually(db, kept, chunk, cfg)[i] <==> SameAnswer(db, kept[chunk[i].id], chunk, i, cfg)
      {
        BatchedAt(db, kept, chunk, i, cfg);
        AnswersExactly(db, kept[chunk[i].id], chunk, i, cfg);
      }
    }
  }

  /** When every rule's own statement is the one kept, as with distinct ids, only the
      bind names decide: no authored expression may have one that only the merged
      parameters supply. */
  lemma OwnNamesDecide(db: Db, kept: Statements, chunk: seq<Rule>, cfg: Config)
    requires DbOk(db) && CountsServed(db, chunk) && KeepsOwn(kept, chunk)
    ensures Batched(db, kept, chunk, cfg) == Individually(db, kept, chunk, cfg) <==> (BatchBound(db, chunk) ==> OwnBound(db, chunk))
  {
    hide Batched, Individually, BatchCount, OwnCount, Bound, DbOk, BatchBound;
    BatchDiffersExactly(db, kept, chunk, cfg);
    forall i | 0 <= i < |chunk|
      ensures SameAnswer(db, kept[chunk[i].id], chunk, i, cfg) <==> Bound(OwnCond(chunk[i]), OwnEnv(db, chunk[i]))
    {
      if Bound(OwnCond(chunk[i]), OwnEnv(db, chunk[i])) { CountsAlike(db, chunk, i); }
    }
  }

  lemma CountsAlike(db: Db, chunk: seq<Rule>, i: nat)
    requires DbOk(db) && i < |chunk| && Bound(OwnCond(chunk[i]), OwnEnv(db, chunk[i]))
    ensures BatchCount(db, chunk, i) == OwnCount(db, chunk[i])
  {
    hide Where, SumCase, OwnCond, OwnEnv, BatchCond, BatchEnv, DbOk, Bound;
    BatchCountIsOwnCount(db, chunk, i);
  }

  /** So with its own statements and bound expressions, the batch runs without its
      fallback and returns the list of the one-by-one path, outcome for outcome. */
  lemma BatchIsIndividual(db: Db, kept: Statements, chunk: seq<Rule>, cfg: Config)
    requires DbOk(db) && CountsServed(db, chunk) && KeepsOwn(kept, chunk) && OwnBound(db, chunk)
    ensures RunBatch(db, chunk).Ok?
    ensures Batched(db, kept, chunk, cfg) == Individually(db, kept, chunk, cfg)
  {
    hide Batched, Individually, DbOk, OwnBound, BatchBound, BatchRow;
    OwnNamesDecide(db, kept, chunk, cfg);
    OwnBoundMeansBatchBound(db, chunk);
  }

  // ----- What an outcome says ------------------------------------------------

  /** An active rule that finds more than the threshold's share of the scanned rows. */
  predicate OverThreshold(rule: Rule, count: int, cfg: Config) {
    rule.status == Active && cfg.rowsScanned > 0 && count as real > cfg.threshold * cfg.rowsScanned as real
  }

  /** What the outcome of a served rule reports for its count. */
  ghost predicate Reports(o: RuleOutcome, rule: Rule, count: int, cfg: Config) {
    && o.rule == rule && o.error.None? && o.note == "" && o.count == Some(count)
    && (o.percentage.None? <==> cfg.rowsScanned == 0)
    && (o.percentage.Some? ==> o.percentage.value * cfg.rowsScanned as real == count as real)
    && (o.needsCalibration <==> OverThreshold(rule, count, cfg))
    && (o.runStatus == RanCalibration <==> rule.status == Calibration || OverThreshold(rule, count, cfg))
    && (o.runStatus == RanActive <==> rule.status != Calibration && !OverThreshold(rule, count, cfg))
    && |o.detailRows| <= cfg.cap
  }

  /** And that of a rule whose statement failed. */
  ghost predicate ReportsError(o: RuleOutcome, rule: Rule, error: SqlError) {
    && o.rule == rule && o.error == Some(error) && o.runStatus == RanError && o.count.None? && o.percentage.None?
    && o.detailRows == [] && !o.truncated && !o.needsCalibration && o.note == ""
  }

  lemma ShareOver(count: int, rows: nat, threshold: real)
    requires rows > 0
    ensures (count as real / rows as real) * rows as real == count as real
    ensures count as real / rows as real > threshold <==> count as real > threshold * rows as real
  {
    var share, n := count as real / rows as real, rows as real;
    assert share * n == count as real;
    if share > threshold { TimesMore(threshold, share, n); } else { TimesMore(share, threshold, n); }
  }

  lemma TimesMore(a: real, b: real, n: real)
    requires n > 0.0 && a <= b
    ensures a * n <= b * n && (a < b ==> a * n < b * n)
  {
    assert (b - a) * n >= 0.0;
    assert a < b ==> (b - a) * n > 0.0;
  }

  lemma ClassifyReports(rule: Rule, count: int, detail: seq<Row>, cfg: Config)
    ensures Reports(Classify(rule, count, detail, cfg), rule, count, cfg)
  {
    if cfg.rowsScanned > 0 { ShareOver(count, cfg.rowsScanned, cfg.threshold); }
  }

  /** A rule's own execution: an error if its count fails, or its details when there
      are findings; else the report of its count. */
  lemma IndividualReports(db: Db, statement: Rule, rule: Rule, cfg: Config)
    ensures var o := Individual(db, statement, rule, cfg); var own := OwnCount(db, statement);
      if !Bound(OwnCond(statement), OwnEnv(db, statement)) then ReportsError(o, rule, Unbound(CountQuery(statement.id)))
      else if db.faults(CountQuery(statement.id)).Some? then ReportsError(o, rule, db.faults(CountQuery(statement.id)).value)
      else if own > 0 && db.faults(DetailQuery(statement.id)).Some? then ReportsError(o, rule, db.faults(DetailQuery(statement.id)).value)
      else Reports(o, rule, own, cfg)
  {
    hide Classify, Reports, OwnCond, OwnEnv, CountWhere, Where, Bound;
    var detail := Limit(Where(db.rows, Both(db.window, OwnCond(statement)), OwnEnv(db, statement)), cfg.cap + 1);
    ClassifyReports(rule, OwnCount(db, statement), detail, cfg);
    ClassifyReports(rule, OwnCount(db, statement), [], cfg);
  }

  /** A batch: one error for every rule when its statement times out, the rules' own
      executions when it fails otherwise, else the report of each rule's own sum. */
  lemma BatchReports(db: Db, kept: Statements, chunk: seq<Rule>, i: nat, cfg: Config)
    requires Keeps(kept, chunk) && i < |chunk|
    ensures var o := Batched(db, kept, chunk, cfg)[i]; var statement := kept[chunk[i].id];
      var fault, count := db.faults(BatchQuery(Ids(chunk))), BatchCount(db, chunk, i);
      if !BatchBound(db, chunk) || (fault.Some? && !fault.value.TimedOut?) then o == Individual(db, statement, chunk[i], cfg)
      else if fault.Some? then ReportsError(o, chunk[i], TimedOut)
      else if count > 0 && !Bound(OwnCond(statement), OwnEnv(db, statement)) then ReportsError(o, chunk[i], Unbound(DetailQuery(statement.id)))
      else if count > 0 && db.faults(DetailQuery(statement.id)).Some? then ReportsError(o, chunk[i], db.faults(DetailQuery(statement.id)).value)
      else Reports(o, chunk[i], count, cfg)
  {
    hide Classify, Reports, OwnCond, OwnEnv, CountWhere, Where, Bound, BatchBound, BatchCount, BatchRow, Individual;
    var statement, count := kept[chunk[i].id], BatchCount(db, chunk, i);
    if RunBatch(db, chunk).Ok? { BatchedAt(db, kept, chunk, i, cfg); }
    var detail := Limit(Where(db.rows, Both(db.window, OwnCond(statement)), OwnEnv(db, statement)), cfg.cap + 1);
    ClassifyReports(chunk[i], count, detail, cfg);
    ClassifyReports(chunk[i], count, [], cfg);
  }

  /** The listing of a rule is the first `cap` findings, and it says it was cut
      exactly when there are more. */
  lemma TruncatedExactly(db: Db, statement: Rule, rule: Rule, cfg: Config)
    requires Bound(OwnCond(statement), OwnEnv(db, statement))
    requires db.faults(CountQuery(statement.id)).None? && db.faults(DetailQuery(statement.id)).None?
    ensures var found := Where(db.rows, Both(db.window, OwnCond(statement)), OwnEnv(db, statement));
            var o := Individual(db, statement, rule, cfg);
      && o.count == Some(|found|)
      && (o.truncated <==> |found| > cfg.cap)
      && o.detailRows <= found && |o.detailRows| == if |found| > cfg.cap then cfg.cap else |found|
  {
  }

  /** The rows a domain rule reports: in the window, and out of its domain. */
  function OutOfDomainRows(rows: seq<Row>, window: Cond, windowParams: Params, column: string, allowed: seq<string>): seq<Row> {
    if rows == [] then []
    else
      var rest := OutOfDomainRows(rows[1..], window, windowParams, column, allowed);
      if Eval(window, rows[0], windowParams) == True && OutOfDomain(rows[0], column, allowed) then [rows[0]] + rest else rest
  }

  lemma {:induction false} DomainFindings(db: Db, rows: seq<Row>, rule: Rule)
    requires DbOk(db) && rule.ruleClass.Domain?
    ensures Where(rows, Both(db.window, OwnCond(rule)), OwnEnv(db, rule))
         == OutOfDomainRows(rows, db.window, db.windowParams, rule.column, rule.allowed)
  {
    if rows != [] {
      DomainFindings(db, rows[1..], rule);
      OwnCarries(db, rule);
      DomainMeaning(rule, OWN_PREFIX, rows[0], OwnEnv(db, rule));
      WindowMeaning(db, ConditionFor(rule, OWN_PREFIX).1, rows[0]);
    }
  }
}
