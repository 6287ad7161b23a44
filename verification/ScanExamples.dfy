/** Concrete runs in which the documented promises of a scan fail: batches that
    disagree with their rules' own statements, and reports with an outcome too many,
    an outcome too few, another rule's outcome, or none at all. */
module ScanExamples {
  import opened Common
  import opened ScanModel
  import opened ScanCompiler
  import opened ScanEngine
  import opened ScanRun
  import opened Decimal

  // ----- Batch and one by one ------------------------------------------------

  const ANY_DAY := Raw(WINDOW_NAMES, (row: Row, env: Params) => True)
  const JANUARY: Params := map[FROM_DATE := "2026-01-01", TO_DATE := "2026-01-31"]

  /** A database without faults whose window takes every row. */
  function Everything(rows: seq<Row>): Db { Db(rows, ANY_DAY, JANUARY, q => None) }

  function Authored(id: string, names: set<string>, truth: Truth): Rule {
    Rule(id, Format, Active, [], Unblocked, "", [], Raw(names, (row, env) => truth))
  }

  const COUNTRY := Rule("COUNTRY", Domain, Active, [], Unblocked, "country", ["US"], Raw({}, (row: Row, env: Params) => True))
  const ODD := Authored("ODD", {"r0_allowed_0"}, False)

  lemma Captured(rows: seq<Row>)
    ensures BatchBound(Everything(rows), [COUNTRY, ODD]) && !Bound(OwnCond(ODD), OwnEnv(Everything(rows), ODD))
  {
    var db, chunk := Everything(rows), [COUNTRY, ODD];
    assert ParamName(BatchPrefix(0), 0) == "r0_allowed_0" by {
      assert Numeral(0) == "0";
    }
    hide ParamName, BatchPrefix, Merged, BatchEnv;
    BatchCarries(db, chunk, 0);
    assert ParamName(BatchPrefix(0), 0) in BatchEnv(db, chunk);
    assert Bound(BatchCond(chunk, 1), BatchEnv(db, chunk));
  }

  /** A capture: on its own the second rule has an unbound name; in a batch the
      first rule's allowed value happens to supply it. */
  lemma CaptureExample(rows: seq<Row>, cfg: Config)
    ensures var kept := map["COUNTRY" := COUNTRY, "ODD" := ODD];
            Batched(Everything(rows), kept, [COUNTRY, ODD], cfg) != Individually(Everything(rows), kept, [COUNTRY, ODD], cfg)
  {
    hide Batched, Individually, BatchBound, Bound, OwnCond, OwnEnv;
    var kept := map["COUNTRY" := COUNTRY, "ODD" := ODD];
    Captured(rows);
    assert [COUNTRY, ODD][1] == ODD;
    OwnNamesDecide(Everything(rows), kept, [COUNTRY, ODD], cfg);
  }

  lemma OneRow(row: Row, c: Cond, env: Params)
    ensures Where([row], c, env) == if Eval(c, row, env) == True then [row] else []
    ensures SumCase([row], c, env) == Some(if Eval(c, row, env) == True then 1 else 0)
  {
    hide Eval;
    assert [row][0] == row && [row][1..] == [];
    assert Where([], c, env) == [] && SumOnes([], c, env) == 0;
  }

  /** A shared id: the batch counts each rule by its own condition, one by one both
      are counted by the statement kept last. */
  lemma SharedIdExample(row: Row, cfg: Config)
    ensures var never, always := Authored("SAME", {}, False), Authored("SAME", {}, True);
            var kept := map["SAME" := always];
            var batched := Batched(Everything([row]), kept, [never, always], cfg);
            var single := Individually(Everything([row]), kept, [never, always], cfg);
            batched[0].count == Some(0) && single[0].count == Some(1)
  {
    hide Where, SumCase, SumOnes, BatchRow;
    var never, always := Authored("SAME", {}, False), Authored("SAME", {}, True);
    var kept := map["SAME" := always];
    var db, chunk := Everything([row]), [never, always];
    var own, both := OwnCond(always), BatchEnv(db, chunk);
    OneRow(row, db.window, both);
    OneRow(row, BatchCond(chunk, 0), both);
    OneRow(row, Both(db.window, own), OwnEnv(db, always));
    assert Eval(Both(db.window, own), row, OwnEnv(db, always)) == And(Eval(db.window, row, OwnEnv(db, always)), Eval(own, row, OwnEnv(db, always)));
    BatchedAt(db, kept, chunk, 0, cfg);
    assert BatchCount(db, chunk, 0) == 0 && OwnCount(db, always) == 1;
    assert RunDetail(db, always, cfg.cap).Ok?;
  }

  // ----- Whole runs ----------------------------------------------------------

  /** A rule that any table and the gate accept. */
  function Bare(id: string, ruleClass: RuleClass, column: string): Rule {
    Rule(id, ruleClass, Active, [], Unblocked, column, [], Raw({}, (row, env) => True))
  }

  /** The rule on column "bad" has an authoring mistake in its condition. */
  function Mistakes(): Rule -> Authoring { (r: Rule) => if r.column == "bad" then BadCondition("expr") else Fine }

  lemma Filtered(a: Rule, b: Rule, p: Rule -> bool)
    ensures Filter([a], p) == if p(a) then [a] else []
    ensures Filter([a, b], p) == (if p(a) then [a] else []) + if p(b) then [b] else []
  {
    FilterSnoc([], a, p);
    FilterSnoc([a], b, p);
    assert [] + [a] == [a] && [a] + [b] == [a, b];
  }

  lemma Gating(a: Rule, b: Rule)
    requires a.requiredColumns == b.requiredColumns == [] && a.status == b.status == Active && !a.ruleClass.Domain? && !b.ruleClass.Domain?
    ensures Compilable([a, b], {}) == [a, b] && Gated([a, b], {}) == []
  {
    assert [a, b][..1] == [a] && [a][..0] == [];
    assert DormantReason(a, {}).None? && DormantReason(b, {}).None?;
    assert Compilable([], {}) == [] && Gated([], {}) == [];
    assert Compilable([a], {}) == [] + [a] == [a] && Gated([a], {}) == [] + [] == [];
  }

  lemma Keeping(a: Rule, b: Rule)
    ensures Kept([a], Mistakes()) == if CompileFailure(a, Mistakes()).None? then map[a.id := a] else map[]
    ensures Kept([a, b], Mistakes()) == if CompileFailure(b, Mistakes()).None? then Kept([a], Mistakes())[b.id := b] else Kept([a], Mistakes())
    ensures CompileErrors([a, b], Mistakes()) == CompileErrors([a], Mistakes()) + CompileErrors([b], Mistakes())
    ensures |CompileErrors([a], Mistakes())| == if CompileFailure(a, Mistakes()).None? then 0 else 1
    ensures |CompileErrors([b], Mistakes())| == if CompileFailure(b, Mistakes()).None? then 0 else 1
  {
    hide CompileFailure;
    assert [a, b][..1] == [a] && [a][..0] == [] && [b][..0] == [];
    assert Kept([], Mistakes()) == map[] && CompileErrors([], Mistakes()) == [];
  }

  /** Two rules that pass the gate, both with a statement. */
  lemma TwoRunnable(a: Rule, b: Rule)
    requires a.requiredColumns == b.requiredColumns == [] && a.status == b.status == Active && !a.ruleClass.Domain? && !b.ruleClass.Domain?
    requires CompileFailure(b, Mistakes()).None? && (a.id == b.id || CompileFailure(a, Mistakes()).None?)
    ensures Compilable([a, b], {}) == [a, b] && Runnable([a, b], Mistakes()) == [a, b]
    ensures Shared([a, b], Mistakes()) == if CompileFailure(a, Mistakes()).None? then [] else [a]
  {
    hide Filter, CompileFailure, Kept, DormantReason, Compilable, Gated;
    Gating(a, b);
    Keeping(a, b);
    var ids := Kept([a, b], Mistakes()).Keys;
    Filtered(a, b, IdIn(ids));
    Filtered(a, b, FailsToCompile(Mistakes()));
    assert [a] + [b] == [a, b] && [a] + [] == [a];
    assert Filter([], IdIn(ids)) == [] by { NoRules(IdIn(ids)); FlattenNone(); }
  }

  lemma TwoSingles(a: Rule, b: Rule)
    requires !Batchable(a.ruleClass) && !Batchable(b.ruleClass)
    ensures WorkItems([a, b]) == [[a], [b]]
    ensures Flatten([[a], [b]]) == [a, b] && Flatten([[a]]) == [a] && Flatten([[b]]) == [b] && Flatten([]) == []
  {
    hide Filter;
    Filtered(a, b, InBatches());
    Filtered(a, b, Alone());
    FlattenOne([a]);
    FlattenOne([b]);
    FlattenConcat([[a]], [[b]]);
    assert [[a]] + [[b]] == [[a], [b]] && [a] + [b] == [a, b];
    assert Singles([a, b]) == [[a], [b]] && Chunks([]) == [];
  }

  /** Two rules that are work items of their own: whose outcomes an interrupt leaves. */
  lemma TwoOutcomes(db: Db, a: Rule, b: Rule, cfg: Config, interrupt: Interrupt)
    requires !Batchable(a.ruleClass) && !Batchable(b.ruleClass)
    requires a.requiredColumns == b.requiredColumns == [] && a.status == b.status == Active
    requires CompileFailure(b, Mistakes()).None? && (a.id == b.id || CompileFailure(a, Mistakes()).None?)
    ensures Ready(Compilable([a, b], {}), Mistakes())
    ensures var result := RunOutcomes(db, [a, b], {}, Mistakes(), cfg, interrupt);
      var shared := if CompileFailure(a, Mistakes()).None? then [] else [a];
      && result.Report?
      && multiset(RulesOf(result.outcomes)) + multiset(Lost([[a], [b]], interrupt))
         == multiset([a, b]) + multiset(shared) + multiset(Twice([[a], [b]], interrupt))
  {
    hide Lost, Twice, Compilable, Runnable, Kept, WorkItems, CompileErrors, Gated, Reach, CompileFailure, Shared, Ready, RunOutcomes, RulesOf;
    TwoRunnable(a, b);
    TwoSingles(a, b);
    OutcomeLaw(db, [a, b], {}, Mistakes(), cfg, interrupt);
    SinglesBuild(db, [a, b], cfg, interrupt);
  }

  /** Work items of one rule each are never compiled as a batch. */
  lemma SinglesBuild(db: Db, rules: seq<Rule>, cfg: Config, interrupt: Interrupt)
    requires Ready(Compilable(rules, {}), Mistakes())
    requires forall item :: item in WorkItems(Runnable(Compilable(rules, {}), Mistakes())) ==> |item| == 1
    ensures RunOutcomes(db, rules, {}, Mistakes(), cfg, interrupt).Report?
  {
    hide Compilable, Kept, WorkItems, Runnable, AllOutcomes, Rest, Gated, CompileErrors, Reach, Workable;
  }

  /** After Ctrl+C during the second of two rules that share an id, only the first is
      recorded, and the handler finds nothing to report. */
  lemma CutAtSecond(a: Rule, b: Rule)
    requires a.id == b.id == "SAME" && !Batchable(a.ruleClass) && !Batchable(b.ruleClass)
    ensures Twice([[a], [b]], During(1)) == [] && Lost([[a], [b]], During(1)) == [b]
  {
    hide Filter;
    TwoSingles(a, b);
    var items := [[a], [b]];
    assert items[..1] == [[a]] && items[1..] == [[b]];
    IdSetOne(a);
    Filtered(a, b, IdNotIn({"SAME"}));
    Filtered(b, a, IdIn({"SAME"}));
  }

  /** Ctrl+C during the second of two rules that share an id: the handler takes the
      second for processed, and it is reported nowhere. */
  lemma LostExample(db: Db, cfg: Config)
    ensures var a, b := Bare("SAME", Custom, "first"), Bare("SAME", Custom, "second");
      && Ready(Compilable([a, b], {}), Mistakes())
      && RunOutcomes(db, [a, b], {}, Mistakes(), cfg, During(1)).Report?
      && multiset(RulesOf(RunOutcomes(db, [a, b], {}, Mistakes(), cfg, During(1)).outcomes)) == multiset{a}
  {
    hide Lost, Twice, RunOutcomes, RulesOf, Compilable, Ready;
    var a, b := Bare("SAME", Custom, "first"), Bare("SAME", Custom, "second");
    TwoOutcomes(db, a, b, cfg, During(1));
    CutAtSecond(a, b);
    TakeAway(multiset(RulesOf(RunOutcomes(db, [a, b], {}, Mistakes(), cfg, During(1)).outcomes)), multiset{a}, multiset([b]));
  }

  lemma TakeAway<T>(x: multiset<T>, y: multiset<T>, z: multiset<T>)
    requires x + z == y + z
    ensures x == y
  {
    assert x == (x + z) - z && y == (y + z) - z;
  }

  /** The same Ctrl+C when the first rule fails to compile: as many outcomes as rules
      and the right ids, but both are the first rule's, its error and a result by the
      second rule's statement, and the second rule has none. */
  lemma MixedUpExample(db: Db, cfg: Config)
    ensures var a, b := Bare("SAME", Other("odd"), "first"), Bare("SAME", Custom, "second");
      && Ready(Compilable([a, b], {}), Mistakes())
      && RunOutcomes(db, [a, b], {}, Mistakes(), cfg, During(1)).Report?
      && multiset(RulesOf(RunOutcomes(db, [a, b], {}, Mistakes(), cfg, During(1)).outcomes)) == multiset{a, a}
      && multiset(RulesOf(RunOutcomes(db, [a, b], {}, Mistakes(), cfg, During(1)).outcomes)) != multiset{a, b}
  {
    hide Lost, Twice, RunOutcomes, RulesOf, Compilable, Ready;
    var a, b := Bare("SAME", Other("odd"), "first"), Bare("SAME", Custom, "second");
    TwoOutcomes(db, a, b, cfg, During(1));
    CutAtSecond(a, b);
    TakeAway(multiset(RulesOf(RunOutcomes(db, [a, b], {}, Mistakes(), cfg, During(1)).outcomes)), multiset{a, a}, multiset([b]));
    assert a != b && multiset{a, a}[a] == 2 && multiset{a, b}[a] == 1;
  }

  lemma IdSetOne(rule: Rule)
    ensures IdSet([rule]) == {rule.id}
  {
    assert [rule][0] == rule;
  }

  lemma UnmarkedSecond(a: Rule, b: Rule)
    requires a.id == "FIRST" && b.id == "SECOND" && !Batchable(a.ruleClass) && !Batchable(b.ruleClass)
    ensures Twice([[a], [b]], AfterRecording(1, 0)) == [b] && Lost([[a], [b]], AfterRecording(1, 0)) == []
  {
    hide Filter;
    TwoSingles(a, b);
    var items := [[a], [b]];
    assert items[..1] == [[a]] && items[..2] == items && items[2..] == [] && [b][..0] == [] && [a] + [] == [a];
    IdSetOne(a);
    Filtered(a, b, IdNotIn({"FIRST"}));
    NoRules(IdIn({"FIRST"}));
  }

  /** Ctrl+C after the second rule's outcome was recorded and before its id was
      marked: three outcomes for two rules. */
  lemma TwiceExample(db: Db, cfg: Config)
    ensures var a, b := Bare("FIRST", Custom, "first"), Bare("SECOND", Custom, "second");
      && Ready(Compilable([a, b], {}), Mistakes())
      && RunOutcomes(db, [a, b], {}, Mistakes(), cfg, AfterRecording(1, 0)).Report?
      && multiset(RulesOf(RunOutcomes(db, [a, b], {}, Mistakes(), cfg, AfterRecording(1, 0)).outcomes)) == multiset{a, b, b}
  {
    hide Lost, Twice, RunOutcomes, RulesOf, Compilable, Ready;
    var a, b := Bare("FIRST", Custom, "first"), Bare("SECOND", Custom, "second");
    TwoOutcomes(db, a, b, cfg, AfterRecording(1, 0));
    UnmarkedSecond(a, b);
    TakeAway(multiset(RulesOf(RunOutcomes(db, [a, b], {}, Mistakes(), cfg, AfterRecording(1, 0)).outcomes)), multiset{a, b, b}, multiset{});
  }

  /** A rule of an unknown class shares its id with one that compiles: it is reported
      as an error and then executed by the other's statement. */
  lemma SharedExample(db: Db, cfg: Config)
    ensures var a, b := Bare("SAME", Other("odd"), "first"), Bare("SAME", Custom, "second");
      && Ready(Compilable([a, b], {}), Mistakes())
      && RunOutcomes(db, [a, b], {}, Mistakes(), cfg, Never).Report?
      && multiset(RulesOf(RunOutcomes(db, [a, b], {}, Mistakes(), cfg, Never).outcomes)) == multiset{a, a, b}
  {
    hide RunOutcomes, RulesOf, Compilable, Ready, Lost, Twice;
    var a, b := Bare("SAME", Other("odd"), "first"), Bare("SAME", Custom, "second");
    TwoOutcomes(db, a, b, cfg, Never);
    NothingInterrupted([[a], [b]]);
    TakeAway(multiset(RulesOf(RunOutcomes(db, [a, b], {}, Mistakes(), cfg, Never).outcomes)), multiset{a, a, b}, multiset{});
  }

  lemma OneBatch(a: Rule, b: Rule)
    requires Batchable(a.ruleClass) && Batchable(b.ruleClass)
    ensures WorkItems([a, b]) == [[a, b]]
  {
    hide Filter;
    Filtered(a, b, InBatches());
    Filtered(a, b, Alone());
    assert [a] + [b] == [a, b];
    assert Singles([]) == [] && Chunks([a, b]) == [[a, b]];
  }

  /** A batchable rule whose condition cannot be built shares its id with one that
      compiles: both enter a batch, building it raises, and there is no report. */
  lemma AbortExample(db: Db, cfg: Config)
    ensures var a, b := Bare("SAME", Format, "bad"), Bare("SAME", Format, "good");
      && Ready(Compilable([a, b], {}), Mistakes())
      && RunOutcomes(db, [a, b], {}, Mistakes(), cfg, Never) == Aborted
  {
    hide Compilable, Kept, CompileErrors, Gated, AllOutcomes, Rest, Runnable, WorkItems, Workable;
    var a, b := Bare("SAME", Format, "bad"), Bare("SAME", Format, "good");
    TwoRunnable(a, b);
    OneBatch(a, b);
    ItemsWorkable([a, b], Mistakes());
    assert !Builds([a, b], Mistakes()) by { assert [a, b][0] == a; }
    assert [[a, b]][0] == [a, b];
  }
}
