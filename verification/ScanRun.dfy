/** The whole run: gate, compile, split into work items, execute, and write a
    partial report when the user interrupts.  The law is conservation: which rules
    get one outcome, which two, and which none. */
module ScanRun {
  import opened Common
  import opened ScanModel
  import opened ScanCompiler
  import opened ScanEngine

  const CHUNK_SIZE: nat := 10

  /** When Ctrl+C arrives: never, while an item is being executed, or after its
      outcomes were recorded, with only its first `marked` rules marked as processed. */
  datatype Interrupt = Never | During(item: nat) | AfterRecording(item: nat, marked: nat)

  /** How compile_rule fares on a rule of a known class: an authoring mistake sits in
      its condition, which batching builds again, or elsewhere. */
  datatype Authoring = Fine | BadCondition(message: string) | BadDetails(message: string)

  function CompileFailure(rule: Rule, authoring: Rule -> Authoring): Option<string> {
    match rule.ruleClass
    case Other(name) => Some("Unknown rule class: '" + name + "'")
    case _ => if authoring(rule).Fine? then None else Some(authoring(rule).message)
  }

  function Filter(rules: seq<Rule>, keep: Rule -> bool): seq<Rule> {
    if rules == [] then []
    else Filter(rules[..|rules| - 1], keep) + if keep(rules[|rules| - 1]) then [rules[|rules| - 1]] else []
  }

  function Chunks(rules: seq<Rule>): seq<seq<Rule>>
    decreases |rules|
  {
    if rules == [] then []
    else if |rules| <= CHUNK_SIZE then [rules]
    else [rules[..CHUNK_SIZE]] + Chunks(rules[CHUNK_SIZE..])
  }

  function Singles(rules: seq<Rule>): seq<seq<Rule>> {
    seq(|rules|, i requires 0 <= i < |rules| => [rules[i]])
  }

  function Flatten(items: seq<seq<Rule>>): seq<Rule> {
    if items == [] then [] else Flatten(items[..|items| - 1]) + items[|items| - 1]
  }

  /** The rule each outcome is about. */
  function RulesOf(outcomes: seq<RuleOutcome>): seq<Rule> {
    seq(|outcomes|, i requires 0 <= i < |outcomes| => outcomes[i].rule)
  }

  ghost predicate Distinct(rules: seq<Rule>) {
    forall i, j :: 0 <= i < j < |rules| ==> rules[i].id != rules[j].id
  }

  // ----- Bookkeeping lemmas --------------------------------------------------

  lemma RulesOfConcat(a: seq<RuleOutcome>, b: seq<RuleOutcome>)
    ensures RulesOf(a + b) == RulesOf(a) + RulesOf(b)
  {
  }

  lemma FilterNone(keep: Rule -> bool)
    ensures Filter([], keep) == []
  {
  }

  /** Splitting a list in two keeps every rule once. */
  lemma {:induction false} FilterSplits(rules: seq<Rule>, p: Rule -> bool, q: Rule -> bool)
    requires forall r :: q(r) <==> !p(r)
    ensures multiset(rules) == multiset(Filter(rules, p)) + multiset(Filter(rules, q))
  {
    hide Filter;
    if rules == [] {
      FilterNone(p);
      FilterNone(q);
    } else {
      var front, last := rules[..|rules| - 1], rules[|rules| - 1];
      FilterSplits(front, p, q);
      assert rules == front + [last];
      FilterSnoc(front, last, p);
      FilterSnoc(front, last, q);
      assert Filter(front, p) + [] == Filter(front, p) && Filter(front, q) + [] == Filter(front, q);
    }
  }

  lemma FilterSnoc(front: seq<Rule>, last: Rule, keep: Rule -> bool)
    ensures Filter(front + [last], keep) == Filter(front, keep) + if keep(last) then [last] else []
  {
    assert (front + [last])[..|front|] == front;
  }

  lemma {:induction false} FilterSame(rules: seq<Rule>, p: Rule -> bool, q: Rule -> bool)
    requires forall r :: r in rules ==> p(r) == q(r)
    ensures Filter(rules, p) == Filter(rules, q)
  {
    if rules != [] {
      var front, last := rules[..|rules| - 1], rules[|rules| - 1];
      assert forall r :: r in front ==> r in rules;
      FilterSame(front, p, q);
      assert last in rules;
    }
  }

  lemma {:induction false} GateConserves(rules: seq<Rule>, columns: set<string>)
    ensures multiset(rules) == multiset(Compilable(rules, columns)) + multiset(RulesOf(Gated(rules, columns)))
    ensures forall r :: r in Compilable(rules, columns) ==> r in rules
  {
    hide DormantReason, RulesOf, Compilable, Gated;
    GateNone(columns);
    if rules != [] {
      var front, last := rules[..|rules| - 1], rules[|rules| - 1];
      GateConserves(front, columns);
      assert rules == front + [last];
      GateNext(rules, columns);
    }
  }

  lemma GateNone(columns: set<string>)
    ensures Compilable([], columns) == [] && RulesOf(Gated([], columns)) == []
  {
  }

  lemma GateNext(rules: seq<Rule>, columns: set<string>)
    requires rules != []
    ensures var front, last := rules[..|rules| - 1], rules[|rules| - 1];
      && if DormantReason(last, columns).None?
         then Compilable(rules, columns) == Compilable(front, columns) + [last] && Gated(rules, columns) == Gated(front, columns)
         else Compilable(rules, columns) == Compilable(front, columns)
              && RulesOf(Gated(rules, columns)) == RulesOf(Gated(front, columns)) + [last]
  {
    hide DormantReason;
    var front, last := rules[..|rules| - 1], rules[|rules| - 1];
    assert Gated(front, columns) + [] == Gated(front, columns) && Compilable(front, columns) + [] == Compilable(front, columns);
  }

  lemma {:induction false} FlattenConcat(a: seq<seq<Rule>>, b: seq<seq<Rule>>)
    ensures Flatten(a + b) == Flatten(a) + Flatten(b)
  {
    if b == [] {
      assert a + b == a;
    } else {
      var n := |b| - 1;
      FlattenConcat(a, b[..n]);
      assert (a + b)[..|a + b| - 1] == a + b[..n];
      assert Flatten(a + b) == Flatten(a + b[..n]) + b[n];
      assert Flatten(b) == Flatten(b[..n]) + b[n];
    }
  }

  lemma FlattenOne(item: seq<Rule>)
    ensures Flatten([item]) == item
  {
    assert [item][..0] == [];
  }

  /** Chunking loses and reorders nothing; all chunks but the last have ten rules, and
      the last has one to ten. */
  lemma {:induction false} ChunksFlatten(rules: seq<Rule>)
    ensures Flatten(Chunks(rules)) == rules
    ensures forall c :: c in Chunks(rules) ==> 1 <= |c| <= 10
    ensures forall i :: 0 <= i < |Chunks(rules)| - 1 ==> |Chunks(rules)[i]| == 10
    decreases |rules|
  {
    if rules != [] {
      if |rules| <= CHUNK_SIZE {
        FlattenOne(rules);
      } else {
        ChunksFlatten(rules[CHUNK_SIZE..]);
        FlattenConcat([rules[..CHUNK_SIZE]], Chunks(rules[CHUNK_SIZE..]));
        FlattenOne(rules[..CHUNK_SIZE]);
        assert rules == rules[..CHUNK_SIZE] + rules[CHUNK_SIZE..];
      }
    }
  }

  lemma {:induction false} SinglesFlatten(rules: seq<Rule>)
    ensures Flatten(Singles(rules)) == rules
    ensures forall c :: c in Singles(rules) ==> |c| == 1
  {
    if rules != [] {
      var n := |rules| - 1;
      SinglesFlatten(rules[..n]);
      assert Singles(rules)[..n] == Singles(rules[..n]);
      assert rules == rules[..n] + [rules[n]];
    }
  }

  // ----- The run -------------------------------------------------------------

  function Compiles(authoring: Rule -> Authoring): Rule -> bool { (r: Rule) => CompileFailure(r, authoring).None? }

  function FailsToCompile(authoring: Rule -> Authoring): Rule -> bool { (r: Rule) => CompileFailure(r, authoring).Some? }

  function IdIn(ids: set<string>): Rule -> bool { (r: Rule) => r.id in ids }

  function IdNotIn(ids: set<string>): Rule -> bool { (r: Rule) => r.id !in ids }

  function InBatches(): Rule -> bool { (r: Rule) => Batchable(r.ruleClass) }

  function Alone(): Rule -> bool { (r: Rule) => !Batchable(r.ruleClass) }

  function IdSet(rules: seq<Rule>): set<string> { set i | 0 <= i < |rules| :: rules[i].id }

  function CompileErrors(rules: seq<Rule>, authoring: Rule -> Authoring): seq<RuleOutcome> {
    if rules == [] then []
    else
      var failure := CompileFailure(rules[|rules| - 1], authoring);
      CompileErrors(rules[..|rules| - 1], authoring)
        + if failure.Some? then [CompileErrorOutcome(rules[|rules| - 1], failure.value)] else []
  }

  /** compiled_by_id after the compile loop: a later rule replaces an earlier one. */
  function Kept(rules: seq<Rule>, authoring: Rule -> Authoring): Statements {
    if rules == [] then map[]
    else
      var last := rules[|rules| - 1];
      var front := Kept(rules[..|rules| - 1], authoring);
      if CompileFailure(last, authoring).None? then front[last.id := last] else front
  }

  /** The rules whose id has a statement. */
  function Runnable(compilable: seq<Rule>, authoring: Rule -> Authoring): seq<Rule> {
    Filter(compilable, IdIn(Kept(compilable, authoring).Keys))
  }

  /** The work items: chunks of the batchable rules first, then singles. */
  function WorkItems(runnable: seq<Rule>): seq<seq<Rule>> {
    Chunks(Filter(runnable, InBatches())) + Singles(Filter(runnable, Alone()))
  }

  ghost predicate Workable(items: seq<seq<Rule>>, kept: Statements) {
    forall i :: 0 <= i < |items| ==> items[i] != [] && Keeps(kept, items[i])
  }

  function ItemOutcomes(db: Db, kept: Statements, item: seq<Rule>, cfg: Config): (os: seq<RuleOutcome>)
    requires item != [] && Keeps(kept, item)
    ensures RulesOf(os) == item
  {
    if |item| > 1 then Batched(db, kept, item, cfg) else [Individual(db, kept[item[0].id], item[0], cfg)]
  }

  function AllOutcomes(db: Db, kept: Statements, items: seq<seq<Rule>>, cfg: Config): seq<RuleOutcome>
    requires Workable(items, kept)
  {
    if items == [] then []
    else
      assert forall i :: 0 <= i < |items| - 1 ==> items[..|items| - 1][i] == items[i];
      AllOutcomes(db, kept, items[..|items| - 1], cfg) + ItemOutcomes(db, kept, items[|items| - 1], cfg)
  }

  const SKIPPED := "skipped: run interrupted"

  function Skipped(rules: seq<Rule>): seq<RuleOutcome> {
    seq(|rules|, i requires 0 <= i < |rules| => DormantOutcome(rules[i], SKIPPED))
  }

  /** How many items' outcomes are recorded before the interrupt. */
  function Reach(items: seq<seq<Rule>>, interrupt: Interrupt): (n: nat)
    ensures n <= |items|
  {
    match interrupt
    case During(k) => if k < |items| then k else |items|
    case AfterRecording(k, _) => if k < |items| then k + 1 else |items|
    case Never => |items|
  }

  /** The rules marked as processed before the interrupt. */
  function Marked(items: seq<seq<Rule>>, interrupt: Interrupt): seq<Rule> {
    match interrupt
    case During(k) => if k < |items| then Flatten(items[..k]) else Flatten(items)
    case AfterRecording(k, m) =>
      if k < |items| then Flatten(items[..k]) + items[k][..if m < |items[k]| then m else |items[k]|] else Flatten(items)
    case Never => Flatten(items)
  }

  /** What the handler reports as skipped: every rule whose id is not marked. */
  function Rest(items: seq<seq<Rule>>, interrupt: Interrupt): seq<Rule> {
    Filter(Flatten(items), IdNotIn(IdSet(Marked(items, interrupt))))
  }

  /** compile_batch raises what no handler catches when a condition cannot be built. */
  predicate Builds(item: seq<Rule>, authoring: Rule -> Authoring) {
    |item| > 1 ==> forall i :: 0 <= i < |item| ==> !authoring(item[i]).BadCondition?
  }

  datatype RunResult = Aborted | Report(outcomes: seq<RuleOutcome>)

  /** What the work loop and its handler append, unless the run is aborted. */
  function Executed(db: Db, kept: Statements, items: seq<seq<Rule>>, authoring: Rule -> Authoring, cfg: Config, interrupt: Interrupt): RunResult
    requires Workable(items, kept)
  {
    var n := Reach(items, interrupt);
    if exists i :: 0 <= i < n && !Builds(items[i], authoring) then Aborted
    else Report(AllOutcomes(db, kept, items[..n], cfg) + Skipped(Rest(items, interrupt)))
  }

  /** Every rule that runs finds a statement, and no work item is empty. */
  ghost predicate Ready(compilable: seq<Rule>, authoring: Rule -> Authoring) {
    Workable(WorkItems(Runnable(compilable, authoring)), Kept(compilable, authoring))
  }

  /** The outcomes of a whole run. */
  function RunOutcomes(db: Db, rules: seq<Rule>, columns: set<string>, authoring: Rule -> Authoring, cfg: Config, interrupt: Interrupt): RunResult
    requires Ready(Compilable(rules, columns), authoring)
  {
    var compilable := Compilable(rules, columns);
    match Executed(db, Kept(compilable, authoring), WorkItems(Runnable(compilable, authoring)), authoring, cfg, interrupt)
    case Aborted => Aborted
    case Report(outcomes) => Report(Gated(rules, columns) + CompileErrors(compilable, authoring) + outcomes)
  }

  method Run(db: Db, rules: seq<Rule>, columns: set<string>, authoring: Rule -> Authoring, cfg: Config, interrupt: Interrupt)
    returns (result: RunResult)
    ensures Ready(Compilable(rules, columns), authoring)
    ensures result == RunOutcomes(db, rules, columns, authoring, cfg, interrupt)
  {
    hide Filter, Chunks, Singles, Workable, Executed, Compilable, Gated, Kept, CompileErrors;
    var compilable, dormant := GateRules(rules, columns);
    var kept, errors := CompileAll(compilable, authoring);
    var batchable := Filter(Filter(compilable, IdIn(kept.Keys)), InBatches());
    var individual := Filter(Filter(compilable, IdIn(kept.Keys)), Alone());
    var items := Chunks(batchable) + Singles(individual);
    ItemsHoldAll(Runnable(compilable, authoring));
    ItemsWorkable(compilable, authoring);
    var executed := Work(db, kept, items, batchable + individual, authoring, cfg, interrupt);
    if executed.Aborted? {
      return Aborted;
    }
    result := Report(dormant + errors + executed.outcomes);
  }

  method CompileAll(compilable: seq<Rule>, authoring: Rule -> Authoring) returns (kept: Statements, errors: seq<RuleOutcome>)
    ensures kept == Kept(compilable, authoring)
    ensures errors == CompileErrors(compilable, authoring)
  {
    kept, errors := map[], [];
    for i := 0 to |compilable|
      invariant kept == Kept(compilable[..i], authoring)
      invariant errors == CompileErrors(compilable[..i], authoring)
    {
      assert compilable[..i + 1][..i] == compilable[..i];
      var failure := CompileFailure(compilable[i], authoring);
      if failure.Some? {
        errors := errors + [CompileErrorOutcome(compilable[i], failure.value)];
      } else {
        kept := kept[compilable[i].id := compilable[i]];
      }
    }
    assert compilable[..|compilable|] == compilable;
  }

  method ProcessItem(db: Db, kept: Statements, item: seq<Rule>, cfg: Config) returns (outcomes: seq<RuleOutcome>)
    requires item != [] && Keeps(kept, item)
    ensures outcomes == ItemOutcomes(db, kept, item, cfg)
  {
    hide Batched, Individual;
    if |item| > 1 {
      outcomes := ProcessBatch(db, kept, item, cfg);
    } else {
      outcomes := [Individual(db, kept[item[0].id], item[0], cfg)];
    }
  }

  /** The work loop and its KeyboardInterrupt handler. */
  method Work(db: Db, kept: Statements, items: seq<seq<Rule>>, runnable: seq<Rule>, authoring: Rule -> Authoring, cfg: Config, interrupt: Interrupt)
    returns (result: RunResult)
    requires Workable(items, kept) && runnable == Flatten(items)
    ensures result == Executed(db, kept, items, authoring, cfg, interrupt)
  {
    hide ItemOutcomes, Flatten, Filter, IdSet, Skipped, Builds, Keeps, AllOutcomes, Executed, Marked, Reach;
    var outcomes: seq<RuleOutcome> := [];
    var processed: set<string> := {};
    FlattenNone();
    NothingExecuted(db, kept, cfg);
    for k := 0 to |items|
      invariant interrupt.Never? || interrupt.item >= k
      invariant forall i :: 0 <= i < k ==> Builds(items[i], authoring)
      invariant Workable(items[..k], kept) && outcomes == AllOutcomes(db, kept, items[..k], cfg)
      invariant processed == IdSet(Flatten(items[..k]))
    {
      if interrupt == During(k) {
        outcomes := outcomes + Skipped(Filter(runnable, IdNotIn(processed)));
        CutDuring(db, kept, items, authoring, cfg, k);
        return Report(outcomes);
      }
      if !Builds(items[k], authoring) {
        CutAborted(db, kept, items, authoring, cfg, interrupt, k);
        return Aborted;
      }
      NextExecuted(db, kept, items, cfg, k);
      var results := ProcessItem(db, kept, items[k], cfg);
      outcomes := outcomes + results;
      if interrupt.AfterRecording? && interrupt.item == k {
        var m := if interrupt.marked < |items[k]| then interrupt.marked else |items[k]|;
        processed := processed + IdSet(items[k][..m]);
        outcomes := outcomes + Skipped(Filter(runnable, IdNotIn(processed)));
        CutAfter(db, kept, items, authoring, cfg, interrupt);
        return Report(outcomes);
      }
      processed := processed + IdSet(items[k]);
      MarkedAt(items, k);
    }
    assert items[..|items|] == items;
    NotCut(db, kept, items, authoring, cfg, interrupt);
    result := Report(outcomes);
  }

  lemma NothingExecuted(db: Db, kept: Statements, cfg: Config)
    ensures AllOutcomes(db, kept, [], cfg) == []
  {
  }

  lemma NextExecuted(db: Db, kept: Statements, items: seq<seq<Rule>>, cfg: Config, k: nat)
    requires Workable(items, kept) && k < |items|
    ensures Workable(items[..k], kept) && Workable(items[..k + 1], kept)
    ensures AllOutcomes(db, kept, items[..k + 1], cfg) == AllOutcomes(db, kept, items[..k], cfg) + ItemOutcomes(db, kept, items[k], cfg)
  {
    hide ItemOutcomes, Keeps;
    PrefixWorkable(items, kept, k);
    PrefixWorkable(items, kept, k + 1);
    assert items[..k + 1][..k] == items[..k] && items[..k + 1][k] == items[k];
  }

  // Executed at each way out of the work loop.

  lemma CutDuring(db: Db, kept: Statements, items: seq<seq<Rule>>, authoring: Rule -> Authoring, cfg: Config, k: nat)
    requires Workable(items, kept) && k < |items| && forall i :: 0 <= i < k ==> Builds(items[i], authoring)
    ensures Workable(items[..k], kept)
    ensures Executed(db, kept, items, authoring, cfg, During(k)) == Report(
              AllOutcomes(db, kept, items[..k], cfg) + Skipped(Filter(Flatten(items), IdNotIn(IdSet(Flatten(items[..k]))))))
  {
    hide AllOutcomes, Skipped, Filter, Flatten, IdSet, Builds, Keeps;
    PrefixWorkable(items, kept, k);
  }

  lemma CutAborted(db: Db, kept: Statements, items: seq<seq<Rule>>, authoring: Rule -> Authoring, cfg: Config, interrupt: Interrupt, k: nat)
    requires Workable(items, kept) && k < |items| && !Builds(items[k], authoring)
    requires interrupt.Never? || interrupt.item > k || (interrupt.AfterRecording? && interrupt.item == k)
    ensures Executed(db, kept, items, authoring, cfg, interrupt) == Aborted
  {
    hide AllOutcomes, Skipped, Rest, Builds, Keeps;
  }

  lemma CutAfter(db: Db, kept: Statements, items: seq<seq<Rule>>, authoring: Rule -> Authoring, cfg: Config, interrupt: Interrupt)
    requires Workable(items, kept) && interrupt.AfterRecording? && interrupt.item < |items|
    requires forall i :: 0 <= i <= interrupt.item ==> Builds(items[i], authoring)
    ensures var k := interrupt.item;
            var m := if interrupt.marked < |items[k]| then interrupt.marked else |items[k]|;
            var processed := IdSet(Flatten(items[..k])) + IdSet(items[k][..m]);
            && Workable(items[..k + 1], kept)
            && Executed(db, kept, items, authoring, cfg, interrupt)
               == Report(AllOutcomes(db, kept, items[..k + 1], cfg) + Skipped(Filter(Flatten(items), IdNotIn(processed))))
  {
    hide AllOutcomes, Skipped, Filter, Flatten, IdSet, Builds, Keeps;
    var k := interrupt.item;
    PrefixWorkable(items, kept, k + 1);
    IdSetConcat(Flatten(items[..k]), items[k][..if interrupt.marked < |items[k]| then interrupt.marked else |items[k]|]);
  }

  lemma NotCut(db: Db, kept: Statements, items: seq<seq<Rule>>, authoring: Rule -> Authoring, cfg: Config, interrupt: Interrupt)
    requires Workable(items, kept) && (interrupt.Never? || interrupt.item >= |items|)
    requires forall i :: 0 <= i < |items| ==> Builds(items[i], authoring)
    ensures Executed(db, kept, items, authoring, cfg, interrupt) == Report(AllOutcomes(db, kept, items, cfg))
  {
    hide AllOutcomes, Skipped, Filter, Flatten, IdSet, Builds, Keeps;
    NothingLeft(items);
    assert items[..|items|] == items;
    assert AllOutcomes(db, kept, items, cfg) + [] == AllOutcomes(db, kept, items, cfg);
  }

  lemma FlattenNone()
    ensures IdSet(Flatten([])) == IdSet([]) == {}
  {
  }

  lemma MarkedAt(items: seq<seq<Rule>>, k: nat)
    requires k < |items|
    ensures IdSet(Flatten(items[..k + 1])) == IdSet(Flatten(items[..k])) + IdSet(items[k])
  {
    hide IdSet;
    assert items[..k + 1][..k] == items[..k];
    IdSetConcat(Flatten(items[..k]), items[k]);
  }

  lemma IdSetConcat(a: seq<Rule>, b: seq<Rule>)
    ensures IdSet(a + b) == IdSet(a) + IdSet(b)
  {
    forall id | id in IdSet(b) ensures id in IdSet(a + b) {
      var j :| 0 <= j < |b| && b[j].id == id;
      assert (a + b)[|a| + j].id == id;
    }
    forall id | id in IdSet(a) ensures id in IdSet(a + b) {
      var j :| 0 <= j < |a| && a[j].id == id;
      assert (a + b)[j].id == id;
    }
  }

  /** When every rule is marked the handler would find nothing. */
  lemma NothingLeft(items: seq<seq<Rule>>)
    ensures Skipped(Filter(Flatten(items), IdNotIn(IdSet(Flatten(items))))) == []
  {
    hide Flatten;
    var rules := Flatten(items);
    FilterUniform(rules, IdNotIn(IdSet(rules)), false);
  }

  /** What the compile loop keeps: for every rule that compiles a statement under its
      id, from a rule with that id that compiles, and nothing else. */
  lemma {:induction false} KeptAt(rules: seq<Rule>, authoring: Rule -> Authoring)
    ensures forall id :: id in Kept(rules, authoring) ==>
              var r := Kept(rules, authoring)[id]; r in rules && r.id == id && CompileFailure(r, authoring).None?
    ensures forall r :: r in rules && CompileFailure(r, authoring).None? ==> r.id in Kept(rules, authoring)
  {
    hide CompileFailure;
    if rules != [] {
      var front, last := rules[..|rules| - 1], rules[|rules| - 1];
      KeptAt(front, authoring);
      assert rules == front + [last];
    }
  }

  lemma ItemsWorkable(compilable: seq<Rule>, authoring: Rule -> Authoring)
    ensures Ready(compilable, authoring)
  {
    hide Filter, Kept, WorkItems, Flatten, CompileFailure;
    var kept, runnable := Kept(compilable, authoring), Runnable(compilable, authoring);
    var items := WorkItems(runnable);
    ItemsHoldAll(runnable);
    KeptAt(compilable, authoring);
    FilterSubset(compilable, IdIn(kept.Keys));
    FilterSubset(runnable, InBatches());
    FilterSubset(runnable, Alone());
    forall i | 0 <= i < |items| ensures items[i] != [] && Keeps(kept, items[i]) {
      forall r: Rule | r in items[i] ensures r.id in kept && kept[r.id].id == r.id {
        InFlatten(items, i, r);
      }
    }
  }

  lemma {:induction false} InFlatten(items: seq<seq<Rule>>, i: nat, r: Rule)
    requires i < |items| && r in items[i]
    ensures r in Flatten(items)
  {
    if i < |items| - 1 { InFlatten(items[..|items| - 1], i, r); }
  }

  // ----- Conservation --------------------------------------------------------

  lemma {:induction false} FilterConcat(a: seq<Rule>, b: seq<Rule>, p: Rule -> bool)
    ensures Filter(a + b, p) == Filter(a, p) + Filter(b, p)
  {
    if b == [] {
      assert a + b == a;
    } else {
      var n := |b| - 1;
      FilterConcat(a, b[..n], p);
      assert a + b == (a + b[..n]) + [b[n]];
      FilterSnoc(a + b[..n], b[n], p);
    }
  }

  lemma {:induction false} FilterUniform(a: seq<Rule>, p: Rule -> bool, verdict: bool)
    requires forall i :: 0 <= i < |a| ==> p(a[i]) == verdict
    ensures Filter(a, p) == if verdict then a else []
  {
    if a != [] {
      FilterUniform(a[..|a| - 1], p, verdict);
      assert a == a[..|a| - 1] + [a[|a| - 1]];
    }
  }

  lemma SameIdTwice(rules: seq<Rule>, i: nat, j: nat)
    requires i < j < |rules| && rules[i].id == rules[j].id
    ensures !Distinct(rules)
  {
  }

  lemma {:induction false} CompileErrorRules(rules: seq<Rule>, authoring: Rule -> Authoring)
    ensures RulesOf(CompileErrors(rules, authoring)) == Filter(rules, FailsToCompile(authoring))
  {
    if rules != [] {
      var front, last := rules[..|rules| - 1], rules[|rules| - 1];
      CompileErrorRules(front, authoring);
      assert rules == front + [last];
      FilterSnoc(front, last, FailsToCompile(authoring));
      var failure := CompileFailure(last, authoring);
      if failure.Some? {
        RulesOfConcat(CompileErrors(front, authoring), [CompileErrorOutcome(last, failure.value)]);
        assert RulesOf([CompileErrorOutcome(last, failure.value)]) == [last];
      } else {
        assert CompileErrors(rules, authoring) == CompileErrors(front, authoring) + [] == CompileErrors(front, authoring);
      }
    }
  }

  /** The rules that fail to compile although another rule with their id compiles. */
  function Shared(compilable: seq<Rule>, authoring: Rule -> Authoring): seq<Rule> {
    Filter(Filter(compilable, FailsToCompile(authoring)), IdIn(Kept(compilable, authoring).Keys))
  }

  lemma {:induction false} FilterCommutes(rules: seq<Rule>, p: Rule -> bool, q: Rule -> bool)
    ensures Filter(Filter(rules, p), q) == Filter(Filter(rules, q), p)
  {
    if rules != [] {
      var front, last := rules[..|rules| - 1], rules[|rules| - 1];
      FilterCommutes(front, p, q);
      assert rules == front + [last];
      assert Filter(front, p) + [] == Filter(front, p) && Filter(front, q) + [] == Filter(front, q);
      FilterSnoc(Filter(front, p), last, q);
      FilterSnoc(Filter(front, q), last, p);
    }
  }

  /** What runs is what compiled and the failing rules that share an id with it. */
  lemma RunnableParts(compilable: seq<Rule>, authoring: Rule -> Authoring)
    ensures multiset(Runnable(compilable, authoring))
         == multiset(Filter(compilable, Compiles(authoring))) + multiset(Shared(compilable, authoring))
  {
    hide Filter, Kept, CompileFailure;
    var ids := Kept(compilable, authoring).Keys;
    var compiled := Filter(compilable, Compiles(authoring));
    FilterSplits(Filter(compilable, IdIn(ids)), Compiles(authoring), FailsToCompile(authoring));
    FilterCommutes(compilable, IdIn(ids), Compiles(authoring));
    FilterCommutes(compilable, IdIn(ids), FailsToCompile(authoring));
    FilterSubset(compilable, Compiles(authoring));
    KeptAt(compilable, authoring);
    forall i | 0 <= i < |compiled| ensures IdIn(ids)(compiled[i]) == true {
      assert compiled[i] in compiled;
    }
    FilterUniform(compiled, IdIn(ids), true);
  }

  /** Before anything is executed every rule is dormant, in error, or to be run, and
      those that share an id are two of these. */
  lemma CompileConserves(rules: seq<Rule>, columns: set<string>, authoring: Rule -> Authoring)
    ensures var compilable := Compilable(rules, columns);
      multiset(rules) + multiset(Shared(compilable, authoring))
        == multiset(RulesOf(Gated(rules, columns))) + multiset(RulesOf(CompileErrors(compilable, authoring)))
           + multiset(Runnable(compilable, authoring))
  {
    hide Filter, Kept, RulesOf, Compilable, Gated, CompileErrors, Runnable, Shared;
    var compilable := Compilable(rules, columns);
    GateConserves(rules, columns);
    FilterSplits(compilable, Compiles(authoring), FailsToCompile(authoring));
    CompileErrorRules(compilable, authoring);
    RunnableParts(compilable, authoring);
  }

  /** The items hold every runnable rule once, in chunks of at most ten. */
  lemma ItemsHoldAll(runnable: seq<Rule>)
    ensures var items := WorkItems(runnable);
      && (forall i :: 0 <= i < |items| ==> 1 <= |items[i]| <= CHUNK_SIZE)
      && Flatten(items) == Filter(runnable, InBatches()) + Filter(runnable, Alone())
      && multiset(Flatten(items)) == multiset(runnable)
  {
    hide Filter, Chunks, Singles, Flatten;
    var batchable, individual := Filter(runnable, InBatches()), Filter(runnable, Alone());
    FilterSplits(runnable, InBatches(), Alone());
    ChunksFlatten(batchable);
    SinglesFlatten(individual);
    FlattenConcat(Chunks(batchable), Singles(individual));
    var items := WorkItems(runnable);
    forall i | 0 <= i < |items| ensures 1 <= |items[i]| <= CHUNK_SIZE {
      assert items[i] in Chunks(batchable) || items[i] in Singles(individual);
    }
  }

  /** The classes whose condition is one predicate over a row. */
  predicate OnePass(c: RuleClass) { c.Presence? || c.Format? || c.CrossColumn? || c.Domain? }

  /** The one-pass rules come first, in batches; every other rule is an item by itself. */
  lemma BatchesFirst(runnable: seq<Rule>) returns (batches: nat)
    ensures batches <= |WorkItems(runnable)|
    ensures forall i, r :: 0 <= i < batches && r in WorkItems(runnable)[i] ==> OnePass(r.ruleClass)
    ensures forall i :: 0 <= i < batches - 1 ==> |WorkItems(runnable)[i]| == 10
    ensures forall i :: batches <= i < |WorkItems(runnable)| ==>
              |WorkItems(runnable)[i]| == 1 && !OnePass(WorkItems(runnable)[i][0].ruleClass)
  {
    hide Filter, Flatten, Chunks;
    var batchable, alone := Filter(runnable, InBatches()), Filter(runnable, Alone());
    ChunksFlatten(batchable);
    FilterSubset(runnable, InBatches());
    FilterSubset(runnable, Alone());
    batches := |Chunks(batchable)|;
    forall i, r | 0 <= i < batches && r in WorkItems(runnable)[i] ensures OnePass(r.ruleClass) {
      InFlatten(Chunks(batchable), i, r);
    }
    forall i | batches <= i < |WorkItems(runnable)|
      ensures |WorkItems(runnable)[i]| == 1 && !OnePass(WorkItems(runnable)[i][0].ruleClass)
    {
      assert alone[i - batches] in alone;
    }
  }

  /** An outcome that reports no execution: a status and a note. */
  ghost predicate NotExecuted(o: RuleOutcome, status: RunStatus, note: string) {
    && o.runStatus == status && o.note == note && o.count.None? && o.percentage.None? && o.error.None?
    && o.detailRows == [] && !o.truncated && !o.needsCalibration
  }

  /** What is reported of the rules that are not executed: held back by the gate, not
      compiled, or skipped at an interrupt. */
  lemma {:induction false} UnservedReports(rules: seq<Rule>, columns: set<string>, authoring: Rule -> Authoring)
    ensures forall o :: o in Gated(rules, columns) ==>
              o.rule in rules && DormantReason(o.rule, columns).Some? && NotExecuted(o, RanDormant, DormantReason(o.rule, columns).value)
    ensures forall o :: o in CompileErrors(rules, authoring) ==>
              && o.rule in rules
              && if o.rule.ruleClass.Other? then NotExecuted(o, RanError, "Unknown rule class: '" + o.rule.ruleClass.name + "'")
                 else !authoring(o.rule).Fine? && NotExecuted(o, RanError, authoring(o.rule).message)
    ensures forall o :: o in Skipped(rules) ==> o.rule in rules && NotExecuted(o, RanDormant, "skipped: run interrupted")
  {
    hide DormantReason;
    if rules != [] {
      UnservedReports(rules[..|rules| - 1], columns, authoring);
    }
  }

  /** A list taken from rules with distinct ids has distinct ids. */
  lemma PartDistinct(part: seq<Rule>, rules: seq<Rule>)
    requires Distinct(rules) && multiset(part) <= multiset(rules)
    ensures Distinct(part)
  {
    forall i, j | 0 <= i < j < |part| ensures part[i].id != part[j].id {
      if part[i].id == part[j].id {
        assert part[i] in multiset(rules) && part[j] in multiset(rules);
        SameRule(rules, part[i], part[j]);
        HeldTwice(part, i, j);
        HeldOnce(rules, part[i]);
      }
    }
  }

  lemma HeldTwice(rules: seq<Rule>, i: nat, j: nat)
    requires i < j < |rules| && rules[i] == rules[j]
    ensures multiset(rules)[rules[i]] >= 2
  {
    assert rules == rules[..j] + ([rules[j]] + rules[j + 1..]);
    assert rules[..j][i] == rules[j];
    assert multiset(rules) == multiset(rules[..j]) + (multiset{rules[j]} + multiset(rules[j + 1..]));
  }

  lemma {:induction false} HeldOnce(rules: seq<Rule>, r: Rule)
    requires Distinct(rules)
    ensures multiset(rules)[r] <= 1
  {
    if rules != [] {
      var front, last := rules[..|rules| - 1], rules[|rules| - 1];
      HeldOnce(front, r);
      assert rules == front + [last];
      assert last !in front;
      assert multiset(front)[last] == 0;
    }
  }

  lemma {:induction false} FilterSubset(rules: seq<Rule>, keep: Rule -> bool)
    ensures forall r :: r in Filter(rules, keep) <==> r in rules && keep(r)
  {
    if rules != [] {
      var front, last := rules[..|rules| - 1], rules[|rules| - 1];
      FilterSubset(front, keep);
      assert rules == front + [last];
    }
  }

  lemma {:induction false} AllOutcomesRules(db: Db, kept: Statements, items: seq<seq<Rule>>, cfg: Config)
    requires Workable(items, kept)
    ensures RulesOf(AllOutcomes(db, kept, items, cfg)) == Flatten(items)
  {
    hide ItemOutcomes, RulesOf;
    if items != [] {
      var n := |items| - 1;
      assert forall i :: 0 <= i < n ==> items[..n][i] == items[i];
      AllOutcomesRules(db, kept, items[..n], cfg);
      RulesOfConcat(AllOutcomes(db, kept, items[..n], cfg), ItemOutcomes(db, kept, items[n], cfg));
    } else {
      NoOutcomes();
    }
  }

  lemma NoOutcomes()
    ensures RulesOf([]) == []
  {
  }

  /** Rules recorded before an interrupt but then skipped as well, their ids unmarked. */
  function Twice(items: seq<seq<Rule>>, interrupt: Interrupt): seq<Rule> {
    Filter(Flatten(items[..Reach(items, interrupt)]), IdNotIn(IdSet(Marked(items, interrupt))))
  }

  /** Rules an interrupt neither finds recorded nor reports as skipped: another rule
      has marked their id. */
  function Lost(items: seq<seq<Rule>>, interrupt: Interrupt): seq<Rule> {
    Filter(Flatten(items[Reach(items, interrupt)..]), IdIn(IdSet(Marked(items, interrupt))))
  }

  lemma RestParts(items: seq<seq<Rule>>, interrupt: Interrupt)
    ensures multiset(Rest(items, interrupt)) + multiset(Lost(items, interrupt))
         == multiset(Twice(items, interrupt)) + multiset(Flatten(items[Reach(items, interrupt)..]))
    ensures multiset(Flatten(items))
         == multiset(Flatten(items[..Reach(items, interrupt)])) + multiset(Flatten(items[Reach(items, interrupt)..]))
  {
    hide Filter, Flatten, IdSet, Marked, Reach;
    var n, marked := Reach(items, interrupt), IdSet(Marked(items, interrupt));
    var recorded, later := Flatten(items[..n]), Flatten(items[n..]);
    assert items == items[..n] + items[n..];
    FlattenConcat(items[..n], items[n..]);
    FilterConcat(recorded, later, IdNotIn(marked));
    FilterSplits(later, IdNotIn(marked), IdIn(marked));
  }

  lemma ExecutedRules(db: Db, kept: Statements, items: seq<seq<Rule>>, authoring: Rule -> Authoring, cfg: Config, interrupt: Interrupt)
    requires Workable(items, kept) && Executed(db, kept, items, authoring, cfg, interrupt).Report?
    ensures multiset(RulesOf(Executed(db, kept, items, authoring, cfg, interrupt).outcomes)) + multiset(Lost(items, interrupt))
         == multiset(Flatten(items)) + multiset(Twice(items, interrupt))
  {
    hide AllOutcomes, Flatten, Skipped, Rest, Lost, Twice, Reach, Workable, Executed, RulesOf;
    var n, rest := Reach(items, interrupt), Rest(items, interrupt);
    ExecutedIs(db, kept, items, authoring, cfg, interrupt);
    AllOutcomesRules(db, kept, items[..n], cfg);
    RulesOfConcat(AllOutcomes(db, kept, items[..n], cfg), Skipped(rest));
    SkippedRules(rest);
    RestParts(items, interrupt);
    Rebalanced(multiset(Flatten(items[..n])), multiset(rest), multiset(Lost(items, interrupt)),
               multiset(Twice(items, interrupt)), multiset(Flatten(items[n..])));
  }

  lemma Rebalanced<T>(recorded: multiset<T>, rest: multiset<T>, lost: multiset<T>, twice: multiset<T>, later: multiset<T>)
    requires rest + lost == twice + later
    ensures (recorded + rest) + lost == (recorded + later) + twice
  {
    forall r ensures ((recorded + rest) + lost)[r] == ((recorded + later) + twice)[r] {
      assert (rest + lost)[r] == (twice + later)[r];
    }
  }

  lemma ExecutedIs(db: Db, kept: Statements, items: seq<seq<Rule>>, authoring: Rule -> Authoring, cfg: Config, interrupt: Interrupt)
    requires Workable(items, kept) && Executed(db, kept, items, authoring, cfg, interrupt).Report?
    ensures Workable(items[..Reach(items, interrupt)], kept)
    ensures Executed(db, kept, items, authoring, cfg, interrupt).outcomes
         == AllOutcomes(db, kept, items[..Reach(items, interrupt)], cfg) + Skipped(Rest(items, interrupt))
  {
    hide AllOutcomes, Skipped, Rest, Reach, Keeps, Builds;
    PrefixWorkable(items, kept, Reach(items, interrupt));
  }

  lemma PrefixWorkable(items: seq<seq<Rule>>, kept: Statements, n: nat)
    requires Workable(items, kept) && n <= |items|
    ensures Workable(items[..n], kept)
  {
    hide Keeps;
    assert forall i :: 0 <= i < n ==> items[..n][i] == items[i];
  }

  lemma SkippedRules(rules: seq<Rule>)
    ensures RulesOf(Skipped(rules)) == rules
  {
  }

  lemma RunOutcomesAre(db: Db, rules: seq<Rule>, columns: set<string>, authoring: Rule -> Authoring, cfg: Config, interrupt: Interrupt)
    requires Ready(Compilable(rules, columns), authoring)
    requires RunOutcomes(db, rules, columns, authoring, cfg, interrupt).Report?
    ensures var compilable := Compilable(rules, columns);
      var executed := Executed(db, Kept(compilable, authoring), WorkItems(Runnable(compilable, authoring)), authoring, cfg, interrupt);
      && executed.Report?
      && RunOutcomes(db, rules, columns, authoring, cfg, interrupt).outcomes
         == Gated(rules, columns) + CompileErrors(compilable, authoring) + executed.outcomes
  {
    hide Compilable, Runnable, WorkItems, Kept, Workable, Gated, CompileErrors, Executed;
  }

  /** Conservation, over every list of rules and every pattern of gating, compile
      errors, statement failures and interrupts: one outcome for every loaded rule, a
      second one for each failing rule whose id has a statement and for each rule an
      interrupt found recorded under an unmarked id, and none for the rules it lost. */
  lemma OutcomeLaw(db: Db, rules: seq<Rule>, columns: set<string>, authoring: Rule -> Authoring, cfg: Config, interrupt: Interrupt)
    ensures var compilable := Compilable(rules, columns);
      var items := WorkItems(Runnable(compilable, authoring));
      && Ready(compilable, authoring)
      && (RunOutcomes(db, rules, columns, authoring, cfg, interrupt).Report? ==>
            multiset(RulesOf(RunOutcomes(db, rules, columns, authoring, cfg, interrupt).outcomes)) + multiset(Lost(items, interrupt))
              == multiset(rules) + multiset(Shared(compilable, authoring)) + multiset(Twice(items, interrupt)))
  {
    hide Compilable, Runnable, WorkItems, Kept, Workable, Gated, CompileErrors, Executed, RunOutcomes, RulesOf, Lost, Twice, Shared, Flatten;
    var compilable := Compilable(rules, columns);
    var kept, runnable := Kept(compilable, authoring), Runnable(compilable, authoring);
    ItemsWorkable(compilable, authoring);
    if RunOutcomes(db, rules, columns, authoring, cfg, interrupt).Report? {
      RunOutcomesAre(db, rules, columns, authoring, cfg, interrupt);
      var executed := Executed(db, kept, WorkItems(runnable), authoring, cfg, interrupt);
      CompileConserves(rules, columns, authoring);
      ItemsHoldAll(runnable);
      var gated, errors := Gated(rules, columns), CompileErrors(compilable, authoring);
      ExecutedRules(db, kept, WorkItems(runnable), authoring, cfg, interrupt);
      RulesOfConcat(gated, errors);
      RulesOfConcat(gated + errors, executed.outcomes);
      Rebalanced(multiset(RulesOf(gated)) + multiset(RulesOf(errors)), multiset(RulesOf(executed.outcomes)),
                 multiset(Lost(WorkItems(runnable), interrupt)), multiset(Twice(WorkItems(runnable), interrupt)),
                 multiset(runnable));
    }
  }

  lemma MarkedApart(items: seq<seq<Rule>>, interrupt: Interrupt)
    ensures forall r :: r in Twice(items, interrupt) ==> r !in Lost(items, interrupt)
  {
    hide Filter, Flatten, IdSet, Marked, Reach;
    var n, marked := Reach(items, interrupt), IdSet(Marked(items, interrupt));
    FilterSubset(Flatten(items[..n]), IdNotIn(marked));
    FilterSubset(Flatten(items[n..]), IdIn(marked));
  }

  /** If as many rules are taken away as are added, and none taken away is among some of
      those added, there were none of these. */
  lemma Cancelled<T>(all: seq<T>, lost: seq<T>, shared: seq<T>, twice: seq<T>, total: multiset<T>)
    requires total + multiset(lost) == multiset(all) + multiset(shared) + multiset(twice)
    requires forall r :: r in twice ==> r !in lost
    ensures total == multiset(all) <==> twice == [] && multiset(lost) == multiset(shared)
  {
    if twice != [] {
      var r := twice[0];
      assert r in twice && r !in lost;
      assert r in multiset(twice) && r !in multiset(lost);
      assert (total + multiset(lost))[r] == multiset(all)[r] + multiset(shared)[r] + multiset(twice)[r];
    }
    if total == multiset(all) && twice == [] {
      forall r ensures multiset(lost)[r] == multiset(shared)[r] {
        assert (total + multiset(lost))[r] == multiset(all)[r] + multiset(shared)[r] + multiset(twice)[r];
      }
    }
    if twice == [] && multiset(lost) == multiset(shared) {
      forall r ensures total[r] == multiset(all)[r] {
        assert (total + multiset(lost))[r] == multiset(all)[r] + multiset(shared)[r] + multiset(twice)[r];
      }
    }
  }

  /** A report has one outcome for each rule exactly when no recorded rule was left
      unmarked, and each failing rule that would be executed as well, by another
      rule's statement, is one the interrupt lost. */
  lemma OneOutcomeExactly(db: Db, rules: seq<Rule>, columns: set<string>, authoring: Rule -> Authoring, cfg: Config, interrupt: Interrupt)
    ensures var compilable := Compilable(rules, columns);
      var items := WorkItems(Runnable(compilable, authoring));
      && Ready(compilable, authoring)
      && (RunOutcomes(db, rules, columns, authoring, cfg, interrupt).Report? ==>
            (multiset(RulesOf(RunOutcomes(db, rules, columns, authoring, cfg, interrupt).outcomes)) == multiset(rules)
             <==> Twice(items, interrupt) == [] && multiset(Lost(items, interrupt)) == multiset(Shared(compilable, authoring))))
  {
    hide Compilable, Runnable, WorkItems, Kept, Workable, RunOutcomes, RulesOf, Lost, Twice, Shared, IdSet, Marked;
    OutcomeLaw(db, rules, columns, authoring, cfg, interrupt);
    var compilable := Compilable(rules, columns);
    var items := WorkItems(Runnable(compilable, authoring));
    MarkedApart(items, interrupt);
    var result := RunOutcomes(db, rules, columns, authoring, cfg, interrupt);
    if result.Report? {
      Cancelled(rules, Lost(items, interrupt), Shared(compilable, authoring), Twice(items, interrupt),
                multiset(RulesOf(result.outcomes)));
    }
  }

  // ----- Distinct ids ---------------------------------------------------------

  lemma CompilableDistinct(rules: seq<Rule>, columns: set<string>, authoring: Rule -> Authoring)
    requires Distinct(rules)
    ensures Distinct(Compilable(rules, columns))
  {
    hide Distinct, Compilable, RulesOf, Gated;
    GateConserves(rules, columns);
    PartDistinct(Compilable(rules, columns), rules);
  }

  lemma SameRule(rules: seq<Rule>, a: Rule, b: Rule)
    requires Distinct(rules) && a in rules && b in rules && a.id == b.id
    ensures a == b
  {
    var i, j :| 0 <= i < |rules| && 0 <= j < |rules| && rules[i] == a && rules[j] == b;
    assert i == j;
  }

  /** With distinct ids every statement is the rule's own, exactly the compiled rules
      run, and none of them failed to compile. */
  lemma OwnStatements(compilable: seq<Rule>, authoring: Rule -> Authoring)
    requires Distinct(compilable)
    ensures Runnable(compilable, authoring) == Filter(compilable, Compiles(authoring)) && Shared(compilable, authoring) == []
    ensures forall r :: r in Runnable(compilable, authoring) ==>
              r.id in Kept(compilable, authoring) && Kept(compilable, authoring)[r.id] == r && Compiles(authoring)(r)
  {
    hide Distinct, Filter, Kept, CompileFailure;
    var kept := Kept(compilable, authoring);
    KeptAt(compilable, authoring);
    forall r | r in compilable ensures IdIn(kept.Keys)(r) == Compiles(authoring)(r) {
      if r.id in kept { SameRule(compilable, r, kept[r.id]); }
    }
    FilterSame(compilable, IdIn(kept.Keys), Compiles(authoring));
    FilterSubset(compilable, Compiles(authoring));
    forall r | r in Filter(compilable, Compiles(authoring)) ensures kept[r.id] == r {
      SameRule(compilable, r, kept[r.id]);
    }
    var failing := Filter(compilable, FailsToCompile(authoring));
    FilterSubset(compilable, FailsToCompile(authoring));
    forall i | 0 <= i < |failing| ensures IdIn(kept.Keys)(failing[i]) == false {
      assert failing[i] in failing;
    }
    FilterUniform(failing, IdIn(kept.Keys), false);
  }

  /** The rules whose outcomes were recorded but that were not yet marked. */
  function Unmarked(items: seq<seq<Rule>>, interrupt: Interrupt): seq<Rule> {
    match interrupt
    case AfterRecording(k, m) => if k < |items| && m < |items[k]| then items[k][m..] else []
    case _ => []
  }

  lemma RecordedParts(items: seq<seq<Rule>>, interrupt: Interrupt)
    ensures Flatten(items[..Reach(items, interrupt)]) == Marked(items, interrupt) + Unmarked(items, interrupt)
    ensures Flatten(items) == Marked(items, interrupt) + (Unmarked(items, interrupt) + Flatten(items[Reach(items, interrupt)..]))
  {
    var n := Reach(items, interrupt);
    hide Flatten;
    FlattenConcat(items[..n], items[n..]);
    assert items == items[..n] + items[n..];
    if interrupt.AfterRecording? && interrupt.item < |items| {
      var k := interrupt.item;
      assert items[..n] == items[..k] + [items[k]];
      FlattenConcat(items[..k], [items[k]]);
      FlattenOne(items[k]);
    } else {
      assert items[..|items|] == items;
    }
  }

  /** With distinct ids an interrupt loses no rule and repeats exactly the unmarked. */
  lemma TwiceIsUnmarked(items: seq<seq<Rule>>, interrupt: Interrupt)
    requires Distinct(Flatten(items))
    ensures Twice(items, interrupt) == Unmarked(items, interrupt) && Lost(items, interrupt) == []
  {
    hide Flatten, Filter, Marked, Unmarked, Reach, IdSet;
    var marked, unmarked, later := Marked(items, interrupt), Unmarked(items, interrupt), Flatten(items[Reach(items, interrupt)..]);
    RecordedParts(items, interrupt);
    Unseen(marked, unmarked + later);
    forall i | 0 <= i < |unmarked| ensures IdNotIn(IdSet(marked))(unmarked[i]) == true {
      assert (unmarked + later)[i] == unmarked[i];
    }
    forall i | 0 <= i < |later| ensures IdIn(IdSet(marked))(later[i]) == false {
      assert (unmarked + later)[|unmarked| + i] == later[i];
    }
    AllSeen(marked);
    FilterConcat(marked, unmarked, IdNotIn(IdSet(marked)));
    FilterUniform(marked, IdNotIn(IdSet(marked)), false);
    FilterUniform(unmarked, IdNotIn(IdSet(marked)), true);
    FilterUniform(later, IdIn(IdSet(marked)), false);
    assert [] + unmarked == unmarked;
  }

  lemma AllSeen(rules: seq<Rule>)
    ensures forall i :: 0 <= i < |rules| ==> IdNotIn(IdSet(rules))(rules[i]) == false
  {
  }

  lemma Unseen(done: seq<Rule>, rest: seq<Rule>)
    requires Distinct(done + rest)
    ensures forall i :: 0 <= i < |rest| ==> rest[i].id !in IdSet(done)
  {
    forall j | 0 <= j < |rest| ensures rest[j].id !in IdSet(done) {
      if rest[j].id in IdSet(done) {
        var i :| 0 <= i < |done| && done[i].id == rest[j].id;
        SameIdTwice(done + rest, i, |done| + j);
      }
    }
  }

  /** With distinct ids no run is aborted, and it has one outcome per rule exactly
      unless the interrupt lands between recording an item's outcomes and marking
      its last rule. */
  lemma DistinctOutcomes(db: Db, rules: seq<Rule>, columns: set<string>, authoring: Rule -> Authoring, cfg: Config, interrupt: Interrupt)
    requires Distinct(rules)
    ensures var items := WorkItems(Runnable(Compilable(rules, columns), authoring));
      && Ready(Compilable(rules, columns), authoring)
      && RunOutcomes(db, rules, columns, authoring, cfg, interrupt).Report?
      && (multiset(RulesOf(RunOutcomes(db, rules, columns, authoring, cfg, interrupt).outcomes)) == multiset(rules)
          <==> !(interrupt.AfterRecording? && interrupt.item < |items| && interrupt.marked < |items[interrupt.item]|))
  {
    hide Compilable, Runnable, WorkItems, Kept, RunOutcomes, RulesOf, Lost, Twice, Shared, Filter, Flatten, Distinct, Workable, CompileFailure;
    var compilable := Compilable(rules, columns);
    var items := WorkItems(Runnable(compilable, authoring));
    CompilableDistinct(rules, columns, authoring);
    OwnStatements(compilable, authoring);
    ItemsDistinct(compilable, authoring);
    TwiceIsUnmarked(items, interrupt);
    OneOutcomeExactly(db, rules, columns, authoring, cfg, interrupt);
    NeverAborts(db, rules, columns, authoring, cfg, interrupt);
    NoOutcomes();
  }

  lemma ItemsDistinct(compilable: seq<Rule>, authoring: Rule -> Authoring)
    requires Distinct(compilable)
    ensures Distinct(Flatten(WorkItems(Runnable(compilable, authoring))))
  {
    hide Distinct, Flatten, WorkItems, Filter, Kept, Runnable, CompileFailure;
    OwnStatements(compilable, authoring);
    ItemsHoldAll(Runnable(compilable, authoring));
    FilterSplits(compilable, Compiles(authoring), FailsToCompile(authoring));
    PartDistinct(Flatten(WorkItems(Runnable(compilable, authoring))), compilable);
  }

  lemma NeverAborts(db: Db, rules: seq<Rule>, columns: set<string>, authoring: Rule -> Authoring, cfg: Config, interrupt: Interrupt)
    requires Distinct(Compilable(rules, columns))
    requires Ready(Compilable(rules, columns), authoring)
    ensures RunOutcomes(db, rules, columns, authoring, cfg, interrupt).Report?
  {
    hide Compilable, Runnable, Kept, Distinct, Flatten, Workable, AllOutcomes, Gated, CompileErrors, Rest, WorkItems, Filter;
    var compilable := Compilable(rules, columns);
    var runnable := Runnable(compilable, authoring);
    var items := WorkItems(runnable);
    OwnStatements(compilable, authoring);
    ItemsHoldAll(runnable);
    FilterSubset(runnable, InBatches());
    FilterSubset(runnable, Alone());
    forall i | 0 <= i < |items| ensures Builds(items[i], authoring) {
      forall r: Rule | r in items[i] ensures !authoring(r).BadCondition? || r.ruleClass.Other? {
        InFlatten(items, i, r);
        assert Compiles(authoring)(r);
      }
      BatchHasKnownClass(runnable, i);
    }
  }

  /** Only a single item can hold a rule of an unknown class. */
  lemma BatchHasKnownClass(runnable: seq<Rule>, i: nat)
    requires i < |WorkItems(runnable)|
    ensures |WorkItems(runnable)[i]| > 1 ==> forall r :: r in WorkItems(runnable)[i] ==> Batchable(r.ruleClass)
  {
    hide Filter, Flatten, Chunks, Singles;
    var batchable, alone := Filter(runnable, InBatches()), Filter(runnable, Alone());
    SinglesFlatten(alone);
    ChunksFlatten(batchable);
    FilterSubset(runnable, InBatches());
    var item := WorkItems(runnable)[i];
    if i < |Chunks(batchable)| {
      forall r | r in item ensures Batchable(r.ruleClass) {
        InFlatten(Chunks(batchable), i, r);
      }
    } else {
      assert item in Singles(alone);
    }
  }

  // ----- A whole run is every rule on its own --------------------------------

  /** Each rule by its own statement, one by one. */
  function Singly(db: Db, rules: seq<Rule>, cfg: Config): seq<RuleOutcome> {
    seq(|rules|, i requires 0 <= i < |rules| => Individual(db, rules[i], rules[i], cfg))
  }

  lemma ServedItem(db: Db, kept: Statements, item: seq<Rule>, cfg: Config)
    requires DbOk(db) && item != [] && KeepsOwn(kept, item) && (|item| > 1 ==> CountsServed(db, item) && OwnBound(db, item))
    ensures ItemOutcomes(db, kept, item, cfg) == Singly(db, item, cfg)
  {
    hide CountsServed, OwnBound, Batched, Individual, DbOk;
    if |item| > 1 { BatchIsIndividual(db, kept, item, cfg); }
  }

  lemma {:induction false} ServedRun(db: Db, kept: Statements, items: seq<seq<Rule>>, cfg: Config)
    requires DbOk(db) && Workable(items, kept)
    requires forall i :: 0 <= i < |items| ==>
               KeepsOwn(kept, items[i]) && (|items[i]| > 1 ==> CountsServed(db, items[i]) && OwnBound(db, items[i]))
    ensures AllOutcomes(db, kept, items, cfg) == Singly(db, Flatten(items), cfg)
  {
    hide CountsServed, OwnBound, ItemOutcomes, Individual, DbOk, Keeps, KeepsOwn;
    if items != [] {
      var n := |items| - 1;
      assert forall i :: 0 <= i < n ==> items[..n][i] == items[i];
      ServedRun(db, kept, items[..n], cfg);
      ServedItem(db, kept, items[n], cfg);
    }
  }

  /** With distinct ids, when the count statements of every batch are served and no
      expression borrows a merged name, batching is invisible in the report: each
      rule's outcome is its own. */
  lemma BatchingInvisible(db: Db, compilable: seq<Rule>, authoring: Rule -> Authoring, cfg: Config)
    requires DbOk(db) && Distinct(compilable)
    requires forall item :: item in WorkItems(Runnable(compilable, authoring)) && |item| > 1 ==> CountsServed(db, item) && OwnBound(db, item)
    ensures var runnable := Runnable(compilable, authoring);
      && Ready(compilable, authoring)
      && AllOutcomes(db, Kept(compilable, authoring), WorkItems(runnable), cfg)
         == Singly(db, Filter(runnable, InBatches()) + Filter(runnable, Alone()), cfg)
  {
    hide DbOk, Distinct, CountsServed, OwnBound, WorkItems, Runnable, Kept, Filter, Flatten, AllOutcomes, Singly, Keeps, CompileFailure;
    var kept, runnable := Kept(compilable, authoring), Runnable(compilable, authoring);
    var items := WorkItems(runnable);
    OwnStatements(compilable, authoring);
    ItemsWorkable(compilable, authoring);
    ItemsHoldAll(runnable);
    FilterSubset(runnable, InBatches());
    FilterSubset(runnable, Alone());
    forall i | 0 <= i < |items|
      ensures KeepsOwn(kept, items[i]) && (|items[i]| > 1 ==> CountsServed(db, items[i]) && OwnBound(db, items[i]))
    {
      forall r: Rule | r in items[i] ensures r.id in kept && kept[r.id] == r {
        InFlatten(items, i, r);
      }
      assert items[i] in items;
    }
    ServedRun(db, kept, items, cfg);
  }

  // ----- Rules that share an id ----------------------------------------------

  lemma NothingInterrupted(items: seq<seq<Rule>>)
    ensures Twice(items, Never) == [] && Lost(items, Never) == []
  {
    hide Flatten, IdSet, Filter;
    var rules := Flatten(items);
    assert items[..|items|] == items && items[|items|..] == [];
    AllSeen(rules);
    FilterUniform(rules, IdNotIn(IdSet(rules)), false);
    NoRules(IdIn(IdSet(rules)));
  }

  lemma NoRules(keep: Rule -> bool)
    ensures Filter(Flatten([]), keep) == []
  {
  }

  /** Uninterrupted, the books of a report balance exactly when no rule that fails to
      compile shares its id with one that compiles; otherwise it is both an error and
      a work item. */
  lemma SharedIdsExactly(db: Db, rules: seq<Rule>, columns: set<string>, authoring: Rule -> Authoring, cfg: Config)
    ensures var compilable := Compilable(rules, columns);
      && Ready(compilable, authoring)
      && (RunOutcomes(db, rules, columns, authoring, cfg, Never).Report? ==>
            (multiset(RulesOf(RunOutcomes(db, rules, columns, authoring, cfg, Never).outcomes)) == multiset(rules)
             <==> forall r :: r in compilable && FailsToCompile(authoring)(r) ==> r.id !in Kept(compilable, authoring)))
  {
    hide Compilable, Runnable, WorkItems, Kept, Workable, RunOutcomes, RulesOf, Lost, Twice, Filter, CompileFailure;
    var compilable := Compilable(rules, columns);
    OneOutcomeExactly(db, rules, columns, authoring, cfg, Never);
    NothingInterrupted(WorkItems(Runnable(compilable, authoring)));
    var failing, shared := Filter(compilable, FailsToCompile(authoring)), Shared(compilable, authoring);
    FilterSubset(compilable, FailsToCompile(authoring));
    FilterSubset(failing, IdIn(Kept(compilable, authoring).Keys));
    NoOutcomes();
    SomeRules(shared);
    if shared != [] { assert shared[0] in shared; }
  }

  lemma SomeRules(rules: seq<Rule>)
    ensures multiset(rules) == multiset([]) <==> rules == []
  {
    assert |multiset(rules)| == |rules|;
  }
}
