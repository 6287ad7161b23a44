/** Gating and compilation: the condition of a rule on its own, and the merged
    conditions and bind parameters of a batch. */
module ScanCompiler {
  import opened Common
  import opened ScanModel
  import opened Decimal

  // ----- Gate ----------------------------------------------------------------

  /** Why a rule cannot run against these columns, if it cannot. */
  function DormantReason(rule: Rule, columns: set<string>): Option<string> {
    var missing := FirstMissing(rule.requiredColumns, columns);
    if missing.Some? then Some("missing column: " + missing.value)
    else if rule.ruleClass.Domain? && rule.allowed == [] then Some("empty allowed list")
    else if rule.status == Dormant then
      Some(if BlockedText(rule.blockedBy) == "" then "declared dormant in rule pack" else BlockedText(rule.blockedBy))
    else None
  }

  function FirstMissing(names: seq<string>, columns: set<string>): (r: Option<string>)
    ensures r.None? <==> forall n :: n in names ==> n in columns
    ensures r.Some? ==> r.value in names && r.value !in columns
  {
    if names == [] then None
    else if names[0] !in columns then Some(names[0])
    else FirstMissing(names[1..], columns)
  }

  /** _format_blocked_by: only an absent or empty text formats as nothing. */
  function BlockedText(b: Blocker): string {
    match b
    case Many(names) => "blocked by: " + Join(names)
    case One(text) => if text == "" then "" else "blocked by: " + text
    case Unblocked => ""
  }

  function Join(names: seq<string>): string {
    if names == [] then "" else if |names| == 1 then names[0] else names[0] + ", " + Join(names[1..])
  }

  /** Names are listed with a comma and a space between them. */
  lemma {:induction false} JoinLists(a: seq<string>, b: seq<string>)
    ensures Join([]) == "" && (|a| == 1 ==> Join(a) == a[0])
    ensures |a| > 0 && |b| > 0 ==> Join(a + b) == Join(a) + ", " + Join(b)
  {
    if |a| > 0 && |b| > 0 {
      assert (a + b)[1..] == a[1..] + b;
      if |a| > 1 { JoinLists(a[1..], b); } else { assert a[1..] + b == b; }
    }
  }

  function Compilable(rules: seq<Rule>, columns: set<string>): seq<Rule> {
    if rules == [] then []
    else Compilable(rules[..|rules| - 1], columns) + if DormantReason(rules[|rules| - 1], columns).None? then [rules[|rules| - 1]] else []
  }

  function Gated(rules: seq<Rule>, columns: set<string>): seq<RuleOutcome> {
    if rules == [] then []
    else
      var reason := DormantReason(rules[|rules| - 1], columns);
      Gated(rules[..|rules| - 1], columns) + if reason.Some? then [DormantOutcome(rules[|rules| - 1], reason.value)] else []
  }

  /** What the gate lets through: a rule whose columns all exist, that is not a domain
      rule with nothing allowed, and that is not declared dormant. */
  lemma GatePasses(rule: Rule, columns: set<string>)
    ensures DormantReason(rule, columns).None? <==>
      && (forall name :: name in rule.requiredColumns ==> name in columns)
      && !(rule.ruleClass == RuleClass.Domain && |rule.allowed| == 0)
      && (rule.status == Active || rule.status == Calibration)
  {
  }

  /** And why it holds a rule back: the first missing column, then the empty list,
      then what blocks the rule. */
  lemma GateReasons(rule: Rule, columns: set<string>, k: nat)
    requires k <= |rule.requiredColumns| && forall i :: 0 <= i < k ==> rule.requiredColumns[i] in columns
    requires k < |rule.requiredColumns| ==> rule.requiredColumns[k] !in columns
    ensures k < |rule.requiredColumns| ==> DormantReason(rule, columns) == Some("missing column: " + rule.requiredColumns[k])
    ensures k == |rule.requiredColumns| && rule.ruleClass.Domain? && rule.allowed == [] ==>
              DormantReason(rule, columns) == Some("empty allowed list")
    ensures k == |rule.requiredColumns| && !(rule.ruleClass.Domain? && rule.allowed == []) && rule.status.Dormant? ==>
      match rule.blockedBy
      case Unblocked => DormantReason(rule, columns) == Some("declared dormant in rule pack")
      case One(text) => DormantReason(rule, columns) == Some(if |text| > 0 then "blocked by: " + text else "declared dormant in rule pack")
      case Many(names) => DormantReason(rule, columns) == Some("blocked by: " + Join(names))
  {
    FirstMissingAt(rule.requiredColumns, columns, k);
  }

  lemma {:induction false} FirstMissingAt(names: seq<string>, columns: set<string>, k: nat)
    requires k <= |names| && (forall i :: 0 <= i < k ==> names[i] in columns) && (k < |names| ==> names[k] !in columns)
    ensures FirstMissing(names, columns) == if k < |names| then Some(names[k]) else None
  {
    if k > 0 { FirstMissingAt(names[1..], columns, k - 1); }
  }

  method GateRules(rules: seq<Rule>, columns: set<string>) returns (compilable: seq<Rule>, dormant: seq<RuleOutcome>)
    ensures compilable == Compilable(rules, columns)
    ensures dormant == Gated(rules, columns)
  {
    compilable, dormant := [], [];
    for i := 0 to |rules|
      invariant compilable == Compilable(rules[..i], columns)
      invariant dormant == Gated(rules[..i], columns)
    {
      assert rules[..i + 1][..i] == rules[..i];
      var reason := DormantReason(rules[i], columns);
      if reason.Some? {
        dormant := dormant + [DormantOutcome(rules[i], reason.value)];
      } else {
        compilable := compilable + [rules[i]];
      }
    }
    assert rules[..|rules|] == rules;
  }

  // ----- Conditions ----------------------------------------------------------

  function ParamName(prefix: string, j: nat): string { prefix + "_" + Numeral(j) }

  function ParamNames(prefix: string, n: nat): seq<string> {
    seq(n, j requires 0 <= j < n => ParamName(prefix, j))
  }

  /** dict(zip(names, values)): a later pair wins. */
  function Zip(names: seq<string>, values: seq<string>): Params
    requires |names| == |values|
  {
    if names == [] then map[]
    else Zip(names[..|names| - 1], values[..|names| - 1])[names[|names| - 1] := values[|names| - 1]]
  }

  /** _condition_for_rule: the predicate a rule fires on, and its parameters. */
  function ConditionFor(rule: Rule, prefix: string): (Cond, Params) {
    if rule.ruleClass.Domain? then
      var names := ParamNames(prefix, |rule.allowed|);
      (Both(Both(NotNull(rule.column), NotEmpty(rule.column)), NotIn(rule.column, names)), Zip(names, rule.allowed))
    else (rule.expr, map[])
  }

  const OWN_PREFIX := "allowed"

  function BatchPrefix(i: nat): string { "r" + Numeral(i) + "_allowed" }

  /** The parameters of a batch after its first k rules have been added. */
  function Merged(rules: seq<Rule>, k: nat): Params
    requires k <= |rules|
  {
    if k == 0 then map[] else Merged(rules, k - 1) + ConditionFor(rules[k - 1], BatchPrefix(k - 1)).1
  }

  method CompileBatch(rules: seq<Rule>) returns (conditions: seq<Cond>, params: Params, ids: seq<string>)
    ensures |conditions| == |ids| == |rules|
    ensures forall i :: 0 <= i < |rules| ==> conditions[i] == ConditionFor(rules[i], BatchPrefix(i)).0 && ids[i] == rules[i].id
    ensures params == Merged(rules, |rules|)
  {
    hide ConditionFor, BatchPrefix;
    conditions, params, ids := [], map[], [];
    for i := 0 to |rules|
      invariant |conditions| == |ids| == i && params == Merged(rules, i)
      invariant forall j :: 0 <= j < i ==> conditions[j] == ConditionFor(rules[j], BatchPrefix(j)).0 && ids[j] == rules[j].id
    {
      var (condition, ruleParams) := ConditionFor(rules[i], BatchPrefix(i));
      conditions := conditions + [condition];
      params := params + ruleParams;
      ids := ids + [rules[i].id];
    }
  }

  // ----- Names never collide -------------------------------------------------

  lemma BatchNameParts(i: nat, j: nat)
    ensures ParamName(BatchPrefix(i), j)[1..] == Numeral(i) + ['_'] + ("allowed_" + Numeral(j))
  {
    hide Numeral;
  }

  lemma BatchNameInjective(i: nat, j: nat, i': nat, j': nat)
    requires ParamName(BatchPrefix(i), j) == ParamName(BatchPrefix(i'), j')
    ensures i == i' && j == j'
  {
    hide Numeral, ParamName, BatchPrefix;
    var x, y := "allowed_" + Numeral(j), "allowed_" + Numeral(j');
    BatchNameParts(i, j);
    BatchNameParts(i', j');
    NoUnderscore(i);
    NoUnderscore(i');
    FirstBreak(Numeral(i), Numeral(i'), x, y, '_');
    assert x[8..] == Numeral(j) && y[8..] == Numeral(j');
    NumeralInjective(i, i');
    NumeralInjective(j, j');
  }

  lemma OwnNameInjective(prefix: string, j: nat, j': nat)
    requires ParamName(prefix, j) == ParamName(prefix, j')
    ensures j == j'
  {
    var s, n := ParamName(prefix, j), |prefix| + 1;
    assert s[n..] == Numeral(j) && s[n..] == Numeral(j');
    NumeralInjective(j, j');
  }

  const FROM_DATE := "from_date"
  const TO_DATE := "to_date"
  const WINDOW_NAMES: set<string> := {FROM_DATE, TO_DATE}

  /** No parameter name of a rule is a window parameter. */
  lemma NotWindowName(i: nat, j: nat)
    ensures ParamName(BatchPrefix(i), j) !in WINDOW_NAMES && ParamName(OWN_PREFIX, j) !in WINDOW_NAMES
    ensures ParamName(BatchPrefix(i), j) == "r" + Numeral(i) + "_allowed" + "_" + Numeral(j)
    ensures ParamName(OWN_PREFIX, j) == "allowed" + "_" + Numeral(j) && WINDOW_NAMES == {"from_date", "to_date"}
  {
    assert ParamName(BatchPrefix(i), j)[0] == 'r';
    assert ParamName(OWN_PREFIX, j)[0] == 'a';
  }

  lemma {:induction false} ZipAt(prefix: string, values: seq<string>, n: nat)
    requires n <= |values|
    ensures var z := Zip(ParamNames(prefix, n), values[..n]);
      && (forall j :: 0 <= j < n ==> ParamName(prefix, j) in z && z[ParamName(prefix, j)] == values[j])
      && (forall name :: name in z ==> exists j :: 0 <= j < n && name == ParamName(prefix, j))
  {
    if n > 0 {
      ZipAt(prefix, values, n - 1);
      assert ParamNames(prefix, n)[..n - 1] == ParamNames(prefix, n - 1);
      assert values[..n][..n - 1] == values[..n - 1];
      forall j | 0 <= j < n - 1 ensures ParamName(prefix, j) != ParamName(prefix, n - 1) {
        if ParamName(prefix, j) == ParamName(prefix, n - 1) { OwnNameInjective(prefix, j, n - 1); }
      }
    }
  }

  predicate Carries(env: Params, prefix: string, allowed: seq<string>) {
    forall j :: 0 <= j < |allowed| ==> ParamName(prefix, j) in env && env[ParamName(prefix, j)] == allowed[j]
  }

  ghost predicate OnlyNames(env: Params, prefix: string) {
    forall name :: name in env ==> exists j: nat :: name == ParamName(prefix, j)
  }

  /** A rule's own parameters are its allowed values under its own names. */
  lemma OwnParams(rule: Rule, prefix: string)
    ensures rule.ruleClass.Domain? ==> Carries(ConditionFor(rule, prefix).1, prefix, rule.allowed)
    ensures OnlyNames(ConditionFor(rule, prefix).1, prefix)
  {
    if rule.ruleClass.Domain? {
      ZipAt(prefix, rule.allowed, |rule.allowed|);
      assert rule.allowed[..|rule.allowed|] == rule.allowed;
    }
  }

  lemma CarriesOver(env: Params, own: Params, i: nat, k: nat, allowed: seq<string>)
    requires Carries(env, BatchPrefix(i), allowed) && OnlyNames(own, BatchPrefix(k)) && i != k
    ensures Carries(env + own, BatchPrefix(i), allowed)
  {
    hide ParamName, BatchPrefix;
    forall j | 0 <= j < |allowed|
      ensures ParamName(BatchPrefix(i), j) in env + own && (env + own)[ParamName(BatchPrefix(i), j)] == allowed[j]
    {
      var name := ParamName(BatchPrefix(i), j);
      if name in own {
        var j': nat :| name == ParamName(BatchPrefix(k), j');
        BatchNameInjective(i, j, k, j');
      }
    }
  }

  /** Merging overwrites nothing: every rule of a chunk of any size finds its own
      allowed values under its own names, and every name belongs to some rule. */
  lemma {:induction false} MergedAt(rules: seq<Rule>, k: nat)
    requires k <= |rules|
    ensures forall i :: 0 <= i < k && rules[i].ruleClass.Domain? ==> Carries(Merged(rules, k), BatchPrefix(i), rules[i].allowed)
    ensures forall name :: name in Merged(rules, k) ==> exists i: nat, j: nat :: i < k && name == ParamName(BatchPrefix(i), j)
  {
    hide ParamName, BatchPrefix, Carries, ConditionFor;
    if k > 0 {
      MergedAt(rules, k - 1);
      var own := ConditionFor(rules[k - 1], BatchPrefix(k - 1)).1;
      OwnParams(rules[k - 1], BatchPrefix(k - 1));
      forall i | 0 <= i < k && rules[i].ruleClass.Domain?
        ensures Carries(Merged(rules, k), BatchPrefix(i), rules[i].allowed)
      {
        if i < k - 1 {
          CarriesOver(Merged(rules, k - 1), own, i, k - 1, rules[i].allowed);
        } else {
          CarriesLast(Merged(rules, k - 1), own, BatchPrefix(i), rules[i].allowed);
        }
      }
    }
  }

  lemma CarriesLast(env: Params, own: Params, prefix: string, allowed: seq<string>)
    requires Carries(own, prefix, allowed)
    ensures Carries(env + own, prefix, allowed)
  {
    hide ParamName;
  }
}
