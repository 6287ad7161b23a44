/** The data of a dqscan run: rules, SQL conditions under three-valued logic, the
    scanned table, and the per-rule outcomes. */
module ScanModel {
  import opened Common

  // ----- SQL values and conditions ------------------------------------------

  /** A cell of movies_shows: NULL or a value, written as text. */
  datatype Cell = Null | Text(s: string)

  type Row = map<string, Cell>

  function Column(row: Row, name: string): Cell {
    if name in row then row[name] else Null
  }

  /** The bind parameters of one statement. */
  type Params = map<string, string>

  function Restrict(env: Params, names: set<string>): Params {
    map n | n in names && n in env :: env[n]
  }

  datatype Truth = True | False | Unknown

  function And(a: Truth, b: Truth): Truth {
    if a == False || b == False then False
    else if a == True && b == True then True
    else Unknown
  }

  /** A predicate over one row.  Raw is an authored expression: its text is opaque,
      it mentions some bind names, and its meaning depends on nothing else. */
  datatype Cond =
    | Raw(names: set<string>, meaning: (Row, Params) -> Truth)
    | NotNull(column: string)
    | NotEmpty(column: string)
    | NotIn(column: string, params: seq<string>)
    | Both(left: Cond, right: Cond)

  function BindNames(c: Cond): set<string> {
    match c
    case Raw(names, _) => names
    case NotNull(_) => {}
    case NotEmpty(_) => {}
    case NotIn(_, params) => set n | n in params
    case Both(l, r) => BindNames(l) + BindNames(r)
  }

  function Eval(c: Cond, row: Row, env: Params): Truth {
    match c
    case Raw(names, meaning) => meaning(row, Restrict(env, names))
    case NotNull(col) => if Column(row, col) == Null then False else True
    case NotEmpty(col) =>
      var v := Column(row, col);
      if v == Null then Unknown else if v.s == "" then False else True
    case NotIn(col, params) =>
      var v := Column(row, col);
      if v == Null then Unknown
      else if exists i :: 0 <= i < |params| && params[i] in env && env[params[i]] == v.s then False
      else True
    case Both(l, r) => And(Eval(l, row, env), Eval(r, row, env))
  }

  /** Evaluation only looks at the bind names a condition mentions. */
  lemma {:induction false} EvalDependsOnNames(c: Cond, row: Row, env: Params, env': Params)
    requires Restrict(env, BindNames(c)) == Restrict(env', BindNames(c))
    ensures Eval(c, row, env) == Eval(c, row, env')
  {
    match c
    case Raw(names, _) =>
    case NotNull(_) =>
    case NotEmpty(_) =>
    case NotIn(_, params) =>
      forall i | 0 <= i < |params|
        ensures (params[i] in env <==> params[i] in env') && (params[i] in env ==> env[params[i]] == env'[params[i]])
      {
        RestrictAt(env, env', BindNames(c), params[i]);
      }
    case Both(l, r) =>
      RestrictNarrow(env, env', BindNames(c), BindNames(l));
      RestrictNarrow(env, env', BindNames(c), BindNames(r));
      EvalDependsOnNames(l, row, env, env');
      EvalDependsOnNames(r, row, env, env');
  }

  lemma RestrictAt(env: Params, env': Params, names: set<string>, n: string)
    requires Restrict(env, names) == Restrict(env', names) && n in names
    ensures n in env <==> n in env'
    ensures n in env ==> env[n] == env'[n]
  {
    assert n in Restrict(env, names) <==> n in env;
    assert n in Restrict(env', names) <==> n in env';
    if n in env { assert Restrict(env, names)[n] == env[n] && Restrict(env', names)[n] == env'[n]; }
  }

  lemma RestrictNarrow(env: Params, env': Params, names: set<string>, fewer: set<string>)
    requires Restrict(env, names) == Restrict(env', names) && fewer <= names
    ensures Restrict(env, fewer) == Restrict(env', fewer)
  {
    forall n | n in fewer
      ensures (n in env <==> n in env') && (n in env ==> env[n] == env'[n])
    {
      RestrictAt(env, env', names, n);
    }
  }

  // ----- COUNT, SUM(CASE ...) and LIMIT --------------------------------------

  /** SELECT ... WHERE c: a row is kept when c is true, not when it is unknown. */
  function Where(rows: seq<Row>, c: Cond, env: Params): seq<Row> {
    if rows == [] then []
    else (if Eval(c, rows[0], env) == True then [rows[0]] else []) + Where(rows[1..], c, env)
  }

  function CountWhere(rows: seq<Row>, c: Cond, env: Params): nat {
    |Where(rows, c, env)|
  }

  /** SUM(CASE WHEN c THEN 1 ELSE 0 END): NULL over no rows. */
  function SumCase(rows: seq<Row>, c: Cond, env: Params): Option<int> {
    if rows == [] then None else Some(SumOnes(rows, c, env))
  }

  function SumOnes(rows: seq<Row>, c: Cond, env: Params): int {
    if rows == [] then 0
    else (if Eval(c, rows[0], env) == True then 1 else 0) + SumOnes(rows[1..], c, env)
  }

  function OrZero(v: Option<int>): int { if v.None? then 0 else v.value }

  /** LIMIT n, in the order the table is scanned. */
  function Limit(rows: seq<Row>, n: nat): seq<Row> {
    if |rows| <= n then rows else rows[..n]
  }

  /** One pass over the window counts what a separate filtered scan counts. */
  lemma {:induction false} SumIsCount(rows: seq<Row>, window: Cond, c: Cond, env: Params)
    ensures OrZero(SumCase(Where(rows, window, env), c, env)) == CountWhere(rows, Both(window, c), env)
  {
    SumOnesIsCount(rows, window, c, env);
  }

  lemma {:induction false} SumOnesIsCount(rows: seq<Row>, window: Cond, c: Cond, env: Params)
    ensures SumOnes(Where(rows, window, env), c, env) == CountWhere(rows, Both(window, c), env)
  {
    if rows != [] {
      SumOnesIsCount(rows[1..], window, c, env);
      if Eval(window, rows[0], env) == True {
        var kept := Where(rows, window, env);
        assert kept == [rows[0]] + Where(rows[1..], window, env);
        assert kept[0] == rows[0] && kept[1..] == Where(rows[1..], window, env);
      } else {
        assert Where(rows, window, env) == Where(rows[1..], window, env);
      }
    }
  }

  /** Statements that agree on the bind names of a condition select the same rows. */
  lemma {:induction false} WhereDependsOnNames(rows: seq<Row>, c: Cond, env: Params, c': Cond, env': Params)
    requires forall row :: Eval(c, row, env) == Eval(c', row, env')
    ensures Where(rows, c, env) == Where(rows, c', env')
  {
    if rows != [] { WhereDependsOnNames(rows[1..], c, env, c', env'); }
  }

  // ----- Rules and outcomes --------------------------------------------------

  datatype RuleClass = Presence | Format | CrossColumn | Domain | CrossRow | Custom | CrossTable | Other(name: string)

  predicate Batchable(c: RuleClass) {
    c.Presence? || c.Format? || c.CrossColumn? || c.Domain?
  }

  datatype Status = Active | Calibration | Dormant

  /** blocked_by: absent, one text, or a list of names. */
  datatype Blocker = Unblocked | One(text: string) | Many(names: seq<string>)

  /** `expr` is the authored expression after its placeholders were substituted. */
  datatype Rule = Rule(id: string, ruleClass: RuleClass, status: Status, requiredColumns: seq<string>,
                       blockedBy: Blocker, column: string, allowed: seq<string>, expr: Cond)

  datatype RunStatus = RanActive | RanCalibration | RanDormant | RanError

  /** Why a statement failed: the server said so, or a bind name had no value. */
  datatype SqlError =
    | TimedOut
    | Failed(message: string)
    | Unbound(query: Query)

  datatype Query = BatchQuery(ids: seq<string>) | CountQuery(id: string) | DetailQuery(id: string)

  datatype RuleOutcome = RuleOutcome(rule: Rule, runStatus: RunStatus, count: Option<int>, percentage: Option<real>,
                                     detailRows: seq<Row>, truncated: bool, needsCalibration: bool,
                                     error: Option<SqlError>, note: string)

  function DormantOutcome(rule: Rule, reason: string): RuleOutcome {
    RuleOutcome(rule, RanDormant, None, None, [], false, false, None, reason)
  }

  function ErrorOutcome(rule: Rule, error: SqlError): RuleOutcome {
    RuleOutcome(rule, RanError, None, None, [], false, false, Some(error), "")
  }

  function CompileErrorOutcome(rule: Rule, message: string): RuleOutcome {
    RuleOutcome(rule, RanError, None, None, [], false, false, None, message)
  }
}
