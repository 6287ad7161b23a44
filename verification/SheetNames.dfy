/** Sheet titles of the scan report: one per firing outcome, cleaned, cut to the
    length a workbook allows, and made unique by a numbered suffix. */
module SheetNames {
  import opened Common
  import opened ScanModel
  import opened Decimal

  const MAX_TITLE: nat := 31
  const FORBIDDEN := "[]:*?/\\"

  predicate Allowed(s: string) {
    forall i :: 0 <= i < |s| ==> s[i] !in FORBIDDEN
  }

  function Clean(id: string): (s: string)
    ensures Allowed(s)
    ensures Allowed(id) ==> s == id
  {
    if id == [] then [] else (if id[0] in FORBIDDEN then [] else [id[0]]) + Clean(id[1..])
  }

  /** Cleaning goes character by character ... */
  lemma {:induction false} CleanJoins(a: string, b: string)
    ensures Clean(a + b) == Clean(a) + Clean(b)
  {
    hide Clean, Allowed;
    if a == [] {
      assert a + b == b;
      CleanNone();
    } else {
      CleanJoins(a[1..], b);
      CleanHead(a);
      CleanHead(a + b);
      assert (a + b)[1..] == a[1..] + b && (a + b)[0] == a[0];
      Regroup(Clean([a[0]]), Clean(a[1..]), Clean(b));
    }
  }

  lemma Regroup(a: string, b: string, c: string)
    ensures (a + b) + c == a + (b + c)
  {
  }

  lemma CleanNone()
    ensures Clean([]) == []
  {
  }

  lemma CleanHead(s: string)
    requires s != []
    ensures Clean(s) == Clean([s[0]]) + Clean(s[1..])
  {
    assert [s[0]][0] == s[0] && [s[0]][1..] == [];
    assert Clean([]) == [];
  }

  /** ... and drops only these seven. */
  lemma CleanChar(c: char)
    ensures Clean([c]) == if c in ['[', ']', ':', '*', '?', '/', '\\'] then [] else [c]
  {
    assert [c][1..] == [] && Clean([]) == [];
    assert FORBIDDEN == ['[', ']', ':', '*', '?', '/', '\\'];
  }

  /** s[:hi] as the source language reads it: a negative bound counts from the end. */
  function Slice(s: string, hi: int): (r: string)
    ensures r <= s
    ensures |r| == if hi >= |s| then |s| else if hi >= 0 then hi else if |s| + hi >= 0 then |s| + hi else 0
  {
    if hi >= |s| then s else if hi >= 0 then s[..hi] else if |s| + hi >= 0 then s[..|s| + hi] else []
  }

  function Base(id: string): (s: string)
    ensures s != [] && Allowed(s) && |s| <= MAX_TITLE
  {
    var name := Slice(Clean(id), MAX_TITLE);
    if name == [] then "rule" else name
  }

  /** The base name is the cleaned id cut to a title's length, unless nothing is left. */
  lemma BaseIsCut(id: string)
    ensures Clean(id) == "" ==> Base(id) == "rule"
    ensures Clean(id) != "" ==> Base(id) <= Clean(id) && (Base(id) == Clean(id) || |Base(id)| == 31)
  {
    hide Clean;
  }

  function Suffix(n: nat): string { "_" + Numeral(n) }

  function Candidate(base: string, n: nat): string {
    Slice(base, MAX_TITLE - |Suffix(n)|) + Suffix(n)
  }

  /** A candidate fits a title exactly while its suffix does. */
  lemma CandidateFits(base: string, n: nat)
    requires Allowed(base) && base != []
    ensures Allowed(Candidate(base, n)) && Candidate(base, n) != []
    ensures |Candidate(base, n)| <= MAX_TITLE <==> |Suffix(n)| <= MAX_TITLE
  {
    hide Slice, Numeral;
    assert forall i :: 0 <= i < |Numeral(n)| ==> Numeral(n)[i] in DIGITS;
  }

  /** The digits after the last underscore give the suffix back. */
  lemma CandidateInjective(base: string, n: nat, m: nat)
    requires Candidate(base, n) == Candidate(base, m)
    ensures n == m
  {
    hide Slice, Numeral;
    NoUnderscore(n);
    NoUnderscore(m);
    LastBreak(Slice(base, MAX_TITLE - |Suffix(n)|), Slice(base, MAX_TITLE - |Suffix(m)|), Numeral(n), Numeral(m), '_');
    NumeralInjective(n, m);
  }

  /** The first n candidates, as a set. */
  function Candidates(base: string, n: nat): set<string> {
    if n == 0 then {} else Candidates(base, n - 1) + {Candidate(base, n)}
  }

  lemma {:induction false} CandidatesAre(base: string, n: nat)
    ensures |Candidates(base, n)| == n
    ensures forall c :: c in Candidates(base, n) ==> exists m :: 1 <= m <= n && c == Candidate(base, m)
  {
    hide Candidate;
    if n > 0 {
      CandidatesAre(base, n - 1);
      if Candidate(base, n) in Candidates(base, n - 1) {
        var m :| 1 <= m <= n - 1 && Candidate(base, n) == Candidate(base, m);
        CandidateInjective(base, n, m);
      }
    }
  }

  /** Pigeonhole: n used candidates need n used names. */
  lemma UsedBound(base: string, n: nat, used: set<string>)
    requires Candidates(base, n) <= used
    ensures n <= |used|
  {
    CandidatesAre(base, n);
    SubsetSize(Candidates(base, n), used);
  }

  lemma NoCandidates(base: string)
    ensures Candidates(base, 0) == {}
  {
  }

  lemma NextCandidate(base: string, n: nat)
    requires n > 0
    ensures Candidates(base, n) == Candidates(base, n - 1) + {Candidate(base, n)}
  {
  }

  lemma ShortCandidate(base: string, n: nat)
    requires n < Pow10(MAX_TITLE - 1)
    ensures |Candidate(base, n)| <= MAX_TITLE
  {
    hide Pow10, Numeral;
    NumeralLength(n, MAX_TITLE - 1);
  }

  ghost predicate LeastFree(base: string, used: set<string>, n: nat) {
    n >= 1 && Candidate(base, n) !in used && forall m :: 1 <= m < n ==> Candidate(base, m) in used
  }

  /** The title an id gets when these titles are taken. */
  ghost predicate Chosen(title: string, id: string, used: set<string>) {
    if Base(id) !in used then title == Base(id)
    else exists n: nat :: LeastFree(Base(id), used, n) && title == Candidate(Base(id), n)
  }

  lemma ChosenOnce(title: string, title': string, id: string, used: set<string>)
    requires Chosen(title, id, used) && Chosen(title', id, used)
    ensures title == title'
  {
    hide Candidate, Base;
    if Base(id) in used {
      var n: nat :| LeastFree(Base(id), used, n) && title == Candidate(Base(id), n);
      var m: nat :| LeastFree(Base(id), used, m) && title' == Candidate(Base(id), m);
      assert !(n < m) && !(m < n);
    }
  }

  /** The search ends within one try more than there are used titles. */
  method SanitizeSheetName(id: string, used: set<string>) returns (title: string)
    ensures Chosen(title, id, used)
    ensures Base(id) in used ==> exists n: nat :: n <= |used| + 1 && LeastFree(Base(id), used, n) && title == Candidate(Base(id), n)
    ensures title !in used && title != [] && Allowed(title)
    ensures |used| + 1 < Pow10(MAX_TITLE - 1) ==> |title| <= MAX_TITLE
  {
    hide Base, Candidate, Pow10, Candidates, Allowed;
    title := Base(id);
    if title !in used { return; }
    NoCandidates(title);
    var suffix := 1;
    while true
      invariant 1 <= suffix
      invariant Candidates(title, suffix - 1) <= used
      invariant forall m :: 1 <= m < suffix ==> Candidate(title, m) in used
      decreases |used| + 1 - suffix
    {
      UsedBound(title, suffix - 1, used);
      var candidate := Candidate(title, suffix);
      CandidateFits(title, suffix);
      if candidate !in used {
        assert LeastFree(title, used, suffix);
        if |used| + 1 < Pow10(MAX_TITLE - 1) { ShortCandidate(title, suffix); }
        return candidate;
      }
      NextCandidate(title, suffix);
      UsedBound(title, suffix, used);
      suffix := suffix + 1;
    }
  }

  // ----- The workbook --------------------------------------------------------

  predicate Fires(o: RuleOutcome) {
    (o.runStatus.RanActive? || o.runStatus.RanCalibration?) && o.count.Some? && o.count.value != 0 && o.detailRows != []
  }

  function Firing(outcomes: seq<RuleOutcome>): seq<RuleOutcome> {
    if outcomes == [] then []
    else Firing(outcomes[..|outcomes| - 1]) + if Fires(outcomes[|outcomes| - 1]) then [outcomes[|outcomes| - 1]] else []
  }

  /** An outcome gets a sheet when it ran, found something, and its details are there. */
  lemma {:induction false} FiringMembers(outcomes: seq<RuleOutcome>)
    ensures forall o :: o in Firing(outcomes) <==>
              && o in outcomes && o.runStatus in [RanActive, RanCalibration]
              && o.count.Some? && o.count.value != 0 && |o.detailRows| > 0
  {
    if outcomes != [] {
      var front, last := outcomes[..|outcomes| - 1], outcomes[|outcomes| - 1];
      FiringMembers(front);
      assert outcomes == front + [last];
    }
  }

  function FixedTitles(calibration: bool, dormant: bool): seq<string> {
    ["Run summary"] + (if calibration then ["Needs calibration"] else []) + if dormant then ["Dormant rules"] else []
  }

  function TitleSet(titles: seq<string>): set<string> { set i | 0 <= i < |titles| :: titles[i] }

  ghost predicate Titled(titles: seq<string>, fixed: seq<string>, firing: seq<RuleOutcome>) {
    && |titles| == |fixed| + |firing| && fixed <= titles
    && forall k :: |fixed| <= k < |titles| ==> Chosen(titles[k], firing[k - |fixed|].rule.id, TitleSet(titles[..k]))
  }

  ghost predicate PairwiseDistinct(titles: seq<string>) {
    forall i, j :: 0 <= i < j < |titles| ==> titles[i] != titles[j]
  }

  ghost predicate GoodTitles(titles: seq<string>) {
    forall i :: 0 <= i < |titles| ==> titles[i] != [] && Allowed(titles[i]) && |titles[i]| <= MAX_TITLE
  }

  lemma FixedTitlesGood(calibration: bool, dormant: bool)
    ensures PairwiseDistinct(FixedTitles(calibration, dormant)) && GoodTitles(FixedTitles(calibration, dormant))
  {
    hide Allowed;
    RunSummaryGood();
    NeedsCalibrationGood();
    DormantRulesGood();
    var fixed := FixedTitles(calibration, dormant);
    assert fixed[0][0] == 'R';
    assert calibration ==> fixed[1][0] == 'N';
    assert dormant ==> fixed[|fixed| - 1][0] == 'D';
  }

  lemma RunSummaryGood()
    ensures Allowed("Run summary") && |"Run summary"| == 11
  {
  }

  lemma NeedsCalibrationGood()
    ensures Allowed("Needs calibration") && |"Needs calibration"| == 17
  {
  }

  lemma DormantRulesGood()
    ensures Allowed("Dormant rules") && |"Dormant rules"| == 13
  {
  }

  /** The titles of the sheets that are written before any rule's. */
  method FixedSheets(calibration: bool, dormant: bool) returns (used: set<string>)
    ensures used == TitleSet(FixedTitles(calibration, dormant)) && |used| <= |FixedTitles(calibration, dormant)|
  {
    hide TitleSet, FixedTitles;
    used := {"Run summary"};
    if calibration { used := used + {"Needs calibration"}; }
    if dormant { used := used + {"Dormant rules"}; }
    FixedSet(calibration, dormant);
  }

  /** One sheet per firing outcome, in order; every title distinct and acceptable. */
  method WriteReport(outcomes: seq<RuleOutcome>, calibration: bool, dormant: bool) returns (titles: seq<string>)
    ensures Titled(titles, FixedTitles(calibration, dormant), Firing(outcomes))
    ensures PairwiseDistinct(titles)
    ensures |titles| < Pow10(MAX_TITLE - 1) ==> GoodTitles(titles)
  {
    hide Chosen, Allowed, Pow10, Titled, TitleSet, PairwiseDistinct, GoodTitles, FixedTitles, Fires, Firing, Base, Candidate, LeastFree;
    var fixed := FixedTitles(calibration, dormant);
    FixedTitlesGood(calibration, dormant);
    titles := fixed;
    var used := FixedSheets(calibration, dormant);
    NoneTitled(fixed);
    FiringNone();
    for i := 0 to |outcomes|
      invariant Titled(titles, fixed, Firing(outcomes[..i]))
      invariant used == TitleSet(titles) && |used| <= |titles|
      invariant PairwiseDistinct(titles)
      invariant |titles| < Pow10(MAX_TITLE - 1) ==> GoodTitles(titles)
    {
      FiringNext(outcomes, i);
      if !Fires(outcomes[i]) { continue; }
      var title := SanitizeSheetName(outcomes[i].rule.id, used);
      TitledNext(titles, fixed, Firing(outcomes[..i]), outcomes[i], title);
      GoodNext(titles, title);
      used := used + {title};
      titles := titles + [title];
    }
    assert outcomes[..|outcomes|] == outcomes;
  }

  lemma FiringNone()
    ensures Firing([]) == []
  {
  }

  lemma FiringNext(outcomes: seq<RuleOutcome>, i: nat)
    requires i < |outcomes|
    ensures Firing(outcomes[..i + 1]) == if Fires(outcomes[i]) then Firing(outcomes[..i]) + [outcomes[i]] else Firing(outcomes[..i])
  {
    hide Fires;
    assert outcomes[..i + 1][..i] == outcomes[..i];
    assert Firing(outcomes[..i]) + [] == Firing(outcomes[..i]);
  }

  lemma NoneTitled(fixed: seq<string>)
    ensures Titled(fixed, fixed, [])
  {
  }

  lemma GoodNext(titles: seq<string>, title: string)
    requires title !in TitleSet(titles) && title != [] && Allowed(title)
    ensures PairwiseDistinct(titles) ==> PairwiseDistinct(titles + [title])
    ensures GoodTitles(titles) && |title| <= MAX_TITLE ==> GoodTitles(titles + [title])
  {
    hide Allowed;
    assert forall i :: 0 <= i < |titles| ==> titles[i] in TitleSet(titles);
  }

  lemma FixedSet(calibration: bool, dormant: bool)
    ensures var used := {"Run summary"} + (if calibration then {"Needs calibration"} else {}) + if dormant then {"Dormant rules"} else {};
      && used == TitleSet(FixedTitles(calibration, dormant)) && |used| <= |FixedTitles(calibration, dormant)|
  {
    var fixed := FixedTitles(calibration, dormant);
    assert fixed[0] == "Run summary";
    if calibration { assert fixed[1] == "Needs calibration"; }
    if dormant { assert fixed[|fixed| - 1] == "Dormant rules"; }
    assert TitleSet(fixed) == {"Run summary"} + (if calibration then {"Needs calibration"} else {}) + if dormant then {"Dormant rules"} else {};
  }

  lemma TitledNext(titles: seq<string>, fixed: seq<string>, firing: seq<RuleOutcome>, o: RuleOutcome, title: string)
    requires Titled(titles, fixed, firing) && Chosen(title, o.rule.id, TitleSet(titles))
    ensures Titled(titles + [title], fixed, firing + [o])
    ensures TitleSet(titles + [title]) == TitleSet(titles) + {title}
  {
    hide Chosen;
    assert forall k :: 0 <= k <= |titles| ==> (titles + [title])[..k] == titles[..k];
    assert titles[..|titles|] == titles;
    assert (titles + [title])[|titles|] == title;
    forall t | t in TitleSet(titles) ensures t in TitleSet(titles + [title]) {
      var i :| 0 <= i < |titles| && titles[i] == t;
      assert (titles + [title])[i] == t;
    }
  }
}
