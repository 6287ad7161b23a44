/** Keyword mappings in tier order, the dictionaries built from them, and what a
    lookup in such a dictionary means. */
module DetectionIndex {
  import opened Common
  import opened Sorting

  datatype Mapping = Mapping(keyword: string, format: string, tier: int, circuit: Option<string>, naDefault: Option<string>,
                             normA: string, normB: string, tokens: set<string>)

  /** The text functions the engines call, left uninterpreted except where noted. */
  datatype Text = Text(lower: string -> string, trackA: string -> string, trackB: string -> string,
                       tokens: string -> set<string>, concat: string -> string, isSpace: char -> bool)

  // ----- Segments ------------------------------------------------------------

  function StripLeft(s: string, isSpace: char -> bool): string {
    if s != [] && isSpace(s[0]) then StripLeft(s[1..], isSpace) else s
  }

  function StripRight(s: string, isSpace: char -> bool): string {
    if s != [] && isSpace(s[|s| - 1]) then StripRight(s[..|s| - 1], isSpace) else s
  }

  function Strip(s: string, isSpace: char -> bool): string { StripRight(StripLeft(s, isSpace), isSpace) }

  ghost predicate Blank(s: string, isSpace: char -> bool) { forall i :: 0 <= i < |s| ==> isSpace(s[i]) }

  /** Stripping takes white space off both ends, and all of it. */
  lemma StripMeans(s: string, isSpace: char -> bool) returns (before: string, after: string)
    ensures s == before + Strip(s, isSpace) + after && Blank(before, isSpace) && Blank(after, isSpace)
    ensures Strip(s, isSpace) != "" ==> !isSpace(Strip(s, isSpace)[0]) && !isSpace(Strip(s, isSpace)[|Strip(s, isSpace)| - 1])
  {
    hide StripLeft, StripRight;
    before := LeftMeans(s, isSpace);
    after := RightMeans(StripLeft(s, isSpace), isSpace);
    assert before + (Strip(s, isSpace) + after) == before + Strip(s, isSpace) + after;
  }

  lemma {:induction false} LeftMeans(s: string, isSpace: char -> bool) returns (before: string)
    ensures s == before + StripLeft(s, isSpace) && Blank(before, isSpace)
    ensures StripLeft(s, isSpace) != "" ==> !isSpace(StripLeft(s, isSpace)[0])
  {
    before := "";
    if s != [] && isSpace(s[0]) {
      var rest := LeftMeans(s[1..], isSpace);
      before := [s[0]] + rest;
      assert s == [s[0]] + s[1..];
    }
  }

  lemma {:induction false} RightMeans(s: string, isSpace: char -> bool) returns (after: string)
    ensures s == StripRight(s, isSpace) + after && Blank(after, isSpace)
    ensures StripRight(s, isSpace) != "" ==> !isSpace(StripRight(s, isSpace)[|StripRight(s, isSpace)| - 1])
  {
    after := "";
    if s != [] && isSpace(s[|s| - 1]) {
      var rest := RightMeans(s[..|s| - 1], isSpace);
      after := rest + [s[|s| - 1]];
      assert s == s[..|s| - 1] + [s[|s| - 1]];
    }
  }

  const BAR := '|'

  /** amenity.split("|") */
  function Split(s: string): (parts: seq<string>)
    ensures parts != []
  {
    if s == [] then [""]
    else
      var front, last := Split(s[..|s| - 1]), s[|s| - 1];
      if last == BAR then front + [""] else front[|front| - 1 := front[|front| - 1] + [last]]
  }

  /** Joining texts with a bar joins their parts. */
  lemma {:induction false} SplitJoin(a: string, b: string)
    ensures Split(a + [BAR] + b) == Split(a) + Split(b)
  {
    if b == [] {
      assert (a + [BAR] + b)[..|a|] == a;
    } else {
      var n := |b| - 1;
      SplitJoin(a, b[..n]);
      assert (a + [BAR] + b)[..|a| + 1 + n] == a + [BAR] + b[..n];
    }
  }

  const IGNORED: set<string> := {
    "cc", "closed caption", "audio description", "reserved seating", "stadium", "no passes", "laser",
    "amc signature recliners", "prime at amc", "undefined", "\U{2022}", ""
  }

  predicate Dropped(t: Text, part: string) {
    t.lower(Strip(part, t.isSpace)) in IGNORED || Strip(part, t.isSpace) == "\U{2022}"
  }

  function CleanParts(t: Text, parts: seq<string>): seq<string> {
    if parts == [] then []
    else CleanParts(t, parts[..|parts| - 1]) + if Dropped(t, parts[|parts| - 1]) then [] else [Strip(parts[|parts| - 1], t.isSpace)]
  }

  function Segments(t: Text, amenity: string): seq<string> { CleanParts(t, Split(amenity)) }

  lemma {:induction false} CleanJoin(t: Text, a: seq<string>, b: seq<string>)
    ensures CleanParts(t, a + b) == CleanParts(t, a) + CleanParts(t, b)
  {
    if b == [] {
      assert a + b == a;
    } else {
      var n := |b| - 1;
      CleanJoin(t, a, b[..n]);
      assert (a + b)[..|a + b| - 1] == a + b[..n] && (a + b)[|a + b| - 1] == b[n];
    }
  }

  method SplitSegments(t: Text, amenity: string) returns (clean: seq<string>)
    ensures clean == Segments(t, amenity)
  {
    var raw := Split(amenity);
    clean := [];
    for i := 0 to |raw|
      invariant clean == CleanParts(t, raw[..i])
    {
      assert raw[..i + 1][..i] == raw[..i];
      var s := Strip(raw[i], t.isSpace);
      if t.lower(s) in IGNORED || s == "\U{2022}" { continue; }
      clean := clean + [s];
    }
    assert raw[..|raw|] == raw;
  }

  // ----- Tier order ----------------------------------------------------------

  function ByTier(): (Mapping, Mapping) -> bool { (a: Mapping, b: Mapping) => a.tier <= b.tier }

  function InTier(p: Mapping -> bool, tier: int): Mapping -> bool { (m: Mapping) => p(m) && m.tier == tier }

  function First(ms: seq<Mapping>, p: Mapping -> bool): Option<Mapping> {
    if ms == [] then None else if p(ms[0]) then Some(ms[0]) else First(ms[1..], p)
  }

  function Last(ms: seq<Mapping>, p: Mapping -> bool): Option<Mapping> {
    if ms == [] then None else if p(ms[|ms| - 1]) then Some(ms[|ms| - 1]) else Last(ms[..|ms| - 1], p)
  }

  lemma {:induction false} FirstIsPicked(ms: seq<Mapping>, p: Mapping -> bool)
    ensures First(ms, p) == if Pick(ms, p) == [] then None else Some(Pick(ms, p)[0])
    ensures First(ms, p).Some? ==> p(First(ms, p).value) && First(ms, p).value in ms
    ensures First(ms, p).None? ==> forall m :: m in ms ==> !p(m)
  {
    if ms != [] { FirstIsPicked(ms[1..], p); }
  }

  lemma {:induction false} LastIsPicked(ms: seq<Mapping>, p: Mapping -> bool)
    ensures Last(ms, p) == if Pick(ms, p) == [] then None else Some(Pick(ms, p)[|Pick(ms, p)| - 1])
    ensures Last(ms, p).Some? ==> p(Last(ms, p).value) && Last(ms, p).value in ms
    ensures Last(ms, p).None? ==> forall m :: m in ms ==> !p(m)
  {
    if ms != [] {
      var front, last := ms[..|ms| - 1], ms[|ms| - 1];
      LastIsPicked(front, p);
      assert ms == front + [last];
      PickConcat(front, [last], p);
      assert Pick([last], p) == if p(last) then [last] else [];
    }
  }

  lemma PickHead(m: Mapping, rest: seq<Mapping>, p: Mapping -> bool)
    ensures Pick([m] + rest, p) == (if p(m) then [m] else []) + Pick(rest, p)
  {
    assert ([m] + rest)[1..] == rest;
  }

  lemma Regroup(a: seq<Mapping>, b: seq<Mapping>, c: seq<Mapping>)
    ensures (a + b) + c == a + (b + c)
  {
  }

  lemma {:induction false} PickConcat(a: seq<Mapping>, b: seq<Mapping>, p: Mapping -> bool)
    ensures Pick(a + b, p) == Pick(a, p) + Pick(b, p)
  {
    if a == [] {
      assert a + b == b;
    } else {
      PickConcat(a[1..], b, p);
      hide Pick;
      PickHead(a[0], a[1..], p);
      PickHead(a[0], a[1..] + b, p);
      assert a == [a[0]] + a[1..] && a + b == [a[0]] + (a[1..] + b);
      Regroup(if p(a[0]) then [a[0]] else [], Pick(a[1..], p), Pick(b, p));
    }
  }

  lemma {:induction false} FirstLeast(ms: seq<Mapping>, p: Mapping -> bool)
    requires Ordered(ms, ByTier()) && First(ms, p).Some?
    ensures forall m :: m in ms && p(m) ==> First(ms, p).value.tier <= m.tier
    ensures First(ms, p) == First(ms, InTier(p, First(ms, p).value.tier))
  {
    if p(ms[0]) {
      forall m | m in ms && p(m) ensures ms[0].tier <= m.tier {
        var i :| 0 <= i < |ms| && ms[i] == m;
        if i > 0 { assert ByTier()(ms[0], ms[i]); }
      }
    } else {
      assert forall i, j :: 0 <= i < j < |ms[1..]| ==> ms[1..][i] == ms[i + 1] && ms[1..][j] == ms[j + 1];
      FirstLeast(ms[1..], p);
    }
  }

  lemma {:induction false} LastGreatest(ms: seq<Mapping>, p: Mapping -> bool)
    requires Ordered(ms, ByTier()) && Last(ms, p).Some?
    ensures forall m :: m in ms && p(m) ==> m.tier <= Last(ms, p).value.tier
    ensures Last(ms, p) == Last(ms, InTier(p, Last(ms, p).value.tier))
  {
    var n := |ms| - 1;
    if p(ms[n]) {
      forall m | m in ms && p(m) ensures m.tier <= ms[n].tier {
        var i :| 0 <= i < |ms| && ms[i] == m;
        if i < n { assert ByTier()(ms[i], ms[n]); }
      }
    } else {
      LastGreatest(ms[..n], p);
    }
  }

  /** Of the mappings p accepts: the lowest tier number, and the earliest entry there. */
  ghost predicate FirstInTierOrder(mappings: seq<Mapping>, p: Mapping -> bool, e: Mapping) {
    && e in mappings && p(e) && (forall m :: m in mappings && p(m) ==> e.tier <= m.tier)
    && First(mappings, InTier(p, e.tier)) == Some(e)
  }

  /** Of the mappings p accepts: the highest tier number, and the latest entry there. */
  ghost predicate LastInTierOrder(mappings: seq<Mapping>, p: Mapping -> bool, e: Mapping) {
    && e in mappings && p(e) && (forall m :: m in mappings && p(m) ==> m.tier <= e.tier)
    && Last(mappings, InTier(p, e.tier)) == Some(e)
  }

  lemma FirstTold(ms: seq<Mapping>, p: Mapping -> bool)
    ensures var w := First(Sort(ms, ByTier()), p);
      (w.None? <==> forall m :: m in ms ==> !p(m)) && (w.Some? ==> FirstInTierOrder(ms, p, w.value))
  {
    hide Sort, First;
    FirstOfSorted(ms, p);
    var w := First(Sort(ms, ByTier()), p);
    if w.Some? { FirstIsPicked(ms, InTier(p, w.value.tier)); }
  }

  lemma LastTold(ms: seq<Mapping>, p: Mapping -> bool)
    ensures var w := Last(Sort(ms, ByTier()), p);
      (w.None? <==> forall m :: m in ms ==> !p(m)) && (w.Some? ==> LastInTierOrder(ms, p, w.value))
  {
    hide Sort, Last;
    LastOfSorted(ms, p);
    var w := Last(Sort(ms, ByTier()), p);
    if w.Some? { LastIsPicked(ms, InTier(p, w.value.tier)); }
  }

  /** The mapping a first-writer-wins dictionary keeps, told from the unsorted list:
      lowest tier number, and the earliest of that tier. */
  lemma FirstOfSorted(ms: seq<Mapping>, p: Mapping -> bool)
    ensures var w := First(Sort(ms, ByTier()), p);
      && (w.None? <==> forall m :: m in ms ==> !p(m))
      && (w.Some? ==> (forall m :: m in ms && p(m) ==> w.value.tier <= m.tier) && w == First(ms, InTier(p, w.value.tier)))
  {
    hide Sort, First, Ordered;
    var sorted := Sort(ms, ByTier());
    SortSorts(ms, ByTier());
    SameMembers(sorted, ms);
    FirstIsPicked(sorted, p);
    if First(sorted, p).Some? {
      FirstLeast(sorted, p);
      var q := InTier(p, First(sorted, p).value.tier);
      SortStable(ms, ByTier(), q);
      FirstIsPicked(sorted, q);
      FirstIsPicked(ms, q);
    }
  }

  /** The mapping a last-writer-wins dictionary keeps: highest tier number, and the
      latest of that tier. */
  lemma LastOfSorted(ms: seq<Mapping>, p: Mapping -> bool)
    ensures var w := Last(Sort(ms, ByTier()), p);
      && (w.None? <==> forall m :: m in ms ==> !p(m))
      && (w.Some? ==> (forall m :: m in ms && p(m) ==> m.tier <= w.value.tier) && w == Last(ms, InTier(p, w.value.tier)))
  {
    hide Sort, Last, Ordered;
    var sorted := Sort(ms, ByTier());
    SortSorts(ms, ByTier());
    SameMembers(sorted, ms);
    LastIsPicked(sorted, p);
    if Last(sorted, p).Some? {
      LastGreatest(sorted, p);
      var q := InTier(p, Last(sorted, p).value.tier);
      SortStable(ms, ByTier(), q);
      LastIsPicked(sorted, q);
      LastIsPicked(ms, q);
    }
  }

  lemma SameMembers(a: seq<Mapping>, b: seq<Mapping>)
    requires multiset(a) == multiset(b)
    ensures forall m :: m in a <==> m in b
  {
    assert forall m :: m in a <==> m in multiset(a);
    assert forall m :: m in b <==> m in multiset(b);
  }

  // ----- Dictionaries --------------------------------------------------------

  function HasKey<K(==)>(key: Mapping -> K, k: K): Mapping -> bool { (m: Mapping) => key(m) == k }

  ghost predicate FirstWins<K(!new)>(d: map<K, Mapping>, ms: seq<Mapping>, key: Mapping -> K) {
    forall k :: First(ms, HasKey(key, k)) == if k in d then Some(d[k]) else None
  }

  ghost predicate LastWins<K(!new)>(d: map<K, Mapping>, ms: seq<Mapping>, key: Mapping -> K) {
    forall k :: Last(ms, HasKey(key, k)) == if k in d then Some(d[k]) else None
  }

  lemma {:induction false} FirstSnoc(ms: seq<Mapping>, m: Mapping, p: Mapping -> bool)
    ensures First(ms + [m], p) == if First(ms, p).Some? then First(ms, p) else if p(m) then Some(m) else None
  {
    if ms != [] {
      FirstSnoc(ms[1..], m, p);
      assert (ms + [m])[1..] == ms[1..] + [m];
    }
  }

  /** d.setdefault(key(m), m) for each m in order. */
  method IndexFirst<K(!new, ==)>(ms: seq<Mapping>, key: Mapping -> K) returns (d: map<K, Mapping>)
    ensures FirstWins(d, ms, key)
  {
    d := map[];
    for i := 0 to |ms|
      invariant FirstWins(d, ms[..i], key)
    {
      assert ms[..i + 1] == ms[..i] + [ms[i]];
      forall k ensures First(ms[..i + 1], HasKey(key, k)) == if First(ms[..i], HasKey(key, k)).Some? then First(ms[..i], HasKey(key, k))
                                                          else if key(ms[i]) == k then Some(ms[i]) else None {
        FirstSnoc(ms[..i], ms[i], HasKey(key, k));
      }
      if key(ms[i]) !in d { d := d[key(ms[i]) := ms[i]]; }
    }
    assert ms[..|ms|] == ms;
  }

  /** {key(m): m for m in ms} */
  method IndexLast<K(!new, ==)>(ms: seq<Mapping>, key: Mapping -> K) returns (d: map<K, Mapping>)
    ensures LastWins(d, ms, key)
  {
    d := map[];
    for i := 0 to |ms|
      invariant LastWins(d, ms[..i], key)
    {
      assert ms[..i + 1][..i] == ms[..i] && ms[..i + 1][i] == ms[i];
      d := d[key(ms[i]) := ms[i]];
    }
    assert ms[..|ms|] == ms;
  }

  function NormA(): Mapping -> string { (m: Mapping) => m.normA }

  function NormB(): Mapping -> string { (m: Mapping) => m.normB }

  // ----- The corruption-tolerant track ---------------------------------------

  predicate TokenMatch(t: Text, segment: string, m: Mapping) { m.tokens != {} && m.tokens <= t.tokens(segment) }

  predicate PrefixMatch(t: Text, minLen: int, segment: string, m: Mapping) {
    |t.concat(m.keyword)| >= minLen && t.concat(m.keyword) <= t.concat(segment)
  }

  function TrackC(t: Text, minLen: int, segment: string): Mapping -> bool {
    (m: Mapping) => m.tokens != {} && (PrefixMatch(t, minLen, segment, m) || TokenMatch(t, segment, m))
  }

  predicate WorthScanning(t: Text, minLen: int, segment: string) {
    t.tokens(segment) != {} || (t.concat(segment) != "" && |t.concat(segment)| >= minLen)
  }

  /** When a mapping matches loosely: every one of its tokens is among the segment's, or
      its keyword, long enough, begins the segment, spaces and punctuation aside; and
      it has tokens at all. */
  lemma LooseMatchMeans(t: Text, minLen: int, segment: string, m: Mapping)
    ensures TrackC(t, minLen, segment)(m) <==>
      && (exists w :: w in m.tokens)
      && (|| (forall w :: w in m.tokens ==> w in t.tokens(segment))
          || (|t.concat(m.keyword)| >= minLen && exists rest :: t.concat(segment) == t.concat(m.keyword) + rest))
  {
    var whole, part := t.concat(segment), t.concat(m.keyword);
    if part <= whole { assert whole == part + whole[|part|..]; }
    assert m.tokens != {} <==> exists w :: w in m.tokens;
  }

  /** When the scan is tried at all. */
  predicate ScanTried(t: Text, minLen: int, segment: string) {
    |t.tokens(segment)| > 0 || (|t.concat(segment)| > 0 && minLen <= |t.concat(segment)|)
  }

  lemma ScanTriedMeans(t: Text, minLen: int, segment: string)
    ensures WorthScanning(t, minLen, segment) <==> ScanTried(t, minLen, segment)
  {
  }

  /** The guard before the scan skips nothing: whenever the minimum length is
      positive, a segment that fails it matches no mapping. */
  lemma GuardSkipsNothing(t: Text, minLen: int, segment: string, m: Mapping)
    requires minLen > 0 && TrackC(t, minLen, segment)(m)
    ensures WorthScanning(t, minLen, segment)
  {
    if TokenMatch(t, segment, m) {
      var w :| w in m.tokens;
      assert w in t.tokens(segment);
    }
  }

  // ----- Hits ----------------------------------------------------------------

  datatype Track = A | B | C

  datatype Hit = Hit(mapping: Mapping, track: Track, pos: nat)

  function TrackOrder(track: Track): nat { match track case A => 0 case B => 1 case C => 2 }

  /** The loop over hits keeps the first and replaces it when a later one is better. */
  function Fold(hits: seq<Option<Hit>>, better: (Hit, Hit) -> bool): Option<Hit> {
    if hits == [] then None
    else
      var best, next := Fold(hits[..|hits| - 1], better), hits[|hits| - 1];
      if next.None? then best
      else if best.None? || better(next.value, best.value) then next
      else best
  }

  ghost predicate Positioned(hits: seq<Option<Hit>>) {
    forall i :: 0 <= i < |hits| && hits[i].Some? ==> hits[i].value.pos == i
  }

  /** One entry per segment: its match, with its position. */
  function HitsFrom(segments: seq<string>, matcher: string -> Option<(Mapping, Track)>): (hits: seq<Option<Hit>>)
    ensures Positioned(hits)
  {
    seq(|segments|, i requires 0 <= i < |segments| =>
      var r := matcher(segments[i]);
      if r.None? then None else Some(Hit(r.value.0, r.value.1, i)))
  }

  /** Two comparisons that agree on later-against-earlier keep the same hit. */
  lemma {:induction false} FoldSame(hits: seq<Option<Hit>>, p: (Hit, Hit) -> bool, q: (Hit, Hit) -> bool)
    requires Positioned(hits)
    requires forall next: Hit, best: Hit :: next.pos > best.pos ==> p(next, best) == q(next, best)
    ensures Fold(hits, p) == Fold(hits, q)
    ensures Fold(hits, p).Some? ==> Fold(hits, p).value.pos < |hits|
  {
    if hits != [] { FoldSame(hits[..|hits| - 1], p, q); }
  }
}
