/** The international engine: dictionaries whose first writer wins, and the first hit
    of the lowest tier. */
module DetectionIntl {
  import opened Common
  import opened Sorting
  import opened DetectionIndex

  datatype Index = Index(mappings: seq<Mapping>, trackA: map<string, Mapping>, trackB: map<string, Mapping>,
                         scanned: seq<Mapping>, concatExact: map<string, Mapping>)

  function HasTokens(): Mapping -> bool { (m: Mapping) => m.tokens != {} }

  function HasConcat(t: Text): Mapping -> bool { (m: Mapping) => t.concat(m.keyword) != "" }

  function ConcatOf(t: Text): Mapping -> string { (m: Mapping) => t.concat(m.keyword) }

  ghost predicate Lookups(idx: Index, t: Text) {
    && FirstWins(idx.trackA, idx.mappings, NormA())
    && FirstWins(idx.trackB, idx.mappings, NormB())
    && idx.scanned == Pick(idx.mappings, HasTokens())
    && FirstWins(idx.concatExact, Pick(idx.mappings, HasConcat(t)), ConcatOf(t))
  }

  method BuildIndex(t: Text, mappings: seq<Mapping>) returns (idx: Index)
    ensures Lookups(idx, t) && idx.mappings == Sort(mappings, ByTier())
  {
    hide FirstWins, Sort, Pick;
    var sorted := Sort(mappings, ByTier());
    var a := IndexFirst(sorted, NormA());
    var b := IndexFirst(sorted, NormB());
    var c := IndexFirst(Pick(sorted, HasConcat(t)), ConcatOf(t));
    idx := Index(sorted, a, b, Pick(sorted, HasTokens()), c);
  }

  // ----- One segment ---------------------------------------------------------

  /** The four tests a segment goes through, each over the mappings in tier order. */
  function SameConcat(t: Text, segment: string): Mapping -> bool {
    (m: Mapping) => t.concat(segment) != "" && t.concat(m.keyword) == t.concat(segment)
  }

  function MatchOf(ms: seq<Mapping>, t: Text, minLen: int, segment: string): Option<(Mapping, Track)> {
    var a := First(ms, HasKey(NormA(), t.trackA(segment)));
    var b := First(ms, HasKey(NormB(), t.trackB(segment)));
    var exact := First(ms, SameConcat(t, segment));
    var loose := First(ms, TrackC(t, minLen, segment));
    if a.Some? then Some((a.value, A))
    else if b.Some? then Some((b.value, B))
    else if exact.Some? then Some((exact.value, C))
    else if WorthScanning(t, minLen, segment) && loose.Some? then Some((loose.value, C))
    else None
  }

  lemma {:induction false} FirstOfPicked(ms: seq<Mapping>, kept: Mapping -> bool, p: Mapping -> bool, both: Mapping -> bool)
    requires forall m :: both(m) <==> kept(m) && p(m)
    ensures First(Pick(ms, kept), p) == First(ms, both)
  {
    if ms != [] {
      FirstOfPicked(ms[1..], kept, p, both);
      if kept(ms[0]) {
        assert Pick(ms, kept)[0] == ms[0] && Pick(ms, kept)[1..] == Pick(ms[1..], kept);
      } else {
        assert Pick(ms, kept) == Pick(ms[1..], kept);
      }
    }
  }

  /** Each dictionary lookup and the scan find what a linear search in tier order
      finds. */
  method MatchSegment(idx: Index, t: Text, minLen: int, segment: string) returns (r: Option<(Mapping, Track)>)
    requires Lookups(idx, t)
    ensures r == MatchOf(idx.mappings, t, minLen, segment)
  {
    hide First, Pick, TrackC, WorthScanning;
    var normA := t.trackA(segment);
    assert First(idx.mappings, HasKey(NormA(), normA)) == if normA in idx.trackA then Some(idx.trackA[normA]) else None;
    if normA in idx.trackA {
      return Some((idx.trackA[normA], A));
    }
    var normB := t.trackB(segment);
    assert First(idx.mappings, HasKey(NormB(), normB)) == if normB in idx.trackB then Some(idx.trackB[normB]) else None;
    if normB in idx.trackB {
      return Some((idx.trackB[normB], B));
    }
    var concat := t.concat(segment);
    ConcatLookup(idx, t, segment);
    if concat != "" && concat in idx.concatExact {
      return Some((idx.concatExact[concat], C));
    }
    if WorthScanning(t, minLen, segment) {
      var best := ScanTrackC(idx.scanned, t, minLen, segment);
      FirstOfPicked(idx.mappings, HasTokens(), Loose(t, minLen, segment), TrackC(t, minLen, segment)) by {
        forall m ensures TrackC(t, minLen, segment)(m) <==> HasTokens()(m) && Loose(t, minLen, segment)(m) { LooseIsTrackC(t, minLen, segment, m); }
      }
      if best.Some? { return Some((best.value, C)); }
    }
    return None;
  }

  lemma ConcatLookup(idx: Index, t: Text, segment: string)
    requires FirstWins(idx.concatExact, Pick(idx.mappings, HasConcat(t)), ConcatOf(t))
    ensures var concat := t.concat(segment);
      First(idx.mappings, SameConcat(t, segment)) ==
        if concat != "" && concat in idx.concatExact then Some(idx.concatExact[concat]) else None
  {
    hide First, Pick;
    var concat := t.concat(segment);
    if concat != "" {
      assert First(Pick(idx.mappings, HasConcat(t)), HasKey(ConcatOf(t), concat))
          == if concat in idx.concatExact then Some(idx.concatExact[concat]) else None;
      FirstOfPicked(idx.mappings, HasConcat(t), HasKey(ConcatOf(t), concat), SameConcat(t, segment));
    } else {
      FirstIsPicked(idx.mappings, SameConcat(t, segment));
    }
  }

  /** The scan's own test; its token half is vacuous on an empty token set. */
  function Loose(t: Text, minLen: int, segment: string): Mapping -> bool {
    (m: Mapping) => PrefixMatch(t, minLen, segment, m) || m.tokens <= t.tokens(segment)
  }

  lemma LooseIsTrackC(t: Text, minLen: int, segment: string, m: Mapping)
    ensures TrackC(t, minLen, segment)(m) <==> HasTokens()(m) && Loose(t, minLen, segment)(m)
  {
  }

  method ScanTrackC(ms: seq<Mapping>, t: Text, minLen: int, segment: string) returns (best: Option<Mapping>)
    ensures best == First(ms, Loose(t, minLen, segment))
  {
    hide First, PrefixMatch;
    best := None;
    var bestScore := 0.0;
    FirstIsPicked(ms[..0], Loose(t, minLen, segment));
    for i := 0 to |ms|
      invariant best == First(ms[..i], Loose(t, minLen, segment))
      invariant bestScore == if best.Some? then 1.0 else 0.0
    {
      assert ms[..i + 1] == ms[..i] + [ms[i]];
      FirstSnoc(ms[..i], ms[i], Loose(t, minLen, segment));
      var score := if PrefixMatch(t, minLen, segment, ms[i]) || ms[i].tokens <= t.tokens(segment) then 1.0 else 0.0;
      if score > bestScore {
        bestScore := score;
        best := Some(ms[i]);
      }
    }
    assert ms[..|ms|] == ms;
  }

  /** Whichever track answers, no mapping of a lower tier number passes its test. */
  lemma NoBetterTier(mappings: seq<Mapping>, t: Text, minLen: int, segment: string)
    ensures var r := MatchOf(Sort(mappings, ByTier()), t, minLen, segment);
      && (r.Some? && r.value.1 == A ==> forall m :: m in mappings && m.normA == t.trackA(segment) ==> r.value.0.tier <= m.tier)
      && (r.Some? && r.value.1 == B ==> forall m :: m in mappings && m.normB == t.trackB(segment) ==> r.value.0.tier <= m.tier)
      && (r.Some? && r.value.1 == C && SameConcat(t, segment)(r.value.0) ==>
            forall m :: m in mappings && SameConcat(t, segment)(m) ==> r.value.0.tier <= m.tier)
      && (r.Some? && r.value.1 == C && !SameConcat(t, segment)(r.value.0) ==>
            forall m :: m in mappings && TrackC(t, minLen, segment)(m) ==> r.value.0.tier <= m.tier)
      && (r.None? && minLen > 0 ==> forall m :: m in mappings ==>
            m.normA != t.trackA(segment) && m.normB != t.trackB(segment) && !SameConcat(t, segment)(m) && !TrackC(t, minLen, segment)(m))
  {
    hide Sort, First, TrackC, WorthScanning;
    var ms := Sort(mappings, ByTier());
    FirstOfSorted(mappings, HasKey(NormA(), t.trackA(segment)));
    FirstOfSorted(mappings, HasKey(NormB(), t.trackB(segment)));
    FirstOfSorted(mappings, SameConcat(t, segment));
    FirstOfSorted(mappings, TrackC(t, minLen, segment));
    FirstIsPicked(ms, SameConcat(t, segment));
    FirstIsPicked(ms, TrackC(t, minLen, segment));
    forall m | m in mappings
      ensures HasKey(NormA(), t.trackA(segment))(m) <==> m.normA == t.trackA(segment)
      ensures HasKey(NormB(), t.trackB(segment))(m) <==> m.normB == t.trackB(segment)
      ensures minLen > 0 && TrackC(t, minLen, segment)(m) ==> WorthScanning(t, minLen, segment)
    {
      if minLen > 0 && TrackC(t, minLen, segment)(m) { GuardSkipsNothing(t, minLen, segment, m); }
    }
  }

  /** Which track answers and with which mapping: exact forms before stopword forms
      before joined forms before the scan, each with the first match in tier order. */
  lemma AnswersInOrder(mappings: seq<Mapping>, t: Text, minLen: int, segment: string)
    ensures var r := MatchOf(Sort(mappings, ByTier()), t, minLen, segment);
      var (onA, onB) := (HasKey(NormA(), t.trackA(segment)), HasKey(NormB(), t.trackB(segment)));
      var (joined, loose) := (SameConcat(t, segment), TrackC(t, minLen, segment));
      if exists m :: m in mappings && m.normA == t.trackA(segment) then r.Some? && r.value.1 == A && FirstInTierOrder(mappings, onA, r.value.0)
      else if exists m :: m in mappings && m.normB == t.trackB(segment) then r.Some? && r.value.1 == B && FirstInTierOrder(mappings, onB, r.value.0)
      else if exists m :: m in mappings && joined(m) then r.Some? && r.value.1 == C && FirstInTierOrder(mappings, joined, r.value.0)
      else if ScanTried(t, minLen, segment) && exists m :: m in mappings && loose(m)
        then r.Some? && r.value.1 == C && FirstInTierOrder(mappings, loose, r.value.0)
      else r.None?
  {
    hide Sort, First, TrackC, WorthScanning, ScanTried, SameConcat, FirstInTierOrder;
    FirstTold(mappings, HasKey(NormA(), t.trackA(segment)));
    FirstTold(mappings, HasKey(NormB(), t.trackB(segment)));
    FirstTold(mappings, SameConcat(t, segment));
    FirstTold(mappings, TrackC(t, minLen, segment));
    ScanTriedMeans(t, minLen, segment);
    assert forall m :: HasKey(NormA(), t.trackA(segment))(m) <==> m.normA == t.trackA(segment);
    assert forall m :: HasKey(NormB(), t.trackB(segment))(m) <==> m.normB == t.trackB(segment);
  }

  /** When the joined forms match: neither is empty and they are one text. */
  lemma JoinedMeans(t: Text, segment: string, m: Mapping)
    ensures SameConcat(t, segment)(m) <==> |t.concat(segment)| > 0 && t.concat(segment) == t.concat(m.keyword)
  {
  }

  // ----- Choosing among hits -------------------------------------------------

  predicate Replaces(next: Hit, best: Hit) {
    if next.mapping.tier < best.mapping.tier then true
    else if next.mapping.tier > best.mapping.tier then false
    else if next.pos < best.pos then true
    else if next.pos > best.pos then false
    else if |next.mapping.keyword| > |best.mapping.keyword| then true
    else if |next.mapping.keyword| < |best.mapping.keyword| then false
    else TrackOrder(next.track) < TrackOrder(best.track)
  }

  /** The comparison as a rule: the lower tier, then the earlier segment, then the longer
      keyword, then the earlier track; two hits never both win. */
  lemma ReplacesRule(next: Hit, best: Hit)
    ensures Replaces(next, best) <==>
      || next.mapping.tier < best.mapping.tier
      || (next.mapping.tier == best.mapping.tier && next.pos < best.pos)
      || (next.mapping.tier == best.mapping.tier && next.pos == best.pos && |next.mapping.keyword| > |best.mapping.keyword|)
      || (next.mapping.tier == best.mapping.tier && next.pos == best.pos && |next.mapping.keyword| == |best.mapping.keyword|
          && ((next.track == A && best.track != A) || (next.track == B && best.track == C)))
    ensures !(Replaces(next, best) && Replaces(best, next))
  {
  }

  function Better(): (Hit, Hit) -> bool { (next: Hit, best: Hit) => Replaces(next, best) }

  function LowerTier(): (Hit, Hit) -> bool { (next: Hit, best: Hit) => next.mapping.tier < best.mapping.tier }

  function Matcher(ms: seq<Mapping>, t: Text, minLen: int): string -> Option<(Mapping, Track)> {
    (segment: string) => MatchOf(ms, t, minLen, segment)
  }

  /** A detection: nothing, or the mapping and track that won. */
  datatype Result = Result(format: string, track: Option<Track>, keyword: Option<string>, tier: Option<int>)

  const NO_MATCH := Result("Standard", None, None, None)

  function ResultOf(best: Option<Hit>): Result {
    if best.None? then NO_MATCH
    else
      var m := best.value.mapping;
      Result(m.format, Some(best.value.track), Some(m.keyword), Some(m.tier))
  }

  function BestHit(ms: seq<Mapping>, t: Text, minLen: int, segments: seq<string>): Option<Hit> {
    Fold(HitsFrom(segments, Matcher(ms, t, minLen)), Better())
  }

  function Detected(ms: seq<Mapping>, t: Text, minLen: int, amenity: string): Result {
    ResultOf(BestHit(ms, t, minLen, Segments(t, amenity)))
  }

  /** Segment i is answered, with no answer of a lower tier number anywhere and none of
      the same one before it, and this is what its answer reports. */
  ghost predicate Answers(r: Result, segments: seq<string>, matcher: string -> Option<(Mapping, Track)>, i: nat)
    requires i < |segments|
  {
    && matcher(segments[i]).Some?
    && (var (m, track) := matcher(segments[i]).value;
        && r.format == m.format && r.keyword == Some(m.keyword) && r.track == Some(track) && r.tier == Some(m.tier)
        && forall j :: 0 <= j < |segments| && matcher(segments[j]).Some? ==>
             m.tier <= matcher(segments[j]).value.0.tier && (j < i ==> m.tier < matcher(segments[j]).value.0.tier))
  }

  /** What a detection reports: the answer of the first segment of the lowest tier, or
      Standard and nothing else when no segment is answered. */
  ghost predicate Reported(r: Result, segments: seq<string>, matcher: string -> Option<(Mapping, Track)>) {
    if forall i :: 0 <= i < |segments| ==> matcher(segments[i]).None?
    then r.format == "Standard" && r.track.None? && r.keyword.None? && r.tier.None?
    else exists i :: 0 <= i < |segments| && Answers(r, segments, matcher, i)
  }

  lemma {:induction false} FirstLowest(hits: seq<Option<Hit>>)
    requires Positioned(hits)
    ensures var best := Fold(hits, LowerTier());
      && (best.None? <==> forall i :: 0 <= i < |hits| ==> hits[i].None?)
      && (best.Some? ==> best.value.pos < |hits| && hits[best.value.pos] == best)
      && (best.Some? ==> forall j :: 0 <= j < |hits| && hits[j].Some? ==>
            best.value.mapping.tier <= hits[j].value.mapping.tier
            && (j < best.value.pos ==> best.value.mapping.tier < hits[j].value.mapping.tier))
  {
    if hits != [] { FirstLowest(hits[..|hits| - 1]); }
  }

  lemma DetectedReports(ms: seq<Mapping>, t: Text, minLen: int, amenity: string)
    ensures Reported(Detected(ms, t, minLen, amenity), Segments(t, amenity), Matcher(ms, t, minLen))
  {
    hide MatchOf, Segments, Fold, Replaces;
    var segments := Segments(t, amenity);
    var matcher := Matcher(ms, t, minLen);
    var hits := HitsFrom(segments, matcher);
    BestByTier(ms, t, minLen, segments);
    FirstLowest(hits);
    var best := Fold(hits, LowerTier());
    assert forall j :: 0 <= j < |segments| ==> (hits[j].Some? <==> matcher(segments[j]).Some?);
    if best.Some? {
      var i := best.value.pos;
      assert hits[i].Some? && matcher(segments[i]) == Some((best.value.mapping, best.value.track));
      assert forall j :: 0 <= j < |segments| && matcher(segments[j]).Some? ==> hits[j].value.mapping == matcher(segments[j]).value.0;
      assert Answers(Detected(ms, t, minLen, amenity), segments, matcher, i);
    }
  }

  method Detect(idx: Index, t: Text, minLen: int, amenity: string) returns (r: Result)
    requires Lookups(idx, t) && t.lower("") == "" && !t.isSpace(BAR)
    ensures r == Detected(idx.mappings, t, minLen, amenity)
    ensures Reported(r, Segments(t, amenity), Matcher(idx.mappings, t, minLen))
  {
    hide Reported, MatchOf, Replaces, Lookups, Segments;
    DetectedReports(idx.mappings, t, minLen, amenity);
    if Strip(amenity, t.isSpace) == "" {
      BlankHasNoSegments(t, amenity);
      assert HitsFrom([], Matcher(idx.mappings, t, minLen)) == [];
      return NO_MATCH;
    }
    var segments := SplitSegments(t, amenity);
    var best: Option<Hit> := None;
    ghost var hits := HitsFrom(segments, Matcher(idx.mappings, t, minLen));
    for pos := 0 to |segments|
      invariant best == Fold(hits[..pos], Better())
    {
      assert hits[..pos + 1][..pos] == hits[..pos];
      var result := MatchSegment(idx, t, minLen, segments[pos]);
      if result.None? { continue; }
      var hit := Hit(result.value.0, result.value.1, pos);
      if best.None? || Replaces(hit, best.value) { best := Some(hit); }
    }
    assert hits[..|segments|] == hits;
    r := ResultOf(best);
  }

  /** The early return for blank input answers what the loop would. */
  lemma BlankHasNoSegments(t: Text, amenity: string)
    requires Strip(amenity, t.isSpace) == "" && t.lower("") == "" && !t.isSpace(BAR)
    ensures Segments(t, amenity) == []
  {
    AllSpace(amenity, t.isSpace);
    SplitWhole(amenity);
    assert CleanParts(t, [amenity][..0]) == [];
    assert Dropped(t, amenity);
  }

  lemma {:induction false} AllSpace(s: string, isSpace: char -> bool)
    requires Strip(s, isSpace) == ""
    ensures forall i :: 0 <= i < |s| ==> isSpace(s[i])
  {
    if s != [] {
      if isSpace(s[0]) {
        AllSpace(s[1..], isSpace);
      } else {
        RightKeepsFirst(s, isSpace);
      }
    }
  }

  lemma {:induction false} RightKeepsFirst(s: string, isSpace: char -> bool)
    requires s != [] && !isSpace(s[0])
    ensures StripRight(s, isSpace) != []
  {
    if isSpace(s[|s| - 1]) { RightKeepsFirst(s[..|s| - 1], isSpace); }
  }

  lemma {:induction false} SplitWhole(s: string)
    requires BAR !in s
    ensures Split(s) == [s]
  {
    if s != [] {
      var n := |s| - 1;
      SplitWhole(s[..n]);
      assert s[n] in s && s == s[..n] + [s[n]];
    }
  }

  // ----- Detection is a homomorphism -----------------------------------------

  /** The earlier detection wins unless the later one has a lower tier number. */
  function Combine(a: Result, b: Result): Result {
    if a.tier.None? then b else if b.tier.None? then a else if b.tier.value < a.tier.value then b else a
  }

  lemma {:induction false} FoldConcat(a: seq<Option<Hit>>, b: seq<Option<Hit>>)
    ensures ResultOf(Fold(a + b, LowerTier())) == Combine(ResultOf(Fold(a, LowerTier())), ResultOf(Fold(b, LowerTier())))
  {
    if b == [] {
      assert a + b == a;
    } else {
      var n := |b| - 1;
      FoldConcat(a, b[..n]);
      assert (a + b)[..|a + b| - 1] == a + b[..n] && (a + b)[|a + b| - 1] == b[n];
    }
  }

  /** Positions do not matter to what the tier decides. */
  lemma {:induction false} FoldShift(a: seq<Option<Hit>>, b: seq<Option<Hit>>)
    requires |a| == |b|
    requires forall i :: 0 <= i < |a| ==> (a[i].None? <==> b[i].None?)
    requires forall i :: 0 <= i < |a| && a[i].Some? ==> a[i].value.mapping == b[i].value.mapping && a[i].value.track == b[i].value.track
    ensures ResultOf(Fold(a, LowerTier())) == ResultOf(Fold(b, LowerTier()))
  {
    if a != [] { FoldShift(a[..|a| - 1], b[..|b| - 1]); }
  }

  lemma BestByTier(ms: seq<Mapping>, t: Text, minLen: int, segments: seq<string>)
    ensures BestHit(ms, t, minLen, segments) == Fold(HitsFrom(segments, Matcher(ms, t, minLen)), LowerTier())
  {
    hide MatchOf;
    FoldSame(HitsFrom(segments, Matcher(ms, t, minLen)), Better(), LowerTier());
  }

  lemma SegmentsCombine(ms: seq<Mapping>, t: Text, minLen: int, a: seq<string>, b: seq<string>)
    ensures ResultOf(BestHit(ms, t, minLen, a + b)) == Combine(ResultOf(BestHit(ms, t, minLen, a)), ResultOf(BestHit(ms, t, minLen, b)))
  {
    hide MatchOf, Fold, BestHit, ResultOf, Combine;
    BestByTier(ms, t, minLen, a);
    BestByTier(ms, t, minLen, b);
    BestByTier(ms, t, minLen, a + b);
    var all, front, back := HitsFrom(a + b, Matcher(ms, t, minLen)), HitsFrom(a, Matcher(ms, t, minLen)), HitsFrom(b, Matcher(ms, t, minLen));
    assert all == all[..|a|] + all[|a|..];
    assert all[..|a|] == front;
    FoldConcat(front, all[|a|..]);
    FoldShift(all[|a|..], back);
  }

  /** Detecting in two texts joined by a bar is combining the two detections. */
  lemma JoinCombines(ms: seq<Mapping>, t: Text, minLen: int, a: string, b: string)
    ensures Detected(ms, t, minLen, a + [BAR] + b) == Combine(Detected(ms, t, minLen, a), Detected(ms, t, minLen, b))
  {
    hide BestHit, ResultOf, Combine;
    SplitJoin(a, b);
    CleanJoin(t, Split(a), Split(b));
    SegmentsCombine(ms, t, minLen, Segments(t, a), Segments(t, b));
  }
}
