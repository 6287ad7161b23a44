/** The domestic engine: dictionaries whose last writer wins, a circuit-aware choice
    among hits, and the overrides around it. */
module DetectionDomestic {
  import opened Common
  import opened Sorting
  import opened DetectionIndex

  datatype Index = Index(mappings: seq<Mapping>, trackA: map<string, Mapping>, trackB: map<string, Mapping>,
                         circuits: map<(string, string), Mapping>, aliases: map<string, string>)

  /** `if m.circuit_name`: absent and empty names alike are no circuit. */
  function Scoped(): Mapping -> bool { (m: Mapping) => m.circuit.Some? && m.circuit.value != "" }

  function CircuitKey(t: Text): Mapping -> (string, string) {
    (m: Mapping) => (t.lower(m.keyword), t.lower(if m.circuit.Some? then m.circuit.value else ""))
  }

  ghost predicate Built(idx: Index, t: Text, mappings: seq<Mapping>) {
    && idx.mappings == Sort(mappings, ByTier())
    && LastWins(idx.trackA, idx.mappings, NormA())
    && LastWins(idx.trackB, idx.mappings, NormB())
    && LastWins(idx.circuits, Pick(idx.mappings, Scoped()), CircuitKey(t))
  }

  method BuildIndex(t: Text, mappings: seq<Mapping>, aliases: map<string, string>) returns (idx: Index)
    ensures Built(idx, t, mappings) && idx.aliases == aliases
  {
    hide LastWins, Sort, Pick;
    var sorted := Sort(mappings, ByTier());
    var a := IndexLast(sorted, NormA());
    var b := IndexLast(sorted, NormB());
    var c := IndexLast(Pick(sorted, Scoped()), CircuitKey(t));
    idx := Index(sorted, a, b, c, aliases);
  }

  // ----- One segment ---------------------------------------------------------

  /** Tracks A and B take the last mapping in tier order, track C the first. */
  function MatchOf(ms: seq<Mapping>, t: Text, minLen: int, segment: string): Option<(Mapping, Track)> {
    var a := Last(ms, HasKey(NormA(), t.trackA(segment)));
    var b := Last(ms, HasKey(NormB(), t.trackB(segment)));
    var c := First(ms, TrackC(t, minLen, segment));
    if a.Some? then Some((a.value, A))
    else if b.Some? then Some((b.value, B))
    else if WorthScanning(t, minLen, segment) && c.Some? then Some((c.value, C))
    else None
  }

  method MatchSegment(idx: Index, t: Text, minLen: int, segment: string) returns (r: Option<(Mapping, Track)>)
    requires LastWins(idx.trackA, idx.mappings, NormA()) && LastWins(idx.trackB, idx.mappings, NormB())
    ensures r == MatchOf(idx.mappings, t, minLen, segment)
  {
    var normA := t.trackA(segment);
    if normA in idx.trackA {
      return Some((idx.trackA[normA], A));
    }
    assert Last(idx.mappings, HasKey(NormA(), normA)).None?;
    var normB := t.trackB(segment);
    if normB in idx.trackB {
      return Some((idx.trackB[normB], B));
    }
    assert Last(idx.mappings, HasKey(NormB(), normB)).None?;
    if WorthScanning(t, minLen, segment) {
      var best := ScanTrackC(idx.mappings, t, minLen, segment);
      if best.Some? { return Some((best.value, C)); }
    }
    return None;
  }

  /** The scoring loop: a later mapping must score more, so the first match stays. */
  method ScanTrackC(ms: seq<Mapping>, t: Text, minLen: int, segment: string) returns (best: Option<Mapping>)
    ensures best == First(ms, TrackC(t, minLen, segment))
  {
    hide First;
    best := None;
    var bestScore := 0.0;
    FirstNone(TrackC(t, minLen, segment));
    for i := 0 to |ms|
      invariant best == First(ms[..i], TrackC(t, minLen, segment))
      invariant bestScore == if best.Some? then 1.0 else 0.0
    {
      assert ms[..i + 1] == ms[..i] + [ms[i]];
      FirstSnoc(ms[..i], ms[i], TrackC(t, minLen, segment));
      if ms[i].tokens == {} { continue; }
      var score := if PrefixMatch(t, minLen, segment, ms[i]) || TokenMatch(t, segment, ms[i]) then 1.0 else 0.0;
      if score > bestScore {
        bestScore := score;
        best := Some(ms[i]);
      }
    }
    assert ms[..|ms|] == ms;
  }

  lemma FirstNone(p: Mapping -> bool)
    ensures First([], p) == None
  {
  }

  /** When two keywords normalise alike, the domestic dictionaries answer with the
      higher tier number, and the later entry of that tier. */
  lemma CollisionGoesToLast(mappings: seq<Mapping>, t: Text, minLen: int, segment: string)
    ensures var r := MatchOf(Sort(mappings, ByTier()), t, minLen, segment);
      && (r.Some? && r.value.1 == A ==> forall m :: m in mappings && m.normA == t.trackA(segment) ==> m.tier <= r.value.0.tier)
      && (r.Some? && r.value.1 == B ==> forall m :: m in mappings && m.normB == t.trackB(segment) ==> m.tier <= r.value.0.tier)
      && (r.Some? && r.value.1 == C ==> forall m :: m in mappings && TrackC(t, minLen, segment)(m) ==> r.value.0.tier <= m.tier)
      && (r.None? && minLen > 0 ==> forall m :: m in mappings ==>
            m.normA != t.trackA(segment) && m.normB != t.trackB(segment) && !TrackC(t, minLen, segment)(m))
  {
    hide Sort, First, Last, TrackC, WorthScanning;
    LastOfSorted(mappings, HasKey(NormA(), t.trackA(segment)));
    LastOfSorted(mappings, HasKey(NormB(), t.trackB(segment)));
    FirstOfSorted(mappings, TrackC(t, minLen, segment));
    forall m | m in mappings
      ensures HasKey(NormA(), t.trackA(segment))(m) <==> m.normA == t.trackA(segment)
      ensures HasKey(NormB(), t.trackB(segment))(m) <==> m.normB == t.trackB(segment)
      ensures minLen > 0 && TrackC(t, minLen, segment)(m) ==> WorthScanning(t, minLen, segment)
    {
      if minLen > 0 && TrackC(t, minLen, segment)(m) { GuardSkipsNothing(t, minLen, segment, m); }
    }
  }

  /** Which track answers and with which mapping: exact forms before stopword forms,
      each with the last match in tier order, before the scan with the first. */
  lemma AnswersInOrder(mappings: seq<Mapping>, t: Text, minLen: int, segment: string)
    ensures var r := MatchOf(Sort(mappings, ByTier()), t, minLen, segment);
      var (onA, onB, loose) := (HasKey(NormA(), t.trackA(segment)), HasKey(NormB(), t.trackB(segment)), TrackC(t, minLen, segment));
      if exists m :: m in mappings && m.normA == t.trackA(segment) then r.Some? && r.value.1 == A && LastInTierOrder(mappings, onA, r.value.0)
      else if exists m :: m in mappings && m.normB == t.trackB(segment) then r.Some? && r.value.1 == B && LastInTierOrder(mappings, onB, r.value.0)
      else if ScanTried(t, minLen, segment) && exists m :: m in mappings && loose(m)
        then r.Some? && r.value.1 == C && FirstInTierOrder(mappings, loose, r.value.0)
      else r.None?
  {
    hide Sort, First, Last, TrackC, WorthScanning, ScanTried, FirstInTierOrder, LastInTierOrder;
    LastTold(mappings, HasKey(NormA(), t.trackA(segment)));
    LastTold(mappings, HasKey(NormB(), t.trackB(segment)));
    FirstTold(mappings, TrackC(t, minLen, segment));
    ScanTriedMeans(t, minLen, segment);
    assert forall m :: HasKey(NormA(), t.trackA(segment))(m) <==> m.normA == t.trackA(segment);
    assert forall m :: HasKey(NormB(), t.trackB(segment))(m) <==> m.normB == t.trackB(segment);
  }

  // ----- Choosing among hits -------------------------------------------------

  predicate OnCircuit(m: Mapping, t: Text, circuit: string) { m.circuit.Some? && t.lower(m.circuit.value) == circuit }

  /** The nested comparison, branch by branch. */
  predicate Replaces(t: Text, circuit: string, next: Hit, best: Hit) {
    if next.mapping.tier < best.mapping.tier then true
    else if next.mapping.tier > best.mapping.tier then false
    else
      var nextOn, bestOn := OnCircuit(next.mapping, t, circuit), OnCircuit(best.mapping, t, circuit);
      var nextScoped, bestScoped := next.mapping.circuit.Some?, best.mapping.circuit.Some?;
      if nextOn && !bestOn then true
      else if !nextOn && bestOn then false
      else if nextScoped && !bestScoped then true
      else if !nextScoped && bestScoped then false
      else if next.pos < best.pos then true
      else if next.pos > best.pos then false
      else if |next.mapping.keyword| > |best.mapping.keyword| then true
      else if |next.mapping.keyword| < |best.mapping.keyword| then false
      else TrackOrder(next.track) < TrackOrder(best.track)
  }

  function Better(t: Text, circuit: string): (Hit, Hit) -> bool { (next: Hit, best: Hit) => Replaces(t, circuit, next, best) }

  /** The simple rule: tier, then a matching circuit, then any circuit, then position. */
  predicate Precedes(t: Text, circuit: string, a: Hit, b: Hit) {
    var aOn := a.mapping.circuit.Some? && t.lower(a.mapping.circuit.value) == circuit;
    var bOn := b.mapping.circuit.Some? && t.lower(b.mapping.circuit.value) == circuit;
    var (aScoped, bScoped) := (a.mapping.circuit.Some?, b.mapping.circuit.Some?);
    || a.mapping.tier < b.mapping.tier
    || (a.mapping.tier == b.mapping.tier && aOn && !bOn)
    || (a.mapping.tier == b.mapping.tier && aOn == bOn && aScoped && !bScoped)
    || (a.mapping.tier == b.mapping.tier && aOn == bOn && aScoped == bScoped && a.pos < b.pos)
  }

  /** Away from equal positions the nested comparison is the simple rule, so in a loop
      over positions its keyword-length and track branches never decide. */
  lemma NestedIsLexicographic(t: Text, circuit: string, next: Hit, best: Hit)
    requires next.pos != best.pos
    ensures Replaces(t, circuit, next, best) <==> Precedes(t, circuit, next, best)
    ensures Precedes(t, circuit, next, best) <==> !Precedes(t, circuit, best, next)
  {
  }

  /** At one position and with the same circuit standing, the longer keyword wins, and
      at one length the earlier track; two tracks never both win. */
  lemma EqualPositions(t: Text, circuit: string, next: Hit, best: Hit)
    requires next.pos == best.pos && !Precedes(t, circuit, next, best) && !Precedes(t, circuit, best, next)
    ensures Replaces(t, circuit, next, best) <==>
      var (n, b) := (|next.mapping.keyword|, |best.mapping.keyword|);
      n > b || (n == b && ((next.track == A && best.track != A) || (next.track == B && best.track == C)))
    ensures !(Replaces(t, circuit, next, best) && Replaces(t, circuit, best, next))
  {
  }

  lemma PrecedesOrders(t: Text, circuit: string, a: Hit, b: Hit, c: Hit)
    ensures Precedes(t, circuit, a, b) && Precedes(t, circuit, b, c) ==> Precedes(t, circuit, a, c)
  {
  }

  /** What the loop keeps is the least of all hits under the simple rule. */
  lemma {:induction false} BestIsLeast(t: Text, circuit: string, hits: seq<Option<Hit>>)
    requires Positioned(hits)
    ensures var best := Fold(hits, Better(t, circuit));
      && (best.None? <==> forall i :: 0 <= i < |hits| ==> hits[i].None?)
      && (best.Some? ==> best in hits && best.value.pos < |hits|)
      && (best.Some? ==> forall i :: 0 <= i < |hits| && hits[i].Some? && hits[i] != best ==> Precedes(t, circuit, best.value, hits[i].value))
  {
    hide Replaces, Precedes;
    if hits != [] {
      var n := |hits| - 1;
      BestIsLeast(t, circuit, hits[..n]);
      var best, next := Fold(hits[..n], Better(t, circuit)), hits[n];
      if next.Some? && best.Some? {
        NestedIsLexicographic(t, circuit, next.value, best.value);
        forall i | 0 <= i < n && hits[i].Some?
          ensures Precedes(t, circuit, next.value, best.value) ==> Precedes(t, circuit, next.value, hits[i].value)
        {
          PrecedesOrders(t, circuit, next.value, best.value, hits[i].value);
        }
      }
    }
  }

  function Matcher(ms: seq<Mapping>, t: Text, minLen: int): string -> Option<(Mapping, Track)> {
    (segment: string) => MatchOf(ms, t, minLen, segment)
  }

  method BestHit(idx: Index, t: Text, minLen: int, circuit: string, segments: seq<string>) returns (best: Option<Hit>)
    requires LastWins(idx.trackA, idx.mappings, NormA()) && LastWins(idx.trackB, idx.mappings, NormB())
    ensures best == Fold(HitsFrom(segments, Matcher(idx.mappings, t, minLen)), Better(t, circuit))
  {
    hide MatchOf, Replaces, LastWins;
    best := None;
    ghost var hits := HitsFrom(segments, Matcher(idx.mappings, t, minLen));
    for pos := 0 to |segments|
      invariant best == Fold(hits[..pos], Better(t, circuit))
    {
      assert hits[..pos + 1][..pos] == hits[..pos];
      var result := MatchSegment(idx, t, minLen, segments[pos]);
      if result.None? { continue; }
      var hit := Hit(result.value.0, result.value.1, pos);
      if best.None? || Replaces(t, circuit, hit, best.value) { best := Some(hit); }
    }
    assert hits[..|segments|] == hits;
  }

  // ----- The whole decision --------------------------------------------------

  const IMAX_CIRCUIT := "imax"
  const IMAX_ESCAPE_TIER := 1
  const STANDARD_TIER := 6

  const VIP_CIRCUITS: map<string, string> := map[
    "caribbean cinemas - us territory" := "Caribbean VIP",
    "caribbean cinemas - us territories" := "Caribbean VIP",
    "cineplex entertainment" := "VIP Cineplex"
  ]

  datatype Source = Bucket(tier: int) | Unscoped(tier: int) | StandardBucket(tier: int) | VipOverride | ImaxOverride | EmptyInput | NoMatch

  datatype Result = Result(format: string, track: Option<Track>, keyword: Option<string>, source: Source, firedAi: bool)

  function ResolveCircuit(idx: Index, t: Text, circuit: string): string {
    if circuit == "" then ""
    else
      var normalized := t.lower(Strip(circuit, t.isSpace));
      t.lower(if normalized in idx.aliases then idx.aliases[normalized] else normalized)
  }

  /** The format of a hit on a circuit: the circuit's own entry for the keyword, the
      mapping's format when it is unscoped, else its default, else Standard. */
  function ResolveFormat(idx: Index, t: Text, m: Mapping, circuit: string): string {
    if circuit != "" && (t.lower(m.keyword), circuit) in idx.circuits then idx.circuits[(t.lower(m.keyword), circuit)].format
    else if !Scoped()(m) then m.format
    else if m.naDefault.Some? && m.naDefault.value != "" then m.naDefault.value
    else "Standard"
  }

  /** A mapping of this keyword that is scoped to this circuit. */
  function OnCircuitFor(t: Text, keyword: string, circuit: string): Mapping -> bool {
    (m: Mapping) =>
      m.circuit.Some? && |m.circuit.value| > 0 && t.lower(m.circuit.value) == circuit && t.lower(m.keyword) == t.lower(keyword)
  }

  lemma {:induction false} LastOfPicked(ms: seq<Mapping>, kept: Mapping -> bool, p: Mapping -> bool, both: Mapping -> bool)
    requires forall m :: both(m) <==> kept(m) && p(m)
    ensures Last(Pick(ms, kept), p) == Last(ms, both)
  {
    if ms != [] {
      var front, last := ms[..|ms| - 1], ms[|ms| - 1];
      LastOfPicked(front, kept, p, both);
      assert ms == front + [last];
      PickConcat(front, [last], kept);
      assert Pick([last], kept) == if kept(last) then [last] else [];
      if kept(last) {
        assert Pick(ms, kept)[..|Pick(ms, kept)| - 1] == Pick(front, kept);
      } else {
        assert Pick(ms, kept) == Pick(front, kept);
      }
    }
  }

  /** A hit is shown in the format of the circuit's own entry for its keyword if there
      is one, else in its own format, its default, or as Standard. */
  lemma CircuitEntryDecides(idx: Index, t: Text, mappings: seq<Mapping>, m: Mapping, circuit: string)
    requires Built(idx, t, mappings)
    ensures var own, format := OnCircuitFor(t, m.keyword, circuit), ResolveFormat(idx, t, m, circuit);
      if |circuit| > 0 && exists e :: e in mappings && own(e) then exists e :: LastInTierOrder(mappings, own, e) && format == e.format
      else if m.circuit == None || m.circuit == Some("") then format == m.format
      else if m.naDefault == None || m.naDefault == Some("") then format == "Standard"
      else Some(format) == m.naDefault
  {
    hide Last, Sort, Pick;
    var own, key := OnCircuitFor(t, m.keyword, circuit), (t.lower(m.keyword), circuit);
    LastOfPicked(idx.mappings, Scoped(), HasKey(CircuitKey(t), key), own);
    assert Last(Pick(idx.mappings, Scoped()), HasKey(CircuitKey(t), key)) == if key in idx.circuits then Some(idx.circuits[key]) else None;
    LastOfSorted(mappings, own);
    LastIsPicked(mappings, own);
    if key in idx.circuits {
      var e := idx.circuits[key];
      LastIsPicked(mappings, InTier(own, e.tier));
      assert LastInTierOrder(mappings, own, e);
    }
  }

  /** Containment is what it says. */
  lemma ContainsMeans(s: string, part: string)
    ensures Contains(s, part) <==> exists a, b :: s == a + part + b
  {
    hide Contains;
    if Contains(s, part) { var a, b := ContainedAt(s, part); }
    if a, b :| s == a + part + b { ContainsPart(a, part, b); }
  }

  lemma {:induction false} ContainedAt(s: string, part: string) returns (a: string, b: string)
    requires Contains(s, part)
    ensures s == a + part + b
  {
    if part <= s {
      a, b := "", s[|part|..];
    } else {
      a, b := ContainedAt(s[1..], part);
      a := [s[0]] + a;
    }
  }

  lemma {:induction false} ContainsPart(a: string, part: string, b: string)
    ensures Contains(a + part + b, part)
  {
    var s := a + part + b;
    if a == [] {
      assert s == part + b && part <= s;
    } else {
      ContainsPart(a[1..], part, b);
      assert s[1..] == a[1..] + part + b;
    }
  }

  predicate HasVip(t: Text, segment: string) { Contains(t.lower(segment), "vip") }

  predicate Contains(s: string, part: string) {
    part <= s || (s != [] && Contains(s[1..], part))
  }

  /** Which rule decides, in the order of the layers. */
  datatype Layer = Blank | Vip | ImaxByCircuit | Matched | AskAi

  ghost function LayerOf(t: Text, amenity: string, circuit: string, best: Option<Hit>): Layer {
    if Strip(amenity, t.isSpace) == "" then (if circuit == "imax" then ImaxByCircuit else Blank)
    else if VipFormat(circuit).Some? && MentionsVip(t, Segments(t, amenity)) then Vip
    else if circuit == "imax" && (best.None? || best.value.mapping.tier > 1) then ImaxByCircuit
    else if best.Some? then Matched
    else AskAi
  }

  /** The circuits whose VIP halls have a format of their own. */
  function VipFormat(circuit: string): Option<string> {
    if circuit == "cineplex entertainment" then Some("VIP Cineplex")
    else if circuit in ["caribbean cinemas - us territory", "caribbean cinemas - us territories"] then Some("Caribbean VIP")
    else None
  }

  ghost predicate MentionsVip(t: Text, segments: seq<string>) {
    exists i, a, b :: 0 <= i < |segments| && t.lower(segments[i]) == a + "vip" + b
  }

  lemma VipMeans(t: Text, segments: seq<string>)
    ensures MentionsVip(t, segments) <==> exists i :: 0 <= i < |segments| && HasVip(t, segments[i])
  {
    forall i | 0 <= i < |segments| ensures HasVip(t, segments[i]) <==> exists a, b :: t.lower(segments[i]) == a + "vip" + b {
      ContainsMeans(t.lower(segments[i]), "vip");
    }
  }

  /** How a circuit's name is resolved: white space and case aside, through the alias
      list, to a name in lower case. */
  lemma CircuitResolves(idx: Index, t: Text, circuit: string)
    ensures ResolveCircuit(idx, t, "") == ""
    ensures forall alias :: circuit != "" && alias == t.lower(Strip(circuit, t.isSpace)) ==>
      ResolveCircuit(idx, t, circuit) == if alias in idx.aliases then t.lower(idx.aliases[alias]) else t.lower(alias)
  {
    hide Strip;
  }

  method Detect(idx: Index, t: Text, minLen: int, amenity: string, circuitName: string) returns (r: Result)
    requires LastWins(idx.trackA, idx.mappings, NormA()) && LastWins(idx.trackB, idx.mappings, NormB())
    ensures var circuit := ResolveCircuit(idx, t, circuitName);
            var best := Fold(HitsFrom(Segments(t, amenity), Matcher(idx.mappings, t, minLen)), Better(t, circuit));
            var layer := LayerOf(t, amenity, circuit, best);
      && (layer.Blank? ==> r == Result("Standard", None, None, EmptyInput, false))
      && (layer.Vip? ==> VipFormat(circuit) == Some(r.format) && r == Result(r.format, Some(A), Some("VIP"), VipOverride, false))
      && (layer.ImaxByCircuit? ==> r.format == "IMAX" && r.source == ImaxOverride)
      && (layer.ImaxByCircuit? && (best.None? || Strip(amenity, t.isSpace) == "") ==> r.keyword.None? && r.track.None?)
      && (layer.ImaxByCircuit? && best.Some? && Strip(amenity, t.isSpace) != "" ==>
            r.keyword == Some(best.value.mapping.keyword) && r.track == Some(best.value.track))
      && (layer.Matched? ==> r.format == ResolveFormat(idx, t, best.value.mapping, circuit))
      && (layer.Matched? ==> r.track == Some(best.value.track) && r.keyword == Some(best.value.mapping.keyword))
      && (layer.Matched? ==> var tier := best.value.mapping.tier;
            (r.source == StandardBucket(tier) <==> tier == 6)
            && (r.source == Unscoped(tier) <==> tier != 6 && r.format == "Standard")
            && (r.source == Bucket(tier) <==> tier != 6 && r.format != "Standard"))
      && (layer.AskAi? ==> r == Result("Standard", None, None, NoMatch, true))
      && (r.firedAi <==> layer.AskAi?)
  {
    hide MentionsVip, LastWins, ResolveCircuit, ResolveFormat, HasVip, Matcher, Fold, Segments;
    var circuit := ResolveCircuit(idx, t, circuitName);
    var isImax := circuit == IMAX_CIRCUIT;
    var overridden := Result("IMAX", None, None, ImaxOverride, false);
    if Strip(amenity, t.isSpace) == "" {
      return if isImax then overridden else Result("Standard", None, None, EmptyInput, false);
    }
    var segments := SplitSegments(t, amenity);
    VipMeans(t, segments);
    if circuit in VIP_CIRCUITS {
      for i := 0 to |segments|
        invariant forall j :: 0 <= j < i ==> !HasVip(t, segments[j])
      {
        if HasVip(t, segments[i]) {
          return Result(VIP_CIRCUITS[circuit], Some(A), Some("VIP"), VipOverride, false);
        }
      }
    }
    var best := BestHit(idx, t, minLen, circuit, segments);
    if best.Some? {
      var m, track := best.value.mapping, best.value.track;
      if isImax && m.tier > IMAX_ESCAPE_TIER {
        return overridden.(track := Some(track), keyword := Some(m.keyword));
      }
      var format := ResolveFormat(idx, t, m, circuit);
      var source := if m.tier == STANDARD_TIER then StandardBucket(m.tier)
                    else if format == "Standard" then Unscoped(m.tier) else Bucket(m.tier);
      return Result(format, Some(track), Some(m.keyword), source, false);
    }
    if isImax { return overridden; }
    r := Result("Standard", None, None, NoMatch, true);
  }
}
