/** Grouping the sections of a calendar text into chunks for one call each. */
module CalendarChunks {

  /** The text from each section header to the next. */
  function Sections(text: string, starts: seq<nat>): (sections: seq<string>)
    requires Headers(text, starts)
    ensures |sections| == |starts|
    ensures forall i :: 0 <= i < |starts| ==> sections[i] != []
  {
    seq(|starts|, i requires 0 <= i < |starts| => text[starts[i]..SectionEnd(text, starts, i)])
  }

  function SectionEnd(text: string, starts: seq<nat>, i: nat): nat
    requires i < |starts|
  {
    if i + 1 < |starts| then starts[i + 1] else |text|
  }

  /** Where the header pattern matches: positions in order, none at the very end. */
  predicate Headers(text: string, starts: seq<nat>) {
    && (forall i :: 0 <= i < |starts| ==> starts[i] < |text|)
    && (forall i, j :: 0 <= i < j < |starts| ==> starts[i] < starts[j])
  }

  function Join(parts: seq<string>): string {
    if parts == [] then "" else Join(parts[..|parts| - 1]) + parts[|parts| - 1]
  }

  lemma {:induction false} JoinConcat(a: seq<string>, b: seq<string>)
    ensures Join(a + b) == Join(a) + Join(b)
  {
    if b == [] {
      assert a + b == a;
    } else {
      var n := |b| - 1;
      JoinConcat(a, b[..n]);
      assert (a + b)[..|a + b| - 1] == a + b[..n] && (a + b)[|a + b| - 1] == b[n];
    }
  }

  lemma {:induction false} SectionsJoin(text: string, starts: seq<nat>, n: nat)
    requires Headers(text, starts) && n <= |starts|
    ensures n > 0 ==> Join(Sections(text, starts)[..n]) == text[starts[0]..SectionEnd(text, starts, n - 1)]
  {
    var sections := Sections(text, starts);
    if n > 0 {
      SectionsJoin(text, starts, n - 1);
      assert sections[..n][..n - 1] == sections[..n - 1];
      if n == 1 {
        assert Join(sections[..0]) == "";
      } else {
        assert starts[0] <= starts[n - 1];
      }
    }
  }

  // ----- Groupings -----------------------------------------------------------

  function Length(parts: seq<string>): nat {
    if parts == [] then 0 else Length(parts[..|parts| - 1]) + |parts[|parts| - 1]|
  }

  lemma {:induction false} JoinLength(parts: seq<string>)
    ensures |Join(parts)| == Length(parts)
  {
    if parts != [] { JoinLength(parts[..|parts| - 1]); }
  }

  lemma {:induction false} LengthConcat(a: seq<string>, b: seq<string>)
    ensures Length(a + b) == Length(a) + Length(b)
  {
    if b == [] {
      assert a + b == a;
    } else {
      var n := |b| - 1;
      LengthConcat(a, b[..n]);
      assert (a + b)[..|a + b| - 1] == a + b[..n] && (a + b)[|a + b| - 1] == b[n];
    }
  }

  /** A grouping of sections lists the sizes of its groups, first to last.  It meets
      the rule when every group is a single section or within the target. */
  ghost predicate Grouping(sections: seq<string>, sizes: seq<nat>, target: int)
    decreases |sizes|
  {
    if sizes == [] then sections == []
    else
      var last := sizes[|sizes| - 1];
      && 1 <= last <= |sections|
      && (last == 1 || Length(sections[|sections| - last..]) <= target)
      && Grouping(sections[..|sections| - last], sizes[..|sizes| - 1], target)
  }

  /** The chunk of each group. */
  function ChunksOf(sections: seq<string>, sizes: seq<nat>): seq<string>
    decreases |sizes|
  {
    if sizes == [] then []
    else
      var last := sizes[|sizes| - 1];
      var cut := if last <= |sections| then |sections| - last else 0;
      ChunksOf(sections[..cut], sizes[..|sizes| - 1]) + [Join(sections[cut..])]
  }

  /** Any grouping is lossless. */
  lemma {:induction false} ChunksJoin(sections: seq<string>, sizes: seq<nat>, target: int)
    requires Grouping(sections, sizes, target)
    ensures Join(ChunksOf(sections, sizes)) == Join(sections)
    decreases |sizes|
  {
    if sizes == [] {
      assert sections == [];
    } else {
      var cut := |sections| - sizes[|sizes| - 1];
      ChunksJoin(sections[..cut], sizes[..|sizes| - 1], target);
      assert sections == sections[..cut] + sections[cut..];
      JoinConcat(sections[..cut], sections[cut..]);
      var front := ChunksOf(sections[..cut], sizes[..|sizes| - 1]);
      assert (front + [Join(sections[cut..])])[..|front|] == front;
    }
  }

  // ----- The greedy choice ---------------------------------------------------

  /** The sizes the loop builds: extend the last group while it stays in the target. */
  function Greedy(sections: seq<string>, target: int): (sizes: seq<nat>)
    ensures (sizes == []) <==> (sections == [])
    ensures sizes != [] ==> 1 <= sizes[|sizes| - 1] <= |sections|
  {
    if sections == [] then []
    else
      var before := Greedy(sections[..|sections| - 1], target);
      if before == [] then [1] else Extended(sections, before, target)
  }

  /** The sizes with one more section: in a group of its own if it fits nowhere else. */
  function Extended(sections: seq<string>, before: seq<nat>, target: int): (sizes: seq<nat>)
    requires before != [] && 1 <= before[|before| - 1] < |sections|
    ensures sizes != [] && 1 <= sizes[|sizes| - 1] <= |sections|
  {
    var last := before[|before| - 1];
    if Length(sections[|sections| - 1 - last..]) > target then before + [1] else before[..|before| - 1] + [last + 1]
  }

  lemma {:induction false} GreedyMeetsRule(sections: seq<string>, target: int)
    ensures Grouping(sections, Greedy(sections, target), target)
  {
    if sections == [] { return; }
    var n := |sections| - 1;
    var front := sections[..n];
    GreedyMeetsRule(front, target);
    var before, sizes := Greedy(front, target), Greedy(sections, target);
    if before == [] {
      assert sections[..0] == [] && sizes[..0] == [];
    } else {
      var last := before[|before| - 1];
      if Length(sections[n - last..]) > target {
        assert sizes[..|sizes| - 1] == before;
      } else {
        assert sizes[..|sizes| - 1] == before[..|before| - 1];
        assert sections[..n - last] == front[..n - last];
      }
    }
  }

  lemma SuffixShorter(sections: seq<string>, a: nat, b: nat)
    requires a <= b <= |sections|
    ensures Length(sections[b..]) <= Length(sections[a..])
  {
    assert sections[a..] == sections[a..b] + sections[b..];
    LengthConcat(sections[a..b], sections[b..]);
  }

  /** Taking the last section off a grouping leaves a grouping. */
  lemma Shorten(sections: seq<string>, sizes: seq<nat>, target: int) returns (rest: seq<nat>)
    requires sections != [] && Grouping(sections, sizes, target)
    ensures sizes != []
    ensures var last := sizes[|sizes| - 1];
      rest == if last == 1 then sizes[..|sizes| - 1] else sizes[..|sizes| - 1] + [last - 1]
    ensures Grouping(sections[..|sections| - 1], rest, target)
  {
    var n, last := |sections| - 1, sizes[|sizes| - 1];
    if last == 1 {
      rest := sizes[..|sizes| - 1];
    } else {
      rest := sizes[..|sizes| - 1] + [last - 1];
      var cut := |sections| - last;
      assert sections[..n][..cut] == sections[..cut];
      assert rest[..|rest| - 1] == sizes[..|sizes| - 1];
      assert sections[cut..] == sections[..n][cut..] + [sections[n]];
      LengthConcat(sections[..n][cut..], [sections[n]]);
    }
  }

  /** One more section: a new group only when the last one cannot take it. */
  lemma GreedyNext(sections: seq<string>, target: int)
    requires |sections| > 1
    ensures var before := Greedy(sections[..|sections| - 1], target);
      && before != [] && before[|before| - 1] < |sections|
      && Greedy(sections, target) == Extended(sections, before, target)
  {
    hide Extended;
    assert sections[..|sections| - 1] != [];
  }

  /** Greedy stays ahead: no grouping of the same sections has fewer groups, and one
      with as many has a last group at least as long. */
  lemma {:induction false} GreedyStaysAhead(sections: seq<string>, sizes: seq<nat>, target: int)
    requires Grouping(sections, sizes, target)
    ensures var greedy := Greedy(sections, target);
      && |greedy| <= |sizes|
      && (|greedy| == |sizes| && sizes != [] ==> greedy[|greedy| - 1] <= sizes[|sizes| - 1])
    decreases |sections|
  {
    if sections == [] { return; }
    var n := |sections| - 1;
    var rest := Shorten(sections, sizes, target);
    GreedyStaysAhead(sections[..n], rest, target);
    if n == 0 {
      assert sections[..0] == [];
    } else {
      StaysAheadStep(sections, sizes, rest, target);
    }
  }

  lemma StaysAheadStep(sections: seq<string>, sizes: seq<nat>, rest: seq<nat>, target: int)
    requires |sections| > 1 && Grouping(sections, sizes, target) && sizes != []
    requires var last := sizes[|sizes| - 1];
      rest == if last == 1 then sizes[..|sizes| - 1] else sizes[..|sizes| - 1] + [last - 1]
    requires var before := Greedy(sections[..|sections| - 1], target);
      |before| <= |rest| && (|before| == |rest| && rest != [] ==> before[|before| - 1] <= rest[|rest| - 1])
    ensures var greedy := Greedy(sections, target);
      |greedy| <= |sizes| && (|greedy| == |sizes| ==> greedy[|greedy| - 1] <= sizes[|sizes| - 1])
  {
    var n := |sections| - 1;
    var before, last := Greedy(sections[..n], target), sizes[|sizes| - 1];
    var mine := before[|before| - 1];
    GreedyNext(sections, target);
    assert last == 1 || Length(sections[|sections| - last..]) <= target;
    hide Length, Greedy, Grouping;
    if last > 1 && |before| == |sizes| {
      SuffixShorter(sections, |sections| - last, n - mine);
    }
  }

  /** Optimality: no way of splitting the sections in order into groups that meet
      the rule makes fewer calls. */
  lemma GreedyIsOptimal(sections: seq<string>, target: int)
    ensures Grouping(sections, Greedy(sections, target), target)
    ensures forall sizes :: Grouping(sections, sizes, target) ==> |Greedy(sections, target)| <= |sizes|
  {
    GreedyMeetsRule(sections, target);
    forall sizes | Grouping(sections, sizes, target) ensures |Greedy(sections, target)| <= |sizes| {
      GreedyStaysAhead(sections, sizes, target);
    }
  }

  // ----- The loop ------------------------------------------------------------

  method ChunkText(text: string, starts: seq<nat>, target: int) returns (chunks: seq<string>)
    requires Headers(text, starts)
    ensures starts == [] ==> chunks == [text]
    ensures starts != [] ==> chunks == ChunksOf(Sections(text, starts), Greedy(Sections(text, starts), target))
    ensures starts != [] ==> Join(chunks) == text[starts[0]..]
    ensures starts != [] ==> forall sizes :: Grouping(Sections(text, starts), sizes, target) ==> |chunks| <= |sizes|
  {
    hide Join, Length, Grouping, Greedy, ChunksOf, Sections, Built;
    if starts == [] {
      return [text];
    }
    var sections := Sections(text, starts);
    chunks := [];
    var current := "";
    for i := 0 to |sections|
      invariant current == "" <==> i == 0
      invariant i == 0 ==> chunks == []
      invariant i > 0 ==> Built(sections[..i], target, chunks, current)
    {
      assert sections[..i + 1][..i] == sections[..i] && sections[..i + 1][i] == sections[i];
      if i == 0 { FirstSection(sections[..i + 1], target); } else { NextSection(sections[..i + 1], target, chunks, current); }
      if current != "" && |current| + |sections[i]| > target {
        chunks := chunks + [current];
        current := sections[i];
      } else {
        assert current == "" ==> current + sections[i] == sections[i];
        current := current + sections[i];
      }
    }
    assert sections[..|sections|] == sections;
    BuiltAll(sections, target, chunks, current);
    if current != "" {
      chunks := chunks + [current];
    }
    GreedyIsOptimal(sections, target);
    ChunksJoin(sections, Greedy(sections, target), target);
    SectionsJoin(text, starts, |starts|);
    CountChunks(sections, Greedy(sections, target));
  }

  /** The loop's state after some sections: the finished chunks, and the text of the
      last greedy group. */
  ghost predicate Built(sections: seq<string>, target: int, chunks: seq<string>, current: string)
    requires sections != []
  {
    var sizes := Greedy(sections, target);
    var last := |sections| - sizes[|sizes| - 1];
    chunks == ChunksOf(sections[..last], sizes[..|sizes| - 1]) && current == Join(sections[last..])
  }

  lemma BuiltAll(sections: seq<string>, target: int, chunks: seq<string>, current: string)
    requires sections != [] && Built(sections, target, chunks, current)
    ensures chunks + [current] == ChunksOf(sections, Greedy(sections, target))
  {
    hide Greedy, Join;
  }

  lemma FirstSection(sections: seq<string>, target: int)
    requires |sections| == 1
    ensures Built(sections, target, [], sections[0])
  {
    assert sections[..0] == [] && sections[0..] == sections == [sections[0]];
    JoinOne(sections[0]);
    assert Greedy(sections, target) == [1];
  }

  lemma NextSection(sections: seq<string>, target: int, chunks: seq<string>, current: string)
    requires |sections| > 1 && Built(sections[..|sections| - 1], target, chunks, current)
    ensures var section := sections[|sections| - 1];
      if |current| + |section| > target then Built(sections, target, chunks + [current], section)
      else Built(sections, target, chunks, current + section)
  {
    hide Greedy, Join, Length;
    var n := |sections| - 1;
    var front, section := sections[..n], sections[n];
    var before := Greedy(front, target);
    var from := n - before[|before| - 1];
    GreedyNext(sections, target);
    BuiltAll(front, target, chunks, current);
    assert sections[from..] == front[from..] + [section];
    JoinConcat(front[from..], [section]);
    JoinOne(section);
    JoinLength(sections[from..]);
    assert sections[n..] == [section] && sections[..from] == front[..from];
    assert (before + [1])[..|before|] == before;
    var longer := before[..|before| - 1] + [before[|before| - 1] + 1];
    assert longer[..|longer| - 1] == before[..|before| - 1];
  }

  lemma JoinOne(section: string)
    ensures Join([section]) == section
  {
    assert [section][..0] == [];
  }

  lemma {:induction false} CountChunks(sections: seq<string>, sizes: seq<nat>)
    ensures |ChunksOf(sections, sizes)| == |sizes|
    decreases |sizes|
  {
    if sizes != [] {
      var last := sizes[|sizes| - 1];
      CountChunks(sections[..if last <= |sections| then |sections| - last else 0], sizes[..|sizes| - 1]);
    }
  }
}
