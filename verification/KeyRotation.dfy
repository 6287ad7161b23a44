/** Rotation over a pool of keys with a shared cooldown table.  Any number of workers
    mark slots in any order; one search tries the usable keys in slot order. */
module KeyRotation {
  import opened Common
  import opened Sorting

  datatype Key = Key(slot: nat, secret: string)

  datatype SlotRow = SlotRow(fingerprint: string, exhaustedAt: Option<int>, lastError: string, failures: nat)

  type Rows = map<nat, SlotRow>

  function At(rows: Rows, slot: nat): Option<SlotRow> {
    if slot in rows then Some(rows[slot]) else None
  }

  /** One upsert: which slot, the fingerprint of the key that failed, when and why. */
  datatype Mark = Mark(slot: nat, fingerprint: string, now: int, reason: string)

  /** A mark starts a new cooldown, as the upsert's CASE decides it. */
  predicate Fresh(row: Option<SlotRow>, fingerprint: string, now: int, cooldown: int) {
    row.None? || row.value.fingerprint != fingerprint || row.value.exhaustedAt.None? || row.value.exhaustedAt.value <= now - cooldown
  }

  /** A slot may be tried, as the selection loop decides it. */
  predicate Usable(row: Option<SlotRow>, fingerprint: string, now: int, cooldown: int) {
    row.None? || row.value.fingerprint != fingerprint || row.value.exhaustedAt.None? || now - row.value.exhaustedAt.value >= cooldown
  }

  function Marked(row: Option<SlotRow>, m: Mark, cooldown: int): SlotRow {
    if row.None? then SlotRow(m.fingerprint, Some(m.now), m.reason, 1)
    else
      var isFresh := Fresh(row, m.fingerprint, m.now, cooldown);
      SlotRow(m.fingerprint, if isFresh then Some(m.now) else row.value.exhaustedAt, m.reason, if isFresh then 1 else row.value.failures + 1)
  }

  function AfterMark(rows: Rows, m: Mark, cooldown: int): Rows {
    rows[m.slot := Marked(At(rows, m.slot), m, cooldown)]
  }

  function AfterMarks(rows: Rows, marks: seq<Mark>, cooldown: int): Rows {
    if marks == [] then rows else AfterMark(AfterMarks(rows, marks[..|marks| - 1], cooldown), marks[|marks| - 1], cooldown)
  }

  // ----- One slot, over any interleaving -------------------------------------

  /** The marks that hit a slot. */
  function On(marks: seq<Mark>, slot: nat): seq<Mark> {
    if marks == [] then []
    else On(marks[..|marks| - 1], slot) + if marks[|marks| - 1].slot == slot then [marks[|marks| - 1]] else []
  }

  /** Where the current cooldown of a slot began: the index of the mark that the
      others fall short of by less than one cooldown.  Defined on times alone. */
  function EpochStart(marks: seq<Mark>, cooldown: int): (s: nat)
    requires marks != []
    ensures s < |marks|
  {
    var n := |marks| - 1;
    if n == 0 then 0
    else
      var s := EpochStart(marks[..n], cooldown);
      if marks[n].fingerprint != marks[n - 1].fingerprint || marks[n].now >= marks[s].now + cooldown then n else s
  }

  /** A row says when the current cooldown began, how often the key has failed since,
      and what the last failure was. */
  predicate Tells(row: Option<SlotRow>, mine: seq<Mark>, cooldown: int) {
    && (row.None? <==> mine == [])
    && (mine != [] ==>
          var s, last := EpochStart(mine, cooldown), mine[|mine| - 1];
          row.value == SlotRow(last.fingerprint, Some(mine[s].now), last.reason, |mine| - s))
  }

  lemma TellsNext(row: Option<SlotRow>, mine: seq<Mark>, m: Mark, cooldown: int)
    requires Tells(row, mine, cooldown)
    ensures Tells(Some(Marked(row, m, cooldown)), mine + [m], cooldown)
  {
    assert (mine + [m])[..|mine|] == mine;
  }

  /** The table tells, for every slot and every interleaving of marks by any workers
      and any clocks. */
  lemma {:induction false} SlotTells(marks: seq<Mark>, slot: nat, cooldown: int)
    ensures Tells(At(AfterMarks(map[], marks, cooldown), slot), On(marks, slot), cooldown)
  {
    hide AfterMarks, At, Marked, EpochStart;
    if marks == [] {
      NoMarks(map[], marks, cooldown);
      NoRow(slot);
    } else {
      var front, last := marks[..|marks| - 1], marks[|marks| - 1];
      SlotTells(front, slot, cooldown);
      assert marks == front + [last];
      MarkAt(map[], front, last, slot, cooldown);
      if last.slot == slot {
        TellsNext(At(AfterMarks(map[], front, cooldown), slot), On(front, slot), last, cooldown);
      } else {
        assert On(marks, slot) == On(front, slot);
      }
    }
  }

  predicate SameKey(marks: seq<Mark>) {
    forall i, j :: 0 <= i < j < |marks| ==> marks[i].fingerprint == marks[j].fingerprint
  }

  /** Inside a cooldown every repeat came less than one cooldown after its start, so
      however often a key is hit its timer does not move. */
  lemma {:induction false} EpochIsShort(marks: seq<Mark>, cooldown: int)
    requires marks != [] && cooldown > 0
    ensures var s := EpochStart(marks, cooldown);
      forall i :: s < i < |marks| ==> marks[i].now < marks[s].now + cooldown && marks[i].fingerprint == marks[s].fingerprint
  {
    var n := |marks| - 1;
    if n > 0 {
      EpochIsShort(marks[..n], cooldown);
      var before := EpochStart(marks[..n], cooldown);
      if EpochStart(marks, cooldown) == before {
        assert marks[n - 1].fingerprint == marks[before].fingerprint by {
          if before < n - 1 { assert marks[..n][n - 1] == marks[n - 1]; }
        }
        forall i | before < i < |marks|
          ensures marks[i].now < marks[before].now + cooldown && marks[i].fingerprint == marks[before].fingerprint
        {
          if i < n { assert marks[..n][i] == marks[i]; }
        }
      }
    }
  }

  /** exhausted_at of one key only ever moves one cooldown or more into the future,
      whatever the clocks do. */
  lemma {:induction false} TimerMovesOneCooldown(marks: seq<Mark>, k: nat, cooldown: int)
    requires 0 < k <= |marks| && cooldown >= 0 && SameKey(marks)
    ensures var then_, now_ := marks[EpochStart(marks[..k], cooldown)].now, marks[EpochStart(marks, cooldown)].now;
      then_ == now_ || then_ + cooldown <= now_
    ensures EpochStart(marks[..k], cooldown) <= EpochStart(marks, cooldown)
  {
    hide EpochStart;
    if k == |marks| {
      assert marks[..k] == marks;
    } else {
      var n := |marks| - 1;
      TimerMovesOneCooldown(marks[..n], k, cooldown);
      assert marks[..n][..k] == marks[..k];
      EpochNext(marks, cooldown);
    }
  }

  lemma EpochNext(marks: seq<Mark>, cooldown: int)
    requires |marks| > 1 && SameKey(marks)
    ensures var n := |marks| - 1;
            var s := EpochStart(marks[..n], cooldown);
      EpochStart(marks, cooldown) == if marks[n].now >= marks[s].now + cooldown then n else s
  {
  }

  /** The key heals by itself: it may be tried at time t exactly when t is at least
      one cooldown after the current cooldown began; and that is exactly when a
      failure at t would begin a new one. */
  lemma UsableExactly(marks: seq<Mark>, slot: nat, fingerprint: string, t: int, cooldown: int)
    ensures var mine, row := On(marks, slot), At(AfterMarks(map[], marks, cooldown), slot);
      && (Usable(row, fingerprint, t, cooldown) <==>
           (mine == [] || mine[|mine| - 1].fingerprint != fingerprint || t >= mine[EpochStart(mine, cooldown)].now + cooldown))
      && (Usable(row, fingerprint, t, cooldown) <==> Fresh(row, fingerprint, t, cooldown))
  {
    SlotTells(marks, slot, cooldown);
  }

  /** Marks of other slots are irrelevant. */
  lemma {:induction false} OtherSlots(rows: Rows, marks: seq<Mark>, slot: nat, cooldown: int)
    requires forall i :: 0 <= i < |marks| ==> marks[i].slot != slot
    ensures At(AfterMarks(rows, marks, cooldown), slot) == At(rows, slot)
  {
    if marks != [] { OtherSlots(rows, marks[..|marks| - 1], slot, cooldown); }
  }

  // ----- Selecting candidates ------------------------------------------------

  datatype Cooling = Cooling(since: int, error: string)

  function Candidates(rows: Rows, keys: seq<Key>, fp: string -> string, now: int, cooldown: int): seq<Key> {
    if keys == [] then []
    else
      var last := keys[|keys| - 1];
      Candidates(rows, keys[..|keys| - 1], fp, now, cooldown)
        + if Usable(At(rows, last.slot), fp(last.secret), now, cooldown) then [last] else []
  }

  /** A search tries the usable keys in the order they are configured: one part of the
      pool after the other ... */
  lemma {:induction false} CandidatesInOrder(rows: Rows, a: seq<Key>, b: seq<Key>, fp: string -> string, now: int, cooldown: int)
    ensures Candidates(rows, a + b, fp, now, cooldown)
         == Candidates(rows, a, fp, now, cooldown) + Candidates(rows, b, fp, now, cooldown)
  {
    hide Candidates;
    if b == [] {
      assert a + b == a;
      CandidatesLast(rows, a, fp, now, cooldown);
    } else {
      var front, last := b[..|b| - 1], b[|b| - 1];
      CandidatesInOrder(rows, a, front, fp, now, cooldown);
      assert (a + b)[..|a + b| - 1] == a + front && (a + b)[|a + b| - 1] == last;
      CandidatesLast(rows, b, fp, now, cooldown);
      CandidatesLast(rows, a + b, fp, now, cooldown);
    }
  }

  lemma CandidatesLast(rows: Rows, keys: seq<Key>, fp: string -> string, now: int, cooldown: int)
    ensures Candidates(rows, [], fp, now, cooldown) == []
    ensures keys != [] ==>
      var front, last := keys[..|keys| - 1], keys[|keys| - 1];
      Candidates(rows, keys, fp, now, cooldown)
        == Candidates(rows, front, fp, now, cooldown) + Candidates(rows, [last], fp, now, cooldown)
  {
    hide Usable, At;
    if keys != [] { assert [keys[|keys| - 1]][..0] == []; }
  }

  /** ... and one key as its row decides. */
  lemma OneCandidate(rows: Rows, k: Key, fp: string -> string, now: int, cooldown: int)
    ensures Candidates(rows, [k], fp, now, cooldown)
         == if k.slot !in rows || Usable(Some(rows[k.slot]), fp(k.secret), now, cooldown) then [k] else []
  {
    assert [k][..0] == [];
    assert Candidates(rows, [], fp, now, cooldown) == [];
  }

  function CoolingDown(rows: Rows, keys: seq<Key>, fp: string -> string, now: int, cooldown: int): seq<Cooling> {
    if keys == [] then []
    else
      var last := keys[|keys| - 1];
      CoolingDown(rows, keys[..|keys| - 1], fp, now, cooldown)
        + if Usable(At(rows, last.slot), fp(last.secret), now, cooldown) then []
          else [Cooling(rows[last.slot].exhaustedAt.value, rows[last.slot].lastError)]
  }

  function BySince(): (Cooling, Cooling) -> bool { (a: Cooling, b: Cooling) => a.since <= b.since }

  /** The failure reported when nothing is usable: the most recent cooldown's. */
  ghost predicate MostRecent(cooling: seq<Cooling>, reason: string) {
    exists i :: 0 <= i < |cooling|
             && (forall j :: 0 <= j < |cooling| ==> cooling[j].since <= cooling[i].since)
             && reason == if cooling[i].error == "" then "in cooldown" else cooling[i].error
  }

  method SelectCandidates(rows: Rows, keys: seq<Key>, fp: string -> string, now: int, cooldown: int)
    returns (candidates: seq<Key>, reason: Option<string>)
    ensures candidates == Candidates(rows, keys, fp, now, cooldown)
    ensures reason.Some? <==> candidates == [] && keys != []
    ensures reason.Some? ==> MostRecent(CoolingDown(rows, keys, fp, now, cooldown), reason.value)
  {
    candidates := [];
    var cooling: seq<Cooling> := [];
    for i := 0 to |keys|
      invariant candidates == Candidates(rows, keys[..i], fp, now, cooldown)
      invariant cooling == CoolingDown(rows, keys[..i], fp, now, cooldown)
      invariant |candidates| + |cooling| == i
    {
      assert keys[..i + 1][..i] == keys[..i];
      var row := At(rows, keys[i].slot);
      if row.None? || row.value.fingerprint != fp(keys[i].secret) || row.value.exhaustedAt.None? {
        candidates := candidates + [keys[i]];
        continue;
      }
      if now - row.value.exhaustedAt.value >= cooldown {
        candidates := candidates + [keys[i]];
        continue;
      }
      cooling := cooling + [Cooling(row.value.exhaustedAt.value, row.value.lastError)];
    }
    assert keys[..|keys|] == keys;
    if candidates != [] || cooling == [] { return candidates, None; }
    var sorted := Sort(cooling, BySince());
    SortSorts(cooling, BySince());
    LastIsLatest(cooling, sorted);
    var latest := sorted[|sorted| - 1];
    reason := Some(if latest.error == "" then "in cooldown" else latest.error);
  }

  lemma LastIsLatest(cooling: seq<Cooling>, sorted: seq<Cooling>)
    requires cooling != [] && multiset(sorted) == multiset(cooling) && Ordered(sorted, BySince())
    ensures sorted != []
    ensures exists i :: 0 <= i < |cooling| && cooling[i] == sorted[|sorted| - 1]
                     && forall j :: 0 <= j < |cooling| ==> cooling[j].since <= cooling[i].since
  {
    assert cooling[0] in multiset(sorted);
    var latest := sorted[|sorted| - 1];
    assert latest in multiset(cooling);
    var i :| 0 <= i < |cooling| && cooling[i] == latest;
    forall j | 0 <= j < |cooling| ensures cooling[j].since <= latest.since {
      assert cooling[j] in multiset(sorted);
      var k :| 0 <= k < |sorted| && sorted[k] == cooling[j];
      if k < |sorted| - 1 { assert BySince()(sorted[k], sorted[|sorted| - 1]); }
    }
  }

  // ----- One search ----------------------------------------------------------

  /** What a key answers: a result with what it was billed, a quota or authorisation
      rejection, or any other failure. */
  datatype Reply = Served(data: string, calls: nat, credits: nat) | Rejected(reason: string) | Broken(error: string)

  datatype Found = Data(data: string) | AllExhausted(attempted: nat, total: nat, reason: string) | Raised(error: string)

  /** How many candidates are rejected before the first that is not. */
  function Rejections(candidates: seq<Key>, reply: nat -> Reply): (n: nat)
    ensures n <= |candidates|
    ensures forall i :: 0 <= i < n ==> reply(candidates[i].slot).Rejected?
    ensures n < |candidates| ==> !reply(candidates[n].slot).Rejected?
  {
    if candidates == [] || !reply(candidates[0].slot).Rejected? then 0 else 1 + Rejections(candidates[1..], reply)
  }

  function OwnMark(candidates: seq<Key>, i: nat, reply: nat -> Reply, fp: string -> string, times: nat -> int): Mark
    requires i < |candidates| && reply(candidates[i].slot).Rejected?
  {
    Mark(candidates[i].slot, fp(candidates[i].secret), times(i), reply(candidates[i].slot).reason)
  }

  /** The marks written during a search: one per rejected candidate, at its own time,
      and before each of them those of other workers. */
  function MarksOf(candidates: seq<Key>, n: nat, reply: nat -> Reply, fp: string -> string, times: nat -> int, rivals: nat -> seq<Mark>): seq<Mark>
    requires n <= |candidates|
    requires forall i :: 0 <= i < n ==> reply(candidates[i].slot).Rejected?
  {
    if n == 0 then []
    else MarksOf(candidates, n - 1, reply, fp, times, rivals) + rivals(n - 1) + [OwnMark(candidates, n - 1, reply, fp, times)]
  }

  lemma {:induction false} AfterBoth(rows: Rows, a: seq<Mark>, b: seq<Mark>, cooldown: int)
    ensures AfterMarks(rows, a + b, cooldown) == AfterMarks(AfterMarks(rows, a, cooldown), b, cooldown)
  {
    hide AfterMark;
    if b == [] {
      assert a + b == a;
    } else {
      var front, last := b[..|b| - 1], b[|b| - 1];
      AfterBoth(rows, a, front, cooldown);
      assert (a + b)[..|a + b| - 1] == a + front && (a + b)[|a + b| - 1] == last;
    }
  }

  lemma MarksNext(rows: Rows, candidates: seq<Key>, n: nat, reply: nat -> Reply, fp: string -> string, times: nat -> int,
                  rivals: nat -> seq<Mark>, cooldown: int)
    requires n <= |candidates|
    requires forall i :: 0 <= i < n ==> reply(candidates[i].slot).Rejected?
    ensures n == 0 ==> AfterMarks(rows, MarksOf(candidates, n, reply, fp, times, rivals), cooldown) == rows
    ensures n > 0 ==>
      AfterMarks(rows, MarksOf(candidates, n, reply, fp, times, rivals), cooldown)
        == AfterMark(AfterMarks(AfterMarks(rows, MarksOf(candidates, n - 1, reply, fp, times, rivals), cooldown), rivals(n - 1), cooldown),
                     OwnMark(candidates, n - 1, reply, fp, times), cooldown)
  {
    hide AfterMark, OwnMark;
    if n > 0 {
      var before, own := MarksOf(candidates, n - 1, reply, fp, times, rivals), OwnMark(candidates, n - 1, reply, fp, times);
      AfterBoth(rows, before, rivals(n - 1), cooldown);
      var marks := before + rivals(n - 1) + [own];
      assert marks[..|marks| - 1] == before + rivals(n - 1) && marks[|marks| - 1] == own;
    }
  }

  lemma OwnMarkIs(candidates: seq<Key>, i: nat, reply: nat -> Reply, fp: string -> string, times: nat -> int)
    requires i < |candidates| && reply(candidates[i].slot).Rejected?
    ensures OwnMark(candidates, i, reply, fp, times)
         == Mark(candidates[i].slot, fp(candidates[i].secret), times(i), reply(candidates[i].slot).reason)
  {
  }

  class RotatingClient {
    var rows: Rows
    var callsMade: nat
    var totalCredits: nat
    const cooldown: int
    const fp: string -> string

    constructor (rows: Rows, cooldown: int, fp: string -> string)
      ensures this.rows == rows && this.cooldown == cooldown && this.fp == fp && callsMade == totalCredits == 0
    {
      this.rows, this.cooldown, this.fp, callsMade, totalCredits := rows, cooldown, fp, 0, 0;
    }

    method MarkExhausted(key: Key, now: int, reason: string)
      modifies this`rows
      ensures rows == AfterMark(old(rows), Mark(key.slot, fp(key.secret), now, reason), cooldown)
    {
      if key.slot !in rows {
        rows := rows[key.slot := SlotRow(fp(key.secret), Some(now), reason, 1)];
      } else {
        var row := rows[key.slot];
        var isFresh := Fresh(Some(row), fp(key.secret), now, cooldown);
        rows := rows[key.slot := SlotRow(fp(key.secret), if isFresh then Some(now) else row.exhaustedAt, reason,
                                         if isFresh then 1 else row.failures + 1)];
      }
    }

    /** The loop over the candidates: the first that is not rejected decides; the
        rejected ones before it are marked, once each, and nothing else is written by
        this search.  Only a served attempt is added to the counters.  rivals(i) are
        the marks of other workers before this search writes its i-th. */
    method TryCandidates(candidates: seq<Key>, total: nat, reply: nat -> Reply, times: nat -> int, rivals: nat -> seq<Mark>)
      returns (found: Found)
      modifies this
      ensures var n := Rejections(candidates, reply);
        && rows == AfterMarks(old(rows), MarksOf(candidates, n, reply, fp, times, rivals), cooldown)
        && (n < |candidates| && reply(candidates[n].slot).Served? ==>
             && found == Data(reply(candidates[n].slot).data)
             && callsMade == old(callsMade) + reply(candidates[n].slot).calls
             && totalCredits == old(totalCredits) + reply(candidates[n].slot).credits)
        && (n < |candidates| && reply(candidates[n].slot).Broken? ==> found == Raised(reply(candidates[n].slot).error))
        && (n == |candidates| ==> found.AllExhausted? && found.attempted == n && found.total == total)
        && (n == |candidates| > 0 ==> found.reason == reply(candidates[n - 1].slot).reason)
        && (!found.Data? ==> callsMade == old(callsMade) && totalCredits == old(totalCredits))
    {
      hide AfterMark, MarksOf, AfterMarks, OwnMark;
      ghost var n := Rejections(candidates, reply);
      MarksNext(rows, candidates, 0, reply, fp, times, rivals, cooldown);
      var attempted, lastReason := 0, "";
      while attempted < |candidates|
        invariant attempted <= n && (n < |candidates| ==> attempted < |candidates|)
        invariant rows == AfterMarks(old(rows), MarksOf(candidates, attempted, reply, fp, times, rivals), cooldown)
        invariant attempted > 0 ==> lastReason == reply(candidates[attempted - 1].slot).reason
        invariant callsMade == old(callsMade) && totalCredits == old(totalCredits)
      {
        var key := candidates[attempted];
        var answer := reply(key.slot);
        if answer.Rejected? {
          lastReason := answer.reason;
          rows := AfterMarks(rows, rivals(attempted), cooldown);
          MarkExhausted(key, times(attempted), lastReason);
          OwnMarkIs(candidates, attempted, reply, fp, times);
          attempted := attempted + 1;
          MarksNext(old(rows), candidates, attempted, reply, fp, times, rivals, cooldown);
          continue;
        }
        if answer.Broken? {
          return Raised(answer.error);
        }
        callsMade := callsMade + answer.calls;
        totalCredits := totalCredits + answer.credits;
        return Data(answer.data);
      }
      found := AllExhausted(attempted, total, lastReason);
    }

    /** One search over the configured keys, usable or not. */
    method Search(keys: seq<Key>, now: int, reply: nat -> Reply, times: nat -> int, rivals: nat -> seq<Mark>)
      returns (found: Found)
      modifies this
      ensures var candidates := Candidates(old(rows), keys, fp, now, cooldown);
              var n := Rejections(candidates, reply);
        && rows == AfterMarks(old(rows), MarksOf(candidates, n, reply, fp, times, rivals), cooldown)
        && (n < |candidates| && reply(candidates[n].slot).Served? ==>
             && found == Data(reply(candidates[n].slot).data)
             && callsMade == old(callsMade) + reply(candidates[n].slot).calls
             && totalCredits == old(totalCredits) + reply(candidates[n].slot).credits)
        && (n < |candidates| && reply(candidates[n].slot).Broken? ==> found == Raised(reply(candidates[n].slot).error))
        && (n == |candidates| ==> found.AllExhausted? && found.attempted == n && found.total == |keys|)
        && (n == |candidates| > 0 ==> found.reason == reply(candidates[n - 1].slot).reason)
        && (n == 0 == |candidates| < |keys| ==> MostRecent(CoolingDown(old(rows), keys, fp, now, cooldown), found.reason))
        && (!found.Data? ==> callsMade == old(callsMade) && totalCredits == old(totalCredits))
    {
      hide Candidates, CoolingDown, MostRecent, MarksOf, AfterMarks;
      var candidates, why := SelectCandidates(rows, keys, fp, now, cooldown);
      if candidates == [] {
        MarksNext(rows, candidates, 0, reply, fp, times, rivals, cooldown);
        return AllExhausted(0, |keys|, if why.None? then "no key is configured" else why.value);
      }
      found := TryCandidates(candidates, |keys|, reply, times, rivals);
    }
  }

  // ----- After a search that raised ------------------------------------------

  ghost predicate DistinctSlots(keys: seq<Key>) {
    forall i, j :: 0 <= i < j < |keys| ==> keys[i].slot != keys[j].slot
  }

  lemma {:induction false} CandidateMembers(rows: Rows, keys: seq<Key>, fp: string -> string, now: int, cooldown: int)
    ensures forall k :: k in Candidates(rows, keys, fp, now, cooldown) <==> k in keys && Usable(At(rows, k.slot), fp(k.secret), now, cooldown)
  {
    hide Usable, At;
    if keys != [] {
      var front, last := keys[..|keys| - 1], keys[|keys| - 1];
      CandidateMembers(rows, front, fp, now, cooldown);
      assert keys == front + [last];
    }
  }

  lemma {:induction false} CandidatesDistinct(rows: Rows, keys: seq<Key>, fp: string -> string, now: int, cooldown: int)
    requires DistinctSlots(keys)
    ensures DistinctSlots(Candidates(rows, keys, fp, now, cooldown))
  {
    hide Usable, At;
    if keys != [] {
      var front, last := keys[..|keys| - 1], keys[|keys| - 1];
      CandidatesDistinct(rows, front, fp, now, cooldown);
      CandidateMembers(rows, front, fp, now, cooldown);
      LastApart(keys, Candidates(rows, front, fp, now, cooldown));
    }
  }

  lemma LastApart(keys: seq<Key>, part: seq<Key>)
    requires keys != [] && DistinctSlots(keys) && forall k :: k in part ==> k in keys[..|keys| - 1]
    ensures forall i :: 0 <= i < |part| ==> part[i].slot != keys[|keys| - 1].slot
  {
    forall i | 0 <= i < |part| ensures part[i].slot != keys[|keys| - 1].slot {
      assert part[i] in part;
      var j :| 0 <= j < |keys| - 1 && keys[j] == part[i];
    }
  }

  lemma MarkBegins(row: Option<SlotRow>, m: Mark, now: int, cooldown: int)
    requires Usable(row, m.fingerprint, now, cooldown) && m.now >= now
    ensures Marked(row, m, cooldown) == SlotRow(m.fingerprint, Some(m.now), m.reason, 1)
  {
  }

  lemma MarkAt(rows: Rows, marks: seq<Mark>, m: Mark, slot: nat, cooldown: int)
    ensures At(AfterMarks(rows, marks + [m], cooldown), slot) ==
      if slot == m.slot then Some(Marked(At(AfterMarks(rows, marks, cooldown), slot), m, cooldown)) else At(AfterMarks(rows, marks, cooldown), slot)
  {
    hide Marked;
    assert (marks + [m])[..|marks|] == marks;
  }

  /** A mark of this slot was written at this time. */
  ghost predicate MarkedThen(marks: seq<Mark>, slot: nat, time: int) {
    exists i :: 0 <= i < |marks| && marks[i].slot == slot && marks[i].now == time
  }

  /** Marks of one slot, all by the key that was usable at `now`, whoever writes them
      and in whatever order: the timer stands at the time of one of them, and every
      one of them came less than a cooldown after it. */
  lemma {:induction false} SlotTimer(rows: Rows, marks: seq<Mark>, slot: nat, fingerprint: string, now: int, cooldown: int)
    requires Usable(At(rows, slot), fingerprint, now, cooldown)
    requires forall m :: m in marks && m.slot == slot ==> m.fingerprint == fingerprint && m.now >= now
    ensures var row := At(AfterMarks(rows, marks, cooldown), slot);
      if forall m :: m in marks ==> m.slot != slot then row == At(rows, slot)
      else
        && row.Some? && row.value.fingerprint == fingerprint && row.value.exhaustedAt.Some?
        && MarkedThen(marks, slot, row.value.exhaustedAt.value)
        && forall m :: m in marks && m.slot == slot && cooldown > 0 ==> m.now < row.value.exhaustedAt.value + cooldown
  {
    hide At, AfterMarks, Usable;
    if marks == [] {
      NoMarks(rows, marks, cooldown);
    } else {
      var front, last := marks[..|marks| - 1], marks[|marks| - 1];
      assert marks == front + [last];
      assert forall m :: m in front ==> m in marks;
      SlotTimer(rows, front, slot, fingerprint, now, cooldown);
      MarkAt(rows, front, last, slot, cooldown);
      var before := At(AfterMarks(rows, front, cooldown), slot);
      if last.slot == slot {
        assert last in marks && MarkedThen(marks, slot, last.now);
        if forall m :: m in front ==> m.slot != slot {
          MarkBegins(before, last, now, cooldown);
        } else {
          EarlierMark(front, last, slot, before.value.exhaustedAt.value);
        }
      } else if !forall m :: m in front ==> m.slot != slot {
        EarlierMark(front, last, slot, before.value.exhaustedAt.value);
      }
    }
  }

  lemma EarlierMark(front: seq<Mark>, last: Mark, slot: nat, time: int)
    requires MarkedThen(front, slot, time)
    ensures MarkedThen(front + [last], slot, time)
  {
    var i :| 0 <= i < |front| && front[i].slot == slot && front[i].now == time;
    assert (front + [last])[i] == front[i];
  }

  lemma NoRow(slot: nat)
    ensures At(map[], slot) == None
  {
  }

  lemma NoMarks(rows: Rows, marks: seq<Mark>, cooldown: int)
    requires marks == []
    ensures AfterMarks(rows, marks, cooldown) == rows
  {
  }

  /** What a search and its rivals write. */
  lemma {:induction false} MarkMembers(candidates: seq<Key>, n: nat, reply: nat -> Reply, fp: string -> string, times: nat -> int,
                                       rivals: nat -> seq<Mark>, m: Mark)
    requires n <= |candidates|
    requires forall i :: 0 <= i < n ==> reply(candidates[i].slot).Rejected?
    ensures m in MarksOf(candidates, n, reply, fp, times, rivals) <==>
              exists i :: 0 <= i < n && (m in rivals(i) || m == OwnMark(candidates, i, reply, fp, times))
  {
    hide OwnMark;
    if n > 0 { MarkMembers(candidates, n - 1, reply, fp, times, rivals, m); }
  }

  /** Rivals mark keys of the same pool, not before the search began. */
  ghost predicate Rivals(rivals: nat -> seq<Mark>, n: nat, keys: seq<Key>, fp: string -> string, now: int) {
    forall i, m, k :: 0 <= i < n && m in rivals(i) && k in keys && k.slot == m.slot ==> m.fingerprint == fp(k.secret) && m.now >= now
  }

  ghost predicate Untouched(rivals: nat -> seq<Mark>, n: nat, slot: nat) {
    forall i, m :: 0 <= i < n && m in rivals(i) ==> m.slot != slot
  }

  /** After a search that rejected every candidate, whatever rivals marked meanwhile:
      a key that was tried comes back exactly one cooldown after its timer, which is
      the time of a mark less than one cooldown before its own mark, or later, and its
      own mark's time if no rival marked it.  A key that was already cooling down and
      that no rival marked comes back exactly when it would have. */
  lemma AfterAllExhausted(rows: Rows, keys: seq<Key>, reply: nat -> Reply, fp: string -> string, now: int, times: nat -> int,
                          rivals: nat -> seq<Mark>, cooldown: int, t: int)
    requires DistinctSlots(keys)
    requires var c := Candidates(rows, keys, fp, now, cooldown);
      && Rejections(c, reply) == |c| && Rivals(rivals, |c|, keys, fp, now)
      && forall i :: 0 <= i < |c| ==> times(i) >= now
    ensures var c := Candidates(rows, keys, fp, now, cooldown);
            var marks := MarksOf(c, |c|, reply, fp, times, rivals);
            var after := AfterMarks(rows, marks, cooldown);
      && (forall i :: 0 <= i < |c| ==>
            var row := At(after, c[i].slot);
            && row.Some? && row.value.exhaustedAt.Some?
            && MarkedThen(marks, c[i].slot, row.value.exhaustedAt.value)
            && (cooldown > 0 ==> times(i) < row.value.exhaustedAt.value + cooldown)
            && (Untouched(rivals, |c|, c[i].slot) ==> row.value.exhaustedAt.value == times(i))
            && (Usable(row, fp(c[i].secret), t, cooldown) <==> t >= row.value.exhaustedAt.value + cooldown))
      && (forall k :: k in keys && k !in c && Untouched(rivals, |c|, k.slot) ==>
            (Usable(At(after, k.slot), fp(k.secret), t, cooldown) <==> Usable(At(rows, k.slot), fp(k.secret), t, cooldown)))
  {
    hide AfterMarks, MarksOf, Candidates, Rejections, At, OwnMark, Usable, DistinctSlots;
    var c := Candidates(rows, keys, fp, now, cooldown);
    var marks := MarksOf(c, |c|, reply, fp, times, rivals);
    CandidateMembers(rows, keys, fp, now, cooldown);
    CandidatesDistinct(rows, keys, fp, now, cooldown);
    forall i | 0 <= i < |c|
      ensures var row := At(AfterMarks(rows, marks, cooldown), c[i].slot);
        && row.Some? && row.value.exhaustedAt.Some?
        && MarkedThen(marks, c[i].slot, row.value.exhaustedAt.value)
        && (cooldown > 0 ==> times(i) < row.value.exhaustedAt.value + cooldown)
        && (Untouched(rivals, |c|, c[i].slot) ==> row.value.exhaustedAt.value == times(i))
        && (Usable(row, fp(c[i].secret), t, cooldown) <==> t >= row.value.exhaustedAt.value + cooldown)
    {
      TriedKey(rows, keys, c, i, reply, fp, now, times, rivals, cooldown, t);
    }
    forall k | k in keys && k !in c && Untouched(rivals, |c|, k.slot)
      ensures At(AfterMarks(rows, marks, cooldown), k.slot) == At(rows, k.slot)
    {
      SlotsApart(keys, c, k);
      forall m | m in marks ensures m.slot != k.slot {
        MarkMembers(c, |c|, reply, fp, times, rivals, m);
        OwnSlots(c, reply, fp, times);
      }
      OtherSlots(rows, marks, k.slot, cooldown);
    }
  }

  lemma OwnSlots(c: seq<Key>, reply: nat -> Reply, fp: string -> string, times: nat -> int)
    requires forall i :: 0 <= i < |c| ==> reply(c[i].slot).Rejected?
    ensures forall i :: 0 <= i < |c| ==> OwnMark(c, i, reply, fp, times).slot == c[i].slot
  {
  }

  lemma TriedKey(rows: Rows, keys: seq<Key>, c: seq<Key>, i: nat, reply: nat -> Reply, fp: string -> string, now: int, times: nat -> int,
                 rivals: nat -> seq<Mark>, cooldown: int, t: int)
    requires DistinctSlots(c) && i < |c| && forall k :: k in c ==> k in keys
    requires Usable(At(rows, c[i].slot), fp(c[i].secret), now, cooldown)
    requires forall j :: 0 <= j < |c| ==> reply(c[j].slot).Rejected? && times(j) >= now
    requires Rivals(rivals, |c|, keys, fp, now)
    ensures var marks := MarksOf(c, |c|, reply, fp, times, rivals);
            var row := At(AfterMarks(rows, marks, cooldown), c[i].slot);
      && row.Some? && row.value.exhaustedAt.Some?
      && MarkedThen(marks, c[i].slot, row.value.exhaustedAt.value)
      && (cooldown > 0 ==> times(i) < row.value.exhaustedAt.value + cooldown)
      && (Untouched(rivals, |c|, c[i].slot) ==> row.value.exhaustedAt.value == times(i))
      && (Usable(row, fp(c[i].secret), t, cooldown) <==> t >= row.value.exhaustedAt.value + cooldown)
  {
    hide AfterMarks, MarksOf, At, OwnMark, Usable;
    var marks, slot, fingerprint := MarksOf(c, |c|, reply, fp, times, rivals), c[i].slot, fp(c[i].secret);
    forall m | m in marks && m.slot == slot
      ensures m.fingerprint == fingerprint && m.now >= now && (Untouched(rivals, |c|, slot) ==> m.now == times(i))
    {
      MarkMembers(c, |c|, reply, fp, times, rivals, m);
      var j :| 0 <= j < |c| && (m in rivals(j) || m == OwnMark(c, j, reply, fp, times));
      if m in rivals(j) {
        assert c[i] in c;
      } else {
        OwnMarkIs(c, j, reply, fp, times);
        assert j == i;
      }
    }
    MarkMembers(c, |c|, reply, fp, times, rivals, OwnMark(c, i, reply, fp, times));
    OwnMarkIs(c, i, reply, fp, times);
    SlotTimer(rows, marks, slot, fingerprint, now, cooldown);
    var row := At(AfterMarks(rows, marks, cooldown), slot);
    assert OwnMark(c, i, reply, fp, times) in marks;
    UsableAgain(row, fingerprint, t, cooldown);
    if Untouched(rivals, |c|, slot) {
      var k :| 0 <= k < |marks| && marks[k].slot == slot && marks[k].now == row.value.exhaustedAt.value;
      assert marks[k] in marks;
    }
  }

  lemma UsableAgain(row: Option<SlotRow>, fingerprint: string, t: int, cooldown: int)
    requires row.Some? && row.value.fingerprint == fingerprint && row.value.exhaustedAt.Some?
    ensures Usable(row, fingerprint, t, cooldown) <==> t >= row.value.exhaustedAt.value + cooldown
  {
  }

  lemma SlotsApart(keys: seq<Key>, part: seq<Key>, k: Key)
    requires DistinctSlots(keys) && k in keys && k !in part && forall c :: c in part ==> c in keys
    ensures forall i :: 0 <= i < |part| ==> part[i].slot != k.slot
  {
    forall i | 0 <= i < |part| ensures part[i].slot != k.slot {
      assert part[i] in part;
      var a :| 0 <= a < |keys| && keys[a] == k;
      var b :| 0 <= b < |keys| && keys[b] == part[i];
      assert a != b;
    }
  }
}
