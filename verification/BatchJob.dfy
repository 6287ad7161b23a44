/** The same code as one worker runs it without interference: the job row, the
    results hash and the broker as fields that the functions update in place.
    Each method is tied to the function that the transition system uses for the
    same statement. */
module BatchJob {
  import opened BatchProtocol
  import opened BatchSafety

  /** Each counter column counts the stored rows it stands for. */
  ghost predicate InStep(job: Job, results: map<nat, RowResult>) {
    job.matched == |FoundRows(results)| && job.noMatch == |UnfoundRows(results)| && job.failed == |FailedRows(results)|
  }

  lemma InStepByOutcome(job: Job, results: map<nat, RowResult>)
    ensures InStep(job, results) <==> forall o: Outcome :: Counter(job, o) == |RowsWith(results, o)|
  {
    RowsByResult(results);
    hide RowsWith, FoundRows, UnfoundRows, FailedRows;
    assert job.matched == Counter(job, Matched) && job.noMatch == Counter(job, NoMatch) && job.failed == Counter(job, Failed);
    forall o: Outcome ensures InStep(job, results) ==> Counter(job, o) == |RowsWith(results, o)| {
      match o case Matched => case NoMatch => case Failed =>
    }
  }

  /** Counting a newly stored row keeps the counters in step with the hash. */
  lemma CountedOnce(results: map<nat, RowResult>, row: nat, r: RowResult, job: Job)
    requires row !in results && InStep(job, results)
    ensures InStep(Counted(job, OutcomeOf(r)), results[row := r])
  {
    hide RowsWith, InStep;
    InStepByOutcome(job, results);
    InStepByOutcome(Counted(job, OutcomeOf(r)), results[row := r]);
    forall o: Outcome ensures Counter(Counted(job, OutcomeOf(r)), o) == |RowsWith(results[row := r], o)| {
      RowsWithInsert(results, row, r, o);
    }
  }

  /** With every counter in step, a full count means a full hash. */
  lemma FullCount(job: Job, results: map<nat, RowResult>)
    requires InStep(job, results) && job.processed == job.matched + job.noMatch + job.failed
    requires results.Keys <= Below(job.dispatched) && job.dispatched <= job.total
    ensures job.processed == |results| <= job.dispatched
    ensures job.processed >= job.total ==> results.Keys == Below(job.total) && job.dispatched == job.total
  {
    hide RowsWith, Below, FoundRows, UnfoundRows, FailedRows;
    RowsPartition(results);
    RowsByResult(results);
    StoredAtMost(results, job.dispatched);
    if job.processed >= job.total { AllStored(results, job.dispatched); }
  }

  /** While the hash stands, the counters count it outcome by outcome, only
      claimed rows are stored or published, and finalize was sent if claimed. */
  ghost predicate Consistent(job: Job, results: map<nat, RowResult>, queue: seq<nat>, finalizeSent: nat) {
    && job.dispatched <= job.total
    && job.processed == job.matched + job.noMatch + job.failed
    && (!job.completed ==> results.Keys <= Below(job.dispatched) && InStep(job, results))
    && (forall m :: 0 <= m < |queue| ==> queue[m] < job.dispatched)
    && (job.total > 0 ==> finalizeSent == if job.claimed then 1 else 0)
  }

  lemma EmptyConsistent(total: nat, halted: bool, finalizeSent: nat)
    requires total > 0 ==> finalizeSent == 0
    ensures Consistent(Job(total, 0, 0, 0, 0, 0, false, false, halted), map[], [], finalizeSent)
  {
    assert FoundRows(map[]) == {} && UnfoundRows(map[]) == {} && FailedRows(map[]) == {};
  }

  lemma Bounds(job: Job, results: map<nat, RowResult>, queue: seq<nat>, finalizeSent: nat)
    requires Consistent(job, results, queue, finalizeSent) && !job.completed
    ensures job.dispatched <= job.total && forall i :: i in results ==> i < job.dispatched
  {
    hide InStep;
  }

  lemma CursorAdvances(job: Job, results: map<nat, RowResult>, queue: seq<nat>, finalizeSent: nat, d: nat)
    requires Consistent(job, results, queue, finalizeSent) && job.dispatched <= d <= job.total
    ensures Consistent(job.(dispatched := d), results, queue, finalizeSent)
  {
    hide FoundRows, UnfoundRows, FailedRows;
  }

  lemma RowCounted(job: Job, results: map<nat, RowResult>, queue: seq<nat>, finalizeSent: nat, row: nat, r: RowResult)
    requires Consistent(job, results, queue, finalizeSent) && row < job.dispatched && row !in results
    ensures Consistent(Counted(job, OutcomeOf(r)), results[row := r], queue, finalizeSent)
  {
    hide RowsWith;
    if !job.completed { CountedOnce(results, row, r, job); }
  }

  /** No other claimant moves the cursor during a claim. */
  function Unopposed(): seq<nat> { [0, 0, 0, 0, 0] }

  // ----- What handling a set of rows means -----------------------------------

  /** The hash entries of rows whose arguments are gone. */
  function GivenUp(rows: set<nat>): map<nat, RowResult> { map i | i in rows :: UNRECOVERABLE }

  /** Handling exactly these rows takes queue q and hash r to q' and r': each row whose
      arguments exist is published once, each other row is recorded as failed, and
      nothing else is published or stored. */
  ghost predicate Handles(q: seq<nat>, q': seq<nat>, r: map<nat, RowResult>, r': map<nat, RowResult>, rows: set<nat>, recoverable: set<nat>) {
    && q <= q' && multiset(q') == multiset(q) + multiset(rows * recoverable)
    && r' == r + GivenUp(rows - recoverable)
  }

  lemma HandlesNothing(q: seq<nat>, r: map<nat, RowResult>, recoverable: set<nat>)
    ensures Handles(q, q, r, r, {}, recoverable)
  {
    assert {} * recoverable == {};
    assert GivenUp({} - recoverable) == map[];
  }

  lemma HandlesBoth(q: seq<nat>, q': seq<nat>, q'': seq<nat>, r: map<nat, RowResult>, r': map<nat, RowResult>, r'': map<nat, RowResult>,
                    a: set<nat>, b: set<nat>, recoverable: set<nat>)
    requires Handles(q, q', r, r', a, recoverable) && Handles(q', q'', r', r'', b, recoverable) && a !! b
    ensures Handles(q, q'', r, r'', a + b, recoverable)
  {
    assert (a + b) * recoverable == a * recoverable + b * recoverable;
    assert multiset((a + b) * recoverable) == multiset(a * recoverable) + multiset(b * recoverable);
    assert r + GivenUp(a - recoverable) + GivenUp(b - recoverable) == r + GivenUp((a + b) - recoverable);
  }

  lemma HandlesSend(q: seq<nat>, r: map<nat, RowResult>, row: nat, recoverable: set<nat>)
    requires row in recoverable
    ensures Handles(q, q + [row], r, r, {row}, recoverable)
  {
    assert {row} * recoverable == {row} && GivenUp({row} - recoverable) == map[];
    assert multiset(q + [row]) == multiset(q) + multiset{row};
  }

  lemma HandlesGiveUp(q: seq<nat>, r: map<nat, RowResult>, row: nat, recoverable: set<nat>)
    requires row !in recoverable
    ensures Handles(q, q, r, r[row := UNRECOVERABLE], {row}, recoverable)
  {
    assert {row} * recoverable == {} && {row} - recoverable == {row};
    assert r[row := UNRECOVERABLE] == r + GivenUp({row});
  }

  /** So afterwards each handled row is in the broker exactly once or recorded as
      failed, never both, as its arguments decide. */
  lemma HandledRow(q: seq<nat>, q': seq<nat>, r: map<nat, RowResult>, r': map<nat, RowResult>, rows: set<nat>, recoverable: set<nat>, i: nat)
    requires Handles(q, q', r, r', rows, recoverable) && i in rows && i !in q && i !in r
    ensures i in recoverable ==> multiset(q')[i] == 1 && i !in r'
    ensures i !in recoverable ==> i !in q' && i in r' && r'[i] == FailedRow("row arguments unrecoverable (upload no longer available)")
  {
    assert multiset(q')[i] == multiset(q)[i] + multiset(rows * recoverable)[i];
    assert i in q' <==> i in multiset(q');
  }

  lemma RowsJoin(a: nat, b: nat, c: nat)
    requires a <= b <= c
    ensures RowsFrom(a, b) + RowsFrom(b, c) == RowsFrom(a, c) && RowsFrom(a, b) !! RowsFrom(b, c)
    ensures RowsFrom(a, a) == {}
  {
  }

  /** The rows of a window [from, to) handled up to idx, and of all later windows. */
  function Done(from: nat, idx: nat, to: nat, d: nat): set<nat> { RowsFrom(from, idx) + RowsFrom(to, d) }

  lemma DoneNext(from: nat, idx: nat, to: nat, d: nat, d': nat)
    requires from <= idx < to <= d <= d'
    ensures Done(from, idx, to, d) !! {idx} + RowsFrom(d, d')
    ensures Done(from, idx, to, d) + ({idx} + RowsFrom(d, d')) == Done(from, idx + 1, to, d')
  {
  }

  lemma DoneEnds(from: nat, to: nat, d: nat)
    requires from <= to <= d
    ensures Done(from, to, to, d) == RowsFrom(from, d)
    ensures Done(from, from, d, d) == {}
  {
  }

  /** No row from `from` on can still get its arguments. */
  ghost predicate NoneRecoverable(recoverable: set<nat>, total: nat, from: nat) {
    forall i: nat :: from <= i < total ==> i !in recoverable
  }

  lemma NoneLater(recoverable: set<nat>, total: nat, from: nat, later: nat)
    requires from <= later
    ensures NoneRecoverable(recoverable, total, from) ==> NoneRecoverable(recoverable, total, later)
  {
  }

  /** How many rows of a stretch can be published. */
  ghost function Sendable(from: nat, to: nat, recoverable: set<nat>): nat { |RowsFrom(from, to) * recoverable| }

  lemma SendableNext(from: nat, idx: nat, recoverable: set<nat>)
    requires from <= idx
    ensures Sendable(from, idx + 1, recoverable) == Sendable(from, idx, recoverable) + if idx in recoverable then 1 else 0
  {
    hide RowsFrom;
    var before, after := RowsFrom(from, idx) * recoverable, RowsFrom(from, idx + 1) * recoverable;
    if idx in recoverable {
      assert after == before + {idx};
    } else {
      assert after == before;
    }
  }

  lemma SendableNone(from: nat, recoverable: set<nat>)
    ensures Sendable(from, from, recoverable) == 0
  {
    assert RowsFrom(from, from) * recoverable == {};
  }

  /** What the upload turned out to hold. */
  datatype Upload = Unreadable | Parsed(rows: nat)

  class JobStore {
    var job: Job                      // the job row, read and written by column
    var results: map<nat, RowResult>  // the results hash
    var queue: seq<nat>               // rows published to the agentic queue
    var finalizeSent: nat
    var output: seq<seq<RowResult>>   // as in Storage
    var uploadDeleted: bool
    const chunk: int                  // AGENTIC_ROUNDROBIN_CHUNK

    constructor (chunk: int)
      ensures Valid() && Settled() && this.chunk == chunk
      ensures job == Job(0, 0, 0, 0, 0, 0, false, false, false) && queue == [] && results == map[]
      ensures finalizeSent == 0 && output == [] && !uploadDeleted
    {
      hide Consistent;
      this.chunk := chunk;
      job := Job(0, 0, 0, 0, 0, 0, false, false, false);
      results, queue, finalizeSent, output, uploadDeleted := map[], [], 0, [], false;
      EmptyConsistent(0, false, 0);
    }

    ghost predicate Valid()
      reads this
    {
      Consistent(job, results, queue, finalizeSent)
    }

    /** A fully counted job has been claimed. */
    ghost predicate Settled()
      reads this
    {
      job.total > 0 && job.processed >= job.total ==> job.claimed
    }

    /** HSETNX: only the first writer of a row wins. */
    method StoreRowResult(row: nat, r: RowResult) returns (won: bool)
      modifies this`results
      ensures won <==> row !in old(results)
      ensures results == if won then old(results)[row := r] else old(results)
    {
      won := row !in results;
      if won {
        results := results[row := r];
      }
    }

    method BumpCounters(o: Outcome)
      modifies this`job
      ensures job == Counted(old(job), o)
    {
      match o
      case Matched => job := job.(processed := job.processed + 1, matched := job.matched + 1);
      case NoMatch => job := job.(processed := job.processed + 1, noMatch := job.noMatch + 1);
      case Failed => job := job.(processed := job.processed + 1, failed := job.failed + 1);
    }

    method ClaimFinalize() returns (won: bool)
      modifies this`job
      ensures won <==> Claimable(old(job))
      ensures job == if won then old(job).(claimed := true) else old(job)
    {
      won := !job.claimed && job.processed >= job.total;
      if won {
        job := job.(claimed := true);
      }
    }

    /** The compare-and-swap loop on the dispatch cursor.  rivals[t] is how far
        other claimants move the cursor between the read and the UPDATE of attempt
        t; the window returned starts where the cursor then stood, so no two
        claims overlap, and giving up means losing all five races. */
    method ClaimRowWindow(limit: int, rivals: seq<nat>) returns (from: nat, to: nat)
      requires job.dispatched <= job.total && |rivals| == MAX_CAS
      modifies this`job
      ensures old(job.dispatched) <= job.dispatched <= job.total
      ensures job == old(job).(dispatched := job.dispatched)
      ensures from < to ==> old(job.dispatched) <= from && to == job.dispatched == Min(from + limit, job.total)
      ensures from >= to ==> from == to == 0
      ensures from >= to && limit > 0 && !job.completed && !job.halted && old(job.dispatched) < job.total ==>
                job.dispatched == job.total || forall t :: 0 <= t < MAX_CAS ==> rivals[t] > 0
      ensures rivals == Unopposed() ==>
                if limit > 0 && !job.completed && !job.halted && old(job.dispatched) < job.total
                then from == old(job.dispatched) < to else from == to && job == old(job)
    {
      from, to := 0, 0;
      if limit <= 0 {
        return;
      }
      var attempt := 0;
      while attempt < MAX_CAS
        invariant 0 <= attempt <= MAX_CAS && from == to == 0 && job.dispatched <= job.total
        invariant job == old(job).(dispatched := job.dispatched) && old(job.dispatched) <= job.dispatched
        invariant forall t :: 0 <= t < attempt ==> rivals[t] > 0
        invariant attempt == 0 ==> job == old(job)
      {
        if job.completed || job.halted || job.dispatched >= job.total {
          return;
        }
        var seen := job.dispatched;
        // Other claimants, while this one holds a possibly stale value.
        job := job.(dispatched := Min(job.dispatched + rivals[attempt], job.total));
        if job.dispatched == seen {
          job := job.(dispatched := Min(seen + limit, job.total));
          return seen, job.dispatched;
        }
        attempt := attempt + 1;
      }
      assert rivals[0] > 0;
    }

    /** Row processing moves the cursor and handles exactly the rows it passes, on top
        of the hash `stored`; status, total, output and upload stay. */
    twostate predicate Forward(stored: map<nat, RowResult>, recoverable: set<nat>)
      reads this
    {
      && job.total == old(job.total) && job.completed == old(job.completed) && job.halted == old(job.halted)
      && output == old(output) && uploadDeleted == old(uploadDeleted)
      && old(job.dispatched) <= job.dispatched
      && Handles(old(queue), queue, stored, results, RowsFrom(old(job.dispatched), job.dispatched), recoverable)
    }

    /** With nothing recoverable, every remaining row is given up in the end. */
    twostate predicate Drains(from: nat, recoverable: set<nat>)
      reads this
    {
      chunk > 0 && !job.halted && NoneRecoverable(recoverable, job.total, from) ==> job.dispatched == job.total
    }

    /** The terminal part of a row task, and _record_failed_row: store once, count
        once, then try to finish the job or refill its window.  `recoverable` says
        which rows' arguments _row_args_for can still produce. */
    method RecordRow(row: nat, r: RowResult, recoverable: set<nat>)
      requires Valid() && Settled() && row < job.dispatched && !job.completed
      modifies this
      ensures Valid() && Settled()
      ensures Forward(if row in old(results) then old(results) else old(results)[row := r], recoverable)
      ensures Drains(old(job.dispatched), recoverable)
      decreases job.total - job.dispatched, 2
    {
      hide Handles, Consistent, NoneRecoverable;
      StoreAndCount(row, r);
      AfterRowTerminal(recoverable);
    }

    method StoreAndCount(row: nat, r: RowResult)
      requires Valid() && row < job.dispatched
      modifies this`job, this`results
      ensures Valid()
      ensures results == if row in old(results) then old(results) else old(results)[row := r]
      ensures row in old(results) ==> job == old(job)
      ensures row !in old(results) ==> job == old(job).(
                processed := old(job.processed) + 1,
                matched := old(job.matched) + (if r.Answered? && r.presentInDb then 1 else 0),
                noMatch := old(job.noMatch) + (if r.Answered? && !r.presentInDb then 1 else 0),
                failed := old(job.failed) + (if r.FailedRow? then 1 else 0))
    {
      hide Consistent;
      var won := StoreRowResult(row, r);
      if won {
        RowCounted(job, old(results), queue, finalizeSent, row, r);
        BumpCounters(OutcomeOf(r));
      }
    }

    /** Counter-based completion trigger, else self-refill. */
    method AfterRowTerminal(recoverable: set<nat>)
      requires Valid() && !job.completed
      modifies this
      ensures Valid() && Settled() && Forward(old(results), recoverable)
      ensures Drains(old(job.dispatched), recoverable)
      decreases job.total - job.dispatched, 1
    {
      hide Handles, RowsFrom, NoneRecoverable, RowsWith, Below;
      FullCount(job, results);
      RowsJoin(job.dispatched, job.dispatched, job.dispatched);
      HandlesNothing(queue, results, recoverable);
      var won := ClaimFinalize();
      if won {
        finalizeSent := finalizeSent + 1;
        return;
      }
      var _ := EnqueueNextWindow(chunk, recoverable);
    }

    /** Claim a window and publish it; a row whose arguments are gone is recorded
        as failed at once, which may claim and handle further windows. */
    method EnqueueNextWindow(limit: int, recoverable: set<nat>) returns (published: nat)
      requires Valid() && Settled() && !job.completed
      modifies this
      ensures Valid() && Settled() && Forward(old(results), recoverable)
      ensures limit > 0 && !job.halted ==> job.dispatched >= Min(old(job.dispatched) + limit, job.total)
      ensures published == if limit <= 0 || job.halted then 0
                           else Sendable(old(job.dispatched), Min(old(job.dispatched) + limit, job.total), recoverable)
      ensures limit > 0 ==> Drains(old(job.dispatched), recoverable)
      decreases job.total - job.dispatched, 0
    {
      hide Handles, NoneRecoverable, Sendable, RowsFrom, Consistent;
      published := 0;
      RowsJoin(job.dispatched, job.dispatched, job.dispatched);
      HandlesNothing(queue, results, recoverable);
      SendableNone(job.dispatched, recoverable);
      Bounds(job, results, queue, finalizeSent);
      var from, to := ClaimRowWindow(limit, Unopposed());
      CursorAdvances(old(job), results, queue, finalizeSent, job.dispatched);
      if from < to {
        published := PublishWindow(from, to, recoverable);
      }
    }

    /** The publishing loop over a claimed window. */
    method PublishWindow(from: nat, to: nat, recoverable: set<nat>) returns (published: nat)
      requires Valid() && Settled() && !job.completed && from < to == job.dispatched
      requires forall i :: i in results ==> i < from
      modifies this
      ensures Valid() && Settled() && to <= job.dispatched
      ensures Handles(old(queue), queue, old(results), results, RowsFrom(from, job.dispatched), recoverable)
      ensures published == Sendable(from, to, recoverable)
      ensures job.total == old(job.total) && !job.completed && job.halted == old(job.halted)
      ensures output == old(output) && uploadDeleted == old(uploadDeleted)
      ensures Drains(from, recoverable)
      decreases job.total - job.dispatched, 5
    {
      hide Handles, Consistent, NoneRecoverable, Done, RowsFrom, Sendable;
      published := 0;
      var idx := from;
      DoneEnds(from, to, to);
      HandlesNothing(queue, results, recoverable);
      SendableNone(from, recoverable);
      while idx < to
        invariant from <= idx <= to <= job.dispatched && !job.completed && job.halted == old(job.halted)
        invariant Valid() && Settled() && published == Sendable(from, idx, recoverable)
        invariant Handles(old(queue), queue, old(results), results, Done(from, idx, to, job.dispatched), recoverable)
        invariant job.total == old(job.total) && output == old(output) && uploadDeleted == old(uploadDeleted)
        invariant idx > from ==> Drains(from, recoverable)
      {
        SendableNext(from, idx, recoverable);
        Bounds(job, results, queue, finalizeSent);
        var sent := HandleRow(idx, recoverable, old(queue), old(results), from, to);
        if sent { published := published + 1; }
        idx := idx + 1;
      }
      DoneEnds(from, to, job.dispatched);
    }

    /** One iteration of the publishing loop. */
    method HandleRow(idx: nat, recoverable: set<nat>, ghost q0: seq<nat>, ghost r0: map<nat, RowResult>, ghost from: nat, ghost to: nat)
      returns (sent: bool)
      requires Valid() && Settled() && from <= idx < to <= job.dispatched && !job.completed
      requires forall i :: i in r0 ==> i < from
      requires Handles(q0, queue, r0, results, Done(from, idx, to, job.dispatched), recoverable)
      modifies this
      ensures Valid() && Settled() && to <= job.dispatched
      ensures job.total == old(job.total) && job.completed == old(job.completed) && job.halted == old(job.halted)
      ensures output == old(output) && uploadDeleted == old(uploadDeleted)
      ensures Handles(q0, queue, r0, results, Done(from, idx + 1, to, job.dispatched), recoverable)
      ensures sent <==> idx in recoverable
      ensures Drains(from, recoverable)
      decreases job.total - job.dispatched, 4
    {
      hide Handles, Consistent, NoneRecoverable, Done;
      sent := idx in recoverable;
      if sent {
        PublishRow(q0, r0, from, idx, to, recoverable);
      } else {
        RecordUnrecoverable(idx, recoverable, q0, r0, from, to);
      }
    }

    method PublishRow(ghost q0: seq<nat>, ghost r0: map<nat, RowResult>, ghost from: nat, idx: nat, ghost to: nat, ghost recoverable: set<nat>)
      requires idx in recoverable && Valid() && from <= idx < to <= job.dispatched
      requires Handles(q0, queue, r0, results, Done(from, idx, to, job.dispatched), recoverable)
      modifies this`queue
      ensures Valid() && queue == old(queue) + [idx] && !NoneRecoverable(recoverable, job.total, from)
      ensures Handles(q0, queue, r0, results, Done(from, idx + 1, to, job.dispatched), recoverable)
    {
      assert Consistent(job, results, queue + [idx], finalizeSent);
      assert idx < job.total;
      hide Consistent;
      Sent(q0, queue, r0, results, job.dispatched, from, idx, to, recoverable);
      queue := queue + [idx];
    }

    /** One iteration of the publishing loop on a row whose arguments are gone. */
    method RecordUnrecoverable(idx: nat, recoverable: set<nat>,
                               ghost q0: seq<nat>, ghost r0: map<nat, RowResult>, ghost from: nat, ghost to: nat)
      requires idx !in recoverable && Valid() && Settled() && from <= idx < to <= job.dispatched && !job.completed
      requires forall i :: i in r0 ==> i < from
      requires Handles(q0, queue, r0, results, Done(from, idx, to, job.dispatched), recoverable)
      modifies this
      ensures Valid() && Settled() && Forward(old(results)[idx := UNRECOVERABLE], recoverable)
      ensures Handles(q0, queue, r0, results, Done(from, idx + 1, to, job.dispatched), recoverable)
      ensures Drains(from, recoverable)
      decreases job.total - job.dispatched, 3
    {
      ghost var q, r, d := queue, results, job.dispatched;
      NotStoredYet(q0, q, r0, r, d, from, idx, to, recoverable);
      NoneLater(recoverable, job.total, from, d);
      hide Handles, Consistent, NoneRecoverable, Done;
      RecordRow(idx, UNRECOVERABLE, recoverable);
      GaveUp(q0, q, queue, r0, r, results, d, job.dispatched, from, idx, to, recoverable);
    }

    /** dispatch_batch on a freshly created job: an unreadable upload marks the job
        failed and raises; an empty one enqueues finalize; otherwise a first window
        is claimed and handled.  When no row's arguments can be recovered every row
        ends as a failed row and finalize is enqueued nevertheless. */
    method DispatchBatch(upload: Upload, window: int, recoverable: set<nat>) returns (raised: bool)
      requires Valid() && job == Job(0, 0, 0, 0, 0, 0, false, false, false) && results == map[] && queue == [] && finalizeSent == 0
      modifies this
      ensures raised <==> upload.Unreadable?
      ensures raised ==> job == old(job).(halted := true) && results == map[] && queue == [] && finalizeSent == 0
      ensures Valid() && !job.completed && (!raised ==> !job.halted && job.total == upload.rows && Settled())
      ensures !raised && upload.rows == 0 ==> finalizeSent == 1
      ensures Handles([], queue, map[], results, RowsFrom(0, job.dispatched), recoverable)
      ensures !raised && window > 0 ==> job.dispatched >= Min(window, upload.rows)
      ensures !raised && upload.rows > 0 && window > 0 && chunk > 0 && NoneRecoverable(recoverable, upload.rows, 0) ==>
                job.claimed && finalizeSent == 1 && job.failed == upload.rows && results == GivenUp(RowsFrom(0, upload.rows)) && queue == []
    {
      hide Handles, NoneRecoverable, RowsFrom, Consistent;
      RowsJoin(0, 0, 0);
      HandlesNothing([], map[], recoverable);
      EmptyConsistent(0, true, 0);
      EmptyConsistent(0, false, 1);
      if upload.Unreadable? {
        job := job.(halted := true);
        return true;
      }
      raised := false;
      if upload.rows > 0 { EmptyConsistent(upload.rows, false, 0); }
      job := Job(upload.rows, 0, 0, 0, 0, 0, false, false, false);
      if upload.rows == 0 {
        finalizeSent := finalizeSent + 1;
        return;
      }
      var published := EnqueueNextWindow(window, recoverable);
      if job.dispatched == job.total && NoneRecoverable(recoverable, job.total, 0) {
        EveryRowFailed(job, results, queue, finalizeSent, recoverable);
      }
    }

    /** Assembling the table of finalize_batch, row by row. */
    method AssembleResults() returns (rows: seq<RowResult>)
      ensures rows == Assemble(results, job.total) && |rows| == job.total
      ensures forall i :: 0 <= i < |rows| ==>
                rows[i] == if i in results then results[i]
                           else FailedRow("row result missing - task may have crashed without reporting")
    {
      rows := [];
      for i := 0 to job.total
        invariant |rows| == i
        invariant forall j :: 0 <= j < i ==> rows[j] == if j in results then results[j] else MISSING
      {
        if i in results {
          rows := rows + [results[i]];
        } else {
          rows := rows + [MISSING];
        }
      }
    }

    /** One uninterrupted finalize_batch: a no-op on a completed job, a failure with
        nothing changed when the upload cannot be read, else the whole sequence. */
    method FinalizeBatch() returns (ok: bool)
      requires Valid()
      modifies this
      ensures ok <==> old(job.completed) || !old(uploadDeleted)
      ensures old(job.completed) || old(uploadDeleted) ==>
                job == old(job) && output == old(output) && results == old(results) && uploadDeleted == old(uploadDeleted)
      ensures !old(job.completed) && !old(uploadDeleted) ==>
                && job == old(job).(completed := true, halted := false)
                && output == [Assemble(old(results), old(job.total))]
                && results == map[] && uploadDeleted
      ensures Valid() && queue == old(queue) && finalizeSent == old(finalizeSent)
    {
      if job.completed {
        return true;
      }
      if uploadDeleted {
        return false;
      }
      var rows := AssembleResults();
      output := [rows];
      job := job.(completed := true, halted := false);
      uploadDeleted := true;
      results := map[];
      ok := true;
    }

    /** scheduler_state's report on this job, if it reports it at all. */
    method SchedulerState() returns (listed: bool, outstanding: int, remaining: int)
      requires Valid()
      ensures !job.completed && !job.halted ==> outstanding == job.dispatched - |results| && remaining == job.total - job.dispatched
      ensures !job.completed && !job.halted ==> (listed <==> |results| < job.total)
      ensures job.completed || job.halted ==> !listed
    {
      if job.completed || job.halted {
        return false, 0, 0;
      }
      FullCount(job, results);
      outstanding := if job.dispatched - job.processed > 0 then job.dispatched - job.processed else 0;
      remaining := if job.total - job.dispatched > 0 then job.total - job.dispatched else 0;
      listed := !(outstanding == 0 && remaining == 0);
    }
  }

  // ----- Steps of the publishing loop ----------------------------------------

  lemma Sent(q0: seq<nat>, q: seq<nat>, r0: map<nat, RowResult>, r: map<nat, RowResult>, d: nat,
             from: nat, idx: nat, to: nat, recoverable: set<nat>)
    requires from <= idx < to <= d && idx in recoverable && Handles(q0, q, r0, r, Done(from, idx, to, d), recoverable)
    ensures Handles(q0, q + [idx], r0, r, Done(from, idx + 1, to, d), recoverable)
  {
    DoneNext(from, idx, to, d, d);
    RowsJoin(d, d, d);
    hide Handles, Done;
    assert {idx} + {} == {idx};
    HandlesSend(q, r, idx, recoverable);
    HandlesBoth(q0, q, q + [idx], r0, r, r, Done(from, idx, to, d), {idx}, recoverable);
  }

  lemma NotStoredYet(q0: seq<nat>, q: seq<nat>, r0: map<nat, RowResult>, r: map<nat, RowResult>, d: nat,
                     from: nat, idx: nat, to: nat, recoverable: set<nat>)
    requires from <= idx < to <= d && Handles(q0, q, r0, r, Done(from, idx, to, d), recoverable)
    requires forall i :: i in r0 ==> i < from
    ensures idx !in r
  {
  }

  /** Recording row idx may claim and handle further windows, from d to d'. */
  lemma GaveUp(q0: seq<nat>, q: seq<nat>, q': seq<nat>, r0: map<nat, RowResult>, r: map<nat, RowResult>, r': map<nat, RowResult>,
               d: nat, d': nat, from: nat, idx: nat, to: nat, recoverable: set<nat>)
    requires from <= idx < to <= d <= d' && idx !in recoverable && Handles(q0, q, r0, r, Done(from, idx, to, d), recoverable)
    requires Handles(q, q', r[idx := UNRECOVERABLE], r', RowsFrom(d, d'), recoverable)
    ensures Handles(q0, q', r0, r', Done(from, idx + 1, to, d'), recoverable)
  {
    DoneNext(from, idx, to, d, d');
    hide Handles, Done;
    HandlesGiveUp(q, r, idx, recoverable);
    HandlesBoth(q, q, q', r, r[idx := UNRECOVERABLE], r', {idx}, RowsFrom(d, d'), recoverable);
    HandlesBoth(q0, q, q', r0, r, r', Done(from, idx, to, d), {idx} + RowsFrom(d, d'), recoverable);
  }

  lemma NoneSent(results: map<nat, RowResult>, queue: seq<nat>, total: nat, recoverable: set<nat>)
    requires Handles([], queue, map[], results, RowsFrom(0, total), recoverable) && NoneRecoverable(recoverable, total, 0)
    ensures results == GivenUp(RowsFrom(0, total)) && queue == []
  {
    var rows := RowsFrom(0, total);
    hide RowsFrom;
    assert rows * recoverable == {} && rows - recoverable == rows;
    assert |queue| == |multiset(queue)| == 0;
  }

  lemma AllFailed(total: nat)
    ensures var results := GivenUp(RowsFrom(0, total));
      results.Keys == Below(total) && FoundRows(results) == {} && UnfoundRows(results) == {} && FailedRows(results) == results.Keys
  {
    hide RowsFrom, Below;
  }

  lemma EveryRowFailed(job: Job, results: map<nat, RowResult>, queue: seq<nat>, finalizeSent: nat, recoverable: set<nat>)
    requires Consistent(job, results, queue, finalizeSent) && !job.completed && job.dispatched == job.total
    requires Handles([], queue, map[], results, RowsFrom(0, job.total), recoverable) && NoneRecoverable(recoverable, job.total, 0)
    ensures results == GivenUp(RowsFrom(0, job.total)) && job.failed == job.processed == job.total && queue == []
    ensures job.total > 0 && job.claimed ==> finalizeSent == 1
  {
    NoneSent(results, queue, job.total, recoverable);
    AllFailed(job.total);
    hide Handles, GivenUp, RowsFrom, FoundRows, UnfoundRows, FailedRows, Below;
    assert |Below(job.total)| == job.total && |results| == |results.Keys|;
  }
}
