/** What every interleaving of the batch protocol keeps: the counters agree with
    the results hash, the claimed windows tile the dispatched rows, finalize is
    enqueued once, and only after every row has a stored result. */
module BatchSafety {
  import opened BatchProtocol

  // ----- Sums over the workers -------------------------------------------

  /** What is summed over the workers: bumps and sends that are still to come,
      cursor claims under way, and an upper bound on the steps left to take. */
  datatype Gauge = PendingBumps(outcome: Outcome) | PendingSends | CursorClaims | Work

  function Weigh(g: Gauge, w: Worker): nat {
    match g
    case PendingBumps(o) => if w.pc.Bumping? && w.pc.outcome == o then 1 else 0
    case PendingSends => if w.pc.Sending? then 1 else 0
    case CursorClaims => if w.pc.Reading? || w.pc.Swapping? then 1 else 0
    case Work => PcWork(w.pc) + WindowsWork(w.suspended)
  }

  function WindowWork(w: Window): nat {
    if w.next < w.end then 31 * (w.end - w.next) + 1 else 1
  }

  function WindowsWork(ws: seq<Window>): nat {
    if ws == [] then 0 else WindowsWork(ws[..|ws| - 1]) + WindowWork(ws[|ws| - 1])
  }

  function MessageWork(retries: nat): nat {
    22 + if retries <= MAX_RETRIES then 2 * (MAX_RETRIES - retries) else 0
  }

  /** Each constant leaves room for everything that can follow that point. */
  function PcWork(pc: Pc): nat {
    match pc
    case Running(_, retries) => MessageWork(retries) - 1
    case Recording(_) => 20
    case Bumping(_, _) => 19
    case Claiming => 18
    case Sending => 1
    case Reading(_, tries) => 2 * tries + 2
    case Swapping(_, _, tries) => 2 * tries + 1
    case Publishing(w) => WindowWork(w)
    case Idle => 0
  }

  function Sum(g: Gauge, ws: seq<Worker>): nat {
    if ws == [] then 0 else Sum(g, ws[..|ws| - 1]) + Weigh(g, ws[|ws| - 1])
  }

  lemma {:induction false} SumUpdate(g: Gauge, ws: seq<Worker>, k: nat, w: Worker)
    requires k < |ws|
    ensures Sum(g, ws[k := w]) == Sum(g, ws) - Weigh(g, ws[k]) + Weigh(g, w)
  {
    var n := |ws| - 1;
    if k == n {
      assert ws[k := w][..n] == ws[..n];
    } else {
      assert ws[k := w][..n] == ws[..n][k := w];
      SumUpdate(g, ws[..n], k, w);
    }
  }

  lemma SumAppend(g: Gauge, ws: seq<Worker>, w: Worker)
    ensures Sum(g, ws + [w]) == Sum(g, ws) + Weigh(g, w)
  {
    assert (ws + [w])[..|ws|] == ws;
  }

  lemma {:induction false} SumZero(g: Gauge, ws: seq<Worker>)
    requires Sum(g, ws) == 0
    ensures forall k :: 0 <= k < |ws| ==> Weigh(g, ws[k]) == 0
  {
    if ws != [] {
      SumZero(g, ws[..|ws| - 1]);
      forall k | 0 <= k < |ws| ensures Weigh(g, ws[k]) == 0 {
        assert k < |ws| - 1 ==> ws[k] == ws[..|ws| - 1][k];
      }
    }
  }

  // ----- Rows of the results hash by outcome -----------------------------

  function RowsWith(results: map<nat, RowResult>, o: Outcome): set<nat> {
    set i | i in results && OutcomeOf(results[i]) == o
  }

  /** The stored rows told apart by their results alone: answered with a title that is
      in the database, answered with one that is not, and failed. */
  function FoundRows(results: map<nat, RowResult>): set<nat> {
    set i | i in results && results[i].Answered? && results[i].presentInDb
  }

  function UnfoundRows(results: map<nat, RowResult>): set<nat> {
    set i | i in results && results[i].Answered? && !results[i].presentInDb
  }

  function FailedRows(results: map<nat, RowResult>): set<nat> { set i | i in results && results[i].FailedRow? }

  /** The counter columns stand for these rows. */
  lemma RowsByResult(results: map<nat, RowResult>)
    ensures RowsWith(results, Matched) == FoundRows(results)
    ensures RowsWith(results, NoMatch) == UnfoundRows(results)
    ensures RowsWith(results, Failed) == FailedRows(results)
  {
  }

  lemma RowsWithInsert(results: map<nat, RowResult>, row: nat, r: RowResult, o: Outcome)
    requires row !in results
    ensures |RowsWith(results[row := r], o)| == |RowsWith(results, o)| + if OutcomeOf(r) == o then 1 else 0
  {
    if OutcomeOf(r) == o {
      assert RowsWith(results[row := r], o) == RowsWith(results, o) + {row};
    } else {
      assert RowsWith(results[row := r], o) == RowsWith(results, o);
    }
  }

  lemma RowsPartition(results: map<nat, RowResult>)
    ensures |results| == |RowsWith(results, Matched)| + |RowsWith(results, NoMatch)| + |RowsWith(results, Failed)|
  {
    var m, n, f := RowsWith(results, Matched), RowsWith(results, NoMatch), RowsWith(results, Failed);
    assert results.Keys == m + n + f;
    assert |m + n| == |m| + |n|;
    assert |m + n + f| == |m + n| + |f|;
    assert |results| == |results.Keys|;
  }

  /** The row indices 0 .. n-1. */
  function Below(n: nat): (rows: set<nat>)
    ensures |rows| == n
    ensures forall i: nat :: i in rows <==> i < n
  {
    if n == 0 then {} else Below(n - 1) + {n - 1}
  }

  /** The counting step of the finalize claim: n stored rows among n are all. */
  lemma AllStored(results: map<nat, RowResult>, n: nat)
    requires results.Keys <= Below(n) && |results| >= n
    ensures results.Keys == Below(n)
  {
    var missing := Below(n) - results.Keys;
    assert Below(n) == results.Keys + missing;
    assert |Below(n)| == |results.Keys| + |missing|;
    assert |results| == |results.Keys|;
  }

  lemma StoredAtMost(results: map<nat, RowResult>, n: nat)
    requires results.Keys <= Below(n)
    ensures |results| <= n
  {
    var missing := Below(n) - results.Keys;
    assert Below(n) == results.Keys + missing;
    assert |Below(n)| == |results.Keys| + |missing|;
    assert |results| == |results.Keys|;
  }

  // ----- The invariant ---------------------------------------------------

  ghost predicate WindowOk(w: Window, d: nat) { w.next <= w.end <= d }

  ghost predicate PcOk(w: Worker, d: nat, total: nat) {
    match w.pc
    case Running(row, n) => row < d && n <= MAX_RETRIES && w.suspended == []
    case Recording(row) => row < d
    case Bumping(row, _) => row < d
    case Reading(_, tries) => 1 <= tries <= MAX_CAS
    case Swapping(_, seen, tries) => seen <= d && seen < total && 1 <= tries <= MAX_CAS
    case Publishing(win) => WindowOk(win, d)
    case Idle => w.suspended == []
    case _ => true
  }

  ghost predicate WorkerOk(w: Worker, d: nat, total: nat) {
    PcOk(w, d, total) && forall j :: 0 <= j < |w.suspended| ==> WindowOk(w.suspended[j], d)
  }

  /** Workers and messages only carry rows of claimed windows. */
  ghost predicate WorkersOk(ws: seq<Worker>, d: nat, total: nat) {
    forall k :: 0 <= k < |ws| ==> WorkerOk(ws[k], d, total)
  }

  ghost predicate QueueOk(q: seq<Message>, d: nat) {
    forall m :: 0 <= m < |q| ==> q[m].row < d && q[m].retries <= MAX_RETRIES
  }

  /** Rows cut off were dispatched. */
  ghost predicate DroppedOk(s: State) { s.history.dropped <= Below(s.job.dispatched) }

  /** Only dispatched rows are stored, and until cleanup the stored results are
      the first ones ever stored. */
  ghost predicate RowsOk(storage: Storage, first: map<nat, RowResult>, d: nat) {
    && storage.results.Keys <= Below(d)
    && first.Keys <= Below(d)
    && (!storage.cleaned ==> storage.results == first)
  }

  function Counter(job: Job, o: Outcome): int {
    match o
    case Matched => job.matched
    case NoMatch => job.noMatch
    case Failed => job.failed
  }

  /** Every stored result is counted once, is about to be, or was cut off. */
  ghost predicate Balanced(job: Job, results: map<nat, RowResult>, ws: seq<Worker>, lost: multiset<Outcome>) {
    forall o: Outcome :: Counter(job, o) + Sum(PendingBumps(o), ws) + lost[o] == |RowsWith(results, o)|
  }

  ghost predicate Books(s: State) {
    && s.job.processed == s.job.matched + s.job.noMatch + s.job.failed
    && (!s.storage.cleaned ==> Balanced(s.job, s.storage.results, s.workers, s.history.lost))
  }

  /** The claimed windows follow each other from row 0 to the cursor. */
  ghost predicate Tiled(claims: seq<Window>, d: nat)
    decreases |claims|
  {
    if claims == [] then d == 0
    else
      var last := claims[|claims| - 1];
      last.next < last.end == d && Tiled(claims[..|claims| - 1], last.next)
  }

  /** Finalize is enqueued once per claim unless that send was cut off, plus once by
      the dispatcher of an empty job. */
  ghost predicate SendsOk(s: State) {
    s.finalizeSent + Sum(PendingSends, s.workers) + s.history.cutSends == (if s.job.claimed then 1 else 0) + (if s.job.total == 0 then 1 else 0)
  }

  /** What a claim implies, and what completion and cleanup imply. */
  ghost predicate ClaimOk(s: State) {
    && s.job.dispatched <= s.job.total
    && (s.job.claimed && !s.storage.cleaned ==> s.job.processed >= s.job.total)
    && (s.job.claimed || s.job.total == 0 ==> AllRowsIn(s))
    && (s.history.missedClaim ==> Claimable(s.job))
    && (s.finalizers != [] || s.history.committed ==> s.finalizeSent > 0)
    && (s.storage.cleaned ==> s.storage.uploadDeleted)
    && (s.storage.uploadDeleted || s.job.completed ==> s.history.committed)
    && (s.history.committed ==> s.storage.output != [] && (s.job.completed || s.job.halted))
  }

  /** Every row has been claimed and has a first result, and no bump was cut off. */
  ghost predicate AllRowsIn(s: State) {
    && s.history.first.Keys == Below(s.job.total)
    && s.job.dispatched == s.job.total
    && s.history.lost == multiset{}
  }

  ghost predicate FinalizerOk(f: Finalizer, total: nat, storage: Storage, committed: bool) {
    match f
    case Assembled(rows) => |rows| == total
    case Written => storage.output != []
    case Committed => committed
    case UploadGone => committed && storage.uploadDeleted
    case ResultsGone => committed
    case _ => true
  }

  ghost predicate FinalizersOk(s: State) {
    forall k :: 0 <= k < |s.finalizers| ==> FinalizerOk(s.finalizers[k], s.job.total, s.storage, s.history.committed)
  }

  ghost predicate Inv(s: State) {
    && WorkersOk(s.workers, s.job.dispatched, s.job.total)
    && QueueOk(s.queue, s.job.dispatched)
    && RowsOk(s.storage, s.history.first, s.job.dispatched)
    && DroppedOk(s)
    && Books(s)
    && Tiled(s.history.claims, s.job.dispatched)
    && SendsOk(s)
    && ClaimOk(s)
    && FinalizersOk(s)
  }

  lemma InitialInv(total: nat, window: int, chunk: int)
    ensures Inv(Initial(total, window, chunk))
  {
    var s := Initial(total, window, chunk);
    forall o: Outcome ensures RowsWith(s.storage.results, o) == {} { }
    assert Balanced(s.job, s.storage.results, s.workers, s.history.lost);
  }

  // ----- Preservation, one part of the invariant at a time -----------------

  lemma SumsUpdate(ws: seq<Worker>, k: nat, w: Worker)
    requires k < |ws|
    ensures forall g :: Sum(g, ws[k := w]) == Sum(g, ws) - Weigh(g, ws[k]) + Weigh(g, w)
  {
    forall g ensures Sum(g, ws[k := w]) == Sum(g, ws) - Weigh(g, ws[k]) + Weigh(g, w) {
      SumUpdate(g, ws, k, w);
    }
  }

  lemma SumsAppend(ws: seq<Worker>, w: Worker)
    ensures forall g :: Sum(g, ws + [w]) == Sum(g, ws) + Weigh(g, w)
  {
    forall g ensures Sum(g, ws + [w]) == Sum(g, ws) + Weigh(g, w) {
      SumAppend(g, ws, w);
    }
  }

  lemma WorkersGrow(ws: seq<Worker>, d: nat, d': nat, total: nat)
    requires WorkersOk(ws, d, total) && d <= d'
    ensures WorkersOk(ws, d', total)
  {
  }

  lemma ResumeOk(suspended: seq<Window>, d: nat, total: nat)
    requires forall j :: 0 <= j < |suspended| ==> WindowOk(suspended[j], d)
    ensures WorkerOk(Resume(suspended), d, total)
    ensures forall g: Gauge :: g.PendingBumps? || g.PendingSends? ==> Weigh(g, Resume(suspended)) == 0
  {
  }

  lemma RefillOk(suspended: seq<Window>, limit: int, d: nat, total: nat)
    requires forall j :: 0 <= j < |suspended| ==> WindowOk(suspended[j], d)
    ensures WorkerOk(Refill(suspended, limit), d, total)
    ensures forall g: Gauge :: g.PendingBumps? || g.PendingSends? ==> Weigh(g, Refill(suspended, limit)) == 0
  {
    ResumeOk(suspended, d, total);
  }

  ghost predicate CrewOk(s: State) {
    WorkersOk(s.workers, s.job.dispatched, s.job.total) && QueueOk(s.queue, s.job.dispatched)
  }

  /** A row step moves one worker and sends at most one message. */
  lemma RowMoves(s: State, l: Label)
    requires Enabled(s, l) && RowLabel(l)
    ensures var s' := RowStep(s, l);
      && |s'.workers| == |s.workers| && s'.workers == s.workers[l.k := s'.workers[l.k]]
      && s'.job.dispatched == s.job.dispatched && s'.job.total == s.job.total
      && s'.history.claims == s.history.claims && s'.history.committed == s.history.committed
      && s'.storage.cleaned == s.storage.cleaned && s'.finalizers == s.finalizers
      && s'.queue == (if l.Retry? then s.queue + [Message(s.workers[l.k].pc.row, s.workers[l.k].pc.retries + 1)] else s.queue)
  {
    hide Refill, Resume, Claimable, OutcomeOf, Halts;
  }

  /** Where it moves the worker, and what the worker will still do there. */
  lemma RowActor(s: State, l: Label)
    requires Enabled(s, l) && RowLabel(l)
    ensures var w, w' := s.workers[l.k], RowStep(s, l).workers[l.k];
      && (WorkerOk(w, s.job.dispatched, s.job.total) ==> WorkerOk(w', s.job.dispatched, s.job.total))
      && Weigh(PendingSends, w') == (if l.Claim? && Claimable(s.job) then 1 else 0)
      && (forall o :: Weigh(PendingBumps(o), w') ==
            if l.Store? && w.pc.row !in s.storage.results && OutcomeOf(l.r) == o then 1 else 0)
  {
    hide Claimable, OutcomeOf, Halts, CutOff, Remember, Counted;
    var w := s.workers[l.k];
    if WorkerOk(w, s.job.dispatched, s.job.total) {
      RefillOk(w.suspended, s.chunk, s.job.dispatched, s.job.total);
      ResumeOk(w.suspended, s.job.dispatched, s.job.total);
    }
  }

  lemma RowCrew(s: State, l: Label)
    requires CrewOk(s) && Enabled(s, l) && RowLabel(l)
    ensures CrewOk(RowStep(s, l))
  {
    assert WorkerOk(s.workers[l.k], s.job.dispatched, s.job.total);
    RowMoves(s, l);
    RowActor(s, l);
    if l.Retry? {
      assert PcOk(s.workers[l.k], s.job.dispatched, s.job.total);
    }
    hide RowStep, WorkerOk;
  }

  lemma WindowCrew(s: State, l: Label)
    requires CrewOk(s) && Enabled(s, l) && WindowLabel(l) && s.job.dispatched <= s.job.total
    ensures CrewOk(WindowStep(s, l))
  {
    var d, total, k := s.job.dispatched, s.job.total, l.k;
    assert WorkerOk(s.workers[k], d, total);
    ResumeOk(s.workers[k].suspended, d, total);
    if l.Swap? { SwapCrew(s, k); }
  }

  lemma SwapCrew(s: State, k: nat)
    requires CrewOk(s) && Enabled(s, Swap(k)) && s.job.dispatched <= s.job.total
    ensures CrewOk(SwapStep(s, k))
  {
    var d, total := s.job.dispatched, s.job.total;
    assert WorkerOk(s.workers[k], d, total);
    ResumeOk(s.workers[k].suspended, d, total);
    WorkersGrow(s.workers, d, SwapStep(s, k).job.dispatched, total);
  }

  lemma ArrivalCrew(s: State, l: Label)
    requires CrewOk(s) && Enabled(s, l) && ArrivalLabel(l)
    ensures CrewOk(ArrivalStep(s, l))
  {
    match l
    case TopUp(limit) => RefillOk([], limit, s.job.dispatched, s.job.total);
    case _ =>
  }

  /** What the acting worker's own point says about the rows it touches. */
  ghost predicate ActorOk(s: State, l: Label)
    requires Enabled(s, l)
  {
    match l
    case Store(k, _) => s.workers[k].pc.row < s.job.dispatched
    case Interrupt(k, _) => PcOk(s.workers[k], s.job.dispatched, s.job.total)
    case Swap(k) => s.workers[k].pc.seen < s.job.total
    case _ => true
  }

  lemma ActorFacts(s: State, l: Label)
    requires CrewOk(s) && Enabled(s, l)
    ensures ActorOk(s, l)
  {
    if l.Store? || l.Interrupt? || l.Swap? { assert WorkerOk(s.workers[l.k], s.job.dispatched, s.job.total); }
  }

  lemma TiledStep(s: State, l: Label)
    requires Tiled(s.history.claims, s.job.dispatched) && Enabled(s, l) && WindowLabel(l) && ActorOk(s, l)
    ensures Tiled(WindowStep(s, l).history.claims, WindowStep(s, l).job.dispatched)
  {
    hide Resume;
    var s' := WindowStep(s, l);
    if s'.history.claims == s.history.claims {
      assert s'.job.dispatched == s.job.dispatched;
    } else {
      assert s'.history.claims[..|s'.history.claims| - 1] == s.history.claims;
    }
  }

  lemma {:induction false} BalancedStore(s: State, k: nat, r: RowResult)
    requires Enabled(s, Store(k, r)) && Balanced(s.job, s.storage.results, s.workers, s.history.lost)
    ensures var s' := RowStep(s, Store(k, r)); Balanced(s'.job, s'.storage.results, s'.workers, s'.history.lost)
  {
    var s' := RowStep(s, Store(k, r));
    var row := s.workers[k].pc.row;
    RowMoves(s, Store(k, r));
    RowActor(s, Store(k, r));
    StoreWrites(s, k, r);
    SumsUpdate(s.workers, k, s'.workers[k]);
    hide RowStep, RowsWith, Sum, OutcomeOf;
    forall o: Outcome
      ensures Counter(s'.job, o) + Sum(PendingBumps(o), s'.workers) + s'.history.lost[o] == |RowsWith(s'.storage.results, o)|
    {
      if row !in s.storage.results { RowsWithInsert(s.storage.results, row, r, o); }
    }
  }

  lemma StoreWrites(s: State, k: nat, r: RowResult)
    requires Enabled(s, Store(k, r))
    ensures var s', row := RowStep(s, Store(k, r)), s.workers[k].pc.row;
      && s'.job == s.job && s'.history.lost == s.history.lost
      && s'.storage.results == (if row in s.storage.results then s.storage.results else s.storage.results[row := r])
      && !s.workers[k].pc.Bumping?
  {
  }

  /** Outside a store, a step that moves one pending bump of an outcome into its
      counter or into the lost ones keeps the balance. */
  lemma BalancedMove(s: State, s': State, k: nat)
    requires k < |s.workers| == |s'.workers| && s'.workers == s.workers[k := s'.workers[k]] && s'.storage.results == s.storage.results
    requires forall o :: Counter(s'.job, o) + Weigh(PendingBumps(o), s'.workers[k]) + s'.history.lost[o]
                      == Counter(s.job, o) + Weigh(PendingBumps(o), s.workers[k]) + s.history.lost[o]
    requires Balanced(s.job, s.storage.results, s.workers, s.history.lost)
    ensures Balanced(s'.job, s'.storage.results, s'.workers, s'.history.lost)
  {
    hide Sum, Weigh, RowsWith, Counter;
    SumsUpdate(s.workers, k, s'.workers[k]);
  }

  lemma QuietWrites(s: State, l: Label)
    requires Enabled(s, l) && RowLabel(l) && !l.Store? && !s.storage.cleaned
    ensures var s', w := RowStep(s, l), s.workers[l.k];
      && s'.storage == s.storage
      && forall o :: Counter(s'.job, o) + Weigh(PendingBumps(o), s'.workers[l.k]) + s'.history.lost[o]
                  == Counter(s.job, o) + Weigh(PendingBumps(o), w) + s.history.lost[o]
  {
    RowActor(s, l);
    hide Refill, Resume, Claimable;
  }

  lemma CountsSum(s: State, l: Label)
    requires Enabled(s, l) && RowLabel(l) && s.job.processed == s.job.matched + s.job.noMatch + s.job.failed
    ensures var job := RowStep(s, l).job; job.processed == job.matched + job.noMatch + job.failed
  {
    hide Refill, Resume, Claimable, CutOff, Remember;
  }

  lemma RowBooks(s: State, l: Label)
    requires Books(s) && Enabled(s, l) && RowLabel(l)
    ensures Books(RowStep(s, l))
  {
    CountsSum(s, l);
    RowMoves(s, l);
    hide RowStep, Balanced, Weigh, Counter;
    if !s.storage.cleaned {
      if l.Store? {
        BalancedStore(s, l.k, l.r);
      } else {
        QuietWrites(s, l);
        BalancedMove(s, RowStep(s, l), l.k);
      }
    }
  }

  /** Window steps count nothing and enqueue nothing. */
  lemma WindowWrites(s: State, l: Label)
    requires Enabled(s, l) && WindowLabel(l)
    ensures var s', w, w' := WindowStep(s, l), s.workers[l.k], WindowStep(s, l).workers[l.k];
      && s'.workers == s.workers[l.k := w'] && s'.storage == s.storage && s'.job == s.job.(dispatched := s'.job.dispatched)
      && s'.history == s.history.(claims := s'.history.claims) && s'.finalizeSent == s.finalizeSent && s'.finalizers == s.finalizers
      && Weigh(PendingSends, w) == Weigh(PendingSends, w') == 0
      && forall o :: Weigh(PendingBumps(o), w) == Weigh(PendingBumps(o), w') == 0
  {
    hide Min;
  }

  lemma WindowBooks(s: State, l: Label)
    requires Books(s) && Enabled(s, l) && WindowLabel(l)
    ensures Books(WindowStep(s, l))
  {
    WindowWrites(s, l);
    hide WindowStep, Balanced, Weigh;
    if !s.storage.cleaned { BalancedMove(s, WindowStep(s, l), l.k); }
  }

  /** The worker an arrival starts, if it starts one; it owes no bump. */
  lemma ArrivalWrites(s: State, l: Label)
    requires Enabled(s, l) && ArrivalLabel(l)
    ensures var s' := ArrivalStep(s, l);
      && s'.finalizeSent == s.finalizeSent && s'.history == (if l.Sweep? then s.history.(missedClaim := false) else s.history)
      && s'.storage == s.storage && s'.job == (if l.Sweep? then s.job.(claimed := true) else s.job)
      && (l.Redeliver? ==> s'.workers == s.workers)
      && (!l.Redeliver? ==>
            && |s'.workers| == |s.workers| + 1 && s'.workers == s.workers + [s'.workers[|s.workers|]]
            && !s'.workers[|s.workers|].pc.Bumping? && (s'.workers[|s.workers|].pc.Sending? <==> l.Sweep?))
  {
  }

  lemma ArrivalBooks(s: State, l: Label)
    requires Books(s) && Enabled(s, l) && ArrivalLabel(l)
    ensures Books(ArrivalStep(s, l))
  {
    hide ArrivalStep, Sum, RowsWith, Resume, Refill;
    ArrivalWrites(s, l);
    if !l.Redeliver? { SumsAppend(s.workers, ArrivalStep(s, l).workers[|s.workers|]); }
  }

  lemma SendWrites(s: State, l: Label)
    requires Enabled(s, l) && RowLabel(l)
    ensures var s', w := RowStep(s, l), s.workers[l.k];
      && s'.finalizeSent == s.finalizeSent + (if l.Send? then 1 else 0)
      && s'.history.cutSends == s.history.cutSends + (if l.Interrupt? && w.pc.Sending? then 1 else 0)
      && s'.job.claimed == (s.job.claimed || (l.Claim? && Claimable(s.job)))
      && (w.pc.Sending? <==> l.Send? || (l.Interrupt? && w.pc.Sending?))
  {
    hide Refill, Resume;
  }

  lemma RowSends(s: State, l: Label)
    requires SendsOk(s) && Enabled(s, l) && RowLabel(l)
    ensures SendsOk(RowStep(s, l))
  {
    RowMoves(s, l);
    RowActor(s, l);
    SendWrites(s, l);
    hide RowStep, Sum;
    SumUpdate(PendingSends, s.workers, l.k, RowStep(s, l).workers[l.k]);
  }

  lemma WindowSends(s: State, l: Label)
    requires SendsOk(s) && Enabled(s, l) && WindowLabel(l)
    ensures SendsOk(WindowStep(s, l))
  {
    WindowWrites(s, l);
    hide WindowStep, Sum, Weigh;
    SumUpdate(PendingSends, s.workers, l.k, WindowStep(s, l).workers[l.k]);
  }

  lemma ArrivalSends(s: State, l: Label)
    requires SendsOk(s) && Enabled(s, l) && ArrivalLabel(l)
    ensures SendsOk(ArrivalStep(s, l))
  {
    hide ArrivalStep, Sum, RowsWith, Resume, Refill;
    ArrivalWrites(s, l);
    if !l.Redeliver? { SumsAppend(s.workers, ArrivalStep(s, l).workers[|s.workers|]); }
  }

  /** A complete count means a complete results hash: the heart of the protocol. */
  lemma CompleteCount(s: State)
    requires RowsOk(s.storage, s.history.first, s.job.dispatched) && Books(s) && s.job.dispatched <= s.job.total
    requires !s.storage.cleaned && s.job.processed >= s.job.total
    ensures s.storage.results.Keys == Below(s.job.total) && s.job.dispatched == s.job.total
    ensures s.job.processed == s.job.total && s.history.lost == multiset{}
    ensures forall o :: Sum(PendingBumps(o), s.workers) == 0
    ensures forall o :: Counter(s.job, o) == |RowsWith(s.storage.results, o)|
  {
    var results, lost := s.storage.results, s.history.lost;
    RowsPartition(results);
    StoredAtMost(results, s.job.dispatched);
    assert forall o: Outcome :: Counter(s.job, o) + Sum(PendingBumps(o), s.workers) + lost[o] == |RowsWith(results, o)|;
    assert Sum(PendingBumps(Matched), s.workers) + lost[Matched] + Sum(PendingBumps(NoMatch), s.workers) + lost[NoMatch]
         + Sum(PendingBumps(Failed), s.workers) + lost[Failed] + s.job.processed == |results|;
    forall o: Outcome ensures Sum(PendingBumps(o), s.workers) == 0 && lost[o] == 0 {
      match o case Matched => case NoMatch => case Failed =>
    }
    AllStored(results, s.job.dispatched);
  }

  /** After cleanup a claim is only still open on an empty job. */
  lemma OpenAfterCleanup(s: State)
    requires ClaimOk(s) && SendsOk(s) && s.storage.cleaned && !s.job.claimed
    ensures s.job.total == 0
  {
  }

  lemma NoPendingBump(s: State)
    requires Inv(s) && s.job.claimed && !s.storage.cleaned
    ensures forall k :: 0 <= k < |s.workers| ==> !s.workers[k].pc.Bumping?
  {
    CompleteCount(s);
    forall k | 0 <= k < |s.workers| ensures !s.workers[k].pc.Bumping? {
      if s.workers[k].pc.Bumping? {
        SumZero(PendingBumps(s.workers[k].pc.outcome), s.workers);
      }
    }
  }

  lemma ClaimableComplete(s: State)
    requires Inv(s) && Claimable(s.job)
    ensures AllRowsIn(s)
  {
    if s.storage.cleaned { OpenAfterCleanup(s); } else { CompleteCount(s); }
  }

  /** The rest of the invariant, for a step that touches no finalizer. */
  lemma RowInv(s: State, l: Label)
    requires Inv(s) && Enabled(s, l) && RowLabel(l)
    ensures Inv(RowStep(s, l))
  {
    hide RowStep, PcOk, Weigh, Balanced, RowsOk, ClaimOk, SendsOk, FinalizerOk;
    RowCrew(s, l);
    ActorFacts(s, l);
    RowBooks(s, l);
    RowSends(s, l);
    if Claimable(s.job) { ClaimableComplete(s); }
    if s.job.claimed && !s.storage.cleaned { NoPendingBump(s); }
    if l.Store? { StoreFacts(s, l.k, l.r); } else { RowFacts(s, l); }
    RowDropped(s, l);
    RowFinalizers(s, l);
  }

  lemma FinalizersKept(s: State, s': State)
    requires FinalizersOk(s) && s'.finalizers == s.finalizers
    requires s'.job.total == s.job.total && s'.history.committed == s.history.committed
    requires s'.storage.output == s.storage.output && s'.storage.uploadDeleted == s.storage.uploadDeleted
    ensures FinalizersOk(s')
  {
    forall k | 0 <= k < |s'.finalizers| ensures FinalizerOk(s'.finalizers[k], s'.job.total, s'.storage, s'.history.committed) {
      assert FinalizerOk(s.finalizers[k], s.job.total, s.storage, s.history.committed);
    }
  }

  /** The rows a cut-off worker had in its own hands. */
  function InHand(pc: Pc): set<nat> {
    match pc
    case Recording(row) => {row}
    case Publishing(w) => RowsFrom(w.next, w.end)
    case _ => {}
  }

  lemma RowDrops(s: State, l: Label)
    requires Enabled(s, l) && RowLabel(l)
    ensures RowStep(s, l).history.dropped == s.history.dropped + if l.Interrupt? then InHand(s.workers[l.k].pc) else {}
  {
    hide Resume, Refill, Claimable, Halts, RowsFrom;
  }

  lemma RowDropped(s: State, l: Label)
    requires DroppedOk(s) && Enabled(s, l) && RowLabel(l) && ActorOk(s, l)
    ensures DroppedOk(RowStep(s, l))
  {
    RowMoves(s, l);
    RowDrops(s, l);
    if l.Interrupt? { assert InHand(s.workers[l.k].pc) <= Below(s.job.dispatched); }
    hide RowStep, InHand;
  }

  lemma RowFinalizers(s: State, l: Label)
    requires FinalizersOk(s) && Enabled(s, l) && RowLabel(l)
    ensures FinalizersOk(RowStep(s, l)) && RowStep(s, l).job.dispatched == s.job.dispatched
    ensures RowStep(s, l).history.claims == s.history.claims && RowStep(s, l).job.total == s.job.total
  {
    RowMoves(s, l);
    assert RowStep(s, l).storage.output == s.storage.output && RowStep(s, l).storage.uploadDeleted == s.storage.uploadDeleted by {
      RowStorage(s, l);
    }
    hide RowStep;
    FinalizersKept(s, RowStep(s, l));
  }

  lemma RowStorage(s: State, l: Label)
    requires Enabled(s, l) && RowLabel(l)
    ensures RowStep(s, l).storage == s.storage.(results := RowStep(s, l).storage.results)
  {
    hide Refill, Resume, CutOff;
  }

  lemma StoreFacts(s: State, k: nat, r: RowResult)
    requires Enabled(s, Store(k, r)) && ActorOk(s, Store(k, r))
    requires RowsOk(s.storage, s.history.first, s.job.dispatched) && ClaimOk(s)
    ensures RowsOk(RowStep(s, Store(k, r)).storage, RowStep(s, Store(k, r)).history.first, s.job.dispatched)
    ensures ClaimOk(RowStep(s, Store(k, r)))
  {
    if s.job.claimed || s.job.total == 0 { assert s.workers[k].pc.row in s.history.first; }
  }

  lemma RowFacts(s: State, l: Label)
    requires Enabled(s, l) && RowLabel(l) && !l.Store? && ActorOk(s, l) && ClaimOk(s)
    requires Claimable(s.job) ==> AllRowsIn(s)
    requires l.Interrupt? && s.job.claimed && !s.storage.cleaned ==> !s.workers[l.k].pc.Bumping?
    ensures RowStep(s, l).storage == s.storage && RowStep(s, l).history.first == s.history.first
    ensures ClaimOk(RowStep(s, l))
  {
    QuietStorage(s, l);
    hide ClaimOk, AllRowsIn, RowStep, PcOk;
    if l.Interrupt? { InterruptFacts(s, l.k, l.handled); }
    else if l.Claim? { ClaimedFacts(s, l.k); }
    else { QuietFacts(s, l); }
  }

  lemma QuietStorage(s: State, l: Label)
    requires Enabled(s, l) && RowLabel(l) && !l.Store?
    ensures RowStep(s, l).storage == s.storage && RowStep(s, l).history.first == s.history.first
  {
    hide Refill, Resume, Claimable, RowsFrom, Counted, Halts;
  }

  lemma QuietFacts(s: State, l: Label)
    requires Enabled(s, l) && (l.Retry? || l.Bump? || l.Send?) && ClaimOk(s)
    ensures ClaimOk(RowStep(s, l))
  {
    hide Below, Sum, Refill, Resume;
    assert AllRowsIn(s) ==> AllRowsIn(RowStep(s, l));
  }

  lemma InterruptWrites(s: State, k: nat, handled: bool)
    requires Enabled(s, Interrupt(k, handled))
    ensures var s', pc := RowStep(s, Interrupt(k, handled)), s.workers[k].pc;
      && (s'.job == s.job || s'.job == s.job.(completed := false, halted := true))
      && s'.storage == s.storage && s'.finalizeSent == s.finalizeSent && s'.finalizers == s.finalizers
      && s'.history.first == s.history.first && s'.history.committed == s.history.committed
      && (s'.history.lost == s.history.lost || (pc.Bumping? && !s.storage.cleaned))
      && (s'.history.missedClaim ==> s.history.missedClaim || Claimable(s.job))
  {
    hide Resume;
  }

  lemma InterruptFacts(s: State, k: nat, handled: bool)
    requires Enabled(s, Interrupt(k, handled)) && ActorOk(s, Interrupt(k, handled)) && ClaimOk(s)
    requires s.job.claimed && !s.storage.cleaned ==> !s.workers[k].pc.Bumping?
    ensures ClaimOk(RowStep(s, Interrupt(k, handled)))
  {
    InterruptWrites(s, k, handled);
    assert s.job.total == 0 ==> !s.workers[k].pc.Bumping?;
    hide RowStep, PcOk, Below;
  }

  lemma ClaimedFacts(s: State, k: nat)
    requires Enabled(s, Claim(k)) && ClaimOk(s) && (Claimable(s.job) ==> AllRowsIn(s))
    ensures ClaimOk(RowStep(s, Claim(k)))
  {
  }

  lemma WindowInv(s: State, l: Label)
    requires Inv(s) && Enabled(s, l) && WindowLabel(l)
    ensures Inv(WindowStep(s, l))
  {
    hide WindowStep, PcOk, Weigh, Balanced, RowsOk, SendsOk, FinalizerOk;
    WindowCrew(s, l);
    ActorFacts(s, l);
    TiledStep(s, l);
    WindowBooks(s, l);
    WindowSends(s, l);
    WindowFacts(s, l);
    WindowDropped(s, l);
    WindowFinalizers(s, l);
  }

  lemma WindowFinalizers(s: State, l: Label)
    requires FinalizersOk(s) && Enabled(s, l) && WindowLabel(l)
    ensures FinalizersOk(WindowStep(s, l)) && WindowStep(s, l).job.total == s.job.total
    ensures WindowStep(s, l).storage == s.storage && WindowStep(s, l).history.first == s.history.first
  {
    WindowWrites(s, l);
    hide WindowStep;
    FinalizersKept(s, WindowStep(s, l));
  }

  /** The cursor moves forward, never past total. */
  lemma CursorMoves(s: State, l: Label)
    requires Enabled(s, l) && WindowLabel(l) && ActorOk(s, l) && s.job.dispatched <= s.job.total
    ensures s.job.dispatched <= WindowStep(s, l).job.dispatched <= s.job.total
  {
    hide Resume;
  }

  lemma WindowDropped(s: State, l: Label)
    requires DroppedOk(s) && Enabled(s, l) && WindowLabel(l) && ActorOk(s, l) && s.job.dispatched <= s.job.total
    ensures DroppedOk(WindowStep(s, l))
  {
    WindowWrites(s, l);
    CursorMoves(s, l);
    hide WindowStep;
  }

  lemma WindowFacts(s: State, l: Label)
    requires Enabled(s, l) && WindowLabel(l) && ActorOk(s, l)
    requires RowsOk(s.storage, s.history.first, s.job.dispatched) && ClaimOk(s)
    ensures RowsOk(s.storage, s.history.first, WindowStep(s, l).job.dispatched)
    ensures ClaimOk(WindowStep(s, l))
  {
    WindowWrites(s, l);
    CursorMoves(s, l);
    hide WindowStep;
  }

  lemma ArrivalInv(s: State, l: Label)
    requires Inv(s) && Enabled(s, l) && ArrivalLabel(l)
    ensures Inv(ArrivalStep(s, l))
  {
    ArrivalCrew(s, l);
    ArrivalBooks(s, l);
    ArrivalSends(s, l);
    if Claimable(s.job) { ClaimableComplete(s); }
    FinalizersKept(s, ArrivalStep(s, l));
  }

  lemma FinalizeInv(s: State, l: Label)
    requires Inv(s) && Enabled(s, l) && Finalizing(l)
    ensures Inv(FinalizeStep(s, l))
  {
    FinalizeFacts(s, l);
    FinalizerStepOk(s, l);
  }

  lemma FinalizeFacts(s: State, l: Label)
    requires Enabled(s, l) && Finalizing(l) && ClaimOk(s) && FinalizersOk(s)
    requires RowsOk(s.storage, s.history.first, s.job.dispatched)
    ensures ClaimOk(FinalizeStep(s, l))
    ensures RowsOk(FinalizeStep(s, l).storage, s.history.first, s.job.dispatched)
  {
    if !l.StartFinalize? { assert FinalizerOk(s.finalizers[l.k], s.job.total, s.storage, s.history.committed); }
  }

  lemma FinalizerStepOk(s: State, l: Label)
    requires Enabled(s, l) && Finalizing(l) && FinalizersOk(s)
    ensures FinalizersOk(FinalizeStep(s, l))
  {
    var s' := FinalizeStep(s, l);
    forall k | 0 <= k < |s'.finalizers| ensures FinalizerOk(s'.finalizers[k], s'.job.total, s'.storage, s'.history.committed) {
      if k < |s.finalizers| { assert FinalizerOk(s.finalizers[k], s.job.total, s.storage, s.history.committed); }
    }
  }

  lemma StepInv(s: State, l: Label)
    requires Inv(s) && Enabled(s, l)
    ensures Inv(Step(s, l))
  {
    if RowLabel(l) { RowInv(s, l); }
    else if WindowLabel(l) { WindowInv(s, l); }
    else if ArrivalLabel(l) { ArrivalInv(s, l); }
    else { FinalizeInv(s, l); }
  }

  lemma {:induction false} RunInv(s: State, ls: seq<Label>)
    requires Inv(s) && ValidRun(s, ls)
    ensures Inv(After(s, ls))
    decreases |ls|
  {
    if ls != [] {
      StepInv(s, ls[0]);
      RunInv(Step(s, ls[0]), ls[1..]);
    }
  }

  // ----- What a reader wants to know ---------------------------------------

  /** The state after a run of a job of `total` rows. */
  ghost function Reached(total: nat, window: int, chunk: int, ls: seq<Label>): State
    requires ValidRun(Initial(total, window, chunk), ls)
  {
    After(Initial(total, window, chunk), ls)
  }

  lemma ReachedInv(total: nat, window: int, chunk: int, ls: seq<Label>)
    requires ValidRun(Initial(total, window, chunk), ls)
    ensures Inv(Reached(total, window, chunk, ls))
    ensures Reached(total, window, chunk, ls).job.total == total && Reached(total, window, chunk, ls).chunk == chunk
  {
    InitialInv(total, window, chunk);
    RunInv(Initial(total, window, chunk), ls);
    ConstantsKept(Initial(total, window, chunk), ls);
  }

  lemma {:induction false} ConstantsKept(s: State, ls: seq<Label>)
    requires ValidRun(s, ls)
    ensures After(s, ls).job.total == s.job.total && After(s, ls).chunk == s.chunk
    decreases |ls|
  {
    if ls != [] {
      ConstantsKept(Step(s, ls[0]), ls[1..]);
    }
  }

  /** Until cleanup the counters and the results hash tell the same story. */
  lemma CountersAgree(total: nat, window: int, chunk: int, ls: seq<Label>)
    requires ValidRun(Initial(total, window, chunk), ls)
    ensures var s := Reached(total, window, chunk, ls);
      && s.job.processed == s.job.matched + s.job.noMatch + s.job.failed
      && (!s.storage.cleaned ==>
            && s.storage.results == s.history.first
            && s.job.matched + Sum(PendingBumps(Matched), s.workers) + s.history.lost[Matched] == |FoundRows(s.storage.results)|
            && s.job.noMatch + Sum(PendingBumps(NoMatch), s.workers) + s.history.lost[NoMatch] == |UnfoundRows(s.storage.results)|
            && s.job.failed + Sum(PendingBumps(Failed), s.workers) + s.history.lost[Failed] == |FailedRows(s.storage.results)|
            && 0 <= s.job.processed <= |s.storage.results| <= s.job.dispatched <= total)
  {
    ReachedInv(total, window, chunk, ls);
    var s := Reached(total, window, chunk, ls);
    CountersNonNegative(Initial(total, window, chunk), ls);
    if !s.storage.cleaned {
      RowsPartition(s.storage.results);
      RowsByResult(s.storage.results);
      StoredAtMost(s.storage.results, s.job.dispatched);
      assert s.job.matched + Sum(PendingBumps(Matched), s.workers) + s.history.lost[Matched] == |RowsWith(s.storage.results, Matched)|;
      assert s.job.noMatch + Sum(PendingBumps(NoMatch), s.workers) + s.history.lost[NoMatch] == |RowsWith(s.storage.results, NoMatch)|;
      assert s.job.failed + Sum(PendingBumps(Failed), s.workers) + s.history.lost[Failed] == |RowsWith(s.storage.results, Failed)|;
      assert forall o: Outcome :: Counter(s.job, o) <= |RowsWith(s.storage.results, o)|;
      assert s.job.matched == Counter(s.job, Matched) && s.job.noMatch == Counter(s.job, NoMatch) && s.job.failed == Counter(s.job, Failed);
    }
  }

  lemma {:induction false} CountersNonNegative(s: State, ls: seq<Label>)
    requires ValidRun(s, ls) && s.job.processed >= 0
    ensures After(s, ls).job.processed >= 0
    decreases |ls|
  {
    if ls != [] {
      CountersNonNegative(Step(s, ls[0]), ls[1..]);
    }
  }

  /** The first result stored for a row is never replaced, by any duplicate. */
  lemma {:induction false} FirstResultStays(s: State, ls: seq<Label>, row: nat)
    requires ValidRun(s, ls) && row in s.history.first
    ensures row in After(s, ls).history.first && After(s, ls).history.first[row] == s.history.first[row]
    decreases |ls|
  {
    if ls != [] {
      FirstResultStays(Step(s, ls[0]), ls[1..], row);
    }
  }

  /** Whoever wins the finalize claim finds a stored result for every row, all of
      them counted: finalize never needs its filler. */
  lemma WinnerFindsEveryRow(total: nat, window: int, chunk: int, ls: seq<Label>, k: nat)
    requires ValidRun(Initial(total, window, chunk), ls) && total > 0
    requires Enabled(Reached(total, window, chunk, ls), Claim(k))
    requires ClaimStep(Reached(total, window, chunk, ls), k).workers[k].pc.Sending?
    ensures var s := Reached(total, window, chunk, ls);
      && s.storage.results.Keys == Below(total)
      && s.storage.results == s.history.first
      && (forall i :: 0 <= i < total ==> Assemble(s.storage.results, total)[i] == s.history.first[i])
      && s.job.matched == |FoundRows(s.storage.results)| && s.job.noMatch == |UnfoundRows(s.storage.results)|
      && s.job.failed == |FailedRows(s.storage.results)|
      && s.finalizeSent == 0
  {
    ReachedInv(total, window, chunk, ls);
    var s := Reached(total, window, chunk, ls);
    assert Claimable(s.job) by {
      if !Claimable(s.job) { RefillNotSending(s.workers[k].suspended, s.chunk); }
    }
    if s.storage.cleaned { OpenAfterCleanup(s); } else { CompleteCount(s); }
    RowsByResult(s.storage.results);
    assert s.job.matched == Counter(s.job, Matched) && s.job.noMatch == Counter(s.job, NoMatch) && s.job.failed == Counter(s.job, Failed);
  }

  lemma RefillNotSending(suspended: seq<Window>, limit: int)
    ensures !Refill(suspended, limit).pc.Sending?
  {
  }

  /** Row tasks and the sweep together enqueue finalize at most once: sends made,
      about to be made, and cut off by an exception are one if the job is claimed
      and none otherwise. */
  lemma FinalizeEnqueuedOnce(total: nat, window: int, chunk: int, ls: seq<Label>)
    requires ValidRun(Initial(total, window, chunk), ls) && total > 0
    ensures var s := Reached(total, window, chunk, ls);
      s.finalizeSent + Sum(PendingSends, s.workers) + s.history.cutSends == if s.job.claimed then 1 else 0
  {
    ReachedInv(total, window, chunk, ls);
  }

  /** Every dispatched row lies in exactly one claimed window. */
  lemma {:induction false} TiledOnce(claims: seq<Window>, d: nat, row: nat)
    requires Tiled(claims, d)
    ensures row < d ==> exists j :: 0 <= j < |claims| && claims[j].next <= row < claims[j].end
    ensures forall j :: 0 <= j < |claims| ==> claims[j].end <= d
    ensures forall i, j :: 0 <= i < j < |claims| ==> claims[i].end <= claims[j].next
  {
    if claims != [] {
      var n := |claims| - 1;
      var last := claims[n];
      TiledOnce(claims[..n], last.next, row);
      if row < last.next {
        var j :| 0 <= j < n && claims[..n][j].next <= row < claims[..n][j].end;
        assert claims[j] == claims[..n][j];
      }
      forall i, j | 0 <= i < j < |claims| ensures claims[i].end <= claims[j].next {
        assert claims[i] == claims[..n][i];
        if j < n { assert claims[j] == claims[..n][j]; }
      }
      forall j | 0 <= j < |claims| ensures claims[j].end <= d {
        if j < n { assert claims[j] == claims[..n][j]; }
      }
    }
  }

  lemma WindowsTile(total: nat, window: int, chunk: int, ls: seq<Label>, row: nat)
    requires ValidRun(Initial(total, window, chunk), ls)
    ensures var s := Reached(total, window, chunk, ls); var claims := s.history.claims;
      && (row < s.job.dispatched <==> exists j :: 0 <= j < |claims| && claims[j].next <= row < claims[j].end)
      && (forall i, j :: 0 <= i < j < |claims| ==> claims[i].end <= claims[j].next)
  {
    ReachedInv(total, window, chunk, ls);
    var s := Reached(total, window, chunk, ls);
    TiledOnce(s.history.claims, s.job.dispatched, row);
  }

  // ----- What one worker's own steps come to ---------------------------------

  lemma ThreeSteps(s: State, a: Label, b: Label, c: Label)
    requires Enabled(s, a) && Enabled(Step(s, a), b) && Enabled(Step(Step(s, a), b), c)
    ensures ValidRun(s, [a, b, c]) && After(s, [a, b, c]) == Step(Step(Step(s, a), b), c)
  {
    hide Step, Enabled;
    var s1 := Step(s, a);
    var s2 := Step(s1, b);
    assert [a, b, c][1..] == [b, c] && [b, c][1..] == [c] && [c][1..] == [];
    assert ValidRun(s2, [c]) && After(s2, [c]) == Step(s2, c);
    assert ValidRun(s1, [b, c]) && After(s1, [b, c]) == Step(s2, c);
  }

  /** A published window's next row whose arguments are gone is recorded as failed
      and counted, and the worker still owns the rest of the window. */
  lemma GivenUpIsRecorded(s: State, k: nat)
    requires At(s, k) && s.workers[k].pc.Publishing? && s.workers[k].pc.window.next < s.workers[k].pc.window.end
    requires s.workers[k].pc.window.next !in s.storage.results
    ensures var row := s.workers[k].pc.window.next;
      var gone := FailedRow("row arguments unrecoverable (upload no longer available)");
      var ls := [GiveUpRow(k), Store(k, gone), Bump(k)];
      && ValidRun(s, ls) && After(s, ls).storage == s.storage.(results := s.storage.results[row := gone])
      && After(s, ls).job == s.job.(processed := s.job.processed + 1, failed := s.job.failed + 1)
      && At(After(s, ls), k) && After(s, ls).workers[k] == Worker(Claiming, s.workers[k].suspended + [Window(row + 1, s.workers[k].pc.window.end)])
      && After(s, ls).queue == s.queue
  {
    hide ValidRun, After;
    var s1 := PublishStep(s, k, false);
    assert s1.workers[k] == Worker(Recording(s.workers[k].pc.window.next),
                                   s.workers[k].suspended + [Window(s.workers[k].pc.window.next + 1, s.workers[k].pc.window.end)]);
    ThreeSteps(s, GiveUpRow(k), Store(k, UNRECOVERABLE), Bump(k));
  }

  lemma RedeliveredRuns(s: State, row: nat, retries: nat)
    requires row < s.job.dispatched && retries <= 4
    ensures Enabled(s, Redeliver(row, retries)) && Enabled(Step(s, Redeliver(row, retries)), Deliver(|s.queue|))
    ensures Step(Step(s, Redeliver(row, retries)), Deliver(|s.queue|)) ==
      s.(workers := s.workers + [Worker(Running(row, retries), [])])
  {
    var s1 := ArrivalStep(s, Redeliver(row, retries));
    assert s1.queue == s.queue + [Message(row, retries)];
    assert s1.queue[..|s.queue|] + s1.queue[|s.queue| + 1..] == s.queue;
  }

  /** A dispatched row may be delivered again after any number of its retries, and
      may fail then; a result stored before that stays and is not counted again. */
  lemma RedeliveredRow(s: State, row: nat, retries: nat, r: RowResult)
    requires row < s.job.dispatched && retries <= 4
    ensures var m := |s.queue|; var k := |s.workers|;
      var ls := [Redeliver(row, retries), Deliver(m), Store(k, r)];
      && ValidRun(s, ls) && After(s, ls).job == s.job
      && After(s, ls).storage.results == (if row in s.storage.results then s.storage.results else s.storage.results[row := r])
      && At(After(s, ls), k) && After(s, ls).workers[k].pc == if row in s.storage.results then Claiming else Bumping(row, OutcomeOf(r))
  {
    hide ValidRun, After;
    var m := |s.queue|;
    var k := |s.workers|;
    RedeliveredRuns(s, row, retries);
    hide ArrivalStep;
    ThreeSteps(s, Redeliver(row, retries), Deliver(m), Store(k, r));
  }

  /** Worker k's compare-and-swap finds that the cursor has moved. */
  predicate Misses(s: State, k: nat) {
    At(s, k) && s.workers[k].pc.Swapping? && s.job.dispatched != s.workers[k].pc.seen
  }

  /** After a miss in s, worker k read the cursor again and is about to try in s'. */
  predicate TriesAgain(s: State, s': State, k: nat)
    requires Misses(s, k) && Misses(s', k)
  {
    var pc := SwapStep(s, k).workers[k].pc;
    pc.Reading? && s'.workers[k].pc == Swapping(pc.limit, s'.workers[k].pc.seen, pc.tries)
  }

  /** Misses of worker k, one after the other: `rivals` are the states it tries in. */
  ghost predicate Missing(k: nat, rivals: seq<State>) {
    && (forall j :: 0 <= j < |rivals| ==> Misses(rivals[j], k))
    && (forall i, j :: 0 <= i && j == i + 1 < |rivals| ==> TriesAgain(rivals[i], rivals[j], k))
  }

  /** The attempts of one claim all ask for the limit of the first, and with five
      allowed it is the fifth miss, and no earlier one, that gives up. */
  lemma {:induction false} FifthMissGivesUp(k: nat, rivals: seq<State>)
    requires Missing(k, rivals) && rivals != [] && rivals[0].workers[k].pc.tries == 5
    ensures |rivals| <= 5
    ensures var pc := rivals[|rivals| - 1].workers[k].pc;
      pc.limit == rivals[0].workers[k].pc.limit && pc.tries == 6 - |rivals|
    ensures var s := rivals[|rivals| - 1]; var s' := Step(s, Swap(k));
      s'.workers[k] == if |rivals| == 5 then Resume(s.workers[k].suspended)
                       else Worker(Reading(rivals[0].workers[k].pc.limit, 5 - |rivals|), s.workers[k].suspended)
  {
    forall j | 0 <= j < |rivals|
      ensures rivals[j].workers[k].pc.limit == rivals[0].workers[k].pc.limit && rivals[j].workers[k].pc.tries == 5 - j
    {
      MissesSoFar(k, rivals, j);
    }
    var n := |rivals| - 1;
    assert Misses(rivals[n], k);
    if n > 4 {
      assert Misses(rivals[4], k) && rivals[4].workers[k].pc.tries == 1;
      assert TriesAgain(rivals[4], rivals[5], k);
      ResumeNotReading(rivals[4].workers[k].suspended);
    }
  }

  lemma {:induction false} MissesSoFar(k: nat, rivals: seq<State>, j: nat)
    requires Missing(k, rivals) && j < |rivals| && rivals[0].workers[k].pc.tries == 5
    ensures rivals[j].workers[k].pc.limit == rivals[0].workers[k].pc.limit
    ensures rivals[j].workers[k].pc.tries == 5 - j
  {
    if j > 0 {
      MissesSoFar(k, rivals, j - 1);
      assert TriesAgain(rivals[j - 1], rivals[j], k);
      ResumeNotReading(rivals[j - 1].workers[k].suspended);
    }
  }

  lemma ResumeNotReading(suspended: seq<Window>)
    ensures !Resume(suspended).pc.Reading?
  {
  }
}
