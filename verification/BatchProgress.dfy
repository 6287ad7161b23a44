/** The job completes without any beat scheduler: the self-refill keeps some row
    alive while rows are undispatched, every fault-free step shortens the work
    that is left, and a job at rest has had its finalize enqueued, unless an
    exception cut something off or the refill was configured away. */
module BatchProgress {
  import opened BatchProtocol
  import opened BatchSafety

  // ----- Fault-free steps terminate ----------------------------------------

  /** The steps workers take by themselves: no redelivery, no beat, no exception. */
  predicate WorkLabel(l: Label) {
    (RowLabel(l) && !l.Interrupt?) || WindowLabel(l) || l.Deliver?
  }

  function QueueWork(q: seq<Message>): nat {
    if q == [] then 0 else QueueWork(q[..|q| - 1]) + MessageWork(q[|q| - 1].retries)
  }

  lemma {:induction false} QueueWorkConcat(p: seq<Message>, q: seq<Message>)
    ensures QueueWork(p + q) == QueueWork(p) + QueueWork(q)
  {
    if q == [] {
      assert p + q == p;
    } else {
      QueueWorkConcat(p, q[..|q| - 1]);
      assert (p + q)[..|p + q| - 1] == p + q[..|q| - 1];
    }
  }

  lemma QueueWorkSnoc(q: seq<Message>, m: Message)
    ensures QueueWork(q + [m]) == QueueWork(q) + MessageWork(m.retries)
  {
    assert (q + [m])[..|q|] == q;
  }

  lemma QueueWorkRemove(q: seq<Message>, m: nat)
    requires m < |q|
    ensures QueueWork(q[..m] + q[m + 1..]) == QueueWork(q) - MessageWork(q[m].retries)
  {
    hide QueueWork, MessageWork;
    assert q == (q[..m] + [q[m]]) + q[m + 1..];
    QueueWorkConcat(q[..m] + [q[m]], q[m + 1..]);
    QueueWorkSnoc(q[..m], q[m]);
    QueueWorkConcat(q[..m], q[m + 1..]);
  }

  /** An upper bound on the fault-free steps still to come. */
  function Measure(s: State): int {
    32 * (s.job.total - s.job.dispatched) + QueueWork(s.queue) + Sum(Work, s.workers)
  }

  lemma WindowsWorkSnoc(ws: seq<Window>, w: Window)
    ensures WindowsWork(ws + [w]) == WindowsWork(ws) + WindowWork(w)
  {
    assert (ws + [w])[..|ws|] == ws;
  }

  lemma PcWeighs(pc: Pc, suspended: seq<Window>)
    ensures Weigh(Work, Worker(pc, suspended)) == PcWork(pc) + WindowsWork(suspended)
  {
    hide PcWork, WindowsWork;
  }

  lemma ResumeWork(suspended: seq<Window>)
    ensures Weigh(Work, Resume(suspended)) == WindowsWork(suspended)
  {
    hide Weigh, WindowsWork, WindowWork, MessageWork;
    if suspended == [] {
      PcWeighs(Idle, suspended);
    } else {
      var n := |suspended| - 1;
      PcWeighs(Publishing(suspended[n]), suspended[..n]);
      assert suspended == suspended[..n] + [suspended[n]];
      WindowsWorkSnoc(suspended[..n], suspended[n]);
    }
  }

  /** A worker that moves, and possibly sends one message, shrinks the measure
      when its own remaining work pays for what it creates. */
  lemma MoveShrinks(s: State, s': State, k: nat)
    requires k < |s.workers| && |s'.workers| == |s.workers| && s'.workers == s.workers[k := s'.workers[k]]
    requires s'.queue == s.queue || exists m :: s'.queue == s.queue + [m]
    requires var sent := if s'.queue == s.queue then 0 else MessageWork(s'.queue[|s.queue|].retries);
      Weigh(Work, s'.workers[k]) + sent - 32 * (s'.job.dispatched - s.job.dispatched) < Weigh(Work, s.workers[k])
    requires s'.job.total == s.job.total
    ensures Measure(s') < Measure(s)
  {
    SumUpdate(Work, s.workers, k, s'.workers[k]);
    if s'.queue != s.queue {
      QueueWorkSnoc(s.queue, s'.queue[|s.queue|]);
    }
  }

  lemma RowShrinks(s: State, l: Label)
    requires Enabled(s, l) && RowLabel(l) && !l.Interrupt? && PcOk(s.workers[l.k], s.job.dispatched, s.job.total)
    ensures Measure(RowStep(s, l)) < Measure(s)
  {
    hide Measure;
    ResumeWork(s.workers[l.k].suspended);
    if l.Retry? {
      assert RowStep(s, l).queue == s.queue + [Message(s.workers[l.k].pc.row, s.workers[l.k].pc.retries + 1)];
    }
    MoveShrinks(s, RowStep(s, l), l.k);
  }

  lemma SwapShrinks(s: State, k: nat)
    requires Enabled(s, Swap(k)) && PcOk(s.workers[k], s.job.dispatched, s.job.total)
    ensures Measure(WindowStep(s, Swap(k))) < Measure(s)
  {
    hide Measure;
    ResumeWork(s.workers[k].suspended);
    MoveShrinks(s, WindowStep(s, Swap(k)), k);
  }

  lemma WindowShrinks(s: State, l: Label)
    requires Enabled(s, l) && WindowLabel(l) && !l.Swap? && PcOk(s.workers[l.k], s.job.dispatched, s.job.total)
    ensures Measure(WindowStep(s, l)) < Measure(s)
  {
    hide Measure;
    var w := s.workers[l.k];
    ResumeWork(w.suspended);
    if l.Publish? { assert WindowStep(s, l).queue == s.queue + [Message(w.pc.window.next, 0)]; }
    if l.GiveUpRow? { WindowsWorkSnoc(w.suspended, Window(w.pc.window.next + 1, w.pc.window.end)); }
    MoveShrinks(s, WindowStep(s, l), l.k);
  }

  lemma DeliverShrinks(s: State, m: nat)
    requires CrewOk(s) && Enabled(s, Deliver(m))
    ensures Measure(ArrivalStep(s, Deliver(m))) < Measure(s)
  {
    var s' := ArrivalStep(s, Deliver(m));
    QueueWorkRemove(s.queue, m);
    SumAppend(Work, s.workers, s'.workers[|s.workers|]);
  }

  ghost predicate WorkRun(s: State, ls: seq<Label>)
    decreases |ls|
  {
    ls != [] ==> WorkLabel(ls[0]) && Enabled(s, ls[0]) && WorkRun(Step(s, ls[0]), ls[1..])
  }

  lemma WorkShrinks(s: State, l: Label)
    requires Inv(s) && Enabled(s, l) && WorkLabel(l)
    ensures 0 <= Measure(Step(s, l)) < Measure(s)
  {
    StepInv(s, l);
    if RowLabel(l) || WindowLabel(l) { assert WorkerOk(s.workers[l.k], s.job.dispatched, s.job.total); }
    if RowLabel(l) { RowShrinks(s, l); }
    else if l.Swap? { SwapShrinks(s, l.k); }
    else if WindowLabel(l) { WindowShrinks(s, l); }
    else { DeliverShrinks(s, l.m); }
  }

  /** However the workers interleave, they stop after at most Measure(s) steps. */
  lemma {:induction false} WorkIsBounded(s: State, ls: seq<Label>)
    requires Inv(s) && WorkRun(s, ls)
    ensures ValidRun(s, ls) && |ls| <= Measure(s)
    decreases |ls|
  {
    if ls != [] {
      hide Measure;
      StepInv(s, ls[0]);
      WorkShrinks(s, ls[0]);
      WorkIsBounded(Step(s, ls[0]), ls[1..]);
    } else {
      assert Measure(s) >= 0;
    }
  }

  // ----- At rest ---------------------------------------------------------

  ghost predicate Quiescent(s: State) {
    s.queue == [] && forall k :: 0 <= k < |s.workers| ==> s.workers[k].pc.Idle?
  }

  /** The step a worker that is not idle can take. */
  function NextLabel(k: nat, w: Worker): Label {
    match w.pc
    case Running(_, _) => Store(k, MISSING)
    case Recording(_) => Store(k, MISSING)
    case Bumping(_, _) => Bump(k)
    case Claiming => Claim(k)
    case Sending => Send(k)
    case Reading(_, _) => Read(k)
    case Swapping(_, _, _) => Swap(k)
    case Publishing(win) => if win.next < win.end then Publish(k) else Return(k)
    case Idle => Deliver(0)
  }

  /** Workers are never stuck: only a job at rest has no fault-free step. */
  lemma NotStuck(s: State)
    ensures Quiescent(s) <==> forall l :: WorkLabel(l) ==> !Enabled(s, l)
  {
    if s.queue != [] { assert WorkLabel(Deliver(0)) && Enabled(s, Deliver(0)); }
    forall k | 0 <= k < |s.workers| && !s.workers[k].pc.Idle?
      ensures WorkLabel(NextLabel(k, s.workers[k])) && Enabled(s, NextLabel(k, s.workers[k]))
    {
    }
  }

  // ----- Every dispatched row is somewhere ---------------------------------

  predicate Within(w: Window, i: nat) { w.next <= i < w.end }

  ghost predicate InWindows(ws: seq<Window>, i: nat) {
    exists j :: 0 <= j < |ws| && Within(ws[j], i)
  }

  ghost predicate PcHolds(pc: Pc, i: nat) {
    match pc
    case Running(row, _) => row == i
    case Recording(row) => row == i
    case Publishing(w) => Within(w, i)
    case _ => false
  }

  ghost predicate Holds(w: Worker, i: nat) {
    PcHolds(w.pc, i) || InWindows(w.suspended, i)
  }

  ghost predicate Held(ws: seq<Worker>, i: nat) {
    exists k :: 0 <= k < |ws| && Holds(ws[k], i)
  }

  ghost predicate Queued(q: seq<Message>, i: nat) {
    exists m :: 0 <= m < |q| && q[m].row == i
  }

  /** Row i is stored, waiting in the broker, or in some worker's hands.  Every
      dispatched row is, unless an exception dropped it. */
  ghost predicate Located(s: State, i: nat) {
    i in s.storage.results || Queued(s.queue, i) || Held(s.workers, i)
  }

  ghost predicate Covered(s: State) {
    !s.storage.cleaned ==> forall i: nat :: i < s.job.dispatched ==> Located(s, i) || i in s.history.dropped
  }

  lemma ResumeHolds(suspended: seq<Window>, i: nat)
    requires InWindows(suspended, i)
    ensures Holds(Resume(suspended), i)
  {
    var n := |suspended| - 1;
    var j :| 0 <= j < |suspended| && Within(suspended[j], i);
    if j < n { assert suspended[..n][j] == suspended[j]; }
  }

  lemma RefillHolds(suspended: seq<Window>, limit: int, i: nat)
    requires InWindows(suspended, i)
    ensures Holds(Refill(suspended, limit), i)
  {
    ResumeHolds(suspended, i);
  }

  lemma HeldMove(ws: seq<Worker>, k: nat, w: Worker, i: nat)
    requires k < |ws| && Held(ws, i) && (Holds(ws[k], i) ==> Holds(w, i))
    ensures Held(ws[k := w], i)
  {
    var j :| 0 <= j < |ws| && Holds(ws[j], i);
    assert Holds(ws[k := w][j], i);
  }

  lemma HeldBy(ws: seq<Worker>, k: nat, w: Worker, i: nat)
    requires k < |ws| && Holds(w, i)
    ensures Held(ws[k := w], i)
  {
    assert ws[k := w][k] == w;
  }

  lemma HeldAppend(ws: seq<Worker>, w: Worker, i: nat)
    requires Held(ws, i) || Holds(w, i)
    ensures Held(ws + [w], i)
  {
    if Holds(w, i) {
      assert (ws + [w])[|ws|] == w;
    } else {
      var j :| 0 <= j < |ws| && Holds(ws[j], i);
      assert (ws + [w])[j] == ws[j];
    }
  }

  lemma QueuedSnoc(q: seq<Message>, m: Message, i: nat)
    requires Queued(q, i) || m.row == i
    ensures Queued(q + [m], i)
  {
    if m.row == i {
      assert (q + [m])[|q|].row == i;
    } else {
      var j :| 0 <= j < |q| && q[j].row == i;
      assert (q + [m])[j].row == i;
    }
  }

  /** What the acting worker held, it still holds, has sent, or has stored. */
  lemma RowHandsOver(s: State, l: Label, i: nat)
    requires Enabled(s, l) && RowLabel(l) && PcOk(s.workers[l.k], s.job.dispatched, s.job.total)
    requires Holds(s.workers[l.k], i)
    ensures var s' := RowStep(s, l);
      Holds(s'.workers[l.k], i) || i in s'.storage.results || Queued(s'.queue, i) || i in s'.history.dropped
  {
    var w := s.workers[l.k];
    match l
    case Interrupt(_, _) =>
      RowDrops(s, l);
      if InWindows(w.suspended, i) { ResumeHolds(w.suspended, i); }
    case Retry(_) => QueuedSnoc(s.queue, Message(w.pc.row, w.pc.retries + 1), i);
    case Claim(_) => RefillHolds(w.suspended, s.chunk, i);
    case Send(_) => ResumeHolds(w.suspended, i);
    case _ =>
  }

  lemma RowCovered(s: State, l: Label)
    requires Covered(s) && Enabled(s, l) && RowLabel(l) && PcOk(s.workers[l.k], s.job.dispatched, s.job.total)
    ensures Covered(RowStep(s, l))
  {
    var s' := RowStep(s, l);
    RowMoves(s, l);
    RowDrops(s, l);
    hide RowStep, PcOk, Located;
    if !s.storage.cleaned {
      forall i: nat | i < s'.job.dispatched ensures Located(s', i) || i in s'.history.dropped {
        if i !in s.history.dropped { RowLocated(s, l, i); }
      }
    }
  }

  lemma RowKeepsResults(s: State, l: Label)
    requires Enabled(s, l) && RowLabel(l)
    ensures s.storage.results.Keys <= RowStep(s, l).storage.results.Keys
  {
    hide Refill, Resume, CutOff;
  }

  lemma QueuedKept(q: seq<Message>, q': seq<Message>, i: nat)
    requires Queued(q, i) && (q' == q || exists m :: q' == q + [m])
    ensures Queued(q', i)
  {
    if q' != q {
      var m :| q' == q + [m];
      QueuedSnoc(q, m, i);
    }
  }

  lemma RowLocated(s: State, l: Label, i: nat)
    requires Enabled(s, l) && RowLabel(l) && PcOk(s.workers[l.k], s.job.dispatched, s.job.total) && Located(s, i)
    ensures Located(RowStep(s, l), i) || i in RowStep(s, l).history.dropped
  {
    var s' := RowStep(s, l);
    RowMoves(s, l);
    RowKeepsResults(s, l);
    if Holds(s.workers[l.k], i) { RowHandsOver(s, l, i); }
    hide RowStep, Holds, PcOk;
    if Queued(s.queue, i) {
      QueuedKept(s.queue, s'.queue, i);
    } else if Held(s.workers, i) {
      if Holds(s.workers[l.k], i) {
        if Holds(s'.workers[l.k], i) { HeldBy(s.workers, l.k, s'.workers[l.k], i); }
      } else {
        HeldMove(s.workers, l.k, s'.workers[l.k], i);
      }
    }
  }

  lemma WindowHandsOver(s: State, l: Label, i: nat)
    requires Enabled(s, l) && WindowLabel(l) && PcOk(s.workers[l.k], s.job.dispatched, s.job.total)
    requires Holds(s.workers[l.k], i) || s.job.dispatched <= i < WindowStep(s, l).job.dispatched
    ensures var s' := WindowStep(s, l);
      Holds(s'.workers[l.k], i) || Queued(s'.queue, i)
  {
    var w := s.workers[l.k];
    var w' := WindowStep(s, l).workers[l.k];
    if InWindows(w.suspended, i) {
      ResumeHolds(w.suspended, i);
      if l.GiveUpRow? {
        var j :| 0 <= j < |w.suspended| && Within(w.suspended[j], i);
        assert w'.suspended[j] == w.suspended[j];
      }
    } else if l.Publish? && i == w.pc.window.next {
      QueuedSnoc(s.queue, Message(i, 0), i);
    } else if l.GiveUpRow? && i != w.pc.window.next {
      assert Within(w'.suspended[|w.suspended|], i);
    }
  }

  lemma WindowFrame(s: State, l: Label)
    requires Enabled(s, l) && WindowLabel(l) && s.job.dispatched <= s.job.total
    requires PcOk(s.workers[l.k], s.job.dispatched, s.job.total)
    ensures var s' := WindowStep(s, l);
      && s'.storage == s.storage && s'.workers == s.workers[l.k := s'.workers[l.k]]
      && s.job.dispatched <= s'.job.dispatched && s'.history.dropped == s.history.dropped
      && (s'.queue == s.queue || exists m :: s'.queue == s.queue + [m])
  {
    if l.Publish? { assert WindowStep(s, l).queue == s.queue + [Message(s.workers[l.k].pc.window.next, 0)]; }
  }

  lemma WindowCovered(s: State, l: Label)
    requires Covered(s) && Enabled(s, l) && WindowLabel(l) && s.job.dispatched <= s.job.total
    requires PcOk(s.workers[l.k], s.job.dispatched, s.job.total)
    ensures Covered(WindowStep(s, l))
  {
    var s' := WindowStep(s, l);
    WindowFrame(s, l);
    hide WindowStep, Holds, PcOk;
    if !s.storage.cleaned {
      forall i: nat | i < s'.job.dispatched ensures Located(s', i) || i in s'.history.dropped {
        assert i < s.job.dispatched ==> Located(s, i) || i in s.history.dropped;
        if i in s.history.dropped {
        } else if i >= s.job.dispatched || Holds(s.workers[l.k], i) {
          WindowHandsOver(s, l, i);
          if Holds(s'.workers[l.k], i) { HeldBy(s.workers, l.k, s'.workers[l.k], i); }
        } else if Queued(s.queue, i) {
          QueuedKept(s.queue, s'.queue, i);
        } else if Held(s.workers, i) {
          HeldMove(s.workers, l.k, s'.workers[l.k], i);
        }
      }
    }
  }

  lemma ArrivalCovered(s: State, l: Label)
    requires Covered(s) && Enabled(s, l) && ArrivalLabel(l)
    ensures Covered(ArrivalStep(s, l))
  {
    var s' := ArrivalStep(s, l);
    if !s.storage.cleaned {
      forall i: nat | i < s'.job.dispatched ensures Located(s', i) || i in s'.history.dropped {
        if i !in s.history.dropped { ArrivalLocated(s, l, i); }
      }
    }
  }

  lemma ArrivalLocated(s: State, l: Label, i: nat)
    requires Enabled(s, l) && ArrivalLabel(l) && Located(s, i)
    ensures Located(ArrivalStep(s, l), i)
  {
    var s' := ArrivalStep(s, l);
    if !l.Redeliver? && Held(s.workers, i) {
      HeldAppend(s.workers, s'.workers[|s.workers|], i);
    } else if l.Redeliver? && Queued(s.queue, i) {
      QueuedSnoc(s.queue, Message(l.row, l.retries), i);
    } else if l.Deliver? && Queued(s.queue, i) {
      var j :| 0 <= j < |s.queue| && s.queue[j].row == i;
      if j == l.m { HeldAppend(s.workers, s'.workers[|s.workers|], i); }
      else { assert s'.queue[if j < l.m then j else j - 1].row == i; }
    }
  }

  lemma FinalizeCovered(s: State, l: Label)
    requires Covered(s) && Enabled(s, l) && Finalizing(l)
    ensures Covered(FinalizeStep(s, l))
  {
    var s' := FinalizeStep(s, l);
    if !s'.storage.cleaned {
      forall i: nat | i < s'.job.dispatched ensures Located(s', i) || i in s'.history.dropped {
        assert Located(s, i) || i in s.history.dropped;
      }
    }
  }

  // ----- Somebody will refill the window -----------------------------------

  predicate NonEmpty(w: Window) { w.next < w.end }

  ghost predicate SomeRows(ws: seq<Window>) {
    exists j :: 0 <= j < |ws| && NonEmpty(ws[j])
  }

  /** A worker that will still try to claim rows, or hand a row to one that will. */
  ghost predicate Refills(w: Worker, dispatched: nat) {
    || SomeRows(w.suspended)
    || (match w.pc
        case Running(_, _) => true
        case Recording(_) => true
        case Bumping(_, _) => true
        case Claiming => true
        case Reading(_, _) => true
        case Swapping(_, seen, _) => seen == dispatched
        case Publishing(win) => NonEmpty(win)
        case _ => false)
  }

  ghost predicate SomeRefills(ws: seq<Worker>, dispatched: nat) {
    exists k :: 0 <= k < |ws| && Refills(ws[k], dispatched)
  }

  /** Since `base` exceptions, and until the next one: the status is not failed, and
      while rows are undispatched the job is alive. */
  ghost predicate Alive(s: State, base: nat) {
    && base <= s.history.cuts
    && (s.job.halted ==> s.history.cuts > base)
    && (s.history.cuts == base && s.job.dispatched < s.job.total ==> s.queue != [] || SomeRefills(s.workers, s.job.dispatched))
  }

  lemma ResumeRefills(suspended: seq<Window>, d: nat)
    requires SomeRows(suspended)
    ensures Refills(Resume(suspended), d)
  {
    var n := |suspended| - 1;
    var j :| 0 <= j < |suspended| && NonEmpty(suspended[j]);
    if j < n { assert suspended[..n][j] == suspended[j]; }
  }

  lemma RefillRefills(suspended: seq<Window>, limit: int, d: nat)
    requires SomeRows(suspended) || limit > 0
    ensures Refills(Refill(suspended, limit), d)
  {
    if limit <= 0 { ResumeRefills(suspended, d); }
  }

  lemma RefillsMove(ws: seq<Worker>, k: nat, w: Worker, d: nat)
    requires k < |ws| && SomeRefills(ws, d) && (Refills(ws[k], d) ==> Refills(w, d))
    ensures SomeRefills(ws[k := w], d)
  {
    var j :| 0 <= j < |ws| && Refills(ws[j], d);
    assert Refills(ws[k := w][j], d);
  }

  lemma RefillsAppend(ws: seq<Worker>, w: Worker, d: nat)
    requires SomeRefills(ws, d) || Refills(w, d)
    ensures SomeRefills(ws + [w], d)
  {
    if Refills(w, d) {
      assert (ws + [w])[|ws|] == w;
    } else {
      var j :| 0 <= j < |ws| && Refills(ws[j], d);
      assert (ws + [w])[j] == ws[j];
    }
  }

  /** A claim can only be open once every row has been dispatched. */
  lemma UndispatchedNotClaimable(s: State)
    requires Inv(s) && s.job.dispatched < s.job.total
    ensures !Claimable(s.job) && !s.job.completed
  {
    if Claimable(s.job) { ClaimableComplete(s); }
  }

  lemma RowKeepsRefilling(s: State, l: Label)
    requires Enabled(s, l) && RowLabel(l) && s.chunk > 0 && !Claimable(s.job) && RowStep(s, l).history.cuts == s.history.cuts
    requires Refills(s.workers[l.k], s.job.dispatched)
    ensures l.Retry? || Refills(RowStep(s, l).workers[l.k], s.job.dispatched)
  {
    var w := s.workers[l.k];
    match l
    case Claim(_) => RefillRefills(w.suspended, s.chunk, s.job.dispatched);
    case Send(_) => ResumeRefills(w.suspended, s.job.dispatched);
    case _ =>
  }

  /** Only an exception cuts anything off or marks the job failed. */
  lemma RowCuts(s: State, l: Label)
    requires Enabled(s, l) && RowLabel(l)
    ensures RowStep(s, l).history.cuts == s.history.cuts + if l.Interrupt? && !s.workers[l.k].pc.Running? then 1 else 0
    ensures RowStep(s, l).job.halted ==> s.job.halted || RowStep(s, l).history.cuts > s.history.cuts
  {
    hide Refill, Resume;
  }

  lemma RowAlive(s: State, base: nat, l: Label)
    requires Inv(s) && Alive(s, base) && Enabled(s, l) && RowLabel(l) && s.chunk > 0
    ensures Alive(RowStep(s, l), base)
  {
    var s' := RowStep(s, l);
    RowMoves(s, l);
    RowCuts(s, l);
    if s'.history.cuts == base && s.job.dispatched < s.job.total && s'.queue == [] {
      UndispatchedNotClaimable(s);
      hide Inv, RowStep, Refills;
      if Refills(s.workers[l.k], s.job.dispatched) { RowKeepsRefilling(s, l); }
      RefillsMove(s.workers, l.k, s'.workers[l.k], s.job.dispatched);
    }
  }

  lemma SwapWins(s: State, k: nat)
    requires Enabled(s, Swap(k)) && s.workers[k].pc.seen == s.job.dispatched < s.job.total
    ensures Refills(WindowStep(s, Swap(k)).workers[k], WindowStep(s, Swap(k)).job.dispatched)
  {
  }

  lemma WindowKeepsRefilling(s: State, l: Label)
    requires Enabled(s, l) && WindowLabel(l) && PcOk(s.workers[l.k], s.job.dispatched, s.job.total)
    requires s.job.dispatched < s.job.total && !s.job.completed && !s.job.halted
    requires l.Swap? ==> s.workers[l.k].pc.seen != s.job.dispatched
    requires Refills(s.workers[l.k], s.job.dispatched)
    ensures WindowStep(s, l).queue != [] || Refills(WindowStep(s, l).workers[l.k], s.job.dispatched)
  {
    var w := s.workers[l.k];
    match l
    case Swap(_) => ResumeRefills(w.suspended, s.job.dispatched);
    case Return(_) => ResumeRefills(w.suspended, s.job.dispatched);
    case _ =>
  }

  lemma WindowSame(s: State, l: Label)
    requires Enabled(s, l) && WindowLabel(l)
    ensures !l.Swap? || s.workers[l.k].pc.seen != s.job.dispatched ==> WindowStep(s, l).job.dispatched == s.job.dispatched
  {
    hide Resume;
  }

  lemma WindowAlive(s: State, base: nat, l: Label)
    requires Inv(s) && Alive(s, base) && Enabled(s, l) && WindowLabel(l)
    ensures Alive(WindowStep(s, l), base)
  {
    var s' := WindowStep(s, l);
    var d := s.job.dispatched;
    assert WorkerOk(s.workers[l.k], d, s.job.total);
    WindowFrame(s, l);
    WindowSame(s, l);
    WindowWrites(s, l);
    if s'.job.dispatched < s'.job.total && s'.history.cuts == base && s'.queue == [] {
      UndispatchedNotClaimable(s);
      hide Inv, WindowStep, Refills, PcOk;
      if l.Swap? && s.workers[l.k].pc.seen == d {
        SwapWins(s, l.k);
        assert Refills(s'.workers[l.k], s'.job.dispatched);
      } else {
        if Refills(s.workers[l.k], d) { WindowKeepsRefilling(s, l); }
        RefillsMove(s.workers, l.k, s'.workers[l.k], d);
      }
    }
  }

  lemma OtherAlive(s: State, base: nat, l: Label)
    requires Alive(s, base) && Enabled(s, l) && (ArrivalLabel(l) || Finalizing(l))
    ensures Alive(Step(s, l), base)
  {
    var s' := Step(s, l);
    if l.Deliver? {
      RefillsAppend(s.workers, s'.workers[|s.workers|], s.job.dispatched);
    } else if (l.TopUp? || l.Sweep?) && SomeRefills(s.workers, s.job.dispatched) {
      RefillsAppend(s.workers, s'.workers[|s.workers|], s.job.dispatched);
    }
  }

  // ----- Somebody will claim finalize --------------------------------------

  ghost predicate SomeClaiming(ws: seq<Worker>) {
    exists k :: 0 <= k < |ws| && ws[k].pc.Claiming?
  }

  /** A job whose last row has been counted has a worker about to claim, unless the
      last such worker was cut off. */
  ghost predicate ClaimPending(s: State) {
    s.job.total > 0 && Claimable(s.job) ==> SomeClaiming(s.workers) || s.history.missedClaim
  }

  lemma ClaimingMove(ws: seq<Worker>, k: nat, w: Worker)
    requires k < |ws| && SomeClaiming(ws) && (ws[k].pc.Claiming? ==> w.pc.Claiming?)
    ensures SomeClaiming(ws[k := w])
  {
    var j :| 0 <= j < |ws| && ws[j].pc.Claiming?;
    assert ws[k := w][j].pc.Claiming?;
  }

  lemma RowClaims(s: State, l: Label)
    requires Enabled(s, l) && RowLabel(l)
    ensures var s', w, w' := RowStep(s, l), s.workers[l.k], RowStep(s, l).workers[l.k];
      && (l.Bump? ==> w'.pc.Claiming?)
      && (Claimable(s'.job) && !l.Bump? ==> Claimable(s.job) && !l.Claim?)
      && (w.pc.Claiming? ==> l.Claim? || l.Interrupt?)
      && (l.Interrupt? && w.pc.Claiming? && Claimable(s.job) ==> s'.history.missedClaim)
      && (Claimable(s'.job) && s.history.missedClaim ==> s'.history.missedClaim)
  {
    hide Refill, Resume;
  }

  lemma RowClaimPending(s: State, l: Label)
    requires ClaimPending(s) && Enabled(s, l) && RowLabel(l)
    ensures ClaimPending(RowStep(s, l))
  {
    var s' := RowStep(s, l);
    RowMoves(s, l);
    RowClaims(s, l);
    hide RowStep;
    if s'.job.total > 0 && Claimable(s'.job) && !s'.history.missedClaim {
      if l.Bump? {
        assert s'.workers[l.k].pc.Claiming?;
      } else {
        ClaimingMove(s.workers, l.k, s'.workers[l.k]);
      }
    }
  }

  lemma WindowClaimPending(s: State, l: Label)
    requires ClaimPending(s) && Enabled(s, l) && WindowLabel(l)
    ensures ClaimPending(WindowStep(s, l))
  {
    var s' := WindowStep(s, l);
    WindowWrites(s, l);
    assert !s.workers[l.k].pc.Claiming?;
    hide WindowStep;
    if s'.job.total > 0 && Claimable(s'.job) && !s'.history.missedClaim {
      ClaimingMove(s.workers, l.k, s'.workers[l.k]);
    }
  }

  lemma OtherClaimPending(s: State, l: Label)
    requires ClaimPending(s) && Enabled(s, l) && (ArrivalLabel(l) || Finalizing(l))
    ensures ClaimPending(Step(s, l))
  {
    var s' := Step(s, l);
    if s'.job.total > 0 && Claimable(s'.job) && !s'.history.missedClaim {
      var j :| 0 <= j < |s.workers| && s.workers[j].pc.Claiming?;
      assert s'.workers[j].pc.Claiming?;
    }
  }

  // ----- Runs --------------------------------------------------------------

  ghost predicate Live(s: State) {
    Kept(s) && Alive(s, 0) && NothingCut(s)
  }

  lemma LiveStep(s: State, l: Label)
    requires Live(s) && Enabled(s, l) && s.chunk > 0
    ensures Live(Step(s, l))
  {
    KeptStep(s, l);
    NothingCutStep(s, l);
    hide Kept, NothingCut, Alive;
    AliveStep(s, 0, l);
  }

  lemma AliveStep(s: State, base: nat, l: Label)
    requires Kept(s) && Alive(s, base) && Enabled(s, l) && s.chunk > 0
    ensures Alive(Step(s, l), base)
  {
    hide Inv, Alive, Covered, ClaimPending, RowStep, WindowStep, ArrivalStep, FinalizeStep;
    if RowLabel(l) { RowAlive(s, base, l); } else if WindowLabel(l) { WindowAlive(s, base, l); } else { OtherAlive(s, base, l); }
  }

  lemma NothingCutStep(s: State, l: Label)
    requires NothingCut(s) && Enabled(s, l)
    ensures NothingCut(Step(s, l))
  {
    if RowLabel(l) {
      RowCuts(s, l);
      if RowStep(s, l).history.cuts == 0 { RowCutsExactly(s, l); }
      hide RowStep;
    } else if WindowLabel(l) {
      WindowWrites(s, l);
      hide WindowStep;
    }
  }

  lemma RowCutsExactly(s: State, l: Label)
    requires Enabled(s, l) && RowLabel(l) && RowStep(s, l).history.cuts == s.history.cuts
    ensures var h, h' := s.history, RowStep(s, l).history;
      h'.lost == h.lost && h'.dropped == h.dropped && h'.cutSends == h.cutSends && (h'.missedClaim ==> h.missedClaim)
  {
    hide Refill, Resume, Claimable, Counted, RowsFrom, Halts;
  }

  lemma {:induction false} LiveRun(s: State, ls: seq<Label>)
    requires Live(s) && s.chunk > 0 && ValidRun(s, ls)
    ensures Live(After(s, ls))
    decreases |ls|
  {
    if ls != [] {
      LiveStep(s, ls[0]);
      ConstantsKept(s, ls[..1]);
      assert ls[..1] == [ls[0]] && ls[..1][1..] == [];
      assert Step(s, ls[0]).chunk == s.chunk;
      hide Live, Step;
      LiveRun(Step(s, ls[0]), ls[1..]);
    }
  }

  lemma InitialLive(total: nat, window: int, chunk: int)
    requires window > 0
    ensures Live(Initial(total, window, chunk))
  {
    InitialInv(total, window, chunk);
    var s := Initial(total, window, chunk);
    if total > 0 { assert Refills(s.workers[0], 0); }
  }

  lemma {:induction false} IdleSums(g: Gauge, ws: seq<Worker>)
    requires forall k :: 0 <= k < |ws| ==> ws[k].pc.Idle? && ws[k].suspended == []
    ensures Sum(g, ws) == 0
  {
    if ws != [] { IdleSums(g, ws[..|ws| - 1]); }
  }

  // ----- At rest, exactly --------------------------------------------------

  /** Every dispatched row is stored in the end, and none is undispatched; the claim
      of the complete job was not missed; and no bump and no send was cut off. */
  ghost predicate Whole(s: State) {
    && s.job.dispatched == s.job.total && s.history.dropped <= s.history.first.Keys
    && s.history.lost == multiset{} && !s.history.missedClaim && s.history.cutSends == 0
  }

  /** At rest, after any run with any exceptions, redeliveries and beats, whatever the
      window and the chunk: finalize has been enqueued exactly when the run left the
      job whole. */
  lemma RestMeansEnqueued(total: nat, window: int, chunk: int, ls: seq<Label>)
    requires total > 0
    requires ValidRun(Initial(total, window, chunk), ls) && Quiescent(Reached(total, window, chunk, ls))
    ensures var s := Reached(total, window, chunk, ls);
      && (s.finalizeSent == 1 <==> Whole(s))
      && (s.finalizeSent != 1 ==> s.finalizeSent == 0)
      && (Whole(s) ==> s.job.claimed && s.history.first.Keys == Below(total) && (!s.storage.cleaned ==> s.job.processed == total))
  {
    InitialKept(total, window, chunk);
    KeptRun(Initial(total, window, chunk), ls);
    ReachedInv(total, window, chunk, ls);
    RestFacts(Reached(total, window, chunk, ls));
  }

  /** What every step keeps, exceptions and a refill configured away included. */
  ghost predicate Kept(s: State) { Inv(s) && Covered(s) && ClaimPending(s) }

  lemma InitialKept(total: nat, window: int, chunk: int)
    ensures Kept(Initial(total, window, chunk))
  {
    InitialInv(total, window, chunk);
  }

  lemma KeptStep(s: State, l: Label)
    requires Kept(s) && Enabled(s, l)
    ensures Kept(Step(s, l))
  {
    StepInv(s, l);
    hide Inv, Covered, ClaimPending;
    StepCovered(s, l);
    StepClaimPending(s, l);
  }

  lemma StepCovered(s: State, l: Label)
    requires Inv(s) && Covered(s) && Enabled(s, l)
    ensures Covered(Step(s, l))
  {
    if RowLabel(l) || WindowLabel(l) { assert WorkerOk(s.workers[l.k], s.job.dispatched, s.job.total); }
    assert s.job.dispatched <= s.job.total;
    hide Inv, Covered, PcOk, RowStep, WindowStep, ArrivalStep, FinalizeStep;
    if RowLabel(l) { RowCovered(s, l); }
    else if WindowLabel(l) { WindowCovered(s, l); }
    else if ArrivalLabel(l) { ArrivalCovered(s, l); }
    else { FinalizeCovered(s, l); }
  }

  lemma StepClaimPending(s: State, l: Label)
    requires ClaimPending(s) && Enabled(s, l)
    ensures ClaimPending(Step(s, l))
  {
    hide ClaimPending, RowStep, WindowStep, ArrivalStep, FinalizeStep;
    if RowLabel(l) { RowClaimPending(s, l); } else if WindowLabel(l) { WindowClaimPending(s, l); } else { OtherClaimPending(s, l); }
  }

  lemma {:induction false} KeptRun(s: State, ls: seq<Label>)
    requires Kept(s) && ValidRun(s, ls)
    ensures Kept(After(s, ls))
    decreases |ls|
  {
    hide Kept, Step;
    if ls != [] {
      KeptStep(s, ls[0]);
      KeptRun(Step(s, ls[0]), ls[1..]);
    }
  }

  lemma RestFacts(s: State)
    requires Kept(s) && Quiescent(s) && s.job.total > 0
    ensures s.finalizeSent == 1 <==> Whole(s)
    ensures s.finalizeSent == 0 || s.finalizeSent == 1
    ensures Whole(s) ==> s.job.claimed && AllRowsIn(s)
    ensures s.job.claimed && !s.storage.cleaned ==> s.job.processed == s.job.total
  {
    forall k | 0 <= k < |s.workers| ensures s.workers[k].suspended == [] {
      assert WorkerOk(s.workers[k], s.job.dispatched, s.job.total);
    }
    IdleSums(PendingSends, s.workers);
    if s.job.claimed && !s.storage.cleaned { CompleteCount(s); }
    if s.storage.cleaned && !s.job.claimed { OpenAfterCleanup(s); }
    if Whole(s) && !s.storage.cleaned && !s.job.claimed { RestCounts(s); }
  }

  lemma RestStored(s: State)
    requires Kept(s) && Quiescent(s) && Whole(s) && !s.storage.cleaned
    requires forall k :: 0 <= k < |s.workers| ==> s.workers[k].suspended == []
    ensures s.storage.results.Keys == Below(s.job.total)
  {
    forall i: nat | i < s.job.total ensures i in s.storage.results {
      assert Located(s, i) || i in s.history.dropped;
    }
  }

  lemma RestBooks(s: State)
    requires Books(s) && !s.storage.cleaned && s.history.lost == multiset{}
    requires forall o :: Sum(PendingBumps(o), s.workers) == 0
    ensures s.job.processed == |s.storage.results|
  {
    RowsPartition(s.storage.results);
    assert forall o: Outcome :: Counter(s.job, o) == |RowsWith(s.storage.results, o)|;
    assert s.job.processed == Counter(s.job, Matched) + Counter(s.job, NoMatch) + Counter(s.job, Failed);
  }

  lemma RestCounts(s: State)
    requires Kept(s) && Quiescent(s) && Whole(s) && !s.storage.cleaned && s.job.total > 0
    requires forall k :: 0 <= k < |s.workers| ==> s.workers[k].suspended == []
    ensures s.job.claimed && s.job.processed == s.job.total
  {
    RestStored(s);
    forall o: Outcome ensures Sum(PendingBumps(o), s.workers) == 0 { IdleSums(PendingBumps(o), s.workers); }
    RestBooks(s);
    assert |s.storage.results| == |s.storage.results.Keys|;
  }

  // ----- What beat repairs, and what nothing repairs ------------------------

  /** A missed claim is open to the sweep, unless the job is marked failed; the sweep
      then claims and enqueues. */
  lemma SweepRepairsClaim(s: State)
    requires Inv(s) && s.job.total > 0 && s.history.missedClaim
    ensures Enabled(s, Sweep) <==> !s.job.halted
    ensures Enabled(s, Sweep) ==>
      && Enabled(Step(s, Sweep), Send(|s.workers|))
      && Step(Step(s, Sweep), Send(|s.workers|)).finalizeSent == 1
  {
    ClaimableComplete(s);
  }

  /** A send that was cut off is never made up for: in every continuation finalize is
      not enqueued, does not run, and is not swept. */
  lemma {:induction false} CutSendStays(s: State, ls: seq<Label>)
    requires Inv(s) && s.job.total > 0 && s.history.cutSends > 0 && ValidRun(s, ls)
    ensures var s' := After(s, ls);
      s'.finalizeSent == 0 && s'.finalizers == [] && !s'.job.completed && !Enabled(s', Sweep)
    decreases |ls|
  {
    if ls != [] {
      StepInv(s, ls[0]);
      CutsGrow(s, ls[0]);
      hide Inv, Step;
      CutSendStays(Step(s, ls[0]), ls[1..]);
    }
  }

  /** Nor is a bump that was cut off: the job is never claimed. */
  lemma {:induction false} LostBumpStays(s: State, ls: seq<Label>)
    requires Inv(s) && s.job.total > 0 && s.history.lost != multiset{} && ValidRun(s, ls)
    ensures var s' := After(s, ls); !s'.job.claimed && s'.finalizeSent == 0 && !s'.job.completed
    decreases |ls|
  {
    if ls != [] {
      StepInv(s, ls[0]);
      CutsGrow(s, ls[0]);
      hide Inv, Step;
      LostBumpStays(Step(s, ls[0]), ls[1..]);
    }
  }

  lemma CutsGrow(s: State, l: Label)
    requires Enabled(s, l)
    ensures Step(s, l).history.cutSends >= s.history.cutSends && Step(s, l).job.total == s.job.total
    ensures s.history.lost != multiset{} ==> Step(s, l).history.lost != multiset{}
  {
    if RowLabel(l) { SendWrites(s, l); RowMoves(s, l); RowLoses(s, l); } else if WindowLabel(l) { WindowWrites(s, l); }
    hide RowStep, WindowStep;
  }

  lemma RowLoses(s: State, l: Label)
    requires Enabled(s, l) && RowLabel(l)
    ensures s.history.lost <= RowStep(s, l).history.lost
  {
    hide Refill, Resume, Claimable;
  }

  /** With rows undispatched nobody has claimed or enqueued finalize. */
  lemma UndispatchedNotEnqueued(s: State)
    requires Inv(s) && s.job.total > 0 && s.job.dispatched < s.job.total
    ensures !s.job.claimed && !Claimable(s.job) && s.finalizeSent == 0 && s.finalizers == [] && !s.history.missedClaim
  {
    UndispatchedNotClaimable(s);
  }

  lemma StepCuts(s: State, l: Label)
    requires Enabled(s, l)
    ensures Step(s, l).history.cuts >= s.history.cuts
    ensures Step(s, l).history.cuts == s.history.cuts ==> CutAlike(s.history, Step(s, l).history)
  {
    if RowLabel(l) {
      RowCuts(s, l);
      if RowStep(s, l).history.cuts == s.history.cuts { RowCutsExactly(s, l); }
      hide RowStep;
    } else if WindowLabel(l) {
      WindowWrites(s, l);
      hide WindowStep;
    }
  }

  /** Nothing more was cut off. */
  ghost predicate CutAlike(h: History, h': History) {
    h'.lost == h.lost && h'.dropped == h.dropped && h'.cutSends == h.cutSends && (h'.missedClaim ==> h.missedClaim)
  }

  lemma {:induction false} RunCuts(s: State, ls: seq<Label>)
    requires ValidRun(s, ls)
    ensures After(s, ls).history.cuts >= s.history.cuts
    ensures After(s, ls).history.cuts == s.history.cuts ==> CutAlike(s.history, After(s, ls).history)
    decreases |ls|
  {
    if ls != [] {
      hide Step;
      StepCuts(s, ls[0]);
      RunCuts(Step(s, ls[0]), ls[1..]);
    }
  }

  lemma {:induction false} AliveRun(s: State, base: nat, ls: seq<Label>)
    requires Kept(s) && Alive(s, base) && s.chunk > 0 && ValidRun(s, ls)
    ensures Kept(After(s, ls)) && Alive(After(s, ls), base) && After(s, ls).job.total == s.job.total
    decreases |ls|
  {
    if ls != [] {
      hide Kept, Alive, Step;
      KeptStep(s, ls[0]);
      AliveStep(s, base, ls[0]);
      WorkConstants(s, ls[0]);
      AliveRun(Step(s, ls[0]), base, ls[1..]);
    }
  }

  /** A positive top-up revives a job that is not marked failed, wherever the run that
      left rows undispatched was cut. */
  lemma TopUpAlive(s: State, limit: int)
    requires Kept(s) && !s.job.halted && limit > 0
    ensures Kept(Step(s, TopUp(limit))) && Alive(Step(s, TopUp(limit)), s.history.cuts)
    ensures Step(s, TopUp(limit)).history == s.history
  {
    hide Kept, RowStep, WindowStep, FinalizeStep;
    KeptStep(s, TopUp(limit));
    var s' := Step(s, TopUp(limit));
    assert Refills(s'.workers[|s.workers|], s.job.dispatched);
  }

  /** What a top-up repairs.  On a job with undispatched rows and not marked failed,
      after any run with any exceptions: once beat has asked for a window, whatever
      else happens short of another exception, the job comes to rest with every row
      dispatched, and with finalize enqueued exactly when no bump and no send had been
      cut off and every dropped row was stored. */
  lemma TopUpRepairs(total: nat, window: int, chunk: int, ls: seq<Label>, limit: int, more: seq<Label>)
    requires total > 0 && chunk > 0 && limit > 0 && ValidRun(Initial(total, window, chunk), ls)
    requires var s := Reached(total, window, chunk, ls); s.job.dispatched < total && !s.job.halted
    requires var s := Reached(total, window, chunk, ls);
      && ValidRun(Step(s, TopUp(limit)), more) && Quiescent(After(Step(s, TopUp(limit)), more))
      && After(Step(s, TopUp(limit)), more).history.cuts == s.history.cuts
    ensures var s := Reached(total, window, chunk, ls);
            var end := After(Step(s, TopUp(limit)), more);
      && end.job.dispatched == total
      && (end.finalizeSent == 1 <==>
            s.history.lost == multiset{} && s.history.cutSends == 0 && s.history.dropped <= end.history.first.Keys)
  {
    var s0, s := Initial(total, window, chunk), Reached(total, window, chunk, ls);
    InitialKept(total, window, chunk);
    KeptRun(s0, ls);
    ConstantsKept(s0, ls);
    RevivedRest(s, limit, more);
  }

  lemma RevivedRest(s: State, limit: int, more: seq<Label>)
    requires Kept(s) && s.job.total > 0 && s.chunk > 0 && limit > 0 && s.job.dispatched < s.job.total && !s.job.halted
    requires ValidRun(Step(s, TopUp(limit)), more) && Quiescent(After(Step(s, TopUp(limit)), more))
    requires After(Step(s, TopUp(limit)), more).history.cuts == s.history.cuts
    ensures var end := After(Step(s, TopUp(limit)), more);
      && end.job.dispatched == end.job.total == s.job.total
      && (end.finalizeSent == 1 <==>
            s.history.lost == multiset{} && s.history.cutSends == 0 && s.history.dropped <= end.history.first.Keys)
  {
    var s1 := Step(s, TopUp(limit));
    UndispatchedNotEnqueued(s);
    WorkConstants(s, TopUp(limit));
    TopUpAlive(s, limit);
    hide Kept, Alive, Step;
    AliveRun(s1, s.history.cuts, more);
    RunCuts(s1, more);
    RestAlive(After(s1, more));
    RestFacts(After(s1, more));
  }

  lemma RestAlive(s: State)
    requires Kept(s) && Alive(s, s.history.cuts) && Quiescent(s)
    ensures s.job.dispatched == s.job.total
  {
    forall k | 0 <= k < |s.workers| ensures s.workers[k].suspended == [] {
      assert WorkerOk(s.workers[k], s.job.dispatched, s.job.total);
    }
  }

  /** Nobody is between the read of the cursor and its update. */
  ghost predicate NoSwap(s: State) {
    forall k :: 0 <= k < |s.workers| ==> !s.workers[k].pc.Swapping?
  }

  /** And it repairs nothing on a job marked failed: no run, with whatever top-ups,
      moves the cursor or enqueues finalize. */
  lemma {:induction false} FailedStaysCut(s: State, ls: seq<Label>)
    requires Inv(s) && s.job.total > 0 && s.job.halted && s.job.dispatched < s.job.total && NoSwap(s) && ValidRun(s, ls)
    ensures var s' := After(s, ls); s'.job.halted && s'.job.dispatched == s.job.dispatched && s'.finalizeSent == 0
    decreases |ls|
  {
    UndispatchedNotEnqueued(s);
    if ls != [] {
      StepInv(s, ls[0]);
      FailedStep(s, ls[0]);
      hide Inv, Step, NoSwap;
      FailedStaysCut(Step(s, ls[0]), ls[1..]);
    }
  }

  lemma FailedStep(s: State, l: Label)
    requires Enabled(s, l) && s.job.halted && s.job.dispatched < s.job.total && NoSwap(s) && s.finalizers == []
    ensures var s' := Step(s, l);
      s'.job.halted && s'.job.dispatched == s.job.dispatched && s'.job.total == s.job.total && NoSwap(s')
  {
    hide CutOff, Claimable;
  }

  // ----- Without exceptions ------------------------------------------------

  /** From any reachable state before an exception has cut anything off, however the
      workers are scheduled and without any beat, the steps left are bounded, and
      when none is left finalize has been claimed and enqueued. */
  lemma FaultFreeCompletion(total: nat, window: int, chunk: int, ls: seq<Label>, rest: seq<Label>)
    requires total > 0 && window > 0 && chunk > 0
    requires ValidRun(Initial(total, window, chunk), ls)
    requires Reached(total, window, chunk, ls).history.cuts == 0
    requires WorkRun(Reached(total, window, chunk, ls), rest)
    ensures |rest| <= Measure(Reached(total, window, chunk, ls))
    ensures ValidRun(Reached(total, window, chunk, ls), rest)
    ensures var s := After(Reached(total, window, chunk, ls), rest);
      (forall l :: WorkLabel(l) ==> !Enabled(s, l)) ==> s.job.claimed && s.finalizeSent == 1 && s.history.first.Keys == Below(total)
  {
    var s0 := Reached(total, window, chunk, ls);
    InitialLive(total, window, chunk);
    LiveRun(Initial(total, window, chunk), ls);
    ReachedInv(total, window, chunk, ls);
    WorkIsBounded(s0, rest);
    LiveRun(s0, rest);
    ConstantsKept(s0, rest);
    WorkCutsNothing(s0, rest);
    var s := After(s0, rest);
    NotStuck(s);
    if Quiescent(s) { RestUncut(s); }
  }

  /** Nothing cut off leaves the job whole. */
  ghost predicate NothingCut(s: State) {
    s.history.cuts == 0 ==>
      s.history.lost == multiset{} && s.history.dropped == {} && !s.history.missedClaim && s.history.cutSends == 0
  }

  lemma RestUncut(s: State)
    requires Live(s) && Quiescent(s) && s.job.total > 0 && s.history.cuts == 0
    ensures Whole(s) && s.job.claimed && s.finalizeSent == 1 && s.history.first.Keys == Below(s.job.total)
  {
    forall k | 0 <= k < |s.workers| ensures s.workers[k].suspended == [] {
      assert WorkerOk(s.workers[k], s.job.dispatched, s.job.total);
    }
    assert s.job.dispatched == s.job.total;
    RestFacts(s);
  }

  lemma {:induction false} WorkCutsNothing(s: State, ls: seq<Label>)
    requires WorkRun(s, ls) && ValidRun(s, ls)
    ensures After(s, ls).history.cuts == s.history.cuts
    decreases |ls|
  {
    if ls != [] {
      if RowLabel(ls[0]) { RowCuts(s, ls[0]); } else if WindowLabel(ls[0]) { WindowWrites(s, ls[0]); }
      hide RowStep, WindowStep;
      WorkCutsNothing(Step(s, ls[0]), ls[1..]);
    }
  }

  // ----- When the refill is configured away ---------------------------------

  /** With a chunk that is not positive only the dispatcher ever claims rows:
      before its claim it is alone, after it nobody is about to claim. */
  ghost predicate OnlyDispatcher(s: State, window: int) {
    && !s.job.completed && !s.job.halted
    && (|| (&& window > 0 && s.job.dispatched == 0 && s.queue == []
            && (s.workers == [Worker(Reading(window, MAX_CAS), [])] || s.workers == [Worker(Swapping(window, 0, MAX_CAS), [])]))
        || (&& s.job.dispatched == Min(window, s.job.total)
            && forall k :: 0 <= k < |s.workers| ==> !s.workers[k].pc.Reading? && !s.workers[k].pc.Swapping?))
  }

  lemma OnlyDispatcherStep(s: State, l: Label, window: int)
    requires OnlyDispatcher(s, window) && s.chunk <= 0 && s.job.total > 0
    requires Enabled(s, l) && WorkLabel(l)
    ensures OnlyDispatcher(Step(s, l), window)
  {
    if RowLabel(l) {
      RowWithoutRefill(s, l);
      hide RowStep;
    } else if WindowLabel(l) && s.queue == [] && |s.workers| == 1 && (l.Read? || l.Swap?) {
    } else if WindowLabel(l) {
      WindowWithoutRefill(s, l);
      WindowWrites(s, l);
      hide WindowStep;
    }
  }

  lemma RowWithoutRefill(s: State, l: Label)
    requires Enabled(s, l) && RowLabel(l) && !l.Interrupt? && s.chunk <= 0
    ensures var s', w' := RowStep(s, l), RowStep(s, l).workers[l.k];
      && |s'.workers| == |s.workers| && s'.workers == s.workers[l.k := w'] && !w'.pc.Reading? && !w'.pc.Swapping?
      && s'.job.completed == s.job.completed && s'.job.halted == s.job.halted
      && s'.job.dispatched == s.job.dispatched && s'.job.total == s.job.total
  {
    RowMoves(s, l);
    hide CutOff;
  }

  lemma WindowWithoutRefill(s: State, l: Label)
    requires Enabled(s, l) && WindowLabel(l) && !l.Read? && !l.Swap?
    ensures var s', w' := WindowStep(s, l), WindowStep(s, l).workers[l.k];
      s'.job == s.job && !w'.pc.Reading? && !w'.pc.Swapping?
  {
  }

  lemma {:induction false} OnlyDispatcherRun(s: State, ls: seq<Label>, window: int)
    requires Kept(s) && OnlyDispatcher(s, window) && s.chunk <= 0 && s.job.total > 0 && WorkRun(s, ls)
    ensures ValidRun(s, ls)
    ensures Kept(After(s, ls)) && OnlyDispatcher(After(s, ls), window)
    decreases |ls|
  {
    if ls != [] {
      var l := ls[0];
      KeptStep(s, l);
      OnlyDispatcherStep(s, l, window);
      WorkConstants(s, l);
      hide Kept, OnlyDispatcher, Step;
      OnlyDispatcherRun(Step(s, l), ls[1..], window);
    }
  }

  lemma WorkConstants(s: State, l: Label)
    requires Enabled(s, l)
    ensures Step(s, l).job.total == s.job.total && Step(s, l).chunk == s.chunk
  {
    hide Refill, Resume, CutOff, Claimable;
  }

  /** Exactly when a job left to its own workers finishes: the first window must
      be positive, and unless it takes every row the refill chunk must be too. */
  lemma FinishesExactly(total: nat, window: int, chunk: int, ls: seq<Label>)
    requires total > 0 && WorkRun(Initial(total, window, chunk), ls)
    requires ValidRun(Initial(total, window, chunk), ls) && Quiescent(Reached(total, window, chunk, ls))
    ensures Reached(total, window, chunk, ls).finalizeSent == 1 <==> window > 0 && (chunk > 0 || window >= total)
  {
    var s0 := Initial(total, window, chunk);
    InitialKept(total, window, chunk);
    ReachedInv(total, window, chunk, ls);
    if window <= 0 {
      assert Quiescent(s0);
      NotStuck(s0);
      assert ls == [];
    } else if chunk > 0 {
      InitialLive(total, window, chunk);
      FaultFreeCompletion(total, window, chunk, [], ls);
      NotStuck(Reached(total, window, chunk, ls));
    } else {
      OnlyDispatcherRun(s0, ls, window);
      WorkCutsNothing(s0, ls);
      WorkNothingCut(s0, ls);
      RestWithoutRefill(Reached(total, window, chunk, ls), window);
    }
  }

  lemma {:induction false} WorkNothingCut(s: State, ls: seq<Label>)
    requires WorkRun(s, ls) && ValidRun(s, ls) && NothingCut(s)
    ensures NothingCut(After(s, ls))
    decreases |ls|
  {
    if ls != [] {
      NothingCutStep(s, ls[0]);
      hide Step, NothingCut;
      WorkNothingCut(Step(s, ls[0]), ls[1..]);
    }
  }

  lemma RestWithoutRefill(s: State, window: int)
    requires Kept(s) && NothingCut(s) && OnlyDispatcher(s, window) && Quiescent(s) && s.job.total > 0 && s.history.cuts == 0
    ensures s.finalizeSent == 1 <==> window >= s.job.total
  {
    assert s.job.dispatched == Min(window, s.job.total);
    RestFacts(s);
  }
}
