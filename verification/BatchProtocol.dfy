/** The agentic batch job as a transition system: row tasks, self-refill of the
    dispatch window, the finalize claim and the finalize task, all interleaved.

    Every database statement and every Redis command is one step; whatever the
    code does between two of them is local to one worker.  A label carries all
    the choices the environment makes, so a run is a sequence of labels. */
module BatchProtocol {

  // ----- Data ------------------------------------------------------------

  /** What a terminal row hands to the results hash: the answer of the success
      path, or the failed-row dictionary carrying its message. */
  datatype RowResult =
    | Answered(mappedTitle: string, confidence: int, reasoning: string, presentInDb: bool)
    | FailedRow(message: string)

  /** The counter column bumped together with `processed`. */
  datatype Outcome = Matched | NoMatch | Failed

  function OutcomeOf(r: RowResult): Outcome {
    match r
    case Answered(_, _, _, present) => if present then Matched else NoMatch
    case FailedRow(_) => Failed
  }

  const MISSING := FailedRow("row result missing - task may have crashed without reporting")
  const UNRECOVERABLE := FailedRow("row arguments unrecoverable (upload no longer available)")

  const MAX_RETRIES: nat := 4   // Celery retries of one row message
  const MAX_CAS: nat := 5       // attempts of one dispatch-cursor claim

  datatype Message = Message(row: nat, retries: nat)

  type Limit = n: int | n > 0 witness 1

  /** Rows [next, end) that a worker owns and still has to publish. */
  datatype Window = Window(next: nat, end: nat)

  /** Where a row task (or a dispatcher) stands. */
  datatype Pc =
    | Running(row: nat, retries: nat)                  // matching; nothing recorded yet
    | Recording(row: nat)                              // about to record the row as failed
    | Bumping(row: nat, outcome: Outcome)              // result stored, counters not yet bumped
    | Claiming                                         // about to try the finalize claim
    | Sending                                          // won the claim, about to enqueue finalize
    | Reading(limit: Limit, tries: nat)                 // about to read the dispatch cursor
    | Swapping(limit: Limit, seen: nat, tries: nat)    // about to compare-and-swap it
    | Publishing(window: Window)                       // owns a window of rows
    | Idle                                             // finished

  /** A worker: its current point, and the windows it will come back to when the
      recording of an unrecoverable row returns. */
  datatype Worker = Worker(pc: Pc, suspended: seq<Window>)

  /** Where one execution of the finalize task stands. */
  datatype Finalizer =
    | Checked                         // saw a status other than completed
    | HasUpload                       // re-read and parsed the upload
    | Assembled(rows: seq<RowResult>) // read the results hash
    | Written                         // put the output file
    | Committed                       // committed status = completed
    | UploadGone                      // deleted the upload
    | ResultsGone                     // deleted the results hash
    | Ended                           // returned, or crashed

  /** The columns of the job row that the protocol reads and writes.  The status is
      completed, failed (`halted`) or else processing. */
  datatype Job = Job(total: nat, dispatched: nat,
                     processed: int, matched: int, noMatch: int, failed: int,
                     claimed: bool, completed: bool, halted: bool)

  /** The results hash and the files. `output` is [] before the first write and
      otherwise holds the current file; `cleaned` says the hash was deleted. */
  datatype Storage = Storage(results: map<nat, RowResult>, output: seq<seq<RowResult>>,
                             uploadDeleted: bool, cleaned: bool)

  /** History: the first result ever stored for a row, the windows ever claimed,
      whether a finalize ever committed, and what exceptions cut off: how many there
      were, the bumps lost while the results hash stood, the rows neither published
      nor recorded, a claim that would have won and nobody has made since, and the
      sends after a won claim. */
  datatype History = History(first: map<nat, RowResult>, claims: seq<Window>, committed: bool, cuts: nat,
                             lost: multiset<Outcome>, dropped: set<nat>, missedClaim: bool, cutSends: nat)

  const NO_HISTORY := History(map[], [], false, 0, multiset{}, {}, false, 0)

  /** `chunk` is the AGENTIC_ROUNDROBIN_CHUNK setting. */
  datatype State = State(job: Job, storage: Storage, queue: seq<Message>, workers: seq<Worker>,
                         finalizeSent: nat, finalizers: seq<Finalizer>, chunk: int, history: History)

  /** The state dispatch_batch leaves once it has written total and status: with
      no rows it enqueues finalize itself, otherwise it asks for a first window. */
  function Initial(total: nat, window: int, chunk: int): State {
    State(Job(total, 0, 0, 0, 0, 0, false, false, false), Storage(map[], [], false, false), [],
          if total == 0 then [] else [Refill([], window)],
          if total == 0 then 1 else 0, [], chunk, NO_HISTORY)
  }

  // ----- Steps -----------------------------------------------------------

  datatype Label =
    | Deliver(m: nat)                         // a worker takes the m-th message
    | Retry(k: nat)                           // self.retry: the row goes back to the broker
    | Store(k: nat, r: RowResult)             // HSETNX of a terminal result
    | Bump(k: nat)                            // UPDATE ... processed = processed + 1
    | Claim(k: nat)                           // claim_finalize
    | Send(k: nat)                            // finalize_batch.apply_async
    | Read(k: nat)                            // claim_row_window: read the cursor
    | Swap(k: nat)                            // claim_row_window: conditional UPDATE
    | Publish(k: nat)                         // agentic_batch_row.apply_async
    | GiveUpRow(k: nat)                       // the row's arguments cannot be recovered
    | Return(k: nat)                          // the window is published
    | Redeliver(row: nat, retries: nat)       // the broker delivers a row again
    | TopUp(limit: int)                       // beat asks for a window
    | Sweep                                   // beat claims finalize for a finished job
    | Interrupt(k: nat, handled: bool)        // an exception, before the worker's next statement
    | StartFinalize                           // (re)delivery of the finalize message
    | GetUpload(k: nat)
    | ReadResults(k: nat)
    | PutOutput(k: nat)
    | Commit(k: nat)
    | DeleteUpload(k: nat)
    | DeleteResults(k: nat)
    | DeleteArgs(k: nat)
    | Crash(k: nat)                           // the finalize process dies

  /** enqueue_next_window returns at once for a limit that is not positive. */
  function Refill(suspended: seq<Window>, limit: int): Worker {
    if limit > 0 then Worker(Reading(limit, MAX_CAS), suspended) else Resume(suspended)
  }

  /** Returning from a call: back to the innermost suspended window, if any. */
  function Resume(suspended: seq<Window>): Worker {
    if suspended == [] then Worker(Idle, [])
    else Worker(Publishing(suspended[|suspended| - 1]), suspended[..|suspended| - 1])
  }

  function Min(a: int, b: int): int { if a <= b then a else b }

  /** finalize_batch's table: the stored result of each row, or the filler. */
  function Assemble(results: map<nat, RowResult>, total: nat): (rows: seq<RowResult>)
    ensures |rows| == total
    ensures forall i :: 0 <= i < total ==> rows[i] == if i in results then results[i] else MISSING
  {
    seq(total, i requires 0 <= i < total => if i in results then results[i] else MISSING)
  }

  predicate MayStore(pc: Pc, r: RowResult) {
    pc.Running? || (pc.Recording? && r.FailedRow?)
  }

  predicate At(s: State, k: nat) { k < |s.workers| }

  predicate FinAt(s: State, k: nat) { k < |s.finalizers| }

  predicate Enabled(s: State, l: Label) {
    match l
    case Deliver(m) => m < |s.queue|
    case Retry(k) => At(s, k) && s.workers[k].pc.Running? && s.workers[k].pc.retries < MAX_RETRIES
    case Store(k, r) => At(s, k) && MayStore(s.workers[k].pc, r)
    case Bump(k) => At(s, k) && s.workers[k].pc.Bumping?
    case Claim(k) => At(s, k) && s.workers[k].pc.Claiming?
    case Send(k) => At(s, k) && s.workers[k].pc.Sending?
    case Read(k) => At(s, k) && s.workers[k].pc.Reading?
    case Swap(k) => At(s, k) && s.workers[k].pc.Swapping?
    case Publish(k) => At(s, k) && s.workers[k].pc.Publishing? && s.workers[k].pc.window.next < s.workers[k].pc.window.end
    case GiveUpRow(k) => At(s, k) && s.workers[k].pc.Publishing? && s.workers[k].pc.window.next < s.workers[k].pc.window.end
    case Return(k) => At(s, k) && s.workers[k].pc.Publishing? && s.workers[k].pc.window.next >= s.workers[k].pc.window.end
    case Redeliver(row, retries) => row < s.job.dispatched && retries <= MAX_RETRIES
    case TopUp(_) => true
    case Sweep => !s.job.completed && !s.job.halted && !s.job.claimed && s.job.dispatched >= s.job.total && s.job.processed >= s.job.total
    case Interrupt(k, handled) => At(s, k) && Interruptible(s.workers[k], handled)
    case StartFinalize => s.finalizeSent > 0
    case GetUpload(k) => FinAt(s, k) && s.finalizers[k].Checked?
    case ReadResults(k) => FinAt(s, k) && s.finalizers[k].HasUpload?
    case PutOutput(k) => FinAt(s, k) && s.finalizers[k].Assembled?
    case Commit(k) => FinAt(s, k) && s.finalizers[k].Written?
    case DeleteUpload(k) => FinAt(s, k) && s.finalizers[k].Committed?
    case DeleteResults(k) => FinAt(s, k) && s.finalizers[k].UploadGone?
    case DeleteArgs(k) => FinAt(s, k) && s.finalizers[k].ResultsGone?
    case Crash(k) => FinAt(s, k) && !s.finalizers[k].Ended?
  }

  /** The row task's own handler records the row as failed: it catches everything
      before the store and an exception between the store and the bump.  From the
      claim on, and in a window's recording of an unrecoverable row, a handler
      further down swallows the exception. */
  predicate Interruptible(w: Worker, handled: bool) {
    match w.pc
    case Idle => false
    case Running(_, _) => handled
    case Bumping(_, _) => handled ==> w.suspended == []
    case _ => !handled
  }

  /** Worker 0 is the dispatcher of a job with rows. */
  const DISPATCHER: nat := 0

  /** An exception in dispatch_batch's own claim or publishing marks the job failed. */
  predicate Halts(k: nat, w: Worker) {
    k == DISPATCHER && w.suspended == [] && (w.pc.Reading? || w.pc.Swapping? || w.pc.Publishing?)
  }

  function WithWorker(s: State, k: nat, w: Worker): State
    requires At(s, k)
  {
    s.(workers := s.workers[k := w])
  }

  function WithFin(s: State, k: nat, f: Finalizer): State
    requires FinAt(s, k)
  {
    s.(finalizers := s.finalizers[k := f])
  }

  /** HSETNX, and what the task does next with its answer. */
  function StoreStep(s: State, k: nat, r: RowResult): State
    requires At(s, k) && MayStore(s.workers[k].pc, r)
  {
    var w := s.workers[k];
    var row := w.pc.row;
    if row in s.storage.results then WithWorker(s, k, Worker(Claiming, w.suspended))
    else
      s.(workers := s.workers[k := Worker(Bumping(row, OutcomeOf(r)), w.suspended)],
         storage := s.storage.(results := s.storage.results[row := r]),
         history := Remember(s.history, row, r))
  }

  function Remember(h: History, row: nat, r: RowResult): History {
    if row in h.first then h else h.(first := h.first[row := r])
  }

  /** One UPDATE adding to `processed` and to one outcome column. */
  function Counted(job: Job, o: Outcome): Job {
    match o
    case Matched => job.(processed := job.processed + 1, matched := job.matched + 1)
    case NoMatch => job.(processed := job.processed + 1, noMatch := job.noMatch + 1)
    case Failed => job.(processed := job.processed + 1, failed := job.failed + 1)
  }

  function BumpStep(s: State, k: nat): State
    requires At(s, k) && s.workers[k].pc.Bumping?
  {
    s.(workers := s.workers[k := Worker(Claiming, s.workers[k].suspended)],
       job := Counted(s.job, s.workers[k].pc.outcome))
  }

  /** The condition of the claim's UPDATE: unclaimed, and every row counted. */
  predicate Claimable(job: Job) { !job.claimed && job.processed >= job.total }

  /** The finalize claim: one conditional UPDATE; the loser refills its window. */
  function ClaimStep(s: State, k: nat): State
    requires At(s, k) && s.workers[k].pc.Claiming?
  {
    var w := s.workers[k];
    if Claimable(s.job)
    then s.(workers := s.workers[k := Worker(Sending, w.suspended)], job := s.job.(claimed := true),
            history := s.history.(missedClaim := false))
    else WithWorker(s, k, Refill(w.suspended, s.chunk))
  }

  function ReadStep(s: State, k: nat): State
    requires At(s, k) && s.workers[k].pc.Reading?
  {
    var Worker(pc, suspended) := s.workers[k];
    if s.job.completed || s.job.halted || s.job.dispatched >= s.job.total
    then WithWorker(s, k, Resume(suspended))
    else WithWorker(s, k, Worker(Swapping(pc.limit, s.job.dispatched, pc.tries), suspended))
  }

  /** UPDATE ... WHERE dispatched == seen; on a miss, another read or giving up. */
  function SwapStep(s: State, k: nat): State
    requires At(s, k) && s.workers[k].pc.Swapping?
  {
    var Worker(pc, suspended) := s.workers[k];
    if s.job.dispatched == pc.seen then
      var window := Window(pc.seen, Min(pc.seen + pc.limit, s.job.total));
      s.(workers := s.workers[k := Worker(Publishing(window), suspended)],
         job := s.job.(dispatched := window.end),
         history := s.history.(claims := s.history.claims + [window]))
    else if pc.tries <= 1 then WithWorker(s, k, Resume(suspended))
    else WithWorker(s, k, Worker(Reading(pc.limit, pc.tries - 1), suspended))
  }

  function PublishStep(s: State, k: nat, recoverable: bool): State
    requires Enabled(s, Publish(k))
  {
    var Worker(pc, suspended) := s.workers[k];
    var Window(next, end) := pc.window;
    if recoverable
    then s.(workers := s.workers[k := Worker(Publishing(Window(next + 1, end)), suspended)],
            queue := s.queue + [Message(next, 0)])
    else WithWorker(s, k, Worker(Recording(next), suspended + [Window(next + 1, end)]))
  }

  /** The rows a .. b-1. */
  function RowsFrom(a: nat, b: nat): (rows: set<nat>)
    ensures forall i: nat :: i in rows <==> a <= i < b
    decreases b - a
  {
    if a < b then RowsFrom(a + 1, b) + {a} else {}
  }

  /** What an exception at this point cuts off for good; during the matching, nothing. */
  function CutOff(s: State, pc: Pc): History {
    var h := s.history.(cuts := s.history.cuts + 1);
    match pc
    case Running(_, _) => s.history
    case Recording(row) => h.(dropped := h.dropped + {row})
    case Bumping(_, o) => if s.storage.cleaned then h else h.(lost := h.lost + multiset{o})
    case Claiming => if Claimable(s.job) then h.(missedClaim := true) else h
    case Sending => h.(cutSends := h.cutSends + 1)
    case Publishing(w) => h.(dropped := h.dropped + RowsFrom(w.next, w.end))
    case _ => h
  }

  /** A handled exception goes on to record the row as failed; any other returns to
      the innermost suspended window, or ends the task. */
  function InterruptStep(s: State, k: nat, handled: bool): State
    requires Enabled(s, Interrupt(k, handled))
  {
    var w := s.workers[k];
    s.(workers := s.workers[k := if handled then Worker(Recording(w.pc.row), []) else Resume(w.suspended)],
       job := if Halts(k, w) then s.job.(completed := false, halted := true) else s.job,
       history := CutOff(s, w.pc))
  }

  /** Steps of one finalize execution. */
  function FinalizeStep(s: State, l: Label): State
    requires Enabled(s, l) && Finalizing(l)
  {
    match l
    case StartFinalize => s.(finalizers := s.finalizers + [if s.job.completed then Ended else Checked])
    case GetUpload(k) => WithFin(s, k, if s.storage.uploadDeleted then Ended else HasUpload)
    case ReadResults(k) => WithFin(s, k, Assembled(Assemble(s.storage.results, s.job.total)))
    case PutOutput(k) =>
      s.(finalizers := s.finalizers[k := Written], storage := s.storage.(output := [s.finalizers[k].rows]))
    case Commit(k) =>
      s.(finalizers := s.finalizers[k := Committed], job := s.job.(completed := true, halted := false),
         history := s.history.(committed := true))
    case DeleteUpload(k) =>
      s.(finalizers := s.finalizers[k := UploadGone], storage := s.storage.(uploadDeleted := true))
    case DeleteResults(k) =>
      s.(finalizers := s.finalizers[k := ResultsGone], storage := s.storage.(results := map[], cleaned := true))
    case DeleteArgs(k) => WithFin(s, k, Ended)
    case Crash(k) => WithFin(s, k, Ended)
  }

  predicate Finalizing(l: Label) {
    l.StartFinalize? || l.GetUpload? || l.ReadResults? || l.PutOutput? || l.Commit? ||
    l.DeleteUpload? || l.DeleteResults? || l.DeleteArgs? || l.Crash?
  }

  /** Steps of a row task up to its finalize claim. */
  predicate RowLabel(l: Label) {
    l.Retry? || l.Store? || l.Bump? || l.Claim? || l.Send? || l.Interrupt?
  }

  function RowStep(s: State, l: Label): State
    requires Enabled(s, l) && RowLabel(l)
  {
    match l
    case Retry(k) =>
      s.(workers := s.workers[k := Worker(Idle, [])],
         queue := s.queue + [Message(s.workers[k].pc.row, s.workers[k].pc.retries + 1)])
    case Store(k, r) => StoreStep(s, k, r)
    case Bump(k) => BumpStep(s, k)
    case Claim(k) => ClaimStep(s, k)
    case Send(k) =>
      s.(workers := s.workers[k := Resume(s.workers[k].suspended)], finalizeSent := s.finalizeSent + 1)
    case Interrupt(k, handled) => InterruptStep(s, k, handled)
  }

  /** Steps of enqueue_next_window. */
  predicate WindowLabel(l: Label) {
    l.Read? || l.Swap? || l.Publish? || l.GiveUpRow? || l.Return?
  }

  function WindowStep(s: State, l: Label): State
    requires Enabled(s, l) && WindowLabel(l)
  {
    match l
    case Read(k) => ReadStep(s, k)
    case Swap(k) => SwapStep(s, k)
    case Publish(k) => PublishStep(s, k, true)
    case GiveUpRow(k) => PublishStep(s, k, false)
    case Return(k) => WithWorker(s, k, Resume(s.workers[k].suspended))
  }

  /** Steps that start a worker or add a message. */
  predicate ArrivalLabel(l: Label) {
    l.Deliver? || l.Redeliver? || l.TopUp? || l.Sweep?
  }

  function ArrivalStep(s: State, l: Label): State
    requires Enabled(s, l) && ArrivalLabel(l)
  {
    match l
    case Deliver(m) =>
      s.(queue := s.queue[..m] + s.queue[m + 1..],
         workers := s.workers + [Worker(Running(s.queue[m].row, s.queue[m].retries), [])])
    case Redeliver(row, retries) => s.(queue := s.queue + [Message(row, retries)])
    case TopUp(limit) => s.(workers := s.workers + [Refill([], limit)])
    case Sweep =>
      s.(job := s.job.(claimed := true), workers := s.workers + [Worker(Sending, [])], history := s.history.(missedClaim := false))
  }

  function Step(s: State, l: Label): State
    requires Enabled(s, l)
  {
    if RowLabel(l) then RowStep(s, l)
    else if WindowLabel(l) then WindowStep(s, l)
    else if ArrivalLabel(l) then ArrivalStep(s, l)
    else FinalizeStep(s, l)
  }

  // ----- Runs ------------------------------------------------------------

  ghost predicate ValidRun(s: State, ls: seq<Label>)
    decreases |ls|
  {
    ls != [] ==> Enabled(s, ls[0]) && ValidRun(Step(s, ls[0]), ls[1..])
  }

  ghost function After(s: State, ls: seq<Label>): State
    requires ValidRun(s, ls)
    decreases |ls|
  {
    if ls == [] then s else After(Step(s, ls[0]), ls[1..])
  }
}
