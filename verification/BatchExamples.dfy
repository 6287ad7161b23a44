/** Concrete runs of the batch protocol, one for each way a promise fails: what an
    exception can cut off, a refill configured away, and two finalize executions
    that overlap. */
module BatchExamples {
  import opened BatchProtocol
  import opened BatchSafety
  import opened BatchFinalize
  import opened BatchProgress

  // ----- A first row, dispatched, matched and counted ------------------------

  const ANSWER := Answered("Moana 2", 97, "exact title", true)

  /** Some fault-free run of the workers leads from s to s'. */
  ghost predicate WorksTo(s: State, s': State) {
    exists ls :: WorkRun(s, ls) && ValidRun(s, ls) && After(s, ls) == s'
  }

  lemma {:induction false} WorkSnoc(s: State, ls: seq<Label>, l: Label)
    requires WorkRun(s, ls) && ValidRun(s, ls) && Enabled(After(s, ls), l) && WorkLabel(l)
    ensures WorkRun(s, ls + [l])
    decreases |ls|
  {
    if ls == [] {
      assert [l][1..] == [];
    } else {
      hide Enabled, Step, WorkLabel;
      WorkSnoc(Step(s, ls[0]), ls[1..], l);
      assert (ls + [l])[1..] == ls[1..] + [l];
    }
  }

  lemma WorkStep(s: State, s1: State, l: Label, s2: State)
    requires WorksTo(s, s1) && Enabled(s1, l) && WorkLabel(l) && Step(s1, l) == s2
    ensures WorksTo(s, s2)
  {
    hide Enabled, Step, WorkLabel;
    var ls :| WorkRun(s, ls) && ValidRun(s, ls) && After(s, ls) == s1;
    RunSnoc(s, ls, l);
    WorkSnoc(s, ls, l);
  }

  lemma WorkReaches(s: State, s': State)
    requires WorksTo(s, s')
    ensures Reaches(s, s')
  {
  }

  lemma ThenStep(s: State, s1: State, l: Label, s2: State)
    requires Reaches(s, s1) && Enabled(s1, l) && Step(s1, l) == s2
    ensures Reaches(s, s2)
  {
    ReachesStep(s, s1, l);
  }

  /** A job of n rows whose dispatcher asks for one row, at its successive points. */
  function Start(n: nat, chunk: int): State { Initial(n, 1, chunk) }

  function Point(n: nat, chunk: int, dispatched: nat, counted: int, claimed: bool, results: map<nat, RowResult>,
                 queue: seq<Message>, workers: seq<Worker>, history: History): State {
    State(Job(n, dispatched, counted, counted, 0, 0, claimed, false, false), Storage(results, [], false, false), queue, workers, 0, [],
          chunk, history)
  }

  const IDLE := Worker(Idle, [])
  const ROW0 := map[0 := ANSWER]
  const CLAIM0 := NO_HISTORY.(claims := [Window(0, 1)])
  const STORE0 := NO_HISTORY.(claims := [Window(0, 1)], first := ROW0)

  function ReadOne(n: nat, chunk: int): State {
    Point(n, chunk, 0, 0, false, map[], [], [Worker(Swapping(1, 0, MAX_CAS), [])], NO_HISTORY)
  }

  function ClaimedRow(n: nat, chunk: int): State {
    Point(n, chunk, 1, 0, false, map[], [], [Worker(Publishing(Window(0, 1)), [])], CLAIM0)
  }

  function SentRow(n: nat, chunk: int): State {
    Point(n, chunk, 1, 0, false, map[], [Message(0, 0)], [Worker(Publishing(Window(1, 1)), [])], CLAIM0)
  }

  function DispatchedRow(n: nat, chunk: int): State {
    Point(n, chunk, 1, 0, false, map[], [Message(0, 0)], [IDLE], CLAIM0)
  }

  function RunningRow(n: nat, chunk: int): State {
    Point(n, chunk, 1, 0, false, map[], [], [IDLE, Worker(Running(0, 0), [])], CLAIM0)
  }

  function StoredRow(n: nat, chunk: int): State {
    Point(n, chunk, 1, 0, false, ROW0, [], [IDLE, Worker(Bumping(0, Matched), [])], STORE0)
  }

  function CountedRow(n: nat, chunk: int): State {
    Point(n, chunk, 1, 1, false, ROW0, [], [IDLE, Worker(Claiming, [])], STORE0)
  }

  lemma ToClaimedRow(n: nat, chunk: int)
    requires n > 0
    ensures WorksTo(Start(n, chunk), ClaimedRow(n, chunk))
  {
    hide WorksTo, RowStep, ArrivalStep, FinalizeStep;
    var s := Start(n, chunk);
    assert WorksTo(s, s) by { FromHere(s); }
    WorkStep(s, s, Read(0), ReadOne(n, chunk));
    WorkStep(s, ReadOne(n, chunk), Swap(0), ClaimedRow(n, chunk));
  }

  lemma FromHere(s: State)
    ensures WorksTo(s, s)
  {
    assert WorkRun(s, []) && ValidRun(s, []) && After(s, []) == s;
  }

  lemma ToDispatchedRow(n: nat, chunk: int)
    requires n > 0
    ensures WorksTo(Start(n, chunk), DispatchedRow(n, chunk))
  {
    hide WorksTo, RowStep, ArrivalStep, FinalizeStep;
    ToClaimedRow(n, chunk);
    WorkStep(Start(n, chunk), ClaimedRow(n, chunk), Publish(0), SentRow(n, chunk));
    WorkStep(Start(n, chunk), SentRow(n, chunk), Return(0), DispatchedRow(n, chunk));
  }

  lemma ToRunningRow(n: nat, chunk: int)
    requires n > 0
    ensures WorksTo(Start(n, chunk), RunningRow(n, chunk))
  {
    hide WorksTo, RowStep, WindowStep, FinalizeStep;
    ToDispatchedRow(n, chunk);
    WorkStep(Start(n, chunk), DispatchedRow(n, chunk), Deliver(0), RunningRow(n, chunk));
  }

  lemma ToStoredRow(n: nat, chunk: int)
    requires n > 0
    ensures WorksTo(Start(n, chunk), StoredRow(n, chunk))
  {
    hide WorksTo, WindowStep, ArrivalStep, FinalizeStep;
    ToRunningRow(n, chunk);
    assert map[][0 := ANSWER] == map[0 := ANSWER];
    WorkStep(Start(n, chunk), RunningRow(n, chunk), Store(1, ANSWER), StoredRow(n, chunk));
  }

  lemma ToCountedRow(n: nat, chunk: int)
    requires n > 0
    ensures WorksTo(Start(n, chunk), CountedRow(n, chunk))
  {
    hide WorksTo, WindowStep, ArrivalStep, FinalizeStep;
    ToStoredRow(n, chunk);
    WorkStep(Start(n, chunk), StoredRow(n, chunk), Bump(1), CountedRow(n, chunk));
  }

  // ----- What an exception cuts off ------------------------------------------

  /** An exception in the last live worker, outside every handler of its own. */
  function Cut(s: State): State
    requires |s.workers| == 2
  {
    s.(workers := [IDLE, IDLE], history := CutOff(s, s.workers[1].pc))
  }

  lemma CutHere(start: State, s: State)
    requires Reaches(start, s) && |s.workers| == 2 && s.workers[0] == IDLE && s.workers[1].suspended == [] && s.queue == []
    requires Interruptible(s.workers[1], false)
    ensures Reaches(start, Cut(s)) && Quiescent(Cut(s))
  {
    hide Reaches, WindowStep, ArrivalStep, FinalizeStep, CutOff;
    assert s.workers[1 := IDLE] == [IDLE, IDLE];
    ThenStep(start, s, Interrupt(1, false), Cut(s));
  }

  const STORED_HISTORY := STORE0.(cuts := 1)

  lemma LostBumpFacts()
    ensures var s0 := StoredRow(1, 1);
      && |s0.workers| == 2 && s0.workers[0] == IDLE && s0.workers[1].suspended == [] && s0.queue == [] && Interruptible(s0.workers[1], false)
    ensures var s := Cut(StoredRow(1, 1));
      s.finalizeSent == 0 && s.history == STORED_HISTORY.(lost := multiset{Matched})
  {
  }

  /** An exception between the store and the bump: at rest, the row never counted. */
  lemma LostBump() returns (s: State)
    ensures Reaches(Start(1, 1), s) && Quiescent(s) && s.finalizeSent == 0
    ensures s.history == STORED_HISTORY.(lost := multiset{Matched})
  {
    hide *;
    ToStoredRow(1, 1);
    WorkReaches(Start(1, 1), StoredRow(1, 1));
    LostBumpFacts();
    s := Cut(StoredRow(1, 1));
    CutHere(Start(1, 1), StoredRow(1, 1));
  }

  lemma MissedClaimFacts()
    ensures var s0 := CountedRow(1, 1);
      && |s0.workers| == 2 && s0.workers[0] == IDLE && s0.workers[1].suspended == [] && s0.queue == [] && Interruptible(s0.workers[1], false)
    ensures var s := Cut(CountedRow(1, 1));
      s.finalizeSent == 0 && s.job == Job(1, 1, 1, 1, 0, 0, false, false, false) && s.history == STORED_HISTORY.(missedClaim := true)
  {
  }

  /** An exception before the claim of the complete job: at rest, unclaimed. */
  lemma MissedClaim() returns (s: State)
    ensures Reaches(Start(1, 1), s) && Quiescent(s) && s.finalizeSent == 0 && s.job == Job(1, 1, 1, 1, 0, 0, false, false, false)
    ensures s.history == STORED_HISTORY.(missedClaim := true)
  {
    hide *;
    ToCountedRow(1, 1);
    WorkReaches(Start(1, 1), CountedRow(1, 1));
    MissedClaimFacts();
    s := Cut(CountedRow(1, 1));
    CutHere(Start(1, 1), CountedRow(1, 1));
  }

  function ClaimedJob(chunk: int): State {
    Point(1, chunk, 1, 1, true, ROW0, [], [IDLE, Worker(Sending, [])], STORE0)
  }

  lemma ToClaimedJob(chunk: int)
    ensures WorksTo(Start(1, chunk), ClaimedJob(chunk))
  {
    hide WorksTo, WindowStep, ArrivalStep, FinalizeStep;
    ToCountedRow(1, chunk);
    WorkStep(Start(1, chunk), CountedRow(1, chunk), Claim(1), ClaimedJob(chunk));
  }

  lemma CutSendFacts()
    ensures var s0 := ClaimedJob(1);
      && |s0.workers| == 2 && s0.workers[0] == IDLE && s0.workers[1].suspended == [] && s0.queue == [] && Interruptible(s0.workers[1], false)
    ensures var s := Cut(ClaimedJob(1));
      s.finalizeSent == 0 && s.job.claimed && s.history == STORED_HISTORY.(cutSends := 1)
  {
  }

  /** An exception between the committed claim and the enqueue: at rest, claimed, and
      nobody will ever enqueue finalize. */
  lemma CutSend() returns (s: State)
    ensures Reaches(Start(1, 1), s) && Quiescent(s) && s.finalizeSent == 0 && s.job.claimed
    ensures s.history == STORED_HISTORY.(cutSends := 1)
  {
    hide *;
    ToClaimedJob(1);
    WorkReaches(Start(1, 1), ClaimedJob(1));
    CutSendFacts();
    s := Cut(ClaimedJob(1));
    CutHere(Start(1, 1), ClaimedJob(1));
  }

  /** An exception in the publishing loop: at rest, a claimed row that nobody has. */
  lemma DroppedRow() returns (s: State)
    ensures Reaches(Start(1, 1), s) && Quiescent(s) && s.finalizeSent == 0 && s.job.halted
    ensures s.history == NO_HISTORY.(claims := [Window(0, 1)], cuts := 1, dropped := {0})
  {
    hide *;
    ToClaimedRow(1, 1);
    WorkReaches(Start(1, 1), ClaimedRow(1, 1));
    DroppedFacts();
    s := Halted(ClaimedRow(1, 1));
    ThenStep(Start(1, 1), ClaimedRow(1, 1), Interrupt(0, false), s);
  }

  function Halted(s: State): State {
    s.(workers := [IDLE], job := s.job.(halted := true), history := s.history.(cuts := 1, dropped := {0}))
  }

  lemma DroppedFacts()
    ensures var s0 := ClaimedRow(1, 1);
      && Enabled(s0, Interrupt(0, false)) && Step(s0, Interrupt(0, false)) == Halted(s0)
      && Quiescent(Halted(s0)) && Halted(s0).finalizeSent == 0 && Halted(s0).job.halted
      && Halted(s0).history == NO_HISTORY.(claims := [Window(0, 1)], cuts := 1, dropped := {0})
  {
    hide WindowStep, ArrivalStep, FinalizeStep;
    assert RowsFrom(0, 1) == {0};
  }

  lemma CutRefillFacts()
    ensures var s0 := CountedRow(2, 1);
      && |s0.workers| == 2 && s0.workers[0] == IDLE && s0.workers[1].suspended == [] && s0.queue == [] && Interruptible(s0.workers[1], false)
    ensures var s := Cut(CountedRow(2, 1));
      s.finalizeSent == 0 && s.job.dispatched < s.job.total && s.history == STORED_HISTORY
  {
  }

  /** An exception before a refill: at rest, a row that was never dispatched, although
      nothing else was cut off. */
  lemma CutRefill() returns (s: State)
    ensures Reaches(Start(2, 1), s) && Quiescent(s) && s.finalizeSent == 0 && s.job.dispatched < s.job.total
    ensures s.history == STORED_HISTORY
  {
    hide *;
    ToCountedRow(2, 1);
    WorkReaches(Start(2, 1), CountedRow(2, 1));
    CutRefillFacts();
    s := Cut(CountedRow(2, 1));
    CutHere(Start(2, 1), CountedRow(2, 1));
  }

  /** Without any exception, a refill chunk of zero and a window smaller than the job:
      at rest, half done. */
  lemma NoRefill() returns (s: State)
    ensures WorksTo(Start(2, 0), s) && Quiescent(s) && s.finalizeSent == 0 && s.history.cuts == 0
  {
    hide WorksTo;
    ToCountedRow(2, 0);
    s := Step(CountedRow(2, 0), Claim(1));
    WorkStep(Start(2, 0), CountedRow(2, 0), Claim(1), s);
    assert s.workers == [IDLE, IDLE];
  }

  // ----- Two overlapping finalize executions ----------------------------------

  function EnqueuedJob(): State {
    ClaimedJob(1).(workers := [IDLE, IDLE], finalizeSent := 1)
  }

  lemma ToEnqueuedJob()
    ensures Reaches(Start(1, 1), EnqueuedJob())
  {
    hide Reaches, WindowStep, ArrivalStep, FinalizeStep;
    ToClaimedJob(1);
    WorkReaches(Start(1, 1), ClaimedJob(1));
    ThenStep(Start(1, 1), ClaimedJob(1), Send(1), EnqueuedJob());
  }

  /** The job with the executions fs, after the file, the commit and the deletions. */
  function Finalizing1(fs: seq<Finalizer>, storage: Storage, committed: bool): State {
    EnqueuedJob().(finalizers := fs, storage := storage, job := Job(1, 1, 1, 1, 0, 0, true, committed, false),
                   history := EnqueuedJob().history.(committed := committed))
  }

  ghost predicate Spoiled(s: State) {
    s.job.completed && s.storage.output == [[MISSING]] && Expected(s) == [ANSWER]
  }

  lemma FinStep(s1: State, l: Label, s2: State)
    requires Reaches(Start(1, 1), s1) && Enabled(s1, l) && Finalizing(l) && FinalizeStep(s1, l) == s2
    ensures Reaches(Start(1, 1), s2)
  {
    hide RowStep, WindowStep, ArrivalStep, Reaches;
    assert Step(s1, l) == s2;
    ThenStep(Start(1, 1), s1, l, s2);
  }

  const STORED := Storage(map[0 := ANSWER], [], false, false)
  const WRITTEN := Storage(map[0 := ANSWER], [[ANSWER]], false, false)
  const CLEANED := Storage(map[], [[ANSWER]], true, true)

  /** The first execution reads, while the second already holds the upload ... */
  lemma OverlapStarts()
    ensures Reaches(Start(1, 1), Finalizing1([Assembled([ANSWER]), HasUpload], STORED, false))
  {
    hide Reaches;
    ToEnqueuedJob();
    FinStep(Finalizing1([], STORED, false), StartFinalize, Finalizing1([Checked], STORED, false));
    FinStep(Finalizing1([Checked], STORED, false), StartFinalize, Finalizing1([Checked, Checked], STORED, false));
    FinStep(Finalizing1([Checked, Checked], STORED, false), GetUpload(1), Finalizing1([Checked, HasUpload], STORED, false));
    FinStep(Finalizing1([Checked, HasUpload], STORED, false), GetUpload(0), Finalizing1([HasUpload, HasUpload], STORED, false));
    assert Assemble(STORED.results, 1) == [ANSWER];
    FinStep(Finalizing1([HasUpload, HasUpload], STORED, false), ReadResults(0), Finalizing1([Assembled([ANSWER]), HasUpload], STORED, false));
  }

  /** ... it writes, commits and deletes ... */
  lemma OverlapCleans()
    ensures Reaches(Start(1, 1), Finalizing1([ResultsGone, HasUpload], CLEANED, true))
  {
    hide Reaches;
    OverlapStarts();
    FinStep(Finalizing1([Assembled([ANSWER]), HasUpload], STORED, false), PutOutput(0), Finalizing1([Written, HasUpload], WRITTEN, false));
    FinStep(Finalizing1([Written, HasUpload], WRITTEN, false), Commit(0), Finalizing1([Committed, HasUpload], WRITTEN, true));
    var deleted := WRITTEN.(uploadDeleted := true);
    FinStep(Finalizing1([Committed, HasUpload], WRITTEN, true), DeleteUpload(0), Finalizing1([UploadGone, HasUpload], deleted, true));
    FinStep(Finalizing1([UploadGone, HasUpload], deleted, true), DeleteResults(0), Finalizing1([ResultsGone, HasUpload], CLEANED, true));
  }

  /** ... and the second reads an empty hash and overwrites the good file: idempotence
      fails without serial delivery, on a completed job whose row had been answered. */
  lemma OverlapSpoilsOutput()
    ensures exists s :: Reaches(Initial(1, 1, 1), s) && Spoiled(s)
  {
    hide Reaches;
    OverlapCleans();
    assert Assemble(map[], 1) == [MISSING];
    var s1 := Finalizing1([ResultsGone, Assembled([MISSING])], CLEANED, true);
    FinStep(Finalizing1([ResultsGone, HasUpload], CLEANED, true), ReadResults(1), s1);
    var s := Finalizing1([ResultsGone, Written], CLEANED.(output := [[MISSING]]), true);
    FinStep(s1, PutOutput(1), s);
    assert Expected(s) == [ANSWER];
  }
}
