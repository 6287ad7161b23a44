/** The finalize task: crashes between any two of its steps, redelivery, late
    duplicates of row tasks, and exactly when its output is the right one. */
module BatchFinalize {
  import opened BatchProtocol
  import opened BatchSafety

  /** The output one uninterrupted finalize writes: first result of every row. */
  ghost function Expected(s: State): seq<RowResult> {
    Assemble(s.history.first, s.job.total)
  }

  /** Whatever a finalize execution holds or has written is the expected output. */
  ghost predicate Faithful(s: State) {
    && (s.storage.output != [] ==> s.finalizeSent > 0 && s.storage.output == [Expected(s)])
    && (forall k :: 0 <= k < |s.finalizers| && s.finalizers[k].Assembled? ==> s.finalizers[k].rows == Expected(s))
  }

  /** No finalize execution reads the results hash after its deletion. */
  ghost predicate FreshRun(s: State, ls: seq<Label>)
    decreases |ls|
  {
    ls != [] ==>
      && Enabled(s, ls[0])
      && (ls[0].ReadResults? ==> !s.storage.cleaned)
      && FreshRun(Step(s, ls[0]), ls[1..])
  }

  lemma {:induction false} FreshIsValid(s: State, ls: seq<Label>)
    requires FreshRun(s, ls)
    ensures ValidRun(s, ls)
    decreases |ls|
  {
    if ls != [] { FreshIsValid(Step(s, ls[0]), ls[1..]); }
  }

  /** Once finalize has been enqueued, no row can get a new first result. */
  lemma SentMeansIn(s: State)
    requires Inv(s) && s.finalizeSent > 0
    ensures AllRowsIn(s)
  {
  }

  lemma FirstStep(s: State, l: Label)
    requires Enabled(s, l) && (l.Store? ==> s.workers[l.k].pc.row in s.history.first)
    ensures Step(s, l).history.first == s.history.first
  {
    hide Refill, Resume, Claimable;
    if WindowLabel(l) {
      WindowWrites(s, l);
      hide WindowStep;
    }
  }

  lemma TotalStep(s: State, l: Label)
    requires Enabled(s, l)
    ensures Step(s, l).job.total == s.job.total
  {
    if RowLabel(l) { RowMoves(s, l); } else if WindowLabel(l) { WindowWrites(s, l); }
    hide RowStep, WindowStep;
  }

  lemma FirstSettled(s: State, l: Label)
    requires Inv(s) && s.finalizeSent > 0 && Enabled(s, l)
    ensures Step(s, l).history.first == s.history.first && Step(s, l).job.total == s.job.total
  {
    SentMeansIn(s);
    ActorFacts(s, l);
    hide Inv, Step;
    FirstStep(s, l);
    TotalStep(s, l);
  }

  lemma NoFinalizerYet(s: State)
    requires Inv(s) && s.finalizeSent == 0
    ensures s.finalizers == []
  {
  }

  lemma WorkLeavesFinalizers(s: State, l: Label)
    requires Enabled(s, l) && !Finalizing(l)
    ensures var s' := Step(s, l);
      && s'.finalizers == s.finalizers && s'.storage.output == s.storage.output
      && s'.history.committed == s.history.committed && s'.storage.cleaned == s.storage.cleaned
      && s'.storage.uploadDeleted == s.storage.uploadDeleted
      && s'.finalizeSent >= s.finalizeSent
  {
  }

  lemma FinalizeFaithful(s: State, l: Label)
    requires Faithful(s) && Enabled(s, l) && Finalizing(l) && s.finalizeSent > 0
    requires !s.storage.cleaned ==> s.storage.results == s.history.first
    requires l.ReadResults? ==> !s.storage.cleaned
    ensures Faithful(FinalizeStep(s, l))
  {
    assert Expected(FinalizeStep(s, l)) == Expected(s);
  }

  lemma FaithfulKept(s: State, s': State)
    requires Faithful(s) && s'.finalizers == s.finalizers && s'.storage.output == s.storage.output
    requires s'.finalizeSent >= s.finalizeSent
    requires if s.finalizeSent == 0 then s.finalizers == []
             else s'.history.first == s.history.first && s'.job.total == s.job.total
    ensures Faithful(s')
  {
    if s.finalizeSent > 0 { assert Expected(s') == Expected(s); }
  }

  lemma FinalizingFacts(s: State, l: Label)
    requires Inv(s) && Enabled(s, l) && Finalizing(l)
    ensures s.finalizeSent > 0 && (!s.storage.cleaned ==> s.storage.results == s.history.first)
  {
  }

  lemma FaithfulStep(s: State, l: Label)
    requires Inv(s) && Faithful(s) && Enabled(s, l) && (l.ReadResults? ==> !s.storage.cleaned)
    ensures Faithful(Step(s, l))
  {
    hide Inv, Faithful, RowStep, WindowStep, ArrivalStep, FinalizeStep;
    if Finalizing(l) {
      FinalizingFacts(s, l);
      FinalizeFaithful(s, l);
    } else {
      WorkLeavesFinalizers(s, l);
      if s.finalizeSent == 0 { NoFinalizerYet(s); } else { FirstSettled(s, l); }
      FaithfulKept(s, Step(s, l));
    }
  }

  lemma {:induction false} FaithfulRun(s: State, ls: seq<Label>)
    requires Inv(s) && Faithful(s) && FreshRun(s, ls)
    ensures ValidRun(s, ls) && Inv(After(s, ls)) && Faithful(After(s, ls))
    decreases |ls|
  {
    FreshIsValid(s, ls);
    if ls != [] {
      hide Inv, Faithful, Step;
      StepInv(s, ls[0]);
      FaithfulStep(s, ls[0]);
      FaithfulRun(Step(s, ls[0]), ls[1..]);
    }
  }

  /** Crashes, retries, redelivered rows and overlapping finalize executions
      included: as long as nobody reads a deleted hash, the file is the right one. */
  lemma FreshOutput(total: nat, window: int, chunk: int, ls: seq<Label>)
    requires FreshRun(Initial(total, window, chunk), ls)
    ensures ValidRun(Initial(total, window, chunk), ls)
    ensures var s := Reached(total, window, chunk, ls);
      && s.job.total == total
      && (s.storage.output == [] || s.storage.output == [Expected(s)])
      && (s.history.committed ==>
            && s.storage.output == [Expected(s)]
            && s.history.first.Keys == Below(total)
            && forall i :: 0 <= i < total ==> Expected(s)[i] == s.history.first[i])
      && (s.job.completed || s.storage.uploadDeleted || s.storage.cleaned ==> s.history.committed)
  {
    FreshIsValid(Initial(total, window, chunk), ls);
    InitialInv(total, window, chunk);
    FaithfulRun(Initial(total, window, chunk), ls);
    ReachedInv(total, window, chunk, ls);
    var s := Reached(total, window, chunk, ls);
    if s.history.committed { SentMeansIn(s); }
  }

  // ----- One finalize execution at a time ----------------------------------

  ghost predicate AllEnded(fs: seq<Finalizer>) {
    forall k :: 0 <= k < |fs| ==> fs[k].Ended?
  }

  /** A run in which finalize is (re)delivered only when no execution is under way. */
  ghost predicate SerialRun(s: State, ls: seq<Label>)
    decreases |ls|
  {
    ls != [] ==>
      && Enabled(s, ls[0])
      && (ls[0].StartFinalize? ==> AllEnded(s.finalizers))
      && SerialRun(Step(s, ls[0]), ls[1..])
  }

  predicate HoldsUpload(f: Finalizer) { f.HasUpload? || f.Assembled? || f.Written? }

  /** At most one execution is active, and it works from the upload only while the
      upload is there. */
  ghost predicate Alone(s: State) {
    && (forall i, j :: 0 <= i < j < |s.finalizers| ==> s.finalizers[i].Ended? || s.finalizers[j].Ended?)
    && (forall k :: 0 <= k < |s.finalizers| && HoldsUpload(s.finalizers[k]) ==> !s.storage.uploadDeleted)
  }

  lemma AloneStep(s: State, l: Label)
    requires Alone(s) && Enabled(s, l) && (l.StartFinalize? ==> AllEnded(s.finalizers))
    ensures Alone(Step(s, l))
  {
    hide RowStep, WindowStep, ArrivalStep;
    if !Finalizing(l) { WorkLeavesFinalizers(s, l); }
  }

  /** A serial execution that still has to read the hash finds it intact. */
  lemma AloneReadsFresh(s: State, k: nat)
    requires Inv(s) && Alone(s) && Enabled(s, ReadResults(k))
    ensures !s.storage.cleaned
  {
    assert HoldsUpload(s.finalizers[k]);
  }

  lemma {:induction false} SerialIsFresh(s: State, ls: seq<Label>)
    requires Inv(s) && Alone(s) && SerialRun(s, ls)
    ensures FreshRun(s, ls) && ValidRun(s, ls) && Alone(After(s, ls))
    decreases |ls|
  {
    if ls != [] {
      StepInv(s, ls[0]);
      AloneStep(s, ls[0]);
      if ls[0].ReadResults? { AloneReadsFresh(s, ls[0].k); }
      hide Inv, Alone, Step;
      SerialIsFresh(Step(s, ls[0]), ls[1..]);
    }
  }

  /** Any number of executions, one after the other, with a crash between any two
      of their steps, write what one uninterrupted execution writes. */
  lemma SerialOutput(total: nat, window: int, chunk: int, ls: seq<Label>)
    requires SerialRun(Initial(total, window, chunk), ls)
    ensures ValidRun(Initial(total, window, chunk), ls)
    ensures var s := Reached(total, window, chunk, ls);
      && (s.storage.output == [] || s.storage.output == [Expected(s)])
      && (s.history.committed ==> s.storage.output == [Expected(s)] && s.history.first.Keys == Below(total))
  {
    InitialInv(total, window, chunk);
    SerialIsFresh(Initial(total, window, chunk), ls);
    FreshOutput(total, window, chunk, ls);
  }

  /** Some run leads from s to s'. */
  ghost predicate Reaches(s: State, s': State) {
    exists ls :: ValidRun(s, ls) && After(s, ls) == s'
  }

  lemma ReachesSelf(s: State)
    ensures Reaches(s, s)
  {
    assert ValidRun(s, []) && After(s, []) == s;
  }

  lemma {:induction false} RunSnoc(s: State, ls: seq<Label>, l: Label)
    requires ValidRun(s, ls) && Enabled(After(s, ls), l)
    ensures ValidRun(s, ls + [l]) && After(s, ls + [l]) == Step(After(s, ls), l)
    decreases |ls|
  {
    if ls == [] {
      assert [l][1..] == [];
    } else {
      hide Enabled, Step;
      RunSnoc(Step(s, ls[0]), ls[1..], l);
      assert (ls + [l])[1..] == ls[1..] + [l];
    }
  }

  lemma ReachesStep(s: State, s1: State, l: Label)
    requires Reaches(s, s1) && Enabled(s1, l)
    ensures Reaches(s, Step(s1, l))
  {
    var ls :| ValidRun(s, ls) && After(s, ls) == s1;
    RunSnoc(s, ls, l);
  }

  /** A newly delivered execution gets as far as the assembled table. */
  lemma RetryAssembles(s: State)
    requires s.finalizeSent > 0 && !s.job.completed && !s.storage.uploadDeleted
    ensures Reaches(s, s.(finalizers := s.finalizers + [Assembled(Assemble(s.storage.results, s.job.total))]))
  {
    ReachesSelf(s);
    hide Reaches, RowStep, WindowStep, ArrivalStep;
    var n, rows := |s.finalizers|, Assemble(s.storage.results, s.job.total);
    var s1 := s.(finalizers := s.finalizers + [Checked]);
    assert Reaches(s, s1) by { ReachesStep(s, s, StartFinalize); }
    var s2 := s.(finalizers := s.finalizers + [HasUpload]);
    assert Reaches(s, s2) by {
      assert s1.finalizers[n := HasUpload] == s2.finalizers;
      ReachesStep(s, s1, GetUpload(n));
    }
    var s3 := s.(finalizers := s.finalizers + [Assembled(rows)]);
    assert Reaches(s, s3) by {
      assert s2.finalizers[n := Assembled(rows)] == s3.finalizers;
      ReachesStep(s, s2, ReadResults(n));
    }
  }

  /** ... and from there to a completed job. */
  lemma RetryCommits(s: State, s3: State, rows: seq<RowResult>)
    requires Reaches(s, s3) && s3 == s.(finalizers := s.finalizers + [Assembled(rows)])
    ensures exists s' :: Reaches(s, s') && s'.job.completed && s'.storage.output == [rows] && s'.history.first == s.history.first
  {
    hide Reaches, RowStep, WindowStep, ArrivalStep;
    var n := |s.finalizers|;
    var s4 := s.(finalizers := s.finalizers + [Written], storage := s.storage.(output := [rows]));
    assert Reaches(s, s4) by {
      assert s3.finalizers[n := Written] == s4.finalizers;
      ReachesStep(s, s3, PutOutput(n));
    }
    ReachesStep(s, s4, Commit(n));
    var s5 := Step(s4, Commit(n));
    assert s5.job.completed && s5.storage.output == [rows];
  }

  /** After a crash the inputs are still there: the next execution, left alone,
      completes the job with the expected output. */
  lemma RetryCompletes(s: State)
    requires Inv(s) && s.finalizeSent > 0 && !s.history.committed
    ensures s.history.first.Keys == Below(s.job.total)
    ensures exists s' :: Reaches(s, s') && s'.job.completed && s'.storage.output == [Expected(s)] && s'.history.first == s.history.first
  {
    SentMeansIn(s);
    assert !s.storage.uploadDeleted && s.storage.results == s.history.first;
    RetryAssembles(s);
    RetryCommits(s, s.(finalizers := s.finalizers + [Assembled(Expected(s))]), Expected(s));
  }

  // ----- After completion --------------------------------------------------

  predicate Writes(l: Label) { l.PutOutput? }

  /** In every run: what was committed stays committed, the status stays completed
      unless the dispatcher itself fails later, finalize is not enqueued again, and
      the file changes only when an execution of finalize writes it. */
  lemma {:induction false} CompletedIsFrozen(s: State, ls: seq<Label>)
    requires Inv(s) && s.history.committed && ValidRun(s, ls)
    ensures var s' := After(s, ls);
      && s'.history.committed && (s'.job.completed || s'.job.halted)
      && (s.job.total > 0 ==> s'.finalizeSent == s.finalizeSent == 1 && s'.history.cutSends == 0)
      && ((forall i :: 0 <= i < |ls| ==> !Writes(ls[i])) ==> s'.storage.output == s.storage.output)
    decreases |ls|
  {
    if ls != [] {
      StepInv(s, ls[0]);
      CommittedStep(s, ls[0]);
      hide Inv, Step;
      CompletedIsFrozen(Step(s, ls[0]), ls[1..]);
    }
    CommittedOnce(s);
  }

  lemma CommittedOnce(s: State)
    requires Inv(s) && s.history.committed
    ensures s.job.completed || s.job.halted
    ensures s.job.total > 0 ==> s.finalizeSent == 1 && s.history.cutSends == 0
  {
  }

  lemma CommittedStep(s: State, l: Label)
    requires s.history.committed && Enabled(s, l)
    ensures Step(s, l).history.committed && Step(s, l).job.total == s.job.total
    ensures !Writes(l) ==> Step(s, l).storage.output == s.storage.output
  {
    hide Refill, Resume, CutOff;
    if RowLabel(l) { RowMoves(s, l); RowStorage(s, l); } else if WindowLabel(l) { WindowWrites(s, l); }
  }

  /** And in a serial run the file stays the expected one. */
  lemma CommittedOutput(s: State, ls: seq<Label>)
    requires Inv(s) && Alone(s) && Faithful(s) && s.history.committed && SerialRun(s, ls)
    ensures ValidRun(s, ls)
    ensures After(s, ls).storage.output == s.storage.output == [Expected(s)]
  {
    SerialIsFresh(s, ls);
    FaithfulRun(s, ls);
    CompletedIsFrozen(s, ls);
    CommittedOnce(s);
    ExpectedStays(s, ls);
    assert After(s, ls).storage.output != [];
  }

  /** The statements of finalize execution k after its start. */
  predicate StatementOf(l: Label, k: nat) {
    match l
    case GetUpload(j) => j == k
    case ReadResults(j) => j == k
    case PutOutput(j) => j == k
    case Commit(j) => j == k
    case DeleteUpload(j) => j == k
    case DeleteResults(j) => j == k
    case DeleteArgs(j) => j == k
    case _ => false
  }

  /** An execution that has not ended has exactly one next statement, and may crash
      instead of any of them; one that has ended has none. */
  lemma OneNextStatement(s: State, k: nat)
    requires FinAt(s, k)
    ensures Enabled(s, Crash(k)) <==> s.finalizers[k] != Ended
    ensures Enabled(s, Crash(k)) <==> exists l :: StatementOf(l, k) && Enabled(s, l)
    ensures forall l, l' :: StatementOf(l, k) && StatementOf(l', k) && Enabled(s, l) && Enabled(s, l') ==> l == l'
  {
    if s.finalizers[k] != Ended {
      var l := match s.finalizers[k]
        case Checked => GetUpload(k)
        case HasUpload => ReadResults(k)
        case Assembled(_) => PutOutput(k)
        case Written => Commit(k)
        case Committed => DeleteUpload(k)
        case UploadGone => DeleteResults(k)
        case _ => DeleteArgs(k);
      assert StatementOf(l, k) && Enabled(s, l);
    }
  }

  /** The status is completed before every step of a run. */
  ghost predicate CompletedThroughout(s: State, ls: seq<Label>)
    decreases |ls|
  {
    s.job.completed && (ls != [] ==> Enabled(s, ls[0]) && CompletedThroughout(Step(s, ls[0]), ls[1..]))
  }

  /** A delivery to a completed job does nothing: once no execution is under way, and
      while the status stays completed, none gets under way and no file, upload or
      hash is written or deleted by one. */
  lemma {:induction false} CompletedDeliveryIsNoOp(s: State, ls: seq<Label>)
    requires AllEnded(s.finalizers) && CompletedThroughout(s, ls)
    ensures ValidRun(s, ls)
    ensures var s' := After(s, ls);
      && AllEnded(s'.finalizers) && s'.storage.output == s.storage.output
      && s'.storage.uploadDeleted == s.storage.uploadDeleted && s'.storage.cleaned == s.storage.cleaned
    decreases |ls|
  {
    if ls != [] {
      NoOpStep(s, ls[0]);
      hide Step, AllEnded;
      CompletedDeliveryIsNoOp(Step(s, ls[0]), ls[1..]);
    }
  }

  lemma NoOpStep(s: State, l: Label)
    requires s.job.completed && AllEnded(s.finalizers) && Enabled(s, l)
    ensures var s' := Step(s, l);
      && AllEnded(s'.finalizers) && s'.storage.output == s.storage.output
      && s'.storage.uploadDeleted == s.storage.uploadDeleted && s'.storage.cleaned == s.storage.cleaned
  {
    if RowLabel(l) {
      RowStorage(s, l);
      RowMoves(s, l);
      hide RowStep;
    } else if WindowLabel(l) {
      WindowWrites(s, l);
      hide WindowStep;
    }
  }

  /** On a completed job, one with no rows included, nothing asks for a window and the
      sweep does not claim; only what was already under way goes on. */
  lemma CompletedAsksForNothing(s: State, l: Label)
    requires s.job.completed && Enabled(s, l)
    ensures forall k: nat :: At(Step(s, l), k) && Step(s, l).workers[k].pc.Swapping? ==> At(s, k) && s.workers[k].pc.Swapping?
    ensures Step(s, l).job.claimed && !s.job.claimed ==> l.Claim?
  {
    hide Halts, RowsFrom;
    if RowLabel(l) {
      assert !RowStep(s, l).workers[l.k].pc.Swapping?;
    } else if WindowLabel(l) {
      assert !WindowStep(s, l).workers[l.k].pc.Swapping?;
    } else if ArrivalLabel(l) {
      assert forall k: nat :: |s.workers| <= k < |ArrivalStep(s, l).workers| ==> !ArrivalStep(s, l).workers[k].pc.Swapping?;
    }
  }

  /** Once finalize is enqueued the expected output is settled. */
  lemma {:induction false} ExpectedStays(s: State, ls: seq<Label>)
    requires Inv(s) && s.finalizeSent > 0 && ValidRun(s, ls)
    ensures Inv(After(s, ls)) && After(s, ls).finalizeSent > 0 && Expected(After(s, ls)) == Expected(s)
    decreases |ls|
  {
    if ls != [] {
      StepInv(s, ls[0]);
      FirstSettled(s, ls[0]);
      SentStays(s, ls[0]);
      hide Inv, Step;
      ExpectedStays(Step(s, ls[0]), ls[1..]);
    }
  }

  lemma SentStays(s: State, l: Label)
    requires Enabled(s, l)
    ensures Step(s, l).finalizeSent >= s.finalizeSent
  {
    if RowLabel(l) { SendWrites(s, l); } else if WindowLabel(l) { WindowWrites(s, l); }
    hide RowStep, WindowStep;
  }

  // ----- What an execution reads before and after the deletion --------------

  /** Some row's first result is not the filler. */
  ghost predicate SomeAnswer(s: State) {
    exists i :: i in s.history.first && s.history.first[i] != MISSING
  }

  /** Nothing has been stored since the hash was deleted: no late duplicate. */
  predicate NoLateStore(s: State) { s.storage.cleaned ==> s.storage.results == map[] }

  /** What an execution assembles now is the expected table exactly when the hash has
      not been deleted. */
  lemma ReadRightExactly(s: State, k: nat)
    requires Inv(s) && Enabled(s, ReadResults(k)) && SomeAnswer(s) && NoLateStore(s)
    ensures Step(s, ReadResults(k)).finalizers[k] == Assembled(Expected(s)) <==> !s.storage.cleaned
  {
    SentMeansIn(s);
    if s.storage.cleaned {
      var i :| i in s.history.first && s.history.first[i] != MISSING;
      assert Assemble(map[], s.job.total)[i] == MISSING && Expected(s)[i] != MISSING;
    }
  }

  /** A late duplicate can only put an answer back: after the deletion the table is
      right exactly when every row whose first result was not the filler has been
      stored again, and everything stored again is as it was first. */
  lemma RightAfterDeletion(s: State, k: nat)
    requires Inv(s) && Enabled(s, ReadResults(k)) && s.storage.cleaned
    ensures Step(s, ReadResults(k)).finalizers[k] == Assembled(Expected(s)) <==>
      && (forall i :: i in s.history.first && s.history.first[i] != MISSING ==> i in s.storage.results)
      && (forall i :: i in s.storage.results && i in s.history.first ==> s.storage.results[i] == s.history.first[i])
  {
    SentMeansIn(s);
    var rows := Assemble(s.storage.results, s.job.total);
    assert forall i: nat :: i in s.history.first <==> i < s.job.total;
    if rows == Expected(s) {
      forall i | i in s.history.first
        ensures s.history.first[i] != MISSING ==> i in s.storage.results
        ensures i in s.storage.results ==> s.storage.results[i] == s.history.first[i]
      {
        assert rows[i] == Expected(s)[i];
      }
    }
  }

  function Stage(f: Finalizer): nat {
    match f
    case Checked => 0 case HasUpload => 1 case Assembled(_) => 2 case Written => 3
    case Committed => 4 case UploadGone => 5 case ResultsGone => 6 case Ended => 7
  }

  lemma StageGrows(s: State, l: Label, k: nat)
    requires Enabled(s, l) && FinAt(s, k)
    ensures FinAt(Step(s, l), k)
    ensures Step(s, l).finalizers[k] == s.finalizers[k] || Stage(Step(s, l).finalizers[k]) > Stage(s.finalizers[k])
  {
    if RowLabel(l) { RowMoves(s, l); } else if WindowLabel(l) { WindowWrites(s, l); }
    hide RowStep, WindowStep;
  }

  lemma {:induction false} StagesGrow(s: State, ls: seq<Label>, k: nat)
    requires ValidRun(s, ls) && FinAt(s, k)
    ensures FinAt(After(s, ls), k)
    ensures After(s, ls).finalizers[k] == s.finalizers[k] || Stage(After(s, ls).finalizers[k]) > Stage(s.finalizers[k])
    decreases |ls|
  {
    if ls != [] {
      StageGrows(s, ls[0], k);
      hide Step, Stage;
      StagesGrow(Step(s, ls[0]), ls[1..], k);
    }
  }

  /** Over whole runs, the converse of FreshOutput: execution k reads in s, other
      tasks do anything, it writes, and nobody writes after it.  The file ends up
      right exactly when the hash was still there at the read. */
  lemma LastWriterDecides(s: State, k: nat, mid: seq<Label>, post: seq<Label>)
    requires Inv(s) && Enabled(s, ReadResults(k)) && SomeAnswer(s) && NoLateStore(s)
    requires var s1 := Step(s, ReadResults(k));
      ValidRun(s1, mid) && Enabled(After(s1, mid), PutOutput(k)) && ValidRun(Step(After(s1, mid), PutOutput(k)), post)
    requires forall i :: 0 <= i < |post| ==> !Writes(post[i])
    ensures var s1 := Step(s, ReadResults(k));
            var end := After(Step(After(s1, mid), PutOutput(k)), post);
      end.storage.output == [Expected(end)] <==> !s.storage.cleaned
  {
    ReadRightExactly(s, k);
    ReadSteps(s, k);
    StepInv(s, ReadResults(k));
    var s1 := Step(s, ReadResults(k));
    hide Inv, Step, Expected, NoLateStore, SomeAnswer;
    ExpectedStays(s1, mid);
    StagesGrow(s1, mid, k);
    var s2 := After(s1, mid);
    StepInv(s2, PutOutput(k));
    WriteStep(s2, k);
    var s3 := Step(s2, PutOutput(k));
    ExpectedStays(s3, post);
    OutputStays(s3, post);
  }

  lemma ReadSteps(s: State, k: nat)
    requires Inv(s) && Enabled(s, ReadResults(k))
    ensures var s1 := Step(s, ReadResults(k));
      s1.finalizeSent > 0 && Expected(s1) == Expected(s) && FinAt(s1, k) && s1.finalizers[k].Assembled?
  {
    FinalizingFacts(s, ReadResults(k));
  }

  lemma WriteStep(s: State, k: nat)
    requires Inv(s) && Enabled(s, PutOutput(k))
    ensures var s3 := Step(s, PutOutput(k));
      s3.finalizeSent > 0 && Expected(s3) == Expected(s) && s3.storage.output == [s.finalizers[k].rows]
    ensures Stage(s.finalizers[k]) == 2
  {
    FinalizingFacts(s, PutOutput(k));
  }

  lemma {:induction false} OutputStays(s: State, ls: seq<Label>)
    requires ValidRun(s, ls) && forall i :: 0 <= i < |ls| ==> !Writes(ls[i])
    ensures After(s, ls).storage.output == s.storage.output
    decreases |ls|
  {
    if ls != [] {
      OutputStep(s, ls[0]);
      hide Step;
      OutputStays(Step(s, ls[0]), ls[1..]);
    }
  }

  lemma OutputStep(s: State, l: Label)
    requires Enabled(s, l) && !Writes(l)
    ensures Step(s, l).storage.output == s.storage.output
  {
    if RowLabel(l) { RowStorage(s, l); } else if WindowLabel(l) { WindowWrites(s, l); }
    hide RowStep, WindowStep;
  }
}
