/** A cap on the concurrent calls of one job, kept as self-expiring holder keys in a
    shared store.  Steps of any number of workers interleave with the passing of time. */
module JobSemaphore {
  import opened Common

  const TTL: nat := 120
  const PREFIX := "deleted-showtimes:sem:"

  function HolderPrefix(job: string): string { PREFIX + job + ":" }

  /** The pattern of a job matches the keys that start with its prefix. */
  predicate Matches(key: string, job: string) { HolderPrefix(job) <= key }

  /** `holders` maps a key to the second it expires; `running` maps the key under
      which a call was admitted to its job and the second it began. */
  datatype Call = Call(job: string, since: int)

  datatype State = State(now: int, holders: map<string, int>, running: map<string, Call>)

  function Start(now: int): State { State(now, map[], map[]) }

  function Live(s: State): set<string> { set k | k in s.holders && s.holders[k] > s.now }

  function LiveOf(s: State, job: string): set<string> { set k | k in Live(s) && Matches(k, job) }

  function RunningOf(s: State, job: string): set<string> { set k | k in s.running && s.running[k].job == job }

  // ----- Steps ---------------------------------------------------------------

  datatype Label =
    | Acquire(job: string, uuid: string)
    | Finish(key: string)
    | Release(key: string)
    | Tick(seconds: nat)

  /** The script: refuse at the cap, else SET key EX ttl NX; one atomic step. */
  function AcquireStep(s: State, job: string, uuid: string, cap: int): State {
    var key := HolderPrefix(job) + uuid;
    if |LiveOf(s, job)| >= cap then s
    else s.(holders := if key in Live(s) then s.holders else s.holders[key := s.now + TTL],
            running := s.running[key := Call(job, s.now)])
  }

  predicate Admitted(s: State, job: string, cap: int) { |LiveOf(s, job)| < cap }

  function Next(s: State, l: Label, cap: string -> int): State {
    match l
    case Acquire(job, uuid) => AcquireStep(s, job, uuid, cap(job))
    case Finish(key) => s.(running := s.running - {key})
    case Release(key) => s.(holders := s.holders - {key})
    case Tick(n) => s.(now := s.now + n)
  }

  /** A new holder id is fresh, and a call's key is released only after the call; a
      dead worker never releases. */
  ghost predicate Enabled(s: State, l: Label) {
    match l
    case Acquire(job, uuid) => HolderPrefix(job) + uuid !in s.holders && HolderPrefix(job) + uuid !in s.running
    case Finish(key) => true
    case Release(key) => key !in s.running
    case Tick(_) => true
  }

  /** Time does not pass a running call's time to live: the call ends before. */
  ghost predicate Timely(s: State, l: Label) {
    l.Tick? ==> forall k :: k in s.running ==> s.now + l.seconds < s.running[k].since + TTL
  }

  ghost predicate TimelyRun(s: State, run: seq<Label>, cap: string -> int)
    decreases |run|
  {
    run == [] || (Timely(s, run[0]) && TimelyRun(Next(s, run[0], cap), run[1..], cap))
  }

  ghost predicate ValidRun(s: State, run: seq<Label>, cap: string -> int)
    decreases |run|
  {
    run == [] || (Enabled(s, run[0]) && ValidRun(Next(s, run[0], cap), run[1..], cap))
  }

  function After(s: State, run: seq<Label>, cap: string -> int): State
    decreases |run|
  {
    if run == [] then s else After(Next(s, run[0], cap), run[1..], cap)
  }

  // ----- Jobs do not see each other ------------------------------------------

  predicate PlainId(job: string) { ':' !in job }

  /** Ids without a colon own disjoint sets of keys. */
  lemma PrefixesApart(job: string, other: string, uuid: string)
    requires PlainId(job) && PlainId(other) && Matches(HolderPrefix(other) + uuid, job)
    ensures job == other
  {
    var key, n := HolderPrefix(other) + uuid, |PREFIX|;
    var rest := key[|HolderPrefix(job)|..];
    assert key == HolderPrefix(job) + rest;
    assert key[n..] == job + [':'] + rest;
    assert key[n..] == other + [':'] + uuid;
    FirstBreak(job, other, rest, uuid, ':');
  }

  /** An id that extends another past a colon does not: its holders count as both. */
  lemma NestedIdsCollide(job: string, rest: string, uuid: string)
    ensures Matches(HolderPrefix(job + ":" + rest) + uuid, job)
  {
    assert HolderPrefix(job + ":" + rest) + uuid == HolderPrefix(job) + (rest + ":" + uuid);
  }

  // ----- The cap -------------------------------------------------------------

  /** Every running call is covered by a live key of its own job. */
  ghost predicate Covered(s: State) {
    forall k :: k in s.running ==>
      k in s.holders && s.holders[k] == s.running[k].since + TTL && s.now < s.running[k].since + TTL && Matches(k, s.running[k].job)
  }

  ghost predicate Expiring(s: State) {
    forall k :: k in s.holders ==> s.holders[k] <= s.now + TTL
  }

  ghost predicate Capped(s: State, cap: string -> int) {
    forall job :: PlainId(job) ==> |LiveOf(s, job)| <= Cap(cap, job)
  }

  ghost predicate Inv(s: State, cap: string -> int) { Expiring(s) && Capped(s, cap) }

  function Cap(cap: string -> int, job: string): nat { if cap(job) < 0 then 0 else cap(job) }

  lemma FewerLive(s: State, s': State, job: string)
    requires Live(s') <= Live(s)
    ensures |LiveOf(s', job)| <= |LiveOf(s, job)|
  {
    SubsetSize(LiveOf(s', job), LiveOf(s, job));
  }

  lemma AcquireLive(s: State, job: string, uuid: string, cap: int)
    requires Admitted(s, job, cap) && HolderPrefix(job) + uuid !in s.holders
    ensures var s' := AcquireStep(s, job, uuid, cap);
      && Live(s') == Live(s) + {HolderPrefix(job) + uuid}
      && LiveOf(s', job) == LiveOf(s, job) + {HolderPrefix(job) + uuid}
      && forall other :: PlainId(other) && PlainId(job) && other != job ==> LiveOf(s', other) == LiveOf(s, other)
  {
    hide HolderPrefix;
    var key, s' := HolderPrefix(job) + uuid, AcquireStep(s, job, uuid, cap);
    assert Live(s') == Live(s) + {key};
    assert Matches(key, job);
    forall other | PlainId(other) && PlainId(job) && other != job ensures LiveOf(s', other) == LiveOf(s, other) {
      if Matches(key, other) { PrefixesApart(other, job, uuid); }
    }
  }

  lemma AcquireInv(s: State, job: string, uuid: string, cap: string -> int)
    requires Inv(s, cap) && Enabled(s, Acquire(job, uuid)) && PlainId(job)
    ensures Inv(Next(s, Acquire(job, uuid), cap), cap)
  {
    hide HolderPrefix, LiveOf, Live;
    if Admitted(s, job, cap(job)) {
      AcquireLive(s, job, uuid, cap(job));
      var s' := Next(s, Acquire(job, uuid), cap);
      assert Capped(s', cap) by {
        hide AcquireStep;
        forall other | PlainId(other) ensures |LiveOf(s', other)| <= Cap(cap, other) { }
      }
    }
  }

  lemma OtherInv(s: State, l: Label, cap: string -> int)
    requires Inv(s, cap) && Enabled(s, l) && !l.Acquire?
    ensures Inv(Next(s, l, cap), cap)
  {
    var s' := Next(s, l, cap);
    assert Live(s') <= Live(s);
    forall job | PlainId(job) ensures |LiveOf(s', job)| <= Cap(cap, job) {
      FewerLive(s, s', job);
    }
  }

  lemma StepCovered(s: State, l: Label, cap: string -> int)
    requires Covered(s) && Expiring(s) && Enabled(s, l) && Timely(s, l)
    ensures Covered(Next(s, l, cap))
  {
    hide HolderPrefix, LiveOf;
  }

  ghost predicate PlainJobs(run: seq<Label>) {
    forall i :: 0 <= i < |run| && run[i].Acquire? ==> PlainId(run[i].job)
  }

  /** In every interleaving of acquires, releases, deaths and time, however long the
      calls take. */
  lemma {:induction false} RunInv(s: State, run: seq<Label>, cap: string -> int)
    requires Inv(s, cap) && ValidRun(s, run, cap) && PlainJobs(run)
    ensures Inv(After(s, run, cap), cap)
    decreases |run|
  {
    hide Inv, Enabled;
    if run != [] {
      StepInv(s, run[0], cap);
      RunInv(Next(s, run[0], cap), run[1..], cap);
    }
  }

  lemma StepInv(s: State, l: Label, cap: string -> int)
    requires Inv(s, cap) && Enabled(s, l) && (l.Acquire? ==> PlainId(l.job))
    ensures Inv(Next(s, l, cap), cap)
  {
    hide Inv, Enabled;
    if l.Acquire? { AcquireInv(s, l.job, l.uuid, cap); } else { OtherInv(s, l, cap); }
  }

  lemma {:induction false} RunCovered(s: State, run: seq<Label>, cap: string -> int)
    requires Inv(s, cap) && Covered(s) && ValidRun(s, run, cap) && TimelyRun(s, run, cap) && PlainJobs(run)
    ensures Covered(After(s, run, cap))
    decreases |run|
  {
    hide Covered, Capped, Expiring, Enabled, Timely;
    if run != [] {
      StepInv(s, run[0], cap);
      StepCovered(s, run[0], cap);
      RunCovered(Next(s, run[0], cap), run[1..], cap);
    }
  }

  lemma StartInv(now: int, cap: string -> int)
    ensures Inv(Start(now), cap) && Covered(Start(now))
  {
    forall job ensures LiveOf(Start(now), job) == {} { }
  }

  /** The live keys of a job never exceed its cap; and if every call ends within the
      time to live, neither do its running calls. */
  lemma NeverOverCap(now: int, run: seq<Label>, cap: string -> int, job: string)
    requires ValidRun(Start(now), run, cap) && PlainJobs(run) && PlainId(job)
    ensures |LiveOf(After(Start(now), run, cap), job)| <= cap(job) || LiveOf(After(Start(now), run, cap), job) == {}
    ensures TimelyRun(Start(now), run, cap) ==>
              |RunningOf(After(Start(now), run, cap), job)| <= cap(job) || RunningOf(After(Start(now), run, cap), job) == {}
  {
    StartInv(now, cap);
    RunInv(Start(now), run, cap);
    var s := After(Start(now), run, cap);
    if TimelyRun(Start(now), run, cap) {
      RunCovered(Start(now), run, cap);
      assert RunningOf(s, job) <= LiveOf(s, job);
      SubsetSize(RunningOf(s, job), LiveOf(s, job));
    }
  }

  lemma ThreeSteps(s: State, a: Label, b: Label, c: Label, cap: string -> int)
    requires Enabled(s, a) && Enabled(Next(s, a, cap), b) && Enabled(Next(Next(s, a, cap), b, cap), c)
    ensures ValidRun(s, [a, b, c], cap) && After(s, [a, b, c], cap) == Next(Next(Next(s, a, cap), b, cap), c, cap)
  {
    hide Next, Enabled;
    var s1 := Next(s, a, cap);
    var s2 := Next(s1, b, cap);
    var s3 := Next(s2, c, cap);
    assert [a, b, c][1..] == [b, c] && [b, c][1..] == [c] && [c][1..] == [];
    assert ValidRun(s3, [], cap) && After(s3, [], cap) == s3;
    assert ValidRun(s2, [c], cap) && After(s2, [c], cap) == s3;
    assert ValidRun(s1, [b, c], cap) && After(s1, [b, c], cap) == s3;
  }

  lemma KeysApart(job: string, a: string, b: string)
    requires a != b
    ensures HolderPrefix(job) + a != HolderPrefix(job) + b
  {
    hide HolderPrefix;
    assert (HolderPrefix(job) + a)[|HolderPrefix(job)|..] == a && (HolderPrefix(job) + b)[|HolderPrefix(job)|..] == b;
  }

  /** Without that, a call that outlives its key leaves room for another: two calls
      run under a cap of one. */
  lemma SlowCallOverlaps(job: string, a: string, b: string, cap: string -> int)
    requires a != b && PlainId(job) && cap(job) == 1
    ensures var run := [Acquire(job, a), Tick(TTL), Acquire(job, b)];
      ValidRun(Start(0), run, cap) && |RunningOf(After(Start(0), run, cap), job)| == 2
  {
    hide HolderPrefix, Matches, ValidRun, After;
    var ka, kb := HolderPrefix(job) + a, HolderPrefix(job) + b;
    KeysApart(job, a, b);
    var s0 := Start(0);
    assert LiveOf(s0, job) == {};
    var s1 := Next(s0, Acquire(job, a), cap);
    assert s1 == State(0, map[ka := TTL], map[ka := Call(job, 0)]);
    var s2 := Next(s1, Tick(TTL), cap);
    assert LiveOf(s2, job) == {};
    var s3 := Next(s2, Acquire(job, b), cap);
    assert s3.running == map[ka := Call(job, 0), kb := Call(job, TTL)];
    assert RunningOf(s3, job) == {ka, kb};
    ThreeSteps(s0, Acquire(job, a), Tick(TTL), Acquire(job, b), cap);
  }

  /** A key nobody releases is gone one time to live after it was set: once time has
      moved that far, only keys acquired since are live. */
  lemma {:induction false} DeadHoldersFree(s: State, run: seq<Label>, cap: string -> int, key: string)
    requires Inv(s, cap) && ValidRun(s, run, cap) && PlainJobs(run)
    requires After(s, run, cap).now >= s.now + 120 && key in Live(After(s, run, cap))
    ensures exists i :: 0 <= i < |run| && run[i].Acquire? && HolderPrefix(run[i].job) + run[i].uuid == key
  {
    KeysFrom(s, run, cap, key);
  }

  lemma {:induction false} KeysFrom(s: State, run: seq<Label>, cap: string -> int, key: string)
    requires key in After(s, run, cap).holders
    ensures (key in s.holders && After(s, run, cap).holders[key] == s.holders[key])
         || exists i :: 0 <= i < |run| && run[i].Acquire? && HolderPrefix(run[i].job) + run[i].uuid == key
    decreases |run|
  {
    if run != [] {
      var s' := Next(s, run[0], cap);
      KeysFrom(s', run[1..], cap, key);
      if i :| 0 <= i < |run[1..]| && run[1..][i].Acquire? && HolderPrefix(run[1..][i].job) + run[1..][i].uuid == key {
        assert run[i + 1] == run[1..][i];
      } else {
        assert key in s'.holders;
        if run[0].Acquire? && HolderPrefix(run[0].job) + run[0].uuid == key { assert run[0].Acquire?; }
      }
    }
  }

  // ----- Waiting for a slot --------------------------------------------------

  const MIN_PAUSE: nat := 250
  const MAX_PAUSE: nat := 500

  function Elapsed(pauses: nat -> nat, n: nat): nat {
    if n == 0 then 0 else Elapsed(pauses, n - 1) + pauses(n - 1)
  }

  lemma NextElapsed(pauses: nat -> nat, n: nat)
    ensures Elapsed(pauses, n) == if n == 0 then 0 else Elapsed(pauses, n - 1) + pauses(n - 1)
  {
  }

  /** The retry loop, in milliseconds: `live(i)` is what attempt i counts.  It takes
      the first slot it sees, and gives up only at the first refusal at or past the
      deadline, after boundedly many attempts. */
  method AcquireSlot(live: nat -> nat, cap: int, timeout: int, pauses: nat -> nat) returns (acquired: bool, attempts: nat)
    requires forall i :: 250 <= pauses(i) <= 500
    ensures attempts > 0 && (forall i :: 0 <= i < attempts - 1 ==> live(i) >= cap && Elapsed(pauses, i) < timeout)
    ensures acquired <==> live(attempts - 1) < cap
    ensures !acquired ==> Elapsed(pauses, attempts - 1) >= timeout
    ensures 250 * (attempts - 1) <= if timeout <= 0 then 0 else timeout + 500
  {
    hide Elapsed;
    attempts := 0;
    var clock := 0;
    NextElapsed(pauses, 0);
    while true
      invariant clock == Elapsed(pauses, attempts) && clock >= MIN_PAUSE * attempts
      invariant attempts > 0 ==> clock < timeout + MAX_PAUSE && 0 < timeout
      invariant forall i :: 0 <= i < attempts ==> live(i) >= cap && Elapsed(pauses, i) < timeout
      decreases timeout + MAX_PAUSE - clock
    {
      attempts := attempts + 1;
      if live(attempts - 1) < cap { return true, attempts; }
      if clock >= timeout { return false, attempts; }
      NextElapsed(pauses, attempts);
      clock := clock + pauses(attempts - 1);
    }
  }
}
