/** What holds in every reachable state of a run of the stress harness, and of every run,
    over all interleavings and all patterns of failure. */
module Theorems {
  import opened Wrappers
  import opened Pipelines
  import Payload
  import SplitMix
  import opened Sums
  import opened Protocol
  import opened LockSafety
  import opened Histories
  import opened PipeSafety
  import opened RoundTrip
  import opened Phases
  import opened Accounts
  import opened Buffers
  import opened Invariant
  import opened Progress
  import opened Termination

  // ----------------------------------------------------------------- the lock

  /** The reader count is exact, a writer excludes every other section, and every thread
      still parked has a blocking predicate that is true: no wake-up is lost. */
  lemma LockIsSafe(cfg: Config, ci: Cipher, t: State)
    requires Reachable(cfg, ci, t)
    ensures t.g.lock.readers == Sum(t.ws, Reads)
    ensures forall i, j | 0 <= i < |t.ws| && 0 <= j < |t.ws| && i != j && InWrite(t.ws[i].pc) ::
              t.g.lock.writer && !InWrite(t.ws[j].pc) && !InRead(t.ws[j].pc)
    ensures t.g.lock.writer <==> exists i :: 0 <= i < |t.ws| && InWrite(t.ws[i].pc)
    ensures forall i | 0 <= i < |t.ws| && t.ws[i].pc == ReadLock(Parked) :: t.g.lock.writer
    ensures forall i | 0 <= i < |t.ws| && t.ws[i].pc.WriteLock? && t.ws[i].pc.wait == Parked ::
              t.g.lock.writer || t.g.lock.readers > 0
  {
    InvReached(cfg, ci, t);
    LockFacts(t);
  }

  lemma LockFacts(t: State)
    requires LockOk(t)
    ensures forall i, j | 0 <= i < |t.ws| && 0 <= j < |t.ws| && i != j && InWrite(t.ws[i].pc) ::
              t.g.lock.writer && !InWrite(t.ws[j].pc) && !InRead(t.ws[j].pc)
    ensures t.g.lock.writer <==> exists i :: 0 <= i < |t.ws| && InWrite(t.ws[i].pc)
    ensures forall i | 0 <= i < |t.ws| && t.ws[i].pc == ReadLock(Parked) :: t.g.lock.writer
    ensures forall i | 0 <= i < |t.ws| && t.ws[i].pc.WriteLock? && t.ws[i].pc.wait == Parked ::
              t.g.lock.writer || t.g.lock.readers > 0
  {
    forall i, j | 0 <= i < |t.ws| && 0 <= j < |t.ws| && i != j && InWrite(t.ws[i].pc)
      ensures t.g.lock.writer && !InWrite(t.ws[j].pc) && !InRead(t.ws[j].pc)
    {
      Exclusive(t, i, j);
    }
    if t.g.lock.writer {
      var i := SumWitness(t.ws, Writes);
    }
    forall i | 0 <= i < |t.ws| && InWrite(t.ws[i].pc)
      ensures t.g.lock.writer
    {
      SumAtLeast(t.ws, Writes, i);
    }
    forall i | 0 <= i < |t.ws|
      ensures ParkedForAReason(t.g.lock, t.ws[i])
    {}
  }

  // -------------------------------------------------------- round-trip isolation

  lemma ReadingNext(cfg: Config, ci: Cipher, states: seq<State>, run: seq<Label>, i: nat, k: nat)
    requires History(cfg, ci, states, run) && k < |run| && i < |states[k].ws| && InRead(states[k].ws[i].pc)
    ensures states[k + 1].g.pipes == states[k].g.pipes
  {
    InvAt(cfg, ci, states, run, k);
    StepAt(cfg, ci, states, run, k);
    NoMutationDuringRead(cfg, ci, states[k], run[k], i);
  }

  /** Between a worker's acquire_read and its release_read, whatever the other threads do, every
      handle, its keying and every retained blob stay what they were. */
  lemma {:induction false} NothingChangesUnderARoundTrip(cfg: Config, ci: Cipher, states: seq<State>, run: seq<Label>,
                                                         i: nat, b: nat, e: nat)
    requires History(cfg, ci, states, run) && Stays(states, i, b, e, InRead)
    ensures states[e].g.pipes == states[b].g.pipes
    decreases e
  {
    if b < e {
      NothingChangesUnderARoundTrip(cfg, ci, states, run, i, b, e - 1);
      ReadingNext(cfg, ci, states, run, i, e - 1);
    }
  }

  /** With a correct cipher the data-mismatch exit is unreachable. */
  lemma NoDataMismatch(cfg: Config, ci: Cipher, t: State)
    requires Correct(ci) && Reachable(cfg, ci, t)
    ensures !t.g.crashed
    ensures forall i | 0 <= i < |t.ws| && t.ws[i].pc == Compare :: t.ws[i].job.got == t.ws[i].job.plaintext
  {
    SafeReached(cfg, ci, t);
    TripFacts(cfg, ci, t);
  }

  lemma TripFacts(cfg: Config, ci: Cipher, t: State)
    requires Correct(ci) && TripsOk(cfg, ci, t)
    ensures forall i | 0 <= i < |t.ws| && t.ws[i].pc == Compare :: t.ws[i].job.got == t.ws[i].job.plaintext
  {
    forall i | 0 <= i < |t.ws| && t.ws[i].pc == Compare
      ensures t.ws[i].job.got == t.ws[i].job.plaintext
    {
      assert TripOk(cfg, ci, t.g.pipes, t.ws[i]);
      CorrectMatches(cfg, ci, t.g.pipes, t.ws[i]);
    }
  }

  /** What is compared, with any cipher: the plaintext sent through the live keying of the
      iteration's surface and back. */
  lemma ComparesTheRoundTrip(cfg: Config, ci: Cipher, t: State, i: nat)
    requires Reachable(cfg, ci, t) && i < |t.ws| && t.ws[i].pc == Compare
    ensures var w := t.ws[i];
            var live := KeyingOf(t.g.pipes, PipeFor(SurfaceOf(cfg, w.it)));
            && live.Some?
            && w.job.got == Through(ci, SurfaceOf(cfg, w.it), live.value, w.job.nonce, w.job.plaintext)
  {
    TracedReached(cfg, ci, t);
    ReadingMeansStill(cfg, t, i);
    SurfaceBuilt(cfg, t.ws[i].it);
    assert TripOk(cfg, ci, t.g.pipes, t.ws[i]);
    LiveIsBlob(cfg, t.g.pipes, PipeFor(SurfaceOf(cfg, t.ws[i].it)));
  }

  lemma LiveIsBlob(cfg: Config, p: Pipes, which: Which)
    requires Whole(cfg, p) && p.stage.Idle? && SlotOf(p, which).Some?
    ensures KeyingOf(p, which) == Some(SlotOf(p, which).value.blob)
  {}

  /** The step of a worker that finds a mismatch. */
  predicate FindsMismatch(s: State, l: Label) {
    l.Work? && l.i < |s.ws| && Mismatch(s.ws[l.i])
  }

  lemma MismatchStops(cfg: Config, ci: Cipher, s: State, l: Label)
    requires Enabled(cfg, s, l) && FindsMismatch(s, l)
    ensures Apply(cfg, ci, s, l) == s.(g := s.g.(crashed := true))
  {
    CrashStep(cfg, ci, s.g, s.ws[l.i], l.c);
    assert s.ws[l.i := s.ws[l.i]] == s.ws;
  }

  lemma OthersGoOn(cfg: Config, ci: Cipher, s: State, l: Label)
    requires Enabled(cfg, s, l) && !FindsMismatch(s, l)
    ensures !Apply(cfg, ci, s, l).g.crashed
  {
    match l
    case Work(i, c) => CrashStep(cfg, ci, s.g, s.ws[i], c);
    case Main(c) => MainRunsOn(cfg, s, c);
  }

  /** A mismatch ends the process on the spot: the step that finds it is the last of its run,
      whatever the run, and leaves everything as it is: no handle is freed, no report made, no
      verdict given, and no thread moves. */
  lemma MismatchIsTheEnd(cfg: Config, ci: Cipher, states: seq<State>, run: seq<Label>, k: nat)
    requires Follows(cfg, ci, states, run) && k < |run| && FindsMismatch(states[k], run[k])
    ensures k == |run| - 1
    ensures states[|run|] == states[k].(g := states[k].g.(crashed := true))
  {
    StepAt(cfg, ci, states, run, k);
    MismatchStops(cfg, ci, states[k], run[k]);
    if k + 1 < |run| {
      StepAt(cfg, ci, states, run, k + 1);
    }
  }

  /** And nothing else ends it: a run is at the exit exactly when its last step was a worker's
      that held, for its plaintext, other bytes. */
  lemma CrashedExactly(cfg: Config, ci: Cipher, states: seq<State>, run: seq<Label>)
    requires Follows(cfg, ci, states, run) && !states[0].g.crashed
    ensures states[|run|].g.crashed <==> run != [] && FindsMismatch(states[|run| - 1], run[|run| - 1])
  {
    if run != [] {
      var k := |run| - 1;
      StepAt(cfg, ci, states, run, k);
      if FindsMismatch(states[k], run[k]) {
        MismatchStops(cfg, ci, states[k], run[k]);
      } else {
        OthersGoOn(cfg, ci, states[k], run[k]);
      }
    }
  }

  // ------------------------------------------------------------- blobs and handles

  lemma WriterKeepsSlots(cfg: Config, g: Shared, w: Worker, c: Choice)
    requires InWrite(w.pc)
    ensures SameSlots(g.pipes, MaintainStep(cfg, g, w, c).g.pipes)
  {}

  lemma LauncherKeepsSlots(cfg: Config, s: State, c: Choice)
    requires MainReady(cfg, s)
    ensures SameSlots(s.g.pipes, MainStep(cfg, s, c).g.pipes)
  {}

  lemma StepKeepsSlots(cfg: Config, ci: Cipher, s: State, l: Label)
    requires Enabled(cfg, s, l)
    ensures SameSlots(s.g.pipes, Apply(cfg, ci, s, l).g.pipes)
  {
    match l
    case Main(c) => LauncherKeepsSlots(cfg, s, c);
    case Work(i, c) =>
      if InWrite(s.ws[i].pc) {
        WriterKeepsSlots(cfg, s.g, s.ws[i], c);
        assert WorkerStep(cfg, ci, s.g, s.ws[i], c) == MaintainStep(cfg, s.g, s.ws[i], c);
      } else {
        PipesStill(cfg, ci, s.g, s.ws[i], c);
      }
  }

  /** No run builds or drops a Pipeline, or replaces its inner seeds. */
  lemma {:induction false} SlotsStay(cfg: Config, ci: Cipher, s: State, run: seq<Label>)
    requires Runs(cfg, ci, s, run)
    ensures SameSlots(s.g.pipes, After(cfg, ci, s, run).g.pipes)
    decreases |run|
  {
    if run != [] {
      StepKeepsSlots(cfg, ci, s, run[0]);
      SlotsStay(cfg, ci, Apply(cfg, ci, s, run[0]), run[1..]);
    }
  }

  function KeyingOf(p: Pipes, which: Which): (k: Option<Keying>)
    ensures k.Some? ==> SlotOf(p, which).Some?
  {
    var slot := SlotOf(p, which);
    if slot.Some? && Usable(p, slot.value.handle) then Some(p.handles[slot.value.handle].keying) else None
  }

  /** Wherever a run comes to outside a write section and before the final release, the handle
      of every Pipeline the shape needs is open, a load of its retained blob would open a
      handle with exactly its keying, and the inner seeds of that keying are those of the
      handle the run began with. */
  lemma BlobLoadsToLiveKeying(cfg: Config, ci: Cipher, s: State, run: seq<Label>, which: Which)
    requires Init(cfg, s) && Runs(cfg, ci, s, run) && Needs(cfg, which)
    requires var t := After(cfg, ci, s, run); !t.g.lock.writer && !Closing(t.g.main)
    ensures var first, live := KeyingOf(s.g.pipes, which), KeyingOf(After(cfg, ci, s, run).g.pipes, which);
            && first.Some? && live.Some? && live.value.inner == first.value.inner
            && var reopened := LoadCall(After(cfg, ci, s, run).g.pipes, which);
            reopened.handles[reopened.stage.spare].keying == live.value
  {
    var t := After(cfg, ci, s, run);
    PipesOkInit(cfg, s);
    BlobFacts(cfg, s, which);
    SlotsStay(cfg, ci, s, run);
    assert Reachable(cfg, ci, t);
    PipesReached(cfg, ci, t);
    BlobFacts(cfg, t, which);
  }

  lemma PipesReached(cfg: Config, ci: Cipher, t: State)
    requires Reachable(cfg, ci, t)
    ensures PipesOk(cfg, t)
  {
    InvReached(cfg, ci, t);
  }

  lemma BlobFacts(cfg: Config, t: State, which: Which)
    requires PipesOk(cfg, t) && Needs(cfg, which) && !t.g.lock.writer && !Closing(t.g.main)
    ensures var live := KeyingOf(t.g.pipes, which);
            && live.Some? && live.value.inner == SlotOf(t.g.pipes, which).value.inner
            && var reopened := LoadCall(t.g.pipes, which);
            reopened.handles[reopened.stage.spare].keying == live.value
  {}

  /** Outside a write section the open handles are exactly those of the active Pipelines;
      every other handle ever opened has been freed exactly once. */
  lemma OpenHandlesAreTheActiveOnes(cfg: Config, ci: Cipher, t: State)
    requires Reachable(cfg, ci, t) && !t.g.lock.writer && !Closing(t.g.main)
    ensures OnlyActiveOpen(t.g.pipes)
  {
    InvReached(cfg, ci, t);
    HandleFacts(cfg, t);
  }

  predicate OnlyActiveOpen(p: Pipes) {
    forall h | 0 <= h < |p.handles| ::
      && (p.handles[h].live <==>
            || (p.stream.Some? && p.stream.value.handle == h)
            || (p.message.Some? && p.message.value.handle == h))
      && p.handles[h].frees == if p.handles[h].live then 0 else 1
  }

  lemma HandleFacts(cfg: Config, t: State)
    requires PipesOk(cfg, t) && !t.g.lock.writer && !Closing(t.g.main)
    ensures OnlyActiveOpen(t.g.pipes)
  {
    assert t.g.pipes.stage.Idle?;
  }

  /** A run that reaches its end has freed every handle it opened, each exactly once. */
  lemma EveryHandleFreedOnce(cfg: Config, ci: Cipher, t: State)
    requires Reachable(cfg, ci, t) && t.g.main == Finished
    ensures forall h | 0 <= h < |t.g.pipes.handles| ::
              !t.g.pipes.handles[h].live && t.g.pipes.handles[h].frees == 1
  {
    InvReached(cfg, ci, t);
    FreedFacts(cfg, t);
  }

  lemma FreedFacts(cfg: Config, t: State)
    requires PipesOk(cfg, t) && t.g.main == Finished
    ensures forall h | 0 <= h < |t.g.pipes.handles| ::
              !t.g.pipes.handles[h].live && t.g.pipes.handles[h].frees == 1
  {}

  // ------------------------------------------------------------------- progress

  /** No deadlock: whatever has failed, until the launcher is finished somebody can take a
      step other than its polling. */
  lemma NoDeadlock(cfg: Config, ci: Cipher, t: State)
    requires Reachable(cfg, ci, t) && !t.g.crashed && t.g.main != Finished
    ensures exists l :: Enabled(cfg, t, l) && !Polls(t, l)
  {
    InvReached(cfg, ci, t);
    var l := SomebodyCanMove(cfg, t);
  }

  /** The steps of a run other than the launcher's polling. */
  function Effective(cfg: Config, ci: Cipher, s: State, run: seq<Label>): nat
    requires Runs(cfg, ci, s, run)
    decreases |run|
  {
    if run == [] then 0
    else (if Polls(s, run[0]) then 0 else 1) + Effective(cfg, ci, Apply(cfg, ci, s, run[0]), run[1..])
  }

  lemma BoundedStep(cfg: Config, ci: Cipher, s: State, l: Label)
    requires Inv(cfg, s) && Bounded(cfg, s.g.stop) && Enabled(cfg, s, l)
    ensures var t := Apply(cfg, ci, s, l);
            && Inv(cfg, t) && Bounded(cfg, t.g.stop)
            && Measure(cfg, t) + (if Polls(s, l) then 0 else 1) <= Measure(cfg, s)
  {
    InvStep(cfg, ci, s, l);
    if s.g.stop {
      StopStays(cfg, ci, s, l);
    }
    BudgetsHold(cfg, s);
    MeasureStep(cfg, ci, s, l);
  }

  lemma BudgetsHold(cfg: Config, s: State)
    requires BooksOk(cfg, s)
    ensures forall i | 0 <= i < |s.ws| :: BudgetOk(cfg, s.g.stop, s.ws[i])
  {
    forall i | 0 <= i < |s.ws|
      ensures BudgetOk(cfg, s.g.stop, s.ws[i])
    {
      assert WorkerBooks(cfg, s.g.stop, s.ws[i]);
    }
  }

  lemma {:induction false} MeasureBoundsRun(cfg: Config, ci: Cipher, s: State, run: seq<Label>)
    requires Inv(cfg, s) && Bounded(cfg, s.g.stop) && Runs(cfg, ci, s, run)
    ensures Measure(cfg, After(cfg, ci, s, run)) + Effective(cfg, ci, s, run) <= Measure(cfg, s)
    decreases |run|
  {
    if run != [] {
      BoundedStep(cfg, ci, s, run[0]);
      MeasureBoundsRun(cfg, ci, Apply(cfg, ci, s, run[0]), run[1..]);
    }
  }

  /** The most steps, polling aside, a run of n workers with k iterations each can take. */
  function StepBound(n: nat, k: nat): nat
    requires k > 0
  {
    Ranked(((k - 1) * ROUND + 44) * n + n + 21, n, n)
  }

  /** With an iteration budget every run is finite but for the launcher's polling, with no
      assumption about the scheduler: its steps are bounded in advance. */
  lemma BudgetedRunsEnd(cfg: Config, ci: Cipher, s: State, run: seq<Label>)
    requires Init(cfg, s) && cfg.iterations > 0 && Runs(cfg, ci, s, run)
    ensures Effective(cfg, ci, s, run) <= StepBound(cfg.workers, cfg.iterations)
  {
    InvInit(cfg, s);
    MeasureBoundsRun(cfg, ci, s, run);
    InitialMeasure(cfg, s);
  }

  lemma InitialMeasure(cfg: Config, s: State)
    requires |s.ws| == cfg.workers && s.g.main == Launch(0) && !s.g.stop && !s.g.crashed && cfg.iterations > 0
    requires forall i | 0 <= i < |s.ws| :: FreshWorker(cfg, s.ws[i])
    ensures Measure(cfg, s) <= StepBound(cfg.workers, cfg.iterations)
  {
    InitialWork(cfg, s);
    AwakeBound(s.ws);
    var work, awake := RunWork(cfg, s), Sum(s.ws, Awake);
    BoundFor(work, awake, cfg.workers, cfg.iterations);
  }

  lemma InitialWork(cfg: Config, s: State)
    requires |s.ws| == cfg.workers && s.g.main == Launch(0) && !s.g.stop && !s.g.crashed && cfg.iterations > 0
    requires forall i | 0 <= i < |s.ws| :: FreshWorker(cfg, s.ws[i])
    ensures RunWork(cfg, s) == ((cfg.iterations - 1) * ROUND + 44) * |s.ws| + |s.ws| + 21
  {
    InitialShares(cfg, s);
  }

  lemma BoundFor(work: nat, awake: nat, n: nat, k: nat)
    requires k > 0 && awake <= n && work == ((k - 1) * ROUND + 44) * n + n + 21
    ensures Ranked(work, n, awake) <= StepBound(n, k)
  {}

  lemma InitialShares(cfg: Config, s: State)
    requires (forall i | 0 <= i < |s.ws| :: FreshWorker(cfg, s.ws[i])) && !s.g.stop && cfg.iterations > 0
    ensures Sum(s.ws, Share(cfg, s.g.stop)) == ((cfg.iterations - 1) * ROUND + 44) * |s.ws|
  {
    var share := (cfg.iterations - 1) * ROUND + 44;
    forall i | 0 <= i < |s.ws|
      ensures Share(cfg, false)(s.ws[i]) == share
    {
      FreshShare(cfg, s.ws[i]);
    }
    SumConstant(s.ws, Share(cfg, false), share);
  }

  lemma FreshShare(cfg: Config, w: Worker)
    requires FreshWorker(cfg, w) && cfg.iterations > 0
    ensures WorkLeft(cfg, false, w) == (cfg.iterations - 1) * ROUND + 44
  {}

  /** Once a stop is requested, in either mode and in whatever state, no more steps are left
      than a run of one iteration per worker takes: a bound by the workers alone. */
  lemma StoppedRunsEnd(cfg: Config, ci: Cipher, t: State, run: seq<Label>)
    requires Reachable(cfg, ci, t) && t.g.stop && Runs(cfg, ci, t, run)
    ensures Effective(cfg, ci, t, run) <= StepBound(cfg.workers, 1)
  {
    InvReached(cfg, ci, t);
    MeasureBoundsRun(cfg, ci, t, run);
    StoppedMeasure(cfg, t);
  }

  lemma StoppedMeasure(cfg: Config, t: State)
    requires t.g.stop && |t.ws| == cfg.workers
    ensures Measure(cfg, t) <= StepBound(cfg.workers, 1)
  {
    StoppedWork(cfg, t);
    AwakeBound(t.ws);
    RankOfStopped(RunWork(cfg, t), Sum(t.ws, Awake), cfg.workers);
  }

  lemma StoppedWork(cfg: Config, t: State)
    requires t.g.stop
    ensures RunWork(cfg, t) <= 44 * |t.ws| + cfg.workers + 21
  {
    forall i | 0 <= i < |t.ws|
      ensures Share(cfg, true)(t.ws[i]) <= 44
    {
      assert WorkLeft(cfg, true, t.ws[i]) == Rank(t.ws[i].pc);
    }
    SumBound(t.ws, Share(cfg, true), 44);
  }

  lemma RankedBound(work: nat, awake: nat, n: nat, bound: nat)
    requires work <= bound && awake <= n
    ensures Ranked(work, n, awake) <= Ranked(bound, n, n)
  {
    assert work * (n + 1) <= bound * (n + 1);
  }

  lemma RankOfStopped(work: nat, awake: nat, n: nat)
    requires work <= 44 * n + n + 21 && awake <= n
    ensures Ranked(work, n, awake) <= StepBound(n, 1)
  {
    RankedBound(work, awake, n, 44 * n + n + 21);
    assert (1 - 1) * ROUND + 44 == 44;
  }

  // ------------------------------------------------------------- the stop request

  /** The stop request is never withdrawn. */
  lemma StopStays(cfg: Config, ci: Cipher, s: State, l: Label)
    requires Inv(cfg, s) && Enabled(cfg, s, l) && s.g.stop
    ensures Apply(cfg, ci, s, l).g.stop
  {
    match l
    case Work(i, c) =>
      assert WorkerBooks(cfg, s.g.stop, s.ws[i]);
      BooksStep(cfg, ci, s.g, s.ws[i], c);
    case Main(c) => MainLeaves(cfg, s, c);
  }

  lemma StartsHeld(cfg: Config, ci: Cipher, s: State, l: Label, i: nat)
    requires PhaseOk(cfg, s) && Enabled(cfg, s, l) && s.g.stop && i < |s.ws|
    ensures |Apply(cfg, ci, s, l).ws| == |s.ws|
    ensures StartsLeft(Apply(cfg, ci, s, l).ws[i]) == StartsLeft(s.ws[i])
  {
    match l
    case Work(j, c) =>
      WorkerMoves(cfg, ci, s, j, c);
      StartsStep(cfg, ci, s.g, s.ws[j], c);
    case Main(c) =>
      MainStarts(cfg, s, c);
  }

  /** A worker can still start the iteration it stands before, and after a stop request no
      other; the request stands. */
  lemma {:induction false} StartsAfterStop(cfg: Config, ci: Cipher, s: State, run: seq<Label>, i: nat)
    requires Inv(cfg, s) && s.g.stop && Runs(cfg, ci, s, run) && i < |s.ws|
    ensures var t := After(cfg, ci, s, run);
            t.g.stop && i < |t.ws| && StartsLeft(t.ws[i]) == StartsLeft(s.ws[i])
    decreases |run|
  {
    if run != [] {
      InvStep(cfg, ci, s, run[0]);
      StopStays(cfg, ci, s, run[0]);
      StartsHeld(cfg, ci, s, run[0], i);
      StartsAfterStop(cfg, ci, Apply(cfg, ci, s, run[0]), run[1..], i);
    }
  }

  /** After a stop request each worker starts at most one further iteration. */
  lemma AtMostOneMoreIteration(cfg: Config, ci: Cipher, t: State, run: seq<Label>, i: nat)
    requires Reachable(cfg, ci, t) && t.g.stop && Runs(cfg, ci, t, run) && i < |t.ws|
    ensures var u := After(cfg, ci, t, run);
            u.g.stop && i < |u.ws| && u.ws[i].past.started <= t.ws[i].past.started + 1
  {
    InvReached(cfg, ci, t);
    StartsAfterStop(cfg, ci, t, run, i);
  }

  // ---------------------------------------------------------------- the barriers

  /** While the launcher takes its baselines and opens the gate, every worker has ended
      iteration 0 and none has begun another. */
  lemma BaselinesSeeWarmWorkers(cfg: Config, ci: Cipher, t: State)
    requires Reachable(cfg, ci, t)
    requires t.g.main.Baselines? || t.g.main.OpenGate? || t.g.main.AtRelease?
    ensures forall i | 0 <= i < |t.ws| ::
              t.ws[i].it == 0 && (t.ws[i].pc == InWarm || t.ws[i].pc == ArriveRelease || t.ws[i].pc == InRelease)
  {
    InvReached(cfg, ci, t);
    forall i | 0 <= i < |t.ws|
      ensures t.ws[i].it == 0 && (t.ws[i].pc == InWarm || t.ws[i].pc == ArriveRelease || t.ws[i].pc == InRelease)
    {
      BaselinesAtRest(cfg, t, i);
    }
  }

  /** Every worker reaches both barriers, one that fails its warmup too: whoever is past the
      release, and the finished run, has seen all of them and the launcher arrive. */
  lemma BarriersAreFull(cfg: Config, ci: Cipher, t: State)
    requires Reachable(cfg, ci, t)
    ensures t.g.gates.warm <= cfg.workers + 1 && t.g.gates.release <= cfg.workers + 1
    ensures forall i | 0 <= i < |t.ws| && PastRelease(t.ws[i]) ::
              t.g.gates.warm == cfg.workers + 1 == t.g.gates.release
    ensures t.g.main == Finished ==> t.g.gates.warm == cfg.workers + 1 == t.g.gates.release
  {
    InvReached(cfg, ci, t);
    BarrierFacts(cfg, t);
  }

  lemma BarrierFacts(cfg: Config, t: State)
    requires PhaseOk(cfg, t)
    ensures t.g.gates.warm <= cfg.workers + 1 && t.g.gates.release <= cfg.workers + 1
    ensures forall i | 0 <= i < |t.ws| && PastRelease(t.ws[i]) ::
              t.g.gates.warm == cfg.workers + 1 == t.g.gates.release
    ensures t.g.main == Finished ==> t.g.gates.warm == cfg.workers + 1 == t.g.gates.release
  {
    SumBound(t.ws, Warmed, 1);
    SumBound(t.ws, Opened, 1);
    forall i | 0 <= i < |t.ws| && PastRelease(t.ws[i])
      ensures t.g.gates.warm == cfg.workers + 1 == t.g.gates.release
    {
      assert WorkerPhase(cfg, t.g.gates, t.ws[i]);
    }
  }

  /** The count of running workers is exact; the launcher leaves its wait only when all
      have returned, and the finish was then stamped exactly once, not before the start. */
  lemma LauncherLeavesLast(cfg: Config, ci: Cipher, t: State)
    requires Reachable(cfg, ci, t)
    ensures t.g.active == Sum(t.ws, Running)
    ensures t.g.main.Joining? || Closing(t.g.main) ==>
              AllDone(t.ws) && t.g.time.stamps == 1 && t.g.time.start <= t.g.time.finish
  {
    InvReached(cfg, ci, t);
    ActiveExact(cfg, t);
  }

  // ------------------------------------------------------------------- accounting

  /** The byte counters are the iterations times the payload, outside the counter update
      itself, and the operation counters are the totals of the workers' own counts. */
  lemma CountersAreExact(cfg: Config, ci: Cipher, t: State)
    requires Reachable(cfg, ci, t)
    ensures t.g.ops.rekeys == Sum(t.ws, RekeyCount) && t.g.ops.cycles == Sum(t.ws, CycleCount)
    ensures forall i | 0 <= i < |t.ws| && !InCount(t.ws[i].pc) ::
              t.ws[i].tally.bytesEnc == t.ws[i].tally.iters * cfg.payload == t.ws[i].tally.bytesDec
  {
    InvReached(cfg, ci, t);
    forall i | 0 <= i < |t.ws| && !InCount(t.ws[i].pc)
      ensures t.ws[i].tally.bytesEnc == t.ws[i].tally.iters * cfg.payload == t.ws[i].tally.bytesDec
    {
      ByteFacts(cfg, t, i);
    }
  }

  lemma ByteFacts(cfg: Config, t: State, i: nat)
    requires BooksOk(cfg, t) && i < |t.ws| && !InCount(t.ws[i].pc)
    ensures t.ws[i].tally.bytesEnc == t.ws[i].tally.iters * cfg.payload == t.ws[i].tally.bytesDec
  {
    assert WorkerBooks(cfg, t.g.stop, t.ws[i]);
  }

  /** A run that ends without a stop request ran its whole budget in every worker, rekeyed
      and reopened exactly as often as the intervals say, and passes. */
  lemma FullRunAccounts(cfg: Config, ci: Cipher, t: State)
    requires Reachable(cfg, ci, t) && t.g.main == Finished && !t.g.stop
    ensures cfg.iterations > 0
    ensures forall i | 0 <= i < |t.ws| :: !t.ws[i].failed && t.ws[i].tally.iters == cfg.iterations
    ensures t.g.ops.rekeys == Due(cfg.rekeyEvery, cfg.iterations - 1) * cfg.workers
    ensures t.g.ops.cycles == Due(cfg.cycleEvery, cfg.iterations - 1) * cfg.workers
    ensures t.g.verdict == Some(true)
  {
    InvReached(cfg, ci, t);
    FullRunFacts(cfg, t);
  }

  lemma FullRunFacts(cfg: Config, t: State)
    requires ValidConfig(cfg) && |t.ws| == cfg.workers && BooksOk(cfg, t) && AllDone(t.ws)
    requires t.g.main == Finished && !t.g.stop
    ensures cfg.iterations > 0
    ensures forall i | 0 <= i < |t.ws| :: !t.ws[i].failed && t.ws[i].tally.iters == cfg.iterations
    ensures t.g.ops.rekeys == Due(cfg.rekeyEvery, cfg.iterations - 1) * cfg.workers
    ensures t.g.ops.cycles == Due(cfg.cycleEvery, cfg.iterations - 1) * cfg.workers
    ensures t.g.verdict == Some(true)
  {
    SpentBudget(cfg, t.ws[0]);
    forall i | 0 <= i < |t.ws|
      ensures !t.ws[i].failed && t.ws[i].tally.iters == cfg.iterations
      ensures RekeyCount(t.ws[i]) == Due(cfg.rekeyEvery, cfg.iterations - 1)
      ensures CycleCount(t.ws[i]) == Due(cfg.cycleEvery, cfg.iterations - 1)
    {
      SpentBudget(cfg, t.ws[i]);
    }
    SumConstant(t.ws, RekeyCount, Due(cfg.rekeyEvery, cfg.iterations - 1));
    SumConstant(t.ws, CycleCount, Due(cfg.cycleEvery, cfg.iterations - 1));
  }

  lemma SpentIterations(cfg: Config, w: Worker)
    requires IterationsOk(w) && BudgetOk(cfg, false, w) && w.pc == Done
    ensures !w.failed && !Failing(w) && cfg.iterations > 0 && w.it == w.tally.iters == cfg.iterations
  {}

  lemma SpentMaintenance(cfg: Config, w: Worker)
    requires MaintenanceOk(cfg, w) && !Failing(w) && w.pc == Done && w.it > 0
    ensures RekeyCount(w) == Due(cfg.rekeyEvery, w.it - 1) && CycleCount(w) == Due(cfg.cycleEvery, w.it - 1)
  {}

  lemma SpentBudget(cfg: Config, w: Worker)
    requires WorkerBooks(cfg, false, w) && w.pc == Done
    ensures !w.failed && cfg.iterations > 0 && w.tally.iters == cfg.iterations
    ensures RekeyCount(w) == Due(cfg.rekeyEvery, cfg.iterations - 1)
    ensures CycleCount(w) == Due(cfg.cycleEvery, cfg.iterations - 1)
  {
    SpentIterations(cfg, w);
    SpentMaintenance(cfg, w);
  }

  // ---------------------------------------------------------------------- verdict

  /** The verdict of a finished run is FAIL exactly when some worker recorded an error; a
      worker recorded one, and only one, exactly when a call of its own was made to fail:
      no failure is lost and none is invented. */
  lemma VerdictIsExact(cfg: Config, ci: Cipher, t: State)
    requires Reachable(cfg, ci, t) && t.g.main == Finished
    ensures t.g.verdict.Some?
    ensures t.g.verdict.value <==> forall i | 0 <= i < |t.ws| :: t.ws[i].past.faults == 0
    ensures forall i | 0 <= i < |t.ws| ::
              && (t.ws[i].failed <==> t.ws[i].past.faults > 0)
              && t.ws[i].past.reports == t.ws[i].past.faults <= 1
  {
    TracedReached(cfg, ci, t);
    VerdictFacts(t);
  }

  lemma VerdictFacts(t: State)
    requires AllDone(t.ws) && VerdictOk(t) && t.g.main == Finished
    requires forall i | 0 <= i < |t.ws| :: FaultOk(t.ws[i])
    ensures t.g.verdict.Some?
    ensures t.g.verdict.value <==> forall i | 0 <= i < |t.ws| :: t.ws[i].past.faults == 0
    ensures forall i | 0 <= i < |t.ws| ::
              && (t.ws[i].failed <==> t.ws[i].past.faults > 0)
              && t.ws[i].past.reports == t.ws[i].past.faults <= 1
  {
    forall i | 0 <= i < |t.ws|
      ensures t.ws[i].failed <==> t.ws[i].past.faults > 0
      ensures t.ws[i].past.reports == t.ws[i].past.faults <= 1
    {
      assert FaultOk(t.ws[i]) && t.ws[i].pc == Done;
    }
  }

  // --------------------------------------------------------------- plaintexts

  /** In every state of a seeded run, in fixed and in rotating mode and however far the
      workers have run apart, two of them hold the same plaintext exactly when their ids and
      fills put them at the same place of the generator; from eight bytes on. */
  lemma PlaintextsEqualExactly(cfg: Config, ci: Cipher, t: State, i: nat, j: nat)
    requires Reachable(cfg, ci, t) && Seeded(cfg) && cfg.payload >= 8 && i < |t.ws| && j < |t.ws|
    ensures t.ws[i].past.fills >= 1 && t.ws[j].past.fills >= 1
    ensures t.ws[i].job.plaintext == t.ws[j].job.plaintext <==>
      Payload.Place(i, cfg.payload, t.ws[i].past.fills - 1) == Payload.Place(j, cfg.payload, t.ws[j].past.fills - 1)
  {
    InvReached(cfg, ci, t);
    EqualPlaintexts(cfg, t, i, j);
  }

  /** The promise of the documentation: plaintexts are pairwise distinct, in fixed mode and at
      equal fills for up to 2^64 workers, and at any fills for the ten workers of a run as
      long as two are not APART draws from each other; Payload.ReachIsExact says that not
      one draw more is safe. */
  lemma WorkersHoldDistinctPlaintexts(cfg: Config, ci: Cipher, t: State, i: nat, j: nat)
    requires Reachable(cfg, ci, t) && Seeded(cfg) && cfg.payload >= 8 && i < |t.ws| && j < |t.ws|
    requires
      || (cfg.mode == Payload.Fixed && |t.ws| <= SplitMix.TWO_TO_THE_64)
      || Payload.Separated(i, j, cfg.payload, t.ws[i].past.fills, t.ws[j].past.fills)
    requires t.ws[i].job.plaintext == t.ws[j].job.plaintext
    ensures i == j
  {
    InvReached(cfg, ci, t);
    if cfg.mode == Payload.Fixed {
      FixedFillsOnce(cfg, t, i);
      FixedFillsOnce(cfg, t, j);
    }
    DistinctPlaintexts(cfg, t, i, j);
  }

  lemma FillsWithinBudget(cfg: Config, t: State, i: nat)
    requires BooksOk(cfg, t) && i < |t.ws| && cfg.iterations > 0
    ensures t.ws[i].past.fills <= cfg.iterations + 1
  {
    assert WorkerBooks(cfg, t.g.stop, t.ws[i]);
  }

  /** A condition to check before the run: with a budget of fewer than APART draws no two of
      up to ten workers hold the same plaintext in any state, in either mode. */
  lemma BudgetKeepsPlaintextsDistinct(cfg: Config, ci: Cipher, t: State, i: nat, j: nat)
    requires Reachable(cfg, ci, t) && Seeded(cfg) && cfg.payload >= 8 && i < |t.ws| && j < |t.ws|
    requires |t.ws| <= Payload.MAX_WORKERS && cfg.iterations > 0
    requires cfg.iterations * Payload.Draws(cfg.payload) < Payload.APART
    requires t.ws[i].job.plaintext == t.ws[j].job.plaintext
    ensures i == j
  {
    InvReached(cfg, ci, t);
    BudgetSeparates(cfg, t, i, j);
    DistinctPlaintexts(cfg, t, i, j);
  }

  lemma BudgetSeparates(cfg: Config, t: State, i: nat, j: nat)
    requires BooksOk(cfg, t) && BuffersOk(cfg, t) && Seeded(cfg) && cfg.payload >= 8 && i < |t.ws| && j < |t.ws|
    requires |t.ws| <= Payload.MAX_WORKERS && cfg.iterations > 0
    requires cfg.iterations * Payload.Draws(cfg.payload) < Payload.APART
    ensures Payload.Separated(i, j, cfg.payload, t.ws[i].past.fills, t.ws[j].past.fills)
  {
    EqualPlaintexts(cfg, t, i, j);
    FillsWithinBudget(cfg, t, i);
    FillsWithinBudget(cfg, t, j);
    Payload.SeparatedWithin(i, j, cfg.payload, t.ws[i].past.fills, t.ws[j].past.fills, cfg.iterations);
  }

  /** The seed makes a failing iteration replayable: while a worker that has not failed is in
      iteration `it`, its plaintext depends on the seed, its id, the size and the mode alone:
      buffer number `it + 1` of its stream under the rotating mode, its first under the fixed
      one. */
  lemma SeededIterationsAreReplayable(cfg: Config, ci: Cipher, t: State, i: nat)
    requires Reachable(cfg, ci, t) && Seeded(cfg) && i < |t.ws|
    requires Iterating(t.ws[i].pc) && t.ws[i].pc != Refill && !Failing(t.ws[i])
    ensures t.ws[i].job.plaintext ==
      Payload.BufferOf(SplitMix.Mix, cfg.seed, i, cfg.payload,
                       if cfg.mode == Payload.Rotating then t.ws[i].it + 1 else 0)
  {
    InvReached(cfg, ci, t);
    ReplayFacts(cfg, t, i);
  }

  lemma ReplayFacts(cfg: Config, t: State, i: nat)
    requires BooksOk(cfg, t) && BuffersOk(cfg, t) && Seeded(cfg) && i < |t.ws|
    requires Iterating(t.ws[i].pc) && t.ws[i].pc != Refill && !Failing(t.ws[i])
    ensures t.ws[i].job.plaintext ==
      Payload.BufferOf(SplitMix.Mix, cfg.seed, i, cfg.payload,
                       if cfg.mode == Payload.Rotating then t.ws[i].it + 1 else 0)
  {
    FillsSoFar(cfg, t, i);
    HeldBuffer(SplitMix.Mix, cfg, i, t.ws[i], if cfg.mode == Payload.Rotating then t.ws[i].it + 1 else 0);
  }

  lemma FillsSoFar(cfg: Config, t: State, i: nat)
    requires BooksOk(cfg, t) && BuffersOk(cfg, t) && i < |t.ws|
    requires Iterating(t.ws[i].pc) && t.ws[i].pc != Refill && !Failing(t.ws[i])
    ensures t.ws[i].past.fills == if cfg.mode == Payload.Rotating then t.ws[i].it + 2 else 1
  {
    assert WorkerBooks(cfg, t.g.stop, t.ws[i]);
  }

  // ----------------------------------------------------------------- the surfaces

  function TimesExercised(cfg: Config, s: Surface, n: nat): nat {
    if n == 0 then 0 else TimesExercised(cfg, s, n - 1) + if SurfaceOf(cfg, n - 1) == s then 1 else 0
  }

  /** The surface a shape names. */
  predicate Names(shape: Shape, s: Surface) {
    match s
    case Session => shape == StreamShape
    case SingleMessage => shape == MessageShape
    case WholeStream => shape == OneShotShape
  }

  /** In n iterations a worker exercises the surface its shape names every time, and under the
      mixed shape the session, the message call and the whole-buffer call in turn: each a third
      of the times, the earlier ones first. */
  lemma {:induction false} SurfacesInTurn(cfg: Config, s: Surface, n: nat)
    ensures TimesExercised(cfg, s, n) ==
      if cfg.shape != BothShapes then if Names(cfg.shape, s) then n else 0
      else if s == Session then (n + 2) / 3 else if s == SingleMessage then (n + 1) / 3 else n / 3
  {
    if n > 0 {
      SurfacesInTurn(cfg, s, n - 1);
    }
  }

  /** A run builds exactly the Pipelines that some iteration uses. */
  lemma PipelinesUsedExactly(cfg: Config, which: Which)
    ensures Needs(cfg, which) <==> exists it: nat :: PipeFor(SurfaceOf(cfg, it)) == which
  {
    if Needs(cfg, which) {
      assert PipeFor(SurfaceOf(cfg, if which == Stream then 0 else 1)) == which;
    }
    forall it: nat
      ensures Needs(cfg, PipeFor(SurfaceOf(cfg, it)))
    {
      SurfaceBuilt(cfg, it);
    }
  }
}
