/** When a run is asked to stop, and what becomes of it (loop/main.py:743-756,
    loop/state.py:240-246). */
module Stopping {
  import opened Wrappers
  import opened Pipelines
  import opened Sums
  import opened Protocol
  import opened LockSafety
  import opened PipeSafety
  import opened Phases
  import opened Accounts
  import opened Invariant
  import opened Histories
  import opened Termination
  import opened Theorems

  predicate AnyFailed(s: State) {
    exists i | 0 <= i < |s.ws| :: s.ws[i].failed
  }

  /** The launcher's wait loop sees a signal. */
  predicate Signalled(s: State, l: Label) {
    Polls(s, l) && l.c.signal
  }

  /** The wait loop reads the clock at or past the deadline, and the run has one. */
  predicate Overdue(cfg: Config, s: State, l: Label) {
    Polls(s, l) && cfg.iterations == 0 && l.c.now - s.g.time.start >= cfg.duration
  }

  // ---------------------------------------------------------------------- steps

  /** A worker's step asks for a stop exactly when the worker has failed. */
  predicate StopMoves(g: Shared, w: Worker, g': Shared, w': Worker) {
    (g'.stop <==> g.stop || w'.failed) && (w.failed ==> w'.failed)
  }

  lemma StopIterating(cfg: Config, ci: Cipher, g: Shared, w: Worker, c: Choice)
    requires Iterating(w.pc) && Ready(cfg, g, w) && |c.os| == |w.job.plaintext| && (w.failed ==> g.stop)
    ensures var st := IterateStep(cfg, ci, g, w, c); StopMoves(g, w, st.g, st.w)
  {}

  lemma StopMaintaining(cfg: Config, g: Shared, w: Worker, c: Choice)
    requires Maintaining(w.pc) && (w.failed ==> g.stop)
    ensures var st := MaintainStep(cfg, g, w, c); StopMoves(g, w, st.g, st.w)
  {}

  lemma StopLooping(cfg: Config, g: Shared, w: Worker, c: Choice)
    requires !Iterating(w.pc) && !Maintaining(w.pc) && Ready(cfg, g, w) && (w.failed ==> g.stop)
    ensures var st := LoopStep(cfg, g, w, c); StopMoves(g, w, st.g, st.w)
  {}

  lemma StopWorking(cfg: Config, ci: Cipher, g: Shared, w: Worker, c: Choice)
    requires Ready(cfg, g, w) && |c.os| == |w.job.plaintext| && (w.failed ==> g.stop)
    ensures var st := WorkerStep(cfg, ci, g, w, c); StopMoves(g, w, st.g, st.w)
  {
    if Iterating(w.pc) {
      StopIterating(cfg, ci, g, w, c);
    } else if Maintaining(w.pc) {
      StopMaintaining(cfg, g, w, c);
    } else {
      StopLooping(cfg, g, w, c);
    }
  }

  lemma FailedAskStop(cfg: Config, s: State)
    requires BooksOk(cfg, s)
    ensures forall i | 0 <= i < |s.ws| :: s.ws[i].failed ==> s.g.stop
  {
    forall i | 0 <= i < |s.ws|
      ensures s.ws[i].failed ==> s.g.stop
    {
      assert WorkerBooks(cfg, s.g.stop, s.ws[i]);
    }
  }

  /** What a step does to the stop request and the failures. */
  predicate StopNext(cfg: Config, s: State, l: Label, t: State) {
    && (t.g.stop <==> s.g.stop || AnyFailed(t) || Asks(cfg, s, l))
    && (AnyFailed(s) ==> AnyFailed(t))
  }

  /** One thread has moved; the others are what they were but for waking. */
  lemma StopMove(s: State, t: State, i: nat, notify: bool)
    requires Moved(s, t, i, notify) && StopMoves(s.g, s.ws[i], t.g, t.ws[i])
    requires forall j | 0 <= j < |s.ws| :: s.ws[j].failed ==> s.g.stop
    ensures t.g.stop <==> s.g.stop || AnyFailed(t)
    ensures AnyFailed(s) ==> AnyFailed(t)
  {
    assert forall j | 0 <= j < |t.ws| && j != i :: t.ws[j].failed == s.ws[j].failed;
    if AnyFailed(s) {
      var j :| 0 <= j < |s.ws| && s.ws[j].failed;
      assert t.ws[j].failed;
    }
    if t.ws[i].failed {
      assert AnyFailed(t);
    }
  }

  lemma StopWork(cfg: Config, ci: Cipher, s: State, i: nat, c: Choice)
    requires BooksOk(cfg, s) && Enabled(cfg, s, Work(i, c))
    ensures StopNext(cfg, s, Work(i, c), Apply(cfg, ci, s, Work(i, c)))
  {
    FailedAskStop(cfg, s);
    WorkerMoves(cfg, ci, s, i, c);
    StopWorking(cfg, ci, s.g, s.ws[i], c);
    StopMove(s, Apply(cfg, ci, s, Work(i, c)), i, WorkerStep(cfg, ci, s.g, s.ws[i], c).notify);
  }

  lemma MainStops(cfg: Config, s: State, c: Choice)
    requires MainReady(cfg, s)
    ensures var t := MainStep(cfg, s, c);
            && (t.g.stop <==> s.g.stop || Signalled(s, Main(c)) || Overdue(cfg, s, Main(c)))
            && |t.ws| == |s.ws| && forall j | 0 <= j < |t.ws| :: t.ws[j].failed == s.ws[j].failed
  {}

  lemma SameFailures(s: State, t: State)
    requires |t.ws| == |s.ws| && forall j | 0 <= j < |t.ws| :: t.ws[j].failed == s.ws[j].failed
    ensures AnyFailed(t) <==> AnyFailed(s)
  {
    if AnyFailed(s) {
      var j :| 0 <= j < |s.ws| && s.ws[j].failed;
      assert t.ws[j].failed;
    }
  }

  lemma StopMain(cfg: Config, s: State, c: Choice)
    requires BooksOk(cfg, s) && MainReady(cfg, s)
    ensures StopNext(cfg, s, Main(c), MainStep(cfg, s, c))
  {
    FailedAskStop(cfg, s);
    MainStops(cfg, s, c);
    SameFailures(s, MainStep(cfg, s, c));
  }

  lemma StopStep(cfg: Config, ci: Cipher, s: State, l: Label)
    requires Inv(cfg, s) && Enabled(cfg, s, l)
    ensures StopNext(cfg, s, l, Apply(cfg, ci, s, l))
  {
    match l
    case Work(i, c) => StopWork(cfg, ci, s, i, c);
    case Main(c) => StopMain(cfg, s, c);
  }

  // ----------------------------------------------------------------------- runs

  /** A poll that asks for a stop. */
  predicate Asks(cfg: Config, s: State, l: Label) {
    Signalled(s, l) || Overdue(cfg, s, l)
  }

  /** Some poll before state k asked for a stop. */
  predicate AskedBefore(cfg: Config, states: seq<State>, run: seq<Label>, k: nat)
    requires |states| == |run| + 1 && k <= |run|
  {
    exists j | 0 <= j < k :: Asks(cfg, states[j], run[j])
  }

  lemma StopStepAt(cfg: Config, ci: Cipher, states: seq<State>, run: seq<Label>, k: nat)
    requires History(cfg, ci, states, run) && k < |run|
    ensures StopNext(cfg, states[k], run[k], states[k + 1])
  {
    InvAt(cfg, ci, states, run, k);
    StepAt(cfg, ci, states, run, k);
    StopStep(cfg, ci, states[k], run[k]);
  }

  lemma AskedMore(cfg: Config, states: seq<State>, run: seq<Label>, k: nat)
    requires |states| == |run| + 1 && k < |run|
    ensures AskedBefore(cfg, states, run, k + 1) <==> AskedBefore(cfg, states, run, k) || Asks(cfg, states[k], run[k])
  {
    if AskedBefore(cfg, states, run, k) {
      var j :| 0 <= j < k && Asks(cfg, states[j], run[j]);
      assert j < k + 1;
    }
  }

  lemma StopsMore(cfg: Config, s: State, l: Label, t: State, asked: bool)
    requires StopNext(cfg, s, l, t) && (s.g.stop <==> AnyFailed(s) || asked)
    ensures t.g.stop <==> AnyFailed(t) || asked || Asks(cfg, s, l)
  {}

  lemma StopsAtFirst(cfg: Config, ci: Cipher, states: seq<State>, run: seq<Label>)
    requires History(cfg, ci, states, run)
    ensures !states[0].g.stop && !AnyFailed(states[0])
  {}

  predicate StopHistory(cfg: Config, states: seq<State>, run: seq<Label>) {
    && |states| == |run| + 1 && !states[0].g.stop && !AnyFailed(states[0])
    && forall j {:trigger run[j]} | 0 <= j < |run| :: StopNext(cfg, states[j], run[j], states[j + 1])
  }

  lemma StopHistoryOf(cfg: Config, ci: Cipher, states: seq<State>, run: seq<Label>)
    requires History(cfg, ci, states, run)
    ensures StopHistory(cfg, states, run)
  {
    StopsAtFirst(cfg, ci, states, run);
    forall j | 0 <= j < |run|
      ensures StopNext(cfg, states[j], run[j], states[j + 1])
    {
      StopStepAt(cfg, ci, states, run, j);
    }
  }

  lemma {:induction false} StopsWhenAsked(cfg: Config, states: seq<State>, run: seq<Label>, k: nat)
    requires StopHistory(cfg, states, run) && k <= |run|
    ensures states[k].g.stop <==> AnyFailed(states[k]) || AskedBefore(cfg, states, run, k)
    decreases k
  {
    if k > 0 {
      StopsWhenAsked(cfg, states, run, k - 1);
      AskedMore(cfg, states, run, k - 1);
      StopsMore(cfg, states[k - 1], run[k - 1], states[k], AskedBefore(cfg, states, run, k - 1));
    }
  }

  /** A run has been asked to stop exactly when a worker has failed, a poll saw a signal, or,
      without an iteration budget only, a poll read the clock at or past the deadline. */
  lemma StopsExactly(cfg: Config, ci: Cipher, states: seq<State>, run: seq<Label>, k: nat)
    requires History(cfg, ci, states, run) && k <= |run|
    ensures states[k].g.stop <==> AnyFailed(states[k]) || AskedBefore(cfg, states, run, k)
  {
    StopHistoryOf(cfg, ci, states, run);
    StopsWhenAsked(cfg, states, run, k);
  }

  predicate PastGate(m: LauncherPc) {
    m.AtRelease? || m.WaitRelease? || m.Waiting? || m.Joining? || Closing(m)
  }

  lemma StartWork(cfg: Config, ci: Cipher, s: State, i: nat, c: Choice)
    requires PhaseOk(cfg, s) && Enabled(cfg, s, Work(i, c))
    ensures var t := Apply(cfg, ci, s, Work(i, c)); t.g.main == s.g.main && t.g.time.start == s.g.time.start
  {
    assert WorkerPhase(cfg, s.g.gates, s.ws[i]);
    PhaseStep(cfg, ci, s.g, s.ws[i], c);
  }

  lemma StartMain(cfg: Config, s: State, c: Choice)
    requires MainReady(cfg, s)
    ensures var t := MainStep(cfg, s, c);
            && (s.g.main.OpenGate? ==> PastGate(t.g.main) && t.g.time.start == c.now)
            && (PastGate(s.g.main) ==> PastGate(t.g.main) && t.g.time.start == s.g.time.start)
  {}

  predicate StartMoves(s: State, l: Label, t: State) {
    && (s.g.main.OpenGate? && l.Main? ==> PastGate(t.g.main) && t.g.time.start == l.c.now)
    && (PastGate(s.g.main) ==> PastGate(t.g.main) && t.g.time.start == s.g.time.start)
  }

  lemma StartStep(cfg: Config, ci: Cipher, s: State, l: Label)
    requires Inv(cfg, s) && Enabled(cfg, s, l)
    ensures StartMoves(s, l, Apply(cfg, ci, s, l))
  {
    match l
    case Work(i, c) => StartWork(cfg, ci, s, i, c);
    case Main(c) => StartMain(cfg, s, c);
  }

  predicate StartHistory(states: seq<State>, run: seq<Label>) {
    && |states| == |run| + 1
    && forall k {:trigger run[k]} | 0 <= k < |run| :: StartMoves(states[k], run[k], states[k + 1])
  }

  lemma StartNext(cfg: Config, ci: Cipher, states: seq<State>, run: seq<Label>, k: nat)
    requires History(cfg, ci, states, run) && k < |run|
    ensures StartMoves(states[k], run[k], states[k + 1])
  {
    InvAt(cfg, ci, states, run, k);
    StepAt(cfg, ci, states, run, k);
    StartStep(cfg, ci, states[k], run[k]);
  }

  lemma {:induction false} StartHolds(states: seq<State>, run: seq<Label>, j: nat, k: nat)
    requires StartHistory(states, run) && j < k <= |run| && states[j].g.main.OpenGate? && run[j].Main?
    ensures PastGate(states[k].g.main) && states[k].g.time.start == run[j].c.now
    decreases k
  {
    assert StartMoves(states[k - 1], run[k - 1], states[k - 1 + 1]);
    if k > j + 1 {
      StartHolds(states, run, j, k - 1);
    }
  }

  /** The clock starts where the gate is opened, and is not set again. */
  lemma StartsAtTheGate(cfg: Config, ci: Cipher, states: seq<State>, run: seq<Label>, j: nat, k: nat)
    requires History(cfg, ci, states, run) && j < k <= |run| && states[j].g.main.OpenGate? && run[j].Main?
    ensures PastGate(states[k].g.main) && states[k].g.time.start == run[j].c.now
  {
    forall m | 0 <= m < |run|
      ensures StartMoves(states[m], run[m], states[m + 1])
    {
      StartNext(cfg, ci, states, run, m);
    }
    StartHolds(states, run, j, k);
  }

  lemma NobodyLeft(cfg: Config, s: State)
    requires PhaseOk(cfg, s) && ValidConfig(cfg) && s.g.active == 0
    ensures AllDone(s.ws) && !MainBeforeRelease(s.g.main)
  {
    forall i | 0 <= i < |s.ws|
      ensures s.ws[i].pc == Done
    {
      SumAtLeast(s.ws, Running, i);
    }
    assert WorkerPhase(cfg, s.g.gates, s.ws[0]) && PastRelease(s.ws[0]);
    SumBound(s.ws, Opened, 1);
  }

  lemma LastExit(cfg: Config, ci: Cipher, s: State, i: nat, c: Choice)
    requires PhaseOk(cfg, s) && Enabled(cfg, s, Work(i, c)) && s.ws[i].pc == Exit && s.g.active == 1
    ensures var t := Apply(cfg, ci, s, Work(i, c)); t.g.active == 0 && t.g.time.finish == c.now
  {
    assert WorkerStep(cfg, ci, s.g, s.ws[i], c) == ExitStep(s.g, s.ws[i], c);
  }

  lemma MainLeavesFinish(cfg: Config, s: State, c: Choice)
    requires MainReady(cfg, s) && !MainBeforeRelease(s.g.main)
    ensures var t := MainStep(cfg, s, c); t.g.active == s.g.active && t.g.time.finish == s.g.time.finish
  {}

  /** The last worker still running returns. */
  predicate LastReturns(s: State, l: Label) {
    s.g.active == 1 && l.Work? && l.i < |s.ws| && s.ws[l.i].pc == Exit
  }

  lemma OnlyMainIsLeft(cfg: Config, s: State, l: Label)
    requires Enabled(cfg, s, l) && AllDone(s.ws)
    ensures l.Main? && MainReady(cfg, s)
  {}

  lemma FinishStays(cfg: Config, ci: Cipher, s: State, l: Label)
    requires ValidConfig(cfg) && PhaseOk(cfg, s) && Enabled(cfg, s, l) && s.g.active == 0
    ensures var t := Apply(cfg, ci, s, l); t.g.active == 0 && t.g.time.finish == s.g.time.finish
  {
    NobodyLeft(cfg, s);
    OnlyMainIsLeft(cfg, s, l);
    MainLeavesFinish(cfg, s, l.c);
  }

  predicate FinishMoves(s: State, l: Label, t: State) {
    && (LastReturns(s, l) ==> t.g.active == 0 && t.g.time.finish == l.c.now)
    && (s.g.active == 0 ==> t.g.active == 0 && t.g.time.finish == s.g.time.finish)
  }

  lemma FinishStep(cfg: Config, ci: Cipher, s: State, l: Label)
    requires ValidConfig(cfg) && PhaseOk(cfg, s) && Enabled(cfg, s, l)
    ensures FinishMoves(s, l, Apply(cfg, ci, s, l))
  {
    if s.g.active == 0 {
      FinishStays(cfg, ci, s, l);
    } else if LastReturns(s, l) {
      LastExit(cfg, ci, s, l.i, l.c);
    }
  }

  predicate FinishHistory(states: seq<State>, run: seq<Label>) {
    && |states| == |run| + 1
    && forall k {:trigger run[k]} | 0 <= k < |run| :: FinishMoves(states[k], run[k], states[k + 1])
  }

  lemma FinishNext(cfg: Config, ci: Cipher, states: seq<State>, run: seq<Label>, k: nat)
    requires History(cfg, ci, states, run) && k < |run|
    ensures FinishMoves(states[k], run[k], states[k + 1])
  {
    InvAt(cfg, ci, states, run, k);
    StepAt(cfg, ci, states, run, k);
    FinishStep(cfg, ci, states[k], run[k]);
  }

  lemma {:induction false} FinishHolds(states: seq<State>, run: seq<Label>, j: nat, k: nat)
    requires FinishHistory(states, run) && j < k <= |run| && LastReturns(states[j], run[j])
    ensures states[k].g.active == 0 && states[k].g.time.finish == run[j].c.now
    decreases k
  {
    assert FinishMoves(states[k - 1], run[k - 1], states[k - 1 + 1]);
    if k > j + 1 {
      FinishHolds(states, run, j, k - 1);
    }
  }

  /** The run's time ends where the last worker returns, however long the launcher takes to
      notice. */
  lemma FinishesWithTheLast(cfg: Config, ci: Cipher, states: seq<State>, run: seq<Label>, j: nat, k: nat)
    requires History(cfg, ci, states, run) && j < k <= |run| && LastReturns(states[j], run[j])
    ensures states[k].g.active == 0 && states[k].g.time.finish == run[j].c.now
  {
    forall m | 0 <= m < |run|
      ensures FinishMoves(states[m], run[m], states[m + 1])
    {
      FinishNext(cfg, ci, states, run, m);
    }
    FinishHolds(states, run, j, k);
  }

  lemma {:induction false} StopHeld(cfg: Config, ci: Cipher, states: seq<State>, run: seq<Label>, b: nat, e: nat)
    requires History(cfg, ci, states, run) && b <= e <= |run| && states[b].g.stop
    ensures states[e].g.stop
    decreases e
  {
    if b < e {
      StopHeld(cfg, ci, states, run, b, e - 1);
      StopStepAt(cfg, ci, states, run, e - 1);
    }
  }

  /** The deadline ends the run: without an iteration budget, once a poll reads the clock the
      whole duration or more after the gate was opened, the stop request stands from there on,
      and no more steps are left than one iteration of every worker takes. */
  lemma DeadlineEndsTheRun(cfg: Config, ci: Cipher, states: seq<State>, run: seq<Label>, j: nat, k: nat)
    requires History(cfg, ci, states, run) && cfg.iterations == 0 && j < k < |run|
    requires states[j].g.main.OpenGate? && run[j].Main?
    requires Polls(states[k], run[k]) && run[k].c.now - run[j].c.now >= cfg.duration
    ensures forall m | k < m <= |run| :: states[m].g.stop
    ensures Runs(cfg, ci, states[k + 1], run[k + 1..])
    ensures Effective(cfg, ci, states[k + 1], run[k + 1..]) <= StepBound(cfg.workers, 1)
  {
    StartsAtTheGate(cfg, ci, states, run, j, k);
    StopStepAt(cfg, ci, states, run, k);
    forall m | k < m <= |run|
      ensures states[m].g.stop
    {
      StopHeld(cfg, ci, states, run, k + 1, m);
    }
    From(cfg, ci, states, run, k + 1);
    HistoryRuns(cfg, ci, states[k + 1..], run[k + 1..]);
    ReachableAt(cfg, ci, states, run, k + 1);
    StoppedRunsEnd(cfg, ci, states[k + 1], run[k + 1..]);
  }

  /** A run with a budget that sees no signal and no failure does the whole budget, whatever
      its duration, and passes. */
  lemma UndisturbedRunsAreFull(cfg: Config, ci: Cipher, states: seq<State>, run: seq<Label>)
    requires History(cfg, ci, states, run) && cfg.iterations > 0
    requires states[|run|].g.main == Finished && !AnyFailed(states[|run|])
    requires forall k | 0 <= k < |run| :: !Signalled(states[k], run[k])
    ensures var t := states[|run|];
            && !t.g.stop && t.g.verdict == Some(true)
            && (forall i | 0 <= i < |t.ws| :: t.ws[i].tally.iters == cfg.iterations)
            && t.g.ops.rekeys == Due(cfg.rekeyEvery, cfg.iterations - 1) * cfg.workers
            && t.g.ops.cycles == Due(cfg.cycleEvery, cfg.iterations - 1) * cfg.workers
  {
    StopsExactly(cfg, ci, states, run, |run|);
    ReachableAt(cfg, ci, states, run, |run|);
    FullRunAccounts(cfg, ci, states[|run|]);
  }
}
