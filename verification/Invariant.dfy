/** What every step of the run keeps. */
module Invariant {
  import opened Wrappers
  import opened Pipelines
  import opened Sums
  import opened Protocol
  import opened LockSafety
  import opened PipeSafety
  import opened RoundTrip
  import opened Phases
  import opened Accounts
  import opened Buffers

  // -------------------------------------------------------------- the books

  predicate WorkerBooks(cfg: Config, stop: bool, w: Worker) {
    BytesOk(cfg, w) && IterationsOk(w) && BudgetOk(cfg, stop, w) && MaintenanceOk(cfg, w) && FillsOk(cfg, w)
  }

  function RekeyCount(w: Worker): nat { w.past.rekeyed }

  function CycleCount(w: Worker): nat { w.past.cycled }

  predicate VerdictOk(s: State) {
    s.g.main.FreePipe? || s.g.main.Finished? ==>
      s.g.verdict == Some(forall i | 0 <= i < |s.ws| :: !s.ws[i].failed)
  }

  predicate TotalsOk(s: State) {
    s.g.ops.rekeys == Sum(s.ws, RekeyCount) && s.g.ops.cycles == Sum(s.ws, CycleCount)
  }

  predicate BooksOk(cfg: Config, s: State) {
    && (forall i | 0 <= i < |s.ws| :: WorkerBooks(cfg, s.g.stop, s.ws[i]))
    && TotalsOk(s)
    && VerdictOk(s)
  }

  lemma BooksOkInit(cfg: Config, s: State)
    requires Built(cfg, s)
    ensures BooksOk(cfg, s)
  {
    SumConstant(s.ws, RekeyCount, 0);
    SumConstant(s.ws, CycleCount, 0);
    forall i | 0 <= i < |s.ws|
      ensures WorkerBooks(cfg, s.g.stop, s.ws[i])
    {
      FreshBooks(cfg, s.ws[i]);
    }
  }

  lemma FreshBooks(cfg: Config, w: Worker)
    requires FreshWorker(cfg, w)
    ensures WorkerBooks(cfg, false, w)
  {}

  lemma BooksStep(cfg: Config, ci: Cipher, g: Shared, w: Worker, c: Choice)
    requires Ready(cfg, g, w) && |c.os| == |w.job.plaintext| && CountFresh(g.ops, w)
    requires WorkerBooks(cfg, g.stop, w) && WorkerPhase(cfg, g.gates, w)
    ensures var st := WorkerStep(cfg, ci, g, w, c);
            WorkerBooks(cfg, st.g.stop, st.w) && MaintenanceMoves(g, w, st.g, st.w) && (g.stop ==> st.g.stop)
  {
    BytesStep(cfg, ci, g, w, c);
    IterationsStep(cfg, ci, g, w, c);
    BudgetStep(cfg, ci, g, w, c);
    MaintenanceStep(cfg, ci, g, w, c);
    FillsStep(cfg, ci, g, w, c);
    CountsStep(cfg, ci, g, w, c);
  }

  lemma CountsWake(cfg: Config, w: Worker)
    requires BytesOk(cfg, w) && IterationsOk(w)
    ensures BytesOk(cfg, Wake(w)) && IterationsOk(Wake(w))
  {}

  lemma BudgetWake(cfg: Config, stop: bool, stop': bool, w: Worker)
    requires BudgetOk(cfg, stop, w) && (stop ==> stop')
    ensures BudgetOk(cfg, stop', w) && BudgetOk(cfg, stop', Wake(w))
  {}

  lemma MaintenanceWake(cfg: Config, w: Worker)
    requires MaintenanceOk(cfg, w)
    ensures MaintenanceOk(cfg, Wake(w))
  {}

  lemma FillsWake(cfg: Config, w: Worker)
    requires FillsOk(cfg, w)
    ensures FillsOk(cfg, Wake(w)) && (w.pc == NotStarted ==> FillsOk(cfg, w.(pc := Refill)))
  {}

  lemma BooksWake(cfg: Config, stop: bool, stop': bool, w: Worker)
    requires WorkerBooks(cfg, stop, w) && (stop ==> stop')
    ensures WorkerBooks(cfg, stop', w) && WorkerBooks(cfg, stop', Wake(w))
  {
    CountsWake(cfg, w);
    BudgetWake(cfg, stop, stop', w);
    MaintenanceWake(cfg, w);
    FillsWake(cfg, w);
  }

  lemma TotalsSteady()
    ensures Steady(RekeyCount) && Steady(CycleCount)
  {}

  lemma BooksMove(cfg: Config, s: State, t: State, i: nat, notify: bool)
    requires BooksOk(cfg, s) && Moved(s, t, i, notify) && t.g.main == s.g.main
    requires !s.g.main.FreePipe? && !s.g.main.Finished?
    requires WorkerBooks(cfg, t.g.stop, t.ws[i]) && MaintenanceMoves(s.g, s.ws[i], t.g, t.ws[i])
    requires s.g.stop ==> t.g.stop
    ensures BooksOk(cfg, t)
  {
    TotalsSteady();
    SumAfterMove(s, t, i, notify, RekeyCount);
    SumAfterMove(s, t, i, notify, CycleCount);
    forall j | 0 <= j < |t.ws|
      ensures WorkerBooks(cfg, t.g.stop, t.ws[j])
    {
      if j != i {
        BooksWake(cfg, s.g.stop, t.g.stop, s.ws[j]);
      }
    }
  }

  lemma StartCounts(cfg: Config, w: Worker)
    requires BytesOk(cfg, w) && IterationsOk(w) && w.pc == NotStarted
    ensures BytesOk(cfg, w.(pc := Refill)) && IterationsOk(w.(pc := Refill))
  {}

  lemma StartLimits(cfg: Config, stop: bool, w: Worker)
    requires BudgetOk(cfg, stop, w) && MaintenanceOk(cfg, w) && IterationsOk(w) && w.pc == NotStarted
    ensures BudgetOk(cfg, stop, w.(pc := Refill)) && MaintenanceOk(cfg, w.(pc := Refill))
  {}

  lemma StartBooks(cfg: Config, stop: bool, w: Worker)
    requires WorkerBooks(cfg, stop, w) && w.pc == NotStarted
    ensures WorkerBooks(cfg, stop, w.(pc := Refill))
  {
    StartCounts(cfg, w);
    StartLimits(cfg, stop, w);
    FillsWake(cfg, w);
  }

  lemma MainLeaves(cfg: Config, s: State, c: Choice)
    requires MainReady(cfg, s)
    ensures var t := MainStep(cfg, s, c);
            t.g.ops == s.g.ops && (s.g.stop ==> t.g.stop) && (VerdictOk(s) && !s.g.main.Launch? ==> VerdictOk(t))
  {}

  lemma LaunchTotals(s: State, t: State)
    requires Launches(s, t) && TotalsOk(s)
    ensures TotalsOk(t)
  {
    var k := s.g.main.next;
    SumUpdate(s.ws, RekeyCount, k, t.ws[k]);
    SumUpdate(s.ws, CycleCount, k, t.ws[k]);
  }

  lemma BooksLaunch(cfg: Config, s: State, t: State)
    requires BooksOk(cfg, s) && PhaseOk(cfg, s) && Launches(s, t)
    ensures BooksOk(cfg, t)
  {
    LaunchTotals(s, t);
    forall j | 0 <= j < |t.ws|
      ensures WorkerBooks(cfg, t.g.stop, t.ws[j])
    {
      assert WorkerBooks(cfg, s.g.stop, s.ws[j]);
      if j == s.g.main.next {
        StartBooks(cfg, s.g.stop, s.ws[j]);
      }
    }
  }

  lemma BooksMain(cfg: Config, s: State, c: Choice)
    requires BooksOk(cfg, s) && PhaseOk(cfg, s) && MainReady(cfg, s)
    ensures BooksOk(cfg, MainStep(cfg, s, c))
  {
    if s.g.main.Launch? && s.g.main.next < |s.ws| {
      BooksLaunch(cfg, s, MainStep(cfg, s, c));
    } else {
      var t := MainStep(cfg, s, c);
      MainLeaves(cfg, s, c);
      assert t.ws == s.ws;
      forall j | 0 <= j < |t.ws|
        ensures WorkerBooks(cfg, t.g.stop, t.ws[j])
      {
        BooksWake(cfg, s.g.stop, t.g.stop, s.ws[j]);
      }
    }
  }

  /** Between a load and the store that follows it no counter moves. */
  predicate LoadsOk(s: State) {
    forall i | 0 <= i < |s.ws| :: CountFresh(s.g.ops, s.ws[i])
  }

  /** The lock is what keeps a load good: whoever else could store is not in a section. */
  lemma LoadsMove(s: State, t: State, i: nat, notify: bool)
    requires LockOk(s) && LoadsOk(s) && Moved(s, t, i, notify)
    requires CountsLocked(s.g, s.ws[i], t.g, t.ws[i])
    ensures LoadsOk(t)
  {
    forall j | 0 <= j < |t.ws|
      ensures CountFresh(t.g.ops, t.ws[j])
    {
      if j != i {
        WakeOutside(s.ws[j]);
        if InWrite(s.ws[j].pc) {
          Exclusive(s, j, i);
        }
      }
    }
  }

  lemma LoadsMain(cfg: Config, s: State, c: Choice)
    requires LoadsOk(s) && MainReady(cfg, s)
    ensures LoadsOk(MainStep(cfg, s, c))
  {
    var t := MainStep(cfg, s, c);
    forall j | 0 <= j < |t.ws|
      ensures CountFresh(t.g.ops, t.ws[j])
    {
      assert CountFresh(s.g.ops, s.ws[j]);
    }
  }

  // ---------------------------------------------------------- the invariant

  /** Kept by every step, whatever fails and whatever the cipher does. */
  predicate Inv(cfg: Config, s: State) {
    && ValidConfig(cfg)
    && LockOk(s) && PipesOk(cfg, s) && PhaseOk(cfg, s) && BooksOk(cfg, s) && LoadsOk(s) && BuffersOk(cfg, s)
  }

  lemma InvInit(cfg: Config, s: State)
    requires Init(cfg, s)
    ensures Inv(cfg, s)
  {
    LockOkInit(cfg, s);
    PipesOkInit(cfg, s);
    PhaseOkInit(cfg, s);
    BooksOkInit(cfg, s);
    BuffersOkInit(cfg, s);
  }

  lemma WorkerNotDone(cfg: Config, s: State, i: nat)
    requires PipesOk(cfg, s) && i < |s.ws| && Ready(cfg, s.g, s.ws[i])
    ensures !Closing(s.g.main)
  {}

  lemma InvWork(cfg: Config, ci: Cipher, s: State, i: nat, c: Choice)
    requires Inv(cfg, s) && Enabled(cfg, s, Work(i, c))
    ensures Inv(cfg, Apply(cfg, ci, s, Work(i, c)))
  {
    var t, notify := Apply(cfg, ci, s, Work(i, c)), WorkerStep(cfg, ci, s.g, s.ws[i], c).notify;
    WorkerMoves(cfg, ci, s, i, c);
    LockOkWork(cfg, ci, s, i, c);
    PipesOkWork(cfg, ci, s, i, c);
    PhaseOkWork(cfg, ci, s, i, c);
    WorkerNotDone(cfg, s, i);
    MainUntouched(cfg, ci, s.g, s.ws[i], c);
    BooksStep(cfg, ci, s.g, s.ws[i], c);
    BooksMove(cfg, s, t, i, notify);
    CountsStep(cfg, ci, s.g, s.ws[i], c);
    LoadsMove(s, t, i, notify);
    BufferStep(cfg, ci, s.g, i, s.ws[i], c);
    BuffersMove(cfg, s, t, i, notify);
  }

  lemma InvMain(cfg: Config, ci: Cipher, s: State, c: Choice)
    requires Inv(cfg, s) && Enabled(cfg, s, Main(c))
    ensures Inv(cfg, Apply(cfg, ci, s, Main(c)))
  {
    LockOkMain(cfg, ci, s, c);
    PipesOkMain(cfg, ci, s, c);
    PhaseOkMain(cfg, ci, s, c);
    BooksMain(cfg, s, c);
    LoadsMain(cfg, s, c);
    BuffersMain(cfg, s, c);
  }

  lemma BuffersMain(cfg: Config, s: State, c: Choice)
    requires BuffersOk(cfg, s) && MainReady(cfg, s)
    ensures BuffersOk(cfg, MainStep(cfg, s, c))
  {
    var t := MainStep(cfg, s, c);
    forall j | 0 <= j < |t.ws|
      ensures BufferOk(cfg, j, t.ws[j])
    {
      assert t.ws[j].job == s.ws[j].job && t.ws[j].past == s.ws[j].past;
      SameFill(cfg, j, s.ws[j], t.ws[j]);
    }
  }

  lemma InvStep(cfg: Config, ci: Cipher, s: State, l: Label)
    requires Inv(cfg, s) && Enabled(cfg, s, l)
    ensures Inv(cfg, Apply(cfg, ci, s, l))
  {
    match l
    case Work(i, c) => InvWork(cfg, ci, s, i, c);
    case Main(c) => InvMain(cfg, ci, s, c);
  }

  lemma {:induction false} InvAfter(cfg: Config, ci: Cipher, s: State, run: seq<Label>)
    requires Inv(cfg, s) && Runs(cfg, ci, s, run)
    ensures Inv(cfg, After(cfg, ci, s, run))
    decreases |run|
  {
    if run != [] {
      InvStep(cfg, ci, s, run[0]);
      InvAfter(cfg, ci, Apply(cfg, ci, s, run[0]), run[1..]);
    }
  }

  // ------------------------------------------------ round trips and failures

  lemma FaultsInit(cfg: Config, s: State)
    requires Built(cfg, s)
    ensures forall i | 0 <= i < |s.ws| :: FaultOk(s.ws[i])
  {}

  lemma SoundReading(cfg: Config, ci: Cipher, p: Pipes, w: Worker)
    requires Whole(cfg, p) && p.stage.Idle? && TripOk(cfg, ci, p, w) && InRead(w.pc)
    ensures Sound(cfg, p, w)
  {
    SurfaceBuilt(cfg, w.it);
  }

  lemma SoundElsewhere(cfg: Config, p: Pipes, w: Worker)
    requires Whole(cfg, p) && !InRead(w.pc) && (w.pc.CallRekey? ==> p.stage.Idle?)
    ensures Sound(cfg, p, w)
  {}

  lemma SoundHere(cfg: Config, ci: Cipher, s: State, i: nat)
    requires Inv(cfg, s) && TripsOk(cfg, ci, s) && i < |s.ws|
    ensures Sound(cfg, s.g.pipes, s.ws[i])
  {
    if InRead(s.ws[i].pc) {
      ReadingMeansStill(cfg, s, i);
      assert TripOk(cfg, ci, s.g.pipes, s.ws[i]);
      SoundReading(cfg, ci, s.g.pipes, s.ws[i]);
    } else {
      assert InWrite(s.ws[i].pc) ==> StageFits(s.g.pipes.stage, s.ws[i].pc);
      SoundElsewhere(cfg, s.g.pipes, s.ws[i]);
    }
  }

  lemma FaultWake(w: Worker)
    requires FaultOk(w)
    ensures FaultOk(Wake(w))
    ensures w.pc == NotStarted ==> FaultOk(w.(pc := Refill))
  {}

  lemma FaultsMove(s: State, t: State, i: nat, notify: bool)
    requires (forall j | 0 <= j < |s.ws| :: FaultOk(s.ws[j])) && Moved(s, t, i, notify) && FaultOk(t.ws[i])
    ensures forall j | 0 <= j < |t.ws| :: FaultOk(t.ws[j])
  {
    forall j | 0 <= j < |t.ws|
      ensures FaultOk(t.ws[j])
    {
      FaultWake(s.ws[j]);
    }
  }

  lemma FaultsMain(cfg: Config, s: State, c: Choice)
    requires (forall j | 0 <= j < |s.ws| :: FaultOk(s.ws[j])) && PhaseOk(cfg, s) && MainReady(cfg, s)
    ensures forall j | 0 <= j < |MainStep(cfg, s, c).ws| :: FaultOk(MainStep(cfg, s, c).ws[j])
  {
    var t := MainStep(cfg, s, c);
    forall j | 0 <= j < |t.ws|
      ensures FaultOk(t.ws[j])
    {
      FaultWake(s.ws[j]);
    }
  }

  /** The invariant, the round trips and the failures, whatever the cipher does: nothing fails
      that was not made to fail. */
  predicate Traced(cfg: Config, ci: Cipher, s: State) {
    Inv(cfg, s) && TripsOk(cfg, ci, s) && forall i | 0 <= i < |s.ws| :: FaultOk(s.ws[i])
  }

  lemma TracedInit(cfg: Config, ci: Cipher, s: State)
    requires Init(cfg, s)
    ensures Traced(cfg, ci, s)
  {
    InvInit(cfg, s);
    TripsOkInit(cfg, ci, s);
    FaultsInit(cfg, s);
  }

  lemma FaultsWork(cfg: Config, ci: Cipher, s: State, i: nat, c: Choice)
    requires Traced(cfg, ci, s) && Enabled(cfg, s, Work(i, c))
    ensures var t := Apply(cfg, ci, s, Work(i, c)); forall j | 0 <= j < |t.ws| :: FaultOk(t.ws[j])
  {
    WorkerMoves(cfg, ci, s, i, c);
    SoundHere(cfg, ci, s, i);
    FaultStep(cfg, ci, s.g, s.ws[i], c);
    FaultsMove(s, Apply(cfg, ci, s, Work(i, c)), i, WorkerStep(cfg, ci, s.g, s.ws[i], c).notify);
  }

  lemma TracedStep(cfg: Config, ci: Cipher, s: State, l: Label)
    requires Traced(cfg, ci, s) && Enabled(cfg, s, l)
    ensures Traced(cfg, ci, Apply(cfg, ci, s, l))
  {
    InvStep(cfg, ci, s, l);
    match l
    case Work(i, c) =>
      TripsOkWork(cfg, ci, s, i, c);
      FaultsWork(cfg, ci, s, i, c);
    case Main(c) =>
      TripsOkMain(cfg, ci, s, c);
      FaultsMain(cfg, s, c);
  }

  lemma {:induction false} TracedAfter(cfg: Config, ci: Cipher, s: State, run: seq<Label>)
    requires Traced(cfg, ci, s) && Runs(cfg, ci, s, run)
    ensures Traced(cfg, ci, After(cfg, ci, s, run))
    decreases |run|
  {
    if run != [] {
      TracedStep(cfg, ci, s, run[0]);
      TracedAfter(cfg, ci, Apply(cfg, ci, s, run[0]), run[1..]);
    }
  }

  // ------------------------------------------------- with a correct cipher

  /** With a cipher that decrypts what it encrypts no mismatch is found. */
  predicate Safe(cfg: Config, ci: Cipher, s: State) {
    Traced(cfg, ci, s) && !s.g.crashed
  }

  lemma SafeInit(cfg: Config, ci: Cipher, s: State)
    requires Init(cfg, s)
    ensures Safe(cfg, ci, s)
  {
    TracedInit(cfg, ci, s);
  }

  lemma MainRunsOn(cfg: Config, s: State, c: Choice)
    requires MainReady(cfg, s)
    ensures MainStep(cfg, s, c).g.crashed == s.g.crashed
  {}

  lemma SafeStep(cfg: Config, ci: Cipher, s: State, l: Label)
    requires Correct(ci) && Safe(cfg, ci, s) && Enabled(cfg, s, l)
    ensures Safe(cfg, ci, Apply(cfg, ci, s, l))
  {
    TracedStep(cfg, ci, s, l);
    match l
    case Work(i, c) =>
      assert TripOk(cfg, ci, s.g.pipes, s.ws[i]);
      CorrectMatches(cfg, ci, s.g.pipes, s.ws[i]);
      CrashStep(cfg, ci, s.g, s.ws[i], c);
    case Main(c) => MainRunsOn(cfg, s, c);
  }

  lemma {:induction false} SafeAfter(cfg: Config, ci: Cipher, s: State, run: seq<Label>)
    requires Correct(ci) && Safe(cfg, ci, s) && Runs(cfg, ci, s, run)
    ensures Safe(cfg, ci, After(cfg, ci, s, run))
    decreases |run|
  {
    if run != [] {
      SafeStep(cfg, ci, s, run[0]);
      SafeAfter(cfg, ci, Apply(cfg, ci, s, run[0]), run[1..]);
    }
  }

  // -------------------------------------------------------- reachable states

  lemma InvReached(cfg: Config, ci: Cipher, t: State)
    requires Reachable(cfg, ci, t)
    ensures Inv(cfg, t)
  {
    var s, run :| Init(cfg, s) && Runs(cfg, ci, s, run) && After(cfg, ci, s, run) == t;
    InvInit(cfg, s);
    InvAfter(cfg, ci, s, run);
  }

  lemma SafeReached(cfg: Config, ci: Cipher, t: State)
    requires Correct(ci) && Reachable(cfg, ci, t)
    ensures Safe(cfg, ci, t)
  {
    var s, run :| Init(cfg, s) && Runs(cfg, ci, s, run) && After(cfg, ci, s, run) == t;
    SafeInit(cfg, ci, s);
    SafeAfter(cfg, ci, s, run);
  }

  lemma TracedReached(cfg: Config, ci: Cipher, t: State)
    requires Reachable(cfg, ci, t)
    ensures Traced(cfg, ci, t)
  {
    var s, run :| Init(cfg, s) && Runs(cfg, ci, s, run) && After(cfg, ci, s, run) == t;
    TracedInit(cfg, ci, s);
    TracedAfter(cfg, ci, s, run);
  }
}
