/** Every run ends (loop/worker.py:228-242, loop/state.py:91-112, loop/main.py:748-754): with
    an iteration budget, or once a stop is requested, only finitely many steps are left,
    however often threads wake, re-check and wait again.  The measure is lexicographic:
    the program work left, then the threads awake at a lock. */
module Termination {
  import opened Pipelines
  import opened Sums
  import opened Protocol
  import opened LockSafety
  import opened PipeSafety
  import opened RoundTrip
  import opened Phases
  import opened Accounts

  /** The run has a budget or has been asked to stop. */
  predicate Bounded(cfg: Config, stop: bool) {
    cfg.iterations > 0 || stop
  }

  /** Iterations a worker at the head of its loop can still start at number `it`. */
  function Left(cfg: Config, stop: bool, it: nat): nat {
    if stop || it >= cfg.iterations then 0 else cfg.iterations - it
  }

  const ROUND: nat := 52

  /** Steps to the head of the loop, or out of it, from inside an iteration. */
  function Rank(pc: Pc): nat {
    match pc
    case NotStarted => 44
    case Refill => 43
    case ReadLock(_) => 42
    case Dispatch => 41
    case Encrypt => 40
    case Redispatch => 39
    case Decrypt => 38
    case Compare => 37
    case CountIter => 36
    case CountEnc => 35
    case CountDec => 34
    case ReportRead => 34
    case ReleaseRead => 33
    case RekeyCheck => 32
    case WriteLock(op, _) => if op == Rekey then 31 else 21
    case CallRekey(which) => if which == Stream then 30 else 28
    case RetainBlob(which) => if which == Stream then 29 else 27
    case CallLoad(which) => if which == Stream then 20 else 17
    case CallFree(which) => if which == Stream then 19 else 16
    case SwapIn(which) => if which == Stream then 18 else 15
    case CountOp(op) => if op == Rekey then 26 else 14
    case StoreCount(op) => if op == Rekey then 25 else 13
    case ReportWrite(op) => if op == Rekey then 25 else 13
    case ReleaseWrite(op) => if op == Rekey then 24 else 12
    case Log(op) => if op == Rekey then 23 else 11
    case CycleCheck => 22
    case Escape => 10
    case ArriveWarm => 9
    case InWarm => 8
    case ArriveRelease => 7
    case InRelease => 6
    case Gate => 5
    case Advance => 4
    case Head => 3
    case StopCheck => 2
    case Exit => 1
    case Done => 0
  }

  /** The iterations still ahead of the present program point. */
  function Rounds(cfg: Config, stop: bool, w: Worker): nat {
    if w.pc == Exit || w.pc == Done then 0
    else if w.pc == Head || w.pc == StopCheck then Left(cfg, stop, w.it)
    else Left(cfg, stop, w.it + 1)
  }

  function WorkLeft(cfg: Config, stop: bool, w: Worker): nat {
    Rounds(cfg, stop, w) * ROUND + Rank(w.pc)
  }

  /** Awake at a lock: about to look at its predicate. */
  function Awake(w: Worker): nat {
    match w.pc
    case ReadLock(wait) => if wait == Parked then 0 else 1
    case WriteLock(_, wait) => if wait == Parked then 0 else 1
    case _ => 0
  }

  // --------------------------------------------------------- steps, locally

  /** Work falls; or the lock was taken from under a thread that was awake, which parks. */
  predicate Falls(cfg: Config, stop: bool, w: Worker, stop': bool, w': Worker) {
    || WorkLeft(cfg, stop', w') < WorkLeft(cfg, stop, w)
    || (WorkLeft(cfg, stop', w') == WorkLeft(cfg, stop, w) && Awake(w') < Awake(w))
  }

  lemma StopOnlyHelps(cfg: Config, w: Worker)
    ensures WorkLeft(cfg, true, w) <= WorkLeft(cfg, false, w)
    ensures WorkLeft(cfg, true, Wake(w)) <= WorkLeft(cfg, false, w)
    ensures forall stop :: WorkLeft(cfg, stop, Wake(w)) == WorkLeft(cfg, stop, w)
  {}

  /** The program point comes closer to the end of the iteration, or the thread parks. */
  predicate RankFalls(w: Worker, w': Worker, notify: bool) {
    || Rank(w'.pc) < Rank(w.pc)
    || (Rank(w'.pc) == Rank(w.pc) && Awake(w') < Awake(w) && !notify)
  }

  lemma RankIterate(cfg: Config, ci: Cipher, g: Shared, w: Worker, c: Choice)
    requires Iterating(w.pc) && Ready(cfg, g, w) && |c.os| == |w.job.plaintext|
    requires !IterateStep(cfg, ci, g, w, c).g.crashed
    ensures var st := IterateStep(cfg, ci, g, w, c);
            RankFalls(w, st.w, st.notify) && (g.stop ==> st.g.stop)
  {}

  /** A mutation in progress has a Pipeline to work on. */
  predicate Backed(p: Pipes) {
    p.stage.Rekeyed? || p.stage.Loaded? || p.stage.Freed? ==> SlotOf(p, p.stage.which).Some?
  }

  lemma RankRekey(cfg: Config, g: Shared, w: Worker, c: Choice)
    requires w.pc.CallRekey? || w.pc.RetainBlob?
    requires Backed(g.pipes) && StageFits(g.pipes.stage, w.pc)
    ensures var st := MaintainStep(cfg, g, w, c);
            RankFalls(w, st.w, st.notify) && (g.stop ==> st.g.stop)
  {}

  lemma RankLoad(cfg: Config, g: Shared, w: Worker, c: Choice)
    requires w.pc.CallLoad?
    ensures var st := MaintainStep(cfg, g, w, c);
            RankFalls(w, st.w, st.notify) && (g.stop ==> st.g.stop)
  {}

  lemma RankReopen(cfg: Config, g: Shared, w: Worker, c: Choice)
    requires w.pc.CallLoad? || w.pc.CallFree? || w.pc.SwapIn?
    requires Backed(g.pipes) && StageFits(g.pipes.stage, w.pc)
    ensures var st := MaintainStep(cfg, g, w, c);
            RankFalls(w, st.w, st.notify) && (g.stop ==> st.g.stop)
  {
    if w.pc.CallLoad? {
      RankLoad(cfg, g, w, c);
    }
  }

  lemma RankRelease(cfg: Config, g: Shared, w: Worker, c: Choice)
    requires w.pc.ReleaseWrite?
    ensures var st := MaintainStep(cfg, g, w, c);
            RankFalls(w, st.w, st.notify) && (g.stop ==> st.g.stop)
  {}

  lemma RankTail(cfg: Config, g: Shared, w: Worker, c: Choice)
    requires w.pc.CountOp? || w.pc.StoreCount? || w.pc.ReportWrite? || w.pc.ReleaseWrite?
    ensures var st := MaintainStep(cfg, g, w, c);
            RankFalls(w, st.w, st.notify) && (g.stop ==> st.g.stop)
  {
    if w.pc.ReleaseWrite? {
      RankRelease(cfg, g, w, c);
    }
  }

  lemma RankMaintain(cfg: Config, g: Shared, w: Worker, c: Choice)
    requires Maintaining(w.pc) && !InWrite(w.pc) && Ready(cfg, g, w)
    ensures var st := MaintainStep(cfg, g, w, c);
            RankFalls(w, st.w, st.notify) && (g.stop ==> st.g.stop)
  {}

  lemma RoundsStay(cfg: Config, stop: bool, w: Worker, stop': bool, w': Worker, notify: bool)
    requires Iterating(w.pc) || Maintaining(w.pc)
    requires w'.it == w.it && w'.pc != Head && w'.pc != StopCheck && (stop ==> stop')
    requires RankFalls(w, w', notify)
    ensures Falls(cfg, stop, w, stop', w')
    ensures notify ==> WorkLeft(cfg, stop', w') < WorkLeft(cfg, stop, w)
  {
    assert Rounds(cfg, stop', w') <= Rounds(cfg, stop, w);
    if Rounds(cfg, stop', w') == Rounds(cfg, stop, w) {
    } else {
      assert Rank(w'.pc) <= 44;
    }
  }

  lemma FallsIterate(cfg: Config, ci: Cipher, g: Shared, w: Worker, c: Choice)
    requires Iterating(w.pc) && Ready(cfg, g, w) && |c.os| == |w.job.plaintext|
    requires !IterateStep(cfg, ci, g, w, c).g.crashed
    ensures var st := IterateStep(cfg, ci, g, w, c);
            && Falls(cfg, g.stop, w, st.g.stop, st.w)
            && (st.notify ==> WorkLeft(cfg, st.g.stop, st.w) < WorkLeft(cfg, g.stop, w))
            && (g.stop ==> st.g.stop)
  {
    IterateTargets(cfg, ci, g, w, c);
    RankIterate(cfg, ci, g, w, c);
    var st := IterateStep(cfg, ci, g, w, c);
    RoundsStay(cfg, g.stop, w, st.g.stop, st.w, st.notify);
  }

  lemma FallsMaintain(cfg: Config, g: Shared, w: Worker, c: Choice)
    requires Maintaining(w.pc) && Ready(cfg, g, w) && Whole(cfg, g.pipes)
    requires InWrite(w.pc) ==> StageFits(g.pipes.stage, w.pc)
    ensures var st := MaintainStep(cfg, g, w, c);
            && Falls(cfg, g.stop, w, st.g.stop, st.w)
            && (st.notify ==> WorkLeft(cfg, st.g.stop, st.w) < WorkLeft(cfg, g.stop, w))
            && (g.stop ==> st.g.stop)
  {
    MaintainTargets(cfg, g, w, c);
    if !InWrite(w.pc) {
      RankMaintain(cfg, g, w, c);
    } else if w.pc.CallRekey? || w.pc.RetainBlob? {
      RankRekey(cfg, g, w, c);
    } else if w.pc.CallLoad? || w.pc.CallFree? || w.pc.SwapIn? {
      RankReopen(cfg, g, w, c);
    } else {
      RankTail(cfg, g, w, c);
    }
    var st := MaintainStep(cfg, g, w, c);
    RoundsStay(cfg, g.stop, w, st.g.stop, st.w, st.notify);
  }

  lemma FallsBarrier(cfg: Config, g: Shared, w: Worker, c: Choice)
    requires !Iterating(w.pc) && !Maintaining(w.pc) && Ready(cfg, g, w)
    requires w.pc != Head && w.pc != StopCheck && w.pc != Advance && (w.pc == Gate ==> w.it == 0)
    ensures var st := LoopStep(cfg, g, w, c);
            && WorkLeft(cfg, st.g.stop, st.w) < WorkLeft(cfg, g.stop, w) && !st.notify
            && (g.stop ==> st.g.stop)
  {}

  lemma FallsHead(cfg: Config, g: Shared, w: Worker, c: Choice)
    requires w.pc == Head || w.pc == StopCheck || w.pc == Advance
    requires Bounded(cfg, g.stop) && BudgetOk(cfg, g.stop, w)
    ensures var st := LoopStep(cfg, g, w, c);
            && WorkLeft(cfg, st.g.stop, st.w) < WorkLeft(cfg, g.stop, w) && !st.notify
            && (g.stop ==> st.g.stop)
  {}

  // -------------------------------------------------------- steps, globally

  function MainWork(cfg: Config, m: LauncherPc): nat {
    match m
    case Launch(k) => if k <= cfg.workers then 20 + cfg.workers - k else 20
    case AtWarm => 12
    case WaitWarm => 11
    case Baselines => 10
    case OpenGate => 9
    case AtRelease => 8
    case WaitRelease => 7
    case Waiting => 6
    case Joining => 5
    case Summary => 4
    case FreePipe(which) => if which == Stream then 3 else 2
    case Finished => 0
  }

  function Share(cfg: Config, stop: bool): Worker -> nat {
    w => WorkLeft(cfg, stop, w)
  }

  /** Program work left in the run. */
  function RunWork(cfg: Config, s: State): nat {
    Sum(s.ws, Share(cfg, s.g.stop)) + MainWork(cfg, s.g.main) + (if s.g.crashed then 0 else 1)
  }

  function Ranked(work: nat, n: nat, awake: nat): nat {
    work * (n + 1) + awake
  }

  /** At most one thread per worker is awake, so the pair counts as one number. */
  function Measure(cfg: Config, s: State): nat {
    Ranked(RunWork(cfg, s), |s.ws|, Sum(s.ws, Awake))
  }

  lemma AwakeBound(ws: seq<Worker>)
    ensures Sum(ws, Awake) <= |ws|
  {
    SumBound(ws, Awake, 1);
  }

  lemma LexicographicFall(work: nat, awake: nat, work': nat, awake': nat, n: nat)
    requires awake <= n && awake' <= n
    requires work' < work || (work' == work && awake' < awake)
    ensures Ranked(work', n, awake') < Ranked(work, n, awake)
  {
    if work' < work {
      assert (work' + 1) * (n + 1) <= work * (n + 1);
    }
  }

  predicate MeasurePre(cfg: Config, s: State) {
    && LockOk(s) && PipesOk(cfg, s) && PhaseOk(cfg, s)
    && Bounded(cfg, s.g.stop)
    && forall i | 0 <= i < |s.ws| :: BudgetOk(cfg, s.g.stop, s.ws[i])
  }

  /** One worker's step, seen from the measure. */
  predicate Lightens(cfg: Config, g: Shared, w: Worker, g': Shared, w': Worker, notify: bool) {
    && Falls(cfg, g.stop, w, g'.stop, w')
    && (notify ==> WorkLeft(cfg, g'.stop, w') < WorkLeft(cfg, g.stop, w))
    && (g.stop ==> g'.stop) && g'.main == g.main
  }

  lemma LightensStep(cfg: Config, ci: Cipher, s: State, i: nat, c: Choice)
    requires MeasurePre(cfg, s) && Enabled(cfg, s, Work(i, c))
    requires !WorkerStep(cfg, ci, s.g, s.ws[i], c).g.crashed
    ensures var st := WorkerStep(cfg, ci, s.g, s.ws[i], c);
            Lightens(cfg, s.g, s.ws[i], st.g, st.w, st.notify)
  {
    var w := s.ws[i];
    MainUntouched(cfg, ci, s.g, w, c);
    if Iterating(w.pc) {
      FallsIterate(cfg, ci, s.g, w, c);
    } else if Maintaining(w.pc) {
      FallsMaintain(cfg, s.g, w, c);
    } else {
      if w.pc == Head || w.pc == StopCheck || w.pc == Advance {
        FallsHead(cfg, s.g, w, c);
      } else {
        FallsBarrier(cfg, s.g, w, c);
      }
    }
  }

  lemma MeasureMove(cfg: Config, s: State, t: State, i: nat, notify: bool)
    requires Moved(s, t, i, notify) && !s.g.crashed && !t.g.crashed
    requires Lightens(cfg, s.g, s.ws[i], t.g, t.ws[i], notify)
    ensures Measure(cfg, t) < Measure(cfg, s)
  {
    var f, f' := Share(cfg, s.g.stop), Share(cfg, t.g.stop);
    AwakeBound(s.ws);
    AwakeBound(t.ws);
    forall j | 0 <= j < |s.ws| && j != i
      ensures f'(t.ws[j]) <= f(s.ws[j])
    {
      StopOnlyHelps(cfg, s.ws[j]);
    }
    if WorkLeft(cfg, t.g.stop, t.ws[i]) < WorkLeft(cfg, s.g.stop, s.ws[i]) {
      SumFalls(t.ws, s.ws, f', f, i);
    } else {
      SumMonotone(t.ws, s.ws, f', f);
      SumUpdate(s.ws, Awake, i, t.ws[i]);
      assert t.ws == s.ws[i := t.ws[i]];
    }
    LexicographicFall(RunWork(cfg, s), Sum(s.ws, Awake), RunWork(cfg, t), Sum(t.ws, Awake), |s.ws|);
  }

  /** What the launcher's step does to the threads: it starts one, or none. */
  predicate Starts(s: State, t: State) {
    && |t.ws| == |s.ws|
    && forall j | 0 <= j < |s.ws| ::
         t.ws[j] == s.ws[j] || (s.ws[j].pc == NotStarted && t.ws[j] == s.ws[j].(pc := Refill))
  }

  lemma MainStarts(cfg: Config, s: State, c: Choice)
    requires PhaseOk(cfg, s) && MainReady(cfg, s)
    ensures Starts(s, MainStep(cfg, s, c))
  {}

  lemma MainLightens(cfg: Config, s: State, c: Choice)
    requires |s.ws| == cfg.workers && MainReady(cfg, s)
    ensures var g := MainStep(cfg, s, c).g;
            && g.crashed == s.g.crashed && (s.g.stop ==> g.stop)
            && MainWork(cfg, g.main) <= MainWork(cfg, s.g.main)
            && (!(s.g.main == Waiting && s.g.active > 0) ==> MainWork(cfg, g.main) < MainWork(cfg, s.g.main))
  {}

  lemma StartedShare(cfg: Config, stop: bool, stop': bool, w: Worker, w': Worker)
    requires w' == w || (w.pc == NotStarted && w' == w.(pc := Refill))
    requires stop ==> stop'
    ensures WorkLeft(cfg, stop', w') <= WorkLeft(cfg, stop, w) && Awake(w') == Awake(w)
  {}

  lemma SharesFall(cfg: Config, s: State, t: State)
    requires Starts(s, t) && (s.g.stop ==> t.g.stop)
    ensures Sum(t.ws, Share(cfg, t.g.stop)) <= Sum(s.ws, Share(cfg, s.g.stop))
    ensures Sum(t.ws, Awake) == Sum(s.ws, Awake)
  {
    var f, f' := Share(cfg, s.g.stop), Share(cfg, t.g.stop);
    forall j | 0 <= j < |s.ws|
      ensures f'(t.ws[j]) <= f(s.ws[j]) && Awake(t.ws[j]) == Awake(s.ws[j])
    {
      StartedShare(cfg, s.g.stop, t.g.stop, s.ws[j], t.ws[j]);
    }
    SumMonotone(t.ws, s.ws, f', f);
    SumSame(t.ws, s.ws, Awake);
  }

  /** What the launcher's step does to the work left. */
  predicate Lowers(cfg: Config, s: State, t: State) {
    && t.g.crashed == s.g.crashed && (s.g.stop ==> t.g.stop)
    && MainWork(cfg, t.g.main) <= MainWork(cfg, s.g.main)
  }

  lemma MeasureFrom(cfg: Config, s: State, t: State)
    requires Starts(s, t) && Lowers(cfg, s, t)
    ensures Measure(cfg, t) <= Measure(cfg, s)
    ensures MainWork(cfg, t.g.main) < MainWork(cfg, s.g.main) ==> Measure(cfg, t) < Measure(cfg, s)
  {
    SharesFall(cfg, s, t);
    AwakeBound(s.ws);
    if RunWork(cfg, t) < RunWork(cfg, s) {
      LexicographicFall(RunWork(cfg, s), Sum(s.ws, Awake), RunWork(cfg, t), Sum(t.ws, Awake), |s.ws|);
    }
  }

  /** The launcher's polling leaves the measure as it is or lowers it; its other steps
      lower it. */
  lemma MeasureMain(cfg: Config, ci: Cipher, s: State, c: Choice)
    requires PhaseOk(cfg, s) && Enabled(cfg, s, Main(c))
    ensures var t := Apply(cfg, ci, s, Main(c));
            Measure(cfg, t) <= Measure(cfg, s) && (!Polls(s, Main(c)) ==> Measure(cfg, t) < Measure(cfg, s))
  {
    MainStarts(cfg, s, c);
    MainLightens(cfg, s, c);
    MeasureFrom(cfg, s, MainStep(cfg, s, c));
  }

  /** A step that ends the process in a mismatch is the last one. */
  lemma MeasureCrash(cfg: Config, ci: Cipher, s: State, i: nat, c: Choice)
    requires Enabled(cfg, s, Work(i, c)) && Apply(cfg, ci, s, Work(i, c)).g.crashed
    ensures Measure(cfg, Apply(cfg, ci, s, Work(i, c))) < Measure(cfg, s)
  {
    var t := Apply(cfg, ci, s, Work(i, c));
    CrashStep(cfg, ci, s.g, s.ws[i], c);
    assert t.ws == s.ws && t.g == s.g.(crashed := true);
    assert RunWork(cfg, t) + 1 == RunWork(cfg, s);
    AwakeBound(s.ws);
    LexicographicFall(RunWork(cfg, s), Sum(s.ws, Awake), RunWork(cfg, t), Sum(t.ws, Awake), |s.ws|);
  }

  /** Every step but the launcher's polling makes the measure fall, and polling does not
      raise it. */
  lemma MeasureStep(cfg: Config, ci: Cipher, s: State, l: Label)
    requires MeasurePre(cfg, s) && Enabled(cfg, s, l)
    ensures var t := Apply(cfg, ci, s, l);
            Measure(cfg, t) <= Measure(cfg, s) && (!Polls(s, l) ==> Measure(cfg, t) < Measure(cfg, s))
  {
    match l
    case Main(c) => MeasureMain(cfg, ci, s, c);
    case Work(i, c) =>
      var t := Apply(cfg, ci, s, l);
      if t.g.crashed {
        MeasureCrash(cfg, ci, s, i, c);
      } else {
        WorkerMoves(cfg, ci, s, i, c);
        LightensStep(cfg, ci, s, i, c);
        MeasureMove(cfg, s, t, i, WorkerStep(cfg, ci, s.g, s.ws[i], c).notify);
      }
  }
}
