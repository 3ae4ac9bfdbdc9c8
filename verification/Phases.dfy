/** The two barriers, the count of running workers and the clock (loop/main.py:714-757,
    loop/worker.py:218-255). */
module Phases {
  import opened Sums
  import opened Protocol
  import opened LockSafety
  import opened PipeSafety

  /** Not yet arrived at the warmup barrier. */
  predicate WarmingUp(w: Worker) {
    w.pc == NotStarted || (w.it == 0 && (Iterating(w.pc) || w.pc == Escape || w.pc == ArriveWarm))
  }

  predicate BetweenBarriers(w: Worker) { w.pc == InWarm || w.pc == ArriveRelease }

  /** Arrived at the release barrier, or beyond it. */
  predicate AtOrPastRelease(w: Worker) { !WarmingUp(w) && !BetweenBarriers(w) }

  predicate PastRelease(w: Worker) { AtOrPastRelease(w) && w.pc != InRelease }

  function Warmed(w: Worker): nat { if WarmingUp(w) then 0 else 1 }

  function Opened(w: Worker): nat { if AtOrPastRelease(w) then 1 else 0 }

  function Running(w: Worker): nat { if w.pc == Done then 0 else 1 }

  predicate MainBeforeWarm(m: LauncherPc) { m.Launch? || m.AtWarm? }

  predicate MainBeforeRelease(m: LauncherPc) {
    MainBeforeWarm(m) || m.WaitWarm? || m.Baselines? || m.OpenGate? || m.AtRelease?
  }

  function MainWarmed(m: LauncherPc): nat { if MainBeforeWarm(m) then 0 else 1 }

  function MainReleased(m: LauncherPc): nat { if MainBeforeRelease(m) then 0 else 1 }

  /** Where a worker may be, given its iteration number and who has arrived. */
  predicate WorkerPhase(cfg: Config, gates: Barriers, w: Worker) {
    && (w.it == 0 ==>
          WarmingUp(w) || BetweenBarriers(w) || w.pc == InRelease || w.pc == Gate || w.pc == Exit || w.pc == Done)
    && (w.it > 0 ==> !WarmingUp(w) && w.pc != ArriveWarm && !BetweenBarriers(w) && w.pc != InRelease && w.pc != Gate)
    && (AtOrPastRelease(w) || w.pc == ArriveRelease ==> gates.warm >= cfg.workers + 1)
    && (PastRelease(w) ==> gates.release >= cfg.workers + 1)
  }

  predicate LauncherPhase(cfg: Config, s: State) {
    var m := s.g.main;
    && (m.Launch? ==>
          && m.next <= |s.ws|
          && (forall i | 0 <= i < |s.ws| :: s.ws[i].pc == NotStarted <==> m.next <= i))
    && (!m.Launch? ==> forall i | 0 <= i < |s.ws| :: s.ws[i].pc != NotStarted)
    && (!MainBeforeWarm(m) && !m.WaitWarm? ==> s.g.gates.warm >= cfg.workers + 1)
    && (m.Waiting? || m.Joining? || Closing(m) ==> s.g.gates.release >= cfg.workers + 1)
    && (m.Joining? || Closing(m) ==> s.g.active == 0)
  }

  predicate PhaseOk(cfg: Config, s: State) {
    && |s.ws| == cfg.workers
    && CountsOk(s)
    && InstantsOk(s.g)
    && (forall i | 0 <= i < |s.ws| :: WorkerPhase(cfg, s.g.gates, s.ws[i]))
    && LauncherPhase(cfg, s)
  }

  lemma PhaseOkInit(cfg: Config, s: State)
    requires Built(cfg, s)
    ensures PhaseOk(cfg, s)
  {
    SumConstant(s.ws, Warmed, 0);
    SumConstant(s.ws, Opened, 0);
    SumConstant(s.ws, Running, 1);
  }

  // --------------------------------------------------------- steps, locally

  predicate PhaseMoves(cfg: Config, g: Shared, w: Worker, g': Shared, w': Worker, now: nat) {
    && g'.gates.warm + Warmed(w) == g.gates.warm + Warmed(w')
    && g'.gates.release + Opened(w) == g.gates.release + Opened(w')
    && g'.active + Running(w) == g.active + Running(w') && g'.active <= g.active
    && WorkerPhase(cfg, g'.gates, w')
    && g'.gates.warm >= g.gates.warm && g'.gates.release >= g.gates.release
    && w'.pc != NotStarted
    && g'.main == g.main
    && g'.time.start == g.time.start
    && (g'.active == g.active ==> g'.time == g.time)
    && (g'.active != g.active && g'.active != 0 ==> g'.time == g.time)
    && (g'.active != g.active && g'.active == 0 ==>
          g'.time == g.time.(finish := now, clock := now, stamps := g.time.stamps + 1))
  }

  /** What iterate and the maintenance leave to worker_main. */
  predicate LoopUntouched(g: Shared, w: Worker, g': Shared, w': Worker) {
    g'.gates == g.gates && g'.active == g.active && g'.time == g.time && g'.main == g.main && w'.it == w.it
  }

  lemma IterateTargets(cfg: Config, ci: Cipher, g: Shared, w: Worker, c: Choice)
    requires Iterating(w.pc) && Ready(cfg, g, w) && |c.os| == |w.job.plaintext|
    ensures var st := IterateStep(cfg, ci, g, w, c);
            && LoopUntouched(g, w, st.g, st.w)
            && (Iterating(st.w.pc) || st.w.pc == Escape || st.w.pc == (if w.it == 0 then ArriveWarm else RekeyCheck)
                || (w.it > 0 && st.w.pc == Exit))
  {}

  lemma WriterTargets(cfg: Config, g: Shared, w: Worker, c: Choice)
    requires InWrite(w.pc)
    ensures var st := MaintainStep(cfg, g, w, c);
            && LoopUntouched(g, w, st.g, st.w)
            && (Maintaining(st.w.pc) || st.w.pc == Escape || st.w.pc == Exit)
  {}

  lemma MaintainTargets(cfg: Config, g: Shared, w: Worker, c: Choice)
    requires Maintaining(w.pc)
    ensures var st := MaintainStep(cfg, g, w, c);
            && LoopUntouched(g, w, st.g, st.w)
            && (Maintaining(st.w.pc) || st.w.pc == Escape || st.w.pc == Advance || st.w.pc == Exit)
  {
    if InWrite(w.pc) {
      WriterTargets(cfg, g, w, c);
    }
  }

  lemma PhaseStepIterate(cfg: Config, ci: Cipher, g: Shared, w: Worker, c: Choice)
    requires Iterating(w.pc) && Ready(cfg, g, w) && |c.os| == |w.job.plaintext| && WorkerPhase(cfg, g.gates, w)
    ensures var st := IterateStep(cfg, ci, g, w, c); PhaseMoves(cfg, g, w, st.g, st.w, c.now)
  {
    IterateTargets(cfg, ci, g, w, c);
  }

  lemma PhaseStepMaintain(cfg: Config, g: Shared, w: Worker, c: Choice)
    requires Maintaining(w.pc) && Ready(cfg, g, w) && WorkerPhase(cfg, g.gates, w)
    ensures var st := MaintainStep(cfg, g, w, c); PhaseMoves(cfg, g, w, st.g, st.w, c.now)
  {
    MaintainTargets(cfg, g, w, c);
  }

  /** The warmup and the two barriers. */
  predicate AtBarrier(pc: Pc) {
    pc == Escape || pc == ArriveWarm || pc == InWarm || pc == ArriveRelease || pc == InRelease
  }

  lemma PhaseStepBarrier(cfg: Config, g: Shared, w: Worker, c: Choice)
    requires AtBarrier(w.pc) && Ready(cfg, g, w) && WorkerPhase(cfg, g.gates, w)
    ensures var st := LoopStep(cfg, g, w, c); PhaseMoves(cfg, g, w, st.g, st.w, c.now)
  {}

  lemma PhaseStepLoop(cfg: Config, g: Shared, w: Worker, c: Choice)
    requires !Iterating(w.pc) && !Maintaining(w.pc) && Ready(cfg, g, w) && WorkerPhase(cfg, g.gates, w)
    ensures var st := LoopStep(cfg, g, w, c); PhaseMoves(cfg, g, w, st.g, st.w, c.now)
  {
    if AtBarrier(w.pc) {
      PhaseStepBarrier(cfg, g, w, c);
    }
  }

  lemma PhaseStep(cfg: Config, ci: Cipher, g: Shared, w: Worker, c: Choice)
    requires Ready(cfg, g, w) && |c.os| == |w.job.plaintext| && WorkerPhase(cfg, g.gates, w)
    ensures var st := WorkerStep(cfg, ci, g, w, c); PhaseMoves(cfg, g, w, st.g, st.w, c.now)
  {
    if Iterating(w.pc) {
      PhaseStepIterate(cfg, ci, g, w, c);
    } else if Maintaining(w.pc) {
      PhaseStepMaintain(cfg, g, w, c);
    } else {
      PhaseStepLoop(cfg, g, w, c);
    }
  }

  // -------------------------------------------------------- steps, globally

  predicate CountsOk(s: State) {
    && s.g.gates.warm == Sum(s.ws, Warmed) + MainWarmed(s.g.main)
    && s.g.gates.release == Sum(s.ws, Opened) + MainReleased(s.g.main)
    && s.g.active == Sum(s.ws, Running)
  }

  predicate InstantsOk(g: Shared) {
    && g.time.stamps == (if g.active == 0 then 1 else 0)
    && g.time.start <= g.time.finish <= g.time.clock
  }

  lemma PhasesSteady()
    ensures Steady(Warmed) && Steady(Opened) && Steady(Running)
  {}

  lemma CountsMove(cfg: Config, s: State, t: State, i: nat, notify: bool, now: nat)
    requires CountsOk(s) && Moved(s, t, i, notify) && PhaseMoves(cfg, s.g, s.ws[i], t.g, t.ws[i], now)
    ensures CountsOk(t)
  {
    PhasesSteady();
    SumAfterMove(s, t, i, notify, Warmed);
    SumAfterMove(s, t, i, notify, Opened);
    SumAfterMove(s, t, i, notify, Running);
  }

  lemma InstantsMove(cfg: Config, s: State, t: State, i: nat, now: nat)
    requires CountsOk(s) && InstantsOk(s.g) && i < |s.ws| == |t.ws| && now >= s.g.time.clock
    requires PhaseMoves(cfg, s.g, s.ws[i], t.g, t.ws[i], now)
    ensures InstantsOk(t.g)
  {
    SumAtLeast(s.ws, Running, i);
  }

  lemma WakeKeepsPhase(cfg: Config, gates: Barriers, gates': Barriers, w: Worker)
    requires WorkerPhase(cfg, gates, w) && gates'.warm >= gates.warm && gates'.release >= gates.release
    ensures WorkerPhase(cfg, gates', w) && WorkerPhase(cfg, gates', Wake(w))
    ensures Wake(w).pc == NotStarted <==> w.pc == NotStarted
  {}

  lemma PhaseOkMove(cfg: Config, s: State, t: State, i: nat, notify: bool, now: nat)
    requires PhaseOk(cfg, s) && Moved(s, t, i, notify) && s.ws[i].pc != NotStarted
    requires now >= s.g.time.clock
    requires PhaseMoves(cfg, s.g, s.ws[i], t.g, t.ws[i], now)
    ensures PhaseOk(cfg, t)
  {
    CountsMove(cfg, s, t, i, notify, now);
    InstantsMove(cfg, s, t, i, now);
    forall j | 0 <= j < |t.ws|
      ensures WorkerPhase(cfg, t.g.gates, t.ws[j])
      ensures t.ws[j].pc == NotStarted <==> s.ws[j].pc == NotStarted
    {
      WakeKeepsPhase(cfg, s.g.gates, t.g.gates, s.ws[j]);
    }
  }

  lemma PhaseOkWork(cfg: Config, ci: Cipher, s: State, i: nat, c: Choice)
    requires PhaseOk(cfg, s) && Enabled(cfg, s, Work(i, c))
    ensures PhaseOk(cfg, Apply(cfg, ci, s, Work(i, c)))
  {
    WorkerMoves(cfg, ci, s, i, c);
    PhaseStep(cfg, ci, s.g, s.ws[i], c);
    PhaseOkMove(cfg, s, Apply(cfg, ci, s, Work(i, c)), i, WorkerStep(cfg, ci, s.g, s.ws[i], c).notify, c.now);
  }

  /** One more thread is started. */
  predicate Launches(s: State, t: State) {
    && s.g.main.Launch? && s.g.main.next < |s.ws|
    && t.g == s.g.(main := Launch(s.g.main.next + 1))
    && t.ws == s.ws[s.g.main.next := s.ws[s.g.main.next].(pc := Refill)]
  }

  lemma LaunchKeepsCounts(s: State, t: State)
    requires Launches(s, t) && CountsOk(s) && s.ws[s.g.main.next].pc == NotStarted
    requires s.ws[s.g.main.next].it == 0
    ensures CountsOk(t)
  {
    var k := s.g.main.next;
    SumUpdate(s.ws, Warmed, k, t.ws[k]);
    SumUpdate(s.ws, Opened, k, t.ws[k]);
    SumUpdate(s.ws, Running, k, t.ws[k]);
  }

  lemma LaunchKeepsPhases(cfg: Config, s: State, t: State)
    requires Launches(s, t) && PhaseOk(cfg, s)
    ensures forall i | 0 <= i < |t.ws| :: WorkerPhase(cfg, t.g.gates, t.ws[i])
    ensures LauncherPhase(cfg, t)
  {
    forall i | 0 <= i < |t.ws|
      ensures WorkerPhase(cfg, t.g.gates, t.ws[i])
    {
      assert WorkerPhase(cfg, s.g.gates, s.ws[i]);
    }
  }

  lemma PhaseOkLaunch(cfg: Config, ci: Cipher, s: State, c: Choice)
    requires PhaseOk(cfg, s) && Enabled(cfg, s, Main(c)) && s.g.main.Launch? && s.g.main.next < |s.ws|
    ensures PhaseOk(cfg, Apply(cfg, ci, s, Main(c)))
  {
    var t := MainStep(cfg, s, c);
    assert WorkerPhase(cfg, s.g.gates, s.ws[s.g.main.next]);
    LaunchKeepsCounts(s, t);
    LaunchKeepsPhases(cfg, s, t);
  }

  /** The launcher's step, seen from the barriers and the clock. */
  predicate MainMoves(g: Shared, g': Shared, now: nat) {
    && g'.active == g.active
    && g'.gates.warm + MainWarmed(g.main) == g.gates.warm + MainWarmed(g'.main)
    && g'.gates.release + MainReleased(g.main) == g.gates.release + MainReleased(g'.main)
    && MainWarmed(g.main) <= MainWarmed(g'.main) && MainReleased(g.main) <= MainReleased(g'.main)
    && g'.time.stamps == g.time.stamps
    && (g'.time == g.time || g'.time == g.time.(clock := now)
        || g'.time == g.time.(start := now, finish := now, clock := now))
  }

  lemma MainMovesStep(cfg: Config, s: State, c: Choice)
    requires MainReady(cfg, s) && !(s.g.main.Launch? && s.g.main.next < |s.ws|)
    ensures MainMoves(s.g, MainStep(cfg, s, c).g, c.now) && MainStep(cfg, s, c).ws == s.ws
  {}

  lemma MainCounts(s: State, t: State, now: nat)
    requires CountsOk(s) && InstantsOk(s.g) && now >= s.g.time.clock
    requires t.ws == s.ws && MainMoves(s.g, t.g, now)
    ensures CountsOk(t) && InstantsOk(t.g)
    ensures t.g.gates.warm >= s.g.gates.warm && t.g.gates.release >= s.g.gates.release
  {}

  lemma MainLauncher(cfg: Config, ci: Cipher, s: State, c: Choice)
    requires LauncherPhase(cfg, s) && Enabled(cfg, s, Main(c))
    requires !(s.g.main.Launch? && s.g.main.next < |s.ws|)
    ensures LauncherPhase(cfg, Apply(cfg, ci, s, Main(c)))
  {}

  lemma PhaseOkMain(cfg: Config, ci: Cipher, s: State, c: Choice)
    requires PhaseOk(cfg, s) && Enabled(cfg, s, Main(c))
    ensures PhaseOk(cfg, Apply(cfg, ci, s, Main(c)))
  {
    if s.g.main.Launch? && s.g.main.next < |s.ws| {
      PhaseOkLaunch(cfg, ci, s, c);
    } else {
      MainMovesStep(cfg, s, c);
      MainCounts(s, Apply(cfg, ci, s, Main(c)), c.now);
      MainLauncher(cfg, ci, s, c);
    }
  }

  // --------------------------------------------------------------- consequences

  /** While the launcher takes its baselines every worker has finished iteration 0 and
      none has begun another. */
  lemma BaselinesAtRest(cfg: Config, s: State, i: nat)
    requires PhaseOk(cfg, s) && i < |s.ws|
    requires s.g.main.Baselines? || s.g.main.OpenGate? || s.g.main.AtRelease?
    ensures s.ws[i].it == 0 && (BetweenBarriers(s.ws[i]) || s.ws[i].pc == InRelease)
  {
    SumBound(s.ws, Warmed, 1);
    SumBound(s.ws, Opened, 1);
    SumFull(s.ws, Warmed, i);
  }

  /** The number of running workers is exact, so it is zero just when all have returned. */
  lemma ActiveExact(cfg: Config, s: State)
    requires PhaseOk(cfg, s)
    ensures s.g.active == 0 <==> AllDone(s.ws)
  {
    if s.g.active == 0 {
      forall i | 0 <= i < |s.ws|
        ensures s.ws[i].pc == Done
      {
        SumAtLeast(s.ws, Running, i);
      }
    } else {
      var i := SumWitness(s.ws, Running);
    }
  }
}
