/** The shared handles over every interleaving (loop/ops.py:20-104, loop/worker.py:118-201):
    mutation never meets a cipher call, the retained blob always loads to the live keying,
    and a round-trip is never torn. */
module PipeSafety {
  import opened RwLock
  import opened Pipelines
  import opened Sums
  import opened Protocol
  import opened LockSafety

  /** The progress of the mutation matches the program point of the writer. */
  predicate StageFits(stage: Stage, pc: Pc) {
    match pc
    case RetainBlob(w) => stage.Rekeyed? && stage.which == w
    case CallFree(w) => stage.Loaded? && stage.which == w
    case SwapIn(w) => stage.Freed? && stage.which == w
    case _ => stage.Idle?
  }

  /** The launcher has seen every worker return. */
  predicate Closing(main: LauncherPc) {
    main.Summary? || main.FreePipe? || main.Finished?
  }

  predicate LauncherStage(main: LauncherPc, stage: Stage) {
    && (main == FreePipe(Message) ==> stage == Closed(true, false))
    && (main == Finished ==> stage == Closed(true, true))
  }

  predicate NeededSlots(cfg: Config, p: Pipes) {
    && (p.stream.Some? <==> Needs(cfg, Stream))
    && (p.message.Some? <==> Needs(cfg, Message))
  }

  predicate Whole(cfg: Config, p: Pipes) {
    Consistent(p) && NeededSlots(cfg, p)
  }

  predicate PipesOk(cfg: Config, s: State) {
    && Whole(cfg, s.g.pipes)
    && (forall i | 0 <= i < |s.ws| && InWrite(s.ws[i].pc) :: StageFits(s.g.pipes.stage, s.ws[i].pc))
    && (!s.g.lock.writer && s.g.main != FreePipe(Message) && s.g.main != Finished ==> s.g.pipes.stage == Idle)
    && LauncherStage(s.g.main, s.g.pipes.stage)
    && (Closing(s.g.main) ==> AllDone(s.ws))
  }

  lemma PipesOkInit(cfg: Config, s: State)
    requires Built(cfg, s)
    ensures PipesOk(cfg, s)
  {}

  // --------------------------------------------------------- steps, locally

  /** Only a writer's steps touch the handles, keyings and blobs. */
  lemma PipesStill(cfg: Config, ci: Cipher, g: Shared, w: Worker, c: Choice)
    requires Ready(cfg, g, w) && |c.os| == |w.job.plaintext| && !InWrite(w.pc)
    ensures WorkerStep(cfg, ci, g, w, c).g.pipes == g.pipes
  {}

  lemma EntersAtFirstPipe(cfg: Config, ci: Cipher, g: Shared, w: Worker, c: Choice)
    requires Ready(cfg, g, w) && |c.os| == |w.job.plaintext| && !InWrite(w.pc)
    ensures var st := WorkerStep(cfg, ci, g, w, c);
            InWrite(st.w.pc) ==> MayWrite(g.lock) && StageFits(Idle, st.w.pc)
  {}

  lemma CallRekeySkipped(cfg: Config, g: Shared, w: Worker, c: Choice)
    requires w.pc.CallRekey? && StageFits(g.pipes.stage, w.pc)
    requires SlotOf(g.pipes, w.pc.which).None? || c.outcome != Success ||
             !Usable(g.pipes, SlotOf(g.pipes, w.pc.which).value.handle)
    ensures var st := MaintainStep(cfg, g, w, c);
            st.g.pipes == g.pipes && InWrite(st.w.pc) && StageFits(st.g.pipes.stage, st.w.pc)
  {}

  lemma CallRekeyPhase(cfg: Config, g: Shared, w: Worker, c: Choice)
    requires w.pc.CallRekey? && Whole(cfg, g.pipes) && StageFits(g.pipes.stage, w.pc)
    ensures var st := MaintainStep(cfg, g, w, c);
            Whole(cfg, st.g.pipes) && InWrite(st.w.pc) && StageFits(st.g.pipes.stage, st.w.pc)
  {
    if SlotOf(g.pipes, w.pc.which).None? || c.outcome != Success ||
       !Usable(g.pipes, SlotOf(g.pipes, w.pc.which).value.handle) {
      CallRekeySkipped(cfg, g, w, c);
    } else {
      RekeyCallKeeps(g.pipes, w.pc.which, cfg.layers, w.job.perm, w.job.wrap);
      assert MaintainStep(cfg, g, w, c).g.pipes ==
        RekeyCall(g.pipes, w.pc.which, cfg.layers, w.job.perm, w.job.wrap);
    }
  }

  lemma RetainBlobPhase(cfg: Config, g: Shared, w: Worker, c: Choice)
    requires w.pc.RetainBlob? && Whole(cfg, g.pipes) && StageFits(g.pipes.stage, w.pc)
    ensures var st := MaintainStep(cfg, g, w, c);
            Whole(cfg, st.g.pipes) && InWrite(st.w.pc) && StageFits(st.g.pipes.stage, st.w.pc)
  {
    KeepBlobKeeps(g.pipes, w.pc.which);
  }

  lemma CallLoadPhase(cfg: Config, g: Shared, w: Worker, c: Choice)
    requires w.pc.CallLoad? && Whole(cfg, g.pipes) && StageFits(g.pipes.stage, w.pc)
    ensures var st := MaintainStep(cfg, g, w, c);
            Whole(cfg, st.g.pipes) && InWrite(st.w.pc) && StageFits(st.g.pipes.stage, st.w.pc)
  {
    if SlotOf(g.pipes, w.pc.which).Some? {
      LoadCallKeeps(g.pipes, w.pc.which);
    }
  }

  lemma CallFreePhase(cfg: Config, g: Shared, w: Worker, c: Choice)
    requires w.pc.CallFree? && Whole(cfg, g.pipes) && StageFits(g.pipes.stage, w.pc)
    ensures var st := MaintainStep(cfg, g, w, c);
            Whole(cfg, st.g.pipes) && InWrite(st.w.pc) && StageFits(st.g.pipes.stage, st.w.pc)
  {
    FreeOldKeeps(g.pipes, w.pc.which);
  }

  lemma SwapInPhase(cfg: Config, g: Shared, w: Worker, c: Choice)
    requires w.pc.SwapIn? && Whole(cfg, g.pipes) && StageFits(g.pipes.stage, w.pc)
    ensures var st := MaintainStep(cfg, g, w, c);
            Whole(cfg, st.g.pipes) && InWrite(st.w.pc) && StageFits(st.g.pipes.stage, st.w.pc)
  {
    SwapKeeps(g.pipes, w.pc.which);
  }

  lemma TailPhase(cfg: Config, g: Shared, w: Worker, c: Choice)
    requires w.pc.CountOp? || w.pc.StoreCount? || w.pc.ReportWrite? || w.pc.ReleaseWrite?
    requires StageFits(g.pipes.stage, w.pc)
    ensures var st := MaintainStep(cfg, g, w, c);
            st.g.pipes == g.pipes && StageFits(st.g.pipes.stage, st.w.pc)
  {}

  /** A writer's step keeps the handles whole, and its progress in view. */
  lemma WriterStep(cfg: Config, ci: Cipher, g: Shared, w: Worker, c: Choice)
    requires InWrite(w.pc) && |c.os| == |w.job.plaintext|
    requires Whole(cfg, g.pipes) && StageFits(g.pipes.stage, w.pc)
    ensures Ready(cfg, g, w)
    ensures var st := WorkerStep(cfg, ci, g, w, c);
            && Whole(cfg, st.g.pipes)
            && StageFits(st.g.pipes.stage, st.w.pc)
            && (!InWrite(st.w.pc) ==> st.g.pipes.stage.Idle?)
  {
    match w.pc
    case CallRekey(_) => CallRekeyPhase(cfg, g, w, c);
    case RetainBlob(_) => RetainBlobPhase(cfg, g, w, c);
    case CallLoad(_) => CallLoadPhase(cfg, g, w, c);
    case CallFree(_) => CallFreePhase(cfg, g, w, c);
    case SwapIn(_) => SwapInPhase(cfg, g, w, c);
    case _ => TailPhase(cfg, g, w, c);
  }

  // ------------------------------------------------------------ steps, globally

  /** Waking changes neither who is in a section nor what it is doing there. */
  lemma WakeOutside(w: Worker)
    ensures InWrite(w.pc) || InRead(w.pc) || w.pc == Done ==> Wake(w) == w
    ensures InWrite(Wake(w).pc) ==> InWrite(w.pc)
    ensures InRead(Wake(w).pc) ==> InRead(w.pc)
    ensures Wake(w).(pc := w.pc) == w
  {}

  /** The section a thread's step leaves it in, and the handles it leaves behind. */
  predicate PipesMove(cfg: Config, k: Lock, p: Pipes, w: Worker, k': Lock, p': Pipes, w': Worker) {
    && Whole(cfg, p')
    && (InWrite(w'.pc) ==> StageFits(p'.stage, w'.pc))
    && (!InWrite(w.pc) ==> p' == p && (InWrite(w'.pc) ==> MayWrite(k)))
    && (InWrite(w.pc) && !InWrite(w'.pc) ==> p'.stage.Idle?)
    && (!InWrite(w.pc) && !k'.writer ==> !k.writer)
  }

  lemma PipesOkMove(cfg: Config, s: State, t: State, i: nat, notify: bool)
    requires LockOk(s) && LockOk(t) && PipesOk(cfg, s) && Moved(s, t, i, notify) && t.g.main == s.g.main
    requires s.ws[i].pc != Done
    requires PipesMove(cfg, s.g.lock, s.g.pipes, s.ws[i], t.g.lock, t.g.pipes, t.ws[i])
    ensures PipesOk(cfg, t)
  {
    assert !AllDone(s.ws);
    forall j | 0 <= j < |t.ws| && InWrite(t.ws[j].pc)
      ensures StageFits(t.g.pipes.stage, t.ws[j].pc)
    {
      if j != i {
        WakeOutside(s.ws[j]);
        Exclusive(s, j, i);
      }
    }
    SumAtLeast(t.ws, Writes, i);
  }

  lemma PipesStep(cfg: Config, ci: Cipher, s: State, i: nat, c: Choice)
    requires LockOk(s) && PipesOk(cfg, s) && Enabled(cfg, s, Work(i, c))
    ensures var st := WorkerStep(cfg, ci, s.g, s.ws[i], c);
            PipesMove(cfg, s.g.lock, s.g.pipes, s.ws[i], st.g.lock, st.g.pipes, st.w)
  {
    var w := s.ws[i];
    SumAtLeast(s.ws, Writes, i);
    LockStep(cfg, ci, s.g, w, c);
    if InWrite(w.pc) {
      WriterStep(cfg, ci, s.g, w, c);
    } else {
      PipesStill(cfg, ci, s.g, w, c);
      EntersAtFirstPipe(cfg, ci, s.g, w, c);
      assert !Closing(s.g.main);
    }
  }

  lemma PipesOkWork(cfg: Config, ci: Cipher, s: State, i: nat, c: Choice)
    requires LockOk(s) && PipesOk(cfg, s) && Enabled(cfg, s, Work(i, c))
    ensures PipesOk(cfg, Apply(cfg, ci, s, Work(i, c)))
  {
    WorkerMoves(cfg, ci, s, i, c);
    LockOkWork(cfg, ci, s, i, c);
    PipesStep(cfg, ci, s, i, c);
    MainUntouched(cfg, ci, s.g, s.ws[i], c);
    PipesOkMove(cfg, s, Apply(cfg, ci, s, Work(i, c)), i, WorkerStep(cfg, ci, s.g, s.ws[i], c).notify);
  }

  /** Workers do not move the launcher, and it alone decides the verdict. */
  lemma MainUntouched(cfg: Config, ci: Cipher, g: Shared, w: Worker, c: Choice)
    requires Ready(cfg, g, w) && |c.os| == |w.job.plaintext|
    ensures WorkerStep(cfg, ci, g, w, c).g.main == g.main
    ensures WorkerStep(cfg, ci, g, w, c).g.verdict == g.verdict
  {}

  lemma NoSectionsWhenDone(s: State)
    requires LockOk(s) && AllDone(s.ws)
    ensures !s.g.lock.writer && s.g.lock.readers == 0
  {
    SumConstant(s.ws, Writes, 0);
    SumConstant(s.ws, Reads, 0);
  }

  lemma PipesOkRelease(cfg: Config, ci: Cipher, s: State, c: Choice)
    requires LockOk(s) && PipesOk(cfg, s) && Enabled(cfg, s, Main(c)) && s.g.main.FreePipe?
    ensures PipesOk(cfg, Apply(cfg, ci, s, Main(c)))
  {
    NoSectionsWhenDone(s);
    ReleaseKeeps(s.g.pipes, s.g.main.which);
  }

  lemma PipesOkLaunch(cfg: Config, ci: Cipher, s: State, c: Choice)
    requires PipesOk(cfg, s) && Enabled(cfg, s, Main(c)) && s.g.main.Launch?
    ensures PipesOk(cfg, Apply(cfg, ci, s, Main(c)))
  {}

  /** Between the launch and the release the launcher touches no handle, and it closes only
      when all have returned. */
  lemma MainWaits(cfg: Config, s: State, c: Choice)
    requires MainReady(cfg, s) && !s.g.main.FreePipe? && !s.g.main.Launch?
    ensures var t := MainStep(cfg, s, c);
            && t.ws == s.ws && t.g.pipes == s.g.pipes && t.g.lock == s.g.lock
            && t.g.main != FreePipe(Message) && t.g.main != Finished
            && (Closing(t.g.main) ==> Closing(s.g.main) || AllDone(s.ws))
  {}

  lemma PipesOkWaiting(cfg: Config, s: State, t: State)
    requires PipesOk(cfg, s) && !s.g.main.FreePipe? && s.g.main != Finished
    requires t.ws == s.ws && t.g.pipes == s.g.pipes && t.g.lock == s.g.lock
    requires t.g.main != FreePipe(Message) && t.g.main != Finished
    requires Closing(t.g.main) ==> Closing(s.g.main) || AllDone(s.ws)
    ensures PipesOk(cfg, t)
  {}

  lemma PipesOkMain(cfg: Config, ci: Cipher, s: State, c: Choice)
    requires LockOk(s) && PipesOk(cfg, s) && Enabled(cfg, s, Main(c))
    ensures PipesOk(cfg, Apply(cfg, ci, s, Main(c)))
  {
    if s.g.main.FreePipe? {
      PipesOkRelease(cfg, ci, s, c);
    } else if s.g.main.Launch? {
      PipesOkLaunch(cfg, ci, s, c);
    } else {
      MainWaits(cfg, s, c);
      PipesOkWaiting(cfg, s, MainStep(cfg, s, c));
    }
  }
}
