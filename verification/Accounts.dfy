/** The counters the summary reports (loop/worker.py:196-198, 228-242, loop/ops.py:53, 99,
    118-125) and the errors it lists (loop/state.py:240-246). */
module Accounts {
  import opened Pipelines
  import Payload
  import opened Protocol
  import opened LockSafety
  import opened Phases

  // ------------------------------------------------------- iterations and bytes

  /** A failure is recorded, or about to be. */
  predicate Failing(w: Worker) {
    w.ended != Fine || w.pc == ReportRead || w.pc.ReportWrite?
  }

  /** Where a thread goes once its iteration or operation has ended badly. */
  predicate Leaving(pc: Pc) {
    match pc
    case ReleaseRead | ReleaseWrite(_) | Escape | ArriveWarm | InWarm | ArriveRelease | InRelease
       | Gate | Exit | Done => true
    case _ => false
  }

  /** A worker records at most one error, and after it only leaves. */
  predicate FailureOk(w: Worker) {
    && (w.ended != Fine ==> Leaving(w.pc))
    && (w.ended == Escaped ==> w.pc == ReleaseRead || w.pc.ReleaseWrite? || w.pc == Escape)
    && (w.pc == Escape ==> w.ended == Escaped)
    && (w.failed <==> w.ended == Reported)
    && w.past.reports == (if w.failed then 1 else 0)
  }

  /** Iteration `it` is under way and already counted. */
  predicate AfterCount(pc: Pc) {
    || pc == CountEnc || pc == CountDec || pc == ReleaseRead
    || pc == ArriveWarm || pc == InWarm || pc == ArriveRelease || pc == InRelease || pc == Gate
    || Maintaining(pc) || pc == Advance
  }

  predicate InCount(pc: Pc) { pc == CountIter || pc == CountEnc || pc == CountDec }

  /** Bytes are counted exactly, outside the three assignments of the update itself. */
  predicate BytesOk(cfg: Config, w: Worker) {
    && |w.job.plaintext| == cfg.payload
    && (InCount(w.pc) ==> w.job.got == w.job.plaintext)
    && w.tally.bytesEnc + (if w.pc == CountEnc then cfg.payload else 0) == w.tally.iters * cfg.payload
    && w.tally.bytesDec + (if w.pc == CountEnc || w.pc == CountDec then cfg.payload else 0)
         == w.tally.iters * cfg.payload
  }

  /** A worker that has not failed has counted every iteration it completed. */
  predicate IterationsOk(w: Worker) {
    && FailureOk(w)
    && (!Failing(w) ==> w.tally.iters == w.it + if AfterCount(w.pc) then 1 else 0)
  }

  lemma OneMore(n: nat, p: nat)
    ensures (n + 1) * p == n * p + p
  {}

  lemma BytesStep(cfg: Config, ci: Cipher, g: Shared, w: Worker, c: Choice)
    requires Ready(cfg, g, w) && |c.os| == |w.job.plaintext| && BytesOk(cfg, w)
    ensures BytesOk(cfg, WorkerStep(cfg, ci, g, w, c).w)
  {
    OneMore(w.tally.iters, cfg.payload);
    if Iterating(w.pc) {
      BytesIterate(cfg, ci, g, w, c);
    } else {
      BytesElse(cfg, ci, g, w, c);
    }
  }

  lemma BytesIterate(cfg: Config, ci: Cipher, g: Shared, w: Worker, c: Choice)
    requires Iterating(w.pc) && Ready(cfg, g, w) && |c.os| == |w.job.plaintext| && BytesOk(cfg, w)
    ensures BytesOk(cfg, IterateStep(cfg, ci, g, w, c).w)
  {
    OneMore(w.tally.iters, cfg.payload);
  }

  lemma BytesElse(cfg: Config, ci: Cipher, g: Shared, w: Worker, c: Choice)
    requires !Iterating(w.pc) && Ready(cfg, g, w) && |c.os| == |w.job.plaintext|
    ensures var v := WorkerStep(cfg, ci, g, w, c).w;
            v.tally == w.tally && v.job.plaintext == w.job.plaintext && !InCount(v.pc)
  {}

  lemma IterationsStep(cfg: Config, ci: Cipher, g: Shared, w: Worker, c: Choice)
    requires Ready(cfg, g, w) && |c.os| == |w.job.plaintext| && IterationsOk(w)
    requires w.pc == Gate ==> w.it == 0
    ensures IterationsOk(WorkerStep(cfg, ci, g, w, c).w)
  {
    if Iterating(w.pc) {
      IterationsIterate(cfg, ci, g, w, c);
    } else if Maintaining(w.pc) {
      IterationsMaintain(cfg, g, w, c);
    } else {
      IterationsLoop(cfg, g, w, c);
    }
  }

  lemma IterationsCounting(cfg: Config, ci: Cipher, g: Shared, w: Worker, c: Choice)
    requires (InCount(w.pc) || w.pc == ReportRead || w.pc == ReleaseRead) && Ready(cfg, g, w)
    requires |c.os| == |w.job.plaintext| && IterationsOk(w)
    ensures IterationsOk(IterateStep(cfg, ci, g, w, c).w)
  {}

  lemma IterationsReading(cfg: Config, ci: Cipher, g: Shared, w: Worker, c: Choice)
    requires InRead(w.pc) && Ready(cfg, g, w) && |c.os| == |w.job.plaintext| && IterationsOk(w)
    ensures IterationsOk(IterateStep(cfg, ci, g, w, c).w)
  {
    if InCount(w.pc) || w.pc == ReportRead || w.pc == ReleaseRead {
      IterationsCounting(cfg, ci, g, w, c);
    }
  }

  lemma IterationsIterate(cfg: Config, ci: Cipher, g: Shared, w: Worker, c: Choice)
    requires Iterating(w.pc) && Ready(cfg, g, w) && |c.os| == |w.job.plaintext| && IterationsOk(w)
    ensures IterationsOk(IterateStep(cfg, ci, g, w, c).w)
  {
    if InRead(w.pc) {
      IterationsReading(cfg, ci, g, w, c);
    }
  }

  lemma IterationsCalling(cfg: Config, g: Shared, w: Worker, c: Choice)
    requires (w.pc.CallRekey? || w.pc.CallLoad?) && IterationsOk(w)
    ensures IterationsOk(MaintainStep(cfg, g, w, c).w)
  {}

  lemma IterationsWriting(cfg: Config, g: Shared, w: Worker, c: Choice)
    requires InWrite(w.pc) && IterationsOk(w)
    ensures IterationsOk(MaintainStep(cfg, g, w, c).w)
  {
    if w.pc.CallRekey? || w.pc.CallLoad? {
      IterationsCalling(cfg, g, w, c);
    }
  }

  lemma IterationsMaintain(cfg: Config, g: Shared, w: Worker, c: Choice)
    requires Maintaining(w.pc) && IterationsOk(w)
    ensures IterationsOk(MaintainStep(cfg, g, w, c).w)
  {
    if InWrite(w.pc) {
      IterationsWriting(cfg, g, w, c);
    }
  }

  lemma IterationsBarrier(cfg: Config, g: Shared, w: Worker, c: Choice)
    requires AtBarrier(w.pc) && Ready(cfg, g, w) && IterationsOk(w)
    ensures IterationsOk(LoopStep(cfg, g, w, c).w)
  {}

  lemma IterationsTurning(cfg: Config, g: Shared, w: Worker, c: Choice)
    requires (w.pc == Head || w.pc == StopCheck || w.pc == Advance || w.pc == Exit) && Ready(cfg, g, w)
    requires IterationsOk(w)
    ensures IterationsOk(LoopStep(cfg, g, w, c).w)
  {}

  lemma IterationsLoop(cfg: Config, g: Shared, w: Worker, c: Choice)
    requires !Iterating(w.pc) && !Maintaining(w.pc) && Ready(cfg, g, w) && IterationsOk(w)
    requires w.pc == Gate ==> w.it == 0
    ensures IterationsOk(LoopStep(cfg, g, w, c).w)
  {
    if AtBarrier(w.pc) {
      IterationsBarrier(cfg, g, w, c);
    } else if w.pc != Gate {
      IterationsTurning(cfg, g, w, c);
    }
  }

  // ----------------------------------------------------- budget and stop request

  /** A recorded failure has asked the run to stop, iterations stay inside the budget, and
      a worker that has not failed leaves only for the stop request or a spent budget. */
  predicate BudgetOk(cfg: Config, stop: bool, w: Worker) {
    && (w.failed ==> stop)
    && (cfg.iterations > 0 ==>
          && w.it <= cfg.iterations
          && (w.it == cfg.iterations ==> w.pc == Head || w.pc == Exit || w.pc == Done))
    && ((w.pc == Exit || w.pc == Done) && !w.failed ==>
          stop || (cfg.iterations > 0 && w.it == cfg.iterations))
  }

  lemma BudgetStep(cfg: Config, ci: Cipher, g: Shared, w: Worker, c: Choice)
    requires Ready(cfg, g, w) && |c.os| == |w.job.plaintext| && BudgetOk(cfg, g.stop, w) && FailureOk(w)
    requires w.pc == Gate ==> w.it == 0
    ensures var st := WorkerStep(cfg, ci, g, w, c); BudgetOk(cfg, st.g.stop, st.w) && (g.stop ==> st.g.stop)
  {
    if Iterating(w.pc) {
      BudgetIterate(cfg, ci, g, w, c);
    } else if Maintaining(w.pc) {
      BudgetMaintain(cfg, g, w, c);
    } else {
      BudgetLoop(cfg, g, w, c);
    }
  }

  lemma BudgetIterate(cfg: Config, ci: Cipher, g: Shared, w: Worker, c: Choice)
    requires Iterating(w.pc) && Ready(cfg, g, w) && |c.os| == |w.job.plaintext|
    requires BudgetOk(cfg, g.stop, w) && FailureOk(w)
    ensures var st := IterateStep(cfg, ci, g, w, c); BudgetOk(cfg, st.g.stop, st.w) && (g.stop ==> st.g.stop)
  {}

  lemma BudgetMaintain(cfg: Config, g: Shared, w: Worker, c: Choice)
    requires Maintaining(w.pc) && BudgetOk(cfg, g.stop, w) && FailureOk(w)
    ensures var st := MaintainStep(cfg, g, w, c); BudgetOk(cfg, st.g.stop, st.w) && (g.stop ==> st.g.stop)
  {}

  lemma BudgetLoop(cfg: Config, g: Shared, w: Worker, c: Choice)
    requires !Iterating(w.pc) && !Maintaining(w.pc) && Ready(cfg, g, w)
    requires BudgetOk(cfg, g.stop, w) && FailureOk(w) && (w.pc == Gate ==> w.it == 0)
    ensures var st := LoopStep(cfg, g, w, c); BudgetOk(cfg, st.g.stop, st.w) && (g.stop ==> st.g.stop)
  {}

  // ----------------------------------------------------------- starts and fills

  /** No iteration has been begun since `it` was last counted up. */
  predicate BeforeStart(pc: Pc) {
    pc == NotStarted || pc == Refill || pc == Head || pc == StopCheck
  }

  /** A worker starts one iteration per number and none beyond the budget; under the rotating
      mode each start makes a fill, unless that is what failed, and no start makes two. */
  predicate FillsOk(cfg: Config, w: Worker) {
    && w.past.fills <= w.past.started + 1
    && w.past.started <= (if BeforeStart(w.pc) then w.it else w.it + 1)
    && (cfg.iterations > 0 ==> w.past.started <= cfg.iterations)
    && (!Failing(w) && w.pc != Exit && w.pc != Done ==>
          w.past.started == if BeforeStart(w.pc) then w.it else w.it + 1)
    && (!Failing(w) && cfg.mode == Payload.Rotating ==> w.past.fills == w.past.started + 1)
  }

  lemma FillsRefill(cfg: Config, g: Shared, w: Worker, c: Choice)
    requires |c.os| == |w.job.plaintext| && w.pc == Refill && FillsOk(cfg, w) && BudgetOk(cfg, g.stop, w)
    requires FailureOk(w)
    ensures FillsOk(cfg, RefillStep(cfg, g, w, c).w)
  {}

  /** Nothing but a refill starts anything. */
  predicate FillsStill(w: Worker, w': Worker) {
    && w'.past.started == w.past.started && w'.past.fills == w.past.fills && w'.it == w.it
    && !BeforeStart(w'.pc) && (Failing(w) ==> Failing(w'))
  }

  lemma FillsIterate(cfg: Config, ci: Cipher, g: Shared, w: Worker, c: Choice)
    requires Iterating(w.pc) && w.pc != Refill && Ready(cfg, g, w) && |c.os| == |w.job.plaintext| && FailureOk(w)
    ensures FillsStill(w, IterateStep(cfg, ci, g, w, c).w)
  {}

  lemma FillsMaintain(cfg: Config, g: Shared, w: Worker, c: Choice)
    requires Maintaining(w.pc) && FailureOk(w)
    ensures FillsStill(w, MaintainStep(cfg, g, w, c).w)
  {}

  lemma FillsBarrier(cfg: Config, g: Shared, w: Worker, c: Choice)
    requires AtBarrier(w.pc) && Ready(cfg, g, w) && FillsOk(cfg, w) && FailureOk(w)
    ensures FillsOk(cfg, LoopStep(cfg, g, w, c).w)
  {}

  lemma FillsLoop(cfg: Config, g: Shared, w: Worker, c: Choice)
    requires !Iterating(w.pc) && !Maintaining(w.pc) && Ready(cfg, g, w) && FillsOk(cfg, w) && FailureOk(w)
    requires w.pc == Gate ==> w.it == 0
    ensures FillsOk(cfg, LoopStep(cfg, g, w, c).w)
  {
    if AtBarrier(w.pc) {
      FillsBarrier(cfg, g, w, c);
    }
  }

  lemma FillsStep(cfg: Config, ci: Cipher, g: Shared, w: Worker, c: Choice)
    requires Ready(cfg, g, w) && |c.os| == |w.job.plaintext| && FillsOk(cfg, w) && BudgetOk(cfg, g.stop, w)
    requires FailureOk(w) && (w.pc == Gate ==> w.it == 0)
    ensures FillsOk(cfg, WorkerStep(cfg, ci, g, w, c).w)
  {
    if w.pc == Refill {
      FillsRefill(cfg, g, w, c);
      assert WorkerStep(cfg, ci, g, w, c) == RefillStep(cfg, g, w, c);
    } else if Iterating(w.pc) {
      FillsIterate(cfg, ci, g, w, c);
    } else if Maintaining(w.pc) {
      FillsMaintain(cfg, g, w, c);
    } else {
      FillsLoop(cfg, g, w, c);
    }
  }

  // ------------------------------------------------------------ maintenance

  /** How many of the iterations 1..n fall on the interval. */
  function Due(every: nat, n: nat): nat {
    if every == 0 then 0 else n / every
  }

  lemma DueStep(every: nat, n: nat)
    requires n > 0
    ensures Due(every, n) == Due(every, n - 1) + (if every > 0 && n % every == 0 then 1 else 0)
  {
    if every > 0 {
      var q, r := (n - 1) / every, (n - 1) % every;
      assert n - 1 == q * every + r;
      if r == every - 1 {
        assert n == (q + 1) * every;
        QuotientIs(n, every, q + 1, 0);
      } else {
        QuotientIs(n, every, q, r + 1);
      }
    }
  }

  lemma QuotientIs(n: nat, d: nat, q: nat, r: nat)
    requires d > 0 && n == q * d + r && r < d
    ensures n / d == q && n % d == r
  {
    var k := n / d - q;
    assert k * d == r - n % d;
    MultipleBounds(k, d);
  }

  lemma MultipleBounds(k: int, d: nat)
    ensures k >= 1 ==> k * d >= d
    ensures k <= -1 ==> k * d + d <= 0
  {}

  predicate RekeyDone(pc: Pc) {
    match pc
    case CycleCheck | CallLoad(_) | CallFree(_) | SwapIn(_) | Advance => true
    case WriteLock(op, _) => op == Cycle
    case CountOp(op) => op == Cycle
    case StoreCount(op) => op == Cycle
    case ReportWrite(op) => op == Cycle
    case ReleaseWrite(_) => true
    case Log(_) => true
    case _ => false
  }

  predicate CycleDone(pc: Pc) {
    pc == ReleaseWrite(Cycle) || pc == Log(Cycle) || pc == Advance
  }

  predicate InRekey(pc: Pc) {
    match pc
    case CallRekey(_) | RetainBlob(_) => true
    case WriteLock(op, _) => op == Rekey
    case CountOp(op) => op == Rekey
    case StoreCount(op) => op == Rekey
    case _ => false
  }

  predicate InCycle(pc: Pc) {
    match pc
    case CallLoad(_) | CallFree(_) | SwapIn(_) => true
    case WriteLock(op, _) => op == Cycle
    case CountOp(op) => op == Cycle
    case StoreCount(op) => op == Cycle
    case _ => false
  }

  predicate OnInterval(every: nat, n: nat) { every > 0 && n % every == 0 }

  /** A worker that has not failed has rekeyed, and reopened, at exactly the iterations
      its interval divides. */
  predicate MaintenanceOk(cfg: Config, w: Worker) {
    && (InRekey(w.pc) ==> OnInterval(cfg.rekeyEvery, w.it))
    && (InCycle(w.pc) ==> OnInterval(cfg.cycleEvery, w.it))
    && (w.it == 0 ==> w.past.rekeyed == 0 && w.past.cycled == 0)
    && (w.it > 0 && !Failing(w) ==>
          && w.past.rekeyed == Due(cfg.rekeyEvery, if RekeyDone(w.pc) then w.it else w.it - 1)
          && w.past.cycled == Due(cfg.cycleEvery, if CycleDone(w.pc) then w.it else w.it - 1))
  }

  lemma MaintenanceStep(cfg: Config, ci: Cipher, g: Shared, w: Worker, c: Choice)
    requires Ready(cfg, g, w) && |c.os| == |w.job.plaintext| && MaintenanceOk(cfg, w) && FailureOk(w)
    requires WorkerPhase(cfg, g.gates, w)
    ensures var st := WorkerStep(cfg, ci, g, w, c);
            MaintenanceOk(cfg, st.w)
  {
    if Iterating(w.pc) {
      MaintenanceIterate(cfg, ci, g, w, c);
    } else if Maintaining(w.pc) {
      DueStep(cfg.rekeyEvery, w.it);
      DueStep(cfg.cycleEvery, w.it);
      if InRekey(w.pc) {
        MaintenanceRekey(cfg, g, w, c);
      } else if InCycle(w.pc) {
        MaintenanceCycle(cfg, g, w, c);
      } else {
        MaintenanceElse(cfg, g, w, c);
      }
    } else {
      MaintenanceLoop(cfg, g, w, c);
    }
  }

  predicate PastKept(w: Worker, w': Worker) {
    && w'.past.rekeyed == w.past.rekeyed && w'.past.cycled == w.past.cycled
    && (Failing(w) ==> Failing(w'))
  }

  lemma PastKeptIterate(cfg: Config, ci: Cipher, g: Shared, w: Worker, c: Choice)
    requires Iterating(w.pc) && Ready(cfg, g, w) && |c.os| == |w.job.plaintext| && FailureOk(w)
    ensures PastKept(w, IterateStep(cfg, ci, g, w, c).w)
  {}

  lemma PastKeptLoop(cfg: Config, g: Shared, w: Worker, c: Choice)
    requires !Iterating(w.pc) && !Maintaining(w.pc) && Ready(cfg, g, w) && FailureOk(w)
    ensures PastKept(w, LoopStep(cfg, g, w, c).w)
  {}

  /** Outside the maintenance a worker's counts stand where its iteration number says. */
  lemma MaintenanceHeld(cfg: Config, w: Worker, v: Worker)
    requires MaintenanceOk(cfg, w) && PastKept(w, v) && !InRekey(v.pc) && !InCycle(v.pc)
    requires v.it == w.it && !RekeyDone(w.pc) && !RekeyDone(v.pc) && !CycleDone(w.pc) && !CycleDone(v.pc)
    ensures MaintenanceOk(cfg, v)
  {}

  lemma MaintenanceIterate(cfg: Config, ci: Cipher, g: Shared, w: Worker, c: Choice)
    requires Iterating(w.pc) && Ready(cfg, g, w) && |c.os| == |w.job.plaintext|
    requires MaintenanceOk(cfg, w) && FailureOk(w)
    ensures MaintenanceOk(cfg, IterateStep(cfg, ci, g, w, c).w)
  {
    IterateTargets(cfg, ci, g, w, c);
    PastKeptIterate(cfg, ci, g, w, c);
    MaintenanceHeld(cfg, w, IterateStep(cfg, ci, g, w, c).w);
  }

  /** Where worker_main goes, and with which iteration number. */
  lemma LoopTargets(cfg: Config, g: Shared, w: Worker, c: Choice)
    requires !Iterating(w.pc) && !Maintaining(w.pc) && Ready(cfg, g, w)
    ensures var v := LoopStep(cfg, g, w, c).w;
            && !Maintaining(v.pc) && v.pc != Advance
            && v.it == if w.pc == Gate && w.ended == Fine then 1 else if w.pc == Advance then w.it + 1 else w.it
  {}

  predicate DueHere(every: nat, n: nat) {
    n > 0 && Due(every, n) == Due(every, n - 1) + (if OnInterval(every, n) then 1 else 0)
  }

  lemma RekeyCounted(cfg: Config, g: Shared, w: Worker, c: Choice)
    requires w.pc == StoreCount(Rekey) && MaintenanceOk(cfg, w) && FailureOk(w)
    requires DueHere(cfg.rekeyEvery, w.it) && DueHere(cfg.cycleEvery, w.it)
    ensures MaintenanceOk(cfg, MaintainStep(cfg, g, w, c).w)
  {}

  lemma CycleCounted(cfg: Config, g: Shared, w: Worker, c: Choice)
    requires w.pc == StoreCount(Cycle) && MaintenanceOk(cfg, w) && FailureOk(w)
    requires DueHere(cfg.rekeyEvery, w.it) && DueHere(cfg.cycleEvery, w.it)
    ensures MaintenanceOk(cfg, MaintainStep(cfg, g, w, c).w)
  {}

  /** Up to its count an operation stays what it is, or fails. */
  predicate OnTheWay(w: Worker, v: Worker) {
    && v.it == w.it && PastKept(w, v)
    && (if Failing(v) then !InRekey(v.pc) && !InCycle(v.pc)
        else InRekey(v.pc) == InRekey(w.pc) && InCycle(v.pc) == InCycle(w.pc))
  }

  lemma RekeyOnTheWay(cfg: Config, g: Shared, w: Worker, c: Choice)
    requires InRekey(w.pc) && !w.pc.StoreCount? && FailureOk(w)
    ensures OnTheWay(w, MaintainStep(cfg, g, w, c).w)
  {}

  lemma CycleOnTheWay(cfg: Config, g: Shared, w: Worker, c: Choice)
    requires InCycle(w.pc) && !w.pc.StoreCount? && FailureOk(w)
    ensures OnTheWay(w, MaintainStep(cfg, g, w, c).w)
  {}

  lemma OnTheWayKeeps(cfg: Config, w: Worker, v: Worker)
    requires (InRekey(w.pc) || InCycle(w.pc)) && OnTheWay(w, v) && MaintenanceOk(cfg, w)
    ensures MaintenanceOk(cfg, v)
  {}

  lemma MaintenanceRekey(cfg: Config, g: Shared, w: Worker, c: Choice)
    requires InRekey(w.pc) && MaintenanceOk(cfg, w) && FailureOk(w)
    requires DueHere(cfg.rekeyEvery, w.it) && DueHere(cfg.cycleEvery, w.it)
    ensures MaintenanceOk(cfg, MaintainStep(cfg, g, w, c).w)
  {
    if w.pc.StoreCount? {
      RekeyCounted(cfg, g, w, c);
    } else {
      RekeyOnTheWay(cfg, g, w, c);
      OnTheWayKeeps(cfg, w, MaintainStep(cfg, g, w, c).w);
    }
  }

  lemma MaintenanceCycle(cfg: Config, g: Shared, w: Worker, c: Choice)
    requires InCycle(w.pc) && MaintenanceOk(cfg, w) && FailureOk(w)
    requires DueHere(cfg.rekeyEvery, w.it) && DueHere(cfg.cycleEvery, w.it)
    ensures MaintenanceOk(cfg, MaintainStep(cfg, g, w, c).w)
  {
    if w.pc.StoreCount? {
      CycleCounted(cfg, g, w, c);
    } else {
      CycleOnTheWay(cfg, g, w, c);
      OnTheWayKeeps(cfg, w, MaintainStep(cfg, g, w, c).w);
    }
  }

  /** Where the two checks lead. */
  predicate Checked(cfg: Config, w: Worker, v: Worker) {
    && v.it == w.it && PastKept(w, v)
    && (if Failing(v) then !InRekey(v.pc) && !InCycle(v.pc)
        else if w.pc == RekeyCheck then
          if OnInterval(cfg.rekeyEvery, w.it) then v.pc == WriteLock(Rekey, Trying) else v.pc == CycleCheck
        else
          if OnInterval(cfg.cycleEvery, w.it) then v.pc == WriteLock(Cycle, Trying) else v.pc == Advance)
  }

  lemma ChecksLead(cfg: Config, g: Shared, w: Worker, c: Choice)
    requires (w.pc.RekeyCheck? || w.pc.CycleCheck?) && FailureOk(w)
    ensures Checked(cfg, w, MaintainStep(cfg, g, w, c).w)
  {}

  lemma CheckedKeeps(cfg: Config, w: Worker, v: Worker)
    requires (w.pc.RekeyCheck? || w.pc.CycleCheck?) && Checked(cfg, w, v) && MaintenanceOk(cfg, w)
    requires DueHere(cfg.rekeyEvery, w.it) && DueHere(cfg.cycleEvery, w.it)
    ensures MaintenanceOk(cfg, v)
  {}

  /** The two checks. */
  lemma MaintenanceChecks(cfg: Config, g: Shared, w: Worker, c: Choice)
    requires (w.pc.RekeyCheck? || w.pc.CycleCheck?) && MaintenanceOk(cfg, w) && FailureOk(w)
    requires DueHere(cfg.rekeyEvery, w.it) && DueHere(cfg.cycleEvery, w.it)
    ensures MaintenanceOk(cfg, MaintainStep(cfg, g, w, c).w)
  {
    ChecksLead(cfg, g, w, c);
    CheckedKeeps(cfg, w, MaintainStep(cfg, g, w, c).w);
  }

  /** The log line. */
  lemma MaintenanceLog(cfg: Config, g: Shared, w: Worker, c: Choice)
    requires w.pc.Log? && MaintenanceOk(cfg, w) && FailureOk(w)
    requires DueHere(cfg.rekeyEvery, w.it) && DueHere(cfg.cycleEvery, w.it)
    ensures MaintenanceOk(cfg, MaintainStep(cfg, g, w, c).w)
  {}

  /** The report of a failure and the release. */
  lemma MaintenanceTail(cfg: Config, g: Shared, w: Worker, c: Choice)
    requires (w.pc.ReportWrite? || w.pc.ReleaseWrite?) && MaintenanceOk(cfg, w) && FailureOk(w)
    requires DueHere(cfg.rekeyEvery, w.it) && DueHere(cfg.cycleEvery, w.it)
    ensures var st := MaintainStep(cfg, g, w, c);
            MaintenanceOk(cfg, st.w)
  {}

  lemma MaintenanceElse(cfg: Config, g: Shared, w: Worker, c: Choice)
    requires Maintaining(w.pc) && !InRekey(w.pc) && !InCycle(w.pc)
    requires MaintenanceOk(cfg, w) && FailureOk(w)
    requires DueHere(cfg.rekeyEvery, w.it) && DueHere(cfg.cycleEvery, w.it)
    ensures var st := MaintainStep(cfg, g, w, c);
            MaintenanceOk(cfg, st.w)
  {
    if w.pc.RekeyCheck? || w.pc.CycleCheck? {
      MaintenanceChecks(cfg, g, w, c);
    } else if w.pc.Log? {
      MaintenanceLog(cfg, g, w, c);
    } else {
      MaintenanceTail(cfg, g, w, c);
    }
  }

  /** Where the loop goes on, with the next iteration number behind an iteration. */
  lemma MaintenanceTurns(cfg: Config, w: Worker, v: Worker)
    requires MaintenanceOk(cfg, w) && PastKept(w, v) && (w.pc == Gate ==> w.it == 0)
    requires !Iterating(w.pc) && !Maintaining(w.pc) && !Maintaining(v.pc) && v.pc != Advance
    requires v.it == if w.pc == Gate && w.ended == Fine then 1 else if w.pc == Advance then w.it + 1 else w.it
    requires w.pc == Advance ==> w.it > 0
    ensures MaintenanceOk(cfg, v)
  {
    assert Due(cfg.rekeyEvery, 0) == 0 && Due(cfg.cycleEvery, 0) == 0;
  }

  lemma MaintenanceLoop(cfg: Config, g: Shared, w: Worker, c: Choice)
    requires !Iterating(w.pc) && !Maintaining(w.pc) && Ready(cfg, g, w) && MaintenanceOk(cfg, w) && FailureOk(w)
    requires WorkerPhase(cfg, g.gates, w)
    ensures MaintenanceOk(cfg, LoopStep(cfg, g, w, c).w)
  {
    LoopTargets(cfg, g, w, c);
    PastKeptLoop(cfg, g, w, c);
    MaintenanceTurns(cfg, w, LoopStep(cfg, g, w, c).w);
  }

  // ------------------------------------------------------- the shared counters

  /** The shared counters rise with the workers' own. */
  predicate MaintenanceMoves(g: Shared, w: Worker, g': Shared, w': Worker) {
    && g'.ops.rekeys + w.past.rekeyed == g.ops.rekeys + w'.past.rekeyed
    && g'.ops.cycles + w.past.cycled == g.ops.cycles + w'.past.cycled
  }

  /** What a thread about to store has loaded is still the counter. */
  predicate CountFresh(ops: Operations, w: Worker) {
    w.pc.StoreCount? ==> w.job.count == OpCount(ops, w.pc.op)
  }

  /** Counters move inside write sections only, and a store is preceded by its load. */
  predicate CountsLocked(g: Shared, w: Worker, g': Shared, w': Worker) {
    && (!InWrite(w.pc) ==> g'.ops == g.ops)
    && CountFresh(g'.ops, w')
    && (CountFresh(g.ops, w) ==> MaintenanceMoves(g, w, g', w'))
  }

  lemma CountsInside(cfg: Config, g: Shared, w: Worker, c: Choice)
    requires Maintaining(w.pc)
    ensures var st := MaintainStep(cfg, g, w, c); CountsLocked(g, w, st.g, st.w)
  {}

  lemma CountsOutside(cfg: Config, ci: Cipher, g: Shared, w: Worker, c: Choice)
    requires Ready(cfg, g, w) && |c.os| == |w.job.plaintext| && !Maintaining(w.pc)
    ensures var st := WorkerStep(cfg, ci, g, w, c); CountsLocked(g, w, st.g, st.w)
  {}

  lemma CountsStep(cfg: Config, ci: Cipher, g: Shared, w: Worker, c: Choice)
    requires Ready(cfg, g, w) && |c.os| == |w.job.plaintext|
    ensures var st := WorkerStep(cfg, ci, g, w, c); CountsLocked(g, w, st.g, st.w)
  {
    if Maintaining(w.pc) {
      CountsInside(cfg, g, w, c);
    } else {
      CountsOutside(cfg, ci, g, w, c);
    }
  }

  // -------------------------------------------------------------- failures

  /** No call fails of itself: the handle a call needs is there and open. */
  predicate Sound(cfg: Config, p: Pipes, w: Worker) {
    && (w.pc == Encrypt || w.pc == Decrypt ==> Usable(p, w.job.handle))
    && (w.pc == Dispatch || w.pc == Redispatch ==> SlotOf(p, PipeFor(SurfaceOf(cfg, w.it))).Some?)
    && (w.pc.CallRekey? && SlotOf(p, w.pc.which).Some? ==> Usable(p, SlotOf(p, w.pc.which).value.handle))
  }

  /** A worker is failing exactly when a failure was injected into it, and that happens
      at most once. */
  predicate FaultOk(w: Worker) {
    FailureOk(w) && w.past.faults == if Failing(w) then 1 else 0
  }

  lemma FaultStep(cfg: Config, ci: Cipher, g: Shared, w: Worker, c: Choice)
    requires Ready(cfg, g, w) && |c.os| == |w.job.plaintext| && FaultOk(w) && Sound(cfg, g.pipes, w)
    ensures FaultOk(WorkerStep(cfg, ci, g, w, c).w)
  {
    if Iterating(w.pc) {
      FaultIterate(cfg, ci, g, w, c);
    } else if Maintaining(w.pc) {
      FaultMaintain(cfg, g, w, c);
    } else {
      FaultLoop(cfg, g, w, c);
    }
  }

  lemma FaultIterate(cfg: Config, ci: Cipher, g: Shared, w: Worker, c: Choice)
    requires Iterating(w.pc) && Ready(cfg, g, w) && |c.os| == |w.job.plaintext|
    requires FaultOk(w) && Sound(cfg, g.pipes, w)
    ensures FaultOk(IterateStep(cfg, ci, g, w, c).w)
  {}

  lemma FaultMaintain(cfg: Config, g: Shared, w: Worker, c: Choice)
    requires Maintaining(w.pc) && FaultOk(w) && Sound(cfg, g.pipes, w)
    ensures FaultOk(MaintainStep(cfg, g, w, c).w)
  {}

  lemma FaultLoop(cfg: Config, g: Shared, w: Worker, c: Choice)
    requires !Iterating(w.pc) && !Maintaining(w.pc) && Ready(cfg, g, w) && FaultOk(w)
    ensures FaultOk(LoopStep(cfg, g, w, c).w)
  {}

  // --------------------------------------------------------- after the stop

  /** The iterations a worker has started, and the one it can still start after a stop. */
  function StartsLeft(w: Worker): nat {
    w.past.started + if w.pc == NotStarted || w.pc == Refill then 1 else 0
  }

  lemma StartsIterate(cfg: Config, ci: Cipher, g: Shared, w: Worker, c: Choice)
    requires Iterating(w.pc) && Ready(cfg, g, w) && |c.os| == |w.job.plaintext|
    ensures StartsLeft(IterateStep(cfg, ci, g, w, c).w) == StartsLeft(w)
  {}

  lemma StartsMaintain(cfg: Config, g: Shared, w: Worker, c: Choice)
    requires Maintaining(w.pc)
    ensures StartsLeft(MaintainStep(cfg, g, w, c).w) == StartsLeft(w)
  {}

  lemma StartsLoop(cfg: Config, g: Shared, w: Worker, c: Choice)
    requires !Iterating(w.pc) && !Maintaining(w.pc) && Ready(cfg, g, w) && g.stop
    ensures StartsLeft(LoopStep(cfg, g, w, c).w) == StartsLeft(w)
  {}

  /** Once a stop is requested no step gives a worker another iteration to start. */
  lemma StartsStep(cfg: Config, ci: Cipher, g: Shared, w: Worker, c: Choice)
    requires Ready(cfg, g, w) && |c.os| == |w.job.plaintext| && g.stop
    ensures StartsLeft(WorkerStep(cfg, ci, g, w, c).w) == StartsLeft(w)
  {
    if Iterating(w.pc) {
      StartsIterate(cfg, ci, g, w, c);
    } else if Maintaining(w.pc) {
      StartsMaintain(cfg, g, w, c);
    } else {
      StartsLoop(cfg, g, w, c);
    }
  }
}
