/** The run never deadlocks (loop/worker.py:200-227, loop/ops.py:33-56, loop/main.py:714-756). */
module Progress {
  import opened Sums
  import opened Protocol
  import opened LockSafety
  import opened Phases

  /** A choice every step accepts: calls succeed, the clock has not moved. */
  function Plain(g: Shared, n: nat): Choice {
    Choice(Success, 0, seq(n, _ => 0), 0, 0, g.time.clock, false)
  }

  function StepOf(s: State, i: nat): Label
    requires i < |s.ws|
  {
    Work(i, Plain(s.g, |s.ws[i].job.plaintext|))
  }

  predicate IsParked(w: Worker) {
    w.pc == ReadLock(Parked) || (w.pc.WriteLock? && w.pc.wait == Parked)
  }

  /** A thread inside a section can always go on. */
  lemma HolderReady(cfg: Config, s: State, i: nat)
    requires LockOk(s) && i < |s.ws| && (InRead(s.ws[i].pc) || InWrite(s.ws[i].pc))
    ensures Ready(cfg, s.g, s.ws[i])
  {
    SumAtLeast(s.ws, Reads, i);
  }

  /** A parked thread waits for somebody who can go on. */
  lemma ParkedHasHolder(cfg: Config, s: State, i: nat) returns (j: nat)
    requires LockOk(s) && i < |s.ws| && IsParked(s.ws[i])
    ensures j < |s.ws| && Ready(cfg, s.g, s.ws[j])
  {
    if s.g.lock.writer {
      j := SumWitness(s.ws, Writes);
    } else {
      j := SumWitness(s.ws, Reads);
    }
    HolderReady(cfg, s, j);
  }

  /** A started worker that has not returned and whose barrier, if it waits at one, is
      full can go on, or waits for one that can. */
  lemma ReadyBehind(cfg: Config, s: State, i: nat) returns (j: nat)
    requires LockOk(s) && PhaseOk(cfg, s) && i < |s.ws|
    requires s.ws[i].pc != NotStarted && s.ws[i].pc != Done
    requires s.ws[i].pc == InWarm ==> s.g.gates.warm == cfg.workers + 1
    requires s.ws[i].pc == InRelease ==> s.g.gates.release == cfg.workers + 1
    ensures j < |s.ws| && Ready(cfg, s.g, s.ws[j])
  {
    if IsParked(s.ws[i]) {
      j := ParkedHasHolder(cfg, s, i);
    } else {
      j := i;
      SumAtLeast(s.ws, Running, i);
      if s.ws[i].pc == ReleaseRead {
        HolderReady(cfg, s, i);
      }
    }
  }

  lemma BarrierBounds(cfg: Config, s: State)
    requires PhaseOk(cfg, s)
    ensures s.g.gates.warm <= cfg.workers + 1 && s.g.gates.release <= cfg.workers + 1
  {
    SumBound(s.ws, Warmed, 1);
    SumBound(s.ws, Opened, 1);
  }

  lemma LateForWarm(cfg: Config, s: State) returns (i: nat)
    requires LockOk(s) && PhaseOk(cfg, s) && s.g.main.WaitWarm? && s.g.gates.warm < cfg.workers + 1
    ensures i < |s.ws| && Ready(cfg, s.g, s.ws[i])
  {
    var k := SumMissing(s.ws, Warmed);
    i := ReadyBehind(cfg, s, k);
  }

  lemma LateForRelease(cfg: Config, s: State) returns (i: nat)
    requires LockOk(s) && PhaseOk(cfg, s) && s.g.main.WaitRelease? && s.g.gates.release < cfg.workers + 1
    ensures i < |s.ws| && Ready(cfg, s.g, s.ws[i])
  {
    BarrierBounds(cfg, s);
    var k := SumMissing(s.ws, Opened);
    i := ReadyBehind(cfg, s, k);
  }

  /** Whom the launcher waits for, when it waits. */
  lemma AwaitedWorker(cfg: Config, s: State) returns (i: nat)
    requires LockOk(s) && PhaseOk(cfg, s) && s.g.main != Finished
    requires !MainReady(cfg, s) || (s.g.main == Waiting && s.g.active > 0)
    ensures i < |s.ws| && Ready(cfg, s.g, s.ws[i])
  {
    BarrierBounds(cfg, s);
    match s.g.main
    case WaitWarm => i := LateForWarm(cfg, s);
    case WaitRelease => i := LateForRelease(cfg, s);
    case Waiting =>
      var k := SumWitness(s.ws, Running);
      i := ReadyBehind(cfg, s, k);
    case Joining =>
      ActiveExact(cfg, s);
      assert false;
  }

  /** Deadlock freedom: until the run is over, somebody can take a step other than the
      launcher's polling, whatever has failed so far. */
  lemma SomebodyCanMove(cfg: Config, s: State) returns (l: Label)
    requires LockOk(s) && PhaseOk(cfg, s) && !s.g.crashed && s.g.main != Finished
    ensures Enabled(cfg, s, l) && !Polls(s, l)
  {
    if MainReady(cfg, s) && !(s.g.main == Waiting && s.g.active > 0) {
      l := Main(Plain(s.g, 0));
    } else {
      var i := AwaitedWorker(cfg, s);
      l := StepOf(s, i);
    }
  }
}
