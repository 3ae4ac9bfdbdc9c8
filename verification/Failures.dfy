/** Which runs fail, told from what was made to fail in them (loop/worker.py:88-94, 204-244,
    loop/ops.py:35-52, 77-96, loop/summary.py:139-156). */
module Failures {
  import opened Wrappers
  import opened Pipelines
  import Payload
  import opened Protocol
  import opened LockSafety
  import opened PipeSafety
  import opened Phases
  import opened Accounts
  import opened Invariant
  import opened Histories
  import opened Theorems

  /** What goes wrong in a thread's step: a refill raises, a cipher call, a rekey or a load
      does not succeed, the masters cannot be drawn, a log line cannot be written. */
  predicate GoesWrong(cfg: Config, p: Pipes, w: Worker, o: Outcome) {
    match w.pc
    case Refill => cfg.mode == Payload.Rotating && o == Raise
    case Encrypt | Decrypt => o != Success
    case RekeyCheck =>
      OnInterval(cfg.rekeyEvery, w.it) && (cfg.layers.parallax || cfg.layers.wrapper) && o == Raise
    case CallRekey(which) => SlotOf(p, which).Some? && o != Success
    case CallLoad(which) => SlotOf(p, which).Some? && o != Success
    case Log(_) => o == Raise
    case _ => false
  }

  /** One more fault if something goes wrong, else none. */
  predicate FaultsMoved(cfg: Config, p: Pipes, w: Worker, o: Outcome, v: Worker) {
    v.past.faults == w.past.faults + if GoesWrong(cfg, p, w, o) then 1 else 0
  }

  lemma FaultsIterating(cfg: Config, ci: Cipher, g: Shared, w: Worker, c: Choice)
    requires Iterating(w.pc) && Ready(cfg, g, w) && |c.os| == |w.job.plaintext| && Sound(cfg, g.pipes, w)
    ensures FaultsMoved(cfg, g.pipes, w, c.outcome, IterateStep(cfg, ci, g, w, c).w)
  {}

  lemma FaultsMaintaining(cfg: Config, g: Shared, w: Worker, c: Choice)
    requires Maintaining(w.pc) && Sound(cfg, g.pipes, w)
    ensures FaultsMoved(cfg, g.pipes, w, c.outcome, MaintainStep(cfg, g, w, c).w)
  {}

  lemma FaultsLooping(cfg: Config, g: Shared, w: Worker, c: Choice)
    requires !Iterating(w.pc) && !Maintaining(w.pc) && Ready(cfg, g, w)
    ensures FaultsMoved(cfg, g.pipes, w, c.outcome, LoopStep(cfg, g, w, c).w)
  {}

  lemma FaultsWorking(cfg: Config, ci: Cipher, g: Shared, w: Worker, c: Choice)
    requires Ready(cfg, g, w) && |c.os| == |w.job.plaintext| && Sound(cfg, g.pipes, w)
    ensures FaultsMoved(cfg, g.pipes, w, c.outcome, WorkerStep(cfg, ci, g, w, c).w)
  {
    if Iterating(w.pc) {
      FaultsIterating(cfg, ci, g, w, c);
    } else if Maintaining(w.pc) {
      FaultsMaintaining(cfg, g, w, c);
    } else {
      FaultsLooping(cfg, g, w, c);
    }
  }

  /** The step is worker i's, and something goes wrong in it. */
  predicate Hits(cfg: Config, s: State, l: Label, i: nat) {
    l.Work? && l.i == i < |s.ws| && GoesWrong(cfg, s.g.pipes, s.ws[i], l.c.outcome)
  }

  lemma FaultsOfWork(cfg: Config, ci: Cipher, s: State, j: nat, c: Choice, i: nat)
    requires Enabled(cfg, s, Work(j, c)) && i < |s.ws| && Sound(cfg, s.g.pipes, s.ws[j])
    ensures var t := Apply(cfg, ci, s, Work(j, c));
            |t.ws| == |s.ws| &&
            t.ws[i].past.faults == s.ws[i].past.faults + if Hits(cfg, s, Work(j, c), i) then 1 else 0
  {
    WorkerMoves(cfg, ci, s, j, c);
    if j == i {
      FaultsWorking(cfg, ci, s.g, s.ws[i], c);
    }
  }

  lemma FaultsOfMain(cfg: Config, s: State, c: Choice, i: nat)
    requires MainReady(cfg, s) && i < |s.ws|
    ensures var t := MainStep(cfg, s, c); |t.ws| == |s.ws| && t.ws[i].past.faults == s.ws[i].past.faults
  {}

  lemma FaultsStep(cfg: Config, ci: Cipher, s: State, l: Label, i: nat)
    requires Traced(cfg, ci, s) && Enabled(cfg, s, l) && i < |s.ws|
    ensures var t := Apply(cfg, ci, s, l);
            |t.ws| == |s.ws| &&
            t.ws[i].past.faults == s.ws[i].past.faults + if Hits(cfg, s, l, i) then 1 else 0
  {
    match l
    case Work(j, c) =>
      SoundHere(cfg, ci, s, j);
      FaultsOfWork(cfg, ci, s, j, c, i);
    case Main(c) => FaultsOfMain(cfg, s, c, i);
  }

  lemma FaultsNext(cfg: Config, ci: Cipher, states: seq<State>, run: seq<Label>, i: nat, k: nat)
    requires History(cfg, ci, states, run) && k < |run| && i < |states[k].ws|
    ensures |states[k + 1].ws| == |states[k].ws|
    ensures states[k + 1].ws[i].past.faults ==
      states[k].ws[i].past.faults + if Hits(cfg, states[k], run[k], i) then 1 else 0
  {
    ReachableAt(cfg, ci, states, run, k);
    TracedReached(cfg, ci, states[k]);
    StepAt(cfg, ci, states, run, k);
    FaultsStep(cfg, ci, states[k], run[k], i);
  }

  /** Something went wrong in a step of worker i before state k. */
  predicate HitBefore(cfg: Config, states: seq<State>, run: seq<Label>, i: nat, k: nat)
    requires |states| == |run| + 1 && k <= |run|
  {
    exists j | 0 <= j < k :: Hits(cfg, states[j], run[j], i)
  }

  lemma HitMore(cfg: Config, states: seq<State>, run: seq<Label>, i: nat, k: nat)
    requires |states| == |run| + 1 && k < |run|
    ensures HitBefore(cfg, states, run, i, k + 1) <==>
      HitBefore(cfg, states, run, i, k) || Hits(cfg, states[k], run[k], i)
  {
    if HitBefore(cfg, states, run, i, k) {
      var j :| 0 <= j < k && Hits(cfg, states[j], run[j], i);
      assert j < k + 1;
    }
  }

  lemma FirstFaults(cfg: Config, ci: Cipher, states: seq<State>, run: seq<Label>)
    requires History(cfg, ci, states, run)
    ensures |states[0].ws| == cfg.workers
    ensures forall i | 0 <= i < |states[0].ws| :: states[0].ws[i].past.faults == 0
  {}

  lemma {:induction false} FaultsUpTo(cfg: Config, ci: Cipher, states: seq<State>, run: seq<Label>, i: nat, k: nat)
    requires History(cfg, ci, states, run) && k <= |run| && i < cfg.workers
    ensures |states[k].ws| == cfg.workers
    ensures states[k].ws[i].past.faults > 0 <==> HitBefore(cfg, states, run, i, k)
    decreases k
  {
    if k == 0 {
      FirstFaults(cfg, ci, states, run);
    } else {
      FaultsUpTo(cfg, ci, states, run, i, k - 1);
      FaultsNext(cfg, ci, states, run, i, k - 1);
      HitMore(cfg, states, run, i, k - 1);
    }
  }

  lemma FailingMeansFault(cfg: Config, ci: Cipher, t: State, i: nat)
    requires Reachable(cfg, ci, t) && i < |t.ws|
    ensures Failing(t.ws[i]) <==> t.ws[i].past.faults > 0
  {
    TracedReached(cfg, ci, t);
    assert FaultOk(t.ws[i]);
  }

  /** A worker is failing, or has failed, exactly when something went wrong in a step of its
      own: other workers' failures do not touch it, and its own is not lost. */
  lemma FailsExactly(cfg: Config, ci: Cipher, states: seq<State>, run: seq<Label>, i: nat, k: nat)
    requires History(cfg, ci, states, run) && k <= |run| && i < cfg.workers
    ensures |states[k].ws| == cfg.workers
    ensures Failing(states[k].ws[i]) <==> HitBefore(cfg, states, run, i, k)
  {
    FaultsUpTo(cfg, ci, states, run, i, k);
    ReachableAt(cfg, ci, states, run, k);
    FailingMeansFault(cfg, ci, states[k], i);
  }

  /** A finished run passes exactly when nothing went wrong in any step of it. */
  lemma PassesExactly(cfg: Config, ci: Cipher, states: seq<State>, run: seq<Label>)
    requires History(cfg, ci, states, run) && states[|run|].g.main == Finished
    ensures states[|run|].g.verdict == Some(forall i | 0 <= i < cfg.workers :: !HitBefore(cfg, states, run, i, |run|))
  {
    var t := states[|run|];
    ReachableAt(cfg, ci, states, run, |run|);
    VerdictIsExact(cfg, ci, t);
    forall i | 0 <= i < cfg.workers
      ensures |t.ws| == cfg.workers
      ensures t.ws[i].past.faults == 0 <==> !HitBefore(cfg, states, run, i, |run|)
    {
      FaultsUpTo(cfg, ci, states, run, i, |run|);
    }
    WorkersStay(cfg, ci, t);
  }

  lemma WorkersStay(cfg: Config, ci: Cipher, t: State)
    requires Reachable(cfg, ci, t)
    ensures |t.ws| == cfg.workers
  {
    InvReached(cfg, ci, t);
  }
}
