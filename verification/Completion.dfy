/** Runs come to an end: with a budget, or once a stop is requested, every run that cannot go
    on is finished, and from every state it gets into it can be driven to its end. */
module Completion {
  import opened Octets
  import opened Wrappers
  import opened RwLock
  import opened Pipelines
  import Payload
  import SplitMix
  import opened Protocol
  import opened Invariant
  import opened Progress
  import opened Termination
  import opened Theorems

  // ------------------------------------------------------------ runs there are

  function FirstPipes(cfg: Config): Pipes {
    var k := Keying(0, 0, 0);
    match cfg.shape
    case BothShapes =>
      Pipes([Handle(true, k, 0), Handle(true, k, 0)], Some(Slot(0, k, 0)), Some(Slot(1, k, 0)), Idle)
    case MessageShape => Pipes([Handle(true, k, 0)], None, Some(Slot(0, k, 0)), Idle)
    case _ => Pipes([Handle(true, k, 0)], Some(Slot(0, k, 0)), None, Idle)
  }

  function FirstWorker(cfg: Config, i: nat): Worker {
    var (plaintext, rng) :=
      Payload.Filled(SplitMix.Mix, cfg.mode, cfg.seed != 0, Payload.SeedWorker(cfg.seed, i), cfg.payload,
                     seq(cfg.payload, _ => 0));
    Worker(NotStarted, 0, Fine, false, Job(plaintext, rng, 0, [], 0, [], 0, 0, 0), Tally(0, 0, 0),
           Past(1, 0, 0, 0, 0, 0))
  }

  function FirstState(cfg: Config): State {
    State(
      Shared(Lock(0, false), FirstPipes(cfg), false, cfg.workers, Launch(0), false,
             Operations(0, 0), Barriers(0, 0), Instants(0, 0, 0, 0), None),
      seq(cfg.workers, i requires 0 <= i => FirstWorker(cfg, i)))
  }

  /** Every configuration the flags let through can be started. */
  lemma EveryConfigStarts(cfg: Config)
    requires ValidConfig(cfg)
    ensures Init(cfg, FirstState(cfg))
  {
    var s := FirstState(cfg);
    forall i | 0 <= i < |s.ws|
      ensures FreshWorker(cfg, s.ws[i]) && FirstFill(cfg, s.ws[i], i)
    {
      StartsFilled(cfg, i);
    }
  }

  lemma StartsFilled(cfg: Config, i: nat)
    ensures FreshWorker(cfg, FirstWorker(cfg, i)) && FirstFill(cfg, FirstWorker(cfg, i), i)
  {
    var os: Bytes := seq(cfg.payload, _ => 0);
    assert |os| == cfg.payload;
  }

  // ---------------------------------------------------------------- completion

  /** A run that nothing but polling can continue is over: all workers have returned and the
      launcher has released the handles and decided. */
  lemma StuckMeansFinished(cfg: Config, ci: Cipher, t: State)
    requires Correct(ci) && Reachable(cfg, ci, t)
    requires forall l :: Enabled(cfg, t, l) ==> Polls(t, l)
    ensures t.g.main == Finished && AllDone(t.ws) && t.g.verdict.Some?
  {
    NoDataMismatch(cfg, ci, t);
    if t.g.main != Finished {
      NoDeadlock(cfg, ci, t);
    }
    InvReached(cfg, ci, t);
    EndFacts(cfg, t);
  }

  lemma EndFacts(cfg: Config, t: State)
    requires Inv(cfg, t) && t.g.main == Finished
    ensures AllDone(t.ws) && t.g.verdict.Some?
  {}

  lemma {:induction false} Drive(cfg: Config, ci: Cipher, s: State) returns (run: seq<Label>)
    requires Correct(ci) && Safe(cfg, ci, s) && Bounded(cfg, s.g.stop)
    ensures Runs(cfg, ci, s, run) && After(cfg, ci, s, run).g.main == Finished
    decreases Measure(cfg, s)
  {
    if s.g.main == Finished {
      run := [];
    } else {
      var l := SomebodyCanMove(cfg, s);
      BoundedStep(cfg, ci, s, l);
      SafeStep(cfg, ci, s, l);
      var t := Apply(cfg, ci, s, l);
      var rest := Drive(cfg, ci, t);
      run := [l] + rest;
      assert run[1..] == rest;
    }
  }

  /** However a run with a budget has gone so far, it can be driven to its end; and by
      BudgetedRunsEnd no scheduler can keep it from ending. */
  lemma BudgetedRunsCanFinish(cfg: Config, ci: Cipher, t: State)
    requires Correct(ci) && Reachable(cfg, ci, t) && (cfg.iterations > 0 || t.g.stop)
    ensures exists run :: Runs(cfg, ci, t, run) && After(cfg, ci, t, run).g.main == Finished
  {
    SafeReached(cfg, ci, t);
    var run := Drive(cfg, ci, t);
  }
}
