/** Runs as histories: the states a run goes through beside the steps it takes. */
module Histories {
  import opened Protocol
  import opened Invariant

  /** Each state but the first is what the step before it makes of the state before it. */
  predicate Follows(cfg: Config, ci: Cipher, states: seq<State>, run: seq<Label>) {
    && |states| == |run| + 1
    && forall k {:trigger run[k]} | 0 <= k < |run| ::
         Enabled(cfg, states[k], run[k]) && states[k + 1] == Apply(cfg, ci, states[k], run[k])
  }

  /** From an initial state. */
  ghost predicate History(cfg: Config, ci: Cipher, states: seq<State>, run: seq<Label>) {
    Follows(cfg, ci, states, run) && Init(cfg, states[0])
  }

  /** Every run has its history. */
  lemma {:induction false} HistoryOf(cfg: Config, ci: Cipher, s: State, run: seq<Label>) returns (states: seq<State>)
    requires Runs(cfg, ci, s, run)
    ensures Follows(cfg, ci, states, run) && states[0] == s && states[|run|] == After(cfg, ci, s, run)
    decreases |run|
  {
    states := [s];
    if run != [] {
      var rest := HistoryOf(cfg, ci, Apply(cfg, ci, s, run[0]), run[1..]);
      states := [s] + rest;
      forall k | 0 <= k < |run|
        ensures Enabled(cfg, states[k], run[k]) && states[k + 1] == Apply(cfg, ci, states[k], run[k])
      {
        if k > 0 {
          assert run[1..][k - 1] == run[k];
        }
      }
    }
  }

  lemma Later(cfg: Config, ci: Cipher, states: seq<State>, run: seq<Label>)
    requires Follows(cfg, ci, states, run) && run != []
    ensures Follows(cfg, ci, states[1..], run[1..])
  {
    var later, rest := states[1..], run[1..];
    forall k | 0 <= k < |rest|
      ensures Enabled(cfg, later[k], rest[k]) && later[k + 1] == Apply(cfg, ci, later[k], rest[k])
    {
      assert rest[k] == run[k + 1];
    }
  }

  /** And the history of a run is one: the run can be taken, and gets to the last state. */
  lemma {:induction false} HistoryRuns(cfg: Config, ci: Cipher, states: seq<State>, run: seq<Label>)
    requires Follows(cfg, ci, states, run)
    ensures Runs(cfg, ci, states[0], run) && After(cfg, ci, states[0], run) == states[|run|]
    decreases |run|
  {
    if run != [] {
      Later(cfg, ci, states, run);
      assert Enabled(cfg, states[0], run[0]);
      HistoryRuns(cfg, ci, states[1..], run[1..]);
    }
  }

  lemma From(cfg: Config, ci: Cipher, states: seq<State>, run: seq<Label>, k: nat)
    requires Follows(cfg, ci, states, run) && k <= |run|
    ensures Follows(cfg, ci, states[k..], run[k..])
  {
    var later, rest := states[k..], run[k..];
    forall j | 0 <= j < |rest|
      ensures Enabled(cfg, later[j], rest[j]) && later[j + 1] == Apply(cfg, ci, later[j], rest[j])
    {
      assert rest[j] == run[k + j];
    }
  }

  lemma UpTo(cfg: Config, ci: Cipher, states: seq<State>, run: seq<Label>, k: nat)
    requires Follows(cfg, ci, states, run) && k <= |run|
    ensures Follows(cfg, ci, states[..k + 1], run[..k])
  {
    forall j | 0 <= j < k
      ensures Enabled(cfg, states[j], run[j]) && states[j + 1] == Apply(cfg, ci, states[j], run[j])
    {
      assert run[..k][j] == run[j];
    }
  }

  lemma StepAt(cfg: Config, ci: Cipher, states: seq<State>, run: seq<Label>, k: nat)
    requires Follows(cfg, ci, states, run) && k < |run|
    ensures Enabled(cfg, states[k], run[k]) && states[k + 1] == Apply(cfg, ci, states[k], run[k])
  {
  }

  lemma ReachableAt(cfg: Config, ci: Cipher, states: seq<State>, run: seq<Label>, k: nat)
    requires History(cfg, ci, states, run) && k <= |run|
    ensures Reachable(cfg, ci, states[k])
  {
    UpTo(cfg, ci, states, run, k);
    HistoryRuns(cfg, ci, states[..k + 1], run[..k]);
  }

  lemma InvAt(cfg: Config, ci: Cipher, states: seq<State>, run: seq<Label>, k: nat)
    requires History(cfg, ci, states, run) && k <= |run|
    ensures Inv(cfg, states[k])
  {
    ReachableAt(cfg, ci, states, run, k);
    InvReached(cfg, ci, states[k]);
  }

  /** Worker i is at points of the given kind in the states b to e. */
  predicate Stays(states: seq<State>, i: nat, b: nat, e: nat, kind: Pc -> bool) {
    b <= e < |states| && forall k | b <= k <= e :: i < |states[k].ws| && kind(states[k].ws[i].pc)
  }
}
