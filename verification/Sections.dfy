/** What a write section does, whatever the other threads do meanwhile (loop/ops.py:23-102):
    from the acquisition to the release the handles, slots and blobs go through exactly the
    steps of the imperative operation, so the operation takes effect as a whole. */
module Sections {
  import opened Wrappers
  import opened RwLock
  import opened Pipelines
  import opened Protocol
  import opened LockSafety
  import opened PipeSafety
  import opened Invariant
  import opened Histories
  import opened Ops

  // --------------------------------------------------------- one thread's steps

  /** An operation that began with `p` and met a failure: nothing was done, or the stream
      Pipeline was and the message Pipeline was not. */
  predicate Stopped(p: Pipes, first: Pipes, q: Pipes) {
    || (p.stream.Some? && q == p)
    || (p.message.Some? && q == first)
  }

  function FirstRekeyed(cfg: Config, p: Pipes, w: Worker): Pipes
    requires Consistent(p) && p.stage.Idle?
  {
    RekeyOne(p, Stream, cfg.layers, w.job.perm, w.job.wrap, Success)
  }

  /** Where the Pipelines stand when a thread whose rekey began with `p` is at its point. */
  predicate RekeyAt(cfg: Config, p: Pipes, w: Worker, q: Pipes)
    requires Consistent(p) && p.stage.Idle?
  {
    var perm, wrap := w.job.perm, w.job.wrap;
    var first := FirstRekeyed(cfg, p, w);
    match w.pc
    case CallRekey(which) => q == if which == Stream then p else first
    case RetainBlob(which) =>
      var from := if which == Stream then p else first;
      && SlotOf(from, which).Some? && Usable(from, SlotOf(from, which).value.handle)
      && q == RekeyCall(from, which, cfg.layers, perm, wrap)
    case CountOp(op) => op == Rekey && q == RekeyBoth(p, cfg.layers, perm, wrap)
    case StoreCount(op) => op == Rekey && q == RekeyBoth(p, cfg.layers, perm, wrap)
    case ReportWrite(op) => op == Rekey && Stopped(p, first, q)
    case ReleaseWrite(op) =>
      op == Rekey && if w.ended == Fine then q == RekeyBoth(p, cfg.layers, perm, wrap) else Stopped(p, first, q)
    case _ => false
  }

  lemma RekeyCalled(cfg: Config, g: Shared, w: Worker, c: Choice)
    requires w.pc.CallRekey? && Consistent(g.pipes) && g.pipes.stage.Idle?
    ensures var which, st := w.pc.which, MaintainStep(cfg, g, w, c);
            var slot := SlotOf(g.pipes, which);
            && st.w.job == w.job
            && if slot.None? then st.g.pipes == g.pipes && st.w.pc == AfterPipe(Rekey, which)
               else
                 && Usable(g.pipes, slot.value.handle)
                 && if c.outcome == Success then
                      && st.w.pc == RetainBlob(which)
                      && st.g.pipes == RekeyCall(g.pipes, which, cfg.layers, w.job.perm, w.job.wrap)
                    else
                      && st.g.pipes == g.pipes
                      && (st.w.pc == ReportWrite(Rekey) || (st.w.pc == ReleaseWrite(Rekey) && st.w.ended == Escaped))
  {}

  lemma RekeyCalls(cfg: Config, p: Pipes, g: Shared, w: Worker, c: Choice)
    requires Consistent(p) && p.stage.Idle? && w.pc.CallRekey? && RekeyAt(cfg, p, w, g.pipes)
    ensures var st := MaintainStep(cfg, g, w, c);
            RekeyAt(cfg, p, st.w, st.g.pipes) && st.w.job == w.job
  {
    RekeyCalled(cfg, g, w, c);
    RekeyNext(cfg, p, w, g.pipes, MaintainStep(cfg, g, w, c).w, MaintainStep(cfg, g, w, c).g.pipes, c.outcome);
  }

  lemma RekeyNext(cfg: Config, p: Pipes, w: Worker, q: Pipes, w': Worker, q': Pipes, o: Outcome)
    requires Consistent(p) && p.stage.Idle? && w.pc.CallRekey? && RekeyAt(cfg, p, w, q) && w'.job == w.job
    requires var which := w.pc.which;
             var slot := SlotOf(q, which);
             if slot.None? then q' == q && w'.pc == AfterPipe(Rekey, which)
             else
               && Usable(q, slot.value.handle)
               && if o == Success then
                    w'.pc == RetainBlob(which) && q' == RekeyCall(q, which, cfg.layers, w.job.perm, w.job.wrap)
                  else
                    && q' == q
                    && (w'.pc == ReportWrite(Rekey) || (w'.pc == ReleaseWrite(Rekey) && w'.ended == Escaped))
    ensures RekeyAt(cfg, p, w', q')
  {}

  lemma RekeyElse(cfg: Config, p: Pipes, g: Shared, w: Worker, c: Choice)
    requires Consistent(p) && p.stage.Idle? && InWrite(w.pc) && !w.pc.CallRekey? && RekeyAt(cfg, p, w, g.pipes)
    ensures var st := MaintainStep(cfg, g, w, c);
            && (InWrite(st.w.pc) ==> RekeyAt(cfg, p, st.w, st.g.pipes))
            && st.w.job.perm == w.job.perm && st.w.job.wrap == w.job.wrap
  {}

  /** Where they stand when a thread whose reopen began with `p` is at its point. */
  predicate ReopenAt(p: Pipes, w: Worker, q: Pipes)
    requires Consistent(p) && p.stage.Idle?
  {
    var first := ReopenOne(p, Stream, Success);
    match w.pc
    case CallLoad(which) => q == if which == Stream then p else first
    case CallFree(which) =>
      var from := if which == Stream then p else first;
      SlotOf(from, which).Some? && q == LoadCall(from, which)
    case SwapIn(which) =>
      var from := if which == Stream then p else first;
      SlotOf(from, which).Some? && q == FreeOld(LoadCall(from, which), which)
    case CountOp(op) => op == Cycle && q == ReopenBoth(p)
    case StoreCount(op) => op == Cycle && q == ReopenBoth(p)
    case ReportWrite(op) => op == Cycle && Stopped(p, first, q)
    case ReleaseWrite(op) => op == Cycle && if w.ended == Fine then q == ReopenBoth(p) else Stopped(p, first, q)
    case _ => false
  }

  lemma ReopenCalled(cfg: Config, g: Shared, w: Worker, c: Choice)
    requires w.pc.CallLoad?
    ensures var which, st := w.pc.which, MaintainStep(cfg, g, w, c);
            if SlotOf(g.pipes, which).None? then st.g.pipes == g.pipes && st.w.pc == AfterPipe(Cycle, which)
            else if c.outcome == Success then st.w.pc == CallFree(which) && st.g.pipes == LoadCall(g.pipes, which)
            else
              && st.g.pipes == g.pipes
              && (st.w.pc == ReportWrite(Cycle) || (st.w.pc == ReleaseWrite(Cycle) && st.w.ended == Escaped))
  {}

  lemma ReopenCalls(cfg: Config, p: Pipes, g: Shared, w: Worker, c: Choice)
    requires Consistent(p) && p.stage.Idle? && w.pc.CallLoad? && ReopenAt(p, w, g.pipes)
    ensures var st := MaintainStep(cfg, g, w, c); ReopenAt(p, st.w, st.g.pipes)
  {
    ReopenCalled(cfg, g, w, c);
    ReopenNext(p, w, g.pipes, MaintainStep(cfg, g, w, c).w, MaintainStep(cfg, g, w, c).g.pipes, c.outcome);
  }

  lemma ReopenNext(p: Pipes, w: Worker, q: Pipes, w': Worker, q': Pipes, o: Outcome)
    requires Consistent(p) && p.stage.Idle? && w.pc.CallLoad? && ReopenAt(p, w, q)
    requires var which := w.pc.which;
             if SlotOf(q, which).None? then q' == q && w'.pc == AfterPipe(Cycle, which)
             else if o == Success then w'.pc == CallFree(which) && q' == LoadCall(q, which)
             else
               && q' == q
               && (w'.pc == ReportWrite(Cycle) || (w'.pc == ReleaseWrite(Cycle) && w'.ended == Escaped))
    ensures ReopenAt(p, w', q')
  {}

  lemma ReopenMoves(cfg: Config, p: Pipes, g: Shared, w: Worker, c: Choice)
    requires Consistent(p) && p.stage.Idle? && (w.pc.CallFree? || w.pc.SwapIn?) && ReopenAt(p, w, g.pipes)
    ensures var st := MaintainStep(cfg, g, w, c); ReopenAt(p, st.w, st.g.pipes)
  {}

  lemma ReopenElse(cfg: Config, p: Pipes, g: Shared, w: Worker, c: Choice)
    requires Consistent(p) && p.stage.Idle? && InWrite(w.pc) && ReopenAt(p, w, g.pipes)
    requires !w.pc.CallLoad? && !w.pc.CallFree? && !w.pc.SwapIn?
    ensures var st := MaintainStep(cfg, g, w, c); InWrite(st.w.pc) ==> ReopenAt(p, st.w, st.g.pipes)
  {}

  // ------------------------------------------------------------- among the others

  /** While one thread is in a write section nobody else touches the Pipelines, or it. */
  lemma OthersWait(cfg: Config, ci: Cipher, s: State, l: Label, i: nat)
    requires Inv(cfg, s) && Enabled(cfg, s, l) && i < |s.ws| && InWrite(s.ws[i].pc) && !(l.Work? && l.i == i)
    ensures var t := Apply(cfg, ci, s, l); t.g.pipes == s.g.pipes && i < |t.ws| && t.ws[i] == s.ws[i]
  {
    match l
    case Work(j, c) =>
      Exclusive(s, i, j);
      PipesStill(cfg, ci, s.g, s.ws[j], c);
      WorkerMoves(cfg, ci, s, j, c);
      WakeOutside(s.ws[i]);
    case Main(c) =>
  }

  lemma OwnStep(cfg: Config, ci: Cipher, s: State, i: nat, c: Choice)
    requires Enabled(cfg, s, Work(i, c)) && Maintaining(s.ws[i].pc)
    ensures var t, st := Apply(cfg, ci, s, Work(i, c)), MaintainStep(cfg, s.g, s.ws[i], c);
            t.g == st.g && i < |t.ws| && t.ws[i] == st.w
  {
    WorkerMoves(cfg, ci, s, i, c);
  }

  /** Worker i is in the section of its operation, which began with `p`. */
  predicate InSection(cfg: Config, p: Pipes, op: Op, perm: nat, wrap: nat, s: State, i: nat) {
    && Consistent(p) && p.stage.Idle? && i < |s.ws| && InWrite(s.ws[i].pc)
    && s.ws[i].job.perm == perm && s.ws[i].job.wrap == wrap
    && if op == Rekey then RekeyAt(cfg, p, s.ws[i], s.g.pipes) else ReopenAt(p, s.ws[i], s.g.pipes)
  }

  lemma SectionOwnStep(cfg: Config, g: Shared, w: Worker, c: Choice, p: Pipes, op: Op)
    requires Consistent(p) && p.stage.Idle? && InWrite(w.pc)
    requires if op == Rekey then RekeyAt(cfg, p, w, g.pipes) else ReopenAt(p, w, g.pipes)
    ensures var st := MaintainStep(cfg, g, w, c);
            && st.w.job.perm == w.job.perm && st.w.job.wrap == w.job.wrap
            && (InWrite(st.w.pc) ==>
                  if op == Rekey then RekeyAt(cfg, p, st.w, st.g.pipes) else ReopenAt(p, st.w, st.g.pipes))
  {
    MastersHeld(cfg, g, w, c);
    if op == Rekey {
      if w.pc.CallRekey? { RekeyCalls(cfg, p, g, w, c); } else { RekeyElse(cfg, p, g, w, c); }
    } else if w.pc.CallLoad? {
      ReopenCalls(cfg, p, g, w, c);
    } else if w.pc.CallFree? || w.pc.SwapIn? {
      ReopenMoves(cfg, p, g, w, c);
    } else {
      ReopenElse(cfg, p, g, w, c);
    }
  }

  lemma MastersHeld(cfg: Config, g: Shared, w: Worker, c: Choice)
    requires Maintaining(w.pc) && w.pc != RekeyCheck
    ensures var v := MaintainStep(cfg, g, w, c).w; v.job.perm == w.job.perm && v.job.wrap == w.job.wrap
  {}

  lemma SectionStep(cfg: Config, ci: Cipher, s: State, l: Label, p: Pipes, op: Op, perm: nat, wrap: nat, i: nat)
    requires Inv(cfg, s) && Enabled(cfg, s, l) && InSection(cfg, p, op, perm, wrap, s, i)
    ensures var t := Apply(cfg, ci, s, l);
            i < |t.ws| && InWrite(t.ws[i].pc) ==> InSection(cfg, p, op, perm, wrap, t, i)
  {
    if l.Work? && l.i == i {
      OwnStep(cfg, ci, s, i, l.c);
      SectionOwnStep(cfg, s.g, s.ws[i], l.c, p, op);
    } else {
      OthersWait(cfg, ci, s, l, i);
    }
  }

  // ------------------------------------------------------------------ over runs

  /** Others may wake a thread, and no more. */
  lemma OthersWake(cfg: Config, ci: Cipher, s: State, l: Label, i: nat)
    requires Enabled(cfg, s, l) && i < |s.ws| && s.ws[i].pc.WriteLock? && !(l.Work? && l.i == i)
    requires s.g.main.Launch? && s.g.main.next < |s.ws| ==> s.ws[s.g.main.next].pc == NotStarted
    ensures var t := Apply(cfg, ci, s, l);
            i < |t.ws| && t.ws[i].job == s.ws[i].job && t.ws[i].pc.WriteLock? && t.ws[i].pc.op == s.ws[i].pc.op
  {
    match l
    case Work(j, c) => WorkerMoves(cfg, ci, s, j, c);
    case Main(c) =>
  }

  lemma NextIsUnstarted(cfg: Config, s: State)
    requires Inv(cfg, s)
    ensures s.g.main.Launch? && s.g.main.next < |s.ws| ==> s.ws[s.g.main.next].pc == NotStarted
  {}

  lemma IdleToEnter(cfg: Config, ci: Cipher, s: State, i: nat, c: Choice)
    requires Inv(cfg, s) && Enabled(cfg, s, Work(i, c)) && s.ws[i].pc.WriteLock? && MayWrite(s.g.lock)
    ensures s.g.pipes.stage.Idle? && Consistent(s.g.pipes)
  {
    WorkerNotDone(cfg, s, i);
  }

  /** The step into the section. */
  lemma Entering(cfg: Config, ci: Cipher, s: State, l: Label, i: nat)
    requires Inv(cfg, s) && Enabled(cfg, s, l) && i < |s.ws| && s.ws[i].pc.WriteLock?
    requires i < |Apply(cfg, ci, s, l).ws| && InWrite(Apply(cfg, ci, s, l).ws[i].pc)
    ensures l.Work? && l.i == i
    ensures InSection(cfg, s.g.pipes, s.ws[i].pc.op, s.ws[i].job.perm, s.ws[i].job.wrap, Apply(cfg, ci, s, l), i)
  {
    if !(l.Work? && l.i == i) {
      NextIsUnstarted(cfg, s);
      OthersWake(cfg, ci, s, l, i);
    } else {
      OwnStep(cfg, ci, s, i, l.c);
      IdleToEnter(cfg, ci, s, i, l.c);
    }
  }

  lemma SectionNext(cfg: Config, ci: Cipher, states: seq<State>, run: seq<Label>, p: Pipes, op: Op, perm: nat,
                    wrap: nat, i: nat, k: nat)
    requires History(cfg, ci, states, run) && k < |run| && InSection(cfg, p, op, perm, wrap, states[k], i)
    ensures i < |states[k + 1].ws| && InWrite(states[k + 1].ws[i].pc) ==>
              InSection(cfg, p, op, perm, wrap, states[k + 1], i)
  {
    InvAt(cfg, ci, states, run, k);
    StepAt(cfg, ci, states, run, k);
    SectionStep(cfg, ci, states[k], run[k], p, op, perm, wrap, i);
  }

  lemma {:induction false} SectionAt(cfg: Config, ci: Cipher, states: seq<State>, run: seq<Label>, p: Pipes, op: Op,
                                     perm: nat, wrap: nat, i: nat, b: nat, k: nat)
    requires History(cfg, ci, states, run) && Stays(states, i, b, k, InWrite)
    requires InSection(cfg, p, op, perm, wrap, states[b], i)
    ensures InSection(cfg, p, op, perm, wrap, states[k], i)
    decreases k
  {
    if k > b {
      SectionAt(cfg, ci, states, run, p, op, perm, wrap, i, b, k - 1);
      SectionNext(cfg, ci, states, run, p, op, perm, wrap, i, k - 1);
    }
  }

  /** Worker i waits for the lock in state b, is inside in the next, and before the release in
      state e. */
  predicate Spans(states: seq<State>, i: nat, op: Op, b: nat, e: nat) {
    && b < e && Stays(states, i, b + 1, e, InWrite) && states[e].ws[i].pc == ReleaseWrite(op)
    && i < |states[b].ws| && states[b].ws[i].pc.WriteLock? && states[b].ws[i].pc.op == op
  }

  lemma SectionOf(cfg: Config, ci: Cipher, states: seq<State>, run: seq<Label>, i: nat, op: Op, b: nat, e: nat)
    requires History(cfg, ci, states, run) && Spans(states, i, op, b, e)
    ensures var w := states[b].ws[i]; InSection(cfg, states[b].g.pipes, op, w.job.perm, w.job.wrap, states[e], i)
  {
    InvAt(cfg, ci, states, run, b);
    StepAt(cfg, ci, states, run, b);
    Entering(cfg, ci, states[b], run[b], i);
    SectionAt(cfg, ci, states, run, states[b].g.pipes, op, states[b].ws[i].job.perm, states[b].ws[i].job.wrap,
              i, b + 1, e);
  }

  /** A rekey takes effect as a whole, however many steps of other threads fall between its
      own: when it succeeds every Pipeline has the masters the thread holds, in the layers
      that are on; when a call fails, the Pipelines up to that call do and the rest is as it
      was. */
  lemma RekeyIsAtomic(cfg: Config, ci: Cipher, states: seq<State>, run: seq<Label>, i: nat, b: nat, e: nat)
    requires History(cfg, ci, states, run) && Spans(states, i, Rekey, b, e)
    ensures var p, q, job := states[b].g.pipes, states[e].g.pipes, states[b].ws[i].job;
            if states[e].ws[i].ended == Fine then
              && Remastered(p, q, Stream, cfg.layers, job.perm, job.wrap)
              && Remastered(p, q, Message, cfg.layers, job.perm, job.wrap)
            else
              || (p.stream.Some? && q == p)
              || (&& p.message.Some?
                  && Remastered(p, q, Stream, cfg.layers, job.perm, job.wrap) && Untouched(p, q, Message))
  {
    var p, job := states[b].g.pipes, states[b].ws[i].job;
    SectionOf(cfg, ci, states, run, i, Rekey, b, e);
    RekeyOneFields(p, Stream, cfg.layers, job.perm, job.wrap);
    RekeyBothFields(p, cfg.layers, job.perm, job.wrap);
  }

  /** So does a reopen: when it succeeds every Pipeline has a handle opened meanwhile, of the
      keying it had, and the handle before is freed. */
  lemma ReopenIsAtomic(cfg: Config, ci: Cipher, states: seq<State>, run: seq<Label>, i: nat, b: nat, e: nat)
    requires History(cfg, ci, states, run) && Spans(states, i, Cycle, b, e)
    ensures var p, q := states[b].g.pipes, states[e].g.pipes;
            if states[e].ws[i].ended == Fine then Reopened(p, q, Stream) && Reopened(p, q, Message)
            else
              || (p.stream.Some? && q == p)
              || (p.message.Some? && Reopened(p, q, Stream) && Untouched(p, q, Message))
  {
    var p := states[b].g.pipes;
    SectionOf(cfg, ci, states, run, i, Cycle, b, e);
    ReopenOneFields(p, Stream);
    ReopenBothFields(p);
  }

  // -------------------------------------------------- from the draw to the log line

  predicate WaitsToRekey(pc: Pc) {
    pc.WriteLock? && pc.op == Rekey
  }

  lemma WaitingStep(cfg: Config, ci: Cipher, s: State, l: Label, i: nat)
    requires Inv(cfg, s) && Enabled(cfg, s, l) && i < |s.ws| && WaitsToRekey(s.ws[i].pc)
    ensures var t := Apply(cfg, ci, s, l);
            i < |t.ws| && t.ws[i].job.perm == s.ws[i].job.perm && t.ws[i].job.wrap == s.ws[i].job.wrap
  {
    if l.Work? && l.i == i {
      OwnStep(cfg, ci, s, i, l.c);
      MastersHeld(cfg, s.g, s.ws[i], l.c);
    } else {
      NextIsUnstarted(cfg, s);
      OthersWake(cfg, ci, s, l, i);
    }
  }

  lemma WaitingNext(cfg: Config, ci: Cipher, states: seq<State>, run: seq<Label>, i: nat, k: nat)
    requires History(cfg, ci, states, run) && k < |run|
    requires i < |states[k].ws| && WaitsToRekey(states[k].ws[i].pc)
    ensures i < |states[k + 1].ws|
    ensures states[k + 1].ws[i].job.perm == states[k].ws[i].job.perm
    ensures states[k + 1].ws[i].job.wrap == states[k].ws[i].job.wrap
  {
    InvAt(cfg, ci, states, run, k);
    StepAt(cfg, ci, states, run, k);
    WaitingStep(cfg, ci, states[k], run[k], i);
  }

  /** Worker i draws its masters in step a and then waits for the lock up to state b. */
  predicate Draws(states: seq<State>, run: seq<Label>, i: nat, a: nat, b: nat) {
    && a < b && a < |run| && run[a].Work? && run[a].i == i && Stays(states, i, a + 1, b, WaitsToRekey)
    && i < |states[a].ws| && states[a].ws[i].pc == RekeyCheck
  }

  lemma {:induction false} DrawnAt(cfg: Config, ci: Cipher, states: seq<State>, run: seq<Label>, i: nat, a: nat, b: nat)
    requires History(cfg, ci, states, run) && Draws(states, run, i, a, b)
    ensures states[b].ws[i].job.perm == run[a].c.perm && states[b].ws[i].job.wrap == run[a].c.wrap
    decreases b
  {
    if b == a + 1 {
      StepAt(cfg, ci, states, run, a);
      OwnStep(cfg, ci, states[a], i, run[a].c);
    } else {
      DrawnAt(cfg, ci, states, run, i, a, b - 1);
      WaitingNext(cfg, ci, states, run, i, b - 1);
    }
  }

  predicate NobodyWrites(s: State) {
    !Closing(s.g.main) && forall i | 0 <= i < |s.ws| :: !InWrite(s.ws[i].pc)
  }

  lemma QuietStep(cfg: Config, ci: Cipher, s: State, l: Label)
    requires Enabled(cfg, s, l) && NobodyWrites(s)
    ensures Apply(cfg, ci, s, l).g.pipes == s.g.pipes
  {
    match l
    case Work(i, c) => PipesStill(cfg, ci, s.g, s.ws[i], c);
    case Main(c) =>
  }

  lemma LeavingStep(cfg: Config, ci: Cipher, s: State, l: Label, i: nat)
    requires Inv(cfg, s) && Enabled(cfg, s, l) && i < |s.ws| && s.ws[i].pc.ReleaseWrite?
    ensures Apply(cfg, ci, s, l).g.pipes == s.g.pipes
  {
    if l.Work? && l.i == i {
      OwnStep(cfg, ci, s, i, l.c);
    } else {
      OthersWait(cfg, ci, s, l, i);
    }
  }

  lemma QuietNext(cfg: Config, ci: Cipher, states: seq<State>, run: seq<Label>, i: nat, k: nat)
    requires History(cfg, ci, states, run) && k < |run|
    requires NobodyWrites(states[k]) || (i < |states[k].ws| && states[k].ws[i].pc.ReleaseWrite?)
    ensures states[k + 1].g.pipes == states[k].g.pipes
  {
    InvAt(cfg, ci, states, run, k);
    StepAt(cfg, ci, states, run, k);
    if NobodyWrites(states[k]) {
      QuietStep(cfg, ci, states[k], run[k]);
    } else {
      LeavingStep(cfg, ci, states[k], run[k], i);
    }
  }

  lemma {:induction false} QuietKeeps(cfg: Config, ci: Cipher, states: seq<State>, run: seq<Label>, i: nat,
                                      e: nat, k: nat)
    requires History(cfg, ci, states, run) && e <= k <= |run|
    requires i < |states[e].ws| && states[e].ws[i].pc.ReleaseWrite?
    requires forall j | e < j < k :: NobodyWrites(states[j])
    ensures states[k].g.pipes == states[e].g.pipes
    decreases k
  {
    if k > e {
      QuietKeeps(cfg, ci, states, run, i, e, k - 1);
      QuietNext(cfg, ci, states, run, i, k - 1);
    }
  }

  /** From the draw of the masters on: once the worker has rekeyed, and until another operation
      begins, every Pipeline carries, in the layers that are on, exactly the masters that
      worker drew, and otherwise those it had before. */
  lemma RekeyCarriesTheDrawnMasters(cfg: Config, ci: Cipher, states: seq<State>, run: seq<Label>, i: nat,
                                    a: nat, b: nat, e: nat, k: nat)
    requires History(cfg, ci, states, run) && e <= k <= |run|
    requires Draws(states, run, i, a, b) && Spans(states, i, Rekey, b, e) && states[e].ws[i].ended == Fine
    requires forall j | e < j < k :: NobodyWrites(states[j])
    ensures var p, q, c := states[b].g.pipes, states[k].g.pipes, run[a].c;
            && Remastered(p, q, Stream, cfg.layers, c.perm, c.wrap)
            && Remastered(p, q, Message, cfg.layers, c.perm, c.wrap)
  {
    DrawnAt(cfg, ci, states, run, i, a, b);
    RekeyIsAtomic(cfg, ci, states, run, i, b, e);
    QuietKeeps(cfg, ci, states, run, i, e, k);
  }
}
