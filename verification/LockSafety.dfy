/** The read-write lock over every interleaving (loop/state.py:86-112): the reader count
    is exact, writers exclude everyone, and no wake-up is lost. */
module LockSafety {
  import opened RwLock
  import opened Sums
  import opened Protocol

  // ---------------------------------------------------- one step, thread by thread

  /** Thread i moved; the others at most woke up. */
  predicate Moved(s: State, t: State, i: nat, notify: bool) {
    && i < |s.ws| == |t.ws|
    && forall j | 0 <= j < |s.ws| && j != i :: t.ws[j] == if notify then Wake(s.ws[j]) else s.ws[j]
  }

  /** A thread that notifies is not itself parked. */
  lemma NotifierAwake(cfg: Config, ci: Cipher, g: Shared, w: Worker, c: Choice)
    requires Ready(cfg, g, w) && |c.os| == |w.job.plaintext|
    ensures var st := WorkerStep(cfg, ci, g, w, c); st.notify ==> Wake(st.w) == st.w
  {}

  lemma WorkerMoves(cfg: Config, ci: Cipher, s: State, i: nat, c: Choice)
    requires Enabled(cfg, s, Work(i, c))
    ensures var st := WorkerStep(cfg, ci, s.g, s.ws[i], c);
            var t := Apply(cfg, ci, s, Work(i, c));
            t.g == st.g && t.ws[i] == st.w && Moved(s, t, i, st.notify)
  {
    NotifierAwake(cfg, ci, s.g, s.ws[i], c);
  }

  /** Waking a thread does not change its share. */
  ghost predicate Steady(f: Worker -> nat) {
    forall w: Worker :: f(Wake(w)) == f(w)
  }

  /** A total that waking does not change moves with the stepping thread alone. */
  lemma SumAfterMove(s: State, t: State, i: nat, notify: bool, f: Worker -> nat)
    requires Moved(s, t, i, notify)
    requires Steady(f)
    ensures Sum(t.ws, f) == Sum(s.ws, f) - f(s.ws[i]) + f(t.ws[i])
  {
    SumUpdate(s.ws, f, i, t.ws[i]);
    SumSame(t.ws, s.ws[i := t.ws[i]], f);
  }

  // -------------------------------------------------------------- the lock

  predicate InRead(pc: Pc) {
    match pc
    case Dispatch | Encrypt | Redispatch | Decrypt | Compare
       | CountIter | CountEnc | CountDec | ReportRead | ReleaseRead => true
    case _ => false
  }

  predicate InWrite(pc: Pc) {
    match pc
    case CallRekey(_) | RetainBlob(_) | CallLoad(_) | CallFree(_) | SwapIn(_)
       | CountOp(_) | StoreCount(_) | ReportWrite(_) | ReleaseWrite(_) => true
    case _ => false
  }

  function Reads(w: Worker): nat { if InRead(w.pc) then 1 else 0 }

  function Writes(w: Worker): nat { if InWrite(w.pc) then 1 else 0 }

  lemma SectionsSteady()
    ensures Steady(Reads) && Steady(Writes)
  {}

  /** Every parked thread has a blocking predicate that is true. */
  predicate ParkedForAReason(k: Lock, w: Worker) {
    && (w.pc == ReadLock(Parked) ==> Blocked(k, ForRead))
    && (w.pc.WriteLock? && w.pc.wait == Parked ==> Blocked(k, ForWrite))
  }

  predicate LockOk(s: State) {
    && s.g.lock.readers == Sum(s.ws, Reads)
    && (if s.g.lock.writer then 1 else 0) == Sum(s.ws, Writes)
    && (s.g.lock.writer ==> s.g.lock.readers == 0)
    && forall i | 0 <= i < |s.ws| :: ParkedForAReason(s.g.lock, s.ws[i])
  }

  lemma LockOkInit(cfg: Config, s: State)
    requires Built(cfg, s)
    ensures LockOk(s)
  {
    SumConstant(s.ws, Reads, 0);
    SumConstant(s.ws, Writes, 0);
  }

  function Held(writer: bool): nat { if writer then 1 else 0 }

  /** One thread's step, seen from the lock. */
  predicate LockMoves(k: Lock, w: Worker, k': Lock, w': Worker, notify: bool) {
    && k'.readers + Reads(w) == k.readers + Reads(w')
    && Held(k'.writer) + Writes(w) == Held(k.writer) + Writes(w')
    && (k'.writer ==> k'.readers == 0)
    && ParkedForAReason(k', w')
    && (!notify ==> (Blocked(k, ForRead) ==> Blocked(k', ForRead)) && (Blocked(k, ForWrite) ==> Blocked(k', ForWrite)))
  }

  lemma LockStepReadSection(cfg: Config, ci: Cipher, g: Shared, w: Worker, c: Choice)
    requires InRead(w.pc) && Ready(cfg, g, w) && |c.os| == |w.job.plaintext|
    requires g.lock.writer ==> g.lock.readers == 0
    ensures var st := IterateStep(cfg, ci, g, w, c); LockMoves(g.lock, w, st.g.lock, st.w, st.notify)
  {}

  lemma LockStepEnterRead(cfg: Config, ci: Cipher, g: Shared, w: Worker, c: Choice)
    requires Iterating(w.pc) && !InRead(w.pc) && Ready(cfg, g, w) && |c.os| == |w.job.plaintext|
    requires g.lock.writer ==> g.lock.readers == 0
    ensures var st := IterateStep(cfg, ci, g, w, c); LockMoves(g.lock, w, st.g.lock, st.w, st.notify)
  {}

  lemma LockStepForeign(cfg: Config, g: Shared, w: Worker, c: Choice)
    requires (w.pc.CallRekey? || w.pc.CallLoad?) && g.lock.writer && g.lock.readers == 0
    ensures var st := MaintainStep(cfg, g, w, c); LockMoves(g.lock, w, st.g.lock, st.w, st.notify)
  {}

  lemma LockStepWriteSection(cfg: Config, g: Shared, w: Worker, c: Choice)
    requires InWrite(w.pc) && !w.pc.CallRekey? && !w.pc.CallLoad? && g.lock.writer && g.lock.readers == 0
    ensures var st := MaintainStep(cfg, g, w, c); LockMoves(g.lock, w, st.g.lock, st.w, st.notify)
  {}

  lemma LockStepEnterWrite(cfg: Config, g: Shared, w: Worker, c: Choice)
    requires Maintaining(w.pc) && !InWrite(w.pc)
    requires g.lock.writer ==> g.lock.readers == 0
    ensures var st := MaintainStep(cfg, g, w, c); LockMoves(g.lock, w, st.g.lock, st.w, st.notify)
  {}

  lemma LockStepLoop(cfg: Config, g: Shared, w: Worker, c: Choice)
    requires !Iterating(w.pc) && !Maintaining(w.pc) && Ready(cfg, g, w)
    requires g.lock.writer ==> g.lock.readers == 0
    ensures var st := LoopStep(cfg, g, w, c); LockMoves(g.lock, w, st.g.lock, st.w, st.notify)
  {}

  lemma LockStep(cfg: Config, ci: Cipher, g: Shared, w: Worker, c: Choice)
    requires Ready(cfg, g, w) && |c.os| == |w.job.plaintext|
    requires g.lock.writer ==> g.lock.readers == 0
    requires InWrite(w.pc) ==> g.lock.writer
    ensures var st := WorkerStep(cfg, ci, g, w, c); LockMoves(g.lock, w, st.g.lock, st.w, st.notify)
  {
    if Iterating(w.pc) {
      if InRead(w.pc) { LockStepReadSection(cfg, ci, g, w, c); } else { LockStepEnterRead(cfg, ci, g, w, c); }
    } else if Maintaining(w.pc) {
      if !InWrite(w.pc) {
        LockStepEnterWrite(cfg, g, w, c);
      } else if w.pc.CallRekey? || w.pc.CallLoad? {
        LockStepForeign(cfg, g, w, c);
      } else {
        LockStepWriteSection(cfg, g, w, c);
      }
    } else {
      LockStepLoop(cfg, g, w, c);
    }
  }

  lemma ParkedMove(k: Lock, k': Lock, v: Worker, notify: bool)
    requires ParkedForAReason(k, v)
    requires !notify ==>
      (Blocked(k, ForRead) ==> Blocked(k', ForRead)) && (Blocked(k, ForWrite) ==> Blocked(k', ForWrite))
    ensures ParkedForAReason(k', if notify then Wake(v) else v)
  {}

  lemma LockOkMove(s: State, t: State, i: nat, notify: bool)
    requires LockOk(s) && Moved(s, t, i, notify)
    requires LockMoves(s.g.lock, s.ws[i], t.g.lock, t.ws[i], notify)
    ensures LockOk(t)
  {
    SectionsSteady();
    SumAfterMove(s, t, i, notify, Reads);
    SumAfterMove(s, t, i, notify, Writes);
    forall j | 0 <= j < |t.ws|
      ensures ParkedForAReason(t.g.lock, t.ws[j])
    {
      if j != i {
        ParkedMove(s.g.lock, t.g.lock, s.ws[j], notify);
      }
    }
  }

  lemma LockOkWork(cfg: Config, ci: Cipher, s: State, i: nat, c: Choice)
    requires LockOk(s) && Enabled(cfg, s, Work(i, c))
    ensures LockOk(Apply(cfg, ci, s, Work(i, c)))
  {
    WorkerMoves(cfg, ci, s, i, c);
    SumAtLeast(s.ws, Writes, i);
    LockStep(cfg, ci, s.g, s.ws[i], c);
    LockOkMove(s, Apply(cfg, ci, s, Work(i, c)), i, WorkerStep(cfg, ci, s.g, s.ws[i], c).notify);
  }

  /** The launcher leaves the lock alone, and starts one thread at a time. */
  lemma MainLeavesLock(cfg: Config, s: State, c: Choice)
    requires MainReady(cfg, s)
    ensures var t := MainStep(cfg, s, c);
            && t.g.lock == s.g.lock
            && t.ws == (if s.g.main.Launch? && s.g.main.next < |s.ws|
                        then s.ws[s.g.main.next := s.ws[s.g.main.next].(pc := Refill)] else s.ws)
  {}

  lemma LockOkMain(cfg: Config, ci: Cipher, s: State, c: Choice)
    requires LockOk(s) && Enabled(cfg, s, Main(c))
    requires s.g.main.Launch? && s.g.main.next < |s.ws| ==> s.ws[s.g.main.next].pc == NotStarted
    ensures LockOk(Apply(cfg, ci, s, Main(c)))
  {
    MainLeavesLock(cfg, s, c);
    if s.g.main.Launch? && s.g.main.next < |s.ws| {
      var k := s.g.main.next;
      SumUpdate(s.ws, Reads, k, s.ws[k].(pc := Refill));
      SumUpdate(s.ws, Writes, k, s.ws[k].(pc := Refill));
    }
  }

  /** Two threads are never both in a write section, nor one in each kind. */
  lemma Exclusive(s: State, i: nat, j: nat)
    requires LockOk(s) && i < |s.ws| && j < |s.ws| && i != j && InWrite(s.ws[i].pc)
    ensures !InWrite(s.ws[j].pc) && !InRead(s.ws[j].pc)
    ensures s.g.lock.writer
  {
    SumAtLeast(s.ws, Writes, i);
    SumAtLeast(s.ws, Reads, j);
    if i < j { SumPair(s.ws, Writes, i, j); } else { SumPair(s.ws, Writes, j, i); }
  }
}
