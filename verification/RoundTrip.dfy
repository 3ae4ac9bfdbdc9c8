/** Round-trip isolation (loop/worker.py:104-201): from a worker's encrypt to the matching
    decrypt nothing it depends on changes, so what is compared is the plaintext sent through
    one keying and back, and with a correct cipher the data-mismatch exit is never taken. */
module RoundTrip {
  import opened Octets
  import opened Wrappers
  import opened Pipelines
  import opened Sums
  import opened Protocol
  import opened LockSafety
  import opened PipeSafety

  /** Where the worker is between taking its handle and having its plaintext back. */
  predicate HoldsHandle(pc: Pc) { pc == Encrypt || pc == Redispatch || pc == Decrypt }

  predicate HoldsWire(pc: Pc) { pc == Redispatch || pc == Decrypt }

  function SlotFor(cfg: Config, p: Pipes, w: Worker): Option<Slot> {
    SlotOf(p, PipeFor(SurfaceOf(cfg, w.it)))
  }

  /** What comes back of a plaintext that goes through the cipher and back under one keying. */
  function Through(ci: Cipher, surface: Surface, k: Keying, nonce: nat, plaintext: Bytes): Bytes {
    ci.dec(surface, k, ci.enc(surface, k, nonce, plaintext))
  }

  /** The handle in hand is the live one of its surface; the wire in hand is the plaintext
      encrypted under the keying the retained blob records, and the bytes to be compared are
      that wire decrypted under the same one. */
  predicate TripOk(cfg: Config, ci: Cipher, p: Pipes, w: Worker) {
    var slot, surface := SlotFor(cfg, p, w), SurfaceOf(cfg, w.it);
    && (HoldsHandle(w.pc) ==> slot.Some? && w.job.handle == slot.value.handle)
    && (HoldsWire(w.pc) ==>
          slot.Some? && w.job.wire == ci.enc(surface, slot.value.blob, w.job.nonce, w.job.plaintext))
    && (w.pc == Compare ==>
          slot.Some? && w.job.got == Through(ci, surface, slot.value.blob, w.job.nonce, w.job.plaintext))
  }

  predicate TripsOk(cfg: Config, ci: Cipher, s: State) {
    forall i | 0 <= i < |s.ws| :: TripOk(cfg, ci, s.g.pipes, s.ws[i])
  }

  lemma TripsOkInit(cfg: Config, ci: Cipher, s: State)
    requires Built(cfg, s)
    ensures TripsOk(cfg, ci, s)
  {}

  /** The shape of the run builds the Pipeline of every surface it exercises. */
  lemma SurfaceBuilt(cfg: Config, it: nat)
    ensures Needs(cfg, PipeFor(SurfaceOf(cfg, it)))
  {}

  lemma ReadingMeansStill(cfg: Config, s: State, i: nat)
    requires LockOk(s) && PipesOk(cfg, s) && i < |s.ws| && InRead(s.ws[i].pc)
    ensures s.g.pipes.stage.Idle? && !s.g.lock.writer && s.g.lock.readers > 0
  {
    SumAtLeast(s.ws, Reads, i);
  }

  predicate Carrying(pc: Pc) { HoldsHandle(pc) || pc == Compare }

  lemma TripStepEncrypting(cfg: Config, ci: Cipher, g: Shared, w: Worker, c: Choice)
    requires (w.pc == Encrypt || w.pc == Redispatch) && Ready(cfg, g, w) && |c.os| == |w.job.plaintext|
    requires Whole(cfg, g.pipes) && g.pipes.stage.Idle? && TripOk(cfg, ci, g.pipes, w)
    ensures var st := IterateStep(cfg, ci, g, w, c);
            TripOk(cfg, ci, g.pipes, st.w)
  {}

  lemma TripStepDecrypting(cfg: Config, ci: Cipher, g: Shared, w: Worker, c: Choice)
    requires (w.pc == Decrypt || w.pc == Compare) && Ready(cfg, g, w) && |c.os| == |w.job.plaintext|
    requires Whole(cfg, g.pipes) && g.pipes.stage.Idle? && TripOk(cfg, ci, g.pipes, w)
    ensures var st := IterateStep(cfg, ci, g, w, c);
            TripOk(cfg, ci, g.pipes, st.w)
  {}

  /** A step taken with the handle, the wire or the result in hand. */
  lemma TripStepCarrying(cfg: Config, ci: Cipher, g: Shared, w: Worker, c: Choice)
    requires Carrying(w.pc) && Ready(cfg, g, w) && |c.os| == |w.job.plaintext|
    requires Whole(cfg, g.pipes) && g.pipes.stage.Idle? && TripOk(cfg, ci, g.pipes, w)
    ensures var st := IterateStep(cfg, ci, g, w, c);
            TripOk(cfg, ci, g.pipes, st.w)
  {
    if w.pc == Encrypt || w.pc == Redispatch {
      TripStepEncrypting(cfg, ci, g, w, c);
    } else {
      TripStepDecrypting(cfg, ci, g, w, c);
    }
  }

  lemma TripStepEntering(cfg: Config, ci: Cipher, g: Shared, w: Worker, c: Choice)
    requires Iterating(w.pc) && !Carrying(w.pc) && Ready(cfg, g, w) && |c.os| == |w.job.plaintext|
    ensures var st := IterateStep(cfg, ci, g, w, c);
            && st.w.pc != Compare && !HoldsWire(st.w.pc)
            && (HoldsHandle(st.w.pc) ==> InRead(w.pc) && TripOk(cfg, ci, g.pipes, st.w))
  {}

  lemma TripStepMaintaining(cfg: Config, g: Shared, w: Worker, c: Choice)
    requires Maintaining(w.pc)
    ensures var st := MaintainStep(cfg, g, w, c); !Carrying(st.w.pc)
  {}

  lemma TripStepLooping(cfg: Config, g: Shared, w: Worker, c: Choice)
    requires !Iterating(w.pc) && !Maintaining(w.pc) && Ready(cfg, g, w)
    ensures var st := LoopStep(cfg, g, w, c); !Carrying(st.w.pc)
  {}

  /** Any other step: only the dispatch picks something up. */
  lemma TripStepElse(cfg: Config, ci: Cipher, g: Shared, w: Worker, c: Choice)
    requires !Carrying(w.pc) && Ready(cfg, g, w) && |c.os| == |w.job.plaintext|
    ensures var st := WorkerStep(cfg, ci, g, w, c);
            && st.w.pc != Compare && !HoldsWire(st.w.pc)
            && (HoldsHandle(st.w.pc) ==> InRead(w.pc) && TripOk(cfg, ci, g.pipes, st.w))
  {
    if Iterating(w.pc) {
      TripStepEntering(cfg, ci, g, w, c);
    } else if Maintaining(w.pc) {
      TripStepMaintaining(cfg, g, w, c);
    } else {
      TripStepLooping(cfg, g, w, c);
    }
  }

  lemma TripsOkMove(cfg: Config, ci: Cipher, s: State, t: State, i: nat, notify: bool)
    requires LockOk(s) && TripsOk(cfg, ci, s) && Moved(s, t, i, notify)
    requires InWrite(s.ws[i].pc) || t.g.pipes == s.g.pipes
    requires TripOk(cfg, ci, t.g.pipes, t.ws[i])
    ensures TripsOk(cfg, ci, t)
  {
    forall j | 0 <= j < |t.ws|
      ensures TripOk(cfg, ci, t.g.pipes, t.ws[j])
    {
      if j != i {
        WakeOutside(s.ws[j]);
        if InWrite(s.ws[i].pc) {
          Exclusive(s, i, j);
        }
      }
    }
  }

  lemma TripsOkWork(cfg: Config, ci: Cipher, s: State, i: nat, c: Choice)
    requires LockOk(s) && PipesOk(cfg, s) && TripsOk(cfg, ci, s)
    requires Enabled(cfg, s, Work(i, c))
    ensures TripsOk(cfg, ci, Apply(cfg, ci, s, Work(i, c)))
  {
    WorkerMoves(cfg, ci, s, i, c);
    var t := Apply(cfg, ci, s, Work(i, c));
    if !InWrite(s.ws[i].pc) {
      PipesStill(cfg, ci, s.g, s.ws[i], c);
    }
    if Carrying(s.ws[i].pc) {
      ReadingMeansStill(cfg, s, i);
      TripStepCarrying(cfg, ci, s.g, s.ws[i], c);
    } else {
      TripStepElse(cfg, ci, s.g, s.ws[i], c);
    }
    TripsOkMove(cfg, ci, s, t, i, WorkerStep(cfg, ci, s.g, s.ws[i], c).notify);
  }

  /** The launcher leaves the handles alone until all are done, and carries nothing. */
  lemma MainCarriesNothing(cfg: Config, s: State, c: Choice)
    requires MainReady(cfg, s)
    ensures var t := MainStep(cfg, s, c);
            && |t.ws| == |s.ws|
            && (!s.g.main.FreePipe? ==> t.g.pipes == s.g.pipes)
            && forall i | 0 <= i < |t.ws| :: t.ws[i] == s.ws[i] || !Carrying(t.ws[i].pc)
  {}

  lemma TripsOkMain(cfg: Config, ci: Cipher, s: State, c: Choice)
    requires LockOk(s) && PipesOk(cfg, s) && TripsOk(cfg, ci, s) && Enabled(cfg, s, Main(c))
    ensures TripsOk(cfg, ci, Apply(cfg, ci, s, Main(c)))
  {
    MainCarriesNothing(cfg, s, c);
    var t := MainStep(cfg, s, c);
    assert s.g.main.FreePipe? ==> AllDone(s.ws);
    forall i | 0 <= i < |t.ws|
      ensures TripOk(cfg, ci, t.g.pipes, t.ws[i])
    {
      assert TripOk(cfg, ci, s.g.pipes, s.ws[i]);
    }
  }

  // ---------------------------------------------------------- the mismatch exit

  predicate Mismatch(w: Worker) {
    w.pc == Compare && w.job.got != w.job.plaintext
  }

  lemma OnlyIterateCrashes(cfg: Config, g: Shared, w: Worker, c: Choice)
    requires !Iterating(w.pc) && Ready(cfg, g, w)
    ensures Maintaining(w.pc) ==> MaintainStep(cfg, g, w, c).g.crashed == g.crashed
    ensures !Maintaining(w.pc) ==> LoopStep(cfg, g, w, c).g.crashed == g.crashed
  {}

  lemma IterateCrashes(cfg: Config, ci: Cipher, g: Shared, w: Worker, c: Choice)
    requires Iterating(w.pc) && Ready(cfg, g, w) && |c.os| == |w.job.plaintext| && !g.crashed
    ensures var st := IterateStep(cfg, ci, g, w, c);
            if Mismatch(w) then st == Step(g.(crashed := true), w, false) else !st.g.crashed
  {}

  /** A worker's step ends the process exactly on a mismatch, and then does nothing else. */
  lemma CrashStep(cfg: Config, ci: Cipher, g: Shared, w: Worker, c: Choice)
    requires Ready(cfg, g, w) && |c.os| == |w.job.plaintext| && !g.crashed
    ensures var st := WorkerStep(cfg, ci, g, w, c);
            if Mismatch(w) then st == Step(g.(crashed := true), w, false) else !st.g.crashed
  {
    if Iterating(w.pc) {
      IterateCrashes(cfg, ci, g, w, c);
    } else {
      OnlyIterateCrashes(cfg, g, w, c);
    }
  }

  /** A correct cipher leaves nothing to find. */
  lemma CorrectMatches(cfg: Config, ci: Cipher, p: Pipes, w: Worker)
    requires Correct(ci) && TripOk(cfg, ci, p, w)
    ensures !Mismatch(w)
  {}

  // ------------------------------------------------------ isolation, directly

  /** No step of anybody touches a handle, a keying or a blob while some worker is between
      acquire_read and release_read: no cipher call meets a rekey, a load or a free. */
  lemma NoMutationDuringRead(cfg: Config, ci: Cipher, s: State, l: Label, i: nat)
    requires LockOk(s) && PipesOk(cfg, s) && Enabled(cfg, s, l)
    requires i < |s.ws| && InRead(s.ws[i].pc)
    ensures Apply(cfg, ci, s, l).g.pipes == s.g.pipes
  {
    match l
    case Work(j, c) =>
      if InWrite(s.ws[j].pc) {
        Exclusive(s, j, i);
      } else {
        PipesStill(cfg, ci, s.g, s.ws[j], c);
      }
    case Main(c) =>
  }
}
