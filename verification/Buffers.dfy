/** The plaintexts the workers of a run hold (loop/payload.py:47-103, loop/worker.py:115-116,
    loop/main.py:695-705). */
module Buffers {
  import opened Octets
  import Payload
  import SplitMix
  import opened Protocol
  import opened LockSafety

  /** Plaintexts come from the seeded generator. */
  predicate Seeded(cfg: Config) {
    cfg.seed != 0 && (cfg.mode == Payload.Fixed || cfg.mode == Payload.Rotating)
  }

  type Mixer = SplitMix.Word -> SplitMix.Word

  /** Worker i holds the buffer of its latest fill and the generator state behind it. */
  predicate HoldsFill(mix: Mixer, cfg: Config, i: nat, plaintext: Bytes, rng: SplitMix.Word, fills: nat) {
    && fills >= 1
    && (cfg.mode != Payload.Rotating ==> fills == 1)
    && (Seeded(cfg) ==>
          && plaintext == Payload.BufferOf(mix, cfg.seed, i, cfg.payload, fills - 1)
          && rng == Payload.StateAfter(cfg.seed, i, cfg.payload, fills))
  }

  predicate BufferOk(cfg: Config, i: nat, w: Worker) {
    HoldsFill(SplitMix.Mix, cfg, i, w.job.plaintext, w.job.rng, w.past.fills)
  }

  predicate AllHeld(mix: Mixer, cfg: Config, ws: seq<Worker>) {
    forall i | 0 <= i < |ws| :: HoldsFill(mix, cfg, i, ws[i].job.plaintext, ws[i].job.rng, ws[i].past.fills)
  }

  predicate BuffersOk(cfg: Config, s: State) {
    AllHeld(SplitMix.Mix, cfg, s.ws)
  }

  lemma FirstHeld(mix: Mixer, cfg: Config, i: nat, filled: (Bytes, SplitMix.Word), os: Bytes)
    requires |os| == cfg.payload
    requires filled == Payload.Filled(mix, cfg.mode, cfg.seed != 0, Payload.SeedWorker(cfg.seed, i), cfg.payload, os)
    ensures HoldsFill(mix, cfg, i, filled.0, filled.1, 1)
  {
    if Seeded(cfg) {
      assert Payload.StateAfter(cfg.seed, i, cfg.payload, 0) == Payload.SeedWorker(cfg.seed, i);
      Payload.NextFill(mix, cfg.mode, cfg.seed, i, cfg.payload, 0, os);
    }
  }

  lemma NextHeld(mix: Mixer, cfg: Config, i: nat, plaintext: Bytes, rng: SplitMix.Word, fills: nat,
                 filled: (Bytes, SplitMix.Word), os: Bytes)
    requires HoldsFill(mix, cfg, i, plaintext, rng, fills) && cfg.mode == Payload.Rotating
    requires |os| == cfg.payload
    requires filled == Payload.Filled(mix, Payload.Rotating, cfg.seed != 0, rng, cfg.payload, os)
    ensures HoldsFill(mix, cfg, i, filled.0, filled.1, fills + 1)
  {
    if Seeded(cfg) {
      Payload.NextFill(mix, Payload.Rotating, cfg.seed, i, cfg.payload, fills, os);
    }
  }

  lemma BufferOkInit(cfg: Config, i: nat, w: Worker)
    requires FreshWorker(cfg, w) && FirstFill(cfg, w, i)
    ensures BufferOk(cfg, i, w)
  {
    var os: Bytes :| |os| == cfg.payload &&
      (w.job.plaintext, w.job.rng) ==
      Payload.Filled(SplitMix.Mix, cfg.mode, cfg.seed != 0, Payload.SeedWorker(cfg.seed, i), cfg.payload, os);
    FirstHeld(SplitMix.Mix, cfg, i, (w.job.plaintext, w.job.rng), os);
  }

  lemma BuffersOkInit(cfg: Config, s: State)
    requires Init(cfg, s)
    ensures BuffersOk(cfg, s)
  {
    forall i | 0 <= i < |s.ws|
      ensures BufferOk(cfg, i, s.ws[i])
    {
      BufferOkInit(cfg, i, s.ws[i]);
    }
  }

  /** A refill leaves the buffer alone, or installs the next one. */
  lemma RefillOutcome(cfg: Config, g: Shared, w: Worker, c: Choice, filled: (Bytes, SplitMix.Word))
    requires |c.os| == |w.job.plaintext|
    requires filled == Payload.Filled(SplitMix.Mix, Payload.Rotating, cfg.seed != 0, w.job.rng, |w.job.plaintext|, c.os)
    ensures var v := RefillStep(cfg, g, w, c).w;
      || (v.job.plaintext == w.job.plaintext && v.job.rng == w.job.rng && v.past.fills == w.past.fills)
      || (cfg.mode == Payload.Rotating &&
          v.job.plaintext == filled.0 && v.job.rng == filled.1 && v.past.fills == w.past.fills + 1)
  {}

  lemma RefillKeeps(cfg: Config, g: Shared, i: nat, w: Worker, c: Choice)
    requires |c.os| == |w.job.plaintext| == cfg.payload && BufferOk(cfg, i, w)
    ensures BufferOk(cfg, i, RefillStep(cfg, g, w, c).w)
  {
    var filled := Payload.Filled(SplitMix.Mix, Payload.Rotating, cfg.seed != 0, w.job.rng, |w.job.plaintext|, c.os);
    RefillOutcome(cfg, g, w, c, filled);
    if cfg.mode == Payload.Rotating {
      NextHeld(SplitMix.Mix, cfg, i, w.job.plaintext, w.job.rng, w.past.fills, filled, c.os);
    }
    Relay(SplitMix.Mix, cfg, i, w, RefillStep(cfg, g, w, c).w, filled);
  }

  /** Either buffer will do. */
  lemma Relay(mix: Mixer, cfg: Config, i: nat, w: Worker, v: Worker, filled: (Bytes, SplitMix.Word))
    requires HoldsFill(mix, cfg, i, w.job.plaintext, w.job.rng, w.past.fills)
    requires cfg.mode == Payload.Rotating ==> HoldsFill(mix, cfg, i, filled.0, filled.1, w.past.fills + 1)
    requires
      || (v.job.plaintext == w.job.plaintext && v.job.rng == w.job.rng && v.past.fills == w.past.fills)
      || (cfg.mode == Payload.Rotating &&
          v.job.plaintext == filled.0 && v.job.rng == filled.1 && v.past.fills == w.past.fills + 1)
    ensures HoldsFill(mix, cfg, i, v.job.plaintext, v.job.rng, v.past.fills)
  {}

  /** Workers that hold their fills hold the same plaintext exactly when they stand at the
      same place. */
  lemma EqualFills(mix: Mixer, cfg: Config, w: Worker, v: Worker, i: nat, j: nat)
    requires Payload.Injective(mix) && Seeded(cfg) && cfg.payload >= 8
    requires HoldsFill(mix, cfg, i, w.job.plaintext, w.job.rng, w.past.fills)
    requires HoldsFill(mix, cfg, j, v.job.plaintext, v.job.rng, v.past.fills)
    ensures w.job.plaintext == v.job.plaintext <==>
      Payload.Place(i, cfg.payload, w.past.fills - 1) == Payload.Place(j, cfg.payload, v.past.fills - 1)
  {
    Payload.BuffersEqualExactly(mix, cfg.seed, i, j, cfg.payload, w.past.fills - 1, v.past.fills - 1);
  }

  lemma DistinctFills(mix: Mixer, cfg: Config, w: Worker, v: Worker, i: nat, j: nat)
    requires Payload.Injective(mix) && Seeded(cfg) && cfg.payload >= 8
    requires HoldsFill(mix, cfg, i, w.job.plaintext, w.job.rng, w.past.fills)
    requires HoldsFill(mix, cfg, j, v.job.plaintext, v.job.rng, v.past.fills)
    requires Payload.Separated(i, j, cfg.payload, w.past.fills, v.past.fills)
    requires w.job.plaintext == v.job.plaintext
    ensures i == j
  {
    Payload.WorkersHoldDistinctBuffers(mix, cfg.seed, i, j, cfg.payload, w.past.fills - 1, v.past.fills - 1);
  }

  lemma EqualAmong(mix: Mixer, cfg: Config, ws: seq<Worker>, i: nat, j: nat)
    requires Payload.Injective(mix) && AllHeld(mix, cfg, ws) && Seeded(cfg) && cfg.payload >= 8
    requires i < |ws| && j < |ws|
    ensures ws[i].past.fills >= 1 && ws[j].past.fills >= 1
    ensures ws[i].job.plaintext == ws[j].job.plaintext <==>
      Payload.Place(i, cfg.payload, ws[i].past.fills - 1) == Payload.Place(j, cfg.payload, ws[j].past.fills - 1)
  {
    EqualFills(mix, cfg, ws[i], ws[j], i, j);
  }

  lemma DistinctAmong(mix: Mixer, cfg: Config, ws: seq<Worker>, i: nat, j: nat)
    requires Payload.Injective(mix) && AllHeld(mix, cfg, ws) && Seeded(cfg) && cfg.payload >= 8
    requires i < |ws| && j < |ws|
    requires Payload.Separated(i, j, cfg.payload, ws[i].past.fills, ws[j].past.fills)
    requires ws[i].job.plaintext == ws[j].job.plaintext
    ensures i == j
  {
    DistinctFills(mix, cfg, ws[i], ws[j], i, j);
  }

  /** The two statements, of the generator in use. */
  lemma EqualPlaintexts(cfg: Config, s: State, i: nat, j: nat)
    requires BuffersOk(cfg, s) && Seeded(cfg) && cfg.payload >= 8 && i < |s.ws| && j < |s.ws|
    ensures s.ws[i].past.fills >= 1 && s.ws[j].past.fills >= 1
    ensures s.ws[i].job.plaintext == s.ws[j].job.plaintext <==>
      Payload.Place(i, cfg.payload, s.ws[i].past.fills - 1) == Payload.Place(j, cfg.payload, s.ws[j].past.fills - 1)
  {
    Payload.MixInjective();
    EqualAmong(SplitMix.Mix, cfg, s.ws, i, j);
  }

  /** In fixed mode every worker has filled once. */
  lemma FixedFillsOnce(cfg: Config, s: State, i: nat)
    requires BuffersOk(cfg, s) && cfg.mode == Payload.Fixed && i < |s.ws|
    ensures s.ws[i].past.fills == 1
  {}

  lemma DistinctPlaintexts(cfg: Config, s: State, i: nat, j: nat)
    requires BuffersOk(cfg, s) && Seeded(cfg) && cfg.payload >= 8 && i < |s.ws| && j < |s.ws|
    requires Payload.Separated(i, j, cfg.payload, s.ws[i].past.fills, s.ws[j].past.fills)
    requires s.ws[i].job.plaintext == s.ws[j].job.plaintext
    ensures i == j
  {
    Payload.MixInjective();
    DistinctAmong(SplitMix.Mix, cfg, s.ws, i, j);
  }

  predicate SamePlaintext(w: Worker, v: Worker) {
    v.job.plaintext == w.job.plaintext && v.job.rng == w.job.rng && v.past.fills == w.past.fills
  }

  lemma HeldIterating(cfg: Config, ci: Cipher, g: Shared, w: Worker, c: Choice)
    requires Iterating(w.pc) && Ready(cfg, g, w) && |c.os| == |w.job.plaintext| && w.pc != Refill
    ensures SamePlaintext(w, IterateStep(cfg, ci, g, w, c).w)
  {}

  lemma HeldMaintaining(cfg: Config, g: Shared, w: Worker, c: Choice)
    requires Maintaining(w.pc)
    ensures SamePlaintext(w, MaintainStep(cfg, g, w, c).w)
  {}

  lemma HeldLooping(cfg: Config, g: Shared, w: Worker, c: Choice)
    requires !Iterating(w.pc) && !Maintaining(w.pc) && Ready(cfg, g, w)
    ensures SamePlaintext(w, LoopStep(cfg, g, w, c).w)
  {}

  /** Nothing but a refill touches the plaintext. */
  lemma PlaintextHeld(cfg: Config, ci: Cipher, g: Shared, w: Worker, c: Choice)
    requires Ready(cfg, g, w) && |c.os| == |w.job.plaintext| && w.pc != Refill
    ensures SamePlaintext(w, WorkerStep(cfg, ci, g, w, c).w)
  {
    if Iterating(w.pc) {
      HeldIterating(cfg, ci, g, w, c);
    } else if Maintaining(w.pc) {
      HeldMaintaining(cfg, g, w, c);
    } else {
      HeldLooping(cfg, g, w, c);
    }
  }

  lemma BufferStep(cfg: Config, ci: Cipher, g: Shared, i: nat, w: Worker, c: Choice)
    requires Ready(cfg, g, w) && |c.os| == |w.job.plaintext| == cfg.payload && BufferOk(cfg, i, w)
    ensures BufferOk(cfg, i, WorkerStep(cfg, ci, g, w, c).w)
  {
    if w.pc == Refill {
      RefillKeeps(cfg, g, i, w, c);
      RefillIsStep(cfg, ci, g, w, c);
    } else {
      PlaintextHeld(cfg, ci, g, w, c);
      SameFill(cfg, i, w, WorkerStep(cfg, ci, g, w, c).w);
    }
  }

  lemma HeldBuffer(mix: Mixer, cfg: Config, i: nat, w: Worker, k: nat)
    requires HoldsFill(mix, cfg, i, w.job.plaintext, w.job.rng, w.past.fills)
    requires Seeded(cfg) && w.past.fills == k + 1
    ensures w.job.plaintext == Payload.BufferOf(mix, cfg.seed, i, cfg.payload, k)
  {}

  /** Without a seed a refill hands the worker what the operating system's generator gave. */
  lemma UnseededRefill(cfg: Config, g: Shared, w: Worker, c: Choice)
    requires cfg.mode == Payload.Rotating && cfg.seed == 0 && c.outcome != Raise && |c.os| == |w.job.plaintext|
    ensures RefillStep(cfg, g, w, c).w.job.plaintext == c.os
  {}

  lemma RefillIsStep(cfg: Config, ci: Cipher, g: Shared, w: Worker, c: Choice)
    requires w.pc == Refill && |c.os| == |w.job.plaintext|
    ensures WorkerStep(cfg, ci, g, w, c) == RefillStep(cfg, g, w, c)
  {
  }

  lemma BuffersMove(cfg: Config, s: State, t: State, i: nat, notify: bool)
    requires BuffersOk(cfg, s) && Moved(s, t, i, notify) && BufferOk(cfg, i, t.ws[i])
    ensures BuffersOk(cfg, t)
  {
    forall j | 0 <= j < |t.ws|
      ensures BufferOk(cfg, j, t.ws[j])
    {
      if j != i {
        assert t.ws[j].job == s.ws[j].job && t.ws[j].past == s.ws[j].past;
        SameFill(cfg, j, s.ws[j], t.ws[j]);
      }
    }
  }

  lemma SameFill(cfg: Config, i: nat, w: Worker, v: Worker)
    requires BufferOk(cfg, i, w)
    requires SamePlaintext(w, v)
    ensures BufferOk(cfg, i, v)
  {}
}
