/** Plaintext content (loop/payload.py): the seeded per-worker generator and the buffer
    fill.  The laws below ask nothing of the output function but that it is injective
    on words, which SplitMix proves of the one the source uses. */
module Payload {
  import opened Octets
  import opened SplitMix

  datatype Mode = Fixed | Rotating | PatternZero | PatternFF | PatternAscii

  const GAMMA: Word := 0x9E37_79B9_7F4A_7C15
  const GAMMA_INVERSE: Word := 0xF1DE_83E1_9937_733D

  // ------------------------------------------------------------- generator

  function Masked(x: int): Word {
    x % TWO_TO_THE_64
  }

  /** One draw: the advanced state and the output. */
  function Next(mix: Word -> Word, state: Word): (Word, Word) {
    var next := Masked(state + GAMMA);
    (next, mix(next))
  }

  function SeedWorker(seed: nat, id: nat): Word {
    Masked(seed + id + 1)
  }

  /** The state after k draws. */
  function Advanced(state: Word, k: nat): Word {
    Masked(state + k * GAMMA)
  }

  /** Output number k (from 0) of the generator started in `state`. */
  function Draw(mix: Word -> Word, state: Word, k: nat): Word {
    mix(Advanced(state, k + 1))
  }

  ghost predicate Injective(mix: Word -> Word) {
    forall a: Word, b: Word :: mix(a) == mix(b) ==> a == b
  }

  lemma MixInjective()
    ensures Injective(Mix)
  {
    forall a: Word, b: Word | Mix(a) == Mix(b)
      ensures a == b
    {
      MixBijective(a);
      MixBijective(b);
    }
  }

  lemma AdvancedAdd(state: Word, j: nat, k: nat)
    ensures Advanced(Advanced(state, j), k) == Advanced(state, j + k)
  {
    MaskedSum(state + j * GAMMA, k * GAMMA);
    assert state + j * GAMMA + k * GAMMA == state + (j + k) * GAMMA;
  }

  lemma MaskedSum(x: int, y: int)
    ensures Masked(Masked(x) + y) == Masked(x + y)
  {}

  /** The increment is odd, so its multiples meet no earlier than 2^64 apart. */
  lemma GammaMultiples(x: int, d: nat)
    requires 0 < d < TWO_TO_THE_64
    ensures Masked(x) != Masked(x + d * GAMMA)
  {
    if Masked(x) == Masked(x + d * GAMMA) {
      var q := (x + d * GAMMA) / TWO_TO_THE_64 - x / TWO_TO_THE_64;
      assert d * GAMMA == q * TWO_TO_THE_64;
      DivideOut(d, GAMMA, GAMMA_INVERSE, q, GAMMA * GAMMA_INVERSE / TWO_TO_THE_64, TWO_TO_THE_64);
      NoMultipleBelow(d, q * GAMMA_INVERSE - d * (GAMMA * GAMMA_INVERSE / TWO_TO_THE_64));
    }
  }

  lemma DivideOut(d: int, g: int, inverse: int, q: int, t: int, m: int)
    requires d * g == q * m && g * inverse == t * m + 1
    ensures d == (q * inverse - d * t) * m
  {
    assert d * (g * inverse) == (d * g) * inverse == q * inverse * m;
    assert d * (t * m + 1) == d * t * m + d;
  }

  lemma NoMultipleBelow(d: nat, k: int)
    requires 0 < d < TWO_TO_THE_64
    ensures d != k * TWO_TO_THE_64
  {}

  /** One generator repeats no output within 2^64 draws. */
  lemma DrawsDistinct(mix: Word -> Word, state: Word, j: nat, k: nat)
    requires Injective(mix) && j < k < j + TWO_TO_THE_64
    ensures Draw(mix, state, j) != Draw(mix, state, k)
  {
    GammaMultiples(state + (j + 1) * GAMMA, k - j);
    assert state + (j + 1) * GAMMA + (k - j) * GAMMA == state + (k + 1) * GAMMA;
  }

  /** Workers with different ids are never in the same generator state. */
  lemma WorkerStatesDiffer(seed: nat, i: nat, j: nat, k: nat)
    requires i < j < i + TWO_TO_THE_64
    ensures Advanced(SeedWorker(seed, i), k) != Advanced(SeedWorker(seed, j), k)
  {
    MaskedSum(seed + i + 1, k * GAMMA);
    MaskedSum(seed + j + 1, k * GAMMA);
    ShiftedApart(seed + i + 1 + k * GAMMA, j - i);
  }

  lemma ShiftedApart(x: int, d: nat)
    requires 0 < d < TWO_TO_THE_64
    ensures Masked(x) != Masked(x + d)
  {}

  // ------------------------------------------------- little-endian encoding

  /** Byte i of the little-endian encoding of v. */
  function ByteOf(v: nat, i: nat): Byte {
    if i == 0 then v % 256 else ByteOf(v / 256, i - 1)
  }

  function Pow256(n: nat): (p: nat)
    ensures p >= 1
  {
    if n == 0 then 1 else 256 * Pow256(n - 1)
  }

  lemma {:induction false} BytesDetermine(v: nat, w: nat, n: nat)
    requires v < Pow256(n) && w < Pow256(n)
    requires forall i :: 0 <= i < n ==> ByteOf(v, i) == ByteOf(w, i)
    ensures v == w
  {
    if n != 0 {
      assert ByteOf(v, 0) == ByteOf(w, 0);
      forall i | 0 <= i < n - 1
        ensures ByteOf(v / 256, i) == ByteOf(w / 256, i)
      {
        assert ByteOf(v, i + 1) == ByteOf(w, i + 1);
      }
      BytesDetermine(v / 256, w / 256, n - 1);
    }
  }

  /** The bytes below a power of 256 do not see its multiples. */
  lemma {:induction false} BytesBelow(v: nat, q: nat, n: nat, i: nat)
    requires i < n
    ensures ByteOf(v + q * Pow256(n), i) == ByteOf(v, i)
  {
    var p := q * Pow256(n - 1);
    assert q * Pow256(n) == 256 * p;
    if i > 0 {
      assert (v + 256 * p) / 256 == v / 256 + p;
      BytesBelow(v / 256, q, n - 1, i - 1);
    }
  }

  lemma WordBound()
    ensures Pow256(8) == TWO_TO_THE_64
  {
    assert Pow256(4) == 0x1_0000_0000;
    assert Pow256(8) == 0x1_0000_0000 * Pow256(4);
  }

  // ------------------------------------------------------------------ fill

  /** Byte i of the seeded plaintext: byte i % 8 of draw i / 8. */
  function SeededByte(mix: Word -> Word, rng: Word, i: nat): Byte {
    ByteOf(Draw(mix, rng, i / 8), i % 8)
  }

  function SeededBuffer(mix: Word -> Word, rng: Word, n: nat): (b: Bytes)
    ensures |b| == n
  {
    seq(n, i requires i >= 0 => SeededByte(mix, rng, i))
  }

  /** The number of draws a buffer of n bytes takes. */
  function Draws(n: nat): nat {
    (n + 7) / 8
  }

  function AsciiRamp(i: nat): Byte {
    0x41 + i % 26
  }

  /** What fill_payload returns, in closed form; `os` is what the operating system's
      generator hands out, used only when the run is not seeded. */
  function Filled(mix: Word -> Word, mode: Mode, seeded: bool, rng: Word, n: nat, os: Bytes): (r: (Bytes, Word))
    requires |os| == n
    ensures |r.0| == n
  {
    match mode
    case PatternZero => (seq(n, _ => 0), rng)
    case PatternFF => (seq(n, _ => 0xFF), rng)
    case PatternAscii => (seq(n, i requires i >= 0 => AsciiRamp(i)), rng)
    case _ =>
      if seeded then (SeededBuffer(mix, rng, n), Advanced(rng, Draws(n))) else (os, rng)
  }

  /** What a buffer holds, byte by byte, in the modes that draw nothing from the seed: zeros,
      ones, the alphabet over and over, or what the operating system gave. */
  lemma ModesByByte(mix: Word -> Word, seeded: bool, rng: Word, n: nat, os: Bytes, i: nat)
    requires |os| == n && i < n
    ensures Filled(mix, PatternZero, seeded, rng, n, os).0[i] == 0
    ensures Filled(mix, PatternFF, seeded, rng, n, os).0[i] == 255
    ensures Filled(mix, PatternAscii, seeded, rng, n, os).0[i] as char == "ABCDEFGHIJKLMNOPQRSTUVWXYZ"[i % 26]
    ensures forall mode | mode == Fixed || mode == Rotating :: Filled(mix, mode, false, rng, n, os) == (os, rng)
    ensures forall mode | mode != Fixed && mode != Rotating :: Filled(mix, mode, seeded, rng, n, os).1 == rng
  {
    var k := i % 26;
    assert "ABCDEFGHIJKLMNOPQRSTUVWXYZ"[k] == (0x41 + k) as char by {
      Letters(k);
    }
  }

  lemma Letters(k: nat)
    requires k < 26
    ensures "ABCDEFGHIJKLMNOPQRSTUVWXYZ"[k] as int == 0x41 + k
  {
  }

  function Repeat(s: Bytes, times: nat): (r: Bytes)
    ensures |r| == |s| * times
  {
    if times == 0 then [] else s + Repeat(s, times - 1)
  }

  lemma {:induction false} RampIndex(s: Bytes, times: nat, i: nat)
    requires |s| == 26 && i < 26 * times
    ensures Repeat(s, times)[i] == s[i % 26]
  {
    if i >= 26 {
      RampIndex(s, times - 1, i - 26);
    }
  }

  /** fill_payload: the source's loops compute the closed form. */
  method FillPayload(mode: Mode, seeded: bool, rng: Word, n: nat, os: Bytes)
    returns (buffer: Bytes, next: Word)
    requires |os| == n
    ensures (buffer, next) == Filled(Mix, mode, seeded, rng, n, os)
  {
    next := rng;
    match mode {
      case PatternZero => buffer := seq(n, _ => 0);
      case PatternFF => buffer := seq(n, _ => 0xFF);
      case PatternAscii =>
        var ramp: Bytes := seq(26, i requires i >= 0 => AsciiRamp(i));
        forall i | 0 <= i < n
          ensures Repeat(ramp, n / 26 + 1)[i] == AsciiRamp(i)
        {
          RampIndex(ramp, n / 26 + 1, i);
        }
        buffer := Repeat(ramp, n / 26 + 1)[..n];
        assert buffer == Filled(Mix, mode, seeded, rng, n, os).0;
      case _ =>
        if !seeded {
          return os, rng;
        }
        buffer, next := FillSeeded(Mix, rng, n);
    }
  }

  /** The bytes of block k are those of draw k. */
  lemma BlockBytes(mix: Word -> Word, rng: Word, k: nat)
    ensures forall j :: 8 * k <= j < 8 * k + 8 ==> SeededByte(mix, rng, j) == ByteOf(Draw(mix, rng, k), j - 8 * k)
  {
    forall j | 8 * k <= j < 8 * k + 8
      ensures SeededByte(mix, rng, j) == ByteOf(Draw(mix, rng, k), j - 8 * k)
    {
      assert j / 8 == k && j % 8 == j - 8 * k;
    }
  }

  /** The slice assignment of the block fill: the first `take` bytes of a word at `i`. */
  method PutBytes(out: array<Byte>, i: nat, value: Word, take: nat)
    requires i + take <= out.Length
    modifies out
    ensures forall j :: 0 <= j < i ==> out[j] == old(out[j])
    ensures forall j :: i <= j < i + take ==> out[j] == ByteOf(value, j - i)
  {
    forall j | i <= j < i + take {
      out[j] := ByteOf(value, j - i);
    }
  }

  method FillSeeded(mix: Word -> Word, rng: Word, n: nat) returns (buffer: Bytes, next: Word)
    ensures buffer == SeededBuffer(mix, rng, n)
    ensures next == Advanced(rng, Draws(n))
  {
    var out := new Byte[n];
    next := rng;
    var i := 0;
    ghost var k := 0;
    while i < n
      invariant i == 8 * k && i < n + 8
      invariant next == Advanced(rng, k)
      invariant forall j :: 0 <= j < i && j < n ==> out[j] == SeededByte(mix, rng, j)
    {
      var (state, value) := Next(mix, next);
      AdvancedAdd(rng, k, 1);
      assert value == Draw(mix, rng, k);
      var take := if n - i < 8 then n - i else 8;
      PutBytes(out, i, value, take);
      BlockBytes(mix, rng, k);
      next := state;
      i := i + 8;
      k := k + 1;
    }
    buffer := out[..];
  }

  // -------------------------------------------------------- distinct buffers

  /** The generator state worker `id` holds after `fills` fills of n bytes. */
  function StateAfter(seed: nat, id: nat, n: nat, fills: nat): Word {
    Advanced(SeedWorker(seed, id), fills * Draws(n))
  }

  /** The plaintext its fill number `fills` (from 0) produces. */
  function BufferOf(mix: Word -> Word, seed: nat, id: nat, n: nat, fills: nat): (b: Bytes)
    ensures |b| == n
  {
    SeededBuffer(mix, StateAfter(seed, id, n, fills), n)
  }

  /** A shorter fill is a prefix of a longer one. */
  lemma FillPrefix(mix: Word -> Word, rng: Word, m: nat, n: nat)
    requires m <= n
    ensures SeededBuffer(mix, rng, n)[..m] == SeededBuffer(mix, rng, m)
  {}

  /** One more fill in a drawing mode hands a worker its next buffer and state. */
  lemma NextFill(mix: Word -> Word, mode: Mode, seed: nat, id: nat, n: nat, fills: nat, os: Bytes)
    requires |os| == n && (mode == Fixed || mode == Rotating)
    ensures Filled(mix, mode, true, StateAfter(seed, id, n, fills), n, os)
         == (BufferOf(mix, seed, id, n, fills), StateAfter(seed, id, n, fills + 1))
  {
    AdvancedAdd(SeedWorker(seed, id), fills * Draws(n), Draws(n));
    assert fills * Draws(n) + Draws(n) == (fills + 1) * Draws(n);
  }

  lemma EqualBuffersEqualDraws(mix: Word -> Word, s: Word, t: Word, n: nat)
    requires n >= 8 && SeededBuffer(mix, s, n) == SeededBuffer(mix, t, n)
    ensures Draw(mix, s, 0) == Draw(mix, t, 0)
  {
    forall i | 0 <= i < 8
      ensures ByteOf(Draw(mix, s, 0), i) == ByteOf(Draw(mix, t, 0), i)
    {
      assert SeededBuffer(mix, s, n)[i] == SeededBuffer(mix, t, n)[i];
    }
    WordBound();
    BytesDetermine(Draw(mix, s, 0), Draw(mix, t, 0), 8);
  }

  lemma BuffersApart(mix: Word -> Word, start: Word, j: nat, gap: nat, n: nat)
    requires Injective(mix) && n >= 8 && 0 < gap < TWO_TO_THE_64
    ensures SeededBuffer(mix, Advanced(start, j), n) != SeededBuffer(mix, Advanced(start, j + gap), n)
  {
    var s := Advanced(start, j);
    if SeededBuffer(mix, s, n) == SeededBuffer(mix, Advanced(start, j + gap), n) {
      EqualBuffersEqualDraws(mix, s, Advanced(start, j + gap), n);
      AdvancedAdd(start, j, gap);
      AdvancedAdd(s, gap, 1);
      DrawsDistinct(mix, s, 0, gap);
    }
  }

  lemma Gap(k: nat, l: nat, d: nat) returns (gap: nat)
    requires k < l && d > 0
    ensures gap == (l - k) * d && gap > 0 && l * d == k * d + gap
  {
    gap := (l - k) * d;
  }

  /** A rotating worker repeats no buffer within 2^64 draws. */
  lemma RotatingBuffersNeverRepeat(mix: Word -> Word, seed: nat, id: nat, n: nat, k: nat, l: nat)
    requires Injective(mix) && n >= 8 && k < l && (l - k) * Draws(n) < TWO_TO_THE_64
    ensures BufferOf(mix, seed, id, n, k) != BufferOf(mix, seed, id, n, l)
  {
    var gap := Gap(k, l, Draws(n));
    BuffersApart(mix, SeedWorker(seed, id), k * Draws(n), gap, n);
  }

  // ------------------------------------------------- buffers of unequal fills

  // MAX_WORKERS of the harness.
  const MAX_WORKERS: int := 10

  /** How many draws two of ten workers may be apart before one can reach the place of
      another: minus the inverse of the increment. */
  const APART: nat := TWO_TO_THE_64 - GAMMA_INVERSE

  /** Where worker `id` stands before its fill number `fills`, the seed apart. */
  function Place(id: nat, n: nat, fills: nat): Word {
    Masked(id + fills * Draws(n) * GAMMA)
  }

  lemma MaskedShift(x: int, y: int, d: int)
    ensures Masked(x + d) == Masked(y + d) <==> Masked(x) == Masked(y)
  {}

  lemma SeedApart(seed: int, i: int, j: int, x: int, y: int)
    ensures Masked(Masked(seed + i + 1) + x) == Masked(Masked(seed + j + 1) + y) <==> Masked(i + x) == Masked(j + y)
  {
    MaskedSum(seed + i + 1, x);
    MaskedSum(seed + j + 1, y);
    MaskedShift(i + x, j + y, seed + 1);
  }

  lemma PlaceIsState(seed: nat, i: nat, j: nat, n: nat, f: nat, g: nat)
    ensures StateAfter(seed, i, n, f) == StateAfter(seed, j, n, g) <==> Place(i, n, f) == Place(j, n, g)
  {
    SeedApart(seed, i, j, f * Draws(n) * GAMMA, g * Draws(n) * GAMMA);
  }

  lemma EqualBuffersEqualStates(mix: Word -> Word, s: Word, t: Word, n: nat)
    requires Injective(mix) && n >= 8 && SeededBuffer(mix, s, n) == SeededBuffer(mix, t, n)
    ensures s == t
  {
    EqualBuffersEqualDraws(mix, s, t, n);
    MaskedShift(s, t, GAMMA);
  }

  /** Any two workers, at any two fills, hold the same buffer exactly when they stand at the
      same place; from eight bytes on. */
  lemma BuffersEqualExactly(mix: Word -> Word, seed: nat, i: nat, j: nat, n: nat, f: nat, g: nat)
    requires Injective(mix) && n >= 8
    ensures BufferOf(mix, seed, i, n, f) == BufferOf(mix, seed, j, n, g) <==> Place(i, n, f) == Place(j, n, g)
  {
    PlaceIsState(seed, i, j, n, f, g);
    if BufferOf(mix, seed, i, n, f) == BufferOf(mix, seed, j, n, g) {
      EqualBuffersEqualStates(mix, StateAfter(seed, i, n, f), StateAfter(seed, j, n, g), n);
    }
  }

  /** A multiple of the increment determines its factor. */
  lemma FactorOf(d: int, k: int)
    requires Masked(d * GAMMA) == Masked(k)
    ensures Masked(d) == Masked(k * GAMMA_INVERSE)
  {
    var q := (d * GAMMA) / TWO_TO_THE_64 - k / TWO_TO_THE_64;
    var t := GAMMA * GAMMA_INVERSE / TWO_TO_THE_64;
    assert d * GAMMA == k + q * TWO_TO_THE_64;
    assert GAMMA * GAMMA_INVERSE == t * TWO_TO_THE_64 + 1;
    FactorShift(d, GAMMA, GAMMA_INVERSE, k, q, t, TWO_TO_THE_64);
    MaskedMultiple(k * GAMMA_INVERSE, q * GAMMA_INVERSE - d * t);
  }

  lemma FactorShift(d: int, g: int, inverse: int, k: int, q: int, t: int, m: int)
    requires d * g == k + q * m && g * inverse == t * m + 1
    ensures d == k * inverse + (q * inverse - d * t) * m
  {
    assert d * (g * inverse) == (d * g) * inverse;
    assert d * (t * m + 1) == d * t * m + d;
    assert (k + q * m) * inverse == k * inverse + q * inverse * m;
  }

  lemma MaskedMultiple(x: int, q: int)
    ensures Masked(x + q * TWO_TO_THE_64) == Masked(x)
  {}

  lemma MultipleFar(k: int)
    requires -MAX_WORKERS < k < MAX_WORKERS
    ensures if k == 0 then Masked(k * GAMMA_INVERSE) == 0 else Masked(k * GAMMA_INVERSE) >= APART
  {
    MaskedMultiple(k * GAMMA_INVERSE, if k < 0 then -k else 1 - k);
  }

  /** No short walk leads from a worker's place to that of one of nine neighbours. */
  lemma NeighboursFarOff(d: nat, k: int)
    requires d < APART && -MAX_WORKERS < k < MAX_WORKERS && Masked(d * GAMMA) == Masked(k)
    ensures d == 0 && k == 0
  {
    FactorOf(d, k);
    MultipleFar(k);
  }

  lemma ZeroFactor(a: nat, b: nat)
    requires b > 0 && a * b == 0
    ensures a == 0
  {}

  lemma OffsetsApart(i: int, j: int, x: int, y: int, d: nat)
    requires x == y + d * GAMMA && Masked(i + x) == Masked(j + y)
    requires d < APART && -MAX_WORKERS < j - i < MAX_WORKERS
    ensures i == j && d == 0
  {
    MaskedShift(i + x, j + y, -y - i);
    assert i + x + (-y - i) == d * GAMMA && j + y + (-y - i) == j - i;
    NeighboursFarOff(d, j - i);
  }

  lemma OffsetsOf(f: nat, g: nat, draws: nat)
    requires f >= g
    ensures f * draws * GAMMA == g * draws * GAMMA + (f - g) * draws * GAMMA
  {
    assert f * draws == g * draws + (f - g) * draws;
  }

  lemma FillsApart(i: nat, j: nat, f: nat, g: nat, draws: nat)
    requires draws > 0 && i < MAX_WORKERS && j < MAX_WORKERS
    requires f >= g && (f - g) * draws < APART
    requires Masked(i + f * draws * GAMMA) == Masked(j + g * draws * GAMMA)
    ensures i == j && f == g
  {
    OffsetsOf(f, g, draws);
    OffsetsApart(i, j, f * draws * GAMMA, g * draws * GAMMA, (f - g) * draws);
    ZeroFactor(f - g, draws);
  }

  lemma PlacesApart(i: nat, j: nat, n: nat, f: nat, g: nat)
    requires n > 0 && i < MAX_WORKERS && j < MAX_WORKERS
    requires f >= g && (f - g) * Draws(n) < APART && Place(i, n, f) == Place(j, n, g)
    ensures i == j && f == g
  {
    FillsApart(i, j, f, g, Draws(n));
  }

  lemma OffsetsEqual(i: int, j: int, x: int)
    requires 0 <= i < TWO_TO_THE_64 && 0 <= j < TWO_TO_THE_64 && Masked(i + x) == Masked(j + x)
    ensures i == j
  {
    MaskedShift(i, j, x);
  }

  /** At equal fills no two ids below 2^64 stand at the same place. */
  lemma EqualPlaces(i: nat, j: nat, n: nat, f: nat)
    requires i < TWO_TO_THE_64 && j < TWO_TO_THE_64 && Place(i, n, f) == Place(j, n, f)
    ensures i == j
  {
    OffsetsEqual(i, j, f * Draws(n) * GAMMA);
  }

  function Distance(f: nat, g: nat): nat {
    if f < g then g - f else f - g
  }

  /** Two workers whose buffers must differ: any two at equal fills, and two of the ten of a
      run at any fills that are fewer draws apart than the bound. */
  predicate Separated(i: nat, j: nat, n: nat, f: nat, g: nat) {
    || (i < TWO_TO_THE_64 && j < TWO_TO_THE_64 && f == g)
    || (i < MAX_WORKERS && j < MAX_WORKERS && Distance(f, g) * Draws(n) < APART)
  }

  lemma ProductGrows(a: nat, b: nat, d: nat)
    requires a <= b
    ensures a * d <= b * d
  {}

  lemma SeparatedWithin(i: nat, j: nat, n: nat, f: nat, g: nat, fills: nat)
    requires i < MAX_WORKERS && j < MAX_WORKERS && fills * Draws(n) < APART
    requires 1 <= f <= fills + 1 && 1 <= g <= fills + 1
    ensures Separated(i, j, n, f, g)
  {
    ProductGrows(Distance(f, g), fills, Draws(n));
  }

  /** Seeded workers hold the same buffer only if they are the same worker at the same fill,
      once a buffer is at least one word long. */
  lemma WorkersHoldDistinctBuffers(mix: Word -> Word, seed: nat, i: nat, j: nat, n: nat, f: nat, g: nat)
    requires Injective(mix) && n >= 8 && Separated(i, j, n, f, g)
    requires BufferOf(mix, seed, i, n, f) == BufferOf(mix, seed, j, n, g)
    ensures i == j && f == g
  {
    BuffersEqualExactly(mix, seed, i, j, n, f, g);
    if f == g {
      EqualPlaces(i, j, n, f);
    } else if f > g {
      PlacesApart(i, j, n, f, g);
    } else {
      PlacesApart(j, i, n, g, f);
    }
  }

  /** The same, of the generator in use. */
  lemma SeededBufferNamesWorker(seed: nat, i: nat, j: nat, n: nat, f: nat, g: nat)
    requires n >= 8 && Separated(i, j, n, f, g)
    requires BufferOf(Mix, seed, i, n, f) == BufferOf(Mix, seed, j, n, g)
    ensures i == j && f == g
  {
    MixInjective();
    WorkersHoldDistinctBuffers(Mix, seed, i, j, n, f, g);
  }

  lemma PlaceOfWord(id: nat, fills: nat)
    ensures Place(id, 8, fills) == Masked(id + fills * GAMMA)
  {
    assert Draws(8) == 1;
  }

  lemma FullCircle(g: nat)
    ensures Masked(1 + (g + APART) * GAMMA) == Masked(g * GAMMA)
  {
    MaskedMultiple(g * GAMMA, GAMMA - GAMMA * GAMMA_INVERSE / TWO_TO_THE_64);
  }

  /** At the bound worker 1 meets worker 0: its fill so much later is the same buffer. */
  lemma MeetAtTheBound(mix: Word -> Word, seed: nat, g: nat)
    ensures BufferOf(mix, seed, 1, 8, g + APART) == BufferOf(mix, seed, 0, 8, g)
  {
    PlaceOfWord(1, g + APART);
    PlaceOfWord(0, g);
    FullCircle(g);
    PlaceIsState(seed, 1, 0, 8, g + APART, g);
  }

  /** Ten workers whose fills are fewer than `span` draws apart hold pairwise-distinct
      buffers, and no buffer twice. */
  ghost predicate DistinctWithin(mix: Word -> Word, n: nat, span: nat) {
    forall seed: nat, i: nat, j: nat, f: nat, g: nat |
      i < MAX_WORKERS && j < MAX_WORKERS && Distance(f, g) * Draws(n) < span ::
      BufferOf(mix, seed, i, n, f) == BufferOf(mix, seed, j, n, g) ==> i == j && f == g
  }

  lemma DistinctWithinReach(mix: Word -> Word, n: nat)
    requires Injective(mix) && n >= 8
    ensures DistinctWithin(mix, n, APART)
  {
    forall seed: nat, i: nat, j: nat, f: nat, g: nat |
      i < MAX_WORKERS && j < MAX_WORKERS && Distance(f, g) * Draws(n) < APART &&
      BufferOf(mix, seed, i, n, f) == BufferOf(mix, seed, j, n, g)
      ensures i == j && f == g
    {
      WorkersHoldDistinctBuffers(mix, seed, i, j, n, f, g);
    }
  }

  /** The reach is exact: for one-word buffers not a single draw more is safe. */
  lemma ReachIsExact(mix: Word -> Word, span: nat)
    requires Injective(mix)
    ensures DistinctWithin(mix, 8, span) <==> span <= APART
  {
    if span <= APART {
      DistinctWithinReach(mix, 8);
    } else {
      MeetAtTheBound(mix, 0, 0);
      assert Distance(APART, 0) * Draws(8) < span;
    }
  }

  // ----------------------------------------------------- buffers below a word

  /** First draws that differ from byte m on only give the same buffer of up to m bytes. */
  lemma LowBytesCollide(mix: Word -> Word, s: Word, t: Word, n: nat, m: nat, q: nat)
    requires n <= m < 8 && mix(Advanced(t, 1)) == mix(Advanced(s, 1)) + q * Pow256(m)
    ensures SeededBuffer(mix, s, n) == SeededBuffer(mix, t, n)
  {
    forall x | 0 <= x < n
      ensures SeededByte(mix, s, x) == SeededByte(mix, t, x)
    {
      BytesBelow(mix(Advanced(s, 1)), q, m, x);
    }
  }

  lemma StartsAt(seed: nat, id: nat, n: nat)
    ensures Advanced(StateAfter(seed, id, n, 0), 1) == Masked(seed + id + 1 + GAMMA)
  {
    assert 0 * Draws(n) == 0;
    MaskedSum(seed + id + 1, GAMMA);
  }

  // A seed whose workers 0 and 2 draw the same seven low bytes first.
  const SHARING_SEED: nat := 0x4F0E_5B96_A8FB_23E8

  lemma SharedBytes(mix: Word -> Word, n: nat)
    requires n <= 7
    requires mix(0xED45_D550_2845_9FFE) == 0x270B_A95D_910D_9A74
    requires mix(0xED45_D550_2845_A000) == 0x790B_A95D_910D_9A74
    ensures BufferOf(mix, SHARING_SEED, 0, n, 0) == BufferOf(mix, SHARING_SEED, 2, n, 0)
  {
    StartsAt(SHARING_SEED, 0, n);
    StartsAt(SHARING_SEED, 2, n);
    SeventhPower();
    LowBytesCollide(mix, StateAfter(SHARING_SEED, 0, n, 0), StateAfter(SHARING_SEED, 2, n, 0), n, 7, 0x52);
  }

  lemma SeventhPower()
    ensures Pow256(7) == 0x100_0000_0000_0000
  {
    assert Pow256(3) == 0x100_0000;
  }

  /** A collision among the first three workers, of every payload of up to seven bytes. */
  lemma TwoWorkersShareSevenBytes(n: nat)
    requires n <= 7
    ensures BufferOf(Mix, SHARING_SEED, 0, n, 0) == BufferOf(Mix, SHARING_SEED, 2, n, 0)
  {
    MixA();
    MixB();
    SharedBytes(Mix, n);
  }

  /** In every run of `workers` workers, whatever its seed, those that have filled equally
      often hold different buffers. */
  ghost predicate DistinctAtEqualFills(workers: nat, n: nat) {
    forall seed: nat, i: nat, j: nat, fills: nat | seed > 0 && i < workers && j < workers ::
      BufferOf(Mix, seed, i, n, fills) == BufferOf(Mix, seed, j, n, fills) ==> i == j
  }

  /** At equal fills, as in fixed mode, seeded workers hold pairwise-distinct buffers exactly
      from eight bytes on, be they three, the ten of a run at most, or 2^64.  For unequal
      fills see BuffersEqualExactly and ReachIsExact. */
  lemma DistinctExactlyFromOneWord(workers: nat, n: nat)
    requires 3 <= workers <= TWO_TO_THE_64
    ensures DistinctAtEqualFills(workers, n) <==> n >= 8
  {
    if n >= 8 {
      forall seed: nat, i: nat, j: nat, fills: nat |
        seed > 0 && i < workers && j < workers &&
        BufferOf(Mix, seed, i, n, fills) == BufferOf(Mix, seed, j, n, fills)
        ensures i == j
      {
        SeededBufferNamesWorker(seed, i, j, n, fills, fills);
      }
    } else {
      TwoWorkersShareSevenBytes(n);
    }
  }
}
