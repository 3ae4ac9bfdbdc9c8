/** The output function of splitmix64 (loop/payload.py:59-70) on 64-bit words, and the
    proof that it is a bijection.  Sums and products are taken on numbers and masked, as
    the source takes them; only the xor-shifts work on the bits of a register. */
module SplitMix {

  const TWO_TO_THE_64: nat := 0x1_0000_0000_0000_0000
  const MUL1: Word := 0xBF58_476D_1CE4_E5B9
  const MUL1_INVERSE: Word := 0x96DE_1B17_3F11_9089
  const MUL2: Word := 0x94D0_49BB_1331_11EB
  const MUL2_INVERSE: Word := 0x3196_42B2_D24D_8EC3

  type Word = k: nat | k < TWO_TO_THE_64

  // ------------------------------------------- numbers and 64-bit registers

  function Load(k: Word): bv64 { k as bv64 }

  function Read(b: bv64): Word { b as int }

  function PushBit(b: bv64, odd: bool): bv64 {
    (b << 1) | (if odd then 1 else 0)
  }

  /** The register whose binary digits are those of k. */
  function Register(k: nat): bv64 {
    if k == 0 then 0 else PushBit(Register(k / 2), k % 2 == 1)
  }

  lemma DoubledPlusOne(b: bv64)
    requires b as int < 0x8000_0000_0000_0000
    ensures ((b << 1) | 1) as int == 2 * (b as int) + 1
  {}

  lemma Doubled(b: bv64)
    requires b as int < 0x8000_0000_0000_0000
    ensures (b << 1) as int == 2 * (b as int)
  {}

  lemma PushBitValue(b: bv64, odd: bool)
    requires b as int < 0x8000_0000_0000_0000
    ensures PushBit(b, odd) as int == 2 * (b as int) + (if odd then 1 else 0)
  {
    if odd {
      DoubledPlusOne(b);
      assert PushBit(b, odd) == (b << 1) | 1;
    } else {
      Doubled(b);
      assert PushBit(b, odd) == b << 1;
    }
  }

  lemma {:induction false} RegisterValue(k: Word)
    ensures Read(Register(k)) == k
  {
    if k != 0 {
      RegisterValue(k / 2);
      PushBitValue(Register(k / 2), k % 2 == 1);
    }
  }

  lemma ReadLoad(b: bv64)
    ensures Load(Read(b)) == b
  {}

  /** Loading a word into a register and reading it back changes nothing. */
  lemma LoadRead(k: Word)
    ensures Read(Load(k)) == k
  {
    RegisterValue(k);
    ReadLoad(Register(k));
  }

  /** A function on registers, applied to a word. */
  function OnWord(f: bv64 -> bv64, z: Word): Word {
    Read(f(Load(z)))
  }

  lemma LiftInverse(f: bv64 -> bv64, g: bv64 -> bv64, z: Word)
    requires forall b :: g(f(b)) == b
    ensures OnWord(g, OnWord(f, z)) == z
  {
    ReadLoad(f(Load(z)));
    LoadRead(z);
  }

  // ------------------------------------------------------------- xor-shifts

  function Xor30(b: bv64): bv64 { b ^ (b >> 30) }
  function Xor27(b: bv64): bv64 { b ^ (b >> 27) }
  function Xor31(b: bv64): bv64 { b ^ (b >> 31) }
  function Unxor30(b: bv64): bv64 { b ^ (b >> 30) ^ (b >> 60) }
  function Unxor27(b: bv64): bv64 { b ^ (b >> 27) ^ (b >> 54) }
  function Unxor31(b: bv64): bv64 { b ^ (b >> 31) ^ (b >> 62) }

  lemma Bits30(z: bv64)
    ensures var x := z ^ (z >> 30); x ^ (x >> 30) ^ (x >> 60) == z
    ensures var x := z ^ (z >> 30) ^ (z >> 60); x ^ (x >> 30) == z
  {}

  lemma Undo30(z: bv64)
    ensures Unxor30(z ^ (z >> 30)) == z
  {
    Bits30(z);
  }

  lemma Redo30(z: bv64)
    ensures Xor30(z ^ (z >> 30) ^ (z >> 60)) == z
  {
    Bits30(z);
  }

  lemma Bits27(z: bv64)
    ensures var x := z ^ (z >> 27); x ^ (x >> 27) ^ (x >> 54) == z
    ensures var x := z ^ (z >> 27) ^ (z >> 54); x ^ (x >> 27) == z
  {}

  lemma Undo27(z: bv64)
    ensures Unxor27(z ^ (z >> 27)) == z
  {
    Bits27(z);
  }

  lemma Redo27(z: bv64)
    ensures Xor27(z ^ (z >> 27) ^ (z >> 54)) == z
  {
    Bits27(z);
  }

  lemma Bits31(z: bv64)
    ensures var x := z ^ (z >> 31); x ^ (x >> 31) ^ (x >> 62) == z
    ensures var x := z ^ (z >> 31) ^ (z >> 62); x ^ (x >> 31) == z
  {}

  lemma Undo31(z: bv64)
    ensures Unxor31(z ^ (z >> 31)) == z
  {
    Bits31(z);
  }

  lemma Redo31(z: bv64)
    ensures Xor31(z ^ (z >> 31) ^ (z >> 62)) == z
  {
    Bits31(z);
  }

  function Shift30(z: Word): Word { OnWord(Xor30, z) }
  function Shift27(z: Word): Word { OnWord(Xor27, z) }
  function Shift31(z: Word): Word { OnWord(Xor31, z) }
  function Unshift30(z: Word): Word { OnWord(Unxor30, z) }
  function Unshift27(z: Word): Word { OnWord(Unxor27, z) }
  function Unshift31(z: Word): Word { OnWord(Unxor31, z) }

  ghost predicate Undoes(g: Word -> Word, f: Word -> Word) {
    forall z: Word :: g(f(z)) == z
  }

  lemma Shift30Invertible()
    ensures Undoes(Unshift30, Shift30) && Undoes(Shift30, Unshift30)
  {
    forall b ensures Unxor30(Xor30(b)) == b { Undo30(b); }
    forall b ensures Xor30(Unxor30(b)) == b { Redo30(b); }
    forall z: Word ensures Unshift30(Shift30(z)) == z { LiftInverse(Xor30, Unxor30, z); }
    forall z: Word ensures Shift30(Unshift30(z)) == z { LiftInverse(Unxor30, Xor30, z); }
  }

  lemma Shift27Invertible()
    ensures Undoes(Unshift27, Shift27) && Undoes(Shift27, Unshift27)
  {
    forall b ensures Unxor27(Xor27(b)) == b { Undo27(b); }
    forall b ensures Xor27(Unxor27(b)) == b { Redo27(b); }
    forall z: Word ensures Unshift27(Shift27(z)) == z { LiftInverse(Xor27, Unxor27, z); }
    forall z: Word ensures Shift27(Unshift27(z)) == z { LiftInverse(Unxor27, Xor27, z); }
  }

  lemma Shift31Invertible()
    ensures Undoes(Unshift31, Shift31) && Undoes(Shift31, Unshift31)
  {
    forall b ensures Unxor31(Xor31(b)) == b { Undo31(b); }
    forall b ensures Xor31(Unxor31(b)) == b { Redo31(b); }
    forall z: Word ensures Unshift31(Shift31(z)) == z { LiftInverse(Xor31, Unxor31, z); }
    forall z: Word ensures Shift31(Unshift31(z)) == z { LiftInverse(Unxor31, Xor31, z); }
  }

  // --------------------------------------------------------------- products

  /** x * y & MASK64 */
  function Times(x: Word, y: Word): Word {
    x * y % TWO_TO_THE_64
  }

  /** Multiplying by an odd constant is undone by multiplying by its inverse. */
  lemma UndoTimes(x: Word, c: Word, inverse: Word)
    requires c * inverse % TWO_TO_THE_64 == 1
    ensures Times(Times(x, c), inverse) == x
  {
    var q, t := x * c / TWO_TO_THE_64, c * inverse / TWO_TO_THE_64;
    assert x * c == q * TWO_TO_THE_64 + Times(x, c);
    assert x * c * inverse == x * (c * inverse) == x + x * t * TWO_TO_THE_64;
    assert Times(x, c) * inverse == x + (x * t - q * inverse) * TWO_TO_THE_64;
    ModOf(x, x * t - q * inverse);
  }

  lemma ModOf(x: Word, k: int)
    ensures (x + k * TWO_TO_THE_64) % TWO_TO_THE_64 == x
  {}

  // ----------------------------------------------------- the output function

  /** Shift, multiply, shift, multiply, shift. */
  function Scrambled(f: Word -> Word, c: Word, g: Word -> Word, d: Word, h: Word -> Word, s: Word): Word {
    h(Times(g(Times(f(s), c)), d))
  }

  function Mix(state: Word): Word {
    Scrambled(Shift30, MUL1, Shift27, MUL2, Shift31, state)
  }

  function Unmix(output: Word): Word {
    Scrambled(Unshift31, MUL2_INVERSE, Unshift27, MUL1_INVERSE, Unshift30, output)
  }

  lemma UndoScrambled(f: Word -> Word, c: Word, g: Word -> Word, d: Word, h: Word -> Word,
                      f': Word -> Word, c': Word, g': Word -> Word, d': Word, h': Word -> Word, s: Word)
    requires Undoes(f', f) && Undoes(g', g) && Undoes(h', h)
    requires c * c' % TWO_TO_THE_64 == 1 && d * d' % TWO_TO_THE_64 == 1
    ensures Scrambled(h', d', g', c', f', Scrambled(f, c, g, d, h, s)) == s
  {
    UndoTimes(f(s), c, c');
    UndoTimes(g(Times(f(s), c)), d, d');
  }

  /** The output function is a bijection on 64-bit words: Unmix is its inverse on
      both sides. */
  lemma MixBijective(s: Word)
    ensures Unmix(Mix(s)) == s
    ensures Mix(Unmix(s)) == s
  {
    Shift30Invertible();
    Shift27Invertible();
    Shift31Invertible();
    UndoScrambled(Shift30, MUL1, Shift27, MUL2, Shift31,
                  Unshift30, MUL1_INVERSE, Unshift27, MUL2_INVERSE, Unshift31, s);
    UndoScrambled(Unshift31, MUL2_INVERSE, Unshift27, MUL1_INVERSE, Unshift30,
                  Shift31, MUL2, Shift27, MUL1, Shift30, s);
  }

  // ------------------------------------------------- two values, for reference

  lemma Stages(f: Word -> Word, c: Word, g: Word -> Word, d: Word, h: Word -> Word,
               s: Word, a: Word, z: Word, b: Word, y: Word, out: Word)
    requires f(s) == a && Times(a, c) == z && g(z) == b && Times(b, d) == y && h(y) == out
    ensures Scrambled(f, c, g, d, h, s) == out
  {}

  lemma A30()
    ensures Shift30(0xED45_D550_2845_9FFE) == 0xED45_D553_9D52_CABE
  {}

  lemma A27()
    ensures Shift27(0x78C3_25F7_1968_794E) == 0x78C3_25F8_010C_C7AD
  {}

  lemma A31()
    ensures Shift31(0x270B_A95D_DF1A_C8CF) == 0x270B_A95D_910D_9A74
  {}

  lemma AProducts()
    ensures Times(0xED45_D553_9D52_CABE, MUL1) == 0x78C3_25F7_1968_794E
    ensures Times(0x78C3_25F8_010C_C7AD, MUL2) == 0x270B_A95D_DF1A_C8CF
  {}

  lemma MixA()
    ensures Mix(0xED45_D550_2845_9FFE) == 0x270B_A95D_910D_9A74
  {
    A30();
    A27();
    A31();
    AProducts();
    Stages(Shift30, MUL1, Shift27, MUL2, Shift31,
           0xED45_D550_2845_9FFE, 0xED45_D553_9D52_CABE, 0x78C3_25F7_1968_794E,
           0x78C3_25F8_010C_C7AD, 0x270B_A95D_DF1A_C8CF, 0x270B_A95D_910D_9A74);
  }

  lemma B30()
    ensures Shift30(0xED45_D550_2845_A000) == 0xED45_D553_9D52_F540
  {}

  lemma B27()
    ensures Shift27(0x1F4F_521D_5355_7B40) == 0x1F4F_521E_BABF_38EA
  {}

  lemma B31()
    ensures Shift31(0x790B_A95D_631A_C8CE) == 0x790B_A95D_910D_9A74
  {}

  lemma BProducts()
    ensures Times(0xED45_D553_9D52_F540, MUL1) == 0x1F4F_521D_5355_7B40
    ensures Times(0x1F4F_521E_BABF_38EA, MUL2) == 0x790B_A95D_631A_C8CE
  {}

  lemma MixB()
    ensures Mix(0xED45_D550_2845_A000) == 0x790B_A95D_910D_9A74
  {
    B30();
    B27();
    B31();
    BProducts();
    Stages(Shift30, MUL1, Shift27, MUL2, Shift31,
           0xED45_D550_2845_A000, 0xED45_D553_9D52_F540, 0x1F4F_521D_5355_7B40,
           0x1F4F_521E_BABF_38EA, 0x790B_A95D_631A_C8CE, 0x790B_A95D_910D_9A74);
  }
}
