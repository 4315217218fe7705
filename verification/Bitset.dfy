/** Sets of small numbers packed into 64-bit words (src/test_files/porcupine/bitset.go). */
module Bitset {

  // ---------------------------------------------------------------- one word

  datatype Word = Word(bits: bv64)

  function Mask(minor: nat): bv64
    requires minor < 64
  {
    (1 as bv64) << minor
  }

  predicate Test(w: Word, minor: nat)
    requires minor < 64
  {
    w.bits & Mask(minor) != 0
  }

  function With(w: Word, minor: nat): Word
    requires minor < 64
  {
    Word(w.bits | Mask(minor))
  }

  function Without(w: Word, minor: nat): Word
    requires minor < 64
  {
    Word(w.bits & !Mask(minor))
  }

  function Xor(a: Word, b: Word): Word {
    Word(a.bits ^ b.bits)
  }

  function Plus(a: Word, b: Word): Word {
    Word(a.bits + b.bits)
  }

  /** Number of bits set among the lowest k. */
  function Ones(w: Word, k: nat): Word
    requires k <= 64
  {
    if k == 0 then Word(0) else Plus(Ones(w, k - 1), Word(if Test(w, k - 1) then 1 else 0))
  }

  lemma MasksDiffer(i: nat, j: nat)
    requires i < 64 && j < 64
    ensures Mask(i) != 0 && (i != j ==> Mask(i) & Mask(j) == 0)
  {
  }

  lemma TestAfterWith(w: Word, i: nat, j: nat)
    requires i < 64 && j < 64
    ensures Test(With(w, i), j) <==> i == j || Test(w, j)
  {
    MasksDiffer(i, j);
  }

  // ---------------------------------------------------------------- many words

  type Words = seq<Word>

  function Chunks(bits: nat): (r: nat)
    ensures 64 * r >= bits && 64 * r < bits + 64
  {
    bits / 64 + (if bits % 64 != 0 then 1 else 0)
  }

  function Empty(bits: nat): (w: Words)
    ensures Capacity(w) >= bits
  {
    seq(Chunks(bits), _ => Word(0))
  }

  function Capacity(w: Words): nat {
    64 * |w|
  }

  predicate Get(w: Words, pos: nat)
    requires pos < Capacity(w)
  {
    Test(w[pos / 64], pos % 64)
  }

  function Set(w: Words, pos: nat): (r: Words)
    requires pos < Capacity(w)
    ensures |r| == |w|
  {
    w[pos / 64 := With(w[pos / 64], pos % 64)]
  }

  function Clear(w: Words, pos: nat): (r: Words)
    requires pos < Capacity(w)
    ensures |r| == |w|
  {
    w[pos / 64 := Without(w[pos / 64], pos % 64)]
  }

  lemma EmptyHasNothing(bits: nat, pos: nat)
    requires pos < Capacity(Empty(bits))
    ensures !Get(Empty(bits), pos)
  {
  }

  /** Setting a bit adds exactly that element. */
  lemma GetAfterSet(w: Words, i: nat, j: nat)
    requires i < Capacity(w) && j < Capacity(w)
    ensures Get(Set(w, i), j) <==> i == j || Get(w, j)
  {
    hide Test, With, Without;
    TestAfterWith(w[i / 64], i % 64, j % 64);
  }

  /** Clearing undoes setting, word for word. */
  lemma ClearAfterSet(w: Words, i: nat)
    requires i < Capacity(w) && !Get(w, i)
    ensures Clear(Set(w, i), i) == w
  {
  }

  // ---------------------------------------------------------------- the operations on the buffer

  method SetBit(b: array<Word>, pos: nat)
    requires pos < Capacity(b[..])
    modifies b
    ensures b[..] == Set(old(b[..]), pos)
  {
    b[pos / 64] := With(b[pos / 64], pos % 64);
  }

  method ClearBit(b: array<Word>, pos: nat)
    requires pos < Capacity(b[..])
    modifies b
    ensures b[..] == Clear(old(b[..]), pos)
  {
    b[pos / 64] := Without(b[pos / 64], pos % 64);
  }

  // ---------------------------------------------------------------- hashing

  function Population(w: Words): Word {
    if w == [] then Word(0) else Plus(Population(w[..|w| - 1]), Ones(w[|w| - 1], 64))
  }

  function Folded(w: Words, start: Word): Word {
    if w == [] then start else Xor(Folded(w[..|w| - 1], start), w[|w| - 1])
  }

  function Hash(w: Words): Word {
    Folded(w, Population(w))
  }

  method ComputeHash(w: Words) returns (hash: Word)
    ensures hash == Hash(w)
  {
    hide Ones, Plus, Xor;
    hash := Word(0);
    for i := 0 to |w|
      invariant hash == Population(w[..i])
    {
      assert w[..i + 1][..i] == w[..i];
      hash := Plus(hash, Ones(w[i], 64));
    }
    assert w[..|w|] == w;
    for i := 0 to |w|
      invariant hash == Folded(w[..i], Population(w))
    {
      assert w[..i + 1][..i] == w[..i];
      hash := Xor(hash, w[i]);
    }
  }

  method Equals(a: Words, b: Words) returns (same: bool)
    ensures same <==> a == b
  {
    if |a| != |b| {
      return false;
    }
    for i := 0 to |a|
      invariant a[..i] == b[..i]
    {
      if a[i] != b[i] {
        return false;
      }
    }
    same := true;
  }
}
