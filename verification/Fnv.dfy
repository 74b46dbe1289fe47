/** The 64-bit FNV-1a hash that baselines are kept in. */
module Fnv {
  type Bytes = seq<bv8>

  const BASIS: bv64 := 0xcbf2_9ce4_8422_2325

  function Mix(hash: bv64, b: bv8): bv64 {
    hash ^ (b as bv64)
  }

  /** By the FNV prime, dropping what overflows. */
  function Times(hash: bv64): bv64 {
    hash * 0x0100_0000_01b3
  }

  function Step(hash: bv64, b: bv8): bv64 {
    Times(Mix(hash, b))
  }

  function FoldLeft<A, B>(f: (A, B) -> A, start: A, s: seq<B>): A
    decreases |s|
  {
    if s == [] then start else FoldLeft(f, f(start, s[0]), s[1..])
  }

  function Hash(bytes: Bytes): bv64 {
    FoldLeft(Step, BASIS, bytes)
  }

  lemma FoldStep<A, B>(f: (A, B) -> A, start: A, s: seq<B>, i: nat)
    requires i < |s|
    ensures FoldLeft(f, start, s[i..]) == FoldLeft(f, f(start, s[i]), s[i + 1..])
  {
    assert s[i..][1..] == s[i + 1..];
  }

  method HashBytes(bytes: Bytes) returns (hash: bv64)
    ensures hash == Hash(bytes)
  {
    hash := BASIS;
    var i := 0;
    while i < |bytes|
      invariant 0 <= i <= |bytes|
      invariant FoldLeft(Step, hash, bytes[i..]) == Hash(bytes)
    {
      FoldStep(Step, hash, bytes, i);
      hash := hash ^ (bytes[i] as bv64);
      hash := Times(hash);
      i := i + 1;
    }
  }

  // ---- What the hash tells apart -------------------------------------------------------------------

  /** The published values for no byte and for the letter a. */
  lemma KnownValues()
    ensures Hash([]) == 0xcbf2_9ce4_8422_2325
    ensures Hash([0x61]) == 0xaf63_dc4c_8601_ec8c
  {
    assert [0x61 as bv8][1..] == [];
    assert Hash([0x61]) == Step(BASIS, 0x61);
  }

  /** The prime is odd, so it has an inverse. */
  function Undo(hash: bv64): bv64 {
    hash * 0xce96_5057_aff6_957b
  }

  lemma PrimeInverts(x: bv64)
    ensures Undo(x * 0x0100_0000_01b3) == x
  {
  }

  lemma TimesInverts(x: bv64)
    ensures Undo(Times(x)) == x
  {
    PrimeInverts(x);
  }

  lemma StepInverts(h: bv64, b: bv8)
    ensures Undo(Step(h, b)) == Mix(h, b)
  {
    TimesInverts(Mix(h, b));
  }

  lemma MixSeparates(h: bv64, g: bv64, b: bv8, c: bv8)
    ensures Mix(h, b) == Mix(g, b) ==> h == g
    ensures Mix(h, b) == Mix(h, c) ==> b == c
  {
  }

  /** A byte never makes two hashes equal, and two bytes never lead from one hash to the same. */
  lemma StepSeparates(h: bv64, g: bv64, b: bv8, c: bv8)
    ensures Step(h, b) == Step(g, b) ==> h == g
    ensures Step(h, b) == Step(h, c) ==> b == c
  {
    StepInverts(h, b);
    StepInverts(g, b);
    StepInverts(h, c);
    MixSeparates(h, g, b, c);
  }

  lemma {:induction false} FoldSeparates(h: bv64, g: bv64, s: Bytes)
    requires h != g
    ensures FoldLeft(Step, h, s) != FoldLeft(Step, g, s)
    decreases |s|
  {
    if s != [] {
      StepSeparates(h, g, s[0], s[0]);
      FoldSeparates(Step(h, s[0]), Step(g, s[0]), s[1..]);
    }
  }

  lemma {:induction false} FoldAppend<A, B>(f: (A, B) -> A, start: A, s: seq<B>, t: seq<B>)
    ensures FoldLeft(f, start, s + t) == FoldLeft(f, FoldLeft(f, start, s), t)
    decreases |s|
  {
    if s == [] {
      assert s + t == t;
    } else {
      assert (s + t)[1..] == s[1..] + t;
      FoldAppend(f, f(start, s[0]), s[1..], t);
    }
  }

  /** Contents that differ in exactly one byte never share a hash. */
  lemma OneByteApart(front: Bytes, x: bv8, y: bv8, back: Bytes)
    requires x != y
    ensures Hash(front + [x] + back) != Hash(front + [y] + back)
  {
    var h := FoldLeft(Step, BASIS, front);
    FoldAppend(Step, BASIS, front, [x]);
    FoldAppend(Step, BASIS, front, [y]);
    FoldAppend(Step, BASIS, front + [x], back);
    FoldAppend(Step, BASIS, front + [y], back);
    assert [x][1..] == [] && [y][1..] == [];
    StepSeparates(h, h, x, y);
    FoldSeparates(Step(h, x), Step(h, y), back);
  }
}
