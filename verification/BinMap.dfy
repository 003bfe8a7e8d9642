/** The bin map of classic/ptmalloc/bins.cpp: four 32-bit words, one bit per bin. */
module BinMap {
  const WORDS: nat := 4
  const MAPPED: nat := 128

  function Mask(b: nat): bv32
    requires b < 32
  {
    (1 as bv32) << b
  }

  predicate Test(w: bv32, m: bv32) {
    w & m != 0
  }

  predicate Bit(w: bv32, b: nat)
    requires b < 32
  {
    Test(w, Mask(b))
  }

  function Or(w: bv32, m: bv32): bv32 {
    w | m
  }

  function AndNot(w: bv32, m: bv32): bv32 {
    w & !m
  }

  predicate Nonzero(m: bv32) {
    m != 0
  }

  lemma MaskNonzero(b: nat)
    requires b < 32
    ensures Nonzero(Mask(b))
  {
  }

  lemma MasksApart(b: nat, c: nat)
    requires b < 32 && c < 32 && b != c
    ensures AndNot(Mask(c), Mask(b)) == Mask(c)
  {
  }

  lemma SameMask(w: bv32, m: bv32)
    requires Nonzero(m)
    ensures Test(Or(w, m), m) && !Test(AndNot(w, m), m)
  {
  }

  lemma OtherMask(w: bv32, m: bv32, n: bv32)
    ensures Test(Or(w, m), AndNot(n, m)) == Test(w, AndNot(n, m))
    ensures Test(AndNot(w, m), AndNot(n, m)) == Test(w, AndNot(n, m))
  {
    assert (w | m) & (n & !m) == w & (n & !m);
    assert (w & !m) & (n & !m) == w & (n & !m);
  }

  lemma BitAfter(w: bv32, b: nat, c: nat)
    requires b < 32 && c < 32
    ensures Bit(Or(w, Mask(b)), c) <==> b == c || Bit(w, c)
    ensures Bit(AndNot(w, Mask(b)), c) <==> b != c && Bit(w, c)
  {
    hide Mask, Test, Or, AndNot, Nonzero;
    MaskNonzero(b);
    if b == c {
      SameMask(w, Mask(b));
    } else {
      MasksApart(b, c);
      OtherMask(w, Mask(b), Mask(c));
    }
  }

  predicate Marked(binmap: seq<bv32>, i: nat)
    requires |binmap| == WORDS && i < MAPPED
  {
    Bit(binmap[i / 32], i % 32)
  }

  function Set(binmap: seq<bv32>, i: nat): (r: seq<bv32>)
    requires |binmap| == WORDS && i < MAPPED
    ensures |r| == WORDS
  {
    binmap[i / 32 := Or(binmap[i / 32], Mask(i % 32))]
  }

  function Clear(binmap: seq<bv32>, i: nat): (r: seq<bv32>)
    requires |binmap| == WORDS && i < MAPPED
    ensures |r| == WORDS
  {
    binmap[i / 32 := AndNot(binmap[i / 32], Mask(i % 32))]
  }

  /** Marking and clearing a bin change the answer for that bin only. */
  lemma MarkedAfter(binmap: seq<bv32>, i: nat, j: nat)
    requires |binmap| == WORDS && i < MAPPED && j < MAPPED
    ensures Marked(Set(binmap, i), j) <==> i == j || Marked(binmap, j)
    ensures Marked(Clear(binmap, i), j) <==> i != j && Marked(binmap, j)
  {
    hide Mask, Bit, Or, AndNot;
    assert i == j <==> i / 32 == j / 32 && i % 32 == j % 32;
    if i / 32 == j / 32 {
      BitAfter(binmap[i / 32], i % 32, j % 32);
    }
  }

  /** The scan of `next_nonempty` within one word: the first set bit from `b` on, or 32. */
  method ScanWord(w: bv32, b: nat) returns (r: nat)
    requires b <= 32
    ensures b <= r <= 32
    ensures r < 32 ==> Bit(w, r)
    ensures forall c :: b <= c < r ==> !Bit(w, c)
  {
    hide Bit, Mask;
    r := b;
    while r < 32 && !Bit(w, r)
      invariant b <= r <= 32
      invariant forall c :: b <= c < r ==> !Bit(w, c)
    {
      r := r + 1;
    }
  }

  /** `next_nonempty`: the first marked bin from `start` on, or 128. */
  method NextMarked(binmap: seq<bv32>, start: nat) returns (r: nat)
    requires |binmap| == WORDS
    ensures r <= MAPPED
    ensures r < MAPPED ==> start <= r && Marked(binmap, r)
    ensures forall j :: start <= j < r ==> !Marked(binmap, j)
  {
    hide Bit, Mask;
    var word := start / 32;
    while word < WORDS
      invariant start / 32 <= word
      invariant forall j :: start <= j < 32 * word && j < MAPPED ==> !Marked(binmap, j)
    {
      if binmap[word] != 0 {
        var b := ScanWord(binmap[word], if word == start / 32 then start % 32 else 0);
        WordDone(binmap, start, word, b);
        if b < 32 {
          return 32 * word + b;
        }
      } else {
        EmptyWord(binmap, word);
      }
      word := word + 1;
    }
    return MAPPED;
  }

  lemma WordDone(binmap: seq<bv32>, start: nat, word: nat, b: nat)
    requires |binmap| == WORDS && start / 32 <= word < WORDS && b <= 32
    requires (if word == start / 32 then start % 32 else 0) <= b
    requires b < 32 ==> Bit(binmap[word], b)
    requires forall c :: (if word == start / 32 then start % 32 else 0) <= c < b ==> !Bit(binmap[word], c)
    ensures b < 32 ==> start <= 32 * word + b && Marked(binmap, 32 * word + b)
    ensures forall j :: start <= j && 32 * word <= j < 32 * word + b ==> !Marked(binmap, j)
  {
  }

  lemma EmptyWord(binmap: seq<bv32>, word: nat)
    requires |binmap| == WORDS && word < WORDS && binmap[word] == 0
    ensures forall j :: 32 * word <= j < 32 * word + 32 ==> !Marked(binmap, j)
  {
  }
}
