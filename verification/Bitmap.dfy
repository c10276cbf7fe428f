// Binary memory maps: one bit a page, thirty-two bits a word, a set bit is a free page.
// The kernel has one over physical frames and every process has one over its own pages.
module Bitmap {

  const WORD_BITS := 32

  function Mask(k: nat): bv32
    requires k < WORD_BITS
  {
    1 << k
  }

  function And(a: bv32, b: bv32): bv32 {
    a & b
  }

  function Or(a: bv32, b: bv32): bv32 {
    a | b
  }

  function Not(a: bv32): bv32 {
    !a
  }

  predicate TestBit(w: bv32, k: nat)
    requires k < WORD_BITS
  {
    And(w, Mask(k)) != 0
  }

  function SetBit(w: bv32, k: nat): bv32
    requires k < WORD_BITS
  {
    Or(w, Mask(k))
  }

  function ClearBit(w: bv32, k: nat): bv32
    requires k < WORD_BITS
  {
    And(w, Not(Mask(k)))
  }

  // Is bit c of the map set? A bit past the end of the map is not.
  predicate Bit(words: seq<bv32>, c: nat) {
    c / WORD_BITS < |words| && TestBit(words[c / WORD_BITS], c % WORD_BITS)
  }

  // The pages a map records as free.
  ghost function Free(words: seq<bv32>): set<nat> {
    set c: nat | 0 <= c < WORD_BITS * |words| && Bit(words, c)
  }

  predicate Within(c: nat, p: nat, n: nat) {
    p <= c < p + n
  }

  ghost function Range(p: nat, n: nat): set<nat> {
    set c: nat | p <= c < p + n && Within(c, p, n)
  }

  // n consecutive free pages start at p.
  ghost predicate Fits(free: set<nat>, p: nat, n: nat) {
    forall c: nat | p <= c < p + n :: c in free
  }

  // p is the lowest place below the limit where n pages fit.
  ghost predicate FirstFit(free: set<nat>, limit: nat, n: nat, p: nat) {
    && p < limit
    && Fits(free, p, n)
    && forall q: nat | q < p :: !Fits(free, q, n)
  }

  ghost predicate NoFit(free: set<nat>, limit: nat, n: nat) {
    forall q: nat | q < limit :: !Fits(free, q, n)
  }

  // The search reads ahead up to n - 1 pages past the limit: the map is long enough for that,
  // or a clear bit stops the search inside it, or the search ends before.
  ghost predicate Bounded(words: seq<bv32>, limit: nat, n: nat) {
    || limit + n <= WORD_BITS * |words| + 1
    || (exists z: nat :: limit <= z + 1 && z < WORD_BITS * |words| && !Bit(words, z))
    || exists q: nat :: q < limit && Fits(Free(words), q, n) && n > 0
  }

  // The lowest bit of a word is the first page's.
  lemma LowestFirst(k: nat)
    requires k + 1 < 32
    ensures Mask(0) == 1 && Mask(k + 1) == Mask(k) + Mask(k)
  {
  }

  lemma MaskApart(k: nat, j: nat)
    requires k < WORD_BITS && j < WORD_BITS
    ensures if k == j then Mask(k) != 0 else And(Mask(k), Mask(j)) == 0
  {
  }

  lemma OrApart(w: bv32, a: bv32, b: bv32)
    requires And(a, b) == 0
    ensures And(Or(w, a), b) == And(w, b)
  {
    assert (w | a) & b == (w & b) | (a & b);
  }

  lemma NotApart(w: bv32, a: bv32, b: bv32)
    requires And(a, b) == 0
    ensures And(And(w, Not(a)), b) == And(w, b)
  {
  }

  lemma Alike(w: bv32, a: bv32)
    ensures And(Or(w, a), a) == a && And(And(w, Not(a)), a) == 0
  {
  }

  lemma MaskBits(w: bv32, k: nat, j: nat)
    requires k < WORD_BITS && j < WORD_BITS
    ensures TestBit(SetBit(w, k), j) <==> j == k || TestBit(w, j)
    ensures TestBit(ClearBit(w, k), j) <==> j != k && TestBit(w, j)
  {
    hide Mask, And, Or, Not;
    MaskApart(k, j);
    if k == j {
      Alike(w, Mask(k));
    } else {
      OrApart(w, Mask(k), Mask(j));
      NotApart(w, Mask(k), Mask(j));
    }
  }

  lemma ClearOne(words: seq<bv32>, c: nat)
    requires c < WORD_BITS * |words|
    ensures c / WORD_BITS < |words|
    ensures Free(words[c / WORD_BITS := ClearBit(words[c / WORD_BITS], c % WORD_BITS)]) == Free(words) - {c}
  {
    hide TestBit, ClearBit;
    var after := words[c / WORD_BITS := ClearBit(words[c / WORD_BITS], c % WORD_BITS)];
    forall j: nat | j < WORD_BITS * |words|
      ensures Bit(after, j) <==> Bit(words, j) && j != c
    {
      if j / WORD_BITS == c / WORD_BITS {
        MaskBits(words[c / WORD_BITS], c % WORD_BITS, j % WORD_BITS);
      }
    }
  }

  lemma SetOne(words: seq<bv32>, c: nat)
    requires c < WORD_BITS * |words|
    ensures c / WORD_BITS < |words|
    ensures Free(words[c / WORD_BITS := SetBit(words[c / WORD_BITS], c % WORD_BITS)]) == Free(words) + {c}
  {
    hide TestBit, SetBit;
    var after := words[c / WORD_BITS := SetBit(words[c / WORD_BITS], c % WORD_BITS)];
    forall j: nat | j < WORD_BITS * |words|
      ensures Bit(after, j) <==> Bit(words, j) || j == c
    {
      if j / WORD_BITS == c / WORD_BITS {
        MaskBits(words[c / WORD_BITS], c % WORD_BITS, j % WORD_BITS);
      }
    }
  }

  // Takes the first n consecutive free pages below the limit, and answers where they start.
  // Answers 0 when there are none (and also for n == 0, or when the pages found start at 0).
  method Acquire(words: array<bv32>, limit: nat, n: nat) returns (page: nat)
    requires Bounded(words[..], limit, n)
    modifies words
    ensures NoFit(old(Free(words[..])), limit, n) ==> page == 0 && words[..] == old(words[..])
    ensures !NoFit(old(Free(words[..])), limit, n) ==>
              && FirstFit(old(Free(words[..])), limit, n, page)
              && Free(words[..]) == old(Free(words[..])) - Range(page, n)
    ensures n == 0 ==> page == 0 && words[..] == old(words[..])
  {
    hide TestBit, ClearBit;
    ghost var free := Free(words[..]);
    var p := 0;
    while p < limit
      invariant forall q: nat | q < p && q < limit :: !Fits(free, q, n)
      invariant words[..] == old(words[..])
    {
      var found := true;
      var c := p;
      while c < p + n
        invariant p <= c <= p + n
        invariant forall b: nat | p <= b < c :: b in free
      {
        assert c < WORD_BITS * words.Length by {
          if limit + n > WORD_BITS * |words[..]| + 1 {
            if z: nat :| limit <= z + 1 && z < WORD_BITS * |words[..]| && !Bit(words[..], z) {
              assert z !in free;
            } else {
              var q: nat :| q < limit && Fits(free, q, n);
              assert q + n - 1 in free && p <= q;
            }
          }
        }
        if !TestBit(words[c / WORD_BITS], c % WORD_BITS) {
          found := false;
          break;
        }
        c := c + 1;
      }
      if found {
        var r := p;
        while r < p + n
          invariant p <= r <= p + n
          invariant Free(words[..]) == free - Range(p, r - p)
          invariant r == p ==> words[..] == old(words[..])
        {
          assert r in free;
          ClearOne(words[..], r);
          ghost var was := words[..];
          words[r / WORD_BITS] := ClearBit(words[r / WORD_BITS], r % WORD_BITS);
          assert words[..] == was[r / WORD_BITS := ClearBit(was[r / WORD_BITS], r % WORD_BITS)];
          r := r + 1;
        }
        assert Fits(free, p, n);
        if n == 0 { assert p > 0 ==> Fits(free, 0, 0); }
        return p;
      }
      assert c !in free;
      p := c + 1;
    }
    return 0;
  }

  // Marks n pages from p as free.
  method Dispose(words: array<bv32>, p: nat, n: nat)
    requires p + n <= WORD_BITS * words.Length
    modifies words
    ensures Free(words[..]) == old(Free(words[..])) + Range(p, n)
  {
    hide TestBit, SetBit;
    var f := p;
    while f < p + n
      invariant p <= f <= p + n
      invariant Free(words[..]) == old(Free(words[..])) + Range(p, f - p)
    {
      SetOne(words[..], f);
      ghost var was := words[..];
      words[f / WORD_BITS] := SetBit(words[f / WORD_BITS], f % WORD_BITS);
      assert words[..] == was[f / WORD_BITS := SetBit(was[f / WORD_BITS], f % WORD_BITS)];
      f := f + 1;
    }
  }

  // Giving back what a search took restores the map.
  method AcquireDispose(words: array<bv32>, limit: nat, n: nat) returns (page: nat, ghost between: set<nat>)
    requires Bounded(words[..], limit, n)
    requires 0 !in Free(words[..])
    modifies words
    ensures Free(words[..]) == old(Free(words[..]))
    ensures page == 0 <==> n == 0 || NoFit(old(Free(words[..])), limit, n)
    ensures page != 0 ==> FirstFit(old(Free(words[..])), limit, n, page)
    ensures between == if page == 0 then old(Free(words[..])) else old(Free(words[..])) - Range(page, n)
  {
    ghost var free := Free(words[..]);
    page := Acquire(words, limit, n);
    between := Free(words[..]);
    if page != 0 {
      assert page + n - 1 in free;
      assert Range(page, n) <= free;
      Dispose(words, page, n);
    }
  }
}
