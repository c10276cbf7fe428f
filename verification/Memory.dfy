// The frame allocator: the kernel's map of free frames, and the promise that a free frame is blank.
module Memory {
  import opened Bitmap
  import opened Layout
  import opened Spaces

  lemma {:induction false} RangeSize(p: nat, n: nat)
    ensures |Range(p, n)| == n
  {
    if n == 0 {
      assert Range(p, n) == {};
    } else {
      RangeSize(p, n - 1);
      assert Range(p, n) == Range(p, n - 1) + {p + n - 1};
    }
  }

  // A clear bit at the limit stops every search.
  lemma StopsAt(words: seq<bv32>, limit: nat, n: nat)
    requires limit < WORD_BITS * |words| && limit !in Free(words)
    ensures Bounded(words, limit, n)
  {
    assert !Bit(words, limit);
  }

  // Memory with n frames from f blanked.
  ghost function Blanked(memory: seq<Page>, f: nat, n: nat): (r: seq<Page>)
    ensures |r| == |memory|
  {
    seq<Page>(|memory|, j requires 0 <= j < |memory| => BlankedAt(memory, f, n, j))
  }

  ghost function BlankedAt(memory: seq<Page>, f: nat, n: nat, j: nat): Page
    requires j < |memory|
  {
    if f <= j < f + n then ZeroPage() else memory[j]
  }

  // n frames from f leave the free ones.
  ghost function Taken(w: World, f: nat, n: nat): World {
    World(w.memory, w.own, w.free - Range(f, n), w.kind)
  }

  // n frames from f join the free ones, blank.
  ghost function Given(w: World, f: nat, n: nat): World {
    World(Blanked(w.memory, f, n), w.own, w.free + Range(f, n), w.kind)
  }

  lemma GivenBlank(w: World, limit: nat, f: nat, n: nat)
    requires Blank(w) && |w.memory| == limit && 0 < f && f + n <= limit
    ensures Blank(Given(w, f, n))
  {
  }

  // A request for n frames is not met: for none, or for more than there are in a row.
  ghost predicate Lacks(w: World, limit: nat, n: nat) {
    n == 0 || NoFit(w.free, limit, n)
  }

  // Nor is one of several requests.
  ghost predicate LacksOne(w: World, limit: nat, ns: set<nat>) {
    exists n :: n in ns && Lacks(w, limit, n)
  }

  lemma NoneFree(w: World, limit: nat)
    requires w.free == {}
    ensures Lacks(w, limit, 1)
  {
    forall q: nat | q < limit ensures !Bitmap.Fits(w.free, q, 1) {
      assert q !in w.free;
    }
  }

  lemma FreeBelow(w: World, limit: nat)
    requires Blank(w) && |w.memory| == limit
    ensures 0 !in w.free && forall f | f in w.free :: f < limit
  {
  }

  lemma StillBlank(w: World, f: nat, n: nat)
    requires Blank(w)
    ensures Blank(Taken(w, f, n)) && Taken(w, f, n).free <= w.free
  {
  }

  lemma FitTakes(free: set<nat>, limit: nat, n: nat, page: nat)
    requires FirstFit(free, limit, n, page)
    ensures |free - Range(page, n)| + n == |free|
  {
    RangeSize(page, n);
    assert Range(page, n) <= free;
    assert free == (free - Range(page, n)) + Range(page, n);
  }

  lemma NotAtZero(free: set<nat>, limit: nat, n: nat)
    requires 0 !in free && n > 0
    ensures !FirstFit(free, limit, n, 0)
  {
    assert Bitmap.Fits(free, 0, n) ==> 0 in free;
  }

  lemma NoneFits(free: set<nat>, limit: nat)
    requires NoFit(free, limit, 1) && forall f | f in free :: f < limit
    ensures free == {}
  {
    forall f | f in free ensures false {
      assert Bitmap.Fits(free, f, 1);
    }
  }

  lemma OneFits(free: set<nat>, limit: nat, page: nat)
    requires FirstFit(free, limit, 1, page)
    ensures page in free && Range(page, 1) == {page}
  {
  }

  class Kernel {
    // memory_base_address and page_limit
    const bitmap: array<bv32>
    const limit: nat
    var memory: seq<Page>
    var available: nat
    // Which frame is whose, and how each space came about.
    ghost var own: map<Node, nat>
    ghost var kind: map<nat, Kind>
    // Frames counted as available that the map does not show yet (until the boot loader's are freed).
    ghost var withheld: set<nat>

    constructor (bitmap: array<bv32>, limit: nat, memory: seq<Page>, available: nat, ghost withheld: set<nat>)
      ensures this.bitmap == bitmap && this.limit == limit && this.memory == memory
      ensures this.available == available && this.withheld == withheld
      ensures own == map[] && kind == map[]
    {
      this.bitmap := bitmap;
      this.limit := limit;
      this.memory := memory;
      this.available := available;
      this.withheld := withheld;
      own := map[];
      kind := map[];
    }

    ghost function W(): World
      reads this, bitmap
    {
      World(memory, own, Free(bitmap[..]), kind)
    }

    // Free frames are blank frames of memory, and the counter counts them.
    ghost predicate Frames()
      reads this, bitmap
    {
      && limit < WORD_BITS * bitmap.Length
      && |memory| == limit
      && Blank(W())
      && withheld !! W().free
      && available == |W().free| + |withheld|
    }

    ghost predicate Valid()
      reads this, bitmap
    {
      Frames() && Inv(W())
    }

    method Clean(f: nat, n: nat)
      requires f + n <= |memory|
      modifies this`memory
      ensures memory == Blanked(old(memory), f, n)
    {
      var w := 0;
      while w < n * ENTRIES
        invariant |memory| == |old(memory)|
        invariant 0 <= w <= n * ENTRIES
        invariant forall j | 0 <= j < |memory| && !(f <= j < f + n) :: memory[j] == old(memory)[j]
        invariant forall j, i | f <= j < f + n && 0 <= i < ENTRIES && (j - f) * ENTRIES + i < w :: memory[j][i] == EMPTY
        invariant forall j | f <= j < f + n && (j - f) * ENTRIES >= w :: memory[j] == old(memory)[j]
      {
        memory := Put(memory, f + w / ENTRIES, w % ENTRIES, EMPTY);
        w := w + 1;
      }
      forall j | 0 <= j < |memory|
        ensures memory[j] == Blanked(old(memory), f, n)[j]
      {
        if f <= j < f + n {
          assert forall i | 0 <= i < ENTRIES :: memory[j][i] == ZeroPage()[i];
          assert memory[j] == ZeroPage();
        }
      }
    }

    method AllocPages(n: nat) returns (page: nat)
      requires Frames()
      modifies this`available, bitmap
      ensures Frames()
      ensures page == 0 ==> W() == old(W()) && available == old(available)
      ensures page == 0 && n > 0 ==> NoFit(old(W().free), limit, n)
      ensures page != 0 ==> n > 0 && FirstFit(old(W().free), limit, n, page)
      ensures page != 0 ==> W() == Taken(old(W()), page, n) && available == old(available) - n
    {
      hide Bit, Bounded, Inv, FirstFit, NoFit, Free;
      ghost var free := W().free;
      StopsAt(bitmap[..], limit, n);
      FreeBelow(W(), limit);
      page := Acquire(bitmap, limit, n);
      if page != 0 {
        FitTakes(free, limit, n, page);
        StillBlank(old(W()), page, n);
        available := available - n;
      } else if n > 0 {
        NotAtZero(free, limit, n);
      }
    }

    method AllocPage() returns (page: nat)
      requires Frames()
      modifies this`available, bitmap
      ensures Frames()
      ensures page == 0 <==> old(W().free) == {}
      ensures page == 0 ==> W() == old(W()) && available == old(available)
      ensures page != 0 ==> page in old(W().free) && W().free == old(W().free) - {page} && available == old(available) - 1
    {
      hide Inv, Blank, NoFit, FirstFit;
      ghost var free := W().free;
      FreeBelow(W(), limit);
      page := AllocPages(1);
      if page == 0 {
        NoneFits(free, limit);
      } else {
        OneFits(free, limit, page);
      }
    }

    // The frames given back are not free yet; were one, the counter would run ahead of the map.
    method Release(f: nat, n: nat)
      requires Frames()
      requires 0 < f && f + n <= limit && Range(f, n) !! W().free + withheld
      modifies this`memory, this`available, bitmap
      ensures Frames()
      ensures W() == Given(old(W()), f, n) && available == old(available) + n
    {
      hide Bit, Inv;
      Clean(f, n);
      Dispose(bitmap, f, n);
      available := available + n;
      RangeSize(f, n);
      GivenBlank(old(W()), limit, f, n);
      assert W().free == old(W().free) + Range(f, n);
    }

    method ReleasePage(f: nat)
      requires Frames()
      requires 0 < f < limit && f !in W().free + withheld
      modifies this`memory, this`available, bitmap
      ensures Frames()
      ensures W() == Given(old(W()), f, 1) && available == old(available) + 1
    {
      assert Range(f, 1) == {f};
      Release(f, 1);
    }
  }
}
