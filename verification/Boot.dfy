// What the machine starts with: the map of free frames and the counter, made from the boot loader's
// map of memory, and the boot loader's own frames added once they are no longer needed.
module Boot {
  import opened Bitmap
  import opened Layout
  import opened Spaces
  import opened Memory
  import opened Reshaping
  import opened Pages
  import opened Paging
  import opened Teardown
  import opened UserMemory

  datatype Sort = Usable | Reclaimable | Other

  // A region of physical memory, in bytes.
  datatype Region = Region(base: nat, length: nat, sort: Sort)

  function First(r: Region): nat {
    r.base / PAGE_BYTES
  }

  function Count(r: Region): nat {
    r.length / PAGE_BYTES
  }

  predicate Ram(r: Region) {
    r.sort == Usable || r.sort == Reclaimable
  }

  ghost function FramesIn(r: Region): set<nat> {
    Range(First(r), Count(r))
  }

  // A map of memory: whole pages, no two regions of RAM overlap, and frame 0 is not among them.
  ghost predicate Sound(regions: seq<Region>) {
    && (forall i | 0 <= i < |regions| :: regions[i].base % PAGE_BYTES == 0 && regions[i].length % PAGE_BYTES == 0)
    && (forall i | 0 <= i < |regions| && Ram(regions[i]) :: First(regions[i]) > 0)
    && (forall i, j | 0 <= i < j < |regions| && Ram(regions[i]) && Ram(regions[j]) :: FramesIn(regions[i]) !! FramesIn(regions[j]))
  }

  // The frames of all regions of a sort.
  ghost function FramesOf(regions: seq<Region>, sort: Sort): set<nat> {
    if regions == [] then {}
    else FramesOf(regions[..|regions| - 1], sort) + (if regions[|regions| - 1].sort == sort then FramesIn(regions[|regions| - 1]) else {})
  }

  // End of the farthest region of RAM.
  function LimitBytes(regions: seq<Region>): nat {
    if regions == [] then 0
    else
      var r := regions[|regions| - 1];
      var limit := LimitBytes(regions[..|regions| - 1]);
      if Ram(r) && limit < r.base + r.length then r.base + r.length else limit
  }

  function LimitOf(regions: seq<Region>): nat {
    LimitBytes(regions) / PAGE_BYTES
  }

  // Pages of a memory map over `limit` frames.
  function MapPages(limit: nat): nat {
    (limit / 8 + PAGE_BYTES - 1) / PAGE_BYTES
  }

  // The map has a bit for the limit itself, which stays clear and stops every search, exactly when the
  // whole bytes of the map do not fill its last page.
  lemma MapCovers(limit: nat)
    ensures limit < WORD_BITS * FRAME_WORDS * MapPages(limit) <==> limit / 8 % PAGE_BYTES != 0
  {
    var q, r := limit / 8 / PAGE_BYTES, limit / 8 % PAGE_BYTES;
    assert limit / 8 == q * PAGE_BYTES + r;
    assert MapPages(limit) == if r == 0 then q else q + 1 by {
      if r == 0 {
        assert q * PAGE_BYTES <= limit / 8 + PAGE_BYTES - 1 < (q + 1) * PAGE_BYTES;
      } else {
        assert (q + 1) * PAGE_BYTES <= limit / 8 + PAGE_BYTES - 1 < (q + 2) * PAGE_BYTES;
      }
    }
  }

  // A frame of a region of whole pages is one all of whose bytes lie in it.
  lemma FramesAreBytes(r: Region, f: nat)
    requires r.base % 4096 == 0 && r.length % 4096 == 0
    ensures f in FramesIn(r) <==> r.base <= f * 4096 && (f + 1) * 4096 <= r.base + r.length
  {
    assert r.base == First(r) * 4096 && r.length == Count(r) * 4096;
  }

  // The limit is where some region of RAM ends, and none ends behind it.
  lemma {:induction false} LimitIsReached(regions: seq<Region>)
    ensures forall i: nat | i < |regions| && regions[i].sort in {Usable, Reclaimable} :: regions[i].base + regions[i].length <= LimitBytes(regions)
    ensures LimitBytes(regions) > 0 ==>
              exists i: nat :: i < |regions| && regions[i].sort in {Usable, Reclaimable} && regions[i].base + regions[i].length == LimitBytes(regions)
  {
    forall i: nat | i < |regions| && regions[i].sort in {Usable, Reclaimable} ensures regions[i].base + regions[i].length <= LimitBytes(regions) {
      LimitIsFarthest(regions, i);
    }
    if LimitBytes(regions) > 0 {
      var rest, r := regions[..|regions| - 1], regions[|regions| - 1];
      if Ram(r) && LimitBytes(rest) < r.base + r.length {
        assert regions[|regions| - 1] == r;
      } else {
        LimitIsReached(rest);
        var j: nat :| j < |rest| && rest[j].sort in {Usable, Reclaimable} && rest[j].base + rest[j].length == LimitBytes(rest);
        assert regions[j] == rest[j];
      }
    }
  }

  lemma {:induction false} InFramesOf(regions: seq<Region>, sort: Sort, i: nat)
    requires i < |regions| && regions[i].sort == sort
    ensures FramesIn(regions[i]) <= FramesOf(regions, sort)
  {
    if i < |regions| - 1 {
      InFramesOf(regions[..|regions| - 1], sort, i);
    }
  }

  lemma {:induction false} RegionOf(regions: seq<Region>, sort: Sort, f: nat) returns (i: nat)
    requires f in FramesOf(regions, sort)
    ensures i < |regions| && regions[i].sort == sort && f in FramesIn(regions[i])
  {
    if f in FramesOf(regions[..|regions| - 1], sort) {
      i := RegionOf(regions[..|regions| - 1], sort, f);
    } else {
      i := |regions| - 1;
    }
  }

  lemma {:induction false} LimitIsFarthest(regions: seq<Region>, i: nat)
    requires i < |regions| && Ram(regions[i])
    ensures regions[i].base + regions[i].length <= LimitBytes(regions)
  {
    if i < |regions| - 1 {
      LimitIsFarthest(regions[..|regions| - 1], i);
    }
  }

  // Every frame of RAM lies below the limit.
  lemma BelowLimit(regions: seq<Region>, i: nat)
    requires Sound(regions) && i < |regions| && Ram(regions[i])
    ensures First(regions[i]) + Count(regions[i]) <= LimitOf(regions)
  {
    LimitIsFarthest(regions, i);
    Divided(regions[i].base, regions[i].length, LimitBytes(regions));
  }

  lemma Divided(base: nat, length: nat, limit: nat)
    requires base % PAGE_BYTES == 0 && length % PAGE_BYTES == 0 && base + length <= limit
    ensures base / PAGE_BYTES + length / PAGE_BYTES <= limit / PAGE_BYTES
  {
  }

  lemma FramesBelow(regions: seq<Region>, sort: Sort)
    requires Sound(regions) && sort != Other
    ensures forall f | f in FramesOf(regions, sort) :: 0 < f < LimitOf(regions)
  {
    forall f | f in FramesOf(regions, sort) ensures 0 < f < LimitOf(regions) {
      var i := RegionOf(regions, sort, f);
      BelowLimit(regions, i);
    }
  }

  // What comes before a region in the map shares no frame with it.
  lemma Apart(regions: seq<Region>, i: nat, sort: Sort)
    requires Sound(regions) && i < |regions| && Ram(regions[i]) && sort != Other
    ensures FramesOf(regions[..i], sort) !! FramesIn(regions[i])
  {
    forall f | f in FramesOf(regions[..i], sort) ensures f !in FramesIn(regions[i]) {
      var j := RegionOf(regions[..i], sort, f);
      assert regions[..i][j] == regions[j] && FramesIn(regions[j]) !! FramesIn(regions[i]);
    }
  }

  lemma SortsApart(regions: seq<Region>)
    requires Sound(regions)
    ensures FramesOf(regions, Usable) !! FramesOf(regions, Reclaimable)
  {
    forall f | f in FramesOf(regions, Usable) ensures f !in FramesOf(regions, Reclaimable) {
      var i := RegionOf(regions, Usable, f);
      if f in FramesOf(regions, Reclaimable) {
        var j := RegionOf(regions, Reclaimable, f);
        RegionsApart(regions, i, j);
      }
    }
  }

  lemma RegionsApart(regions: seq<Region>, i: nat, j: nat)
    requires Sound(regions) && i < |regions| && j < |regions| && i != j && Ram(regions[i]) && Ram(regions[j])
    ensures FramesIn(regions[i]) !! FramesIn(regions[j])
  {
    assert i < j || j < i;
  }

  // One region more.
  lemma OneRegion(regions: seq<Region>, i: nat)
    requires Sound(regions) && i < |regions|
    ensures forall sort :: FramesOf(regions[..i + 1], sort) ==
                           FramesOf(regions[..i], sort) + (if regions[i].sort == sort then FramesIn(regions[i]) else {})
    ensures forall sort | sort != Other ::
              |FramesOf(regions[..i + 1], sort)| == |FramesOf(regions[..i], sort)| + (if regions[i].sort == sort then Count(regions[i]) else 0)
    ensures LimitBytes(regions[..i + 1]) ==
            if Ram(regions[i]) && LimitBytes(regions[..i]) < regions[i].base + regions[i].length then regions[i].base + regions[i].length
            else LimitBytes(regions[..i])
  {
    assert regions[..i + 1][..i] == regions[..i];
    forall sort | sort != Other
      ensures |FramesOf(regions[..i + 1], sort)| == |FramesOf(regions[..i], sort)| + (if regions[i].sort == sort then Count(regions[i]) else 0)
    {
      if regions[i].sort == sort {
        Apart(regions, i, sort);
        RangeSize(First(regions[i]), Count(regions[i]));
      } else {
        assert FramesOf(regions[..i + 1], sort) == FramesOf(regions[..i], sort);
      }
    }
  }

  // Usable regions are cleaned one by one; the largest will hold the kernel's own data.
  ghost predicate Cleaned(regions: seq<Region>, memory: seq<Page>, n: nat)
    requires n <= |regions|
  {
    forall f | f in FramesOf(regions[..n], Usable) :: f < |memory| && memory[f] == ZeroPage()
  }

  ghost predicate Largest(regions: seq<Region>, n: nat, base: nat, length: nat)
    requires n <= |regions|
  {
    && (forall i | 0 <= i < n && regions[i].sort == Usable :: regions[i].length <= length)
    && (length > 0 ==> exists i: nat :: i < n && regions[i].sort == Usable && regions[i].base == base && regions[i].length == length)
  }

  // The n-th region is cleaned, if it is usable.
  ghost function CleanedAt(regions: seq<Region>, memory: seq<Page>, n: nat): (after: seq<Page>)
    requires n < |regions|
    ensures |after| == |memory|
  {
    if regions[n].sort == Usable then Blanked(memory, First(regions[n]), Count(regions[n])) else memory
  }

  lemma CleanedOn(regions: seq<Region>, memory: seq<Page>, n: nat)
    requires Sound(regions) && n < |regions| && Cleaned(regions, memory, n) && |memory| == LimitOf(regions)
    ensures Cleaned(regions, CleanedAt(regions, memory, n), n + 1)
  {
    OneRegion(regions, n);
    var r := regions[n];
    var after := CleanedAt(regions, memory, n);
    if r.sort == Usable {
      BelowLimit(regions, n);
    }
    hide Sound, FramesOf;
    assert FramesOf(regions[..n + 1], Usable) == FramesOf(regions[..n], Usable) + (if r.sort == Usable then FramesIn(r) else {});
    forall f | f in FramesOf(regions[..n + 1], Usable) ensures f < |after| && after[f] == ZeroPage() {
      if f in FramesOf(regions[..n], Usable) {
        assert memory[f] == ZeroPage();
      } else {
        assert r.sort == Usable && f in FramesIn(r);
      }
    }
  }

  method CleanUsable(k: Kernel, regions: seq<Region>) returns (base: nat, length: nat)
    requires Sound(regions) && |k.memory| == LimitOf(regions)
    modifies k`memory
    ensures |k.memory| == LimitOf(regions) && Cleaned(regions, k.memory, |regions|) && Largest(regions, |regions|, base, length)
  {
    hide Sound, Cleaned, FramesOf;
    base, length := 0, 0;
    CleanedNone(regions, k.memory);
    for i := 0 to |regions|
      invariant |k.memory| == LimitOf(regions) && Cleaned(regions, k.memory, i) && Largest(regions, i, base, length)
    {
      CleanedOn(regions, k.memory, i);
      if regions[i].sort == Usable {
        BelowLimit(regions, i);
        k.Clean(First(regions[i]), Count(regions[i]));
        if length < regions[i].length {
          base, length := regions[i].base, regions[i].length;
        }
      }
    }
  }

  lemma CleanedNone(regions: seq<Region>, memory: seq<Page>)
    ensures Cleaned(regions, memory, 0)
  {
  }

  // The bits of usable frames are set, and all RAM is counted.
  ghost predicate Described(regions: seq<Region>, words: seq<bv32>, n: nat, limit: nat, available: nat)
    requires n <= |regions|
  {
    && Free(words) == FramesOf(regions[..n], Usable)
    && limit == LimitBytes(regions[..n])
    && available == |FramesOf(regions[..n], Usable)| + |FramesOf(regions[..n], Reclaimable)|
  }

  method Describe(bitmap: array<bv32>, regions: seq<Region>) returns (limit: nat, available: nat)
    requires Sound(regions) && Free(bitmap[..]) == {} && LimitOf(regions) <= WORD_BITS * bitmap.Length
    modifies bitmap
    ensures Described(regions, bitmap[..], |regions|, limit, available)
  {
    hide Sound, FramesOf, Free, LimitBytes;
    limit, available := 0, 0;
    NoneDescribed(regions, bitmap[..]);
    for i := 0 to |regions|
      invariant Described(regions, bitmap[..], i, limit, available)
    {
      OneRegion(regions, i);
      if Ram(regions[i]) {
        if limit < regions[i].base + regions[i].length {
          limit := regions[i].base + regions[i].length;
        }
        available := available + Count(regions[i]);
        if regions[i].sort == Usable {
          BelowLimit(regions, i);
          Dispose(bitmap, First(regions[i]), Count(regions[i]));
        }
      }
    }
  }

  lemma NoneDescribed(regions: seq<Region>, words: seq<bv32>)
    requires Free(words) == {}
    ensures Described(regions, words, 0, 0, 0)
  {
  }

  // n frames from p are marked as taken.
  method Occupy(words: array<bv32>, p: nat, n: nat)
    requires p + n <= WORD_BITS * words.Length
    modifies words
    ensures Free(words[..]) == old(Free(words[..])) - Range(p, n)
  {
    hide TestBit, ClearBit;
    var f := p;
    while f < p + n
      invariant p <= f <= p + n
      invariant Free(words[..]) == old(Free(words[..])) - Range(p, f - p)
    {
      ClearOne(words[..], f);
      ghost var was := words[..];
      words[f / WORD_BITS] := ClearBit(words[f / WORD_BITS], f % WORD_BITS);
      assert words[..] == was[f / WORD_BITS := ClearBit(was[f / WORD_BITS], f % WORD_BITS)];
      f := f + 1;
    }
  }

  lemma BlankMap(words: seq<bv32>)
    requires forall i | 0 <= i < |words| :: words[i] == 0
    ensures Free(words) == {}
  {
    forall c: nat | c < WORD_BITS * |words| ensures !Bit(words, c) {
      NoBits(c % WORD_BITS);
    }
    hide TestBit;
  }

  lemma NoBits(k: nat)
    requires k < WORD_BITS
    ensures !TestBit(0, k)
  {
  }

  // kernel_init_memory: free are exactly the usable frames but those of the kernel's data and of the
  // map itself, all of them blank; the counter also counts the boot loader's frames, which the map
  // does not show yet.
  method InitMemory(regions: seq<Region>, memory: seq<Page>, dataPages: nat) returns (k: Kernel, base: nat)
    requires Sound(regions) && |memory| == LimitOf(regions) && LimitOf(regions) / 8 % PAGE_BYTES != 0
    requires exists i: nat :: i < |regions| && regions[i].sort == Usable && Count(regions[i]) >= MapPages(LimitOf(regions)) + dataPages > 0
    ensures k.Frames() && k.limit == LimitOf(regions) && k.withheld == FramesOf(regions, Reclaimable)
    ensures k.W().free == FramesOf(regions, Usable) - Range(base, MapPages(k.limit) + dataPages)
    ensures Range(base, MapPages(k.limit) + dataPages) <= FramesOf(regions, Usable)
    ensures k.available == |k.W().free| + |FramesOf(regions, Reclaimable)|
    ensures fresh(k) && fresh(k.bitmap) && k.own == map[]
  {
    hide Sound, FramesOf, Free, LimitBytes, Cleaned, Described;
    MapCovers(LimitOf(regions));
    var bitmap := new bv32[FRAME_WORDS * MapPages(LimitOf(regions))](_ => 0);
    BlankMap(bitmap[..]);
    k := new Kernel(bitmap, LimitOf(regions), memory, 0, FramesOf(regions, Reclaimable));
    var start, length := CleanUsable(k, regions);
    var limit, available := Describe(bitmap, regions);
    var own := MapPages(limit / PAGE_BYTES) + dataPages;
    base := start / PAGE_BYTES;
    AllDescribed(regions, bitmap[..], limit, available);
    KernelPlace(regions, start, length, own);
    Occupy(bitmap, base, own);
    RangeSize(base, own);
    SetLess(FramesOf(regions, Usable), Range(base, own));
    k.available := available - own;
    AllCleaned(regions, k.memory);
    FramesBelow(regions, Usable);
    SortsApart(regions);
  }

  lemma SetLess(a: set<nat>, b: set<nat>)
    requires b <= a
    ensures |a - b| == |a| - |b|
  {
    assert a == (a - b) + b;
  }

  lemma AllDescribed(regions: seq<Region>, words: seq<bv32>, limit: nat, available: nat)
    requires Described(regions, words, |regions|, limit, available)
    ensures Free(words) == FramesOf(regions, Usable) && limit == LimitBytes(regions)
    ensures available == |FramesOf(regions, Usable)| + |FramesOf(regions, Reclaimable)|
  {
    assert regions[..|regions|] == regions;
  }

  lemma AllCleaned(regions: seq<Region>, memory: seq<Page>)
    requires Cleaned(regions, memory, |regions|)
    ensures forall f | f in FramesOf(regions, Usable) :: f < |memory| && memory[f] == ZeroPage()
  {
    assert regions[..|regions|] == regions;
  }

  lemma KernelPlace(regions: seq<Region>, start: nat, length: nat, own: nat)
    requires Sound(regions) && Largest(regions, |regions|, start, length)
    requires exists i: nat :: i < |regions| && regions[i].sort == Usable && Count(regions[i]) >= own > 0
    ensures Range(start / PAGE_BYTES, own) <= FramesOf(regions, Usable) && start / PAGE_BYTES + own <= LimitOf(regions)
  {
    var i: nat :| i < |regions| && regions[i].sort == Usable && Count(regions[i]) >= own > 0;
    assert regions[i].length <= length && length > 0;
    var j: nat :| j < |regions| && regions[j].sort == Usable && regions[j].base == start && regions[j].length == length;
    assert Count(regions[j]) >= own;
    InFramesOf(regions, Usable, j);
    BelowLimit(regions, j);
    hide FramesOf;
    assert Range(start / PAGE_BYTES, own) <= FramesIn(regions[j]);
  }

  // ---- the boot loader's frames -----------------------------------------------------------------

  // The regions registered for freeing, in the order of the map.
  function Registered(regions: seq<Region>): seq<Region> {
    if regions == [] then []
    else
      var r := regions[|regions| - 1];
      Registered(regions[..|regions| - 1]) + (if r.sort == Reclaimable then [r] else [])
  }

  lemma {:induction false} RegisteredAll(regions: seq<Region>)
    ensures FramesOf(Registered(regions), Reclaimable) == FramesOf(regions, Reclaimable)
    ensures forall r | r in Registered(regions) :: r in regions && r.sort == Reclaimable
  {
    if regions != [] {
      var rest := regions[..|regions| - 1];
      RegisteredAll(rest);
      var all := Registered(regions);
      if regions[|regions| - 1].sort == Reclaimable {
        assert all[..|all| - 1] == Registered(rest);
      } else {
        assert all == Registered(rest);
      }
    }
  }

  // Frames from f join the free ones, blank; the counter has counted them before.
  method Admit(k: Kernel, f: nat, n: nat)
    requires k.Frames() && f + n <= k.limit && Range(f, n) <= k.W().free + k.withheld && (forall y | y in k.withheld :: y > 0)
    modifies k`memory, k`withheld, k.bitmap
    ensures k.Frames() && k.W() == Given(old(k.W()), f, n) && k.withheld == old(k.withheld) - Range(f, n)
  {
    hide Bit, Free;
    ghost var w, withheld := k.W(), k.withheld;
    k.Clean(f, n);
    Dispose(k.bitmap, f, n);
    k.withheld := withheld - Range(f, n);
    SameCount(w.free, withheld, Range(f, n));
    AdmitBlank(w, k.withheld, k.limit, f, n, withheld);
  }

  lemma SameCount(a: set<nat>, b: set<nat>, r: set<nat>)
    requires a !! b && r <= a + b
    ensures (a + r) !! (b - r) && |a + r| + |b - r| == |a| + |b|
  {
    assert (a + r) + (b - r) == a + b;
    assert |(a + r) + (b - r)| == |a + r| + |b - r|;
    assert |a + b| == |a| + |b|;
  }

  lemma AdmitBlank(w: World, rest: set<nat>, limit: nat, f: nat, n: nat, withheld: set<nat>)
    requires Blank(w) && |w.memory| == limit && f + n <= limit && Range(f, n) <= w.free + withheld && (forall y | y in withheld :: y > 0)
    ensures Blank(Given(w, f, n))
  {
    forall y | y in Range(f, n) ensures 0 < y {
    }
  }

  // Memory but for the frames of r is as it was, and those are blank.
  ghost predicate BlankedOnly(v: World, w: World, r: set<nat>) {
    && |w.memory| == |v.memory|
    && forall f | 0 <= f < |v.memory| :: if f in r && f in w.free then w.memory[f] == ZeroPage() else w.memory[f] == v.memory[f]
  }

  lemma BlankedMore(v: World, w: World, r: set<nat>, f: nat, n: nat)
    requires BlankedOnly(v, w, r) && Range(f, n) <= r
    ensures BlankedOnly(v, Given(w, f, n), r)
  {
    var x := Given(w, f, n);
    forall y | 0 <= y < |v.memory|
      ensures if y in r && y in x.free then x.memory[y] == ZeroPage() else x.memory[y] == v.memory[y]
    {
      assert f <= y < f + n <==> y in Range(f, n);
    }
  }

  lemma AreasLeft(areas: seq<Region>, i: nat)
    requires i < |areas| && areas[i].sort == Reclaimable
    ensures FramesOf(areas[..i + 1], Reclaimable) == FramesOf(areas[..i], Reclaimable) + FramesIn(areas[i])
  {
    assert areas[..i + 1][..i] == areas[..i];
  }

  // Everything usable or reclaimable now shows in the map, and nothing in use was touched.
  lemma AdmittedInv(v: World, w: World, withheld: set<nat>)
    requires Inv(v) && w.own == v.own && w.kind == v.kind && w.free == v.free + withheld && Blank(w)
    requires |w.memory| == |v.memory| && forall f | 0 <= f < |v.memory| && f !in withheld :: w.memory[f] == v.memory[f]
    requires forall f | f in withheld :: Limbo(v, f)
    ensures Inv(w) && SameTables(v, w)
  {
    assert SameTables(v, w);
    assert Placed(w);
    SameTablesInv(v, w);
  }

  method Register(regions: seq<Region>) returns (areas: seq<Region>)
    ensures areas == Registered(regions)
  {
    areas := [];
    for i := 0 to |regions|
      invariant areas == Registered(regions[..i])
    {
      assert regions[..i + 1][..i] == regions[..i];
      if regions[i].sort == Reclaimable {
        areas := areas + [Region(regions[i].base, regions[i].length, Reclaimable)];
      }
    }
    assert regions[..|regions|] == regions;
  }

  method AdmitAll(k: Kernel, ghost regions: seq<Region>, areas: seq<Region>)
    requires Sound(regions) && areas == Registered(regions) && k.Frames() && k.limit == LimitOf(regions)
    requires k.withheld == FramesOf(regions, Reclaimable)
    modifies k`memory, k`withheld, k.bitmap
    ensures k.Frames() && k.withheld == {} && k.W().own == old(k.W()).own && k.W().kind == old(k.W()).kind
    ensures k.W().free == old(k.W().free) + old(k.withheld) && BlankedOnly(old(k.W()), k.W(), old(k.withheld))
  {
    hide Sound, Inv, Kernel.W, Kernel.Frames, Given, BlankedOnly, FramesOf, Admitting;
    ghost var u, r := k.W(), k.withheld;
    RegisteredAll(regions);
    NothingBlanked(u, r, areas) by { WithheldApart(k); }
    for i := 0 to |areas|
      invariant k.Frames() && Admitting(u, k.W(), r, k.withheld, areas, i)
    {
      var a := areas[i];
      ghost var w, left := k.W(), k.withheld;
      AdmittingNext(u, w, r, left, regions, areas, i);
      Admit(k, First(a), Count(a));
    }
    AdmittingEnds(u, k.W(), r, k.withheld, areas);
  }

  lemma WithheldApart(k: Kernel)
    requires k.Frames()
    ensures k.withheld !! k.W().free
  {
  }

  // The first n areas have been admitted.
  ghost predicate Admitting(u: World, w: World, r: set<nat>, left: set<nat>, areas: seq<Region>, n: nat)
    requires n <= |areas|
  {
    && w.own == u.own && w.kind == u.kind && BlankedOnly(u, w, r)
    && w.free == u.free + FramesOf(areas[..n], Reclaimable) && left == r - FramesOf(areas[..n], Reclaimable)
  }

  lemma AdmittingNext(u: World, w: World, r: set<nat>, left: set<nat>, regions: seq<Region>, areas: seq<Region>, i: nat)
    requires i < |areas| && Admitting(u, w, r, left, areas, i) && r == FramesOf(areas, Reclaimable) && r == FramesOf(regions, Reclaimable)
    requires Sound(regions) && forall x | x in areas :: x in regions && x.sort == Reclaimable
    ensures First(areas[i]) + Count(areas[i]) <= LimitOf(regions) && FramesIn(areas[i]) <= w.free + left
    ensures forall y | y in left :: y > 0
    ensures Admitting(u, Given(w, First(areas[i]), Count(areas[i])), r, left - FramesIn(areas[i]), areas, i + 1)
  {
    hide Sound, BlankedOnly, FramesOf, Given;
    AreaIsReclaimable(regions, areas, i, r);
    AreasLeft(areas, i);
    FramesBelow(regions, Reclaimable);
    BlankedMore(u, w, r, First(areas[i]), Count(areas[i]));
    GivenShape(w, First(areas[i]), Count(areas[i]));
  }

  lemma AdmittingEnds(u: World, w: World, r: set<nat>, left: set<nat>, areas: seq<Region>)
    requires Admitting(u, w, r, left, areas, |areas|) && r == FramesOf(areas, Reclaimable)
    ensures left == {} && w.free == u.free + r && BlankedOnly(u, w, r) && w.own == u.own && w.kind == u.kind
  {
    assert areas[..|areas|] == areas;
  }

  // Pages for the list of areas of so many regions.
  function AreaPages(n: nat): (pages: nat)
    ensures pages > 0 && 16 * (n + 1) <= pages * 4096 < 16 * (n + 1) + 4096
  {
    (16 * (n + 1) + PAGE_BYTES - 1) / PAGE_BYTES
  }

  lemma DoesFit(w: World, limit: nat, n: nat, f: nat)
    requires FirstFit(w.free, limit, n, f) && n > 0
    ensures !Lacks(w, limit, n) && Range(f, n) <= w.free
  {
  }

  lemma FreeAgain(free: set<nat>, r: set<nat>, f: nat, n: nat)
    requires Range(f, n) <= free
    ensures (free - Range(f, n)) + r + Range(f, n) == free + r
  {
  }

  // kernel_init_free: the boot loader's frames are cleaned and join the free ones, and map and counter
  // agree from here on.
  method InitFree(k: Kernel, regions: seq<Region>) returns (ok: bool)
    requires Sound(regions) && k.Frames() && k.limit == LimitOf(regions)
    requires k.withheld == FramesOf(regions, Reclaimable) && forall f | f in k.withheld :: Limbo(k.W(), f)
    modifies k`memory, k`available, k`withheld, k.bitmap
    ensures k.Frames()
    ensures ok <==> !Lacks(old(k.W()), k.limit, AreaPages(|regions|))
    ensures !ok ==> k.W() == old(k.W()) && k.withheld == old(k.withheld)
    ensures ok ==>
              && k.withheld == {} && k.available == old(k.available)
              && k.W().free == old(k.W().free) + old(k.withheld) && k.available == |k.W().free|
              && k.W().own == old(k.W().own) && k.W().kind == old(k.W().kind)
              && (Inv(old(k.W())) ==> Inv(k.W()) && SameTables(old(k.W()), k.W()))
  {
    hide Sound, Inv, Blank, Free, Limbo, Given, BlankedOnly, FramesOf, FirstFit, NoFit, Range;
    ghost var v, r := k.W(), k.withheld;
    var size := AreaPages(|regions|);
    var table := k.AllocPages(size);
    if table == 0 {
      return false;
    }
    ghost var u := k.W();
    DoesFit(v, k.limit, size, table);
    TableApart(v, r, k.limit, size, table);
    var areas := Register(regions);
    AdmitAll(k, regions, areas);
    ghost var w := k.W();
    k.Release(table, size);
    GivenShape(w, table, size);
    FreeAgain(v.free, r, table, size);
    if Inv(v) {
      TableBlank(v, u, w, r, table, size, k.limit);
      InvBlank(v);
      AdmittedInv(v, k.W(), r);
    }
    return true;
  }

  lemma NothingBlanked(w: World, r: set<nat>, areas: seq<Region>)
    requires r !! w.free
    ensures Admitting(w, w, r, r, areas, 0)
  {
  }

  lemma GivenShape(w: World, f: nat, n: nat)
    ensures Given(w, f, n).own == w.own && Given(w, f, n).kind == w.kind && Given(w, f, n).free == w.free + Range(f, n)
  {
  }

  lemma AreaIsReclaimable(regions: seq<Region>, areas: seq<Region>, i: nat, r: set<nat>)
    requires Sound(regions) && i < |areas| && r == FramesOf(areas, Reclaimable)
    requires forall x | x in areas :: x in regions && x.sort == Reclaimable
    ensures areas[i].sort == Reclaimable && FramesIn(areas[i]) <= r && First(areas[i]) + Count(areas[i]) <= LimitOf(regions)
  {
    InFramesOf(areas, Reclaimable, i);
    assert areas[i] in areas;
    var j: nat :| j < |regions| && regions[j] == areas[i];
    BelowLimit(regions, j);
  }

  lemma TableApart(v: World, r: set<nat>, limit: nat, n: nat, f: nat)
    requires r !! v.free && FirstFit(v.free, limit, n, f) && n > 0 && Blank(v) && |v.memory| == limit
    ensures Range(f, n) !! (v.free - Range(f, n)) + r && Range(f, n) <= v.free && 0 < f && f + n <= limit
  {
    assert f in v.free && f + n - 1 in v.free;
  }

  // The frames the registration took are as blank as they were.
  lemma TableBlank(v: World, u: World, w: World, r: set<nat>, f: nat, n: nat, limit: nat)
    requires Blank(v) && u == Taken(v, f, n) && BlankedOnly(u, w, r) && Range(f, n) <= v.free && r !! v.free
    ensures |Given(w, f, n).memory| == |v.memory|
    ensures forall y | 0 <= y < |v.memory| && y !in r :: Given(w, f, n).memory[y] == v.memory[y]
  {
    forall y | 0 <= y < |v.memory| && y !in r ensures Given(w, f, n).memory[y] == v.memory[y] {
      if f <= y < f + n {
        assert y in Range(f, n);
      }
    }
  }
}
