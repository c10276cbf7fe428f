// Showing memory of one process to another: kernel_service_memory_share.
module Connecting {
  import opened Bitmap
  import opened Layout
  import opened Spaces
  import opened Memory
  import opened Reshaping
  import opened Pages
  import opened Paging
  import opened Merging
  import opened Lifecycle
  import opened UserMemory
  import opened Sharing

  const SHARED_PAGE: bv12 := 0x607

  // The map words after n pages were taken from it at p, and done of them are shown.
  lemma AgreesAfterShare(v: World, w: World, s: nat, before: seq<bv32>, after: seq<bv32>, p: nat, n: nat, done: nat, r: nat, a: nat)
    requires Inv(v) && Inv(w) && KernelLow(v) && KernelLow(w) && LowReady(v, s) && LowReady(w, s) && w.kind == v.kind
    requires Agrees(v, Group(v, s), before) && |after| == |before| && WORD_BITS * |before| <= LOW_PAGES
    requires Range(p, done) <= Free(before) && Free(after) == Free(before) - Range(p, done)
    requires Reshaped(v, w, s, p, p + done, p + n) && Shown(v, w, s, p, p + done, r, a, SHARED_PAGE)
    ensures Agrees(w, Group(w, s), after)
  {
    hide Inv, Reshaped, Look, PageAt, KernelLow, LowReady, Free, Agrees, Shown;
    LowWalkable(v, s);
    var g := Group(v, s);
    AllAgree(w, g, after) by {
      forall x: nat | x < WORD_BITS * |after| ensures AgreesAt(w, g, after, x) {
        AgreesHere(v, g, before, x);
        PageAfterShare(v, w, s, p, n, done, r, a, x);
        SharedIsNotEmpty();
      }
    }
  }

  // A shown page has the shared flags, and any other is as it was; the process reads the same as its thread.
  lemma PageAfterShare(v: World, w: World, s: nat, p: nat, n: nat, done: nat, r: nat, a: nat, x: nat)
    requires Inv(v) && Inv(w) && KernelLow(v) && KernelLow(w) && LowReady(v, s) && LowReady(w, s) && w.kind == v.kind && x < LOW_PAGES
    requires Reshaped(v, w, s, p, p + done, p + n) && Shown(v, w, s, p, p + done, r, a, SHARED_PAGE)
    ensures var g := Group(v, s);
            if x in Range(p, done) then Look(w, g, PageAt(x)).flags == SHARED_PAGE
            else Look(w, g, PageAt(x)) == Look(v, g, PageAt(x))
  {
    hide Inv, Reshaped, Look, PageAt, KernelLow, LowReady, InRange, IsPage;
    PageAtIs(x);
    LinkedPage(v, s, PageAt(x));
    LinkedPage(w, s, PageAt(x));
    LowWalkable(v, s);
    PageInRange(x, p, p + done);
    if !InRange(PageAt(x), p, p + done) {
      OutsideRange(v, w, s, p, p + done, p + n, PageAt(x));
    }
  }

  lemma SharedIsNotEmpty()
    ensures !Owned(SHARED_PAGE) && Process(SHARED_PAGE) && forall e: Entry :: e.flags == SHARED_PAGE ==> e != EMPTY
  {
  }

  // n pages of space s at p, the first place below the limit where they fit, left the map; they show
  // the frames that pages a.. of space r had.
  ghost predicate Connected(v: World, w: World, s: nat, before: set<nat>, after: set<nat>, limit: nat, n: nat, p: nat, r: nat, a: nat) {
    && FirstFit(before, limit, n, p) && after == before - Range(p, n) && p + n <= LOW_PAGES
    && Shown(v, w, s, p, p + n, r, a, SHARED_PAGE) && Elsewhere(v, w, s, p, n)
  }

  // The page of byte a shows the frame that the page of the byte as far behind `source` had, and the program may
  // read and write it.
  ghost predicate ShownByte(v: World, w: World, s: nat, address: nat, r: nat, source: nat, a: nat)
    requires a >= address
  {
    && Look(w, s, PageAt(a / 4096)).frame == Look(v, r, PageAt((source + (a - address)) / 4096)).frame
    && Carries(Look(w, s, PageAt(a / 4096)).flags, 0x400)
    && Grants(w, s, PageAt(a / 4096), 0x001) && Grants(w, s, PageAt(a / 4096), 0x002) && Grants(w, s, PageAt(a / 4096), 0x004)
  }

  // Every byte from `address` on shows the one as far behind the beginning of the source's page, and no page has
  // changed that holds none of them.
  ghost predicate BytesShown(v: World, w: World, s: nat, address: nat, r: nat, source: nat, bytes: nat) {
    && (forall a: nat | address <= a < address + bytes ::
          ShownByte(v, w, s, address, r, source % 0x1_0000_0000_0000 / 4096 * 4096, a))
    && forall x: nat | x < PAGES && Look(w, s, PageAt(x)) != Look(v, s, PageAt(x)) ::
         address <= x * 4096 && x * 4096 < address + bytes
  }

  lemma ConnectedBytes(v: World, w: World, s: nat, before: set<nat>, after: set<nat>, limit: nat, p: nat, r: nat, source: nat, bytes: nat)
    requires Connected(v, w, s, before, after, limit, PagesFor(bytes), p, r, PageOf(source)) && LowReady(w, s)
    ensures BytesShown(v, w, s, p * 4096, r, source, bytes)
  {
    hide Look, PageAt, PagesFor, LowReady, Grants, FirstFit, Carries, InRange, Shown, ShownByte;
    HoldsByte(p, bytes);
    forall a: nat | p * 4096 <= a < p * 4096 + bytes
      ensures ShownByte(v, w, s, p * 4096, r, source % 0x1_0000_0000_0000 / 4096 * 4096, a)
    {
      NowShown(v, w, s, p, PagesFor(bytes), r, PageOf(source), a);
      assert source % 0x1_0000_0000_0000 / 4096 == PageOf(source);
    }
  }

  lemma NowShown(v: World, w: World, s: nat, p: nat, n: nat, r: nat, at: nat, a: nat)
    requires Shown(v, w, s, p, p + n, r, at, SHARED_PAGE) && LowReady(w, s) && p * 4096 <= a && p <= a / 4096 < p + n && p + n <= LOW_PAGES
    ensures ShownByte(v, w, s, p * 4096, r, at * 4096, a)
  {
    SharedBits();
    var x := a / 4096;
    PageAtIs(x);
    assert (at * 4096 + (a - p * 4096)) / 4096 == at + (x - p);
    hide Look, PageAt, LowReady, Grants, Carries;
    assert InRange(PageAt(x), p, p + n);
    LowGrants(w, s, PageAt(x), 0x001);
    LowGrants(w, s, PageAt(x), 0x002);
    LowGrants(w, s, PageAt(x), 0x004);
  }

  lemma SharedBits()
    ensures Carries(SHARED_PAGE, 0x001) && Carries(SHARED_PAGE, 0x002) && Carries(SHARED_PAGE, 0x004) && Carries(SHARED_PAGE, 0x400)
  {
  }

  // The outcome is sound if a place fits in the target's map and the free frames suffice for the tables
  // that are missing over it; or if no place fits and they do not even suffice for those over page 0, the
  // address that then stands in for one. All of this shows before the call.
  ghost predicate Holds(v: World, s: nat, free: set<nat>, limit: nat, n: nat) {
    if NoFit(free, limit, n) then !Suffices(v, s, 0, 1)
    else forall p: nat | FirstFit(free, limit, n, p) :: Suffices(v, s, p, n)
  }

  // Pages a.. of space r can be read while pages of space s are written: r is of another process, or they
  // are mapped, so that a free place does not overlap them.
  ghost predicate Source(v: World, s: nat, r: nat, a: nat, n: nat) {
    && Readable(v, r, a, n) && r in v.kind && s in v.kind
    && (Group(v, r) == Group(v, s) ==>
          LowReady(v, r) && a + n <= LOW_PAGES && forall x: nat | a <= x < a + n :: Look(v, r, PageAt(x)) != EMPTY)
  }

  // Whether the outcome is sound shows in the tables: the last page of the block is there, or without a place
  // page 0 is not.
  ghost predicate Tells(w: World, s: nat, p: nat, n: nat) {
    if p == 0 then Look(w, s, PageAt(0)) == EMPTY else n > 0 && Look(w, s, PageAt(p + n - 1)) != EMPTY
  }

  lemma DoneTells(v: World, w: World, s: nat, before: seq<bv32>, p: nat, n: nat, done: nat, r: nat, a: nat)
    requires Inv(v) && Inv(w) && Usable(v, s, before) && |before| > 0 && KernelLow(w) && LowReady(w, s) && w.kind == v.kind
    requires done <= n && 0 < n && p + n <= LOW_PAGES
    requires p != 0 ==> Range(p, n) <= Free(before) && p + n <= WORD_BITS * |before|
    requires Reshaped(v, w, s, p, p + done, p + n) && Shown(v, w, s, p, p + done, r, a, SHARED_PAGE)
    ensures Tells(w, s, p, n) <==> if p != 0 then done == n else done == 0
  {
    hide Inv, Reshaped, Shown, KernelLow, LowReady, Look, PageAt, Free, Agrees;
    UsableParts(v, s, before);
    var x := if p == 0 then 0 else p + n - 1;
    PageAfterShare(v, w, s, p, n, done, r, a, x);
    AgreesHere(v, Group(v, s), before, x) by { UsableAgree(v, s, before); }
    SharedIsNotEmpty();
    LowWalkable(w, s);
    PageAtIs(x);
    LinkedPage(w, s, PageAt(x));
    assert x in Range(p, done) <==> if p == 0 then done > 0 else done == n;
    assert p != 0 ==> x in Range(p, n);
  }

  // Shows `bytes` of memory of space r, in whole pages, in space s: at the first place that fits in its
  // map. What happens when there is no such place, or no memory for tables, is not checked: map and tables
  // of the target agree afterwards if and only if the outcome was bound to be sound.
  method UserShare(k: Kernel, ghost s: nat, pml4: nat, words: array<bv32>, ghost r: nat, cr3: nat, source: nat, bytes: nat)
    returns (address: nat, ghost done: nat)
    requires k.Valid() && Usable(k.W(), s, words[..]) && k.W().own[Node(s, Top)] == pml4
    requires Source(k.W(), s, r, PageOf(source), PagesFor(bytes)) && k.W().own[Node(r, Top)] == cr3
    requires words != k.bitmap && words.Length > 0 && 0 < PagesFor(bytes) <= LOW_PAGES
    requires Bitmap.Bounded(words[..], k.limit, PagesFor(bytes))
    modifies k`memory, k`available, k`own, k.bitmap, words
    ensures k.Valid()
    ensures Usable(k.W(), s, words[..]) <==> Holds(old(k.W()), s, old(Free(words[..])), k.limit, PagesFor(bytes))
    ensures HasSpace(k.W(), s) && k.W().own[Node(s, Top)] == pml4
    ensures Usable(k.W(), s, words[..]) <==> Tells(k.W(), s, address / PAGE_BYTES, PagesFor(bytes))
    ensures address == 0 <==> NoFit(old(Free(words[..])), k.limit, PagesFor(bytes))
    ensures address == 0 <==> NoRoom(old(Free(words[..])), k.limit, bytes)
    ensures address != 0 && Usable(k.W(), s, words[..]) ==> BytesShown(old(k.W()), k.W(), s, address, r, source, bytes)
    ensures address == 0 ==> words[..] == old(words[..])
    ensures address != 0 ==>
              address % PAGE_BYTES == 0 && FirstFit(old(Free(words[..])), k.limit, PagesFor(bytes), address / PAGE_BYTES)
    ensures address != 0 || done == 0 ==> Private(old(k.W()), k.W(), s) && OwnGrows(old(k.W()), k.W())
    ensures Usable(k.W(), s, words[..]) ==> Private(old(k.W()), k.W(), s)
    ensures done <= PagesFor(bytes) && Stretch(old(k.W()), s, address / PAGE_BYTES, done, PagesFor(bytes))
    ensures Shown(old(k.W()), k.W(), s, address / PAGE_BYTES, address / PAGE_BYTES + done, r, PageOf(source), SHARED_PAGE)
    ensures address != 0 && Usable(k.W(), s, words[..]) ==>
              Connected(old(k.W()), k.W(), s, old(Free(words[..])), Free(words[..]), k.limit, PagesFor(bytes), address / PAGE_BYTES, r, PageOf(source))
  {
    hide BytesShown, NoRoom, LowReady, Tagged, Granted, Inv, Usable, Private, OwnGrows, Look, PageAt, Shown, Elsewhere, Spared, Readable, Source, Reshaped, Open, Pool, Bit, Bitmap.Bounded, Stretch, Suffices, Holds, Tells;
    ghost var v, before := k.W(), words[..];
    var pages := PagesFor(bytes);
    UsableParts(v, s, before);
    SourceParts(v, s, r, PageOf(source), pages);
    assert 0 !in Free(before) by { PageZero(v, s, before); }
    var p := Acquire(words, k.limit, pages);
    assert k.W() == v;
    if p == 0 {
      assert Bitmap.Fits(Free(before), 0, pages) ==> 0 in Free(before);
    } else {
      FitsInside(before, k.limit, pages, p);
      SomeFit(Free(before), k.limit, pages, p);
    }
    PageOfNumber(p);
    LowOpen(v, s, p, p + pages);
    SharedIsNotEmpty();
    SourceIsSteady(v, s, before, p, r, PageOf(source), pages);
    var ok;
    ok, done := Clang(k, s, pml4, r, cr3, source, p * PAGE_BYTES, pages, SHARED_PAGE);
    ShareKeeps(v, k.W(), s, before, words[..], p, pages, done, r, PageOf(source));
    ShareTells(v, k.W(), s, before, p, pages, done, r, PageOf(source));
    ReshapedElsewhere(v, k.W(), s, p, p + done, p + pages);
    Outcome(v, s, Free(before), k.limit, pages, p, done);
    NoFitNoRoom(Free(before), k.limit, bytes);
    if p != 0 && Usable(k.W(), s, words[..]) {
      UsableParts(k.W(), s, words[..]);
      ConnectedBytes(v, k.W(), s, Free(before), Free(words[..]), k.limit, p, r, source, bytes);
    }
    return p * PAGE_BYTES, done;
  }

  lemma ShareTells(v: World, w: World, s: nat, before: seq<bv32>, p: nat, n: nat, done: nat, r: nat, a: nat)
    requires Inv(v) && Inv(w) && Usable(v, s, before) && |before| > 0
    requires done <= n && 0 < n && p + n <= LOW_PAGES
    requires p != 0 ==> Range(p, n) <= Free(before) && p + n <= WORD_BITS * |before|
    requires Reshaped(v, w, s, p, p + done, p + n) && Shown(v, w, s, p, p + done, r, a, SHARED_PAGE) && Open(w, s, p, p + n)
    requires Tagged(v, w, p, p + n, SHARED_PAGE)
    ensures Tells(w, s, p, n) <==> if p != 0 then done == n else done == 0
    ensures HasSpace(w, s) && w.own[Node(s, Top)] == v.own[Node(s, Top)]
  {
    hide Tagged, Inv, Reshaped, Shown, Open, Agrees, KernelLow, LowReady, Look, PageAt, Free, Tells;
    UsableParts(v, s, before);
    SharedPasses();
    LowReadyTagged(v, w, p, p + n, SHARED_PAGE);
    LowWalkable(w, s);
    KernelLowKept(v, w, s, p, p + done, p + n);
    ReshapedKind(v, w, s, p, p + done, p + n);
    DoneTells(v, w, s, before, p, n, done, r, a);
  }

  lemma SomeFit(free: set<nat>, limit: nat, n: nat, p: nat)
    requires FirstFit(free, limit, n, p)
    ensures !NoFit(free, limit, n)
  {
  }

  lemma SourceParts(v: World, s: nat, r: nat, a: nat, n: nat)
    requires Source(v, s, r, a, n)
    ensures Readable(v, r, a, n) && Walkable(v, r)
  {
    hide Look, PageAt;
  }

  // No page is read after it was written.
  lemma SourceIsSteady(v: World, s: nat, words: seq<bv32>, p: nat, r: nat, a: nat, n: nat)
    requires Inv(v) && Usable(v, s, words) && Source(v, s, r, a, n)
    requires p == 0 || (Range(p, n) <= Free(words) && p + n <= WORD_BITS * |words|)
    ensures Steady(v, s, p, r, a, n)
  {
    UsableParts(v, s, words);
    hide Inv, Look, PageAt, Free, Agrees, LowReady;
    if a < p < a + n && Group(v, r) == Group(v, s) {
      assert p in Range(p, n);
      PageAtIs(p);
      AgreesHere(v, Group(v, s), words, p);
      LinkedPage(v, r, PageAt(p));
    }
  }

  lemma Outcome(v: World, s: nat, free: set<nat>, limit: nat, n: nat, p: nat, done: nat)
    requires Stretch(v, s, p, done, n) && 0 < n && p + n <= PAGES && done <= n
    requires if p == 0 then NoFit(free, limit, n) else FirstFit(free, limit, n, p)
    ensures Holds(v, s, free, limit, n) <==> if p != 0 then done == n else done == 0
  {
    hide Suffices;
    assert n <= done <==> Suffices(v, s, p, n);
    assert 1 <= done <==> Suffices(v, s, p, 1);
    if p != 0 {
      assert p < limit && Bitmap.Fits(free, p, n);
    }
  }

  lemma ShareKeeps(v: World, w: World, s: nat, before: seq<bv32>, after: seq<bv32>, p: nat, n: nat, done: nat, r: nat, a: nat)
    requires Inv(v) && Inv(w) && Usable(v, s, before) && |after| == |before| && |before| > 0
    requires done <= n && 0 < n && p + n <= LOW_PAGES
    requires if p == 0 then after == before else Range(p, n) <= Free(before) && Free(after) == Free(before) - Range(p, n) && p + n <= WORD_BITS * |before|
    requires Reshaped(v, w, s, p, p + done, p + n) && Shown(v, w, s, p, p + done, r, a, SHARED_PAGE) && Open(w, s, p, p + n)
    requires Spared(v, w, s, p, n) && Tagged(v, w, p, p + n, SHARED_PAGE)
    ensures Usable(w, s, after) <==> if p != 0 then done == n else done == 0
    ensures p != 0 || done == 0 ==> Private(v, w, s) && OwnGrows(v, w)
  {
    hide Tagged, Inv, Reshaped, Shown, Open, Agrees, KernelLow, LowReady, Pool, Look, PageAt, Spared, Free, OwnGrows, AgreesAt;
    UsableParts(v, s, before);
    SharedPasses();
    LowReadyTagged(v, w, p, p + n, SHARED_PAGE);
    LowWalkable(w, s);
    KernelLowKept(v, w, s, p, p + done, p + n);
    ReshapedKind(v, w, s, p, p + done, p + n);
    if if p != 0 then done == n else done == 0 {
      assert p == 0 ==> Range(p, done) == {};
      AgreesAfterShare(v, w, s, before, after, p, n, done, r, a);
    } else if p != 0 {
      Stranded(v, w, s, before, after, p, n, done, r, a);
    } else {
      Misplaced(v, w, s, after, n, done, r, a);
    }
    if p != 0 {
      WasBlank(v, s, before, p, n);
      SparedPrivate(v, w, s, p, done, n);
    } else if done == 0 {
      TablesPrivate(v, w, s, p, n);
    }
  }

  // The page at which memory ran out is taken in the map and not there.
  lemma Stranded(v: World, w: World, s: nat, before: seq<bv32>, after: seq<bv32>, p: nat, n: nat, done: nat, r: nat, a: nat)
    requires Inv(v) && Inv(w) && Usable(v, s, before) && |after| == |before| && KernelLow(w) && LowReady(w, s) && w.kind == v.kind
    requires done < n && Range(p, n) <= Free(before) && Free(after) == Free(before) - Range(p, n) && p + n <= WORD_BITS * |before|
    requires Reshaped(v, w, s, p, p + done, p + n) && Shown(v, w, s, p, p + done, r, a, SHARED_PAGE)
    ensures !Agrees(w, Group(w, s), after)
  {
    hide Inv, Reshaped, Shown, KernelLow, LowReady, Look, PageAt, Free, Agrees;
    UsableParts(v, s, before);
    var x := p + done;
    assert x in Range(p, n) && x !in Range(p, done);
    PageAfterShare(v, w, s, p, n, done, r, a, x);
    AgreesHere(v, Group(v, s), before, x) by { UsableAgree(v, s, before); }
    if Agrees(w, Group(w, s), after) {
      AgreesHere(w, Group(w, s), after, x);
    }
  }

  // A page shown at page 0 lies where no page is managed.
  lemma Misplaced(v: World, w: World, s: nat, after: seq<bv32>, n: nat, done: nat, r: nat, a: nat)
    requires Inv(v) && Inv(w) && KernelLow(v) && KernelLow(w) && LowReady(v, s) && LowReady(w, s) && w.kind == v.kind
    requires |after| > 0 && 0 < done
    requires Reshaped(v, w, s, 0, 0 + done, 0 + n) && Shown(v, w, s, 0, 0 + done, r, a, SHARED_PAGE)
    ensures !Agrees(w, Group(w, s), after)
  {
    hide Inv, Reshaped, Shown, KernelLow, LowReady, Look, PageAt, Free, Agrees;
    PageAfterShare(v, w, s, 0, n, done, r, a, 0);
    SharedIsNotEmpty();
    LowWalkable(w, s);
    if Agrees(w, Group(w, s), after) {
      AgreesHere(w, Group(w, s), after, 0);
    }
  }

  lemma UsableAgree(w: World, s: nat, words: seq<bv32>)
    requires Usable(w, s, words)
    ensures Agrees(w, Group(w, s), words)
  {
  }

  lemma WasBlank(v: World, s: nat, words: seq<bv32>, p: nat, n: nat)
    requires Inv(v) && Usable(v, s, words) && Range(p, n) <= Free(words) && p + n <= LOW_PAGES
    ensures forall q | InRange(q, p, p + n) :: Look(v, s, q) == EMPTY
  {
    hide Inv, Look, PageAt, Free, KernelLow, LowReady;
    forall q | InRange(q, p, p + n) ensures Look(v, s, q) == EMPTY {
      var x := Index(q);
      PageAtIs(x);
      IndexInjective(q, PageAt(x));
      assert x in Range(p, n);
      UsableParts(v, s, words);
      FitsMap(words, p, n, x);
      AgreesHere(v, Group(v, s), words, x);
      LinkedPage(v, s, q);
    }
  }

  lemma FitsMap(words: seq<bv32>, p: nat, n: nat, x: nat)
    requires Range(p, n) <= Free(words) && p <= x < p + n
    ensures x in Free(words) && x < WORD_BITS * |words|
  {
    assert x in Range(p, n);
  }

  lemma SparedPrivate(v: World, w: World, s: nat, p: nat, done: nat, n: nat)
    requires Inv(w) && Walkable(v, s) && s != KERNEL && Reshaped(v, w, s, p, p + done, p + n) && Open(w, s, p, p + n) && done <= n
    requires Spared(v, w, s, p, n) && forall q | InRange(q, p, p + n) :: Look(v, s, q) == EMPTY
    requires Tagged(v, w, p, p + n, SHARED_PAGE)
    ensures Private(v, w, s) && OwnGrows(v, w)
  {
    hide Tagged, Inv, Reshaped, Open, Pool, Look, ApartFrom, LowReady;
    ReshapedKind(v, w, s, p, p + done, p + n);
    ReshapedApart(v, w, s, p, p + done, p + n);
    ReshapedPrivate(v, w, s, p, p + done, p + n);
    SharedPasses();
    LowReadyTagged(v, w, p, p + n, SHARED_PAGE);
  }

  lemma SharedPasses()
    ensures Passable(SHARED_PAGE)
  {
  }

  // A run that wrote no page has but added tables.
  lemma TablesPrivate(v: World, w: World, s: nat, p: nat, n: nat)
    requires Inv(v) && Inv(w) && Walkable(v, s) && s != KERNEL && Reshaped(v, w, s, p, p, p + n) && Open(w, s, p, p + n)
    requires Tagged(v, w, p, p + n, SHARED_PAGE)
    ensures Private(v, w, s) && OwnGrows(v, w)
  {
    hide Tagged, Inv, Reshaped, Open, Pool, Look, ApartFrom, LowReady, OwnGrows;
    ReshapedKind(v, w, s, p, p, p + n);
    ReshapedApart(v, w, s, p, p, p + n);
    ReshapedPrivate(v, w, s, p, p, p + n);
    SharedPasses();
    LowReadyTagged(v, w, p, p + n, SHARED_PAGE);
    TablesPool(v, w, s, p, p + n);
  }

  lemma TablesPool(v: World, w: World, s: nat, p: nat, end: nat)
    requires Reshaped(v, w, s, p, p, end) && s != KERNEL
    ensures OwnGrows(v, w) && Pool(w) == Pool(v)
  {
    hide Kept, Reshaping.Apart, TablesKept, NewTables, Look, Needed;
    forall f ensures f in Pool(w) <==> f in Pool(v) {
      if f in OwnedFrames(w) && f !in OwnedFrames(v) {
        var n :| n in w.own && w.own[n] == f;
        assert n !in v.own;
        assert NewNode(v, w, s, p, p, end, n);
      }
      if f in OwnedFrames(v) {
        var n :| n in v.own && v.own[n] == f;
        assert n in w.own && w.own[n] == f;
      }
      if f in v.free && f !in w.free {
        var n :| n in w.own && w.own[n] == f;
      }
    }
  }

  // ---- both failures are real ------------------------------------------------------------------

  // A process with any page in the lowest table, where its program begins, has all tables over page 0: if
  // no place fits in its map, sharing with it always breaks the agreement.
  lemma NoPlaceBreaks(v: World, s: nat, free: set<nat>, limit: nat, n: nat, x: nat)
    requires NoFit(free, limit, n) && x < ENTRIES && Look(v, s, PageAt(x)) != EMPTY
    ensures !Holds(v, s, free, limit, n)
  {
    assert Up(PageAt(x)) == Up(PageAt(0));
    forall p | p in TablesOver(0, 1) ensures Look(v, s, p) != EMPTY {
      TablesOverIs(0, 1, p);
      var q :| InRange(q, 0, 1) && Over(p, q);
      PageAtIs(0);
      IndexInjective(q, PageAt(0));
      PageAbove(v, s, PageAt(x)) by { PageAtIs(x); }
      TableAbove(v, s, q, p);
    }
    hide Look, TablesOver;
    assert Missing(v, s, TablesOver(0, 1)) == {};
  }
}
