// A process's allocations over a whole run: what is handed out is never handed out twice.
module Allotments {
  import opened Bitmap
  import opened Layout
  import opened Spaces
  import opened Pages
  import opened Paging
  import opened UserMemory
  import opened Sharing
  import opened Connecting
  import opened Tasks
  import opened Processes

  // What the calls of a process, and of its threads, do to its map: n pages from p are handed out, or
  // given back, or the call is refused.
  datatype Deal = Allot(p: nat, n: nat) | Return(p: nat, n: nat) | Nothing

  // The pages that are free in the map, and those handed out, each with the number of its allocation.
  datatype Books = Books(free: set<nat>, live: map<nat, nat>)

  ghost predicate DealAt(before: Books, after: Books, d: Deal, limit: nat, serial: nat) {
    match d
    case Allot(p, n) =>
      && n > 0 && FirstFit(before.free, limit, n, p)
      && after.free == before.free - Range(p, n)
      && after.live == before.live + map x | x in Range(p, n) :: serial
    case Return(p, n) =>
      && Range(p, n) <= before.free + before.live.Keys
      && after.free == before.free + Range(p, n)
      && after.live == before.live - Range(p, n)
    case Nothing => after == before
  }

  // Every managed page is free or handed out, and not both.
  ghost predicate Balanced(b: Books, managed: set<nat>) {
    b.free !! b.live.Keys && b.free + b.live.Keys == managed
  }

  ghost predicate Run(books: seq<Books>, deals: seq<Deal>, limit: nat) {
    |books| == |deals| + 1 && forall i | 0 <= i < |deals| :: DealAt(books[i], books[i + 1], deals[i], limit, i + 1)
  }

  lemma DealBalances(before: Books, after: Books, d: Deal, limit: nat, serial: nat, managed: set<nat>)
    requires Balanced(before, managed) && DealAt(before, after, d, limit, serial)
    ensures Balanced(after, managed)
    ensures d.Allot? ==> Range(d.p, d.n) <= before.free && Range(d.p, d.n) !! before.live.Keys
  {
    if d.Allot? {
      assert Bitmap.Fits(before.free, d.p, d.n);
      assert Range(d.p, d.n) <= before.free;
    }
  }

  // Over every run pages handed out are pages nobody has: allocations that are alive never overlap, and
  // every managed page is accounted for.
  lemma {:induction false} LiveAreApart(books: seq<Books>, deals: seq<Deal>, limit: nat, managed: set<nat>, i: nat)
    requires Run(books, deals, limit) && Balanced(books[0], managed) && i < |books|
    ensures Balanced(books[i], managed)
    ensures i < |deals| && deals[i].Allot? ==> Range(deals[i].p, deals[i].n) !! books[i].live.Keys
  {
    if i > 0 {
      LiveAreApart(books, deals, limit, managed, i - 1);
      DealBalances(books[i - 1], books[i], deals[i - 1], limit, i, managed);
    }
    if i < |deals| {
      DealBalances(books[i], books[i + 1], deals[i], limit, i + 1, managed);
    }
  }

  // The number a page has is that of the allocation it was last handed out by.
  lemma {:induction false} NumberIsItsAllocation(books: seq<Books>, deals: seq<Deal>, limit: nat, i: nat, x: nat)
    requires Run(books, deals, limit) && books[0].live == map[] && i < |books| && x in books[i].live
    ensures 0 < books[i].live[x] <= i
    ensures deals[books[i].live[x] - 1].Allot? && x in Range(deals[books[i].live[x] - 1].p, deals[books[i].live[x] - 1].n)
  {
    if i > 0 {
      assert DealAt(books[i - 1], books[i], deals[i - 1], limit, i);
      if !(deals[i - 1].Allot? && x in Range(deals[i - 1].p, deals[i - 1].n)) {
        NumberIsItsAllocation(books, deals, limit, i - 1, x);
      }
    }
  }

  // From the map of a process that has nothing yet the first allocation is at the first page.
  lemma FirstIsFirst(before: Books, after: Books, p: nat, n: nat, limit: nat, size: nat)
    requires before.free == Range(FIRST_PAGE, size) && n <= size && FIRST_PAGE < limit
    requires DealAt(before, after, Allot(p, n), limit, 1)
    ensures p == FIRST_PAGE
  {
    assert Bitmap.Fits(before.free, FIRST_PAGE, n);
    assert p < FIRST_PAGE ==> p !in before.free;
  }

  // ---- the calls are such deals -----------------------------------------------------------------

  ghost function Managed(words: seq<bv32>): set<nat> {
    set x: nat | FIRST_PAGE <= x < WORD_BITS * |words| && Within(x, FIRST_PAGE, WORD_BITS * |words|)
  }

  // The books as the map of a process has them.
  ghost predicate Recorded(b: Books, words: seq<bv32>) {
    b.free == Free(words) && Free(words) <= Managed(words) && b.live.Keys == Managed(words) - Free(words)
  }

  // Where map and tables agree the books balance, and what is handed out is what is mapped.
  lemma LiveIsMapped(b: Books, w: World, s: nat, words: seq<bv32>)
    requires Inv(w) && Usable(w, s, words) && b.free == Free(words) && b.live.Keys == Managed(words) - Free(words)
    ensures Recorded(b, words) && Balanced(b, Managed(words))
    ensures forall x: nat | x < WORD_BITS * |words| :: x in b.live <==> Look(w, s, PageAt(x)) != EMPTY
  {
    hide Look, PageAt, Inv;
    UsableParts(w, s, words);
    forall x: nat | x < WORD_BITS * |words|
      ensures x in Free(words) ==> x in Managed(words)
      ensures x in b.live <==> Look(w, s, PageAt(x)) != EMPTY
    {
      assert AgreesAt(w, Group(w, s), words, x);
      PageAtIs(x);
      LinkedPage(w, s, PageAt(x));
    }
  }

  // kernel_service_memory_alloc hands out.
  lemma AllottedIsDeal(b: Books, v: World, w: World, s: nat, before: seq<bv32>, after: seq<bv32>, limit: nat, n: nat, p: nat, serial: nat)
    requires Recorded(b, before) && |after| == |before| && n > 0 && Allotted(v, w, s, Free(before), Free(after), limit, n, p)
    ensures var c := Books(Free(after), b.live + map x | x in Range(p, n) :: serial);
            DealAt(b, c, Allot(p, n), limit, serial) && Recorded(c, after)
  {
    hide Look, PageAt, Free;
    assert Bitmap.Fits(Free(before), p, n);
    assert Range(p, n) <= Free(before);
  }

  // kernel_service_memory_share hands out in the map of the process that is shown the pages.
  lemma ConnectedIsDeal(b: Books, v: World, w: World, s: nat, before: seq<bv32>, after: seq<bv32>, limit: nat, n: nat, p: nat, r: nat, a: nat, serial: nat)
    requires Recorded(b, before) && |after| == |before| && n > 0 && Connected(v, w, s, Free(before), Free(after), limit, n, p, r, a)
    ensures var c := Books(Free(after), b.live + map x | x in Range(p, n) :: serial);
            DealAt(b, c, Allot(p, n), limit, serial) && Recorded(c, after)
  {
    hide Look, PageAt, Free, Shown;
    assert Bitmap.Fits(Free(before), p, n);
    assert Range(p, n) <= Free(before);
  }

  // kernel_service_memory_release gives back.
  lemma EmptiedIsDeal(b: Books, w: World, s: nat, before: seq<bv32>, after: seq<bv32>, limit: nat, p: nat, n: nat, serial: nat)
    requires Recorded(b, before) && Lent(w, s, WORD_BITS * |before|, p, n) && Unshared(w, s, p, n)
    requires |after| == |before| && Free(after) == Free(before) + Range(p, n)
    ensures var c := Books(Free(after), b.live - Range(p, n));
            DealAt(b, c, Return(p, n), limit, serial) && Recorded(c, after)
  {
    hide Look, PageAt, Free;
    forall x | x in Range(p, n) ensures x in Managed(before) {
      assert UnsharedPage(w, s, x);
    }
  }

  // ---- a program's run over the kernel ----------------------------------------------------------

  // A program asks for memory, or gives back what its i-th call handed out.
  datatype Call = Get(bytes: nat) | Give(i: nat)

  // After n calls the program still has what its i-th call handed out.
  predicate Has(calls: seq<Call>, got: seq<nat>, i: nat, n: nat)
    requires n <= |got| <= |calls|
  {
    i < n && calls[i].Get? && got[i] != 0 && forall k | i < k < n :: calls[k] != Give(i)
  }

  // It has it from then on, until it gives it back.
  lemma HasFromTo(calls: seq<Call>, got: seq<nat>, i: nat, n: nat)
    requires i < n < |got| <= |calls|
    ensures calls[i].Get? && got[i] != 0 ==> Has(calls, got, i, i + 1)
    ensures Has(calls, got, i, n + 1) <==> Has(calls, got, i, n) && calls[n] != Give(i)
    ensures Has(calls, got, i, n) ==> calls[i].Get? && got[i] != 0
  {
  }

  // The pages the i-th call handed out.
  ghost function Block(calls: seq<Call>, got: seq<nat>, i: nat): set<nat>
    requires i < |got| <= |calls| && calls[i].Get?
  {
    Range(got[i] / PAGE_BYTES, PagesFor(calls[i].bytes))
  }

  // What the i-th call did: it was refused only if it asked for nothing or no place fitted.
  ghost predicate DealOf(calls: seq<Call>, got: seq<nat>, books: seq<Books>, deals: seq<Deal>, limit: nat, i: nat)
    requires i < |got| == |deals| <= |calls| && |books| == |deals| + 1
  {
    match calls[i]
    case Get(bytes) =>
      if got[i] == 0 then deals[i] == Nothing && (PagesFor(bytes) == 0 || NoFit(books[i].free, limit, PagesFor(bytes)))
      else got[i] % PAGE_BYTES == 0 && deals[i] == Allot(got[i] / PAGE_BYTES, PagesFor(bytes))
    case Give(j) =>
      deals[i] == if Has(calls, got, j, i) then Return(got[j] / PAGE_BYTES, PagesFor(calls[j].bytes)) else Nothing
  }

  // The space after a deal: pages handed out are the program's own, and those of no concern are as they were.
  ghost predicate Dealt(v: World, w: World, s: nat, d: Deal) {
    match d
    case Allot(p, n) => Elsewhere(v, w, s, p, n) && p + n <= LOW_PAGES && forall x: nat | p <= x < p + n :: Own(w, s, x)
    case Return(p, n) => Elsewhere(v, w, s, p, n)
    case Nothing => w == v
  }

  ghost predicate Own(w: World, s: nat, x: nat) {
    Look(w, s, PageAt(x)).flags == USER_PAGE
  }

  // These pages were handed out by the allocation of this number, and are there.
  ghost predicate Backing(w: World, s: nat, b: Books, r: set<nat>, serial: nat) {
    forall x | x in r :: x in b.live && b.live[x] == serial && x < LOW_PAGES && Own(w, s, x)
  }

  ghost predicate AllBacked(w: World, s: nat, b: Books, calls: seq<Call>, got: seq<nat>)
    requires |got| <= |calls|
  {
    forall i: nat | Has(calls, got, i, |got|) :: Backing(w, s, b, Block(calls, got, i), i + 1)
  }

  // What a call handed out is apart from all that the program had then.
  ghost predicate BlocksApart(calls: seq<Call>, got: seq<nat>)
    requires |got| <= |calls|
  {
    forall i: nat, j: nat | j < |got| && Has(calls, got, i, j) && calls[j].Get? && got[j] != 0 :: Block(calls, got, i) !! Block(calls, got, j)
  }

  lemma BackingStays(v: World, w: World, s: nat, b: Books, c: Books, d: Deal, limit: nat, serial: nat, r: set<nat>, own: nat)
    requires Backing(v, s, b, r, own) && DealAt(b, c, d, limit, serial) && Dealt(v, w, s, d) && LOW_PAGES <= PAGES
    requires !d.Nothing? ==> Range(d.p, d.n) !! r
    ensures Backing(w, s, c, r, own)
  {
    hide Look, PageAt, FirstFit;
    forall x | x in r ensures x in c.live && c.live[x] == own && Own(w, s, x) {
      assert Own(v, s, x);
      assert !d.Nothing? ==> x !in Range(d.p, d.n);
    }
  }

  lemma BackedApart(w: World, s: nat, b: Books, q: set<nat>, r: set<nat>, i: nat, j: nat)
    requires Backing(w, s, b, q, i) && Backing(w, s, b, r, j) && i != j
    ensures q !! r
  {
    hide Own;
  }

  // One call more.
  lemma Grows(v: World, w: World, s: nat, calls: seq<Call>, got: seq<nat>, x: nat, books: seq<Books>, deals: seq<Deal>, c: Books, d: Deal, limit: nat, managed: set<nat>)
    requires |got| == |deals| < |calls| && |books| == |deals| + 1 && Balanced(books[|got|], managed)
    requires AllBacked(v, s, books[|got|], calls, got) && BlocksApart(calls, got)
    requires DealAt(books[|got|], c, d, limit, |got| + 1) && Dealt(v, w, s, d)
    requires DealOf(calls, got + [x], books + [c], deals + [d], limit, |got|)
    ensures AllBacked(w, s, c, calls, got + [x]) && BlocksApart(calls, got + [x])
  {
    hide Look, PageAt, FirstFit, NoFit, Own, Backing, Balanced, Elsewhere, DealAt, Dealt;
    var n, b, got' := |got|, books[|got|], got + [x];
    DealBalances(b, c, d, limit, n + 1, managed);
    forall i: nat | i < n && Has(calls, got', i, n) ensures Has(calls, got, i, n) && Backing(v, s, b, Block(calls, got, i), i + 1) {
    }
    forall i: nat | Has(calls, got', i, n + 1) ensures Backing(w, s, c, Block(calls, got', i), i + 1) {
      if i == n {
        NewBacked(v, w, s, b, c, d, limit, n + 1);
      } else {
        assert Has(calls, got', i, n);
        if calls[n].Get? && x != 0 {
          BackedLive(v, s, b, Block(calls, got, i), i + 1);
        } else if d.Return? {
          var j := calls[n].i;
          assert Has(calls, got', j, n);
          BackedApart(v, s, b, Block(calls, got, i), Block(calls, got, j), i + 1, j + 1);
        }
        BackingStays(v, w, s, b, c, d, limit, n + 1, Block(calls, got, i), i + 1);
      }
    }
    forall i: nat, j: nat | j < |got'| && Has(calls, got', i, j) && calls[j].Get? && got'[j] != 0
      ensures Block(calls, got', i) !! Block(calls, got', j)
    {
      if j == n {
        BackedLive(v, s, b, Block(calls, got, i), i + 1);
      } else {
        assert Has(calls, got, i, j);
      }
    }
  }

  lemma BackedLive(w: World, s: nat, b: Books, r: set<nat>, serial: nat)
    requires Backing(w, s, b, r, serial)
    ensures r <= b.live.Keys
  {
  }

  lemma NewBacked(v: World, w: World, s: nat, b: Books, c: Books, d: Deal, limit: nat, serial: nat)
    requires d.Allot? && DealAt(b, c, d, limit, serial) && Dealt(v, w, s, d)
    ensures Backing(w, s, c, Range(d.p, d.n), serial)
  {
    hide Look, PageAt, FirstFit;
  }

  // The program's map, the books over it, and its space.
  ghost predicate Kept(sys: System, t: nat, b: Books)
    reads sys, sys.k, sys.k.bitmap, sys.Arrays()
  {
    sys.Valid() && sys.Running(t) && sys.tasks[t].words in sys.Arrays() && Recorded(b, sys.tasks[t].words[..])
  }

  lemma UserPageIsOwn(v: World, w: World, s: nat, before: set<nat>, after: set<nat>, limit: nat, n: nat, p: nat)
    requires Allotted(v, w, s, before, after, limit, n, p)
    ensures Dealt(v, w, s, Allot(p, n))
  {
    hide Look, PageAt, Elsewhere, FirstFit;
  }

  method Ask(sys: System, t: nat, bytes: nat, ghost b: Books, ghost serial: nat)
    returns (address: nat, halted: bool, ghost c: Books, ghost d: Deal)
    requires Kept(sys, t, b) && sys.k.limit + PagesFor(bytes) <= WORD_BITS * sys.tasks[t].words.Length + 1
    modifies sys.k`memory, sys.k`available, sys.k`own, sys.k.bitmap, sys.tasks[t].words
    ensures halted ==> sys.k.W().free == {}
    ensures !halted ==>
              && Kept(sys, t, c) && DealAt(b, c, d, sys.k.limit, serial) && Dealt(old(sys.k.W()), sys.k.W(), sys.tasks[t].pid, d)
              && (if address == 0 then d == Nothing && (PagesFor(bytes) == 0 || NoFit(b.free, sys.k.limit, PagesFor(bytes)))
                  else address % PAGE_BYTES == 0 && d == Allot(address / PAGE_BYTES, PagesFor(bytes)))
  {
    hide System.Valid, Recorded, DealAt, Dealt, Allotted, Exhausts, Look, PageAt, Free, NoFit;
    ghost var v, s, before := sys.k.W(), sys.tasks[t].pid, sys.tasks[t].words[..];
    assert Bitmap.Bounded(before, sys.k.limit, PagesFor(bytes));
    FreeRecorded(b, before);
    address, halted := sys.MemoryAlloc(t, bytes);
    if address == 0 {
      c, d := b, Nothing;
    } else {
      c, d := Books(Free(sys.tasks[t].words[..]), b.live + map x | x in Range(address / PAGE_BYTES, PagesFor(bytes)) :: serial), Allot(address / PAGE_BYTES, PagesFor(bytes));
      if !halted {
        AllottedIsDeal(b, v, sys.k.W(), s, before, sys.tasks[t].words[..], sys.k.limit, PagesFor(bytes), address / PAGE_BYTES, serial);
        UserPageIsOwn(v, sys.k.W(), s, Free(before), Free(sys.tasks[t].words[..]), sys.k.limit, PagesFor(bytes), address / PAGE_BYTES);
      }
    }
    NothingDealt(b, v, s, sys.k.limit, serial);
  }

  lemma FreeRecorded(b: Books, words: seq<bv32>)
    requires Recorded(b, words)
    ensures b.free == Free(words)
  {
    hide Free;
  }

  lemma NothingDealt(b: Books, w: World, s: nat, limit: nat, serial: nat)
    ensures DealAt(b, b, Nothing, limit, serial) && Dealt(w, w, s, Nothing)
  {
  }

  // What the program has may be given back.
  lemma MayGiveBack(w: World, s: nat, b: Books, words: seq<bv32>, p: nat, n: nat, serial: nat)
    requires Backing(w, s, b, Range(p, n), serial) && Recorded(b, words) && n > 0
    ensures Lent(w, s, WORD_BITS * |words|, p, n) && Unshared(w, s, p, n) && p + n <= LOW_PAGES
  {
    hide Look, PageAt, Free;
    assert p + n - 1 in Range(p, n);
    forall x: nat | p <= x < p + n ensures Returnable(w, s, x) && UnsharedPage(w, s, x) && x < WORD_BITS * |words| {
      assert x in Range(p, n) && x in b.live;
      assert Own(w, s, x);
      UserFlagsOf();
      PageAtIs(x);
      PageAbove(w, s, PageAt(x));
    }
  }

  lemma UserFlagsOf()
    ensures Process(USER_PAGE) && !Layout.Shared(USER_PAGE) && USER_PAGE != 0
  {
  }

  lemma BackAtAddress(p: nat)
    requires p < LOW_PAGES
    ensures FirstReturned(p * PAGE_BYTES) == p
  {
  }

  lemma GivenBackDealt(v: World, w: World, s: nat, before: set<nat>, after: set<nat>, p: nat, n: nat)
    requires GivenBack(v, w, s, before, after, p, n)
    ensures Dealt(v, w, s, Return(p, n)) && after == before + Range(p, n)
  {
    hide Look, PageAt;
  }

  method GiveBack(sys: System, t: nat, p: nat, bytes: nat, ghost b: Books, ghost own: nat, ghost serial: nat) returns (ghost c: Books)
    requires Kept(sys, t, b) && PagesFor(bytes) > 0 && Backing(sys.k.W(), sys.tasks[t].pid, b, Range(p, PagesFor(bytes)), own)
    modifies sys.k`memory, sys.k`available, sys.k`own, sys.k.bitmap, sys.tasks[t].words
    ensures Kept(sys, t, c) && DealAt(b, c, Return(p, PagesFor(bytes)), sys.k.limit, serial)
    ensures Dealt(old(sys.k.W()), sys.k.W(), sys.tasks[t].pid, Return(p, PagesFor(bytes)))
  {
    hide System.Valid, Recorded, DealAt, Dealt, GivenBack, Lent, Unshared, Backing, Look, PageAt, Free;
    ghost var v, s, before := sys.k.W(), sys.tasks[t].pid, sys.tasks[t].words[..];
    MayGiveBack(v, s, b, before, p, PagesFor(bytes), own);
    BackAtAddress(p);
    sys.MemoryRelease(t, p * PAGE_BYTES, bytes);
    GivenBackDealt(v, sys.k.W(), s, Free(before), Free(sys.tasks[t].words[..]), p, PagesFor(bytes));
    EmptiedIsDeal(b, v, s, before, sys.tasks[t].words[..], sys.k.limit, p, PagesFor(bytes), serial);
    c := Books(Free(sys.tasks[t].words[..]), b.live - Range(p, PagesFor(bytes)));
  }

  // What the calls did so far.
  ghost predicate Done(calls: seq<Call>, got: seq<nat>, books: seq<Books>, deals: seq<Deal>, limit: nat) {
    && |got| == |deals| <= |calls| && Run(books, deals, limit)
    && forall i: nat | i < |got| :: DealOf(calls, got, books, deals, limit, i)
  }

  lemma DoneMore(calls: seq<Call>, got: seq<nat>, x: nat, books: seq<Books>, deals: seq<Deal>, c: Books, d: Deal, limit: nat)
    requires Done(calls, got, books, deals, limit) && |got| < |calls| && DealAt(books[|got|], c, d, limit, |got| + 1)
    requires DealOf(calls, got + [x], books + [c], deals + [d], limit, |got|)
    ensures Done(calls, got + [x], books + [c], deals + [d], limit)
  {
    hide NoFit, DealAt;
    forall i: nat | i < |got| ensures DealOf(calls, got + [x], books + [c], deals + [d], limit, i) {
      assert DealOf(calls, got, books, deals, limit, i);
      if calls[i].Give? && calls[i].i < i {
        assert Has(calls, got + [x], calls[i].i, i) <==> Has(calls, got, calls[i].i, i);
      }
    }
  }

  lemma HandedOut(calls: seq<Call>, got: seq<nat>, books: seq<Books>, deals: seq<Deal>, limit: nat, i: nat)
    requires Done(calls, got, books, deals, limit) && i < |got| && calls[i].Get? && got[i] != 0
    ensures PagesFor(calls[i].bytes) > 0
  {
    hide NoFit, FirstFit;
    assert DealOf(calls, got, books, deals, limit, i) && DealAt(books[i], books[i + 1], deals[i], limit, i + 1);
  }

  // A program that gives back only what it has calls as it likes. Unless the machine halts the system is sound
  // at the end; what the program got at any time is apart from all it had then, and what it still has is
  // there and its own.
  method Session(sys: System, t: nat, calls: seq<Call>)
    returns (got: seq<nat>, halted: bool, ghost books: seq<Books>, ghost deals: seq<Deal>)
    requires sys.Valid() && sys.Running(t)
    requires forall c | c in calls && c.Get? :: sys.k.limit + PagesFor(c.bytes) <= WORD_BITS * sys.tasks[t].words.Length + 1
    modifies sys.k`memory, sys.k`available, sys.k`own, sys.k.bitmap, sys.tasks[t].words
    ensures Done(calls, got, books, deals, sys.k.limit) && BlocksApart(calls, got)
    ensures Recorded(books[0], old(sys.tasks[t].words[..]))
    ensures halted ==> |got| < |calls| && calls[|got|].Get? && sys.k.W().free == {}
    ensures !halted ==>
              && |got| == |calls| && Kept(sys, t, books[|got|])
              && AllBacked(sys.k.W(), sys.tasks[t].pid, books[|got|], calls, got)
  {
    hide System.Valid, Recorded, DealAt, Dealt, DealOf, Done, Look, PageAt, Free, NoFit, AllBacked, BlocksApart, Has;
    ghost var first := FirstBooks(sys, t);
    ghost var managed := Managed(sys.tasks[t].words[..]);
    got, halted, books, deals := [], false, [first], [];
    NothingYet(sys.k.W(), sys.tasks[t].pid, first, calls, sys.k.limit);
    for n := 0 to |calls|
      invariant |got| == |deals| == n && |books| == |deals| + 1 && books[0] == first
      invariant Kept(sys, t, books[|got|]) && Managed(sys.tasks[t].words[..]) == managed
      invariant Done(calls, got, books, deals, sys.k.limit) && BlocksApart(calls, got)
      invariant AllBacked(sys.k.W(), sys.tasks[t].pid, books[|got|], calls, got)
    {
      ghost var v, s, b, c, d := sys.k.W(), sys.tasks[t].pid, books[n], books[n], Nothing;
      var address := 0;
      RecordedBalances(b, sys.tasks[t].words[..]);
      match calls[n] {
      case Get(bytes) =>
        address, halted, c, d := Ask(sys, t, bytes, b, n + 1);
        if halted {
          return;
        }
      case Give(j) =>
        NothingDealt(b, v, s, sys.k.limit, n + 1);
        if Has(calls, got, j, n) {
          HasPart(calls, got, j);
          HandedOut(calls, got, books, deals, sys.k.limit, j);
          BackedAt(v, s, b, calls, got, j);
          d := Return(got[j] / PAGE_BYTES, PagesFor(calls[j].bytes));
          c := GiveBack(sys, t, got[j] / PAGE_BYTES, calls[j].bytes, b, j + 1, n + 1);
        }
      }
      DealIs(calls, got, address, books, deals, c, d, sys.k.limit);
      Grows(v, sys.k.W(), s, calls, got, address, books, deals, c, d, sys.k.limit, managed);
      DoneMore(calls, got, address, books, deals, c, d, sys.k.limit);
      got, books, deals := got + [address], books + [c], deals + [d];
    }
  }

  // The books at first: what the map has handed out before is of no call.
  ghost method FirstBooks(sys: System, t: nat) returns (b: Books)
    requires sys.Valid() && sys.Running(t)
    ensures Kept(sys, t, b)
  {
    hide System.Valid;
    var words := sys.tasks[t].words[..];
    var g := sys.OwnerOf(t);
    b := Books(Free(words), map x | x in Managed(words) - Free(words) :: 0);
    InvOf(sys);
    LiveIsMapped(b, sys.k.W(), sys.tasks[t].pid, words);
  }

  lemma InvOf(sys: System)
    requires sys.Valid()
    ensures Inv(sys.k.W())
  {
  }

  lemma NothingYet(w: World, s: nat, b: Books, calls: seq<Call>, limit: nat)
    ensures Done(calls, [], [b], [], limit) && BlocksApart(calls, []) && AllBacked(w, s, b, calls, [])
  {
  }

  lemma RecordedBalances(b: Books, words: seq<bv32>)
    requires Recorded(b, words)
    ensures Balanced(b, Managed(words))
  {
    hide Free;
  }

  lemma HasPart(calls: seq<Call>, got: seq<nat>, i: nat)
    requires |got| <= |calls| && Has(calls, got, i, |got|)
    ensures i < |got| && calls[i].Get? && got[i] != 0
  {
  }

  lemma BackedAt(w: World, s: nat, b: Books, calls: seq<Call>, got: seq<nat>, i: nat)
    requires |got| <= |calls| && AllBacked(w, s, b, calls, got) && Has(calls, got, i, |got|)
    ensures Backing(w, s, b, Block(calls, got, i), i + 1)
  {
    hide Backing;
  }

  lemma DealIs(calls: seq<Call>, got: seq<nat>, x: nat, books: seq<Books>, deals: seq<Deal>, c: Books, d: Deal, limit: nat)
    requires |got| == |deals| < |calls| && |books| == |deals| + 1
    requires match calls[|got|]
             case Get(bytes) =>
               if x == 0 then d == Nothing && (PagesFor(bytes) == 0 || NoFit(books[|got|].free, limit, PagesFor(bytes)))
               else x % PAGE_BYTES == 0 && d == Allot(x / PAGE_BYTES, PagesFor(bytes))
             case Give(j) =>
               && (!Has(calls, got, j, |got|) ==> d == Nothing)
               && (Has(calls, got, j, |got|) ==> j < |got| && calls[j].Get? && d == Return(got[j] / PAGE_BYTES, PagesFor(calls[j].bytes)))
    ensures DealOf(calls, got + [x], books + [c], deals + [d], limit, |got|)
  {
    hide NoFit;
    if calls[|got|].Give? {
      assert Has(calls, got + [x], calls[|got|].i, |got|) <==> Has(calls, got, calls[|got|].i, |got|);
    }
  }
}
