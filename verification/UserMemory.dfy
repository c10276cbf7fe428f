// A process's own memory: its map of free pages and its paging tables tell the same story.
module UserMemory {
  import opened Bitmap
  import opened Layout
  import opened Spaces
  import opened Memory
  import opened Reshaping
  import opened Pages
  import opened Paging
  import opened Teardown
  import opened Merging
  import opened Lifecycle

  // Page of KERNEL_EXEC_BASE_address, the first page a process manages.
  const FIRST_PAGE := 0x100
  // Pages below one top-level entry: what a map covers lies under entry 0.
  const LOW_PAGES := 0x800_0000

  // Addresses from here on are the kernel's; releasing strips that part of an address.
  const MIRROR := 0x8000_0000_0000

  const USER_PAGE: bv12 := 0x207

  // Words of memory map in one frame
  const FRAME_WORDS := 1024

  // A managed page is free in the map exactly when nothing is mapped there; below the managed pages
  // there is nothing.
  ghost predicate Agrees(w: World, g: nat, words: seq<bv32>) {
    forall v: nat | v < WORD_BITS * |words| :: AgreesAt(w, g, words, v)
  }

  ghost predicate AgreesAt(w: World, g: nat, words: seq<bv32>, v: nat) {
    && (v in Free(words) <==> v >= FIRST_PAGE && Look(w, g, PageAt(v)) == EMPTY)
    && (Look(w, g, PageAt(v)) != EMPTY ==> v >= FIRST_PAGE)
  }

  lemma WordBits(w: bv32, k: nat)
    requires k < WORD_BITS && (w == 0 || w == 0xFFFF_FFFF)
    ensures TestBit(w, k) <==> w != 0
  {
  }

  lemma FilledMap(words: seq<bv32>)
    requires |words| >= 8 && (forall j | 0 <= j < 8 :: words[j] == 0) && forall j | 8 <= j < |words| :: words[j] == 0xFFFF_FFFF
    ensures forall x: nat :: x in Free(words) <==> FIRST_PAGE <= x < WORD_BITS * |words|
  {
    hide TestBit;
    forall x: nat | x < WORD_BITS * |words| ensures Bit(words, x) <==> x >= FIRST_PAGE {
      WordBits(words[x / WORD_BITS], x % WORD_BITS);
    }
  }

  // The kernel keeps out of top-level entry 0.
  ghost predicate KernelLow(w: World) {
    Node(KERNEL, Step(Top, 0)) !in w.own
  }

  // A processor running a program may pass the entry, to read and to write: bit 0 says that it is there, bit 1
  // that it may be written through, bit 2 that programs may use it.
  predicate Passable(flags: bv12) {
    Carries(flags, 0x001) && Carries(flags, 0x002) && Carries(flags, 0x004)
  }

  // No table under entry 0 keeps a program from what lies below.
  ghost predicate Roomy(w: World, s: nat) {
    forall p | IsTable(p) && Under(p, Step(Top, 0)) && Look(w, s, p) != EMPTY :: Passable(Look(w, s, p).flags)
  }

  // The space may be walked and has a table under entry 0: a process maps its program there, and a
  // thread shares the entry of its process.
  ghost predicate LowReady(w: World, s: nat) {
    Walkable(w, s) && s != KERNEL && Look(w, s, Step(Top, 0)) != EMPTY && Roomy(w, s)
  }

  // What keeps all tables of a space keeps it ready.
  lemma LowReadySame(v: World, w: World, s: nat)
    requires LowReady(v, s) && Walkable(w, s) && forall p | IsTable(p) :: Look(w, s, p) == Look(v, s, p)
    ensures LowReady(w, s)
  {
    OneDeep();
    hide Look, Passable;
  }

  // Tables were added that programs may pass, or elsewhere.
  lemma LowReadyTagged(v: World, w: World, from: nat, end: nat, tag: bv12)
    requires Tagged(v, w, from, end, tag) && (Passable(tag) || from >= LOW_PAGES)
    ensures forall r | LowReady(v, r) :: LowReady(w, r)
  {
    hide Look, Passable, Needed;
    OneDeep();
    forall r | LowReady(v, r) ensures LowReady(w, r) {
      assert TaggedIn(v, w, r, from, end, tag);
      assert TaggedAt(v, w, r, Step(Top, 0), from, end, tag);
      forall p | IsTable(p) && Under(p, Step(Top, 0)) && Look(w, r, p) != EMPTY ensures Passable(Look(w, r, p).flags) {
        assert TaggedAt(v, w, r, p, from, end, tag);
        if Look(v, r, p) == EMPTY && from >= LOW_PAGES {
          NotNeeded(p, from, end);
        }
      }
    }
  }

  lemma NotNeeded(p: Path, from: nat, end: nat)
    requires IsTable(p) && Under(p, Step(Top, 0)) && from >= LOW_PAGES
    ensures !Needed(p, from, end)
  {
    if Needed(p, from, end) {
      var q :| InRange(q, from, end) && Over(p, q);
      var d4, d3, d2, d1 := DigitsOfPage(q);
      PagePathIs(d4, d3, d2, d1);
      UnderDigits(0, 0, 0, 0, d4, d3, d2, d1);
    }
  }

  // Where a page under entry 0 is there, a program may do with it what its own entry says.
  lemma LowGrants(w: World, s: nat, q: Path, bit: bv12)
    requires LowReady(w, s) && IsPage(q) && Index(q) < LOW_PAGES && Carries(Look(w, s, q).flags, bit) && bit in {0x001, 0x002, 0x004}
    ensures Grants(w, s, q, bit)
  {
    hide Look, Carries;
    LowPage(q);
    NoFlags(bit);
    PageAbove(w, s, q);
    var d4, d3, d2, d1 := DigitsOfPage(q);
    PagePathIs(d4, d3, d2, d1);
    forall p | Over(p, q) ensures Carries(Look(w, s, p).flags, bit) {
      TableAbove(w, s, q, p);
      assert Passable(Look(w, s, p).flags);
    }
    GrantsDown(w, s, d4, d3, d2, d1, bit);
  }

  lemma LowTables(w: World, s: nat, p: Path)
    requires Inv(w) && KernelLow(w) && Walkable(w, s) && s != KERNEL
    requires IsTable(p) && Under(p, Step(Top, 0)) && Look(w, s, p) != EMPTY
    ensures Process(Look(w, s, p).flags)
  {
    UnderIsDeeper(p, Step(Top, 0));
    hide Inv;
    var t := Locate(w, s, p);
    if t == KERNEL {
      NothingBelow(w, KERNEL, Step(Top, 0), p);
    }
  }

  lemma LowPage(q: Path)
    requires IsPage(q) && Index(q) < LOW_PAGES
    ensures Up(Up(Up(q))) == Step(Top, 0) && TopDigit(q) == 0 && Under(q, Step(Top, 0))
    ensures Under(Up(q), Step(Top, 0)) && Under(Up(Up(q)), Step(Top, 0)) && Under(Up(Up(Up(q))), Step(Top, 0))
    ensures IsTable(Up(q)) && IsTable(Up(Up(q))) && IsTable(Up(Up(Up(q))))
  {
    var d4, d3, d2, d1 := DigitsOfPage(q);
    PagePathIs(d4, d3, d2, d1);
    assert d4 == 0;
    UnderDigits(0, 0, 0, 0, 0, d3, d2, d1);
    var a := Step(Top, 0);
    var b := Step(a, d3);
    var c := Step(b, d2);
    assert Under(a, a) && Under(b, a) && Under(c, a);
    assert Depth(a) == 1 && Depth(b) == 2 && Depth(c) == 3 && Digits(a) && Digits(b) && Digits(c);
  }

  lemma LowOpen(w: World, s: nat, from: nat, to: nat)
    requires Inv(w) && KernelLow(w) && LowReady(w, s) && to <= LOW_PAGES
    ensures Open(w, s, from, to)
  {
    forall q | InRange(q, from, to)
      ensures OpenPage(w, s, q)
    {
      LowPage(q);
      hide Inv, Look, KernelLow;
      if Look(w, s, Up(q)) != EMPTY { LowTables(w, s, Up(q)); }
      if Look(w, s, Up(Up(q))) != EMPTY { LowTables(w, s, Up(Up(q))); }
      if Look(w, s, Up(Up(Up(q)))) != EMPTY { LowTables(w, s, Up(Up(Up(q)))); }
    }
  }

  lemma AtRoot(w: World, s: nat)
    requires Inv(w) && HasSpace(w, s)
    ensures IsTableAt(w, Node(s, Top)) && Look(w, s, Top) != EMPTY && Look(w, s, Top).frame == w.own[Node(s, Top)]
  {
  }

  // A thread reads its process's pages there.
  lemma LinkedEntry(w: World, s: nat)
    requires Inv(w) && KernelLow(w) && LowReady(w, s)
    ensures var e := Look(w, s, Step(Top, 0));
            e != EMPTY ==> Look(w, Group(w, s), Step(Top, 0)) != EMPTY && Look(w, Group(w, s), Step(Top, 0)).frame == e.frame
  {
    var root := Node(s, Top);
    var g := Group(w, s);
    var e := Look(w, s, Step(Top, 0));
    if e != EMPTY && g != s {
      assert Typed(w, root, 0);
      AtRoot(w, s);
      LookStep(w, s, root, 0);
      LowTables(w, s, Step(Top, 0));
      assert Hung(w, Node(g, Step(Top, 0)));
      AtRoot(w, g);
      LookStep(w, g, Node(g, Top), 0);
    }
  }

  lemma {:induction false} LinkedLow(w: World, s: nat, p: Path)
    requires Inv(w) && KernelLow(w) && LowReady(w, s) && Under(p, Step(Top, 0)) && p != Step(Top, 0)
    ensures Look(w, s, p) == Look(w, Group(w, s), p)
  {
    if Group(w, s) != s {
      assert p.Step?;
      if p.up == Step(Top, 0) {
        LinkedEntry(w, s);
        hide Inv;
      } else {
        LinkedLow(w, s, p.up);
        hide Inv;
      }
    }
  }

  lemma LinkedPage(w: World, s: nat, q: Path)
    requires Inv(w) && KernelLow(w) && LowReady(w, s) && IsPage(q) && Index(q) < LOW_PAGES
    ensures Look(w, s, q) == Look(w, Group(w, s), q)
  {
    LowPage(q);
    assert Depth(Step(Top, 0)) == 1;
    LinkedLow(w, s, q);
  }

  // ---- apart from other processes --------------------------------------------------------------

  // Nothing a process does in its own tables shows in another process or its threads.
  lemma NotShared(w: World, r: nat, s: nat, p: Path)
    requires Inv(w) && Walkable(w, r) && Walkable(w, s) && s != KERNEL && IsTable(p) && Depth(p) > 0
    requires Group(w, r) != Group(w, s)
    requires Look(w, s, p) != EMPTY ==> Process(Look(w, s, p).flags)
    ensures !SameTable(w, r, s, p)
  {
    if SameTable(w, r, s, p) {
      var t := Locate(w, r, p);
      var u := Locate(w, s, p);
      hide Tables, Hangs, Look;
    }
  }

  ghost predicate ApartFrom(v: World, w: World, s: nat) {
    forall r, q | Walkable(v, r) && s in v.kind && Group(v, r) != Group(v, s) && IsPage(q) :: Look(w, r, q) == Look(v, r, q)
  }

  lemma OpenAbove(w: World, s: nat, from: nat, end: nat, q: Path)
    requires Open(w, s, from, end) && InRange(q, from, end) && s != KERNEL
    ensures IsTable(Up(q)) && Depth(Up(q)) > 0
    ensures Look(w, s, Up(q)) != EMPTY ==> Process(Look(w, s, Up(q)).flags)
  {
    hide Look;
    assert OpenPage(w, s, q);
  }

  lemma ReshapedApart(v: World, w: World, s: nat, from: nat, to: nat, end: nat)
    requires Inv(w) && Walkable(v, s) && s != KERNEL && Reshaped(v, w, s, from, to, end) && Open(w, s, from, end) && to <= end
    ensures ApartFrom(v, w, s)
  {
    hide Inv, Look, OwnKept, NewOwn, NoLeak, TablesKept, NewTables, Open, OpenPage, OpenTable;
    forall r, q | Walkable(v, r) && Group(v, r) != Group(v, s) && IsPage(q)
      ensures Look(w, r, q) == Look(v, r, q)
    {
      if InRange(q, from, to) {
        OpenAbove(w, s, from, end, q);
        NotShared(w, r, s, Up(q));
      }
    }
  }

  // ---- allocating and releasing ----------------------------------------------------------------

  // What a step of one process leaves alone: whatever other processes read, every space, the frames
  // held, and the pool of frames as a whole; frames it takes go to its own process.
  ghost predicate Private(v: World, w: World, s: nat) {
    && w.kind == v.kind && Pool(w) == Pool(v)
    && (forall r | HasSpace(v, r) :: HasSpace(w, r) && w.own[Node(r, Top)] == v.own[Node(r, Top)])
    && (forall r | LowReady(v, r) :: LowReady(w, r))
    && (forall n | n in w.own && n !in v.own :: n.Node? && InGroup(v, s, n.space))
    && (forall n | n in v.own && n.Held? :: n in w.own && w.own[n] == v.own[n])
    && ApartFrom(v, w, s)
  }

  // The map words after n pages were taken from it at p.
  lemma AgreesAfterAlloc(v: World, w: World, s: nat, before: seq<bv32>, after: seq<bv32>, p: nat, n: nat)
    requires Inv(v) && Inv(w) && KernelLow(v) && KernelLow(w) && LowReady(v, s) && LowReady(w, s) && w.kind == v.kind
    requires Agrees(v, Group(v, s), before) && |after| == |before| && WORD_BITS * |before| <= LOW_PAGES
    requires Range(p, n) <= Free(before) && Free(after) == Free(before) - Range(p, n)
    requires Reshaped(v, w, s, p, p + n, p + n) && Backed(v, w, s, p, p + n, USER_PAGE)
    ensures Agrees(w, Group(w, s), after)
  {
    hide Inv, Reshaped, Look, PageAt, KernelLow, LowReady, Free, Agrees, Backed;
    LowWalkable(v, s);
    var g := Group(v, s);
    AllAgree(w, g, after) by {
      forall x: nat | x < WORD_BITS * |after| ensures AgreesAt(w, g, after, x) {
        AgreesHere(v, g, before, x);
        PageAfterAlloc(v, w, s, p, n, x);
        UserPageIsOwned();
      }
    }
  }

  lemma PageInRange(x: nat, from: nat, to: nat)
    requires x < PAGES
    ensures x in Range(from, to - from) <==> InRange(PageAt(x), from, to)
    requires from <= to
  {
    PageAtIs(x);
    hide PageAt;
  }

  lemma OutsideRange(v: World, w: World, s: nat, from: nat, to: nat, end: nat, q: Path)
    requires Reshaped(v, w, s, from, to, end) && Walkable(v, s) && IsPage(q) && !InRange(q, from, to)
    ensures Look(w, s, q) == Look(v, s, q)
  {
    hide Apart, OwnKept, NewOwn, NoLeak, TablesKept, NewTables, Look;
  }

  lemma FreshFlags(v: World, w: World, s: nat, q: Path, flags: bv12)
    requires Fresh(v, w, s, q, flags)
    ensures Look(w, s, q).flags == flags
  {
    hide Look;
  }

  // A page of the range has a fresh frame if it had none, and any other is as it was; the process reads the
  // same as its thread.
  lemma PageAfterAlloc(v: World, w: World, s: nat, p: nat, n: nat, x: nat)
    requires Inv(v) && Inv(w) && KernelLow(v) && KernelLow(w) && LowReady(v, s) && LowReady(w, s) && w.kind == v.kind && x < LOW_PAGES
    requires Reshaped(v, w, s, p, p + n, p + n) && Backed(v, w, s, p, p + n, USER_PAGE)
    ensures var g := Group(v, s);
            if x in Range(p, n) && Look(v, g, PageAt(x)) == EMPTY then Look(w, g, PageAt(x)).flags == USER_PAGE
            else Look(w, g, PageAt(x)) == Look(v, g, PageAt(x))
  {
    hide Inv, Reshaped, Look, PageAt, KernelLow, LowReady, InRange, IsPage, Fresh;
    PageAtIs(x);
    LinkedPage(v, s, PageAt(x));
    LinkedPage(w, s, PageAt(x));
    LowWalkable(v, s);
    PageInRange(x, p, p + n);
    if !InRange(PageAt(x), p, p + n) {
      OutsideRange(v, w, s, p, p + n, p + n, PageAt(x));
    } else if Look(v, s, PageAt(x)) == EMPTY {
      FreshFlags(v, w, s, PageAt(x), USER_PAGE);
    }
  }

  lemma UserPageIsOwned()
    ensures Owned(USER_PAGE) && forall e: Entry :: e.flags == USER_PAGE ==> e != EMPTY && Owned(e.flags)
  {
    OwnedIsNotEmpty(EMPTY);
  }

  lemma KernelLowKept(v: World, w: World, s: nat, from: nat, to: nat, end: nat)
    requires Inv(v) && KernelLow(v) && s != KERNEL && Walkable(v, s) && Reshaped(v, w, s, from, to, end)
    requires Inv(w) && Walkable(w, s) && Open(w, s, from, end)
    ensures KernelLow(w)
  {
    var c := Node(KERNEL, Step(Top, 0));
    assert c in w.own ==> NewNode(v, w, s, from, to, end, c);
    hide Tables, Hangs, Injective, Apart, TablesKept, OwnKept, Look;
  }

  // The space may use its map: the map and the tables agree, over pages below entry 0.
  ghost predicate Usable(w: World, s: nat, words: seq<bv32>) {
    && KernelLow(w) && LowReady(w, s) && Agrees(w, Group(w, s), words) && WORD_BITS * |words| <= LOW_PAGES
  }

  lemma PageOfNumber(p: nat)
    requires p < PAGES
    ensures PageOf(p * PAGE_BYTES) == p
  {
  }

  // A range that fits lies inside the map, above the pages never handed out.
  lemma FitsInside(words: seq<bv32>, limit: nat, n: nat, p: nat)
    requires FirstFit(Free(words), limit, n, p) && n > 0
    ensures Range(p, n) <= Free(words) && p + n <= WORD_BITS * |words|
  {
    assert p + n - 1 in Free(words);
  }

  lemma WasUnmapped(v: World, w: World, s: nat, words: seq<bv32>, p: nat, n: nat, q: nat)
    requires Inv(v) && Usable(v, s, words) && Range(p, n) <= Free(words) && p <= q < p + n && p + n <= LOW_PAGES
    requires Backed(v, w, s, p, p + n, USER_PAGE)
    ensures Look(v, s, PageAt(q)) == EMPTY && Fresh(v, w, s, PageAt(q), USER_PAGE)
  {
    PageAtIs(q);
    assert q in Range(p, n);
    assert AgreesAt(v, Group(v, s), words, q);
    LinkedPage(v, s, PageAt(q));
    assert InRange(PageAt(q), p, p + n);
  }

  // The page an address to give back lies in, the kernel's part of the address stripped.
  function FirstReturned(address: nat): nat {
    address % MIRROR / PAGE_BYTES
  }

  function PagesFor(bytes: nat): nat {
    (bytes + PAGE_BYTES - 1) / PAGE_BYTES
  }

  // The other pages of the space are as they were.
  ghost predicate Elsewhere(v: World, w: World, s: nat, p: nat, n: nat) {
    forall y: nat | y < PAGES && !(p <= y < p + n) :: Look(w, s, PageAt(y)) == Look(v, s, PageAt(y))
  }

  lemma ReshapedElsewhere(v: World, w: World, s: nat, p: nat, to: nat, end: nat)
    requires Reshaped(v, w, s, p, to, end) && Walkable(v, s) && p <= to
    ensures Elsewhere(v, w, s, p, to - p)
  {
    hide Reshaped, Look, PageAt, Walkable, InRange;
    forall y: nat | y < PAGES && !(p <= y < to) ensures Look(w, s, PageAt(y)) == Look(v, s, PageAt(y)) {
      PageAtIs(y);
      PageInRange(y, p, to);
      OutsideRange(v, w, s, p, to, end, PageAt(y));
    }
  }

  // n pages from p, the first place below the limit where they fit, left the map; each was unmapped
  // and now has a fresh blank frame.
  ghost predicate Allotted(v: World, w: World, s: nat, before: set<nat>, after: set<nat>, limit: nat, n: nat, p: nat) {
    && FirstFit(before, limit, n, p) && after == before - Range(p, n) && p + n <= LOW_PAGES
    && (forall q: nat | p <= q < p + n :: Look(v, s, PageAt(q)) == EMPTY && Fresh(v, w, s, PageAt(q), USER_PAGE))
    && SeparateFrames(v, w, s, p, p + n) && Elsewhere(v, w, s, p, n)
  }

  // ---- the same in bytes -----------------------------------------------------------------------

  // Page x holds the first of so many bytes or lies before the last of them.
  lemma PagesHold(bytes: nat)
    ensures forall x: nat :: x < PagesFor(bytes) <==> x * 4096 < bytes
    ensures bytes <= PagesFor(bytes) * 4096 < bytes + 4096
    ensures bytes > 0 ==> PagesFor(bytes) == (bytes - 1) / 4096 + 1
  {
  }

  // Page x was not there and now has a fresh frame, which the program may read and write.
  ghost predicate Handed(v: World, w: World, s: nat, x: nat) {
    && x < PAGES && Look(v, s, PageAt(x)) == EMPTY && Fresh(v, w, s, PageAt(x), USER_PAGE)
    && Grants(w, s, PageAt(x), 0x001) && Grants(w, s, PageAt(x), 0x002) && Grants(w, s, PageAt(x), 0x004)
  }

  ghost predicate HandedByte(v: World, w: World, s: nat, a: nat) {
    Handed(v, w, s, a / 4096)
  }

  // Every byte from an address on has memory that nobody had, and no page has changed that holds none of them.
  ghost predicate BytesHanded(v: World, w: World, s: nat, address: nat, bytes: nat) {
    && (forall a: nat | address <= a < address + bytes :: HandedByte(v, w, s, a))
    && forall x: nat | x < PAGES && Look(w, s, PageAt(x)) != Look(v, s, PageAt(x)) ::
         address <= x * 4096 && x * 4096 < address + bytes
  }

  // From no page below the limit on there are so many bytes free.
  ghost predicate NoRoom(free: set<nat>, limit: nat, bytes: nat) {
    forall q: nat | q < limit :: !RoomAt(free, q, bytes)
  }

  ghost predicate RoomAt(free: set<nat>, q: nat, bytes: nat) {
    forall a: nat | q * 4096 <= a < q * 4096 + bytes :: FreeByte(free, a)
  }

  ghost predicate FreeByte(free: set<nat>, a: nat) {
    a / 4096 in free
  }

  // The pages that hold some bytes from the beginning of page p on.
  lemma HoldsByte(p: nat, bytes: nat)
    ensures forall a: nat | p * 4096 <= a < p * 4096 + bytes :: p <= a / 4096 < p + PagesFor(bytes)
    ensures forall x: nat | p <= x < p + PagesFor(bytes) :: p * 4096 <= x * 4096 < p * 4096 + bytes && x * 4096 / 4096 == x
  {
    PagesHold(bytes);
    hide PagesFor;
    forall a: nat | p * 4096 <= a < p * 4096 + bytes ensures p <= a / 4096 < p + PagesFor(bytes) {
      assert a / 4096 * 4096 <= a;
      assert (a / 4096 - p) * 4096 < bytes;
    }
    forall x: nat | p <= x < p + PagesFor(bytes) ensures p * 4096 <= x * 4096 < p * 4096 + bytes {
      assert (x - p) * 4096 < bytes;
    }
  }

  lemma AllottedBytes(v: World, w: World, s: nat, before: set<nat>, after: set<nat>, limit: nat, p: nat, bytes: nat)
    requires Allotted(v, w, s, before, after, limit, PagesFor(bytes), p) && LowReady(w, s)
    ensures BytesHanded(v, w, s, p * 4096, bytes)
  {
    hide Look, PageAt, PagesFor, Fresh, LowReady, Grants, FirstFit, Handed, Carries;
    HoldsByte(p, bytes);
    forall a: nat | p * 4096 <= a < p * 4096 + bytes ensures HandedByte(v, w, s, a) {
      NowHanded(v, w, s, a / 4096);
    }
  }

  lemma NowHanded(v: World, w: World, s: nat, x: nat)
    requires x < LOW_PAGES && Look(v, s, PageAt(x)) == EMPTY && Fresh(v, w, s, PageAt(x), USER_PAGE) && LowReady(w, s)
    ensures Handed(v, w, s, x)
  {
    FreshFlags(v, w, s, PageAt(x), USER_PAGE);
    PageAtIs(x);
    UserBits();
    hide Look, PageAt, Fresh, LowReady, Grants, Carries;
    LowGrants(w, s, PageAt(x), 0x001);
    LowGrants(w, s, PageAt(x), 0x002);
    LowGrants(w, s, PageAt(x), 0x004);
  }

  lemma UserBits()
    ensures Carries(USER_PAGE, 0x001) && Carries(USER_PAGE, 0x002) && Carries(USER_PAGE, 0x004)
  {
  }

  lemma NoFitNoRoom(free: set<nat>, limit: nat, bytes: nat)
    ensures NoFit(free, limit, PagesFor(bytes)) <==> NoRoom(free, limit, bytes)
  {
    forall q: nat ensures Bitmap.Fits(free, q, PagesFor(bytes)) <==> RoomAt(free, q, bytes) {
      FitsIsRoom(free, q, bytes);
    }
  }

  lemma FitsIsRoom(free: set<nat>, q: nat, bytes: nat)
    ensures Bitmap.Fits(free, q, PagesFor(bytes)) <==> RoomAt(free, q, bytes)
  {
    HoldsByte(q, bytes);
    hide PagesFor;
    if RoomAt(free, q, bytes) {
      forall c: nat | q <= c < q + PagesFor(bytes) ensures c in free {
        assert FreeByte(free, c * 4096);
      }
    }
  }

  // n pages fit in the map, but the free frames do not suffice for them and the tables missing over them.
  ghost predicate Exhausts(v: World, s: nat, free: set<nat>, limit: nat, n: nat) {
    && n > 0 && !NoFit(free, limit, n)
    && forall p: nat | FirstFit(free, limit, n, p) :: !Affordable(v, s, p, n)
  }

  lemma NothingExhausted(v: World, s: nat, free: set<nat>, limit: nat, n: nat)
    requires n == 0 || NoFit(free, limit, n)
    ensures !Exhausts(v, s, free, limit, n)
  {
  }

  lemma ExhaustsAt(v: World, s: nat, free: set<nat>, limit: nat, n: nat, p: nat)
    requires FirstFit(free, limit, n, p) && n > 0
    ensures Exhausts(v, s, free, limit, n) <==> !Affordable(v, s, p, n)
  {
    hide Affordable;
    assert forall q: nat | FirstFit(free, limit, n, q) :: q == p;
    assert p < limit && Bitmap.Fits(free, p, n);
  }

  // Hands out `bytes` of memory, in whole pages that were free in the map: the first place where they
  // fit, each page with a fresh blank frame. Answers 0 if there is no such place; halts if the kernel
  // runs out of frames on the way.
  method UserAlloc(k: Kernel, ghost s: nat, pml4: nat, words: array<bv32>, bytes: nat)
    returns (address: nat, halted: bool)
    requires k.Valid() && Usable(k.W(), s, words[..]) && k.W().own[Node(s, Top)] == pml4
    requires words != k.bitmap && Bitmap.Bounded(words[..], k.limit, PagesFor(bytes))
    modifies k`memory, k`available, k`own, k.bitmap, words
    ensures k.Valid()
    ensures halted ==> k.W().free == {}
    ensures halted <==> Exhausts(old(k.W()), s, old(Free(words[..])), k.limit, PagesFor(bytes))
    ensures !halted ==> Usable(k.W(), s, words[..]) && Private(old(k.W()), k.W(), s) && OwnGrows(old(k.W()), k.W())
    ensures !halted && address == 0 ==>
              && k.W() == old(k.W()) && words[..] == old(words[..])
              && (PagesFor(bytes) == 0 || NoFit(old(Free(words[..])), k.limit, PagesFor(bytes)))
              && (bytes == 0 || NoRoom(old(Free(words[..])), k.limit, bytes))
    ensures !halted && address != 0 ==> bytes > 0 && BytesHanded(old(k.W()), k.W(), s, address, bytes)
    ensures !halted && address != 0 ==>
              && address % PAGE_BYTES == 0 && PagesFor(bytes) > 0
              && Allotted(old(k.W()), k.W(), s, old(Free(words[..])), Free(words[..]), k.limit, PagesFor(bytes), address / PAGE_BYTES)
  {
    hide BytesHanded, NoRoom, LowReady, Tagged, Granted, Inv, Usable, Private, OwnGrows, Look, Fresh, SeparateFrames, Elsewhere, PageAt, Backed, Reshaped, Open, Pool, Bit, Bitmap.Bounded, Affordable, Charged, Exhausts;
    ghost var v, before := k.W(), words[..];
    var pages := PagesFor(bytes);
    UsableParts(v, s, before);
    NothingPrivate(v, s);
    assert 0 !in Free(before) by { PageZero(v, s, before); }
    var p := Acquire(words, k.limit, pages);
    assert k.W() == v;
    if p == 0 {
      assert pages > 0 && Bitmap.Fits(Free(before), 0, pages) ==> 0 in Free(before);
      NothingExhausted(v, s, Free(before), k.limit, pages);
      NoFitNoRoom(Free(before), k.limit, bytes);
      PagesHold(bytes);
      return 0, false;
    }
    FitsInside(before, k.limit, pages, p);
    PageOfNumber(p);
    LowOpen(v, s, p, p + pages);
    UserPageIsOwned();
    ExhaustsAt(v, s, Free(before), k.limit, pages, p);
    var ok, done := Alloc(k, s, pml4, p * PAGE_BYTES, pages, USER_PAGE);
    if !ok {
      return 0, true;
    }
    AllocKeeps(v, k.W(), s, before, words[..], p, pages);
    ReshapedElsewhere(v, k.W(), s, p, p + pages, p + pages);
    forall q: nat | p <= q < p + pages
      ensures Look(v, s, PageAt(q)) == EMPTY && Fresh(v, k.W(), s, PageAt(q), USER_PAGE)
    {
      WasUnmapped(v, k.W(), s, before, p, pages, q);
    }
    UsableParts(k.W(), s, words[..]);
    AllottedBytes(v, k.W(), s, Free(before), Free(words[..]), k.limit, p, bytes);
    return p * PAGE_BYTES, false;
  }

  lemma UsableParts(w: World, s: nat, words: seq<bv32>)
    requires Usable(w, s, words)
    ensures KernelLow(w) && LowReady(w, s) && Walkable(w, s) && s != KERNEL && WORD_BITS * |words| <= LOW_PAGES
  {
  }

  lemma NothingPrivate(w: World, s: nat)
    ensures Private(w, w, s) && OwnGrows(w, w)
  {
  }

  lemma PageZero(w: World, s: nat, words: seq<bv32>)
    requires Usable(w, s, words)
    ensures 0 !in Free(words)
  {
    assert |words| > 0 ==> AgreesAt(w, Group(w, s), words, 0);
  }

  lemma AllocKeeps(v: World, w: World, s: nat, before: seq<bv32>, after: seq<bv32>, p: nat, n: nat)
    requires Inv(v) && Inv(w) && Usable(v, s, before) && |after| == |before|
    requires Range(p, n) <= Free(before) && Free(after) == Free(before) - Range(p, n) && p + n <= LOW_PAGES
    requires Reshaped(v, w, s, p, p + n, p + n) && Backed(v, w, s, p, p + n, USER_PAGE) && Open(w, s, p, p + n)
    requires Pool(w) == Pool(v) && Tagged(v, w, p, p + n, USER_PAGE)
    ensures Usable(w, s, after) && Private(v, w, s)
  {
    hide Tagged, Inv, Reshaped, Backed, Open, Agrees, KernelLow, LowReady, Pool, ApartFrom;
    UsableParts(v, s, before);
    UserPasses();
    LowReadyTagged(v, w, p, p + n, USER_PAGE);
    LowWalkable(w, s);
    KernelLowKept(v, w, s, p, p + n, p + n);
    ReshapedKind(v, w, s, p, p + n, p + n);
    AgreesAfterAlloc(v, w, s, before, after, p, n);
    ReshapedApart(v, w, s, p, p + n, p + n);
    ReshapedPrivate(v, w, s, p, p + n, p + n);
  }

  lemma UserPasses()
    ensures Passable(USER_PAGE)
  {
  }

  lemma ReshapedPrivate(v: World, w: World, s: nat, from: nat, to: nat, end: nat)
    requires Reshaped(v, w, s, from, to, end) && s != KERNEL
    ensures forall n | n in w.own && n !in v.own :: n.Node? && InGroup(v, s, n.space)
    ensures forall n | n in v.own && n.Held? :: n in w.own && w.own[n] == v.own[n]
  {
    hide Apart, Kept, NoLeak, TablesKept;
    forall n | n in w.own && n !in v.own ensures n.Node? && InGroup(v, s, n.space) {
      assert NewNode(v, w, s, from, to, end, n);
    }
  }

  lemma LowWalkable(w: World, s: nat)
    requires LowReady(w, s)
    ensures Walkable(w, s)
  {
  }

  lemma ReshapedKind(v: World, w: World, s: nat, from: nat, to: nat, end: nat)
    requires Reshaped(v, w, s, from, to, end)
    ensures w.kind == v.kind
    ensures forall r | HasSpace(v, r) :: HasSpace(w, r) && w.own[Node(r, Top)] == v.own[Node(r, Top)]
  {
    hide Apart, OwnKept, NewOwn, NoLeak, TablesKept;
  }

  // ---- releasing -------------------------------------------------------------------------------

  // The space has its own tables under entry 0, and the map lies there.
  ghost predicate Footed(w: World, s: nat, words: seq<bv32>) {
    KernelLow(w) && LowReady(w, s) && WORD_BITS * |words| <= LOW_PAGES
  }

  // The world after the release step.
  ghost predicate Step1(v: World, u: World, w: World, s: nat, t: nat, q: Path, frame: nat) {
    && Inv(v) && Inv(u) && Inv(w)
    && Removed(v, u, s, t, q) && w == Given(u, frame, 1)
    && Names(v, Node(t, q), frame) && Limbo(u, frame)
  }

  lemma ReleaseLooks(v: World, u: World, w: World, s: nat, t: nat, q: Path, frame: nat, r: nat, p: Path)
    requires Step1(v, u, w, s, t, q, frame) && Walkable(v, r) && Digits(p) && Depth(p) <= 4 && IsPage(q)
    ensures Look(w, r, p) == if p == q && SameTable(v, r, s, Up(q)) then EMPTY else Look(v, r, p)
  {
    hide Inv;
    GivenInv(u, frame);
    assert Walkable(u, r);
    SameTablesWalk(u, w, r, p);
  }

  lemma ReleasePool(v: World, u: World, w: World, s: nat, t: nat, q: Path, frame: nat)
    requires Step1(v, u, w, s, t, q, frame)
    ensures Pool(w) == Pool(v) && w.kind == v.kind
    ensures w.own == v.own - {Node(t, q)} && w.free == v.free + {frame}
  {
    hide Inv, Removed, Limbo;
    RemovedParts(v, u, s, t, q);
    assert Range(frame, 1) == {frame};
    var c := Node(t, q);
    assert OwnedFrames(v) == OwnedFrames(w) + {frame} by {
      forall f | f in OwnedFrames(v) ensures f in OwnedFrames(w) + {frame} {
        var n :| n in v.own && v.own[n] == f;
        if n != c { assert n in w.own && w.own[n] == f; }
      }
      assert c in v.own;
    }
  }

  lemma RemovedParts(v: World, u: World, s: nat, t: nat, q: Path)
    requires Removed(v, u, s, t, q)
    ensures u.kind == v.kind && u.free == v.free && u.own == v.own - {Node(t, q)}
  {
  }

  // In the space and its process the page is gone.
  lemma ReleaseShared(v: World, s: nat, q: Path)
    requires Inv(v) && KernelLow(v) && LowReady(v, s) && IsPage(q) && Index(q) < LOW_PAGES && Look(v, s, Up(q)) != EMPTY
    ensures SameTable(v, s, s, Up(q)) && SameTable(v, Group(v, s), s, Up(q))
  {
    LowPage(q);
    assert Up(q) != Step(Top, 0) by {
      var d4, d3, d2, d1 := DigitsOfPage(q);
      assert Up(q) == Step(Step(Step(Top, d4), d3), d2);
    }
    LinkedLow(v, s, Up(q));
  }

  lemma ReleaseAgrees(v: World, u: World, w: World, s: nat, t: nat, x: nat, frame: nat, before: seq<bv32>, after: seq<bv32>)
    requires Step1(v, u, w, s, t, PageAt(x), frame) && Usable(v, s, before) && |after| == |before|
    requires FIRST_PAGE <= x < WORD_BITS * |before| && Free(after) == Free(before) + {x}
    requires Look(v, s, Up(PageAt(x))) != EMPTY
    ensures Agrees(w, Group(v, s), after)
  {
    hide Inv, Look, PageAt, KernelLow, LowReady, Step1, Free, Agrees;
    UsableParts(v, s, before);
    Step1Inv(v, u, w, s, t, PageAt(x), frame);
    PageAtIs(x);
    ReleaseShared(v, s, PageAt(x));
    var g := Group(v, s);
    GroupWalkable(v, s);
    assert Agrees(v, g, before);
    AllAgree(w, g, after) by {
      forall y: nat | y < WORD_BITS * |after| ensures AgreesAt(w, g, after, y) {
        PageAtIs(y);
        AgreesHere(v, g, before, y);
        ReleaseLooks(v, u, w, s, t, PageAt(x), frame, g, PageAt(y));
      }
    }
  }

  lemma AgreesHere(w: World, g: nat, words: seq<bv32>, x: nat)
    requires Agrees(w, g, words) && x < WORD_BITS * |words|
    ensures AgreesAt(w, g, words, x)
  {
  }

  lemma AllAgree(w: World, g: nat, words: seq<bv32>)
    requires forall x: nat | x < WORD_BITS * |words| :: AgreesAt(w, g, words, x)
    ensures Agrees(w, g, words)
  {
  }

  lemma GroupSolo(w: World, s: nat)
    requires Inv(w) && Walkable(w, s)
    ensures Group(w, s) in w.kind && w.kind[Group(w, s)] == Solo
  {
  }

  lemma GroupWalkable(w: World, s: nat)
    requires Inv(w) && Walkable(w, s)
    ensures Walkable(w, Group(w, s)) && Group(w, Group(w, s)) == Group(w, s)
  {
  }

  lemma ReleaseApart(v: World, u: World, w: World, s: nat, t: nat, q: Path, frame: nat)
    requires Step1(v, u, w, s, t, q, frame) && Walkable(v, s) && s != KERNEL && IsPage(q)
    requires Process(Look(v, s, Up(q)).flags)
    ensures ApartFrom(v, w, s)
  {
    forall r, p | Walkable(v, r) && Group(v, r) != Group(v, s) && IsPage(p)
      ensures Look(w, r, p) == Look(v, r, p)
    {
      assert IsTable(Up(q)) && Depth(Up(q)) > 0;
      hide Inv, Look, Step1;
      ReleaseLooks(v, u, w, s, t, q, frame, r, p);
      NotShared(v, r, s, Up(q)) by { Step1Inv(v, u, w, s, t, q, frame); }
    }
  }

  lemma Step1Inv(v: World, u: World, w: World, s: nat, t: nat, q: Path, frame: nat)
    requires Step1(v, u, w, s, t, q, frame)
    ensures Inv(v) && Inv(u) && Inv(w)
  {
  }

  // Tables stay where they are.
  ghost predicate TablesLast(v: World, w: World, s: nat) {
    forall p | IsTable(p) && Look(v, s, p) != EMPTY :: Look(w, s, p) == Look(v, s, p)
  }

  lemma ReleaseKeeps(v: World, u: World, w: World, s: nat, t: nat, x: nat, frame: nat, before: seq<bv32>, after: seq<bv32>)
    requires Step1(v, u, w, s, t, PageAt(x), frame) && Footed(v, s, before) && |after| == |before|
    requires x < WORD_BITS * |before| && Free(after) == Free(before) + {x}
    requires Look(v, s, Up(PageAt(x))) != EMPTY && Process(Look(v, s, Up(PageAt(x))).flags)
    ensures Footed(w, s, after) && Private(v, w, s)
    ensures FIRST_PAGE <= x && Agrees(v, Group(v, s), before) ==> Agrees(w, Group(w, s), after)
    ensures TablesLast(v, w, s)
    ensures Look(w, s, PageAt(x)) == EMPTY
    ensures forall y: nat | y < PAGES && y != x :: Look(w, s, PageAt(y)) == Look(v, s, PageAt(y))
  {
    hide Inv, Step1, Look, Agrees, PageAt, Pool, ApartFrom, Free;
    PageAtIs(x);
    Step1Inv(v, u, w, s, t, PageAt(x), frame);
    ReleasePool(v, u, w, s, t, PageAt(x), frame);
    if FIRST_PAGE <= x && Agrees(v, Group(v, s), before) {
      ReleaseAgrees(v, u, w, s, t, x, frame, before, after);
    }
    forall p | IsTable(p) && Look(v, s, p) != EMPTY ensures Look(w, s, p) == Look(v, s, p) {
      ReleaseLooks(v, u, w, s, t, PageAt(x), frame, s, p);
    }
    ReleaseApart(v, u, w, s, t, PageAt(x), frame);
    ReleaseShared(v, s, PageAt(x));
    ReleaseLooks(v, u, w, s, t, PageAt(x), frame, s, Step(Top, 0));
    ReleaseLooks(v, u, w, s, t, PageAt(x), frame, s, PageAt(x));
    OneDeep();
    forall r | LowReady(v, r) ensures LowReady(w, r) {
      forall p | IsTable(p) ensures Look(w, r, p) == Look(v, r, p) {
        ReleaseLooks(v, u, w, s, t, PageAt(x), frame, r, p);
      }
      LowReadySame(v, w, r);
    }
    forall y: nat | y < PAGES && y != x
      ensures Look(w, s, PageAt(y)) == Look(v, s, PageAt(y))
    {
      PageAtIs(y);
      ReleaseLooks(v, u, w, s, t, PageAt(x), frame, s, PageAt(y));
    }
  }

  lemma OneDeep()
    ensures Depth(Step(Top, 0)) == 1 && Digits(Step(Top, 0))
  {
  }

  // What is left of a page that is given back: a shared page stays.
  function Left(e: Entry): Entry {
    if Shared(e.flags) then e else EMPTY
  }

  // A page that may be given back: its table is there, and it is a process's own, shared, or not there.
  ghost predicate Returnable(w: World, s: nat, x: nat) {
    && Look(w, s, Up(PageAt(x))) != EMPTY
    && (Look(w, s, PageAt(x)) != EMPTY ==> Process(Look(w, s, PageAt(x)).flags))
  }

  // What giving back page x does to what the space reads.
  ghost predicate PageReturned(v: World, w: World, s: nat, x: nat) {
    && Look(w, s, PageAt(x)) == Left(Look(v, s, PageAt(x)))
    && (forall y: nat | y < PAGES && y != x :: Look(w, s, PageAt(y)) == Look(v, s, PageAt(y)))
    && TablesLast(v, w, s)
  }

  lemma NothingReturned(w: World, s: nat, x: nat, before: seq<bv32>, after: seq<bv32>)
    requires Footed(w, s, before) && |after| == |before| && x < WORD_BITS * |before| && Free(after) == Free(before) + {x}
    requires Look(w, s, PageAt(x)) == EMPTY || Shared(Look(w, s, PageAt(x)).flags)
    ensures Footed(w, s, after) && Private(w, w, s) && PageReturned(w, w, s, x)
    ensures Usable(w, s, before) && Inv(w) && FIRST_PAGE <= x && Look(w, s, PageAt(x)) == EMPTY ==> Usable(w, s, after)
  {
    hide Inv, Look, PageAt, Free, Agrees, KernelLow, LowReady, Private, AgreesAt;
    NothingPrivate(w, s);
    LowWalkable(w, s);
    if Usable(w, s, before) && Inv(w) && FIRST_PAGE <= x && Look(w, s, PageAt(x)) == EMPTY {
      FreeAlready(w, s, before, x);
      assert Free(after) == Free(before);
      SameMap(w, Group(w, s), before, after);
    }
  }

  lemma FreeAlready(w: World, s: nat, words: seq<bv32>, x: nat)
    requires Inv(w) && Usable(w, s, words) && FIRST_PAGE <= x < WORD_BITS * |words| && Look(w, s, PageAt(x)) == EMPTY
    ensures x in Free(words)
  {
    PageAtIs(x);
    assert AgreesAt(w, Group(w, s), words, x);
    LinkedPage(w, s, PageAt(x));
  }

  lemma SameMap(w: World, g: nat, before: seq<bv32>, after: seq<bv32>)
    requires Agrees(w, g, before) && |after| == |before| && Free(after) == Free(before)
    ensures Agrees(w, g, after)
  {
    hide Look, PageAt, Free;
    forall x: nat | x < WORD_BITS * |after| ensures AgreesAt(w, g, after, x) {
      assert AgreesAt(w, g, before, x);
    }
  }

  // Takes one page out, if it is there and not shared, and frees its frame; and frees its place in the map.
  method ReleaseOne(k: Kernel, ghost s: nat, pml4: nat, words: array<bv32>, x: nat)
    requires k.Valid() && k.withheld == {} && Footed(k.W(), s, words[..]) && k.W().own[Node(s, Top)] == pml4
    requires words != k.bitmap && x < WORD_BITS * words.Length && Returnable(k.W(), s, x)
    modifies k`memory, k`available, k`own, k.bitmap, words
    ensures k.Valid() && Footed(k.W(), s, words[..]) && Private(old(k.W()), k.W(), s)
    ensures Free(words[..]) == old(Free(words[..])) + {x}
    ensures PageReturned(old(k.W()), k.W(), s, x)
    ensures old(Usable(k.W(), s, words[..])) && FIRST_PAGE <= x && !Shared(old(Look(k.W(), s, PageAt(x))).flags) ==> Usable(k.W(), s, words[..])
  {
    hide Inv, Blank, Usable, Private, Look, PageAt, Pool, Bit, Removed, Limbo, Blanked, Footed, Agrees, PageReturned, Returnable;
    ghost var v, before := k.W(), words[..];
    FootedParts(v, s, before);
    ReturnableParts(v, s, before, x);
    PageOfNumber(x);
    var page, t := Remove(k, s, pml4, x * PAGE_BYTES);
    ghost var u := k.W();
    ghost var e := Look(v, s, PageAt(x));
    if page != 0 {
      LimboIs(u, page);
      k.ReleasePage(page);
      GivenInv(u, page);
    }
    ghost var w := k.W();
    Dispose(words, x, 1);
    assert Range(x, 1) == {x};
    assert k.W() == w;
    if Shared(e.flags) || e == EMPTY {
      NothingReturned(v, s, x, before, words[..]);
      SharedKeeps(v, s, before, words[..], e, x);
    } else {
      FrameIsReal(v, Node(t, PageAt(x)), page);
      OwnReturned(v, u, w, s, t, x, page, before, words[..]);
    }
  }

  lemma OwnReturned(v: World, u: World, w: World, s: nat, t: nat, x: nat, page: nat, before: seq<bv32>, after: seq<bv32>)
    requires Step1(v, u, w, s, t, PageAt(x), page) && Footed(v, s, before) && |after| == |before|
    requires x < WORD_BITS * |before| && Free(after) == Free(before) + {x}
    requires Look(v, s, Up(PageAt(x))) != EMPTY && Process(Look(v, s, Up(PageAt(x))).flags)
    requires Look(v, s, PageAt(x)) != EMPTY && !Shared(Look(v, s, PageAt(x)).flags)
    ensures Footed(w, s, after) && Private(v, w, s) && PageReturned(v, w, s, x)
    ensures Usable(v, s, before) && FIRST_PAGE <= x ==> Usable(w, s, after)
  {
    hide Inv, Step1, Look, PageAt, Usable, Footed, Private, Agrees, PageReturned, TablesLast;
    FootedParts(v, s, before);
    ReleaseKeeps(v, u, w, s, t, x, page, before, after);
    FootedParts(w, s, after);
    ReturnedIs(v, w, s, x);
    NowUsable(v, w, s, before, after, x);
  }

  lemma FootedParts(w: World, s: nat, words: seq<bv32>)
    requires Footed(w, s, words)
    ensures KernelLow(w) && LowReady(w, s) && Walkable(w, s) && s != KERNEL && WORD_BITS * |words| <= LOW_PAGES
  {
  }

  lemma ReturnableParts(w: World, s: nat, words: seq<bv32>, x: nat)
    requires Inv(w) && Footed(w, s, words) && x < WORD_BITS * |words| && Returnable(w, s, x)
    ensures Look(w, s, Up(PageAt(x))) != EMPTY && Process(Look(w, s, Up(PageAt(x))).flags)
    ensures Look(w, s, PageAt(x)) != EMPTY && !Shared(Look(w, s, PageAt(x)).flags) ==> Owned(Look(w, s, PageAt(x)).flags)
  {
    PageAtIs(x);
    LowPage(PageAt(x));
    LowTables(w, s, Up(PageAt(x)));
  }

  lemma SharedKeeps(w: World, s: nat, before: seq<bv32>, after: seq<bv32>, e: Entry, x: nat)
    requires Footed(w, s, after) && (Usable(w, s, before) && FIRST_PAGE <= x && e == EMPTY ==> Usable(w, s, after))
    requires Shared(e.flags) || e == EMPTY
    ensures Usable(w, s, before) && FIRST_PAGE <= x && !Shared(e.flags) ==> Usable(w, s, after)
  {
  }

  lemma ReturnedIs(v: World, w: World, s: nat, x: nat)
    requires Look(v, s, PageAt(x)) != EMPTY && !Shared(Look(v, s, PageAt(x)).flags)
    requires Look(w, s, PageAt(x)) == EMPTY && TablesLast(v, w, s)
    requires forall y: nat | y < PAGES && y != x :: Look(w, s, PageAt(y)) == Look(v, s, PageAt(y))
    ensures PageReturned(v, w, s, x)
  {
    hide Look, PageAt;
  }

  lemma NowUsable(v: World, w: World, s: nat, before: seq<bv32>, after: seq<bv32>, x: nat)
    requires Footed(w, s, after)
    requires s in v.kind && s in w.kind && (FIRST_PAGE <= x && Agrees(v, Group(v, s), before) ==> Agrees(w, Group(w, s), after))
    ensures Usable(v, s, before) && FIRST_PAGE <= x ==> Usable(w, s, after)
  {
    hide Agrees;
  }

  lemma FrameIsReal(w: World, n: Node, f: nat)
    requires Inv(w) && Names(w, n, f)
    ensures 0 < f < |w.memory| && f !in w.free
  {
  }

  lemma LimboIs(w: World, f: nat)
    requires Limbo(w, f)
    ensures 0 < f < |w.memory| && f !in w.free
  {
  }

  // n pages from p are given back, and the other pages are as they were.
  ghost predicate Emptied(v: World, w: World, s: nat, p: nat, n: nat) {
    && (forall y: nat | y < PAGES :: Look(w, s, PageAt(y)) == if p <= y < p + n then Left(Look(v, s, PageAt(y))) else Look(v, s, PageAt(y)))
    && TablesLast(v, w, s)
  }

  // And their places in the map are free.
  ghost predicate GivenBack(v: World, w: World, s: nat, before: set<nat>, after: set<nat>, p: nat, n: nat) {
    Emptied(v, w, s, p, n) && after == before + Range(p, n)
  }

  lemma EmptiedNone(v: World, s: nat, p: nat)
    ensures Emptied(v, v, s, p, 0)
  {
  }

  lemma NotEmptiedYet(v: World, w: World, s: nat, p: nat, n: nat)
    requires Emptied(v, w, s, p, n) && p + n < PAGES && Returnable(v, s, p + n)
    ensures Look(w, s, PageAt(p + n)) == Look(v, s, PageAt(p + n)) && Returnable(w, s, p + n)
  {
    PageAtIs(p + n);
    assert IsTable(Up(PageAt(p + n)));
    hide Look, PageAt;
  }

  lemma EmptiedOn(u: World, v: World, w: World, s: nat, p: nat, n: nat)
    requires Emptied(u, v, s, p, n) && p + n < PAGES && PageReturned(v, w, s, p + n)
    ensures Emptied(u, w, s, p, n + 1)
  {
    hide Look, PageAt;
  }

  // n pages from p lie in the map and may be given back.
  ghost predicate Lent(w: World, s: nat, size: nat, p: nat, n: nat) {
    p + n <= size && forall x: nat | p <= x < p + n :: Returnable(w, s, x)
  }

  // They are managed pages, and none is shared.
  ghost predicate Unshared(w: World, s: nat, p: nat, n: nat) {
    forall x: nat | p <= x < p + n :: UnsharedPage(w, s, x)
  }

  ghost predicate UnsharedPage(w: World, s: nat, x: nat) {
    x >= FIRST_PAGE && !Shared(Look(w, s, PageAt(x)).flags)
  }

  // Where the place to give back begins, the kernel's part of the address left off.
  function Start(address: nat): nat {
    address % 0x8000_0000_0000
  }

  // A page is given back: its place is free, and unless it is shared nothing is there.
  ghost predicate Returned(v: World, w: World, s: nat, after: set<nat>, x: nat) {
    x in after && Look(w, s, PageAt(x)) == if Carries(Look(v, s, PageAt(x)).flags, 0x400) then Look(v, s, PageAt(x)) else EMPTY
  }

  ghost predicate ReturnedByte(v: World, w: World, s: nat, after: set<nat>, a: nat) {
    Returned(v, w, s, after, a / 4096)
  }

  // The pages are counted from the one the address lies in, as many as so many bytes need from the beginning of a
  // page: every byte that lies in one of these is given back, and no other page.
  ghost predicate BytesReturned(v: World, w: World, s: nat, before: set<nat>, after: set<nat>, address: nat, bytes: nat) {
    && (forall a: nat | Start(address) <= a < Start(address) + bytes && a - Start(address) / 4096 * 4096 < 4096 * ((bytes + 4095) / 4096) ::
          ReturnedByte(v, w, s, after, a))
    && forall x: nat | x < PAGES && (Look(w, s, PageAt(x)) != Look(v, s, PageAt(x)) || (x in after && x !in before)) ::
         Start(address) / 4096 <= x < Start(address) / 4096 + (bytes + 4095) / 4096
  }

  // So all of them are if the last byte lies in the last of these pages.
  lemma AllReturned(v: World, w: World, s: nat, before: set<nat>, after: set<nat>, address: nat, bytes: nat)
    requires BytesReturned(v, w, s, before, after, address, bytes)
    requires Start(address) % 4096 + bytes <= 4096 * ((bytes + 4095) / 4096)
    ensures forall a: nat | Start(address) <= a < Start(address) + bytes :: ReturnedByte(v, w, s, after, a)
  {
    hide Returned, Start, Look, PageAt;
  }

  // And otherwise the page of the last byte is as it was.
  lemma LastKept(v: World, w: World, s: nat, before: set<nat>, after: set<nat>, address: nat, bytes: nat)
    requires BytesReturned(v, w, s, before, after, address, bytes) && bytes > 0 && Start(address) + bytes <= PAGES * 4096
    requires Start(address) % 4096 + bytes > 4096 * ((bytes + 4095) / 4096)
    ensures var x := (Start(address) + bytes - 1) / 4096;
            Look(w, s, PageAt(x)) == Look(v, s, PageAt(x)) && (x in after ==> x in before)
  {
    hide Returned, Start, Look, PageAt;
    LastPage(Start(address), bytes);
  }

  lemma LastPage(start: nat, bytes: nat)
    requires bytes > 0 && start % 4096 + bytes > 4096 * ((bytes + 4095) / 4096) && start + bytes <= PAGES * 4096
    ensures start / 4096 + (bytes + 4095) / 4096 <= (start + bytes - 1) / 4096 < PAGES
  {
    var n := (bytes + 4095) / 4096;
    assert start + bytes - 1 >= start / 4096 * 4096 + n * 4096;
    assert (start / 4096 + n) * 4096 <= start + bytes - 1;
  }

  lemma GivenBytes(v: World, w: World, s: nat, before: set<nat>, after: set<nat>, address: nat, bytes: nat)
    requires GivenBack(v, w, s, before, after, FirstReturned(address), PagesFor(bytes)) && FirstReturned(address) + PagesFor(bytes) <= PAGES
    ensures BytesReturned(v, w, s, before, after, address, bytes)
  {
    SharedBit();
    WholePages(address, bytes);
    hide Look, PageAt, PagesFor, FirstReturned, Start, Carries, Shared;
    var p, n := FirstReturned(address), PagesFor(bytes);
    forall a: nat | Start(address) <= a < Start(address) + bytes && a - Start(address) / 4096 * 4096 < 4096 * ((bytes + 4095) / 4096)
      ensures ReturnedByte(v, w, s, after, a)
    {
      assert p <= a / 4096 < p + n by { PageInside(a, p, n); }
      assert a / 4096 in Range(p, n);
    }
  }

  lemma WholePages(address: nat, bytes: nat)
    ensures FirstReturned(address) == Start(address) / 4096 && PagesFor(bytes) == (bytes + 4095) / 4096
  {
  }

  lemma PageInside(a: nat, p: nat, n: nat)
    requires p * 4096 <= a && a - p * 4096 < 4096 * n
    ensures p <= a / 4096 < p + n
  {
  }

  lemma SharedBit()
    ensures forall f: bv12 :: Shared(f) <==> Carries(f, 0x400)
  {
  }

  // Takes back `bytes` of memory from an address: the pages become free in the map, and those that are not
  // shared are unmapped, and their frames are free and blank. Map and tables agree afterwards if and only if
  // all pages are managed ones and none is shared: a shared page stays mapped.
  method UserRelease(k: Kernel, ghost s: nat, pml4: nat, words: array<bv32>, address: nat, bytes: nat)
    requires k.Valid() && k.withheld == {} && Usable(k.W(), s, words[..]) && k.W().own[Node(s, Top)] == pml4
    requires words != k.bitmap
    requires Lent(k.W(), s, WORD_BITS * words.Length, FirstReturned(address), PagesFor(bytes))
    modifies k`memory, k`available, k`own, k.bitmap, words
    ensures k.Valid() && Private(old(k.W()), k.W(), s)
    ensures Usable(k.W(), s, words[..]) <==> Unshared(old(k.W()), s, FirstReturned(address), PagesFor(bytes))
    ensures GivenBack(old(k.W()), k.W(), s, old(Free(words[..])), Free(words[..]), FirstReturned(address), PagesFor(bytes))
    ensures BytesReturned(old(k.W()), k.W(), s, old(Free(words[..])), Free(words[..]), address, bytes)
  {
    hide BytesReturned, Inv, Usable, Footed, Private, Look, PageAt, Pool, Bit, Free, Emptied, Returnable, Unshared, PageReturned, Shared, Kernel.W, Kernel.Frames;
    ghost var v, before := k.W(), Free(words[..]);
    EmptiedNone(v, s, FirstReturned(address));
    var p, n := FirstReturned(address), PagesFor(bytes);
    NothingPrivate(v, s);
    UsableIsFooted(v, s, words[..]);
    NoneUnshared(v, s, p);
    assert Range(p, 0) == {};
    var i := p;
    while i < p + n
      invariant p <= i <= p + n
      invariant k.Valid() && k.withheld == {} && Footed(k.W(), s, words[..]) && Private(v, k.W(), s)
      invariant Walkable(k.W(), s) && k.W().own[Node(s, Top)] == pml4
      invariant Free(words[..]) == before + Range(p, i - p)
      invariant Emptied(v, k.W(), s, p, i - p)
      invariant Unshared(v, s, p, i - p) ==> Usable(k.W(), s, words[..])
    {
      ghost var w := k.W();
      FootedParts(w, s, words[..]);
      NotEmptiedYet(v, w, s, p, i - p);
      ReleaseOne(k, s, pml4, words, i);
      FootedParts(k.W(), s, words[..]);
      PrivateOn(v, w, k.W(), s);
      assert Range(p, i + 1 - p) == Range(p, i - p) + {i};
      EmptiedOn(v, w, k.W(), s, p, i - p);
      if Unshared(v, s, p, i + 1 - p) {
        OneMoreUnshared(v, s, p, i - p);
      }
      i := i + 1;
    }
    if !Unshared(v, s, p, n) {
      SharedStays(v, k.W(), s, words[..], p, n);
    }
    FootedParts(k.W(), s, words[..]);
    GivenBytes(v, k.W(), s, before, Free(words[..]), address, bytes);
  }

  lemma UsableIsFooted(w: World, s: nat, words: seq<bv32>)
    requires Usable(w, s, words)
    ensures Footed(w, s, words) && Walkable(w, s)
  {
  }

  lemma NoneUnshared(w: World, s: nat, p: nat)
    ensures Unshared(w, s, p, 0)
  {
  }

  lemma OneMoreUnshared(w: World, s: nat, p: nat, n: nat)
    requires Unshared(w, s, p, n + 1)
    ensures Unshared(w, s, p, n) && p + n >= FIRST_PAGE && !Shared(Look(w, s, PageAt(p + n)).flags)
  {
    hide Look, PageAt, Shared;
    assert UnsharedPage(w, s, p + n);
  }

  // A shared page is free in the map and still mapped; a page below the first one is free though never managed.
  lemma SharedStays(v: World, w: World, s: nat, words: seq<bv32>, p: nat, n: nat)
    requires Inv(w) && Emptied(v, w, s, p, n) && !Unshared(v, s, p, n) && Range(p, n) <= Free(words)
    requires Footed(w, s, words) && p + n <= WORD_BITS * |words|
    ensures !Usable(w, s, words)
  {
    hide Look, PageAt, Free, Inv;
    var x: nat :| p <= x < p + n && !UnsharedPage(v, s, x);
    assert x in Range(p, n);
    FootedParts(w, s, words);
    EmptyIsNotShared();
    if Usable(w, s, words) {
      AllocatedOrFree(w, s, words, x);
    }
  }

  lemma EmptyIsNotShared()
    ensures !Shared(EMPTY.flags)
  {
  }

  lemma AllocatedOrFree(w: World, s: nat, words: seq<bv32>, x: nat)
    requires Inv(w) && Usable(w, s, words) && x < WORD_BITS * |words|
    ensures x in Free(words) <==> x >= FIRST_PAGE && Look(w, s, PageAt(x)) == EMPTY
  {
    PageAtIs(x);
    assert AgreesAt(w, Group(w, s), words, x);
    LinkedPage(w, s, PageAt(x));
  }

  lemma PrivateOn(u: World, v: World, w: World, s: nat)
    requires Private(u, v, s) && Private(v, w, s) && Walkable(v, s)
    ensures Private(u, w, s)
    ensures w.own[Node(s, Top)] == v.own[Node(s, Top)]
  {
    hide Look, Pool;
  }
}
