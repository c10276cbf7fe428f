// Pages of one space shown in another, and pages of the kernel with other flags.
module Sharing {
  import opened Bitmap
  import opened Layout
  import opened Spaces
  import opened Memory
  import opened Reshaping
  import opened Pages
  import opened Paging
  import opened Teardown
  import opened Merging
  import opened Lifecycle
  import opened UserMemory

  // Pages from..to of space s show the frames that pages a.. of space r had.
  ghost predicate Shown(v: World, w: World, s: nat, from: nat, to: nat, r: nat, a: nat, flags: bv12) {
    forall q | InRange(q, from, to) :: Look(w, s, q) == Entry(Look(v, r, PageAt(a + (Index(q) - from))).frame, flags)
  }

  // The tables over `count` pages from a are there.
  ghost predicate Readable(v: World, r: nat, a: nat, count: nat) {
    && Walkable(v, r) && a + count <= PAGES
    && forall x: nat | a <= x < a + count :: Look(v, r, Up(PageAt(x))) != EMPTY
  }

  // No page is read after it was written.
  ghost predicate Steady(v: World, s: nat, from: nat, r: nat, a: nat, count: nat) {
    || from <= a
    || a + count <= from
    || (s != KERNEL && r in v.kind && s in v.kind && Group(v, r) != Group(v, s))
  }

  // Where nothing was mapped, or the kernel owns no pages, nothing is lost.
  ghost predicate Spared(v: World, w: World, s: nat, from: nat, count: nat) {
    (s == KERNEL || forall q | InRange(q, from, from + count) :: Look(v, s, q) == EMPTY) ==>
      OwnGrows(v, w) && Pool(w) == Pool(v)
  }

  ghost predicate Sharing(v: World, w: World, s: nat, from: nat, done: nat, count: nat, r: nat, a: nat, flags: bv12) {
    && BuildAt(v, w, s, from, from + done, from + count)
    && Shown(v, w, s, from, from + done, r, a, flags)
    && Spared(v, w, s, from, count)
    && Paid(v, w, s, from, done, count)
    && Tagged(v, w, from, from + count, flags)
  }

  // Every frame that is not free any more became a table that was missing over one of the pages done or
  // the one after.
  ghost predicate Paid(v: World, w: World, s: nat, from: nat, done: nat, count: nat) {
    && Spent(v, w, s, TablesOver(from, from + count))
    && Lasting(v, w, s, TablesOver(from, from + count))
    && Filled(v, w, s, TablesOver(from, from + count)) <= TablesOver(from, from + done + 1)
  }

  // The run cannot go on: a table is missing over the next page and no frame is free.
  ghost predicate Stuck(w: World, s: nat, at: nat) {
    w.free == {} && exists c :: c in TablesOver(at, at + 1) && Look(w, s, c) == EMPTY
  }

  // The free frames suffice for the tables that are missing over n pages.
  ghost predicate Suffices(v: World, s: nat, from: nat, n: nat) {
    |Missing(v, s, TablesOver(from, from + n))| <= |v.free|
  }

  // The run goes exactly as far as the free frames suffice for the tables that are missing.
  ghost predicate Stretch(v: World, s: nat, from: nat, done: nat, count: nat) {
    forall d: nat | d <= count && from + d <= PAGES :: d <= done <==> Suffices(v, s, from, d)
  }

  lemma PaidStarts(w: World, s: nat, from: nat, count: nat)
    ensures Paid(w, w, s, from, 0, count)
  {
    SpentNothing(w, s, TablesOver(from, from + count));
    assert Filled(w, w, s, TablesOver(from, from + count)) == {};
  }

  lemma PaidGrew(v: World, w: World, x: World, s: nat, from: nat, done: nat, count: nat)
    requires Paid(v, w, s, from, done, count) && AtMostOne(w, x, s, from + done, from + done + 1) && done < count
    ensures Paid(v, x, s, from, done, count)
  {
    hide Spent, Lasting, TablesOver, Needed, Look, Depth, Digits;
    var ps := TablesOver(from, from + count);
    TablesWithin(from + done, from + done + 1, from, from + count);
    TablesWithin(from + done, from + done + 1, from, from + done + 1);
    TablesAreNoPages(from, from + count, 0, 0);
    SpentGrew(v, w, x, s, from + done, from + done + 1, ps);
    if x != w {
      var c, g :| Needed(c, from + done, from + done + 1) && OneFilled(w, x, s, c, g);
      TablesOverIs(from + done, from + done + 1, c);
      assert Filled(v, x, s, ps) <= Filled(v, w, s, ps) + {c};
    }
  }

  lemma LeafShowsInNoTable(w: World, s: nat, n: Node, i: nat, e: Entry, p: Path)
    requires Inv(w) && Walkable(w, s) && CanHoldLeaf(w, n, i, e) && IsTable(p)
    ensures Look(WithLeaf(w, n, i, e), s, p) == Look(w, s, p)
  {
    hide Inv, Look;
    LeafWalk(w, n, i, e, s, p);
  }

  lemma SameFilled(v: World, w: World, x: World, s: nat, ps: set<Path>)
    requires forall p | p in ps :: Look(x, s, p) == Look(w, s, p)
    ensures Filled(v, x, s, ps) == Filled(v, w, s, ps)
  {
    hide Look;
  }

  lemma PaidLeaf(v: World, w: World, s: nat, from: nat, done: nat, count: nat, n: Node, i: nat, e: Entry)
    requires Paid(v, w, s, from, done, count) && Inv(w) && Walkable(w, s) && CanHoldLeaf(w, n, i, e)
    ensures Paid(v, WithLeaf(w, n, i, e), s, from, done + 1, count)
  {
    hide Inv, CanHoldLeaf, Spent, Lasting, TablesOver, Look, WithLeaf, IsTable;
    var ps := TablesOver(from, from + count);
    LeafPlace(w, n, i, e);
    LeafOwners(w, n, i, e);
    var x := WithLeaf(w, n, i, e);
    TablesAreNoPages(from, from + count, 0, 0);
    TablesWithin(from, from + done + 1, from, from + done + 2);
    forall p | p in ps ensures Look(x, s, p) == Look(w, s, p) {
      LeafShowsInNoTable(w, s, n, i, e, p);
    }
    SpentSame(v, w, x, s, ps);
    SameFilled(v, w, x, s, ps);
  }

  lemma PaidStretch(v: World, w: World, s: nat, from: nat, done: nat, count: nat)
    requires Paid(v, w, s, from, done, count) && done <= count
    requires forall q | InRange(q, from, from + done) :: Look(w, s, q) != EMPTY
    requires done == count || from + done >= PAGES || Stuck(w, s, from + done)
    ensures Stretch(v, s, from, done, count)
  {
    hide Look, TablesOver, InRange, Lasting;
    forall d: nat | d <= count && from + d <= PAGES ensures d <= done <==> Suffices(v, s, from, d) {
      TablesWithin(from, from + d, from, from + count);
      if d <= done {
        Ranges(from, from + d, from + done);
        TablesThere(w, s, from, from + d);
        SubsetSize(Missing(v, s, TablesOver(from, from + d)), Filled(v, w, s, TablesOver(from, from + count)));
      } else {
        var c :| c in TablesOver(from + done, from + done + 1) && Look(w, s, c) == EMPTY;
        TablesWithin(from + done, from + done + 1, from, from + d);
        TablesWithin(from, from + done + 1, from, from + d);
        EmptyBefore(v, w, s, TablesOver(from, from + count), c);
        SubsetSize(Filled(v, w, s, TablesOver(from, from + count)) + {c}, Missing(v, s, TablesOver(from, from + d)));
      }
    }
  }

  lemma EmptyBefore(v: World, w: World, s: nat, ps: set<Path>, c: Path)
    requires Lasting(v, w, s, ps) && c in ps && Look(w, s, c) == EMPTY
    ensures Look(v, s, c) == EMPTY
  {
  }

  lemma Ranges(from: nat, to: nat, end: nat)
    requires to <= end
    ensures forall q | InRange(q, from, to) :: InRange(q, from, end)
  {
  }

  lemma TablesThere(w: World, s: nat, from: nat, to: nat)
    requires forall q | InRange(q, from, to) :: Look(w, s, q) != EMPTY
    ensures forall p | p in TablesOver(from, to) :: Look(w, s, p) != EMPTY
  {
    AllThere(w, s, from, to);
    hide Look;
    assert forall p | p in TablesOver(from, to) :: p in Positions(from, to);
  }

  lemma SharingStarts(w: World, s: nat, from: nat, count: nat, r: nat, a: nat, flags: bv12)
    requires Inv(w) && Walkable(w, s) && Open(w, s, from, from + count)
    ensures Sharing(w, w, s, from, 0, count, r, a, flags)
  {
    hide Tagged, Inv, Walkable, Open, BuildAt, Paid;
    TaggedNot(w, from, from + count, flags);
    BuildStarts(w, s, from, from + count);
    PaidStarts(w, s, from, count);
  }

  lemma SharingRoot(v: World, w: World, s: nat, from: nat, done: nat, count: nat, r: nat, a: nat, flags: bv12)
    requires Sharing(v, w, s, from, done, count, r, a, flags)
    ensures Node(s, Top) in v.own && OnPath(w, s, Node(s, Top), v.own[Node(s, Top)])
  {
    hide Tagged, BuildAt, OnPath, Spared, Paid;
    BuildRoot(v, w, s, from, from + done, from + count);
  }

  lemma SharingDone(v: World, w: World, s: nat, from: nat, done: nat, count: nat, r: nat, a: nat, flags: bv12)
    requires Sharing(v, w, s, from, done, count, r, a, flags)
    ensures Inv(w) && Reshaped(v, w, s, from, from + done, from + count) && Open(w, s, from, from + count)
    ensures Shown(v, w, s, from, from + done, r, a, flags) && Spared(v, w, s, from, count)
    ensures Tagged(v, w, from, from + count, flags) && Granted(v, w, s, from, from + done, flags)
  {
    TaggedGrants(v, w, s, from, from + done, from + count, flags);
    hide Tagged, Granted, Inv, Reshaped, Open, Spared, Paid;
  }

  // Where the run ended tells how many tables the free frames sufficed for.
  lemma SharingStretch(v: World, w: World, s: nat, from: nat, done: nat, count: nat, r: nat, a: nat, flags: bv12)
    requires Sharing(v, w, s, from, done, count, r, a, flags) && done <= count && flags != 0
    requires done == count || from + done >= PAGES || Stuck(w, s, from + done)
    ensures Stretch(v, s, from, done, count)
  {
    hide Tagged, Inv, BuildAt, Look, PageAt, Spared, Paid, Stuck, InRange;
    PaidStretch(v, w, s, from, done, count);
  }

  lemma SharingGrew(v: World, w: World, x: World, s: nat, from: nat, done: nat, count: nat, r: nat, a: nat, flags: bv12)
    requires Shown(v, w, s, from, from + done, r, a, flags) && Spared(v, w, s, from, count) && Grew(w, x, s)
    ensures Shown(v, x, s, from, from + done, r, a, flags) && Spared(v, x, s, from, count)
  {
    hide PathsStay, PagesStay, Pool, Look;
  }

  // A leaf that claims nothing, put where nothing was owned, changes no owner.
  lemma LeafSpares(w: World, n: Node, i: nat, e: Entry)
    requires Inv(w) && CanHoldLeaf(w, n, i, e) && !Owned(e.flags)
    requires Cell(w, n, i) == EMPTY || n.space == KERNEL
    ensures WithLeaf(w, n, i, e).own == w.own && WithLeaf(w, n, i, e).free == w.free
  {
    var c := Node(n.space, Step(n.path, i));
    assert c in w.own ==> Hung(w, c);
  }

  lemma SharingLeaf(v: World, w: World, s: nat, from: nat, done: nat, count: nat, r: nat, a: nat, flags: bv12, n: Node, i: nat, e: Entry)
    requires Sharing(v, w, s, from, done, count, r, a, flags) && done < count
    requires IsTableAt(w, n) && i < ENTRIES && OnPath(w, s, n, w.own[n]) && CanHoldLeaf(w, n, i, e)
    requires InRange(Step(n.path, i), from + done, from + done + 1) && !Owned(flags)
    requires e == Entry(Look(v, r, PageAt(a + done)).frame, flags)
    ensures Paid(v, WithLeaf(w, n, i, e), s, from, done + 1, count)
    ensures Shown(v, WithLeaf(w, n, i, e), s, from, from + done + 1, r, a, flags)
    ensures Spared(v, WithLeaf(w, n, i, e), s, from, count)
  {
    hide Tagged, BuildAt, Inv, OwnGrows, CanHoldLeaf, WithLeaf, OnPath, Pool, PageAt, Look, Owned, Cell, Paid;
    var x := WithLeaf(w, n, i, e);
    OnPathTable(w, s, n, w.own[n]);
    PaidLeaf(v, w, s, from, done, count, n, i, e) by { BuildInv(v, w, s, from, from + done, from + count); }
    NotYet(v, w, s, from, from + done, from + count, n, i);
    BuildInv(v, w, s, from, from + done, from + count);
    forall q | InRange(q, from, from + done + 1)
      ensures Look(x, s, q) == Entry(Look(v, r, PageAt(a + (Index(q) - from))).frame, flags)
    {
      LeafReads(w, s, n, i, e, q);
      if !InRange(q, from, from + done) {
        IndexInjective(q, Step(n.path, i));
      }
    }
    if s == KERNEL || forall q | InRange(q, from, from + count) :: Look(v, s, q) == EMPTY {
      assert InRange(Step(n.path, i), from, from + count);
      SameSide(w, s, n);
      LeafSpares(w, n, i, e);
      SameOwners(v, w, x);
    }
  }

  lemma SameSide(w: World, s: nat, n: Node)
    requires n in w.own && OnPath(w, s, n, w.own[n])
    ensures n.space == KERNEL <==> s == KERNEL
  {
  }

  lemma SameOwners(v: World, w: World, x: World)
    requires OwnGrows(v, w) && Pool(w) == Pool(v) && x.own == w.own && x.free == w.free
    ensures OwnGrows(v, x) && Pool(x) == Pool(v)
  {
  }

  // What is read next is still what was there at the start.
  lemma SourceSteady(v: World, w: World, s: nat, from: nat, done: nat, count: nat, r: nat, a: nat)
    requires BuildAt(v, w, s, from, from + done, from + count) && done < count
    requires Readable(v, r, a, count) && Steady(v, s, from, r, a, count)
    ensures Walkable(w, r) && w.own[Node(r, Top)] == v.own[Node(r, Top)]
    ensures Look(w, r, Up(PageAt(a + done))) != EMPTY
    ensures Look(w, r, PageAt(a + done)) == Look(v, r, PageAt(a + done))
  {
    hide BuildAt, Inv, Look, PageAt, Walkable;
    assert Look(v, r, Up(PageAt(a + done))) != EMPTY;
    PageAtIs(a + done);
    BuildInv(v, w, s, from, from + done, from + count);
    BuildWalkable(v, w, s, from, from + done, from + count, r);
    BuildTables(v, w, s, from, from + done, from + count, r, PageAt(a + done));
    if InRange(PageAt(a + done), from, from + done) {
      BuildApart(v, w, s, from, from + done, from + count, r, PageAt(a + done));
    } else {
      BuildOutside(v, w, s, from, from + done, from + count, r, PageAt(a + done));
    }
  }

  lemma BuildWalkable(v: World, w: World, s: nat, from: nat, to: nat, end: nat, r: nat)
    requires BuildAt(v, w, s, from, to, end) && Walkable(v, r)
    ensures Walkable(w, r) && Walkable(w, s) && w.kind == v.kind && w.own[Node(r, Top)] == v.own[Node(r, Top)]
  {
    hide Inv, Apart, OwnKept, NewOwn, NoLeak, NewTables, TablesKept, Open;
  }

  lemma BuildTables(v: World, w: World, s: nat, from: nat, to: nat, end: nat, r: nat, q: Path)
    requires BuildAt(v, w, s, from, to, end) && Walkable(v, r) && IsPage(q) && Look(v, r, Up(q)) != EMPTY
    ensures Look(w, r, Up(q)) != EMPTY
  {
    hide Inv, Apart, Kept, OwnKept, NewOwn, NoLeak, NewTables, Open;
    assert IsTable(Up(q));
  }

  // A page of another process is not in a table the run writes.
  lemma BuildApart(v: World, w: World, s: nat, from: nat, to: nat, end: nat, r: nat, q: Path)
    requires BuildAt(v, w, s, from, to, end) && Walkable(v, r) && InRange(q, from, to) && to <= end
    requires s != KERNEL && Group(v, r) != Group(v, s)
    ensures Look(w, r, q) == Look(v, r, q)
  {
    BuildWalkable(v, w, s, from, to, end, r);
    hide Inv, OwnKept, NewOwn, NoLeak, NewTables, TablesKept, Kept;
    assert InRange(q, from, end);
    assert OpenPage(w, s, q);
    assert IsTable(Up(q)) && Depth(Up(q)) > 0;
    NotShared(w, r, s, Up(q));
  }

  // Page numbers follow addresses.
  lemma PageOfNext(address: nat, i: nat)
    requires PageOf(address) + i < PAGES
    ensures PageOf(address + i * PAGE_BYTES) == PageOf(address) + i
  {
    var b := address % CANONICAL_BYTES;
    assert (address + i * PAGE_BYTES) % CANONICAL_BYTES == b + i * PAGE_BYTES;
  }

  // One step down of a sharing run.
  method ShareDown(k: Kernel, ghost v: World, ghost s: nat, ghost from: nat, ghost done: nat, ghost count: nat,
                   ghost r: nat, ghost a: nat, ghost n: Node, table: nat, i: nat, flags: bv12, ghost q: Path)
    returns (next: nat, ghost c: Node)
    requires k.Frames() && Sharing(v, k.W(), s, from, done, count, r, a, flags) && done < count
    requires n.Node? && OnPath(k.W(), s, n, table) && Depth(n.path) < 3 && i < ENTRIES
    requires IsPage(q) && Index(q) == from + done && Over(Step(n.path, i), q)
    requires Process(flags) <==> s != KERNEL
    modifies k`memory, k`available, k`own, k.bitmap
    ensures k.Frames() && Sharing(v, k.W(), s, from, done, count, r, a, flags)
    ensures next == 0 ==> Stuck(k.W(), s, from + done)
    ensures next != 0 ==> c.Node? && c.path == Step(n.path, i) && OnPath(k.W(), s, c, next)
    ensures PathsStay(old(k.W()), k.W(), s)
  {
    hide Tagged, BuildAt, Shown, Spared, Paid, OnPath, Over, IsPage, Depth, Index, PathsStay, OwnGrows, Pool, PagesStay, Limbo, AtMostOne, Needed, TablesOver, Look;
    ghost var w := k.W();
    next, c := Down(k, v, s, from, from + done, from + count, n, table, i, flags, q);
    TaggedOn(v, w, k.W(), from, from + count, from + done, from + done + 1, flags);
    SharingGrew(v, w, k.W(), s, from, done, count, r, a, flags);
    PaidGrew(v, w, k.W(), s, from, done, count);
    if next == 0 {
      TablesOverIs(from + done, from + done + 1, Step(n.path, i));
    }
  }

  // One page of a sharing run.
  method SharePage(k: Kernel, ghost v: World, ghost s: nat, ghost from: nat, ghost done: nat, ghost count: nat,
                   ghost r: nat, ghost a: nat, ghost n: Node, table: nat, i: nat, frame: nat, flags: bv12)
    requires k.Frames() && Sharing(v, k.W(), s, from, done, count, r, a, flags) && done < count
    requires n.Node? && OnPath(k.W(), s, n, table) && Depth(n.path) == 3 && i < ENTRIES
    requires InRange(Step(n.path, i), from + done, from + done + 1)
    requires frame == Look(v, r, PageAt(a + done)).frame
    requires (Process(flags) <==> s != KERNEL) && !Owned(flags)
    modifies k`memory, k`own
    ensures k.Frames() && Sharing(v, k.W(), s, from, done + 1, count, r, a, flags)
    ensures PathsStay(old(k.W()), k.W(), s)
  {
    hide Inv, Tagged, BuildAt, Shown, Spared, Paid, OnPath, PathsStay, WithLeaf, CanHoldLeaf, Limbo, Process, Owned, InRange, Look, PageAt;
    ghost var w := k.W();
    BuildInv(v, w, s, from, from + done, from + count);
    OnPathTable(w, s, n, table);
    PutLeaf(k, v, s, from, from + done, from + count, n, table, i, Entry(frame, flags));
    LeafTaggedOn(v, w, n, i, Entry(frame, flags), from, from + count, flags);
    SharingLeaf(v, w, s, from, done, count, r, a, flags, n, i, Entry(frame, flags));
  }

  // The next page of a sharing run is read from the source.
  method ShareNext(k: Kernel, ghost v: World, ghost s: nat, ghost from: nat, ghost done: nat, ghost count: nat,
                   ghost r: nat, cr3: nat, ghost source: nat, address: nat, ghost n: Node, table: nat, i: nat, flags: bv12)
    requires k.Frames() && Sharing(v, k.W(), s, from, done, count, r, PageOf(source), flags) && done < count
    requires Readable(v, r, PageOf(source), count) && v.own[Node(r, Top)] == cr3
    requires Steady(v, s, from, r, PageOf(source), count) && address == source + done * PAGE_BYTES
    requires n.Node? && OnPath(k.W(), s, n, table) && Depth(n.path) == 3 && i < ENTRIES
    requires InRange(Step(n.path, i), from + done, from + done + 1)
    requires (Process(flags) <==> s != KERNEL) && !Owned(flags)
    modifies k`memory, k`own
    ensures k.Frames() && Sharing(v, k.W(), s, from, done + 1, count, r, PageOf(source), flags)
    ensures PathsStay(old(k.W()), k.W(), s)
  {
    hide Sharing, OnPath, PathsStay, Inv, Readable, Steady, Walkable, Depth, Process, Owned, InRange, Look, PageAt, PageOf, Kernel.Frames, Kernel.W;
    ReadNext(v, k.W(), s, from, done, count, r, PageOf(source), flags, source);
    var frame := Address(k, r, cr3, address);
    SharePage(k, v, s, from, done, count, r, PageOf(source), n, table, i, frame, flags);
  }

  // Shows `count` pages from an address of space r at the pages from `target` on of space s. Answers
  // false when memory for tables runs out; a range that runs over the end of the address space is cut
  // off there, and the answer is true.
  method Clang(k: Kernel, ghost s: nat, pml4: nat, ghost r: nat, cr3: nat, source: nat, target: nat, count: nat, flags: bv12)
    returns (ok: bool, ghost done: nat)
    requires k.Valid() && Walkable(k.W(), s) && k.W().own[Node(s, Top)] == pml4
    requires Readable(k.W(), r, PageOf(source), count) && k.W().own[Node(r, Top)] == cr3
    requires Steady(k.W(), s, PageOf(target), r, PageOf(source), count)
    requires count > 0 && (Process(flags) <==> s != KERNEL) && !Owned(flags)
    requires Open(k.W(), s, PageOf(target), PageOf(target) + count)
    modifies k`memory, k`available, k`own, k.bitmap
    ensures k.Valid()
    ensures done <= count && PageOf(target) + done <= PAGES
    ensures ok <==> done == count || PageOf(target) + done == PAGES
    ensures ok ==> (done == count <==> PageOf(target) + count <= PAGES)
    ensures !ok ==> k.W().free == {}
    ensures flags != 0 ==> Stretch(old(k.W()), s, PageOf(target), done, count)
    ensures Reshaped(old(k.W()), k.W(), s, PageOf(target), PageOf(target) + done, PageOf(target) + count)
    ensures Shown(old(k.W()), k.W(), s, PageOf(target), PageOf(target) + done, r, PageOf(source), flags)
    ensures Spared(old(k.W()), k.W(), s, PageOf(target), count)
    ensures Open(k.W(), s, PageOf(target), PageOf(target) + count)
    ensures Tagged(old(k.W()), k.W(), PageOf(target), PageOf(target) + count, flags)
    ensures Granted(old(k.W()), k.W(), s, PageOf(target), PageOf(target) + done, flags)
  {
    hide Tagged, Granted, Sharing, Stretch, Stuck, OnPath, PathsStay, Inv, WithLeaf, CanHoldLeaf, Reshaped, Open, Shown, Spared, Readable, Steady, Walkable;
    hide Over, Depth, PageOf, Process, Owned, Digits, Index, IsPage, InRange, Number, Look, PageAt, Kernel.W, Kernel.Frames;
    assert Depth(Top) == 0 by { DepthTop(); }
    ghost var v, from, a := k.W(), PageOf(target), PageOf(source);
    var left, address := count, source;
    done := 0;
    var p4: nat, p3: nat, p2: nat, p1: nat := Locate4(target);
    SharingStarts(v, s, from, count, r, a, flags);
    ghost var n4 := Node(s, Top);
    while p4 < ENTRIES
      invariant k.Frames() && Sharing(v, k.W(), s, from, done, count, r, a, flags)
      invariant p4 <= ENTRIES && p3 < ENTRIES && p2 < ENTRIES && p1 < ENTRIES
      invariant Number(p4, p3, p2, p1) == from + done && done < count
      invariant left == count - done && address == source + done * PAGE_BYTES
      invariant p4 == ENTRIES ==> p3 == p2 == p1 == 0
    {
      ghost var u4 := k.W();
      SharingRoot(v, u4, s, from, done, count, r, a, flags);
      PagePathIs(p4, p3, p2, p1);
      var pml3, n3 := ShareDown(k, v, s, from, done, count, r, a, n4, pml4, p4, flags, PagePath(p4, p3, p2, p1));
      if pml3 == 0 {
        NotAtEnd(p4, p3, p2, p1);
        ClangDone(v, k.W(), s, from, done, count, r, a, flags);
        return false, done;
      }
      while p3 < ENTRIES
        invariant k.Frames() && Sharing(v, k.W(), s, from, done, count, r, a, flags)
        invariant p4 < ENTRIES && p3 <= ENTRIES && p2 < ENTRIES && p1 < ENTRIES
        invariant Number(p4, p3, p2, p1) == from + done && done < count
        invariant left == count - done && address == source + done * PAGE_BYTES
        invariant p3 == ENTRIES ==> p2 == p1 == 0
        invariant OnPath(k.W(), s, n3, pml3)
      {
        ghost var u3 := k.W();
        PagePathIs(p4, p3, p2, p1);
        var pml2, n2 := ShareDown(k, v, s, from, done, count, r, a, n3, pml3, p3, flags, PagePath(p4, p3, p2, p1));
        if pml2 == 0 {
          NotAtEnd(p4, p3, p2, p1);
          ClangDone(v, k.W(), s, from, done, count, r, a, flags);
          return false, done;
        }
        StayOnPath(u3, k.W(), s, n3, pml3);
        while p2 < ENTRIES
          invariant k.Frames() && Sharing(v, k.W(), s, from, done, count, r, a, flags)
          invariant p4 < ENTRIES && p3 < ENTRIES && p2 <= ENTRIES && p1 < ENTRIES
          invariant Number(p4, p3, p2, p1) == from + done && done < count
          invariant left == count - done && address == source + done * PAGE_BYTES
          invariant p2 == ENTRIES ==> p1 == 0
          invariant OnPath(k.W(), s, n3, pml3)
          invariant OnPath(k.W(), s, n2, pml2)
        {
          ghost var u2 := k.W();
          PagePathIs(p4, p3, p2, p1);
          var pml1, n1 := ShareDown(k, v, s, from, done, count, r, a, n2, pml2, p2, flags, PagePath(p4, p3, p2, p1));
          if pml1 == 0 {
            NotAtEnd(p4, p3, p2, p1);
            ClangDone(v, k.W(), s, from, done, count, r, a, flags);
            return false, done;
          }
          StayOnPath(u2, k.W(), s, n3, pml3);
          StayOnPath(u2, k.W(), s, n2, pml2);
          while p1 < ENTRIES
            invariant k.Frames() && Sharing(v, k.W(), s, from, done, count, r, a, flags)
            invariant p4 < ENTRIES && p3 < ENTRIES && p2 < ENTRIES && p1 <= ENTRIES
            invariant Number(p4, p3, p2, p1) == from + done && done < count
            invariant left == count - done && address == source + done * PAGE_BYTES
            invariant OnPath(k.W(), s, n3, pml3)
            invariant OnPath(k.W(), s, n2, pml2)
            invariant OnPath(k.W(), s, n1, pml1)
          {
            ghost var u1 := k.W();
            PagePathIs(p4, p3, p2, p1);
            ShareNext(k, v, s, from, done, count, r, cr3, source, address, n1, pml1, p1, flags);
            AllStay(u1, k.W(), s, n3, pml3, n2, pml2, n1, pml1);
            address, left, done := address + PAGE_BYTES, left - 1, done + 1;
            NotAtEnd(p4, p3, p2, p1);
            if left == 0 {
              ClangDone(v, k.W(), s, from, done, count, r, a, flags);
              return true, done;
            }
            Carry(p4, p3, p2, p1);
            p1 := p1 + 1;
          }
          Carry(p4, p3, p2, p1);
          p1 := 0;
          p2 := p2 + 1;
        }
        Carry(p4, p3, p2, p1);
        p2 := 0;
        p3 := p3 + 1;
      }
      Carry(p4, p3, p2, p1);
      p3 := 0;
      p4 := p4 + 1;
    }
    AtEnd();
    ClangDone(v, k.W(), s, from, done, count, r, a, flags);
    return true, done;
  }

  // Where a sharing run stands in the end.
  lemma ClangDone(v: World, w: World, s: nat, from: nat, done: nat, count: nat, r: nat, a: nat, flags: bv12)
    requires Sharing(v, w, s, from, done, count, r, a, flags) && done <= count
    requires done == count || from + done >= PAGES || Stuck(w, s, from + done)
    ensures Inv(w) && Reshaped(v, w, s, from, from + done, from + count) && Open(w, s, from, from + count)
    ensures Shown(v, w, s, from, from + done, r, a, flags) && Spared(v, w, s, from, count)
    ensures flags != 0 ==> Stretch(v, s, from, done, count)
    ensures Stuck(w, s, from + done) ==> w.free == {}
    ensures Tagged(v, w, from, from + count, flags) && Granted(v, w, s, from, from + done, flags)
  {
    hide Tagged, Granted, Sharing, Inv, Reshaped, Open, Shown, Spared, Stretch;
    SharingDone(v, w, s, from, done, count, r, a, flags);
    if flags != 0 {
      SharingStretch(v, w, s, from, done, count, r, a, flags);
    }
  }

  lemma ReadNext(v: World, w: World, s: nat, from: nat, done: nat, count: nat, r: nat, a: nat, flags: bv12, source: nat)
    requires Sharing(v, w, s, from, done, count, r, a, flags) && done < count && a == PageOf(source)
    requires Readable(v, r, a, count) && Steady(v, s, from, r, a, count)
    ensures Inv(w) && Walkable(w, r) && w.own[Node(r, Top)] == v.own[Node(r, Top)]
    ensures PageOf(source + done * PAGE_BYTES) == a + done
    ensures Look(w, r, Up(PageAt(a + done))) != EMPTY
    ensures Look(w, r, PageAt(a + done)) == Look(v, r, PageAt(a + done))
  {
    hide Inv, BuildAt, Shown, Spared, Look, PageAt, PageOf, Steady;
    BuildInv(v, w, s, from, from + done, from + count);
    SourceSteady(v, w, s, from, done, count, r, a);
    PageOfNext(source, done) by { assert a + done < PAGES; }
  }

  // ---- other flags for pages of the kernel -----------------------------------------------------

  // Pages from..to of the kernel keep their frames and have the flags given.
  ghost predicate Reflagged(v: World, w: World, from: nat, to: nat, flags: bv12) {
    forall q | InRange(q, from, to) :: Look(w, KERNEL, q) == Entry(Look(v, KERNEL, q).frame, flags)
  }

  // The tables over the pages are there.
  ghost predicate Tabled(v: World, from: nat, to: nat) {
    forall q | InRange(q, from, to) :: Look(v, KERNEL, Up(q)) != EMPTY
  }

  // All tables of the kernel are its own.
  lemma KernelTable(w: World, p: Path)
    requires Inv(w) && Walkable(w, KERNEL) && IsTable(p) && Look(w, KERNEL, p) != EMPTY
    ensures OnPath(w, KERNEL, Node(KERNEL, p), Look(w, KERNEL, p).frame)
    ensures p.Step? ==> !Process(Look(w, KERNEL, p).flags)
  {
    var t := Locate(w, KERNEL, p);
    hide Tables, Hangs, Injective, Blank;
  }

  // The kernel may build anywhere in its own space.
  lemma KernelOpen(w: World, from: nat, to: nat)
    requires Inv(w)
    ensures Open(w, KERNEL, from, to) && Walkable(w, KERNEL)
  {
    KernelIsWalkable(w);
    forall q | InRange(q, from, to) ensures OpenPage(w, KERNEL, q) {
      var d4, d3, d2, d1 := DigitsOfPage(q);
      PagePathIs(d4, d3, d2, d1);
      OpenPath(w, Up(q));
      OpenPath(w, Up(Up(q)));
      OpenPath(w, Up(Up(Up(q))));
    }
  }

  lemma KernelIsWalkable(w: World)
    requires Inv(w)
    ensures Walkable(w, KERNEL)
  {
  }

  lemma OpenPath(w: World, p: Path)
    requires Inv(w) && Walkable(w, KERNEL) && IsTable(p) && p.Step?
    ensures OpenTable(w, KERNEL, p)
  {
    if Look(w, KERNEL, p) != EMPTY {
      KernelTable(w, p);
    }
  }

  lemma StepDown(v: World, w: World, from: nat, done: nat, count: nat, flags: bv12, n: Node, table: nat, i: nat, q: Path)
    requires Sharing(v, w, KERNEL, from, done, count, KERNEL, from, flags) && done < count && Tabled(v, from, from + count)
    requires n.Node? && OnPath(w, KERNEL, n, table) && Depth(n.path) < 3 && i < ENTRIES
    requires IsPage(q) && Index(q) == from + done && Over(Step(n.path, i), q)
    ensures IsTableAt(w, n) && w.own[n] == table
    ensures OnPath(w, KERNEL, Node(KERNEL, Step(n.path, i)), Cell(w, n, i).frame)
  {
    hide Tagged, Inv, BuildAt, Shown, Spared, Paid, Over, Look, IsPage;
    assert InRange(q, from, from + count);
    TableAbove(v, KERNEL, q, Step(n.path, i));
    StepStays(v, w, from, from + done, from + count, Step(n.path, i));
    BuildInv(v, w, KERNEL, from, from + done, from + count);
    KernelTable(w, Step(n.path, i));
    LookStep(w, KERNEL, n, i);
  }

  // The table below entry i of the table a run stands at.
  method Below(k: Kernel, ghost v: World, ghost from: nat, ghost done: nat, ghost count: nat, flags: bv12,
               ghost n: Node, table: nat, i: nat, ghost q: Path)
    returns (next: nat, ghost c: Node)
    requires Sharing(v, k.W(), KERNEL, from, done, count, KERNEL, from, flags) && done < count && Tabled(v, from, from + count)
    requires n.Node? && OnPath(k.W(), KERNEL, n, table) && Depth(n.path) < 3 && i < ENTRIES
    requires IsPage(q) && Index(q) == from + done && Over(Step(n.path, i), q)
    ensures table < |k.memory| && next == k.memory[table][i].frame
    ensures c.Node? && c.path == Step(n.path, i) && OnPath(k.W(), KERNEL, c, next)
  {
    hide Sharing, OnPath, Tabled, Over, Depth, IsPage, Index;
    StepDown(v, k.W(), from, done, count, flags, n, table, i, q);
    return k.memory[table][i].frame, Node(KERNEL, Step(n.path, i));
  }

  lemma StepStays(v: World, w: World, from: nat, to: nat, end: nat, p: Path)
    requires BuildAt(v, w, KERNEL, from, to, end) && IsTable(p) && Look(v, KERNEL, p) != EMPTY
    ensures Look(w, KERNEL, p) != EMPTY
  {
    hide Inv, Apart, Kept, OwnKept, NewOwn, NoLeak, NewTables, Open;
  }

  // What is found at the page a run stands at was there at the start.
  lemma FlagNext(v: World, w: World, from: nat, done: nat, count: nat, flags: bv12, n: Node, table: nat, i: nat)
    requires Sharing(v, w, KERNEL, from, done, count, KERNEL, from, flags) && done < count
    requires n.Node? && OnPath(w, KERNEL, n, table) && Depth(n.path) == 3 && i < ENTRIES
    requires InRange(Step(n.path, i), from + done, from + done + 1)
    ensures table < |w.memory| && w.memory[table][i] == Look(v, KERNEL, PageAt(from + done))
  {
    hide Inv, BuildAt, Shown, Spared, Look, PageAt;
    NotYet(v, w, KERNEL, from, from + done, from + count, n, i);
    InsidePages(Step(n.path, i));
    PageAtIs(from + done);
    IndexInjective(Step(n.path, i), PageAt(from + done));
  }

  // One page of a run that changes flags: the frame stays.
  method FlagPage(k: Kernel, ghost v: World, ghost from: nat, ghost done: nat, ghost count: nat,
                  ghost n: Node, table: nat, i: nat, flags: bv12)
    requires k.Frames() && Sharing(v, k.W(), KERNEL, from, done, count, KERNEL, from, flags) && done < count
    requires n.Node? && OnPath(k.W(), KERNEL, n, table) && Depth(n.path) == 3 && i < ENTRIES
    requires InRange(Step(n.path, i), from + done, from + done + 1)
    requires !Process(flags)
    modifies k`memory, k`own
    ensures k.Frames() && Sharing(v, k.W(), KERNEL, from, done + 1, count, KERNEL, from, flags)
    ensures PathsStay(old(k.W()), k.W(), KERNEL)
  {
    OwnedIsProcess(flags);
    hide Sharing, OnPath, PathsStay, Process, Owned, InRange, Look, PageAt, Depth;
    FlagNext(v, k.W(), from, done, count, flags, n, table, i);
    SharePage(k, v, KERNEL, from, done, count, KERNEL, from, n, table, i, k.memory[table][i].frame, flags);
  }

  lemma FlagsDone(v: World, w: World, from: nat, done: nat, count: nat, flags: bv12)
    requires Sharing(v, w, KERNEL, from, done, count, KERNEL, from, flags)
    ensures Inv(w) && Reshaped(v, w, KERNEL, from, from + done, from + count)
    ensures Reflagged(v, w, from, from + done, flags) && OwnGrows(v, w) && Pool(w) == Pool(v)
  {
    SharingDone(v, w, KERNEL, from, done, count, KERNEL, from, flags);
    hide Inv, Reshaped, Open, Look, PageAt, BuildAt, OwnGrows, Pool;
    forall q | InRange(q, from, from + done)
      ensures Look(w, KERNEL, q) == Entry(Look(v, KERNEL, q).frame, flags)
    {
      InsidePages(q);
      PageAtIs(Index(q));
      IndexInjective(q, PageAt(Index(q)));
    }
  }

  // Gives `count` pages of the kernel from an address on other flags; their tables must be there.
  // Answers false when the range runs over the end of the address space.
  method Flags(k: Kernel, pml4: nat, address: nat, count: nat, flags: bv12) returns (ok: bool, ghost done: nat)
    requires k.Valid() && Names(k.W(), Node(KERNEL, Top), pml4)
    requires count > 0 && !Process(flags) && Tabled(k.W(), PageOf(address), PageOf(address) + count)
    modifies k`memory, k`own
    ensures k.Valid()
    ensures done <= count && (ok <==> done == count) && (!ok ==> PageOf(address) + done == PAGES)
    ensures Reshaped(old(k.W()), k.W(), KERNEL, PageOf(address), PageOf(address) + done, PageOf(address) + count)
    ensures Reflagged(old(k.W()), k.W(), PageOf(address), PageOf(address) + done, flags)
    ensures OwnGrows(old(k.W()), k.W()) && Pool(k.W()) == Pool(old(k.W()))
  {
    OwnedIsProcess(flags);
    hide Sharing, OnPath, PathsStay, Inv, Reshaped, Reflagged, Tabled, Shown, Spared, OwnGrows, Pool, Walkable, Open;
    hide Over, Depth, PageOf, Process, Owned, Digits, Index, IsPage, InRange, Number, Look, PageAt, Kernel.W, Kernel.Frames;
    assert Depth(Top) == 0 by { DepthTop(); }
    ghost var v, from, s := k.W(), PageOf(address), KERNEL;
    var left := count;
    done := 0;
    var p4: nat, p3: nat, p2: nat, p1: nat := Locate4(address);
    KernelOpen(v, from, from + count);
    SharingStarts(v, s, from, count, s, from, flags);
    ghost var n4 := Node(s, Top);
    while p4 < ENTRIES
      invariant k.Frames() && Sharing(v, k.W(), s, from, done, count, s, from, flags)
      invariant p4 <= ENTRIES && p3 < ENTRIES && p2 < ENTRIES && p1 < ENTRIES
      invariant Number(p4, p3, p2, p1) == from + done && done < count && left == count - done
      invariant p4 == ENTRIES ==> p3 == p2 == p1 == 0
    {
      SharingRoot(v, k.W(), s, from, done, count, s, from, flags);
      PagePathIs(p4, p3, p2, p1);
      var pml3, n3 := Below(k, v, from, done, count, flags, n4, pml4, p4, PagePath(p4, p3, p2, p1));
      while p3 < ENTRIES
        invariant k.Frames() && Sharing(v, k.W(), s, from, done, count, s, from, flags)
        invariant p4 < ENTRIES && p3 <= ENTRIES && p2 < ENTRIES && p1 < ENTRIES
        invariant Number(p4, p3, p2, p1) == from + done && done < count && left == count - done
        invariant p3 == ENTRIES ==> p2 == p1 == 0
        invariant OnPath(k.W(), s, n3, pml3)
      {
        PagePathIs(p4, p3, p2, p1);
        var pml2, n2 := Below(k, v, from, done, count, flags, n3, pml3, p3, PagePath(p4, p3, p2, p1));
        while p2 < ENTRIES
          invariant k.Frames() && Sharing(v, k.W(), s, from, done, count, s, from, flags)
          invariant p4 < ENTRIES && p3 < ENTRIES && p2 <= ENTRIES && p1 < ENTRIES
          invariant Number(p4, p3, p2, p1) == from + done && done < count && left == count - done
          invariant p2 == ENTRIES ==> p1 == 0
          invariant OnPath(k.W(), s, n3, pml3)
          invariant OnPath(k.W(), s, n2, pml2)
        {
          PagePathIs(p4, p3, p2, p1);
          var pml1, n1 := Below(k, v, from, done, count, flags, n2, pml2, p2, PagePath(p4, p3, p2, p1));
          while p1 < ENTRIES
            invariant k.Frames() && Sharing(v, k.W(), s, from, done, count, s, from, flags)
            invariant p4 < ENTRIES && p3 < ENTRIES && p2 < ENTRIES && p1 <= ENTRIES
            invariant Number(p4, p3, p2, p1) == from + done && done < count && left == count - done
            invariant OnPath(k.W(), s, n3, pml3)
            invariant OnPath(k.W(), s, n2, pml2)
            invariant OnPath(k.W(), s, n1, pml1)
          {
            ghost var u1 := k.W();
            PagePathIs(p4, p3, p2, p1);
            FlagPage(k, v, from, done, count, n1, pml1, p1, flags);
            AllStay(u1, k.W(), s, n3, pml3, n2, pml2, n1, pml1);
            left, done := left - 1, done + 1;
            if left == 0 {
              FlagsDone(v, k.W(), from, done, count, flags);
              return true, done;
            }
            Carry(p4, p3, p2, p1);
            p1 := p1 + 1;
          }
          Carry(p4, p3, p2, p1);
          p1 := 0;
          p2 := p2 + 1;
        }
        Carry(p4, p3, p2, p1);
        p2 := 0;
        p3 := p3 + 1;
      }
      Carry(p4, p3, p2, p1);
      p3 := 0;
      p4 := p4 + 1;
    }
    AtEnd();
    FlagsDone(v, k.W(), from, done, count, flags);
    return false, done;
  }
}
