// From power-on to the first sound system: the kernel's own space, its null stream, and no task but its own.
module Startup {
  import opened Bitmap
  import opened Layout
  import opened Spaces
  import opened Memory
  import opened Reshaping
  import opened Pages
  import opened Paging
  import opened Teardown
  import opened Merging
  import opened Lifecycle
  import opened UserMemory
  import opened Sharing
  import opened Births
  import opened Execution
  import opened Tasks
  import opened Processes
  import opened Launching
  import opened Boot

  // ---- the kernel's space ----------------------------------------------------------------------

  ghost function KernelAlone(w: World, g: nat): World {
    World(w.memory, map[Node(KERNEL, Top) := g], w.free - {g}, map[KERNEL := Solo])
  }

  lemma KernelAloneInv(w: World, g: nat)
    requires Blank(w) && g in w.free
    ensures Inv(KernelAlone(w, g)) && KernelLow(KernelAlone(w, g)) && HasSpace(KernelAlone(w, g), KERNEL)
  {
    var x := KernelAlone(w, g);
    assert forall n | n in x.own :: n == Node(KERNEL, Top);
    assert Blank(x) && Kinds(x) && Placed(x) && Injective(x) && Hangs(x);
    forall m, j: nat | IsTableAt(x, m) && j < ENTRIES ensures Typed(x, m, j) {
      assert x.memory[g] == ZeroPage();
    }
  }

  // The first step of kernel_init_page: the kernel's top table.
  method KernelSpace(k: Kernel) returns (pml4: nat)
    requires k.Frames() && k.own == map[]
    modifies k`available, k.bitmap, k`own, k`kind
    ensures pml4 == 0 ==> k.Frames() && k.W() == World(k.memory, old(k.own), old(k.W()).free, old(k.kind)) && k.W().free == {}
    ensures pml4 != 0 ==> k.Valid() && pml4 in old(k.W()).free && k.W() == KernelAlone(old(k.W()), pml4) && KernelLow(k.W())
  {
    hide Inv;
    ghost var w := k.W();
    pml4 := k.AllocPage();
    if pml4 != 0 {
      k.own := map[Node(KERNEL, Top) := pml4];
      k.kind := map[KERNEL := Solo];
      KernelAloneInv(w, pml4);
      assert k.W() == KernelAlone(w, pml4);
    }
  }

  // What a step in the kernel's own space keeps while no process is there: nothing under top-level entry 0,
  // the top table, and every frame on its books.
  ghost predicate KernelGrew(v: World, w: World, pml4: nat) {
    && KernelLow(w) && w.kind == v.kind && Names(w, Node(KERNEL, Top), pml4)
    && OwnGrows(v, w) && Pool(w) == Pool(v) && w.free <= v.free
    && (KernelWays(v) ==> KernelWays(w))
  }

  // Every table of the kernel's space may be passed, to read and to write.
  ghost predicate KernelWays(w: World) {
    forall p | IsTable(p) && p.Step? && Look(w, KERNEL, p) != EMPTY :: Way(Look(w, KERNEL, p).flags)
  }

  predicate Way(flags: bv12) {
    Carries(flags, 0x001) && Carries(flags, 0x002)
  }

  lemma KernelWaysOn(v: World, w: World, from: nat, end: nat, tag: bv12)
    requires Tagged(v, w, from, end, tag) && Way(tag) && Walkable(v, KERNEL)
    ensures KernelWays(v) ==> KernelWays(w)
  {
    hide Look, Way, Needed;
    assert TaggedIn(v, w, KERNEL, from, end, tag);
    if KernelWays(v) {
      forall p | IsTable(p) && p.Step? && Look(w, KERNEL, p) != EMPTY ensures Way(Look(w, KERNEL, p).flags) {
        assert TaggedAt(v, w, KERNEL, p, from, end, tag);
      }
    }
  }

  // Where the kernel's page is there it may be read, and written if its own entry says so.
  lemma KernelReaches(w: World, q: Path, bit: bv12)
    requires KernelWays(w) && IsPage(q) && bit in {0x001, 0x002} && Carries(Look(w, KERNEL, q).flags, bit)
    ensures Grants(w, KERNEL, q, bit)
  {
    hide Look, Carries;
    NoFlags(bit);
    PageAbove(w, KERNEL, q);
    var d4, d3, d2, d1 := DigitsOfPage(q);
    forall p | Over(p, q) ensures Carries(Look(w, KERNEL, p).flags, bit) {
      TableAbove(w, KERNEL, q, p);
      assert Way(Look(w, KERNEL, p).flags);
    }
    GrantsDown(w, KERNEL, d4, d3, d2, d1, bit);
  }

  lemma SameWays(w: World, x: World)
    requires KernelWays(w) && forall p | IsTable(p) :: Look(x, KERNEL, p) == Look(w, KERNEL, p)
    ensures KernelWays(x)
  {
    hide Look, Way;
  }

  lemma MapLeads(flags: bv12)
    requires Carries(flags, 0x001)
    ensures Way(flags | WRITE)
  {
  }

  lemma StackLeads()
    ensures Way(KERNEL_PAGE)
  {
  }

  // Mapping the kernel at its own addresses leaves the part of the address space that processes have.
  method MapKernel(k: Kernel, pml4: nat, source: nat, target: nat, count: nat, flags: bv12)
    returns (ok: bool, ghost done: nat)
    requires k.Valid() && KernelLow(k.W()) && Names(k.W(), Node(KERNEL, Top), pml4)
    requires count > 0 && Carries(flags, 0x001) && !Process(flags) && PageOf(target) >= LOW_PAGES
    modifies k`memory, k`available, k`own, k.bitmap
    ensures k.Valid() && KernelGrew(old(k.W()), k.W(), pml4)
    ensures ok ==> Shows(k.W(), KERNEL, PageOf(target), PageOf(target) + count, source, flags)
    ensures !ok ==> k.W().free == {} || PageOf(target) + count > PAGES
    ensures done <= count && Kept(old(k.W()), k.W(), PageOf(target), PageOf(target) + done)
  {
    hide Carries, KernelWays, Tagged, Granted, Inv, KernelLow, Shows, Process, Owned, Kernel.W, Kernel.Frames, Look, PageOf, Open, Reshaped, KernelGrew, Pool;
    ghost var v := k.W();
    MapLeads(flags);
    KernelOpen(v, PageOf(target), PageOf(target) + count);
    NotOwnedFlags(flags);
    ok, done := Map(k, KERNEL, pml4, source, target, count, flags);
    KernelWaysOn(v, k.W(), PageOf(target), PageOf(target) + count, flags | WRITE);
    KernelStaysHigh(v, k.W(), PageOf(target), PageOf(target) + done, PageOf(target) + count);
    KernelPool(v, k.W(), pml4, PageOf(target), PageOf(target) + done, PageOf(target) + count);
  }

  // The kernel owns no page by its place, so a run in its space takes nothing from anyone.
  lemma KernelPool(v: World, w: World, pml4: nat, from: nat, to: nat, end: nat)
    requires Inv(v) && Inv(w) && Reshaped(v, w, KERNEL, from, to, end) && KernelLow(w) && Names(v, Node(KERNEL, Top), pml4)
    requires KernelWays(v) ==> KernelWays(w)
    ensures KernelGrew(v, w, pml4)
  {
    hide KernelWays;
    KernelSolo(v);
    assert v.kind[KERNEL] == Solo;
    forall n | n in v.own ensures n in w.own && w.own[n] == v.own[n] {
      KernelHasNoPage(v, n);
      hide Inv, Look;
    }
    forall f ensures f in Pool(w) <==> f in Pool(v) {
      if f in OwnedFrames(w) && f !in OwnedFrames(v) {
        var n :| n in w.own && w.own[n] == f;
        KernelHasNoPage(w, n);
        assert NewNode(v, w, KERNEL, from, to, end, n);
      }
      if f in OwnedFrames(v) {
        var n :| n in v.own && v.own[n] == f;
        assert n in w.own && w.own[n] == f;
      }
      if f in v.free && f !in w.free {
        var n :| n in w.own && w.own[n] == f;
      }
      hide Inv, Look;
    }
  }

  lemma KernelHasNoPage(w: World, n: Node)
    requires Inv(w) && n in w.own
    ensures n.Node? && IsPage(n.path) ==> n.space != KERNEL
  {
    assert Hung(w, n);
  }

  // ---- what kernel_init_page maps ----------------------------------------------------------------

  datatype Mapping = Mapping(source: nat, target: nat, count: nat, flags: bv12)

  predicate High(m: Mapping) {
    m.count > 0 && Carries(m.flags, 0x001) && !Process(m.flags) && PageOf(m.target) >= LOW_PAGES
  }

  ghost predicate Mapped(w: World, m: Mapping) {
    Shows(w, KERNEL, PageOf(m.target), PageOf(m.target) + m.count, m.source, m.flags)
  }

  predicate RangesApart(m: Mapping, n: Mapping) {
    PageOf(m.target) + m.count <= PageOf(n.target) || PageOf(n.target) + n.count <= PageOf(m.target)
  }

  predicate AllApart(ms: seq<Mapping>) {
    forall i, j | 0 <= i < j < |ms| :: RangesApart(ms[i], ms[j])
  }

  // The mappings do not overlap, and lie in the address space.
  predicate Fitting(ms: seq<Mapping>) {
    AllApart(ms) && forall i | 0 <= i < |ms| :: PageOf(ms[i].target) + ms[i].count <= PAGES
  }

  // The page is in no range to be mapped.
  predicate Untouched(ms: seq<Mapping>, q: Path) {
    forall i | 0 <= i < |ms| :: !InRange(q, PageOf(ms[i].target), PageOf(ms[i].target) + ms[i].count)
  }

  ghost predicate UntouchedStay(v: World, w: World, ms: seq<Mapping>) {
    forall q | IsPage(q) && Untouched(ms, q) :: Look(w, KERNEL, q) == Look(v, KERNEL, q)
  }

  // The pages of the kernel's context stack that no mapping took have frames the kernel holds.
  ghost predicate KernelStacked(w: World, ms: seq<Mapping>) {
    forall q | InRange(q, PageOf(CONTEXT_ADDRESS), PageOf(CONTEXT_ADDRESS) + CONTEXT_PAGES) && Untouched(ms, q) ::
      Look(w, KERNEL, q).flags == KERNEL_PAGE && HeldByKernel(w, Look(w, KERNEL, q).frame)
  }

  ghost predicate HeldByKernel(w: World, f: nat) {
    exists n: Node :: n.Held? && n.space == KERNEL && Names(w, n, f)
  }

  ghost predicate AllMapped(w: World, ms: seq<Mapping>) {
    forall i | 0 <= i < |ms| :: Mapped(w, ms[i])
  }

  lemma MappedStays(v: World, w: World, m: Mapping, n: Mapping, done: nat)
    requires Mapped(v, m) && RangesApart(m, n) && done <= n.count && Walkable(v, KERNEL)
    requires Kept(v, w, PageOf(n.target), PageOf(n.target) + done)
    ensures Mapped(w, m)
  {
    hide Look, PageOf;
  }

  const KERNEL_PAGE: bv12 := 0x003

  // The kernel's own context stack: backed as far as the free frames suffice.
  method KernelStack(k: Kernel, pml4: nat) returns (ok: bool)
    requires k.Valid() && KernelLow(k.W()) && Names(k.W(), Node(KERNEL, Top), pml4)
    modifies k`memory, k`available, k`own, k.bitmap
    ensures k.Valid() && KernelGrew(old(k.W()), k.W(), pml4)
    ensures ok ==> Backed(old(k.W()), k.W(), KERNEL, PageOf(CONTEXT_ADDRESS), PageOf(CONTEXT_ADDRESS) + CONTEXT_PAGES, KERNEL_PAGE)
    ensures ok <==> Affordable(old(k.W()), KERNEL, PageOf(CONTEXT_ADDRESS), CONTEXT_PAGES)
    ensures !ok ==> k.W().free == {}
    ensures forall m | High(m) && Mapped(old(k.W()), m) :: Mapped(k.W(), m)
  {
    hide KernelWays, Tagged, Granted, Inv, KernelLow, Kernel.W, Kernel.Frames, Look, PageOf, Open, Reshaped, KernelGrew, Pool, Affordable, Charged, Backed, SeparateFrames;
    ghost var v := k.W();
    var from := PageOf(CONTEXT_ADDRESS);
    Addresses();
    KernelOpen(v, from, from + CONTEXT_PAGES);
    assert Backable(KERNEL, KERNEL_PAGE);
    ghost var done;
    ok, done := Alloc(k, KERNEL, pml4, CONTEXT_ADDRESS, CONTEXT_PAGES, KERNEL_PAGE);
    StackLeads();
    KernelWaysOn(v, k.W(), from, from + CONTEXT_PAGES, KERNEL_PAGE);
    KernelStaysHigh(v, k.W(), from, from + done, from + CONTEXT_PAGES);
    KernelPool(v, k.W(), pml4, from, from + done, from + CONTEXT_PAGES);
    forall m | High(m) && Mapped(v, m) ensures Mapped(k.W(), m) {
      MappedUnder(v, k.W(), m, from, from + done, KERNEL_PAGE);
    }
  }

  // Backing pages leaves those that are there.
  lemma PresentIsThere(frame: nat, flags: bv12)
    requires Carries(flags, 0x001)
    ensures Entry(frame, flags) != EMPTY
  {
    NoFlags(0x001);
  }

  lemma MappedUnder(v: World, w: World, m: Mapping, from: nat, to: nat, flags: bv12)
    requires High(m) && Mapped(v, m) && Walkable(v, KERNEL) && Kept(v, w, from, to) && Backed(v, w, KERNEL, from, to, flags)
    ensures Mapped(w, m)
  {
    hide Look, PageOf, Fresh;
    var start := PageOf(m.target);
    forall q | InRange(q, start, start + m.count) ensures Look(w, KERNEL, q) == Entry(m.source + (Index(q) - start), m.flags) {
      assert Look(v, KERNEL, q) == Entry(m.source + (Index(q) - start), m.flags);
      PresentIsThere(m.source + (Index(q) - start), m.flags);
      assert InRange(q, from, to) || !InRange(q, from, to);
    }
  }

  // Regions of memory, the parts of the kernel's file and the controllers, one after the other. What comes
  // of each is not checked; all are there if all went well.
  method MapAll(k: Kernel, pml4: nat, ms: seq<Mapping>) returns (ok: bool)
    requires k.Valid() && KernelLow(k.W()) && Names(k.W(), Node(KERNEL, Top), pml4)
    requires forall i | 0 <= i < |ms| :: High(ms[i])
    modifies k`memory, k`available, k`own, k.bitmap
    ensures k.Valid() && KernelGrew(old(k.W()), k.W(), pml4)
    ensures ok && AllApart(ms) ==> AllMapped(k.W(), ms)
    ensures UntouchedStay(old(k.W()), k.W(), ms)
    ensures !ok ==> k.W().free == {} || exists i :: 0 <= i < |ms| && PageOf(ms[i].target) + ms[i].count > PAGES
  {
    hide Inv, KernelLow, Kernel.W, Kernel.Valid, Look, PageOf, Kept, Mapped, RangesApart, KernelGrew, Walkable, UntouchedStay;
    ghost var v := k.W();
    NothingTouched(v, ms);
    ok := true;
    KernelGrewNot(k, pml4);
    for n := 0 to |ms|
      invariant k.Valid() && KernelGrew(v, k.W(), pml4)
      invariant UntouchedStay(v, k.W(), ms)
      invariant ok && AllApart(ms) ==> forall i | 0 <= i < n :: Mapped(k.W(), ms[i])
      invariant !ok ==> k.W().free == {} || exists i :: 0 <= i < |ms| && PageOf(ms[i].target) + ms[i].count > PAGES
    {
      ghost var w := k.W();
      KernelGrewParts(k, v, w, pml4);
      var mapped, done := MapKernel(k, pml4, ms[n].source, ms[n].target, ms[n].count, ms[n].flags);
      KernelGrewOn(k, v, w, k.W(), pml4);
      UntouchedOn(v, w, k.W(), ms, n, done);
      if mapped {
        MappedIs(k.W(), ms[n]);
      }
      if ok && AllApart(ms) {
        forall i | 0 <= i < n ensures Mapped(k.W(), ms[i]) {
          assert RangesApart(ms[i], ms[n]);
          MappedStays(w, k.W(), ms[i], ms[n], done);
        }
      }
      ok := ok && mapped;
    }
  }

  lemma NothingTouched(w: World, ms: seq<Mapping>)
    ensures UntouchedStay(w, w, ms)
  {
    hide Look;
  }

  lemma UntouchedOn(u: World, v: World, w: World, ms: seq<Mapping>, n: nat, done: nat)
    requires UntouchedStay(u, v, ms) && n < |ms| && done <= ms[n].count && Walkable(v, KERNEL)
    requires Kept(v, w, PageOf(ms[n].target), PageOf(ms[n].target) + done)
    ensures UntouchedStay(u, w, ms)
  {
    hide Look, PageOf, Walkable, IsPage;
    forall q | IsPage(q) && Untouched(ms, q) ensures Look(w, KERNEL, q) == Look(u, KERNEL, q) {
      assert !InRange(q, PageOf(ms[n].target), PageOf(ms[n].target) + ms[n].count);
    }
  }

  // The kernel's space has nothing at first, so its stack is all there where nothing was mapped.
  lemma StackIsThere(v: World, g: nat, u: World, w: World, ms: seq<Mapping>)
    requires Blank(v) && g in v.free && UntouchedStay(KernelAlone(v, g), u, ms)
    requires Backed(u, w, KERNEL, PageOf(CONTEXT_ADDRESS), PageOf(CONTEXT_ADDRESS) + CONTEXT_PAGES, KERNEL_PAGE)
    ensures KernelStacked(w, ms)
  {
    hide Look, PageOf, IsPage, KernelAlone, UntouchedStay, Untouched, Blank;
    var from := PageOf(CONTEXT_ADDRESS);
    forall q | InRange(q, from, from + CONTEXT_PAGES) && Untouched(ms, q)
      ensures Look(w, KERNEL, q).flags == KERNEL_PAGE && HeldByKernel(w, Look(w, KERNEL, q).frame)
    {
      UntouchedBare(v, g, u, ms, q);
      assert Fresh(u, w, KERNEL, q, KERNEL_PAGE);
    }
  }

  lemma UntouchedBare(v: World, g: nat, u: World, ms: seq<Mapping>, q: Path)
    requires Blank(v) && g in v.free && UntouchedStay(KernelAlone(v, g), u, ms)
    requires InRange(q, PageOf(CONTEXT_ADDRESS), PageOf(CONTEXT_ADDRESS) + CONTEXT_PAGES) && Untouched(ms, q)
    ensures Look(u, KERNEL, q) == EMPTY
  {
    AloneBare(v, g, q);
    hide Look, PageOf, KernelAlone, Untouched, Blank;
  }

  lemma {:induction false} AloneBare(w: World, g: nat, p: Path)
    requires Blank(w) && g in w.free && p.Step?
    ensures Look(KernelAlone(w, g), KERNEL, p) == EMPTY
  {
    assert w.memory[g] == ZeroPage();
    if p.up.Step? {
      AloneBare(w, g, p.up);
    } else {
      assert Look(KernelAlone(w, g), KERNEL, p.up) == Entry(g, PRESENT);
    }
  }

  lemma MappedIs(w: World, m: Mapping)
    requires Shows(w, KERNEL, PageOf(m.target), PageOf(m.target) + m.count, m.source, m.flags)
    ensures Mapped(w, m)
  {
  }

  lemma KernelGrewNot(k: Kernel, pml4: nat)
    requires k.Valid() && KernelLow(k.W()) && Names(k.W(), Node(KERNEL, Top), pml4)
    ensures KernelGrew(k.W(), k.W(), pml4)
  {
  }

  lemma KernelGrewParts(k: Kernel, v: World, w: World, pml4: nat)
    requires KernelGrew(v, w, pml4) && k.Valid() && k.W() == w
    ensures KernelLow(w) && Names(w, Node(KERNEL, Top), pml4) && Walkable(w, KERNEL)
  {
    KernelSolo(w);
    hide Inv, Pool;
  }

  lemma KernelGrewOn(k: Kernel, u: World, v: World, w: World, pml4: nat)
    requires KernelGrew(u, v, pml4) && KernelGrew(v, w, pml4)
    ensures KernelGrew(u, w, pml4) && w.free <= v.free
  {
    hide Pool;
  }

  lemma NotOwnedFlags(flags: bv12)
    requires !Process(flags)
    ensures !Owned(flags)
  {
  }

  lemma KernelStaysHigh(v: World, w: World, from: nat, to: nat, end: nat)
    requires KernelLow(v) && Reshaped(v, w, KERNEL, from, to, end) && from >= LOW_PAGES
    ensures KernelLow(w) && Kept(v, w, from, to)
  {
    var c := Node(KERNEL, Step(Top, 0));
    hide Look, Reshaping.Apart, TablesKept, NewTables;
    if c in w.own {
      assert NewNode(v, w, KERNEL, from, to, end, c);
      assert Depth(c.path) == 1;
      var q :| InRange(q, from, end) && Over(c.path, q);
      var d4, d3, d2, d1 := DigitsOfPage(q);
      TopDigitIs(q);
    }
  }

  // ---- the first system ------------------------------------------------------------------------

  function FreeEntry(words: array<bv32>): Task {
    Task(false, false, false, false, false, false, false, 0, 0, 0, 0, NO_STREAM, NO_STREAM, words, 0)
  }

  // kernel_init_task: entry 0 is the kernel's, and the others are free.
  function FirstTasks(words: array<bv32>, pml4: nat, stream: nat): (tasks: seq<Task>)
    ensures |tasks| == TASK_LIMIT
  {
    [FreeEntry(words).(secured := true, cr3 := pml4, streamIn := stream, streamOut := stream)] + seq(TASK_LIMIT - 1, i => FreeEntry(words))
  }

  // kernel_init_stream: one stream, which the kernel has for both.
  function FirstStreams(base: nat): (streams: seq<Stream>)
    ensures |streams| == STREAM_LIMIT
  {
    [Stream(base, 1)] + seq(STREAM_LIMIT - 1, i => Stream(0, 0))
  }

  lemma {:induction false} NoRefs(tasks: seq<Task>, x: nat)
    requires forall i | 0 < i < |tasks| :: !Used(tasks[i])
    ensures Refs(tasks, x) == 0
  {
    if |tasks| > 1 {
      NoRefs(tasks[..|tasks| - 1], x);
    }
  }

  lemma FirstCounted(words: array<bv32>, pml4: nat, base: nat)
    requires base > 0
    ensures Counted(FirstTasks(words, pml4, 0), FirstStreams(base), 0) && StreamsSet(FirstTasks(words, pml4, 0), 0)
  {
    forall x: nat | x < STREAM_LIMIT ensures Refs(FirstTasks(words, pml4, 0), x) == 0 {
      NoRefs(FirstTasks(words, pml4, 0), x);
    }
  }

  ghost predicate KernelOnly(w: World, pml4: nat, base: nat) {
    && Inv(w) && KernelLow(w) && w.kind == map[KERNEL := Solo]
    && Names(w, Node(KERNEL, Top), pml4) && Names(w, Held(KERNEL, base), base) && KernelWays(w)
  }

  lemma FirstStanding(words: array<bv32>, pml4: nat, base: nat, w: World, mapPages: nat)
    requires KernelOnly(w, pml4, base) && base > 0
    ensures Standing(FirstTasks(words, pml4, 0), w, FirstStreams(base), 0, {}, 0, words, mapPages)
  {
    FirstCounted(words, pml4, base);
    hide Counted, StreamsSet, Inv;
    var tasks := FirstTasks(words, pml4, 0);
    assert forall i | 0 < i < |tasks| :: !Used(tasks[i]);
    assert Used(tasks[0]) && tasks[0].pid == 0;
    assert HasTask(tasks, KERNEL);
    assert AllSpaces(tasks, w);
    assert Table(tasks, 0);
  }

  // The system from here on: sound, with the kernel's task only.
  method FirstSystem(k: Kernel, pml4: nat, base: nat) returns (sys: System)
    requires k.Valid() && k.withheld == {} && KernelOnly(k.W(), pml4, base) && base > 0
    requires FIRST_PAGE < k.limit && WORD_BITS * FRAME_WORDS * MapPages(k.limit) <= LOW_PAGES
    ensures fresh(sys) && sys.k == k && sys.Valid() && sys.Arrays() <= {k.bitmap}
    ensures forall i | 0 < i < |sys.tasks| :: !Used(sys.tasks[i])
    ensures |sys.tasks| > 0 && sys.tasks[0].secured && sys.tasks[0].cr3 == pml4
    ensures var x := sys.tasks[0]; !x.active && !x.exec && !x.close && !x.daemon && !x.thread && !x.init && x.pid == 0 && x.parent == 0
    ensures |sys.streams| > 0 && sys.tasks[0].streamIn == sys.tasks[0].streamOut == 0 && sys.streams[0] == Stream(base, 1)
  {
    hide Standing, KernelOnly, Kernel.Valid, Kernel.W, Pool;
    sys := new System(k, FirstTasks(k.bitmap, pml4, 0), FirstStreams(base), MapPages(k.limit), 0, 0);
    FirstStanding(k.bitmap, pml4, base, k.W(), MapPages(k.limit));
    assert forall i | 0 < i < |sys.tasks| :: !Used(sys.tasks[i]);
    ValidIs(sys);
  }

  lemma NowHolds(w: World, pml4: nat, base: nat)
    requires KernelLow(w) && w.kind == map[KERNEL := Solo] && Names(w, Node(KERNEL, Top), pml4) && Inv(Drawn(w, KERNEL, base)) && KernelWays(w)
    ensures KernelOnly(Drawn(w, KERNEL, base), pml4, base)
  {
    DrawnLooks(w, KERNEL, base);
    SameWays(w, Drawn(w, KERNEL, base));
    hide Inv, Look, Way;
  }

  lemma SamePool(w: World, x: World, f: nat)
    requires OwnedFrames(x) == OwnedFrames(w) + {f} && f in w.free && x.free == w.free - {f}
    ensures Pool(x) == Pool(w)
  {
  }

  // The null stream's buffer.
  method NullStream(k: Kernel, ghost pml4: nat) returns (base: nat)
    requires k.Valid() && KernelLow(k.W()) && k.W().kind == map[KERNEL := Solo] && Names(k.W(), Node(KERNEL, Top), pml4) && KernelWays(k.W())
    modifies k`available, k.bitmap, k`own
    ensures k.Frames() && (base == 0 ==> k.W() == old(k.W()) && k.W().free == {})
    ensures base != 0 ==> k.Valid() && KernelOnly(k.W(), pml4, base) && base in old(k.W()).free && k.W().free == old(k.W()).free - {base}
    ensures base != 0 ==> Pool(k.W()) == Pool(old(k.W()))
    ensures base != 0 ==> forall ms :: AllMapped(old(k.W()), ms) ==> AllMapped(k.W(), ms)
    ensures base != 0 ==> forall ms :: KernelStacked(old(k.W()), ms) ==> KernelStacked(k.W(), ms)
  {
    hide Inv, Blank, Holdings, Pool, KernelOnly;
    ghost var w := k.W();
    base := k.AllocPage();
    if base != 0 {
      k.own := k.own[Held(KERNEL, base) := base];
      assert k.W() == Drawn(w, KERNEL, base);
      DrawnInv(w, KERNEL, base);
      DrawnMapped(w, base);
      DrawnStacked(w, base);
      NowHolds(w, pml4, base);
      PoolGains(w, k.W(), Held(KERNEL, base), base, {base});
      SamePool(w, k.W(), base);
      InvBlank(k.W());
    }
  }

  lemma DrawnStacked(w: World, g: nat)
    requires Inv(w) && g in w.free
    ensures forall ms :: KernelStacked(w, ms) ==> KernelStacked(Drawn(w, KERNEL, g), ms)
  {
    DrawnLooks(w, KERNEL, g);
    DrawnInv(w, KERNEL, g);
    var x := Drawn(w, KERNEL, g);
    assert forall f | HeldByKernel(w, f) :: HeldByKernel(x, f);
    hide Look, Drawn, HeldByKernel, Inv, PageOf, Untouched;
  }

  lemma DrawnMapped(w: World, g: nat)
    ensures forall ms :: AllMapped(w, ms) ==> AllMapped(Drawn(w, KERNEL, g), ms)
  {
    DrawnLooks(w, KERNEL, g);
    hide Look, Drawn;
  }

  // What the boot loader still has is nobody's.
  lemma WithheldIsLimbo(w: World, withheld: set<nat>, owned: set<nat>)
    requires OwnedFrames(w) <= owned && withheld !! owned && withheld !! w.free && forall f | f in withheld :: 0 < f < |w.memory|
    ensures forall f | f in withheld :: Limbo(w, f)
  {
    forall f | f in withheld ensures Limbo(w, f) {
      assert forall m | m in w.own :: w.own[m] in OwnedFrames(w);
    }
  }

  // What there is of RAM but for the kernel's own data and its map.
  ghost predicate AllOfRam(w: World, regions: seq<Region>, place: nat, own: nat) {
    Pool(w) == (FramesOf(regions, Usable) - Range(place, own)) + FramesOf(regions, Reclaimable)
  }

  // The frames of the boot loader are added to those the kernel has taken over.
  method FreeTheRest(k: Kernel, regions: seq<Region>, ghost pml4: nat, ghost base: nat, ghost place: nat, ghost own: nat) returns (ok: bool)
    requires Sound(regions) && k.Valid() && k.limit == LimitOf(regions) && KernelOnly(k.W(), pml4, base)
    requires k.withheld == FramesOf(regions, Reclaimable)
    requires Pool(k.W()) == FramesOf(regions, Usable) - Range(place, own)
    modifies k`memory, k`available, k`withheld, k.bitmap
    ensures !ok ==> Lacks(k.W(), k.limit, AreaPages(|regions|)) && k.Frames() && k.W() == old(k.W())
    ensures ok ==> k.Valid() && k.withheld == {} && KernelOnly(k.W(), pml4, base) && AllOfRam(k.W(), regions, place, own)
    ensures ok ==> k.available == |k.W().free|
    ensures ok ==> forall ms :: AllMapped(old(k.W()), ms) ==> AllMapped(k.W(), ms)
    ensures ok ==> forall ms :: KernelStacked(old(k.W()), ms) ==> KernelStacked(k.W(), ms)
  {
    hide KernelStacked, AllMapped, Inv, Sound, FramesOf, KernelOnly, Kernel.Frames, Kernel.W, Limbo, OwnedFrames;
    ghost var w := k.W();
    FramesBelow(regions, Reclaimable);
    SortsApart(regions);
    SizeOfMemory(k);
    WithheldApart(k);
    assert OwnedFrames(w) <= Pool(w);
    WithheldIsLimbo(w, k.withheld, OwnedFrames(w));
    ok := InitFree(k, regions);
    if ok {
      SameMapped(w, k.W(), pml4, base);
      StillKernelOnly(w, k.W(), pml4, base);
      SameOwners(w, k.W());
    }
  }

  lemma SameMapped(w: World, x: World, pml4: nat, base: nat)
    requires KernelOnly(w, pml4, base) && SameTables(w, x)
    ensures forall ms :: AllMapped(w, ms) ==> AllMapped(x, ms)
    ensures forall ms :: KernelStacked(w, ms) ==> KernelStacked(x, ms)
    ensures KernelWays(x)
  {
    forall q | IsPage(q) ensures Look(x, KERNEL, q) == Look(w, KERNEL, q) {
      SameTablesWalk(w, x, KERNEL, q);
    }
    forall p | IsTable(p) ensures Look(x, KERNEL, p) == Look(w, KERNEL, p) {
      SameTablesWalk(w, x, KERNEL, p);
    }
    SameWays(w, x);
    assert forall f | HeldByKernel(w, f) :: HeldByKernel(x, f);
    hide Look, Inv, HeldByKernel, PageOf, Untouched;
  }

  lemma SameOwners(w: World, x: World)
    requires x.own == w.own
    ensures OwnedFrames(x) == OwnedFrames(w)
  {
  }

  // kernel_init_page: the kernel's space, with all that is mapped there, and its context stack. What became
  // of the mappings and of the stack is not looked at; where the mappings fit, all are there unless memory ran out.
  method InitPage(k: Kernel, ms: seq<Mapping>) returns (pml4: nat)
    requires k.Frames() && k.own == map[] && forall i | 0 <= i < |ms| :: High(ms[i])
    modifies k`memory, k`available, k.bitmap, k`own, k`kind
    ensures pml4 == 0 ==> k.W().free == {} && k.Frames() && Pool(k.W()) == old(k.W()).free
    ensures pml4 != 0 ==>
              && k.Valid() && KernelLow(k.W()) && k.W().kind == map[KERNEL := Solo] && Names(k.W(), Node(KERNEL, Top), pml4)
              && Pool(k.W()) == old(k.W()).free
              && (Fitting(ms) ==> k.W().free == {} || AllMapped(k.W(), ms))
              && (k.W().free == {} || KernelStacked(k.W(), ms)) && KernelWays(k.W())
  {
    hide KernelWays, UntouchedStay, KernelStacked, Inv, KernelLow, Kernel.Frames, Blank, Pool, KernelGrew, Look, Affordable, Backed, PageOf;
    ghost var v := k.W();
    FramesBlank(k);
    pml4 := KernelSpace(k);
    if pml4 == 0 {
      NoOwners(k.W());
    } else {
      ghost var w := k.W();
      AlonePool(v, pml4);
      AloneWays(v, pml4);
      var mapped := MapAll(k, pml4, ms);
      ghost var u := k.W();
      KernelGrewParts(k, w, u, pml4);
      var stacked := KernelStack(k, pml4);
      KernelGrewOn(k, w, u, k.W(), pml4);
      KernelGrewParts(k, w, k.W(), pml4);
      KernelGrewPool(w, k.W(), pml4);
      KernelGrewWays(w, k.W(), pml4);
      if stacked {
        StackIsThere(v, pml4, u, k.W(), ms);
      }
    }
  }

  lemma FramesBlank(k: Kernel)
    requires k.Frames()
    ensures Blank(k.W())
  {
  }

  lemma ValidFrames(k: Kernel)
    requires k.Valid()
    ensures k.Frames()
  {
  }

  lemma NoOwners(w: World)
    requires w.own == map[]
    ensures Pool(w) == w.free
  {
  }

  // Memory, the kernel's space, and the null stream.
  method TakeOver(regions: seq<Region>, memory: seq<Page>, dataPages: nat, ms: seq<Mapping>)
    returns (ok: bool, k: Kernel, pml4: nat, base: nat, ghost place: nat)
    requires Sound(regions) && |memory| == LimitOf(regions) && LimitOf(regions) / 8 % PAGE_BYTES != 0
    requires exists i: nat :: i < |regions| && regions[i].sort == Usable && Count(regions[i]) >= MapPages(LimitOf(regions)) + dataPages > 0
    requires forall i | 0 <= i < |ms| :: High(ms[i])
    ensures !ok ==> Lacks(k.W(), k.limit, 1)
    ensures fresh(k) && fresh(k.bitmap) && k.Frames() && k.limit == LimitOf(regions) && k.withheld == FramesOf(regions, Reclaimable)
    ensures Pool(k.W()) == FramesOf(regions, Usable) - Range(place, MapPages(k.limit) + dataPages)
    ensures ok ==>
              && k.Valid() && KernelOnly(k.W(), pml4, base)
              && (Fitting(ms) ==> AllMapped(k.W(), ms)) && KernelStacked(k.W(), ms)
  {
    hide KernelStacked, Inv, Sound, FramesOf, KernelLow, KernelOnly, Kernel.Frames, Blank, Pool, KernelGrew, Look, Affordable, Backed, PageOf;
    k, place := InitMemory(regions, memory, dataPages);
    ok, base := false, 0;
    pml4 := InitPage(k, ms);
    if pml4 == 0 {
      NoneFree(k.W(), k.limit);
      return;
    }
    base := NullStream(k, pml4);
    if base == 0 {
      NoneFree(k.W(), k.limit);
      return;
    }
    ok := true;
  }

  lemma AlonePool(w: World, g: nat)
    requires w.own == map[] && g in w.free
    ensures Pool(KernelAlone(w, g)) == w.free
  {
    assert Node(KERNEL, Top) in KernelAlone(w, g).own;
  }

  lemma KernelGrewWays(v: World, w: World, pml4: nat)
    requires KernelGrew(v, w, pml4) && KernelWays(v)
    ensures KernelWays(w)
  {
    hide Pool, KernelWays;
  }

  lemma AloneWays(w: World, g: nat)
    requires Blank(w) && g in w.free
    ensures KernelWays(KernelAlone(w, g))
  {
    hide Look, KernelAlone, Blank;
    forall p: Path | p.Step? ensures Look(KernelAlone(w, g), KERNEL, p) == EMPTY {
      AloneBare(w, g, p);
    }
  }

  lemma KernelGrewPool(v: World, w: World, pml4: nat)
    requires KernelGrew(v, w, pml4)
    ensures Pool(w) == Pool(v) && w.kind == v.kind
  {
    hide Pool;
  }

  // From a map of memory to the first sound system. From here on every frame of RAM that is not the
  // kernel's own is free, or has an owner, and the counter says how many are free.
  method Start(regions: seq<Region>, memory: seq<Page>, dataPages: nat, ms: seq<Mapping>)
    returns (ok: bool, k: Kernel, sys: System?, ghost place: nat)
    requires Sound(regions) && |memory| == LimitOf(regions) && LimitOf(regions) / 8 % PAGE_BYTES != 0
    requires exists i: nat :: i < |regions| && regions[i].sort == Usable && Count(regions[i]) >= MapPages(LimitOf(regions)) + dataPages > 0
    requires FIRST_PAGE < LimitOf(regions) && WORD_BITS * FRAME_WORDS * MapPages(LimitOf(regions)) <= LOW_PAGES
    requires forall i | 0 <= i < |ms| :: High(ms[i])
    ensures fresh(k) && fresh(k.bitmap) && k.Frames() && k.limit == LimitOf(regions)
    ensures !ok ==>
              && LacksOne(k.W(), k.limit, {1, AreaPages(|regions|)})
              && Pool(k.W()) == FramesOf(regions, Usable) - Range(place, MapPages(k.limit) + dataPages)
    ensures ok ==> sys != null && fresh(sys) && sys.k == k && sys.Valid() && forall i | 0 < i < |sys.tasks| :: !Used(sys.tasks[i])
    ensures ok ==> sys.Arrays() <= {k.bitmap}
    ensures ok ==> AllOfRam(k.W(), regions, place, MapPages(k.limit) + dataPages) && k.available == |k.W().free|
    ensures ok ==> KernelWays(k.W()) && KernelStacked(k.W(), ms) && (Fitting(ms) ==> AllMapped(k.W(), ms))
  {
    hide KernelStacked, AllMapped, Inv, Sound, FramesOf, KernelOnly, Kernel.Valid, Kernel.W, Kernel.Frames, AllOfRam, System.Valid, OwnedFrames, Pool, High;
    sys := null;
    var pml4, base;
    ok, k, pml4, base, place := TakeOver(regions, memory, dataPages, ms);
    if !ok {
      return;
    }
    ok := FreeTheRest(k, regions, pml4, base, place, MapPages(k.limit) + dataPages);
    if !ok {
      return;
    }
    HeldIsReal(k.W(), pml4, base);
    OnlyWays(k.W(), pml4, base);
    ValidFrames(k);
    sys := FirstSystem(k, pml4, base);
  }

  lemma OnlyWays(w: World, pml4: nat, base: nat)
    requires KernelOnly(w, pml4, base)
    ensures KernelWays(w)
  {
    hide KernelWays, Inv;
  }

  lemma HeldIsReal(w: World, pml4: nat, base: nat)
    requires KernelOnly(w, pml4, base)
    ensures base > 0
  {
  }

  lemma SizeOfMemory(k: Kernel)
    requires k.Frames()
    ensures |k.W().memory| == k.limit
  {
  }

  lemma StillKernelOnly(w: World, x: World, pml4: nat, base: nat)
    requires KernelOnly(w, pml4, base) && Inv(x) && x.own == w.own && x.kind == w.kind && KernelWays(x)
    ensures KernelOnly(x, pml4, base)
  {
  }
}
