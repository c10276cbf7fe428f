// Starting a process: its space, stacks and program, piece by piece beside the running ones.
module Execution {
  import opened Bitmap
  import opened Layout
  import opened Spaces
  import opened Memory
  import opened Reshaping
  import opened Pages
  import opened Paging
  import opened Teardown
  import opened Merging
  import opened Lifecycle
  import opened UserMemory
  import opened Ownership
  import opened Births

  // Two pages below the last 512 GiB of addresses.
  const CONTEXT_ADDRESS := 0xFFFF_FF7F_FFFF_E000
  const CONTEXT_PAGES := 2
  // The user's stack ends at the pointer: a process's is as long as its arguments, a thread's is one page.
  const STACK_POINTER := 0x7000_0000_0000
  const STACK_END := 224 * LOW_PAGES
  const STACK_PAGES := 1
  const EXEC_ADDRESS := 0x10_0000
  const CONTEXT_PAGE: bv12 := 0x203

  lemma Addresses()
    ensures PageOf(CONTEXT_ADDRESS) == 511 * 0x800_0000 - 2
    ensures PageOf(EXEC_ADDRESS) == FIRST_PAGE
  {
  }

  // n pages of stack, one at least.
  function StackAddress(n: nat): nat
    requires n <= LOW_PAGES
  {
    STACK_POINTER - n * PAGE_BYTES
  }

  lemma StackAt(n: nat)
    requires 0 < n <= LOW_PAGES
    ensures PageOf(StackAddress(n)) == STACK_END - n
  {
  }

  lemma TopDigitIs(q: Path)
    requires IsPage(q)
    ensures TopDigit(q) == Index(q) / LOW_PAGES
  {
    var d4, d3, d2, d1 := DigitsOfPage(q);
    PagePathIs(d4, d3, d2, d1);
  }

  lemma ContextIsReserved(q: Path)
    requires InRange(q, PageOf(CONTEXT_ADDRESS), PageOf(CONTEXT_ADDRESS) + CONTEXT_PAGES)
    ensures Reserved(TopDigit(q))
  {
    Addresses();
    TopDigitIs(q);
  }

  lemma StackIsReserved(q: Path)
    requires InRange(q, STACK_END - LOW_PAGES, STACK_END)
    ensures Reserved(TopDigit(q))
  {
    TopDigitIs(q);
  }

  lemma Flags()
    ensures Owned(CONTEXT_PAGE) && Owned(USER_PAGE)
  {
  }

  // A space under construction: no tables but its own.
  ghost predicate Raw(v: World, w: World, s: nat, limbo: set<nat>, cr3: nat) {
    && Inv(v) && |w.memory| == |v.memory| && Born(v, w, s, limbo)
    && w.kind[s] == Solo && w.own[Node(s, Top)] == cr3 && Pure(w, s)
  }

  lemma RawParts(v: World, w: World, s: nat, limbo: set<nat>, cr3: nat)
    requires Raw(v, w, s, limbo, cr3)
    ensures Inv(v) && Inv(w) && |w.memory| == |v.memory| && Born(v, w, s, limbo) && Pure(w, s)
    ensures s in w.kind && w.kind[s] == Solo && s != KERNEL && HasSpace(w, s) && Walkable(w, s) && w.own[Node(s, Top)] == cr3
    ensures Accounted(v, w, limbo) && OwnGrows(v, w) && NobodyLinked(w, s)
  {
    hide Inv, Pool, KernelKept, NewcomersOnly, OldPagesStay, Pure, KernelLow, Accounted, OwnGrows, NobodyLinked;
  }

  // The new space's top table.
  method NewSpace(k: Kernel, ghost v: World, ghost s: nat, ghost limbo: set<nat>) returns (cr3: nat)
    requires k.Valid() && Inv(v) && KernelLow(v) && s !in v.kind && s != KERNEL
    requires k.own == v.own && k.kind == v.kind && k.memory == v.memory && Accounted(v, k.W(), limbo)
    modifies k`available, k.bitmap, k`own, k`kind
    ensures k.Frames()
    ensures cr3 == 0 ==> Lacks(k.W(), k.limit, 1)
    ensures cr3 != 0 ==> k.Valid() && Raw(v, k.W(), s, limbo, cr3) && BareBelow(k.W(), s, PAGES) && TopsOnly(k.W(), s) && Tableless(k.W(), s)
  {
    hide Tableless, Inv, Accounted, Born, Pure, BareBelow, TopsOnly, KernelLow, Pool, Lacks;
    ghost var w := k.W();
    cr3 := k.AllocPage();
    if cr3 == 0 {
      NoneFree(k.W(), k.limit);
    } else {
      k.own := k.own[Node(s, Top) := cr3];
      k.kind := k.kind[s := Solo];
      assert k.W() == WithSpace(w, s, cr3);
      Birth(v, s, limbo, w, cr3);
      NewbornIsBare(w, s, cr3);
      BornInv(v, k.W(), s, limbo);
      InvBlank(k.W());
    }
  }

  // Taking frames for the space.
  method Draw(k: Kernel, ghost v: World, ghost s: nat, ghost limbo: set<nat>, ghost cr3: nat, n: nat) returns (frame: nat)
    requires k.Valid() && Raw(v, k.W(), s, limbo, cr3)
    modifies k`available, k.bitmap
    ensures k.Frames()
    ensures frame == 0 ==> k.W() == old(k.W()) && (n > 0 ==> NoFit(k.W().free, k.limit, n))
    ensures frame != 0 ==>
              && k.Valid() && Raw(v, k.W(), s, limbo + Range(frame, n), cr3) && n > 0 && frame + n <= k.limit
              && k.W() == Taken(old(k.W()), frame, n)
              && Range(frame, n) <= old(k.W().free)
              && (forall y: nat | frame <= y < frame + n :: Limbo(k.W(), y))
  {
    hide Inv, Born, Pure, Pool, Limbo;
    ghost var w := k.W();
    frame := k.AllocPages(n);
    if frame != 0 {
      RawTaken(v, w, s, limbo, cr3, frame, n);
      BornInv(v, k.W(), s, limbo + Range(frame, n));
      HeldLimbo(v, k.W(), s, limbo + Range(frame, n), frame, n);
      assert frame + n - 1 in w.free;
      FreeIsMemory(w, frame + n - 1);
    }
  }

  lemma FreeIsMemory(w: World, f: nat)
    requires Blank(w) && f in w.free
    ensures 0 < f < |w.memory|
  {
  }

  lemma RawTaken(v: World, w: World, s: nat, limbo: set<nat>, cr3: nat, f: nat, n: nat)
    requires Raw(v, w, s, limbo, cr3) && Range(f, n) <= w.free
    ensures Raw(v, Taken(w, f, n), s, limbo + Range(f, n), cr3)
  {
    hide Inv, Born, Pure, Pool;
    BornTaken(v, w, s, limbo, f, n);
    TakenLooks(w, f, n);
    SameLooks(w, Taken(w, f, n), s, 0);
    BornInv(v, w, s, limbo);
  }

  // After a step that builds tables and writes pages of the new space.
  lemma RawReshaped(v: World, w: World, x: World, s: nat, limbo: set<nat>, rest: set<nat>, cr3: nat,
                    from: nat, to: nat, end: nat, tag: bv12)
    requires Raw(v, w, s, limbo, cr3) && Inv(x)
    requires Reshaped(w, x, s, from, to, end) && Open(x, s, from, end) && to <= end && OwnGrows(w, x)
    requires Accounted(v, x, rest) && Tagged(w, x, from, end, tag) && (Passable(tag) || from >= LOW_PAGES)
    ensures Raw(v, x, s, rest, cr3)
  {
    hide Tagged, Inv, Born, Pure, Pool, Open, OwnGrows, Accounted, Reshaped;
    RawParts(v, w, s, limbo, cr3);
    BornReshaped(v, w, x, s, limbo, rest, from, to, end, tag);
    ReshapedPure(w, x, s, from, to, end);
    ReshapedKind(w, x, s, from, to, end);
    ReshapedLength(w, x, s, from, to, end);
  }

  lemma ReshapedLength(v: World, w: World, s: nat, from: nat, to: nat, end: nat)
    requires Reshaped(v, w, s, from, to, end)
    ensures |w.memory| == |v.memory|
  {
  }

  // Pages of the new space backed by fresh frames.
  method Back(k: Kernel, ghost v: World, ghost s: nat, ghost limbo: set<nat>, cr3: nat, address: nat, count: nat, flags: bv12)
    returns (ok: bool)
    requires k.Valid() && Raw(v, k.W(), s, limbo, cr3) && count > 0 && Owned(flags) && PageOf(address) + count <= PAGES
    requires Passable(flags) || PageOf(address) >= LOW_PAGES
    modifies k`memory, k`available, k`own, k.bitmap
    ensures k.Valid() && (!ok ==> Lacks(k.W(), k.limit, 1))
    ensures ok ==>
              && Raw(v, k.W(), s, limbo, cr3)
              && Reshaped(old(k.W()), k.W(), s, PageOf(address), PageOf(address) + count, PageOf(address) + count)
              && Backed(old(k.W()), k.W(), s, PageOf(address), PageOf(address) + count, flags)
              && OwnGrows(old(k.W()), k.W())
              && Tagged(old(k.W()), k.W(), PageOf(address), PageOf(address) + count, flags)
  {
    hide Tagged, Granted, Passable, Inv, Raw, Pool, Open, OwnGrows, Accounted, Reshaped, Owned, PageOf, Backed, SeparateFrames, Affordable, Charged, Lacks;
    ghost var w, from := k.W(), PageOf(address);
    RawParts(v, w, s, limbo, cr3);
    PureOpen(w, s, from, from + count);
    ghost var done;
    ok, done := Alloc(k, s, cr3, address, count, flags);
    if !ok {
      NoneFree(k.W(), k.limit);
    } else {
      SameAccount(v, w, k.W(), limbo);
      RawReshaped(v, w, k.W(), s, limbo, limbo, cr3, from, from + count, from + count, flags);
    }
  }

  lemma SameAccount(v: World, w: World, x: World, limbo: set<nat>)
    requires Accounted(v, w, limbo) && Pool(x) == Pool(w)
    ensures Accounted(v, x, limbo)
  {
    hide Pool;
  }

  // Frames drawn and mapped as pages of the new space.
  method Load(k: Kernel, ghost v: World, ghost s: nat, ghost limbo: set<nat>, cr3: nat, address: nat, count: nat)
    returns (ok: bool)
    requires k.Valid() && Raw(v, k.W(), s, limbo, cr3) && count > 0 && PageOf(address) + count <= PAGES
    requires forall q | InRange(q, PageOf(address), PageOf(address) + count) :: Look(k.W(), s, q) == EMPTY
    modifies k`memory, k`available, k`own, k.bitmap
    ensures !ok ==> LacksOne(k.W(), k.limit, {1, count})
    ensures ok ==>
              && k.Valid() && Raw(v, k.W(), s, limbo, cr3)
              && PagesKept(old(k.W()), k.W(), s, PageOf(address), PageOf(address) + count)
              && (forall q | InRange(q, PageOf(address), PageOf(address) + count) :: Look(k.W(), s, q).flags == USER_PAGE)
              && OwnGrows(old(k.W()), k.W())
              && Tagged(old(k.W()), k.W(), PageOf(address), PageOf(address) + count, USER_PAGE | WRITE)
  {
    hide Tagged, Granted, Passable, Inv, Raw, Pool, Open, OwnGrows, Accounted, Reshaped, Owned, PageOf, Process, Limbo, Look, Kernel.Frames;
    LoadPasses();
    ghost var w, from := k.W(), PageOf(address);
    RawParts(v, w, s, limbo, cr3);
    var frame := Draw(k, v, s, limbo, cr3, count);
    if frame == 0 {
      assert Lacks(k.W(), k.limit, count);
      return false;
    }
    ghost var u := k.W();
    RawParts(v, u, s, limbo + Range(frame, count), cr3);
    PureOpen(u, s, from, from + count);
    UserFlags();
    TakenLooks(w, frame, count);
    assert Claiming(u, s, from, count, USER_PAGE);
    ghost var done;
    ok, done := Map(k, s, cr3, frame, address, count, USER_PAGE);
    if !ok {
      NoneFree(k.W(), k.limit);
    } else {
      ghost var x := k.W();
      LoadAccount(v, w, u, x, limbo, frame, count);
      RawReshaped(v, u, x, s, limbo + Range(frame, count), limbo, cr3, from, from + count, from + count, USER_PAGE | WRITE);
      TakenTagged(w, x, frame, count, from, from + count, USER_PAGE | WRITE);
      LoadKept(w, x, s, frame, count, from, from + count);
      TakenGrows(w, x, frame, count);
    }
  }

  lemma LoadPasses()
    ensures Passable(USER_PAGE | WRITE)
  {
  }

  lemma TakenTagged(w: World, x: World, f: nat, n: nat, from: nat, end: nat, tag: bv12)
    requires Tagged(Taken(w, f, n), x, from, end, tag)
    ensures Tagged(w, x, from, end, tag)
  {
    TakenLooks(w, f, n);
    hide Look, Needed, IsTable;
    var u := Taken(w, f, n);
    forall r | Walkable(w, r) ensures Walkable(x, r) && TaggedIn(w, x, r, from, end, tag) {
      assert Walkable(u, r);
      forall p | IsTable(p) && p.Step? ensures TaggedAt(w, x, r, p, from, end, tag) {
        assert TaggedAt(u, x, r, p, from, end, tag);
      }
    }
  }

  lemma UserFlags()
    ensures Owned(USER_PAGE) && Process(USER_PAGE)
  {
  }

  lemma LoadAccount(v: World, w: World, u: World, x: World, limbo: set<nat>, f: nat, n: nat)
    requires Accounted(v, w, limbo) && Accounted(v, u, limbo + Range(f, n)) && Pool(x) == Pool(u) + Range(f, n)
    requires Range(f, n) <= w.free
    ensures Accounted(v, x, limbo)
  {
    assert Range(f, n) <= Pool(w);
    hide Pool;
    assert Range(f, n) !! limbo;
  }

  lemma LoadKept(w: World, x: World, s: nat, f: nat, n: nat, from: nat, end: nat)
    requires Reshaped(Taken(w, f, n), x, s, from, end, end) && Walkable(w, s)
    ensures PagesKept(w, x, s, from, end)
  {
    TakenLooks(w, f, n);
    assert Walkable(Taken(w, f, n), s);
    hide Apart, TablesKept, NewTables, OwnKept, NewOwn, NoLeak, Look, Taken;
  }

  // Pages of the space outside the range are what they were.
  ghost predicate PagesKept(w: World, x: World, s: nat, from: nat, to: nat) {
    forall q | IsPage(q) && !InRange(q, from, to) :: Look(x, s, q) == Look(w, s, q)
  }

  lemma TakenGrows(w: World, x: World, f: nat, n: nat)
    requires OwnGrows(Taken(w, f, n), x)
    ensures OwnGrows(w, x)
  {
  }

  // Frames drawn and held for the new space or the kernel.
  method Keep(k: Kernel, ghost v: World, ghost s: nat, ghost limbo: set<nat>, ghost cr3: nat, ghost t: nat, n: nat)
    returns (frame: nat)
    requires k.Valid() && Raw(v, k.W(), s, limbo, cr3) && (t == s || t == KERNEL)
    modifies k`available, k`own, k.bitmap
    ensures frame == 0 ==> k.W() == old(k.W()) && (n > 0 ==> NoFit(k.W().free, k.limit, n))
    ensures frame != 0 ==>
              && k.Valid() && Raw(v, k.W(), s, limbo, cr3)
              && (forall y: nat | frame <= y < frame + n :: Names(k.W(), Held(t, y), y))
              && SameWalks(old(k.W()), k.W()) && OwnGrows(old(k.W()), k.W())
              && Range(frame, n) <= old(k.W().free) && n > 0
  {
    hide Inv, Born, Pure, Pool, Limbo, Raw, WithHeld, OwnGrows, SameWalks, Taken, Holdings, Accounted, Blank;
    ghost var w := k.W();
    RawParts(v, w, s, limbo, cr3);
    frame := Draw(k, v, s, limbo, cr3, n);
    if frame != 0 {
      ghost var u := k.W();
      k.own := k.own + Holdings(t, frame, n);
      WithHeldIs(u, t, frame, n);
      KeptRaw(v, w, u, s, limbo, cr3, t, frame, n);
      InvBlank(k.W());
    }
  }

  lemma KeptRaw(v: World, w: World, u: World, s: nat, limbo: set<nat>, cr3: nat, t: nat, f: nat, n: nat)
    requires Raw(v, w, s, limbo, cr3) && u == Taken(w, f, n) && Raw(v, u, s, limbo + Range(f, n), cr3) && (t == s || t == KERNEL)
    requires Range(f, n) <= w.free
    ensures Raw(v, WithHeld(u, t, f, n), s, limbo, cr3) && Inv(WithHeld(u, t, f, n))
    ensures forall y: nat | f <= y < f + n :: Names(WithHeld(u, t, f, n), Held(t, y), y)
    ensures SameWalks(w, WithHeld(u, t, f, n)) && OwnGrows(w, WithHeld(u, t, f, n))
  {
    hide Inv, Born, Pure, Pool, Raw, WithHeld, OwnGrows, SameWalks, Taken, Accounted;
    var x := WithHeld(u, t, f, n);
    var drawn := limbo + Range(f, n);
    RawParts(v, w, s, limbo, cr3);
    RawParts(v, u, s, drawn, cr3);
    BornHeld(v, u, s, drawn, t, f, n);
    LimboApart(v, w, limbo, f, n);
    assert drawn - Range(f, n) == limbo;
    RawSame(v, u, x, s, limbo, drawn, cr3);
    BornInv(v, x, s, limbo);
    TakenSame(w, x, f, n);
  }

  lemma WithHeldIs(w: World, s: nat, f: nat, n: nat)
    ensures WithHeld(w, s, f, n) == World(w.memory, w.own + Holdings(s, f, n), w.free, w.kind)
  {
  }

  lemma LimboApart(v: World, w: World, limbo: set<nat>, f: nat, n: nat)
    requires Accounted(v, w, limbo) && Range(f, n) <= w.free
    ensures Range(f, n) !! limbo
  {
    assert Range(f, n) <= Pool(w);
  }

  lemma TakenSame(w: World, x: World, f: nat, n: nat)
    requires SameWalks(Taken(w, f, n), x) && OwnGrows(Taken(w, f, n), x)
    ensures SameWalks(w, x) && OwnGrows(w, x)
  {
  }

  lemma RawSame(v: World, w: World, x: World, s: nat, limbo: set<nat>, was: set<nat>, cr3: nat)
    requires Raw(v, w, s, was, cr3) && SameWalks(w, x) && Born(v, x, s, limbo)
    ensures Raw(v, x, s, limbo, cr3)
  {
    hide Inv, Born, Pure;
    forall p ensures Look(x, s, p) == Look(w, s, p) {
      SameWalksLook(w, x, s, p);
    }
    SameLooks(w, x, s, 0);
    RawParts(v, w, s, was, cr3);
  }

  // ---- what the program's own pages look like ---------------------------------------------------

  // Of the pages a map manages exactly the n pages of the program are there, each the process's own.
  ghost predicate Loaded(w: World, s: nat, n: nat) {
    forall q | IsPage(q) && Index(q) < LOW_PAGES ::
      if FIRST_PAGE <= Index(q) < FIRST_PAGE + n then Owned(Look(w, s, q).flags) else Look(w, s, q) == EMPTY
  }

  // How many pages of its own a new space has: of program, of user stack, and of context stack.
  datatype Plan = Plan(program: nat, stack: nat, context: nat)

  // The flags of page x, where the plan has one.
  function OwnFlags(plan: Plan, x: nat): bv12 {
    if FIRST_PAGE <= x < FIRST_PAGE + plan.program then USER_PAGE
    else if STACK_END - plan.stack <= x < STACK_END then USER_PAGE
    else if PageOf(CONTEXT_ADDRESS) <= x < PageOf(CONTEXT_ADDRESS) + plan.context then CONTEXT_PAGE
    else 0
  }

  ghost predicate LaidAt(w: World, s: nat, plan: Plan, q: Path) {
    if OwnFlags(plan, Index(q)) != 0 then Look(w, s, q).flags == OwnFlags(plan, Index(q)) else Look(w, s, q) == EMPTY
  }

  // A processor may pass every table of the space, reading and writing, and so may a program on it, but for the
  // tables over the context stack.
  ghost predicate Corridors(w: World, s: nat) {
    forall p | IsTable(p) && p.Step? && Look(w, s, p) != EMPTY :: Corridor(p, Look(w, s, p).flags)
  }

  predicate Corridor(p: Path, flags: bv12) {
    Carries(flags, 0x001) && Carries(flags, 0x002) && (Carries(flags, 0x004) || Under(p, Step(Top, ENTRY_CONTEXT)))
  }

  // Tables over the range may be flagged so.
  predicate Leads(flags: bv12, from: nat, n: nat) {
    && Carries(flags, 0x001) && Carries(flags, 0x002)
    && (Carries(flags, 0x004) || (ENTRY_CONTEXT * LOW_PAGES <= from && from + n <= (ENTRY_CONTEXT + 1) * LOW_PAGES))
  }

  lemma CorridorsOn(w: World, x: World, s: nat, from: nat, n: nat, tag: bv12)
    requires Corridors(w, s) && Tagged(w, x, from, from + n, tag) && Leads(tag, from, n) && Walkable(w, s)
    ensures Corridors(x, s)
  {
    hide Look, Carries, Needed;
    assert TaggedIn(w, x, s, from, from + n, tag);
    forall p | IsTable(p) && p.Step? && Look(x, s, p) != EMPTY ensures Corridor(p, Look(x, s, p).flags) {
      assert TaggedAt(w, x, s, p, from, from + n, tag);
      if Look(w, s, p) == EMPTY && !Carries(tag, 0x004) {
        OverContext(p, from, n);
      }
    }
  }

  lemma OverContext(p: Path, from: nat, n: nat)
    requires Needed(p, from, from + n) && ENTRY_CONTEXT * LOW_PAGES <= from && from + n <= (ENTRY_CONTEXT + 1) * LOW_PAGES
    ensures Under(p, Step(Top, ENTRY_CONTEXT))
  {
    var q :| InRange(q, from, from + n) && Over(p, q);
    TopDigitIs(q);
    var d4, d3, d2, d1 := DigitsOfPage(q);
    UnderDigits(d4, 0, 0, 0, d4, d3, d2, d1);
    UnderAll(d4, d3, d2, d1);
  }

  lemma UnderAll(d4: nat, d3: nat, d2: nat, d1: nat)
    ensures forall p | Over(p, PagePath(d4, d3, d2, d1)) :: Under(p, Step(Top, d4))
  {
    var p1 := Step(Top, d4);
    var p2 := Step(p1, d3);
    assert Under(p1, p1) && Under(p2, p1) && Under(Step(p2, d2), p1);
  }

  // Just the pages of the plan are there, and nothing on the way keeps anyone from them.
  ghost predicate Laid(w: World, s: nat, plan: Plan) {
    (forall q | IsPage(q) :: LaidAt(w, s, plan, q)) && Corridors(w, s)
  }

  // The plan b adds pages to plan a.
  ghost predicate Adds(a: Plan, b: Plan, from: nat, n: nat, flags: bv12) {
    && flags != 0
    && (forall x: nat :: OwnFlags(b, x) == if from <= x < from + n then flags else OwnFlags(a, x))
    && (forall x: nat | from <= x < from + n :: OwnFlags(a, x) == 0)
  }

  lemma NothingLaid(w: World, s: nat)
    requires BareBelow(w, s, PAGES) && Tableless(w, s)
    ensures Laid(w, s, Plan(0, 0, 0))
  {
    hide Look;
    forall q | IsPage(q) ensures Look(w, s, q) == EMPTY {
      IndexBelow(q);
    }
  }

  lemma IndexBelow(q: Path)
    requires IsPage(q)
    ensures Index(q) < PAGES
  {
    var d4, d3, d2, d1 := DigitsOfPage(q);
    PagePathIs(d4, d3, d2, d1);
  }

  lemma LaidVacant(w: World, s: nat, a: Plan, b: Plan, from: nat, n: nat, flags: bv12)
    requires Laid(w, s, a) && Adds(a, b, from, n, flags)
    ensures forall q | InRange(q, from, from + n) :: Look(w, s, q) == EMPTY
  {
    hide Look, OwnFlags, Corridors;
    forall q | InRange(q, from, from + n) ensures Look(w, s, q) == EMPTY {
      assert LaidAt(w, s, a, q);
    }
  }

  lemma LaidMore(w: World, x: World, s: nat, a: Plan, b: Plan, from: nat, n: nat, flags: bv12)
    requires Laid(w, s, a) && Adds(a, b, from, n, flags) && PagesKept(w, x, s, from, from + n)
    requires forall q | InRange(q, from, from + n) :: Look(x, s, q).flags == flags
    requires Corridors(x, s)
    ensures Laid(x, s, b)
  {
    hide Look, OwnFlags, Corridors;
    forall q | IsPage(q) ensures LaidAt(x, s, b, q) {
      assert LaidAt(w, s, a, q);
      assert OwnFlags(b, Index(q)) == if from <= Index(q) < from + n then flags else OwnFlags(a, Index(q));
    }
  }

  // Backing what was not there.
  lemma BackLaid(w: World, x: World, s: nat, a: Plan, b: Plan, from: nat, n: nat, flags: bv12)
    requires Laid(w, s, a) && Adds(a, b, from, n, flags) && Walkable(w, s)
    requires Reshaped(w, x, s, from, from + n, from + n) && Backed(w, x, s, from, from + n, flags)
    requires Tagged(w, x, from, from + n, flags) && Leads(flags, from, n)
    ensures Laid(x, s, b)
  {
    LaidCorridors(w, s, a);
    CorridorsOn(w, x, s, from, n, flags);
    hide Tagged, Leads, Corridors, Look, OwnFlags, Reshaped, Laid, Adds, Walkable;
    LaidVacant(w, s, a, b, from, n, flags);
    forall q | InRange(q, from, from + n) ensures Look(x, s, q).flags == flags {
      FreshFlags(w, x, s, q, flags);
    }
    forall q | IsPage(q) && !InRange(q, from, from + n) ensures Look(x, s, q) == Look(w, s, q) {
      OutsideRange(w, x, s, from, from + n, from + n, q);
    }
    LaidMore(w, x, s, a, b, from, n, flags);
  }

  lemma LaidCorridors(w: World, s: nat, plan: Plan)
    requires Laid(w, s, plan)
    ensures Corridors(w, s)
  {
  }

  lemma StacksLead(n: nat)
    requires n <= LOW_PAGES
    ensures Leads(CONTEXT_PAGE, PageOf(CONTEXT_ADDRESS), CONTEXT_PAGES) && Leads(USER_PAGE, STACK_END - n, n)
  {
    Addresses();
  }

  lemma AddsContext()
    ensures Adds(Plan(0, 0, 0), Plan(0, 0, CONTEXT_PAGES), PageOf(CONTEXT_ADDRESS), CONTEXT_PAGES, CONTEXT_PAGE)
  {
  }

  lemma AddsStack(n: nat)
    requires 0 < n <= LOW_PAGES
    ensures Adds(Plan(0, 0, CONTEXT_PAGES), Plan(0, n, CONTEXT_PAGES), STACK_END - n, n, USER_PAGE)
  {
    Addresses();
  }

  lemma AddsProgram(size: nat, n: nat)
    requires 0 < n <= LOW_PAGES && FIRST_PAGE + size <= LOW_PAGES
    ensures Adds(Plan(0, n, CONTEXT_PAGES), Plan(size, n, CONTEXT_PAGES), FIRST_PAGE, size, USER_PAGE)
  {
    Addresses();
  }

  lemma LaidLoaded(w: World, s: nat, plan: Plan)
    requires Laid(w, s, plan) && plan.stack <= LOW_PAGES && FIRST_PAGE + plan.program <= LOW_PAGES
    ensures Loaded(w, s, plan.program)
  {
    hide Corridors, Look;
    Addresses();
    UserFlags();
    forall q | IsPage(q) && Index(q) < LOW_PAGES
      ensures if FIRST_PAGE <= Index(q) < FIRST_PAGE + plan.program then Owned(Look(w, s, q).flags) else Look(w, s, q) == EMPTY
    {
      assert LaidAt(w, s, plan, q);
    }
  }

  // What the page's own entry grants is granted: that it is there, that it may be written, that programs may use it.
  ghost predicate Reached(w: World, s: nat, q: Path) {
    forall bit | bit in {0x001, 0x002, 0x004} :: Grants(w, s, q, bit) <==> Carries(Look(w, s, q).flags, bit)
  }

  // The pages of the plan are the space's own, and may be used as flagged; elsewhere it reads what space c read,
  // and nothing under the entries of the stacks.
  ghost predicate CompleteAt(v: World, w: World, s: nat, c: nat, plan: Plan, q: Path) {
    if OwnFlags(plan, Index(q)) != 0 then
      Look(w, s, q).flags == OwnFlags(plan, Index(q)) && Names(w, Node(s, q), Look(w, s, q).frame) && Reached(w, s, q)
    else
      Look(w, s, q) == if Reserved(TopDigit(q)) then EMPTY else Look(v, c, q)
  }

  ghost predicate Complete(v: World, w: World, s: nat, c: nat, plan: Plan) {
    forall q | IsPage(q) :: CompleteAt(v, w, s, c, plan, q)
  }

  // What space c shows is merged into the new space.
  lemma MergedComplete(v: World, w: World, x: World, s: nat, c: nat, limbo: set<nat>, plan: Plan)
    requires Laid(w, s, plan) && Merged(w, x, c, s) && Born(v, w, s, limbo) && Walkable(v, c) && Inv(x) && Walkable(x, s)
    requires s != KERNEL && plan.stack <= LOW_PAGES && FIRST_PAGE + plan.program <= LOW_PAGES
    requires x.kind[s] == Solo || (plan.program == 0 && plan.context <= CONTEXT_PAGES)
    ensures Complete(v, x, s, c, plan)
  {
    LaidCorridors(w, s, plan);
    hide Inv, Look, Others, MergedTables, Reached, Corridors, TopsShared, KernelKept, NewcomersOnly, OwnGrows, Accounted, KernelLow, NobodyLinked, Walkable, Laid;
    forall q | IsPage(q) ensures CompleteAt(v, x, s, c, plan, q) {
      LaidHere(w, s, plan, q);
      assert Look(x, s, q) == MergedPage(w, c, s, q);
      assert Look(w, c, q) == Look(v, c, q);
      if OwnFlags(plan, Index(q)) != 0 {
        PlanFlags(plan, q);
        OwnedIsNotEmpty(Look(w, s, q));
        var t := PageOwner(x, s, q);
        OwnReached(w, x, s, c, plan, q);
      }
    }
  }

  lemma OwnReached(w: World, x: World, s: nat, c: nat, plan: Plan, q: Path)
    requires Corridors(w, s) && MergedTables(w, x, c, s) && IsPage(q) && OwnFlags(plan, Index(q)) != 0
    requires Look(w, s, q).flags == OwnFlags(plan, Index(q)) && Look(x, s, q) == Look(w, s, q)
    requires plan.stack <= LOW_PAGES && FIRST_PAGE + plan.program <= LOW_PAGES
    ensures Reached(x, s, q)
  {
    hide Look, Corridors, MergedTables, Grants, Carries, Corridor, OwnFlags;
    var d4, d3, d2, d1 := DigitsOfPage(q);
    forall bit | bit in {0x001, 0x002, 0x004} ensures Grants(x, s, q, bit) <==> Carries(Look(x, s, q).flags, bit) {
      if Carries(Look(x, s, q).flags, bit) {
        forall p | Over(p, q) ensures Carries(Look(x, s, p).flags, bit) {
          OwnTable(w, x, s, c, plan, q, p, bit);
        }
        GrantsDown(x, s, d4, d3, d2, d1, bit);
      } else {
        NotGranted(x, s, q, bit);
      }
    }
  }

  lemma NotGranted(w: World, s: nat, q: Path, bit: bv12)
    requires IsPage(q) && !Carries(Look(w, s, q).flags, bit)
    ensures !Grants(w, s, q, bit)
  {
    hide Look, Carries;
  }

  // A table over an own page was there before the merge.
  lemma OwnTable(w: World, x: World, s: nat, c: nat, plan: Plan, q: Path, p: Path, bit: bv12)
    requires Corridors(w, s) && MergedTables(w, x, c, s) && IsPage(q) && Over(p, q) && bit in {0x001, 0x002, 0x004}
    requires Look(w, s, q).flags == OwnFlags(plan, Index(q)) && Carries(OwnFlags(plan, Index(q)), bit)
    requires plan.stack <= LOW_PAGES && FIRST_PAGE + plan.program <= LOW_PAGES
    ensures Carries(Look(x, s, p).flags, bit)
  {
    hide Look, Carries, OwnFlags, Corridor;
    NoFlags(bit);
    PageAbove(w, s, q);
    TableAbove(w, s, q, p);
    assert p.Step? by { var d4, d3, d2, d1 := DigitsOfPage(q); }
    NotContext(plan, q, p, Look(w, s, p).flags, bit);
  }

  // Programs are kept from the context stack by its own entries.
  lemma NotContext(plan: Plan, q: Path, p: Path, flags: bv12, bit: bv12)
    requires IsPage(q) && Over(p, q) && Carries(OwnFlags(plan, Index(q)), bit) && bit in {0x001, 0x002, 0x004} && Corridor(p, flags)
    requires plan.stack <= LOW_PAGES && FIRST_PAGE + plan.program <= LOW_PAGES
    ensures Carries(flags, bit)
  {
    if bit == 0x004 && Under(p, Step(Top, ENTRY_CONTEXT)) {
      var d4, d3, d2, d1 := DigitsOfPage(q);
      TopDigitIs(q);
      UnderDigits(d4, 0, 0, 0, d4, d3, d2, d1);
      UnderOnly(d4, d3, d2, d1, p);
      ContextPagesAre(plan, q);
    }
  }

  lemma UnderOnly(d4: nat, d3: nat, d2: nat, d1: nat, p: Path)
    requires Over(p, PagePath(d4, d3, d2, d1)) && Under(p, Step(Top, ENTRY_CONTEXT))
    ensures d4 == ENTRY_CONTEXT
  {
    var p1 := Step(Top, d4);
    var p2 := Step(p1, d3);
    assert !Under(Top, Step(Top, ENTRY_CONTEXT));
    assert Under(p1, Step(Top, ENTRY_CONTEXT)) <==> d4 == ENTRY_CONTEXT;
    assert Under(p2, Step(Top, ENTRY_CONTEXT)) <==> d4 == ENTRY_CONTEXT;
  }

  lemma ContextPagesAre(plan: Plan, q: Path)
    requires IsPage(q) && Index(q) / LOW_PAGES == ENTRY_CONTEXT && plan.stack <= LOW_PAGES && FIRST_PAGE + plan.program <= LOW_PAGES
    ensures !Carries(OwnFlags(plan, Index(q)), 0x004)
  {
    Addresses();
  }

  lemma LaidHere(w: World, s: nat, plan: Plan, q: Path)
    requires Laid(w, s, plan) && IsPage(q)
    ensures LaidAt(w, s, plan, q)
  {
  }

  lemma PlanFlags(plan: Plan, q: Path)
    requires IsPage(q) && OwnFlags(plan, Index(q)) != 0
    ensures Owned(OwnFlags(plan, Index(q)))
    ensures plan.program == 0 && plan.stack <= LOW_PAGES && plan.context <= CONTEXT_PAGES ==> Reserved(TopDigit(q))
  {
    Flags();
    Addresses();
    if plan.program == 0 && plan.stack <= LOW_PAGES && plan.context <= CONTEXT_PAGES {
      TopDigitIs(q);
    }
  }

  lemma SameLaid(w: World, x: World, s: nat, plan: Plan)
    requires SameWalks(w, x) && Laid(w, s, plan)
    ensures Laid(x, s, plan)
  {
    forall q | IsPage(q) ensures LaidAt(x, s, plan, q) {
      SameWalksLook(w, x, s, q);
      assert LaidAt(w, s, plan, q);
    }
    forall p | IsTable(p) && p.Step? && Look(x, s, p) != EMPTY ensures Corridor(p, Look(x, s, p).flags) {
      SameWalksLook(w, x, s, p);
    }
  }

  lemma GivenComplete(v: World, w: World, x: World, s: nat, c: nat, plan: Plan)
    requires Inv(w) && Walkable(w, s) && SameTables(w, x) && Complete(v, w, s, c, plan)
    ensures Complete(v, x, s, c, plan)
  {
    hide Inv, Look, Carries;
    forall q | IsPage(q) ensures CompleteAt(v, x, s, c, plan, q) {
      SameTablesWalk(w, x, s, q);
      assert CompleteAt(v, w, s, c, plan, q);
      forall bit ensures Grants(x, s, q, bit) <==> Grants(w, s, q, bit) {
        SameGrants(w, x, s, q, bit);
      }
    }
  }

  lemma {:induction false} SameGrants(w: World, x: World, s: nat, p: Path, bit: bv12)
    requires Inv(w) && Walkable(w, s) && SameTables(w, x) && Digits(p) && Depth(p) <= 4
    ensures Grants(x, s, p, bit) <==> Grants(w, s, p, bit)
  {
    hide Inv, Look, Carries, SameTables;
    if p.Step? {
      SameTablesWalk(w, x, s, p);
      SameGrants(w, x, s, p.up, bit);
    }
  }

  lemma GivenLoaded(w: World, x: World, s: nat, n: nat)
    requires Inv(w) && Walkable(w, s) && SameTables(w, x) && Loaded(w, s, n)
    ensures Loaded(x, s, n)
  {
    hide Inv, Look;
    forall q | IsPage(q) ensures Look(x, s, q) == Look(w, s, q) {
      SameTablesWalk(w, x, s, q);
    }
  }

  // The kernel has nothing there.
  lemma KernelShowsNothing(w: World, q: Path)
    requires Inv(w) && KernelLow(w) && IsPage(q) && Index(q) < LOW_PAGES
    ensures Look(w, KERNEL, q) == EMPTY
  {
    LowPage(q);
    KernelHasNothing(w, q);
  }

  lemma MergedLoaded(w: World, x: World, s: nat, n: nat)
    requires Inv(w) && KernelLow(w) && Merged(w, x, KERNEL, s) && Loaded(w, s, n)
    ensures Loaded(x, s, n)
  {
    hide Inv, KernelLow, Look, Others;
    forall q | IsPage(q) && Index(q) < LOW_PAGES
      ensures if FIRST_PAGE <= Index(q) < FIRST_PAGE + n then Owned(Look(x, s, q).flags) else Look(x, s, q) == EMPTY
    {
      KernelShowsNothing(w, q);
      TopDigitIs(q);
      OwnedIsNotEmpty(Look(w, s, q));
    }
  }

  lemma LoadedEntry(w: World, s: nat, n: nat)
    requires Loaded(w, s, n) && n > 0 && Walkable(w, s) && s != KERNEL && Roomy(w, s)
    ensures LowReady(w, s)
  {
    hide Look, Roomy;
    var q := PageAt(FIRST_PAGE);
    PageAtIs(FIRST_PAGE);
    LowPage(q);
    OwnedIsNotEmpty(Look(w, s, q));
    if Look(w, s, Step(Top, 0)) == EMPTY {
      BelowEmpty(w, s, q, Step(Top, 0));
    }
  }

  // The kernel adds no table under entry 0.
  lemma MergedRoomy(w: World, x: World, s: nat)
    requires Inv(w) && KernelLow(w) && Merged(w, x, KERNEL, s) && Corridors(w, s)
    ensures Roomy(x, s)
  {
    hide Inv, KernelLow, Look, Others, TopsShared, MergedPage, Carries;
    forall p | IsTable(p) && Under(p, Step(Top, 0)) && Look(x, s, p) != EMPTY ensures Passable(Look(x, s, p).flags) {
      KernelHasNothing(w, p);
      NotOverContext(p);
      assert p.Step?;
      assert Look(w, s, p) != EMPTY;
      assert Corridor(p, Look(w, s, p).flags);
    }
  }

  lemma KernelHasNothing(w: World, p: Path)
    requires Inv(w) && KernelLow(w) && Under(p, Step(Top, 0))
    ensures Look(w, KERNEL, p) == EMPTY
  {
    OneDeep();
    if Look(w, KERNEL, Step(Top, 0)) != EMPTY {
      var t := Locate(w, KERNEL, Step(Top, 0));
    }
    hide Inv;
    BelowEmpty(w, KERNEL, p, Step(Top, 0));
  }

  lemma {:induction false} NotOverContext(p: Path)
    requires Under(p, Step(Top, 0))
    ensures !Under(p, Step(Top, ENTRY_CONTEXT))
  {
    if p != Step(Top, 0) {
      NotOverContext(p.up);
      assert Depth(p) > 0;
      UnderIsDeeper(p.up, Step(Top, 0));
    }
  }

  lemma LoadedAgrees(w: World, s: nat, n: nat, words: seq<bv32>)
    requires Loaded(w, s, n) && WORD_BITS * |words| <= LOW_PAGES
    requires forall x: nat :: x in Free(words) <==> FIRST_PAGE + n <= x < WORD_BITS * |words|
    ensures Agrees(w, s, words)
  {
    hide Look, Free;
    forall x: nat | x < WORD_BITS * |words| ensures AgreesAt(w, s, words, x) {
      PageAtIs(x);
      OwnedIsNotEmpty(Look(w, s, PageAt(x)));
    }
  }

  // A process's map of its pages: all are free from the first one on, but for those of the program.
  method NewMap(limit: nat, mapPages: nat, n: nat) returns (words: array<bv32>)
    requires n > 0 && FIRST_PAGE < limit && FIRST_PAGE + n <= WORD_BITS * FRAME_WORDS * mapPages
    ensures fresh(words) && words.Length == FRAME_WORDS * mapPages
    ensures forall x: nat :: x in Free(words[..]) <==> FIRST_PAGE + n <= x < WORD_BITS * words.Length
  {
    hide Bitmap.Bounded;
    words := new bv32[FRAME_WORDS * mapPages](_ => 0);
    var i := 8;
    while i < words.Length
      invariant 8 <= i <= words.Length
      invariant forall j | 0 <= j < 8 :: words[j] == 0
      invariant forall j | 8 <= j < i :: words[j] == 0xFFFF_FFFF
    {
      words[i] := 0xFFFF_FFFF;
      i := i + 1;
    }
    FilledMap(words[..]);
    assert forall x: nat :: x in Free(words[..]) <==> FIRST_PAGE <= x < WORD_BITS * words.Length;
    ghost var free := Free(words[..]);
    assert Bitmap.Fits(free, FIRST_PAGE, n);
    EnoughMap(words[..], limit, n);
    var page := Acquire(words, limit, n);
    assert page >= FIRST_PAGE by { assert Bitmap.Fits(free, page, n); assert page in free; }
    assert page == FIRST_PAGE;
  }

  lemma EnoughMap(words: seq<bv32>, limit: nat, n: nat)
    requires FIRST_PAGE < limit && n > 0 && Bitmap.Fits(Free(words), FIRST_PAGE, n)
    ensures Bitmap.Bounded(words, limit, n)
  {
  }

  // ---- all that a process gets ------------------------------------------------------------------

  ghost predicate HoldsMap(w: World, s: nat, f: nat, n: nat) {
    forall x: nat | f <= x < f + n :: Names(w, Held(s, x), x)
  }

  lemma HeldStays(w: World, x: World, s: nat, f: nat, n: nat)
    requires HoldsMap(w, s, f, n) && OwnGrows(w, x)
    ensures HoldsMap(x, s, f, n)
  {
  }

  // The space of a process: its context stack, user stack, program, and the frames of its map.
  method Furnish(k: Kernel, ghost v: World, ghost s: nat, ghost limbo: set<nat>, args: nat, size: nat, mapPages: nat)
    returns (ok: bool, cr3: nat, frame: nat)
    requires k.Valid() && Inv(v) && KernelLow(v) && s !in v.kind && s != KERNEL
    requires 0 < args <= LOW_PAGES && size > 0 && FIRST_PAGE + size <= LOW_PAGES
    requires k.own == v.own && k.kind == v.kind && k.memory == v.memory && Accounted(v, k.W(), limbo)
    modifies k`memory, k`available, k`own, k`kind, k.bitmap
    ensures !ok ==> LacksOne(k.W(), k.limit, {1, args, size, mapPages})
    ensures ok ==>
              && k.Valid() && Raw(v, k.W(), s, limbo, cr3)
              && Laid(k.W(), s, Plan(size, args, CONTEXT_PAGES)) && HoldsMap(k.W(), s, frame, mapPages)
  {
    hide Inv, Accounted, Born, Pure, BareBelow, TopsOnly, KernelLow, Pool, Raw, Reshaped, Backed, PagesKept, SameWalks, OwnGrows, Laid, Adds, Owned, Look, Kernel.W, Kernel.Frames, InRange, PageOf, StackAddress;
    ok, frame := false, 0;
    Addresses();
    Flags();
    StackAt(args);
    cr3 := NewSpace(k, v, s, limbo);
    if cr3 == 0 {
      return;
    }
    ghost var w := k.W();
    RawWalkable(v, w, s, limbo, cr3);
    NothingLaid(w, s);
    var backed := Back(k, v, s, limbo, cr3, CONTEXT_ADDRESS, CONTEXT_PAGES, CONTEXT_PAGE);
    if !backed {
      return;
    }
    ghost var u := k.W();
    AddsContext();
    StacksLead(args);
    BackLaid(w, u, s, Plan(0, 0, 0), Plan(0, 0, CONTEXT_PAGES), PageOf(CONTEXT_ADDRESS), CONTEXT_PAGES, CONTEXT_PAGE);
    AddsStack(args);
    var loaded := LoadPlan(k, v, s, limbo, cr3, StackAddress(args), args, Plan(0, 0, CONTEXT_PAGES), Plan(0, args, CONTEXT_PAGES));
    if !loaded {
      return;
    }
    AddsProgram(size, args);
    loaded := LoadPlan(k, v, s, limbo, cr3, EXEC_ADDRESS, size, Plan(0, args, CONTEXT_PAGES), Plan(size, args, CONTEXT_PAGES));
    if !loaded {
      return;
    }
    ghost var z := k.W();
    frame := Keep(k, v, s, limbo, cr3, s, mapPages);
    if frame == 0 {
      assert Lacks(k.W(), k.limit, mapPages);
      return;
    }
    SameLaid(z, k.W(), s, Plan(size, args, CONTEXT_PAGES));
    ok := true;
  }

  // More pages of the plan.
  method LoadPlan(k: Kernel, ghost v: World, ghost s: nat, ghost limbo: set<nat>, cr3: nat, address: nat, n: nat, ghost a: Plan, ghost b: Plan)
    returns (ok: bool)
    requires k.Valid() && Raw(v, k.W(), s, limbo, cr3) && n > 0 && PageOf(address) + n <= PAGES
    requires Laid(k.W(), s, a) && Adds(a, b, PageOf(address), n, USER_PAGE)
    modifies k`memory, k`available, k`own, k.bitmap
    ensures !ok ==> LacksOne(k.W(), k.limit, {1, n})
    ensures ok ==> k.Valid() && Raw(v, k.W(), s, limbo, cr3) && Laid(k.W(), s, b)
  {
    hide Tagged, Corridors, Inv, Raw, PagesKept, OwnGrows, Laid, Adds, Look, Kernel.W, Kernel.Frames, PageOf;
    ghost var w := k.W();
    RawWalkable(v, w, s, limbo, cr3);
    LaidCorridors(w, s, a);
    LoadLeads(PageOf(address), n);
    LaidVacant(w, s, a, b, PageOf(address), n, USER_PAGE);
    ok := Load(k, v, s, limbo, cr3, address, n);
    if ok {
      CorridorsOn(w, k.W(), s, PageOf(address), n, USER_PAGE | WRITE);
      LaidMore(w, k.W(), s, a, b, PageOf(address), n, USER_PAGE);
    }
  }

  lemma LoadLeads(from: nat, n: nat)
    ensures Leads(USER_PAGE | WRITE, from, n)
  {
  }

  lemma RawWalkable(v: World, w: World, s: nat, limbo: set<nat>, cr3: nat)
    requires Raw(v, w, s, limbo, cr3)
    ensures Walkable(w, s)
  {
    RawParts(v, w, s, limbo, cr3);
  }

  lemma MayMergeKernel(v: World, w: World, s: nat, limbo: set<nat>, cr3: nat)
    requires Raw(v, w, s, limbo, cr3)
    ensures Mergeable(w, KERNEL, s) && KernelLow(w)
  {
    RawParts(v, w, s, limbo, cr3);
    KernelSolo(w);
    hide Inv, Pool;
  }

  lemma KernelSolo(w: World)
    requires Inv(w)
    ensures Walkable(w, KERNEL)
  {
  }

  lemma MergedOwn(v: World, w: World, a: nat, s: nat)
    requires Merged(v, w, a, s)
    ensures w.own == v.own && w.free == v.free && w.kind == v.kind
  {
    hide Look, MergedPage;
  }

  lemma FrameCount(k: Kernel)
    requires k.Valid()
    ensures |k.W().memory| == k.limit
  {
  }

  lemma LimboFrames(v: World, w: World, s: nat, limbo: set<nat>, f: nat, n: nat)
    requires Born(v, w, s, limbo) && Inv(v) && |w.memory| == |v.memory| && n > 0 && Range(f, n) <= limbo
    ensures f > 0 && Range(f, n) !! w.free
  {
    HeldLimbo(v, w, s, limbo, f, n);
    hide Born, Inv;
    assert Limbo(w, f);
  }

  lemma SpaceStays(v: World, w: World, x: World, s: nat, limbo: set<nat>, rest: set<nat>, cr3: nat)
    requires Raw(v, w, s, limbo, cr3) && Born(v, x, s, rest) && x.kind == w.kind && x.own == w.own
    ensures Walkable(x, s) && s != KERNEL && Inv(x)
  {
    RawParts(v, w, s, limbo, cr3);
    BornInv(v, x, s, rest);
    hide Inv, Born, Raw;
  }

  // The kernel's entries are shared with the new space, and the frames it was built with go back.
  method Finish(k: Kernel, ghost v: World, ghost s: nat, kernelCr3: nat, cr3: nat, work: nat, file: nat, ghost plan: Plan)
    requires k.Valid() && k.withheld == {} && Raw(v, k.W(), s, Range(work, file), cr3) && file > 0 && work + file <= k.limit
    requires Laid(k.W(), s, plan) && 0 < plan.program && FIRST_PAGE + plan.program <= LOW_PAGES && plan.stack <= LOW_PAGES
    requires Names(k.W(), Node(KERNEL, Top), kernelCr3)
    modifies k`memory, k`available, k.bitmap
    ensures k.Valid() && k.W().own == old(k.W()).own && k.W().kind == old(k.W()).kind
    ensures Born(v, k.W(), s, {}) && Loaded(k.W(), s, plan.program) && LowReady(k.W(), s)
    ensures Complete(v, k.W(), s, KERNEL, plan)
  {
    hide Corridors, Roomy, LowReady, Inv, Born, Pure, Pool, Raw, Loaded, Laid, Complete, Look, Limbo, Merged, Mergeable, Kernel.W, Kernel.Frames, Given, KernelLow, HasSpace;
    ghost var w, limbo := k.W(), Range(work, file);
    RawParts(v, w, s, limbo, cr3);
    FrameCount(k);
    MayMergeKernel(v, w, s, limbo, cr3);
    Merge(k, KERNEL, s, kernelCr3, cr3);
    ghost var x := k.W();
    FrameCount(k);
    MergedOwn(w, x, KERNEL, s);
    LaidLoaded(w, s, plan);
    MergedLoaded(w, x, s, plan.program);
    BornMerged(v, w, x, KERNEL, s, limbo);
    SpaceStays(v, w, x, s, limbo, limbo, cr3);
    KernelSolo(v);
    LaidCorridors(w, s, plan);
    MergedRoomy(w, x, s);
    MergedComplete(v, w, x, s, KERNEL, limbo, plan);
    LimboFrames(v, x, s, limbo, work, file);
    WithFree(k);
    k.Release(work, file);
    BornGiven(v, x, s, limbo, work, file);
    ghost var z := k.W();
    GivenOwn(x, work, file);
    assert limbo - Range(work, file) == {};
    GivenLoaded(x, z, s, plan.program);
    GivenComplete(v, x, z, s, KERNEL, plan);
    SpaceStays(v, w, z, s, limbo, {}, cr3);
    LoadedEntry(x, s, plan.program);
    GivenLow(x, z, s);
  }

  lemma GivenLow(w: World, x: World, s: nat)
    requires Inv(w) && SameTables(w, x) && LowReady(w, s)
    ensures LowReady(x, s)
  {
    hide Inv, Look;
    forall p | IsTable(p) ensures Look(x, s, p) == Look(w, s, p) {
      SameTablesWalk(w, x, s, p);
    }
    LowReadySame(w, x, s);
  }

  lemma WithFree(k: Kernel)
    ensures k.W().free == Free(k.bitmap[..])
  {
  }

  lemma GivenOwn(w: World, f: nat, n: nat)
    ensures Given(w, f, n).own == w.own && Given(w, f, n).kind == w.kind
  {
  }

  // ---- all that a thread gets -------------------------------------------------------------------

  lemma TakenNone(v: World)
    ensures Accounted(v, v, {})
  {
  }

  const THREAD_PLAN := Plan(0, STACK_PAGES, CONTEXT_PAGES)

  // The space of a thread: its two stacks.
  method FurnishThread(k: Kernel, ghost s: nat) returns (ok: bool, cr3: nat)
    requires k.Valid() && KernelLow(k.W()) && s !in k.W().kind && s != KERNEL
    modifies k`memory, k`available, k`own, k`kind, k.bitmap
    ensures !ok ==> Lacks(k.W(), k.limit, 1)
    ensures ok ==> k.Valid() && Raw(old(k.W()), k.W(), s, {}, cr3) && TopsOnly(k.W(), s) && Laid(k.W(), s, THREAD_PLAN)
  {
    hide Laid, Adds, StackAddress, Walkable, Lacks, Inv, Accounted, Born, Pure, BareBelow, TopsOnly, KernelLow, Pool, Raw, Reshaped, Backed, OwnGrows, Owned, Look, Kernel.Frames, InRange, PageOf, Reserved, TopDigit;
    ghost var v := k.W();
    TakenNone(v);
    ok := false;
    Flags();
    Addresses();
    cr3 := NewSpace(k, v, s, {});
    if cr3 == 0 {
      return;
    }
    ghost var w := k.W();
    var backed := Back(k, v, s, {}, cr3, CONTEXT_ADDRESS, CONTEXT_PAGES, CONTEXT_PAGE);
    if !backed {
      return;
    }
    ghost var u := k.W();
    ContextTops(v, w, u, s, cr3);
    RawWalkable(v, w, s, {}, cr3);
    RawWalkable(v, u, s, {}, cr3);
    NothingLaid(w, s);
    AddsContext();
    StacksLead(STACK_PAGES);
    BackLaid(w, u, s, Plan(0, 0, 0), Plan(0, 0, CONTEXT_PAGES), PageOf(CONTEXT_ADDRESS), CONTEXT_PAGES, CONTEXT_PAGE);
    StackAt(STACK_PAGES);
    backed := Back(k, v, s, {}, cr3, StackAddress(STACK_PAGES), STACK_PAGES, USER_PAGE);
    if !backed {
      return;
    }
    AddsStack(STACK_PAGES);
    BackLaid(u, k.W(), s, Plan(0, 0, CONTEXT_PAGES), THREAD_PLAN, STACK_END - STACK_PAGES, STACK_PAGES, USER_PAGE);
    StackTops(v, u, k.W(), s, cr3);
    ok := true;
  }

  lemma ContextTops(v: World, w: World, x: World, s: nat, cr3: nat)
    requires Raw(v, w, s, {}, cr3) && Raw(v, x, s, {}, cr3) && TopsOnly(w, s)
    requires Reshaped(w, x, s, PageOf(CONTEXT_ADDRESS), PageOf(CONTEXT_ADDRESS) + CONTEXT_PAGES, PageOf(CONTEXT_ADDRESS) + CONTEXT_PAGES)
    ensures TopsOnly(x, s)
  {
    hide Raw, Reshaped, Inv, TopsOnly;
    RawParts(v, w, s, {}, cr3);
    RawParts(v, x, s, {}, cr3);
    var from := PageOf(CONTEXT_ADDRESS);
    forall q | InRange(q, from, from + CONTEXT_PAGES) ensures Reserved(TopDigit(q)) {
      ContextIsReserved(q);
    }
    ReshapedTops(w, x, s, from, from + CONTEXT_PAGES, from + CONTEXT_PAGES);
  }

  lemma StackTops(v: World, w: World, x: World, s: nat, cr3: nat)
    requires Raw(v, w, s, {}, cr3) && Raw(v, x, s, {}, cr3) && TopsOnly(w, s)
    requires Reshaped(w, x, s, STACK_END - STACK_PAGES, STACK_END, STACK_END)
    ensures TopsOnly(x, s)
  {
    hide Raw, Reshaped, Inv, TopsOnly;
    RawParts(v, w, s, {}, cr3);
    RawParts(v, x, s, {}, cr3);
    forall q | InRange(q, STACK_END - STACK_PAGES, STACK_END) ensures Reserved(TopDigit(q)) {
      StackIsReserved(q);
    }
    ReshapedTops(w, x, s, STACK_END - STACK_PAGES, STACK_END, STACK_END);
  }

  lemma SameNewcomers(v: World, w: World, x: World, s: nat)
    requires x.own == w.own
    ensures NewcomersOnly(v, w, s) ==> NewcomersOnly(v, x, s)
    ensures OwnGrows(v, w) ==> OwnGrows(v, x)
  {
  }

  lemma KindStays(v: World, w: World, s: nat, kind: Kind)
    requires OldPagesStay(v, w) && s !in v.kind && KernelKept(v, w, s)
    ensures OldPagesStay(v, WithKind(w, s, kind)) && KernelKept(v, WithKind(w, s, kind), s)
  {
    KindLooks(w, s, kind);
    hide Look;
  }

  // The thread is counted to the process of space c.
  lemma BornKind(v: World, w: World, s: nat, limbo: set<nat>, kind: Kind)
    requires Born(v, w, s, limbo) && Inv(WithKind(w, s, kind)) && kind != Linked(s)
    ensures Born(v, WithKind(w, s, kind), s, limbo)
  {
    var x := WithKind(w, s, kind);
    SamePool(w, x);
    SameNewcomers(v, w, x, s);
    KindStays(v, w, s, kind);
    SameAccount(v, w, x, limbo);
    KindNobody(w, s, kind);
    hide Inv, Pool, Look, NewcomersOnly, OwnGrows, OldPagesStay, KernelKept, KernelLow, Accounted, NobodyLinked, WithKind;
  }

  lemma KindNobody(w: World, s: nat, kind: Kind)
    requires NobodyLinked(w, s) && kind != Linked(s)
    ensures NobodyLinked(WithKind(w, s, kind), s)
    ensures HasSpace(w, s) ==> HasSpace(WithKind(w, s, kind), s)
  {
  }

  lemma KindLooks(w: World, s: nat, kind: Kind)
    ensures forall r, p | r in w.kind && s in w.kind :: Look(WithKind(w, s, kind), r, p) == Look(w, r, p)
  {
  }

  lemma TopsVacant(w: World, s: nat)
    requires Inv(w) && HasSpace(w, s) && TopsOnly(w, s)
    ensures Vacant(w, Node(s, Top), 0)
  {
    forall j: nat | j < ENTRIES && !Reserved(j) ensures CellIs(w, Node(s, Top), j, EMPTY) {
      AtRoot(w, s);
      LookStep(w, s, Node(s, Top), j);
    }
  }

  // A thread about to share the entries of space c.
  lemma MayLink(v: World, w: World, s: nat, c: nat, cr3: nat)
    requires Raw(v, w, s, {}, cr3) && TopsOnly(w, s) && LowReady(v, c)
    ensures c in v.kind && Group(v, c) != s
    ensures var x := WithKind(w, s, Linked(Group(v, c)));
            Inv(x) && Born(v, x, s, {}) && Mergeable(x, c, s) && x.own == w.own
  {
    RawParts(v, w, s, {}, cr3);
    LowWalkable(v, c);
    GroupSolo(v, c);
    BornWalkable(v, w, s, {}, c);
    TopsVacant(w, s);
    GroupNotKernel(v, c);
    GroupOld(v, w, s, c);
    hide Born, Inv, TopsOnly, Raw, NobodyLinked, Vacant;
    BareKind(w, s, Linked(Group(v, c)));
    BornKind(v, w, s, {}, Linked(Group(v, c)));
    LinkMergeable(v, w, s, c);
  }

  lemma GroupNotKernel(w: World, c: nat)
    requires Inv(w) && LowReady(w, c)
    ensures Group(w, c) != KERNEL
  {
  }

  lemma GroupOld(v: World, w: World, s: nat, c: nat)
    requires Born(v, w, s, {}) && c in v.kind && Group(v, c) in v.kind
    ensures Group(v, c) in w.kind && w.kind[Group(v, c)] == v.kind[Group(v, c)] && Group(v, c) != s
  {
    hide Inv, Pool;
  }

  lemma LinkMergeable(v: World, w: World, s: nat, c: nat)
    requires Born(v, w, s, {}) && c in v.kind && c != KERNEL && Walkable(w, c) && c != s && w.kind[c] == v.kind[c] && HasSpace(w, s)
    requires var x := WithKind(w, s, Linked(Group(v, c))); Inv(x) && Born(v, x, s, {})
    requires Vacant(w, Node(s, Top), 0) && s != KERNEL
    ensures Mergeable(WithKind(w, s, Linked(Group(v, c))), c, s)
  {
    var x := WithKind(w, s, Linked(Group(v, c)));
    BornNobody(v, x, s, {});
    SameVacant(w, x, Node(s, Top));
    hide Inv, Vacant, NobodyLinked, Born;
    assert x.kind == w.kind[s := Linked(Group(v, c))] && x.own == w.own;
    assert Walkable(x, c) && Walkable(x, s) && Group(x, s) == Group(x, c);
  }

  lemma BornNobody(v: World, w: World, s: nat, limbo: set<nat>)
    requires Born(v, w, s, limbo)
    ensures NobodyLinked(w, s)
  {
    hide Inv, Pool, KernelKept, NewcomersOnly, OldPagesStay, KernelLow, Accounted, OwnGrows, NobodyLinked;
  }

  lemma SameVacant(w: World, x: World, n: Node)
    requires Vacant(w, n, 0) && x.own == w.own && x.memory == w.memory
    ensures Vacant(x, n, 0)
  {
    forall j: nat | j < ENTRIES && !Reserved(j) ensures CellIs(x, n, j, EMPTY) {
      assert CellIs(w, n, j, EMPTY);
    }
  }

  // The thread reads every page its creator reads, but for the stacks.
  ghost predicate Follows(v: World, w: World, s: nat, c: nat) {
    forall q | IsPage(q) && !Reserved(TopDigit(q)) :: Look(w, s, q) == Look(v, c, q)
  }

  // The creator's entries are shared with the thread.
  method Attach(k: Kernel, ghost v: World, ghost s: nat, ghost c: nat, callerCr3: nat, cr3: nat)
    requires k.Valid() && Raw(v, k.W(), s, {}, cr3) && TopsOnly(k.W(), s) && Laid(k.W(), s, THREAD_PLAN) && LowReady(v, c)
    requires Names(v, Node(c, Top), callerCr3)
    modifies k`memory, k`kind
    ensures k.Valid() && k.W().own == old(k.W()).own
    ensures c in v.kind && Born(v, k.W(), s, {}) && k.W().kind[s] == Linked(Group(v, c))
    ensures LowReady(k.W(), s) && Follows(v, k.W(), s, c) && Complete(v, k.W(), s, c, THREAD_PLAN)
  {
    hide Laid, Complete, Inv, Born, Raw, TopsOnly, Merged, Mergeable, LowReady, Look, Blank, Follows;
    ghost var w := k.W();
    MayLink(v, w, s, c, cr3);
    RootStays(v, w, s, cr3, c, callerCr3);
    k.kind := k.kind[s := Linked(Group(v, c))];
    ghost var x := k.W();
    assert x == WithKind(w, s, Linked(Group(v, c)));
    InvBlank(x);
    Merge(k, c, s, callerCr3, cr3);
    MergedOwn(x, k.W(), c, s);
    BornMerged(v, x, k.W(), c, s, {});
    ThreadLow(v, w, x, k.W(), s, c, cr3);
    ThreadComplete(v, w, x, k.W(), s, c, cr3);
    CompleteFollows(v, k.W(), s, c);
  }

  lemma RootStays(v: World, w: World, s: nat, cr3: nat, c: nat, root: nat)
    requires Raw(v, w, s, {}, cr3) && Names(v, Node(c, Top), root)
    ensures Names(w, Node(c, Top), root) && Names(w, Node(s, Top), cr3)
  {
    RawParts(v, w, s, {}, cr3);
  }

  lemma ThreadLow(v: World, w: World, x: World, y: World, s: nat, c: nat, cr3: nat)
    requires Raw(v, w, s, {}, cr3) && LowReady(v, c) && c in v.kind && x == WithKind(w, s, Linked(Group(v, c)))
    requires Merged(x, y, c, s) && Inv(y) && Born(v, x, s, {}) && Born(v, y, s, {}) && TopsOnly(w, s)
    ensures LowReady(y, s)
  {
    hide Inv, Raw, Look, MergedPage, MergedTables, Roomy;
    assert LowReady(x, c) by { hide Merged; }
    RawParts(v, w, s, {}, cr3);
    BareEntry(w, s, Linked(Group(v, c)));
    ThreadRoomy(x, y, s, c);
    CellShows(y, s, 0, Look(x, c, Step(Top, 0)));
  }

  lemma BareEntry(w: World, s: nat, kind: Kind)
    requires TopsOnly(w, s)
    ensures s in w.kind ==> Look(WithKind(w, s, kind), s, Step(Top, 0)) == EMPTY
  {
    KindLooks(w, s, kind);
    hide Look, WithKind;
    assert !Reserved(0);
  }

  // Under entry 0 the thread has the tables of its process.
  lemma ThreadRoomy(x: World, y: World, s: nat, c: nat)
    requires Merged(x, y, c, s) && LowReady(x, c) && Look(x, s, Step(Top, 0)) == EMPTY
    ensures Roomy(y, s)
  {
    hide Look, MergedPage, Passable, TopsShared, Others;
    forall p | IsTable(p) && Under(p, Step(Top, 0)) && Look(y, s, p) != EMPTY ensures Passable(Look(y, s, p).flags) {
      BelowEmpty(x, s, p, Step(Top, 0));
      assert p.Step?;
    }
  }

  lemma CellShows(w: World, s: nat, j: nat, e: Entry)
    requires Inv(w) && HasSpace(w, s) && CellIs(w, Node(s, Top), j, e)
    ensures Look(w, s, Step(Top, j)) == e
  {
    AtRoot(w, s);
    LookStep(w, s, Node(s, Top), j);
  }

  lemma ThreadComplete(v: World, w: World, x: World, y: World, s: nat, c: nat, cr3: nat)
    requires Raw(v, w, s, {}, cr3) && Laid(w, s, THREAD_PLAN) && LowReady(v, c) && c in v.kind && x == WithKind(w, s, Linked(Group(v, c)))
    requires Merged(x, y, c, s) && Inv(y) && Born(v, x, s, {}) && Walkable(y, s)
    ensures Complete(v, y, s, c, THREAD_PLAN)
  {
    hide Inv, Raw, Look, Merged, Born, Laid, Complete, LowReady, WithKind;
    RawParts(v, w, s, {}, cr3);
    KindLaid(w, s, Linked(Group(v, c)), THREAD_PLAN);
    LowWalkable(v, c);
    MergedComplete(v, x, y, s, c, {}, THREAD_PLAN);
  }

  lemma KindLaid(w: World, s: nat, kind: Kind, plan: Plan)
    requires Laid(w, s, plan) && s in w.kind
    ensures Laid(WithKind(w, s, kind), s, plan)
  {
    KindLooks(w, s, kind);
    hide Look, WithKind, OwnFlags;
    forall q | IsPage(q) ensures LaidAt(WithKind(w, s, kind), s, plan, q) {
      assert LaidAt(w, s, plan, q);
    }
  }

  lemma CompleteFollows(v: World, w: World, s: nat, c: nat)
    requires Complete(v, w, s, c, THREAD_PLAN)
    ensures Follows(v, w, s, c)
  {
    hide Look;
    forall q | IsPage(q) && !Reserved(TopDigit(q)) ensures Look(w, s, q) == Look(v, c, q) {
      assert CompleteAt(v, w, s, c, THREAD_PLAN, q);
      if OwnFlags(THREAD_PLAN, Index(q)) != 0 {
        PlanFlags(THREAD_PLAN, q);
      }
    }
  }
}
