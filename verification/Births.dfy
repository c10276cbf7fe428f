// Building a new space beside the others: every step leaves them as they are and accounts for every frame.
module Births {
  import opened Bitmap
  import opened Layout
  import opened Spaces
  import opened Memory
  import opened Reshaping
  import opened Pages
  import opened Paging
  import opened Teardown
  import opened Merging
  import opened Lifecycle
  import opened UserMemory

  // Since v, space s was added, and the frames of `limbo` are drawn but not yet handed to anyone.
  ghost predicate Born(v: World, w: World, s: nat, limbo: set<nat>) {
    && Inv(w)
    && s !in v.kind && s != KERNEL && KernelKept(v, w, s) && HasSpace(w, s) && NobodyLinked(w, s)
    && OwnGrows(v, w) && NewcomersOnly(v, w, s)
    && OldPagesStay(v, w) && KernelLow(w)
    && Accounted(v, w, limbo)
  }

  ghost predicate KernelKept(v: World, w: World, s: nat) {
    w.kind.Keys == v.kind.Keys + {s} && forall r | r in v.kind :: w.kind[r] == v.kind[r]
  }

  // What is newly owned is the new space's, or a buffer the kernel holds.
  ghost predicate NewcomersOnly(v: World, w: World, s: nat) {
    forall n | n in w.own && n !in v.own :: n.space == s || (n.Held? && n.space == KERNEL)
  }

  ghost predicate OldPagesStay(v: World, w: World) {
    && (forall r, q | Walkable(v, r) && IsPage(q) :: Look(w, r, q) == Look(v, r, q))
    && (forall r | LowReady(v, r) :: LowReady(w, r))
  }

  ghost predicate Accounted(v: World, w: World, limbo: set<nat>) {
    Pool(w) !! limbo && Pool(w) + limbo == Pool(v)
  }

  lemma InLimbo(v: World, w: World, s: nat, limbo: set<nat>, f: nat)
    requires Born(v, w, s, limbo) && f in limbo && Inv(v) && |w.memory| == |v.memory|
    ensures Limbo(w, f)
  {
    assert f in Pool(v);
    PoolFrames(v, f);
    assert f !in Pool(w);
    hide Inv, KernelKept, NewcomersOnly, OldPagesStay, OwnGrows;
    assert forall m | m in w.own :: w.own[m] in OwnedFrames(w);
  }

  lemma PoolFrames(w: World, f: nat)
    requires Inv(w) && f in Pool(w)
    ensures 0 < f < |w.memory|
  {
  }

  // ---- the space itself ------------------------------------------------------------------------

  lemma TakenFrames(w: World, f: nat, n: nat)
    requires Placed(w) && Blank(w)
    ensures Placed(Taken(w, f, n)) && Blank(Taken(w, f, n)) && SameTables(w, Taken(w, f, n))
  {
  }

  lemma PoolTaken(w: World, f: nat, n: nat)
    requires Inv(w) && Range(f, n) <= w.free
    ensures Inv(Taken(w, f, n)) && Accounted(w, Taken(w, f, n), Range(f, n))
  {
    hide Tables, Hangs, Kinds, Injective;
    TakenFrames(w, f, n);
    var x := Taken(w, f, n);
    SameTablesInv(w, x);
    assert OwnedFrames(x) == OwnedFrames(w);
  }

  lemma SpacePool(w: World, s: nat, g: nat)
    requires Inv(w) && s !in w.kind && g in w.free
    ensures OwnGrows(w, WithSpace(w, s, g)) && Pool(WithSpace(w, s, g)) == Pool(w)
  {
    NoNodes(w, s);
    hide Inv;
    PoolGains(w, WithSpace(w, s, g), Node(s, Top), g, {g});
  }

  // The new space, with frames already drawn for other ends.
  lemma Birth(v: World, s: nat, limbo: set<nat>, w: World, g: nat)
    requires Inv(v) && Inv(w) && KernelLow(v) && s !in v.kind && s != KERNEL
    requires w.own == v.own && w.kind == v.kind && w.memory == v.memory && Accounted(v, w, limbo) && g in w.free
    ensures Born(v, WithSpace(w, s, g), s, limbo)
    ensures |WithSpace(w, s, g).memory| == |v.memory|
  {
    var x := WithSpace(w, s, g);
    SpaceInv(w, s, g);
    SpacePool(w, s, g);
    SpaceShape(v, w, s, g);
    SpacePages(v, w, s, g);
    hide Inv, Pool, OldPagesStay, NewcomersOnly, KernelKept, OwnGrows, NobodyLinked, WithSpace;
  }

  lemma SpaceShape(v: World, w: World, s: nat, g: nat)
    requires w.own == v.own && w.kind == v.kind && w.memory == v.memory && KernelLow(v) && s != KERNEL
    ensures var x := WithSpace(w, s, g);
            && NewcomersOnly(v, x, s) && KernelLow(x) && HasSpace(x, s) && |x.memory| == |v.memory|
            && (s !in v.kind ==> KernelKept(v, x, s)) && (OwnGrows(w, x) ==> OwnGrows(v, x))
  {
  }

  lemma SpacePages(v: World, w: World, s: nat, g: nat)
    requires Inv(w) && w.own == v.own && w.kind == v.kind && w.memory == v.memory && s !in v.kind && g in w.free
    ensures OldPagesStay(v, WithSpace(w, s, g))
  {
    var x := WithSpace(w, s, g);
    hide Inv;
    forall r, p | Walkable(v, r) ensures Look(x, r, p) == Look(v, r, p) && Walkable(w, r) {
      SpaceWalk(w, s, g, r, p);
    }
  }

  // ---- steps -----------------------------------------------------------------------------------

  lemma BornTaken(v: World, w: World, s: nat, limbo: set<nat>, f: nat, n: nat)
    requires Born(v, w, s, limbo) && Range(f, n) <= w.free
    ensures Born(v, Taken(w, f, n), s, limbo + Range(f, n))
  {
    hide Born, Inv, Pool, Accounted, Taken, Others;
    BornInv(v, w, s, limbo);
    PoolTaken(w, f, n);
    TakenShape(w, f, n, s);
    AccountOn(v, w, Taken(w, f, n), limbo, Range(f, n));
    BornOthers(v, w, Taken(w, f, n), s, limbo, limbo + Range(f, n));
  }

  lemma AccountOn(v: World, w: World, x: World, limbo: set<nat>, more: set<nat>)
    requires Accounted(v, w, limbo) && Accounted(w, x, more)
    ensures Accounted(v, x, limbo + more)
  {
    hide Pool;
  }

  lemma TakenShape(w: World, f: nat, n: nat, s: nat)
    ensures var x := Taken(w, f, n); x.own == w.own && x.kind == w.kind && Others(w, x, s)
  {
    TakenLooks(w, f, n);
    hide Look;
  }

  lemma TakenLooks(w: World, f: nat, n: nat)
    ensures forall r, p :: Look(Taken(w, f, n), r, p) == Look(w, r, p)
  {
  }

  lemma NotInGroup(w: World, s: nat, r: nat)
    requires Inv(w) && Walkable(w, s) && w.kind[s] == Solo && NobodyLinked(w, s) && Walkable(w, r) && r != s
    ensures Group(w, r) != Group(w, s)
  {
  }

  lemma BornReshaped(v: World, w: World, x: World, s: nat, limbo: set<nat>, rest: set<nat>, from: nat, to: nat, end: nat, tag: bv12)
    requires Born(v, w, s, limbo) && w.kind[s] == Solo && Inv(x)
    requires Reshaped(w, x, s, from, to, end) && Open(x, s, from, end) && to <= end && OwnGrows(w, x)
    requires Accounted(v, x, rest) && Tagged(w, x, from, end, tag) && (Passable(tag) || from >= LOW_PAGES)
    ensures Born(v, x, s, rest)
  {
    hide Tagged, Inv, Pool, Reshaped, Open, LowReady, KernelLow, Accounted;
    LowReadyTagged(w, x, from, end, tag);
    ReshapedApart(w, x, s, from, to, end);
    ReshapedKind(w, x, s, from, to, end);
    ReshapedPrivate(w, x, s, from, to, end);
    KernelLowKept(w, x, s, from, to, end);
    OwnGrowsOn(v, w, x);
    forall r, q | Walkable(v, r) && IsPage(q) ensures Look(x, r, q) == Look(v, r, q) {
      BornWalkable(v, w, s, limbo, r);
      NotInGroup(w, s, r);
    }
  }

  lemma BornWalkable(v: World, w: World, s: nat, limbo: set<nat>, r: nat)
    requires Born(v, w, s, limbo) && Walkable(v, r)
    ensures Walkable(w, r) && r != s && w.kind[r] == v.kind[r]
  {
    hide Inv;
  }

  // Frames drawn are held for the space or the kernel.
  lemma BornHeld(v: World, w: World, s: nat, limbo: set<nat>, t: nat, f: nat, n: nat)
    requires Born(v, w, s, limbo) && Inv(v) && |w.memory| == |v.memory| && Range(f, n) <= limbo && (t == s || t == KERNEL)
    ensures Born(v, WithHeld(w, t, f, n), s, limbo - Range(f, n))
    ensures forall y: nat | f <= y < f + n :: Names(WithHeld(w, t, f, n), Held(t, y), y)
    ensures OwnGrows(w, WithHeld(w, t, f, n)) && SameWalks(w, WithHeld(w, t, f, n))
  {
    hide Inv, Pool, Holdings, Limbo, Born, WithHeld, SameWalks;
    var x := WithHeld(w, t, f, n);
    HeldLimbo(v, w, s, limbo, f, n);
    BornInv(v, w, s, limbo);
    HeldInv(w, t, f, n);
    HeldPool(w, t, f, n);
    HeldShape(w, t, f, n);
    BornHeldRest(v, w, s, limbo, t, f, n);
  }

  lemma BornInv(v: World, w: World, s: nat, limbo: set<nat>)
    requires Born(v, w, s, limbo)
    ensures Inv(w) && OwnGrows(v, w) && Accounted(v, w, limbo)
  {
  }

  lemma HeldLimbo(v: World, w: World, s: nat, limbo: set<nat>, f: nat, n: nat)
    requires Born(v, w, s, limbo) && Inv(v) && |w.memory| == |v.memory| && Range(f, n) <= limbo
    ensures forall y: nat | f <= y < f + n :: Limbo(w, y)
  {
    hide Inv, Born, Limbo;
    forall y: nat | f <= y < f + n ensures Limbo(w, y) {
      assert y in Range(f, n);
      InLimbo(v, w, s, limbo, y);
    }
  }

  lemma HeldShape(w: World, t: nat, f: nat, n: nat)
    ensures forall y: nat | f <= y < f + n :: Names(WithHeld(w, t, f, n), Held(t, y), y)
    ensures forall m | m in WithHeld(w, t, f, n).own && m !in w.own :: m.Held? && m.space == t
    ensures WithHeld(w, t, f, n).kind == w.kind
  {
    HoldingsAre(t, f, n);
    hide Holdings;
  }

  // A step that changes no walk, and takes or gives frames as said.
  lemma BornSame(v: World, w: World, x: World, s: nat, limbo: set<nat>, rest: set<nat>)
    requires Born(v, w, s, limbo) && Inv(x) && SameWalks(w, x)
    requires OwnGrows(v, x) && NewcomersOnly(v, x, s) && Accounted(v, x, rest)
    ensures Born(v, x, s, rest)
  {
    hide Inv, Pool;
    forall r, p ensures Look(x, r, p) == Look(w, r, p) {
      SameWalksLook(w, x, r, p);
    }
  }

  lemma BornHeldRest(v: World, w: World, s: nat, limbo: set<nat>, t: nat, f: nat, n: nat)
    requires Born(v, w, s, limbo) && Inv(WithHeld(w, t, f, n)) && SameWalks(w, WithHeld(w, t, f, n))
    requires OwnGrows(w, WithHeld(w, t, f, n)) && Pool(WithHeld(w, t, f, n)) == Pool(w) + Range(f, n) && Range(f, n) <= limbo
    requires t == s || t == KERNEL
    ensures Born(v, WithHeld(w, t, f, n), s, limbo - Range(f, n))
  {
    var x := WithHeld(w, t, f, n);
    HeldShape(w, t, f, n);
    hide Inv, Pool, SameWalks, WithHeld, Look, KernelLow, LowReady;
    assert NewcomersOnly(v, x, s) && OwnGrows(v, x);
    assert Accounted(v, x, limbo - Range(f, n));
    BornSame(v, w, x, s, limbo, limbo - Range(f, n));
  }

  lemma HeldPool(w: World, t: nat, f: nat, n: nat)
    requires Inv(w)
    ensures Pool(WithHeld(w, t, f, n)) == Pool(w) + Range(f, n)
    ensures OwnGrows(w, WithHeld(w, t, f, n))
  {
    var x := WithHeld(w, t, f, n);
    HoldingsAre(t, f, n);
    HeldSlots(w);
    hide Inv, Holdings;
    assert forall m | m in x.own :: m in Holdings(t, f, n) || m in w.own;
    forall g | g in Range(f, n) ensures g in OwnedFrames(x) {
      assert Held(t, g) in x.own && x.own[Held(t, g)] == g;
    }
    forall g | g in OwnedFrames(w) ensures g in OwnedFrames(x) {
      var m :| m in w.own && w.own[m] == g;
      assert m in x.own && x.own[m] == g;
    }
    forall g | g in OwnedFrames(x) ensures g in OwnedFrames(w) + Range(f, n) {
      var m :| m in x.own && x.own[m] == g;
      if m in Holdings(t, f, n) {
        assert m.slot in Range(f, n);
      }
    }
  }

  lemma HeldSlots(w: World)
    requires Inv(w)
    ensures forall m | m in w.own && m.Held? :: w.own[m] == m.slot
  {
  }

  lemma SamePool(w: World, x: World)
    requires x.own == w.own && x.free == w.free
    ensures Pool(x) == Pool(w) && (KernelLow(w) <==> KernelLow(x))
  {
    assert OwnedFrames(x) == OwnedFrames(w);
  }

  // A step that leaves every other walk as it was, and everything owned.
  lemma BornOthers(v: World, w: World, x: World, s: nat, limbo: set<nat>, rest: set<nat>)
    requires Born(v, w, s, limbo) && Inv(x) && Others(w, x, s) && x.own == w.own && x.kind == w.kind
    requires Accounted(v, x, rest)
    ensures Born(v, x, s, rest)
  {
    hide Inv, Pool, Accounted, Look;
    OneDeep();
    assert KernelLow(x);
    forall r | Walkable(v, r) ensures Walkable(w, r) && r != s {
      BornWalkable(v, w, s, limbo, r);
    }
  }

  lemma BornMerged(v: World, w: World, x: World, a: nat, s: nat, limbo: set<nat>)
    requires Born(v, w, s, limbo) && Merged(w, x, a, s) && Inv(x)
    ensures Born(v, x, s, limbo)
  {
    hide Inv, Pool, MergedPage, Born, Others;
    SamePool(w, x);
    BornInv(v, w, s, limbo);
    BornOthers(v, w, x, s, limbo, limbo);
  }

  // Frames drawn are given back blank.
  lemma GivenMany(w: World, f: nat, n: nat)
    requires Inv(w) && forall y: nat | f <= y < f + n :: Limbo(w, y)
    ensures Inv(Given(w, f, n)) && SameTables(w, Given(w, f, n))
    ensures Pool(Given(w, f, n)) == Pool(w) + Range(f, n)
  {
    var x := Given(w, f, n);
    assert forall y | y in Range(f, n) :: Limbo(w, y);
    assert SameTables(w, x);
    hide Tables, Hangs, Kinds;
    assert Placed(x) && Blank(x);
    SameTablesInv(w, x);
    assert OwnedFrames(x) == OwnedFrames(w);
  }

  lemma SameTablesOthers(w: World, x: World, s: nat)
    requires Inv(w) && SameTables(w, x)
    ensures Others(w, x, s)
  {
    forall r, p | Walkable(w, r) && r != s && Digits(p) && Depth(p) <= 4 ensures Look(x, r, p) == Look(w, r, p) {
      SameTablesWalk(w, x, r, p);
    }
  }

  lemma BornGiven(v: World, w: World, s: nat, limbo: set<nat>, f: nat, n: nat)
    requires Born(v, w, s, limbo) && Inv(v) && |w.memory| == |v.memory| && Range(f, n) <= limbo
    ensures Born(v, Given(w, f, n), s, limbo - Range(f, n))
    ensures SameTables(w, Given(w, f, n))
  {
    hide Inv, Pool, KernelLow, Limbo, Others, Born, Given, Blank;
    var x := Given(w, f, n);
    HeldLimbo(v, w, s, limbo, f, n);
    BornInv(v, w, s, limbo);
    GivenMany(w, f, n);
    SameTablesOthers(w, x, s);
    BornOthers(v, w, x, s, limbo, limbo - Range(f, n));
  }

  // ---- what the new space shows ----------------------------------------------------------------

  // All its tables are its own.
  ghost predicate Pure(w: World, s: nat) {
    forall p | IsTable(p) && p.Step? && Look(w, s, p) != EMPTY :: Process(Look(w, s, p).flags)
  }

  // Nothing is mapped below a page.
  ghost predicate BareBelow(w: World, s: nat, at: nat) {
    forall q | IsPage(q) && Index(q) < at :: Look(w, s, q) == EMPTY
  }

  // It has no table but the top one.
  ghost predicate Tableless(w: World, s: nat) {
    forall p | IsTable(p) && p.Step? :: Look(w, s, p) == EMPTY
  }

  // It has tables under the reserved entries only.
  ghost predicate TopsOnly(w: World, s: nat) {
    forall j: nat | j < ENTRIES && !Reserved(j) :: Look(w, s, Step(Top, j)) == EMPTY
  }

  lemma PureOpen(w: World, s: nat, from: nat, to: nat)
    requires Pure(w, s) && s in w.kind && w.kind[s] == Solo && s != KERNEL
    ensures Open(w, s, from, to)
  {
    forall q | InRange(q, from, to) ensures OpenPage(w, s, q) {
      var d4, d3, d2, d1 := DigitsOfPage(q);
      TableDepths(d4, d3, d2);
    }
  }

  lemma TableDepths(d4: nat, d3: nat, d2: nat)
    requires d4 < ENTRIES && d3 < ENTRIES && d2 < ENTRIES
    ensures IsTable(Step(Top, d4)) && IsTable(Step(Step(Top, d4), d3)) && IsTable(Step(Step(Step(Top, d4), d3), d2))
  {
    assert Depth(Step(Top, d4)) == 1 && Digits(Step(Top, d4));
    assert Depth(Step(Step(Top, d4), d3)) == 2 && Digits(Step(Step(Top, d4), d3));
  }

  lemma NewbornIsBare(w: World, s: nat, g: nat)
    requires Inv(w) && g in w.free
    ensures var x := WithSpace(w, s, g); Pure(x, s) && BareBelow(x, s, PAGES) && TopsOnly(x, s) && Tableless(x, s)
  {
    var x := WithSpace(w, s, g);
    forall p: Path | p.Step? ensures Look(x, s, p) == EMPTY {
      SpaceBare(w, s, g, p);
    }
  }

  lemma SameLooks(w: World, x: World, s: nat, at: nat)
    requires forall p :: Look(x, s, p) == Look(w, s, p)
    ensures Pure(w, s) ==> Pure(x, s)
    ensures BareBelow(w, s, at) ==> BareBelow(x, s, at)
    ensures TopsOnly(w, s) ==> TopsOnly(x, s)
  {
  }

  lemma ReshapedPure(w: World, x: World, s: nat, from: nat, to: nat, end: nat)
    requires Pure(w, s) && Reshaped(w, x, s, from, to, end) && s != KERNEL && Walkable(w, s)
    ensures Pure(x, s)
  {
    hide Kept, Apart, OwnKept, NewOwn, NoLeak;
  }

  // Pages under a reserved entry need tables under that entry only.
  lemma ReshapedTops(w: World, x: World, s: nat, from: nat, to: nat, end: nat)
    requires TopsOnly(w, s) && Inv(w) && Inv(x) && Reshaped(w, x, s, from, to, end) && s != KERNEL && Walkable(w, s) && Walkable(x, s)
    requires w.kind[s] == Solo
    requires forall q | InRange(q, from, end) :: Reserved(TopDigit(q))
    ensures TopsOnly(x, s)
  {
    forall j: nat | j < ENTRIES && !Reserved(j)
      ensures Look(x, s, Step(Top, j)) == EMPTY
    {
      TableDepths(j, 0, 0);
      if Look(x, s, Step(Top, j)) != EMPTY {
        TopIsNew(w, x, s, from, to, end, j);
      }
    }
  }

  lemma TopIsNew(w: World, x: World, s: nat, from: nat, to: nat, end: nat, j: nat)
    requires Inv(w) && Inv(x) && Reshaped(w, x, s, from, to, end) && s != KERNEL && Walkable(w, s) && Walkable(x, s)
    requires w.kind[s] == Solo && j < ENTRIES && Look(w, s, Step(Top, j)) == EMPTY && Look(x, s, Step(Top, j)) != EMPTY
    ensures exists q :: InRange(q, from, end) && TopDigit(q) == j
  {
    TableDepths(j, 0, 0);
    ReshapedKind(w, x, s, from, to, end);
    var t := Locate(x, s, Step(Top, j));
    assert t == s by { hide Inv, Kept, Apart, OwnKept, NewOwn, NoLeak; }
    var c := Node(s, Step(Top, j));
    if c in w.own {
      OwnedTopLooks(w, s, j);
    } else {
      assert NewNode(w, x, s, from, to, end, c) by { hide Inv, Kept, Apart, OwnKept, NoLeak; }
      assert !InRange(c.path, from, to);
      var q :| InRange(q, from, end) && Over(c.path, q);
      var d4, d3, d2, d1 := DigitsOfPage(q);
      assert Up(Up(Up(q))) == Step(Top, d4);
    }
  }

  lemma OwnedTopLooks(w: World, s: nat, j: nat)
    requires Inv(w) && Walkable(w, s) && Node(s, Step(Top, j)) in w.own && j < ENTRIES
    ensures Look(w, s, Step(Top, j)) != EMPTY
  {
    assert Hung(w, Node(s, Step(Top, j)));
    AtRoot(w, s);
    LookStep(w, s, Node(s, Top), j);
  }
}
