// Taking pages and whole spaces out of the paging tables.
module Teardown {
  import opened Bitmap
  import opened Layout
  import opened Spaces
  import opened Memory
  import opened Reshaping
  import opened Pages
  import opened Paging

  // p is a prefix of q.
  predicate Under(q: Path, p: Path) {
    q == p || (q.Step? && Under(q.up, p))
  }

  // Space s owns nothing at or below position p.
  ghost predicate Clear(w: World, s: nat, p: Path) {
    forall n | n in w.own && n.Node? && n.space == s :: !Under(n.path, p)
  }

  ghost predicate ClearTo(w: World, s: nat, p: Path, to: nat) {
    forall j: nat | j < to :: Clear(w, s, Step(p, j))
  }

  ghost predicate NobodyLinked(w: World, s: nat) {
    forall t | t in w.kind :: w.kind[t] != Linked(s)
  }

  // A frame nobody owns is given back.
  lemma GivenInv(w: World, f: nat)
    requires Inv(w) && Limbo(w, f)
    ensures Inv(Given(w, f, 1)) && SameTables(w, Given(w, f, 1))
  {
    var v := Given(w, f, 1);
    assert SameTables(w, v);
    assert Range(f, 1) == {f};
    hide Tables, Hangs, Kinds;
    assert Placed(v);
    assert Blank(v);
    SameTablesInv(w, v);
  }

  // ---- a page ----------------------------------------------------------------------------------

  // Page i of table n is taken out and its frame freed.
  ghost function WithoutLeaf(w: World, n: Node, i: nat): World
    requires IsTableAt(w, n) && i < ENTRIES
  {
    Given(WithLeaf(w, n, i, EMPTY), Cell(w, n, i).frame, 1)
  }

  ghost predicate OwnsLeaf(w: World, n: Node, i: nat) {
    && IsTableAt(w, n) && Depth(n.path) == 3 && i < ENTRIES && n.space in w.kind
    && n.space != KERNEL && Owned(Cell(w, n, i).flags)
  }

  lemma LeafIsOwned(w: World, n: Node, i: nat)
    requires Inv(w) && OwnsLeaf(w, n, i)
    ensures Names(w, Node(n.space, Step(n.path, i)), Cell(w, n, i).frame)
  {
    OwnedIsNotEmpty(Cell(w, n, i));
    assert Typed(w, n, i);
  }

  lemma OwnedIsNotEmpty(e: Entry)
    ensures Process(e.flags) ==> e != EMPTY
  {
  }

  lemma UnclaimedLeaf(w: World, n: Node, i: nat)
    requires Inv(w) && OwnsLeaf(w, n, i)
    ensures CanHoldLeaf(w, n, i, EMPTY)
    ensures Limbo(WithLeaf(w, n, i, EMPTY), Cell(w, n, i).frame)
  {
    LeafIsOwned(w, n, i);
    hide Tables, Hangs, Kinds, Blank, Look;
    OwnedIsNotEmpty(EMPTY);
  }

  lemma LeafGone(w: World, n: Node, i: nat)
    requires Inv(w) && OwnsLeaf(w, n, i)
    ensures Inv(WithoutLeaf(w, n, i))
    ensures SameTables(WithLeaf(w, n, i, EMPTY), WithoutLeaf(w, n, i))
    ensures CanHoldLeaf(w, n, i, EMPTY)
  {
    UnclaimedLeaf(w, n, i);
    hide Inv, OwnsLeaf, CanHoldLeaf, Limbo, SameTables, WithLeaf;
    LeafKeepsInv(w, n, i, EMPTY);
    GivenInv(WithLeaf(w, n, i, EMPTY), Cell(w, n, i).frame);
  }

  // ---- a table ---------------------------------------------------------------------------------

  // Table c = entry i of n is taken out.
  ghost function CutTable(w: World, n: Node, i: nat): World
    requires IsTableAt(w, n) && i < ENTRIES
  {
    World(Put(w.memory, w.own[n], i, EMPTY), w.own - {Node(n.space, Step(n.path, i))}, w.free, w.kind)
  }

  ghost predicate CanCut(w: World, n: Node, i: nat) {
    && IsTableAt(w, n) && Depth(n.path) < 3 && i < ENTRIES && n.space in w.kind
    && n.space != KERNEL && Process(Cell(w, n, i).flags) && w.kind[n.space] == Solo
    && NobodyLinked(w, n.space)
    && ClearTo(w, n.space, Step(n.path, i), ENTRIES)
  }

  lemma CutIsOwned(w: World, n: Node, i: nat)
    requires Inv(w) && CanCut(w, n, i)
    ensures Names(w, Node(n.space, Step(n.path, i)), Cell(w, n, i).frame)
  {
    OwnedIsNotEmpty(Cell(w, n, i));
    assert Typed(w, n, i);
  }

  lemma CutKeepsHangs(w: World, n: Node, i: nat)
    requires Inv(w) && CanCut(w, n, i)
    ensures Hangs(CutTable(w, n, i))
  {
    var x := CutTable(w, n, i);
    var c := Node(n.space, Step(n.path, i));
    CutIsOwned(w, n, i);
    forall m | m in x.own
      ensures Hung(x, m)
    {
      assert Hung(w, m);
      if m.Node? && m.path.Step? && Node(m.space, m.path.up) == c {
        assert Under(m.path, Step(Step(n.path, i), m.path.digit));
      }
    }
  }

  lemma CutKeepsTables(w: World, n: Node, i: nat)
    requires Inv(w) && CanCut(w, n, i) && Placed(CutTable(w, n, i))
    ensures Tables(CutTable(w, n, i))
  {
    var x := CutTable(w, n, i);
    hide Hangs, Blank, ClearTo;
    forall m, j: nat | IsTableAt(x, m) && j < ENTRIES
      ensures Typed(x, m, j)
    {
      assert IsTableAt(w, m) && Typed(w, m, j);
      if m != n || j != i {
        assert Cell(x, m, j) == Cell(w, m, j) by { hide TypedAs, Typed; }
        if Cell(w, m, j) != EMPTY {
          CutKeepsTyped(w, n, i, m, j, Cell(w, m, j));
        }
      }
    }
  }

  lemma CutKeepsTyped(w: World, n: Node, i: nat, m: Node, j: nat, f: Entry)
    requires CanCut(w, n, i) && IsTableAt(w, m) && m.space in w.kind && Kinds(w)
    requires m != n || j != i
    requires TypedAs(w, m, j, f)
    ensures TypedAs(CutTable(w, n, i), m, j, f)
  {
    hide ClearTo;
    var x := CutTable(w, n, i);
    var c := Node(n.space, Step(n.path, i));
    if Depth(m.path) == 3 {
      assert Depth(Step(m.path, j)) == 4 && Depth(c.path) <= 3;
    } else if Process(f.flags) {
      assert Node(Home(w, m, j), Step(m.path, j)) != c;
    }
  }

  lemma CutKeepsInv(w: World, n: Node, i: nat)
    requires Inv(w) && CanCut(w, n, i)
    ensures Inv(CutTable(w, n, i))
    ensures Limbo(CutTable(w, n, i), Cell(w, n, i).frame)
  {
    CutIsOwned(w, n, i);
    CutKeepsHangs(w, n, i);
    hide ClearTo, NobodyLinked;
    CutKeepsTables(w, n, i);
  }

  // A space whose walk does not use a table of space s sees nothing of the cut.
  lemma {:induction false} CutWalk(w: World, n: Node, i: nat, r: nat, p: Path)
    requires Inv(w) && CanCut(w, n, i) && Walkable(w, r) && r != n.space && Digits(p) && Depth(p) <= 4
    ensures Look(CutTable(w, n, i), r, p) == Look(w, r, p)
  {
    match p
    case Top =>
    case Step(up, j) =>
      CutWalk(w, n, i, r, up);
      if Look(w, r, up) != EMPTY {
        var t := Locate(w, r, up);
        assert t != n.space;
        assert Node(t, up) != n;
      }
  }

  ghost function WithoutTable(w: World, n: Node, i: nat): World
    requires IsTableAt(w, n) && i < ENTRIES
  {
    Given(CutTable(w, n, i), Cell(w, n, i).frame, 1)
  }

  lemma TableGone(w: World, n: Node, i: nat)
    requires Inv(w) && CanCut(w, n, i)
    ensures Inv(WithoutTable(w, n, i)) && Inv(CutTable(w, n, i))
    ensures SameTables(CutTable(w, n, i), WithoutTable(w, n, i))
  {
    assert IsTableAt(w, n) && i < ENTRIES;
    hide Inv, CanCut, Limbo, SameTables, CutTable;
    CutKeepsInv(w, n, i);
    GivenInv(CutTable(w, n, i), Cell(w, n, i).frame);
  }

  // ---- a whole space ---------------------------------------------------------------------------

  // From v to w some pages and tables of space s were taken out: exactly their frames were freed,
  // and no other space sees a change.
  ghost predicate Shrunk(v: World, w: World, s: nat) {
    && w.kind == v.kind
    && (forall n | n in w.own :: n in v.own && w.own[n] == v.own[n])
    && (forall n | n in v.own && n !in w.own :: n.Node? && n.space == s && n.path.Step?)
    && Freed(v, w)
    && Others(v, w, s)
  }

  ghost predicate Freed(v: World, w: World) {
    && v.free <= w.free
    && (forall n | n in v.own && n !in w.own :: v.own[n] in w.free)
    && (forall f | f in w.free && f !in v.free :: exists n :: n in v.own && n !in w.own && v.own[n] == f)
  }

  ghost predicate Others(v: World, w: World, s: nat) {
    forall r, p | Walkable(v, r) && r != s && Digits(p) && Depth(p) <= 4 :: Look(w, r, p) == Look(v, r, p)
  }

  // Where a teardown of space s stands.
  ghost predicate Tearing(v: World, w: World, s: nat) {
    && Inv(v) && Inv(w) && Shrunk(v, w, s)
    && HasSpace(w, s) && s != KERNEL && w.kind[s] == Solo && NobodyLinked(w, s)
  }

  lemma FreedOne(v: World, w: World, x: World, n: Node, f: nat)
    requires Freed(v, w) && n in w.own && n in v.own && v.own[n] == f
    requires forall m :: m in x.own <==> m in w.own && m != n
    requires x.free == w.free + {f}
    ensures Freed(v, x)
  {
    forall g | g in x.free && g !in v.free
      ensures exists m :: m in v.own && m !in x.own && v.own[m] == g
    {
      if g == f {
        assert n in v.own && n !in x.own;
      } else {
        var m :| m in v.own && m !in w.own && v.own[m] == g;
        assert m !in x.own;
      }
    }
  }

  lemma OthersLeaf(v: World, w: World, s: nat, n: Node, i: nat)
    requires Inv(v) && Inv(w) && w.kind == v.kind && Others(v, w, s) && OwnsLeaf(w, n, i) && n.space == s
    requires HasSpace(w, s) && NobodyLinked(w, s)
    requires forall r | HasSpace(v, r) && r != s :: HasSpace(w, r)
    ensures Others(v, WithoutLeaf(w, n, i), s)
  {
    var x := WithoutLeaf(w, n, i);
    var u := WithLeaf(w, n, i, EMPTY);
    LeafGone(w, n, i);
    LeafKeepsInv(w, n, i, EMPTY);
    forall r, p | Walkable(v, r) && r != s && Digits(p) && Depth(p) <= 4
      ensures Look(x, r, p) == Look(v, r, p)
    {
      LeafWalk(w, n, i, EMPTY, r, p);
      SameTablesWalk(u, x, r, p);
      if Look(w, r, n.path) != EMPTY && Look(w, r, n.path).frame == w.own[n] {
        var t := Locate(w, r, n.path);
        assert Node(t, n.path) == n;
      }
    }
  }

  lemma OthersTable(v: World, w: World, s: nat, n: Node, i: nat)
    requires Inv(v) && Inv(w) && w.kind == v.kind && Others(v, w, s) && CanCut(w, n, i) && n.space == s
    requires forall r | HasSpace(v, r) && r != s :: HasSpace(w, r)
    ensures Others(v, WithoutTable(w, n, i), s)
  {
    var x := WithoutTable(w, n, i);
    var u := CutTable(w, n, i);
    TableGone(w, n, i);
    hide Inv, CanCut, SameTables, CutTable, WithoutTable;
    forall r, p | Walkable(v, r) && r != s && Digits(p) && Depth(p) <= 4
      ensures Look(x, r, p) == Look(v, r, p)
    {
      CutWalk(w, n, i, r, p);
      CutWalkable(w, n, i, r);
      SameTablesWalk(u, x, r, p);
    }
  }

  lemma CutWalkable(w: World, n: Node, i: nat, r: nat)
    requires IsTableAt(w, n) && i < ENTRIES && Walkable(w, r)
    ensures Walkable(CutTable(w, n, i), r)
  {
  }

  lemma LeafGoneShape(w: World, n: Node, i: nat)
    requires IsTableAt(w, n) && i < ENTRIES
    ensures WithoutLeaf(w, n, i).own == w.own - {Node(n.space, Step(n.path, i))}
    ensures WithoutLeaf(w, n, i).free == w.free + {Cell(w, n, i).frame}
    ensures WithoutLeaf(w, n, i).kind == w.kind
  {
    OwnedIsNotEmpty(EMPTY);
    assert Range(Cell(w, n, i).frame, 1) == {Cell(w, n, i).frame};
  }

  lemma TableGoneShape(w: World, n: Node, i: nat)
    requires IsTableAt(w, n) && i < ENTRIES
    ensures WithoutTable(w, n, i).own == w.own - {Node(n.space, Step(n.path, i))}
    ensures WithoutTable(w, n, i).free == w.free + {Cell(w, n, i).frame}
    ensures WithoutTable(w, n, i).kind == w.kind
  {
    assert Range(Cell(w, n, i).frame, 1) == {Cell(w, n, i).frame};
  }

  // Taking out one node of the space is a step of its teardown.
  lemma TearStep(v: World, w: World, x: World, s: nat, n: Node, f: nat)
    requires Tearing(v, w, s) && n.Node? && n.space == s && n.path.Step?
    requires Names(w, n, f) && x.own == w.own - {n} && x.free == w.free + {f} && x.kind == w.kind
    requires Inv(x) && Others(v, x, s)
    ensures Tearing(v, x, s)
  {
    hide Inv, Freed, Others;
    FreedOne(v, w, x, n, f);
  }

  lemma TearingParts(v: World, w: World, s: nat)
    requires Tearing(v, w, s)
    ensures Inv(v) && Inv(w) && w.kind == v.kind && Others(v, w, s) && HasSpace(w, s) && NobodyLinked(w, s)
    ensures forall r | HasSpace(v, r) && r != s :: HasSpace(w, r)
  {
    hide Inv, Freed, Others, NobodyLinked;
  }

  lemma TearLeaf(v: World, w: World, s: nat, n: Node, i: nat)
    requires Tearing(v, w, s) && IsTableAt(w, n) && i < ENTRIES && OwnsLeaf(w, n, i) && n.space == s
    ensures Tearing(v, WithoutLeaf(w, n, i), s)
  {
    hide Tearing, Inv, SameTables, CanHoldLeaf, Others, WithoutLeaf, OwnsLeaf, WithLeaf, Look, NobodyLinked;
    TearingParts(v, w, s);
    LeafGone(w, n, i);
    LeafIsOwned(w, n, i);
    LeafGoneShape(w, n, i);
    OthersLeaf(v, w, s, n, i);
    TearStep(v, w, WithoutLeaf(w, n, i), s, Node(n.space, Step(n.path, i)), Cell(w, n, i).frame);
  }

  lemma TearTable(v: World, w: World, s: nat, n: Node, i: nat)
    requires Tearing(v, w, s) && IsTableAt(w, n) && i < ENTRIES && CanCut(w, n, i) && n.space == s
    ensures Tearing(v, WithoutTable(w, n, i), s)
  {
    hide Tearing, Inv, SameTables, Others, WithoutTable, CanCut, CutTable, Look, NobodyLinked;
    TearingParts(v, w, s);
    TableGone(w, n, i);
    CutIsOwned(w, n, i);
    TableGoneShape(w, n, i);
    OthersTable(v, w, s, n, i);
    TearStep(v, w, WithoutTable(w, n, i), s, Node(n.space, Step(n.path, i)), Cell(w, n, i).frame);
  }

  // ---- what is already clear -------------------------------------------------------------------

  lemma {:induction false} NothingBelow(w: World, s: nat, p: Path, q: Path)
    requires Inv(w) && Under(q, p) && Node(s, q) in w.own
    ensures Node(s, p) in w.own
  {
    if q != p {
      assert Hung(w, Node(s, q));
      NothingBelow(w, s, p, q.up);
    }
  }

  lemma AbsentIsClear(w: World, s: nat, p: Path)
    requires Inv(w) && Node(s, p) !in w.own
    ensures Clear(w, s, p)
  {
    forall n | n in w.own && n.Node? && n.space == s
      ensures !Under(n.path, p)
    {
      if Under(n.path, p) {
        NothingBelow(w, s, p, n.path);
      }
    }
  }

  // In a table of a space with entries of its own, the flag tells what the space owns.
  lemma FlagIsOwnership(w: World, n: Node, i: nat)
    requires Inv(w) && IsTableAt(w, n) && Depth(n.path) < 3 && i < ENTRIES && n.space in w.kind
    requires n.space != KERNEL && w.kind[n.space] == Solo
    ensures Process(Cell(w, n, i).flags) <==> Node(n.space, Step(n.path, i)) in w.own
  {
    OwnedIsNotEmpty(Cell(w, n, i));
    assert Typed(w, n, i);
    assert Node(n.space, Step(n.path, i)) in w.own ==> Hung(w, Node(n.space, Step(n.path, i)));
  }

  lemma LeafFlagIsOwnership(w: World, n: Node, i: nat)
    requires Inv(w) && IsTableAt(w, n) && Depth(n.path) == 3 && i < ENTRIES && n.space in w.kind
    requires n.space != KERNEL
    ensures Owned(Cell(w, n, i).flags) <==> Node(n.space, Step(n.path, i)) in w.own
  {
    OwnedIsNotEmpty(Cell(w, n, i));
    assert Typed(w, n, i);
    assert Node(n.space, Step(n.path, i)) in w.own ==> Hung(w, Node(n.space, Step(n.path, i)));
  }

  // A teardown of space s stands at table n: one of the space, or one of the kernel's it passes through.
  ghost predicate StandsAt(w: World, s: nat, n: Node, table: nat) {
    && n.Node? && (n.space == s || n.space == KERNEL) && n.space in w.kind
    && IsTableAt(w, n) && w.own[n] == table
    && (n.space == KERNEL ==> Node(s, n.path) !in w.own)
  }

  // What the teardown has yet to come to, and what it has cleared, is as it was.
  ghost predicate Onward(w: World, x: World, s: nat, c: Node) {
    && (forall p, to: nat | ClearTo(w, s, p, to) :: ClearTo(x, s, p, to))
    && (forall n, t | StandsAt(w, s, n, t) && n != c :: StandsAt(x, s, n, t))
  }

  lemma OnwardStep(w: World, x: World, s: nat, c: Node)
    requires x.own == w.own - {c} && x.kind == w.kind && |x.memory| == |w.memory|
    ensures Onward(w, x, s, c)
  {
    forall p, to: nat | ClearTo(w, s, p, to)
      ensures ClearTo(x, s, p, to)
    {
      forall j: nat | j < to ensures Clear(x, s, Step(p, j)) {
        assert Clear(w, s, Step(p, j));
      }
    }
  }

  lemma ClearNext(w: World, s: nat, p: Path, j: nat)
    requires ClearTo(w, s, p, j) && Clear(w, s, Step(p, j))
    ensures ClearTo(w, s, p, j + 1)
  {
  }

  // The node below an entry is not owned, or not any more: the position is clear.
  lemma Passed(w: World, s: nat, n: Node, table: nat, i: nat)
    requires Inv(w) && StandsAt(w, s, n, table) && i < ENTRIES && s != KERNEL && s in w.kind && w.kind[s] == Solo
    requires ClearTo(w, s, n.path, i)
    requires n.space == s ==> Node(s, Step(n.path, i)) !in w.own
    ensures ClearTo(w, s, n.path, i + 1)
  {
    assert Node(s, Step(n.path, i)) in w.own ==> Hung(w, Node(s, Step(n.path, i)));
    AbsentIsClear(w, s, Step(n.path, i));
    ClearNext(w, s, n.path, i);
  }

  // The table below a table the teardown stands at.
  lemma BelowStands(w: World, s: nat, n: Node, table: nat, i: nat) returns (c: Node)
    requires Inv(w) && StandsAt(w, s, n, table) && i < ENTRIES && s != KERNEL && s in w.kind && w.kind[s] == Solo
    requires Depth(n.path) < 3 && Cell(w, n, i) != EMPTY
    ensures c.Node? && c.path == Step(n.path, i) && StandsAt(w, s, c, Cell(w, n, i).frame)
    ensures c.space == s <==> n.space == s && Process(Cell(w, n, i).flags)
  {
    c := Node(if Process(Cell(w, n, i).flags) then n.space else KERNEL, Step(n.path, i));
    assert Typed(w, n, i);
    if n.space == s {
      FlagIsOwnership(w, n, i);
    }
    assert Node(s, c.path) in w.own ==> Hung(w, Node(s, c.path));
  }

  lemma FreesLeaf(w: World, s: nat, n: Node, table: nat, i: nat)
    requires Inv(w) && StandsAt(w, s, n, table) && Depth(n.path) == 3 && i < ENTRIES && s != KERNEL
    ensures Owned(Cell(w, n, i).flags) ==> n.space == s && OwnsLeaf(w, n, i)
    ensures Owned(Cell(w, n, i).flags) ==> Names(w, Node(s, Step(n.path, i)), Cell(w, n, i).frame)
    ensures !Owned(Cell(w, n, i).flags) ==> Node(s, Step(n.path, i)) !in w.own
  {
    OwnedIsNotEmpty(Cell(w, n, i));
    if n.space == s {
      LeafFlagIsOwnership(w, n, i);
      if Owned(Cell(w, n, i).flags) {
        LeafIsOwned(w, n, i);
      }
    } else {
      assert Typed(w, n, i);
      assert Node(s, Step(n.path, i)) in w.own ==> Hung(w, Node(s, Step(n.path, i)));
    }
  }

  lemma OwnedFrame(w: World, m: Node, n: Node)
    requires Inv(w) && m in w.own && n in w.own && m != n
    ensures 0 < w.own[m] < |w.memory| && w.own[m] !in w.free && w.own[m] != w.own[n]
  {
  }

  // Blanking the frame first and clearing the entry after comes to the same.
  lemma LeafFreedIs(w: World, n: Node, i: nat)
    requires Inv(w) && IsTableAt(w, n) && i < ENTRIES && Cell(w, n, i).frame != w.own[n]
    ensures World(Put(Blanked(w.memory, Cell(w, n, i).frame, 1), w.own[n], i, EMPTY),
                  w.own - {Node(n.space, Step(n.path, i))},
                  w.free + Range(Cell(w, n, i).frame, 1), w.kind) == WithoutLeaf(w, n, i)
  {
    OwnedIsNotEmpty(EMPTY);
    hide Inv;
    assert Put(Blanked(w.memory, Cell(w, n, i).frame, 1), w.own[n], i, EMPTY)
        == Blanked(Put(w.memory, w.own[n], i, EMPTY), Cell(w, n, i).frame, 1);
  }

  lemma TableFreedIs(w: World, n: Node, i: nat)
    requires Inv(w) && IsTableAt(w, n) && i < ENTRIES && Cell(w, n, i).frame != w.own[n]
    ensures World(Put(Blanked(w.memory, Cell(w, n, i).frame, 1), w.own[n], i, EMPTY),
                  w.own - {Node(n.space, Step(n.path, i))},
                  w.free + Range(Cell(w, n, i).frame, 1), w.kind) == WithoutTable(w, n, i)
  {
    hide Inv;
    assert Put(Blanked(w.memory, Cell(w, n, i).frame, 1), w.own[n], i, EMPTY)
        == Blanked(Put(w.memory, w.own[n], i, EMPTY), Cell(w, n, i).frame, 1);
  }

  // The frame entry i of a table points at is released, and the entry is cleared.
  method ReleaseEntry(k: Kernel, ghost n: Node, table: nat, i: nat)
    requires k.Frames() && k.withheld == {} && Inv(k.W()) && IsTableAt(k.W(), n) && k.W().own[n] == table && i < ENTRIES
    requires Names(k.W(), Node(n.space, Step(n.path, i)), Cell(k.W(), n, i).frame)
    modifies k`memory, k`available, k`own, k.bitmap
    ensures k.Frames() && Cell(old(k.W()), n, i).frame != table
    ensures ghost var w := old(k.W());
            k.W() == World(Put(Blanked(w.memory, Cell(w, n, i).frame, 1), table, i, EMPTY),
                           w.own - {Node(n.space, Step(n.path, i))},
                           w.free + Range(Cell(w, n, i).frame, 1), w.kind)
  {
    hide Inv, Blank, Given, Blanked, Put;
    ghost var w := k.W();
    ghost var c := Node(n.space, Step(n.path, i));
    OwnedFrame(w, c, n);
    OwnedFrame(w, n, c);
    assert Range(w.own[c], 1) == {w.own[c]};
    var e := k.memory[table][i];
    k.ReleasePage(e.frame);
    GivenIs(w, e.frame);
    Unlink(k, c, table, i);
  }

  // The entry no longer shows c, and nobody has it.
  method Unlink(k: Kernel, ghost c: Node, table: nat, i: nat)
    requires k.Frames() && table < k.limit && table !in k.W().free && i < ENTRIES
    modifies k`memory, k`own
    ensures k.Frames()
    ensures ghost var u := old(k.W()); k.W() == World(Put(u.memory, table, i, EMPTY), u.own - {c}, u.free, u.kind)
  {
    hide Blank, Put;
    ghost var u := k.W();
    PutBlank(u, table, i, u.own - {c});
    k.memory := Put(k.memory, table, i, EMPTY);
    k.own := k.own - {c};
  }

  lemma GivenIs(w: World, f: nat)
    ensures Given(w, f, 1) == World(Blanked(w.memory, f, 1), w.own, w.free + Range(f, 1), w.kind)
  {
  }

  lemma PutBlank(w: World, f: nat, i: nat, own: map<Node, nat>)
    requires Blank(w) && f < |w.memory| && f !in w.free && i < ENTRIES
    ensures Blank(World(Put(w.memory, f, i, EMPTY), own, w.free, w.kind))
  {
  }

  // Entry i of a last-level table: a page the process has to itself is released.
  method FreeLeaf(k: Kernel, ghost v: World, ghost s: nat, ghost n: Node, table: nat, i: nat)
    requires k.Frames() && k.withheld == {} && Tearing(v, k.W(), s)
    requires StandsAt(k.W(), s, n, table) && Depth(n.path) == 3 && i < ENTRIES
    requires ClearTo(k.W(), s, n.path, i)
    modifies k`memory, k`available, k`own, k.bitmap
    ensures k.Frames() && Tearing(v, k.W(), s)
    ensures Onward(old(k.W()), k.W(), s, Node(s, Step(n.path, i)))
    ensures ClearTo(k.W(), s, n.path, i + 1)
  {
    hide Inv, OwnsLeaf, WithLeaf, ClearTo, SameTables, Shrunk, NobodyLinked, CanHoldLeaf, Onward, WithoutLeaf, Blanked, Owned, Kernel.Frames, Blank, Put;
    ghost var w := k.W();
    ghost var c := Node(s, Step(n.path, i));
    FreesLeaf(w, s, n, table, i);
    var e := k.memory[table][i];
    if Owned(e.flags) {
      ReleaseEntry(k, n, table, i);
      LeafFreedIs(w, n, i);
      TearLeaf(v, w, s, n, i);
      LeafGoneShape(w, n, i);
    }
    OnwardStep(w, k.W(), s, c);
    assert StandsAt(k.W(), s, n, table);
    OnwardClear(w, k.W(), s, c, n.path, i);
    Passed(k.W(), s, n, table, i);
  }

  lemma OnwardClear(w: World, x: World, s: nat, c: Node, p: Path, to: nat)
    requires Onward(w, x, s, c) && ClearTo(w, s, p, to)
    ensures ClearTo(x, s, p, to)
  {
  }

  lemma FreesTable(w: World, s: nat, n: Node, table: nat, i: nat)
    requires Inv(w) && StandsAt(w, s, n, table) && Depth(n.path) < 3 && i < ENTRIES
    requires s != KERNEL && s in w.kind && w.kind[s] == Solo && NobodyLinked(w, s)
    requires ClearTo(w, s, Step(n.path, i), ENTRIES)
    ensures Process(Cell(w, n, i).flags) ==> n.space == s && CanCut(w, n, i)
    ensures Process(Cell(w, n, i).flags) ==> Names(w, Node(s, Step(n.path, i)), Cell(w, n, i).frame)
    ensures !Process(Cell(w, n, i).flags) && n.space == s ==> Node(s, Step(n.path, i)) !in w.own
  {
    hide ClearTo;
    if n.space == s {
      FlagIsOwnership(w, n, i);
      if Process(Cell(w, n, i).flags) {
        CutIsOwned(w, n, i);
      }
    } else {
      OwnedIsNotEmpty(Cell(w, n, i));
      assert Typed(w, n, i);
    }
  }

  // Entry i of a table whose subtree is cleared: the table below is released if it is the process's.
  method FreeTable(k: Kernel, ghost v: World, ghost s: nat, ghost n: Node, table: nat, i: nat)
    requires k.Frames() && k.withheld == {} && Tearing(v, k.W(), s)
    requires StandsAt(k.W(), s, n, table) && Depth(n.path) < 3 && i < ENTRIES
    requires ClearTo(k.W(), s, Step(n.path, i), ENTRIES) && ClearTo(k.W(), s, n.path, i)
    modifies k`memory, k`available, k`own, k.bitmap
    ensures k.Frames() && Tearing(v, k.W(), s)
    ensures Onward(old(k.W()), k.W(), s, Node(s, Step(n.path, i)))
    ensures ClearTo(k.W(), s, n.path, i + 1)
  {
    hide Inv, ClearTo, SameTables, Shrunk, NobodyLinked, Onward, WithoutTable, Blanked, CanCut, Kernel.Frames, Blank, Put;
    ghost var w := k.W();
    ghost var c := Node(s, Step(n.path, i));
    FreesTable(w, s, n, table, i);
    var e := k.memory[table][i];
    if Process(e.flags) {
      ReleaseEntry(k, n, table, i);
      TableFreedIs(w, n, i);
      TearTable(v, w, s, n, i);
      TableGoneShape(w, n, i);
    }
    if n.space != s {
      KernelCut(w, s, n, table, i);
    }
    OnwardStep(w, k.W(), s, c);
    assert StandsAt(k.W(), s, n, table);
    OnwardClear(w, k.W(), s, c, n.path, i);
    Passed(k.W(), s, n, table, i);
  }

  lemma KernelCut(w: World, s: nat, n: Node, table: nat, i: nat)
    requires Inv(w) && StandsAt(w, s, n, table) && i < ENTRIES && n.space != s
    ensures Node(s, Step(n.path, i)) !in w.own
  {
    assert Node(s, Step(n.path, i)) in w.own ==> Hung(w, Node(s, Step(n.path, i)));
  }

  // ---- the top table ---------------------------------------------------------------------------

  // The space itself is gone.
  ghost function WithoutSpace(w: World, s: nat): World
    requires Node(s, Top) in w.own
  {
    Given(World(w.memory, w.own - {Node(s, Top)}, w.free, w.kind - {s}), w.own[Node(s, Top)], 1)
  }

  lemma ClearAt(w: World, s: nat, p: Path, to: nat, j: nat)
    requires ClearTo(w, s, p, to) && j < to
    ensures Clear(w, s, Step(p, j))
  {
  }

  lemma AllClear(w: World, s: nat)
    requires ClearTo(w, s, Top, ENTRIES) && Placed(w)
    ensures forall n | n in w.own && n.Node? && n.space == s :: n.path == Top
  {
    forall n | n in w.own && n.Node? && n.space == s
      ensures n.path == Top
    {
      if n.path.Step? {
        var j := FirstDigit(n.path);
        ClearAt(w, s, Top, ENTRIES, j);
      }
    }
  }

  lemma FirstDigit(p: Path) returns (j: nat)
    requires p.Step? && Digits(p)
    ensures j < ENTRIES && Under(p, Step(Top, j))
  {
    if p.up.Top? {
      j := p.digit;
    } else {
      j := FirstDigit(p.up);
    }
  }

  // Space s is gone: what it owned in its tables is free and blank, and no other space sees a change.
  ghost predicate SpaceGone(v: World, x: World, s: nat) {
    && x.kind == v.kind - {s}
    && (forall n :: n in x.own <==> n in v.own && !(n.Node? && n.space == s))
    && (forall n | n in x.own :: x.own[n] == v.own[n])
    && Freed(v, x)
    && Others(v, x, s)
  }

  lemma RootKinds(w: World, s: nat)
    requires Kinds(w) && HasSpace(w, s) && s != KERNEL && NobodyLinked(w, s)
    ensures Kinds(World(w.memory, w.own - {Node(s, Top)}, w.free, w.kind - {s}))
  {
  }

  lemma RootFrames(w: World, s: nat)
    requires Inv(w) && HasSpace(w, s) && s != KERNEL && NobodyLinked(w, s)
    requires forall n | n in w.own && n.Node? && n.space == s :: n.path == Top
    ensures var u := World(w.memory, w.own - {Node(s, Top)}, w.free, w.kind - {s});
            Placed(u) && Injective(u) && Blank(u) && Kinds(u) && Limbo(u, w.own[Node(s, Top)])
  {
    hide Tables, Hangs;
    var u := World(w.memory, w.own - {Node(s, Top)}, w.free, w.kind - {s});
    assert Blank(u);
    RootKinds(w, s);
    hide Kinds, Blank;
  }

  lemma RootStillTyped(w: World, s: nat, m: Node, j: nat)
    requires Inv(w) && HasSpace(w, s) && s != KERNEL && NobodyLinked(w, s)
    requires forall n | n in w.own && n.Node? && n.space == s :: n.path == Top
    requires m in w.own && m != Node(s, Top) && j < ENTRIES
    requires IsTableAt(World(w.memory, w.own - {Node(s, Top)}, w.free, w.kind - {s}), m)
    ensures m.space in w.kind - {s}
    ensures Typed(World(w.memory, w.own - {Node(s, Top)}, w.free, w.kind - {s}), m, j)
  {
    hide Hangs, Kinds, Blank, Injective;
    assert IsTableAt(w, m) && Typed(w, m, j);
    if Cell(w, m, j) != EMPTY {
      RootTyped(w, s, m, j, Cell(w, m, j));
    }
  }

  lemma RootKeepsInv(w: World, s: nat)
    requires Inv(w) && HasSpace(w, s) && s != KERNEL && NobodyLinked(w, s)
    requires forall n | n in w.own && n.Node? && n.space == s :: n.path == Top
    ensures var u := World(w.memory, w.own - {Node(s, Top)}, w.free, w.kind - {s});
            Inv(u) && Limbo(u, w.own[Node(s, Top)])
  {
    var u := World(w.memory, w.own - {Node(s, Top)}, w.free, w.kind - {s});
    RootFrames(w, s);
    hide Placed, Injective, Blank, Kinds, Limbo;
    forall m | m in u.own ensures Hung(u, m) {
      assert Hung(w, m);
    }
    forall m, j: nat | IsTableAt(u, m) && j < ENTRIES
      ensures Typed(u, m, j)
    {
      RootStillTyped(w, s, m, j);
    }
  }

  lemma RootTyped(w: World, s: nat, m: Node, j: nat, f: Entry)
    requires IsTableAt(w, m) && m.space in w.kind && m.space != s && s != KERNEL && NobodyLinked(w, s)
    requires TypedAs(w, m, j, f)
    ensures TypedAs(World(w.memory, w.own - {Node(s, Top)}, w.free, w.kind - {s}), m, j, f)
  {
  }

  // The walk of another space does not pass the top table of s.
  lemma {:induction false} RootWalk(w: World, s: nat, r: nat, p: Path)
    requires Inv(w) && HasSpace(w, s) && Walkable(w, r) && r != s
    ensures Look(World(w.memory, w.own - {Node(s, Top)}, w.free, w.kind - {s}), r, p) == Look(w, r, p)
  {
  }

  lemma SpaceGoneShape(w: World, s: nat)
    requires Node(s, Top) in w.own
    ensures WithoutSpace(w, s).own == w.own - {Node(s, Top)} && WithoutSpace(w, s).kind == w.kind - {s}
    ensures WithoutSpace(w, s).free == w.free + {w.own[Node(s, Top)]}
  {
    assert Range(w.own[Node(s, Top)], 1) == {w.own[Node(s, Top)]};
  }

  lemma SpaceGoneInv(w: World, s: nat)
    requires Inv(w) && HasSpace(w, s) && s != KERNEL && NobodyLinked(w, s)
    requires forall n | n in w.own && n.Node? && n.space == s :: n.path == Top
    ensures Inv(WithoutSpace(w, s))
  {
    RootKeepsInv(w, s);
    hide Inv, Limbo, SameTables, NobodyLinked;
    GivenInv(World(w.memory, w.own - {Node(s, Top)}, w.free, w.kind - {s}), w.own[Node(s, Top)]);
  }

  lemma SpaceIsGone(v: World, w: World, s: nat)
    requires Tearing(v, w, s) && ClearTo(w, s, Top, ENTRIES)
    ensures Inv(WithoutSpace(w, s)) && SpaceGone(v, WithoutSpace(w, s), s)
  {
    hide Inv, ClearTo, Freed, Others, NobodyLinked, WithoutSpace;
    PlacedOf(w);
    AllClear(w, s);
    SpaceGoneInv(w, s);
    SpaceGoneShape(w, s);
    OthersRoot(v, w, s);
    FreedOne(v, w, WithoutSpace(w, s), Node(s, Top), w.own[Node(s, Top)]);
  }

  lemma PlacedOf(w: World)
    requires Inv(w)
    ensures Placed(w)
  {
  }

  lemma OthersRoot(v: World, w: World, s: nat)
    requires Tearing(v, w, s) && ClearTo(w, s, Top, ENTRIES)
    ensures Others(v, WithoutSpace(w, s), s)
  {
    hide Inv, SameTables, WithoutSpace, ClearTo, Freed, Limbo, NobodyLinked;
    PlacedOf(w);
    AllClear(w, s);
    RootSame(w, s);
    var x := WithoutSpace(w, s);
    var u := World(w.memory, w.own - {Node(s, Top)}, w.free, w.kind - {s});
    forall r, p | Walkable(v, r) && r != s && Digits(p) && Depth(p) <= 4
      ensures Look(x, r, p) == Look(v, r, p)
    {
      assert Walkable(w, r);
      RootWalk(w, s, r, p);
      SameTablesWalk(u, x, r, p);
    }
  }

  lemma RootSame(w: World, s: nat)
    requires Inv(w) && HasSpace(w, s) && s != KERNEL && NobodyLinked(w, s)
    requires forall n | n in w.own && n.Node? && n.space == s :: n.path == Top
    ensures var u := World(w.memory, w.own - {Node(s, Top)}, w.free, w.kind - {s});
            Inv(u) && SameTables(u, WithoutSpace(w, s))
  {
    RootKeepsInv(w, s);
    hide Inv, SameTables, Limbo;
    GivenInv(World(w.memory, w.own - {Node(s, Top)}, w.free, w.kind - {s}), w.own[Node(s, Top)]);
  }

  lemma TearStarts(v: World, s: nat)
    requires Inv(v) && HasSpace(v, s) && s != KERNEL && v.kind[s] == Solo && NobodyLinked(v, s)
    ensures Tearing(v, v, s) && StandsAt(v, s, Node(s, Top), v.own[Node(s, Top)]) && ClearTo(v, s, Top, 0)
  {
  }

  lemma StandsParts(v: World, w: World, s: nat, n: Node, table: nat)
    requires Tearing(v, w, s) && StandsAt(w, s, n, table)
    ensures Inv(w) && n.Node? && IsTableAt(w, n) && w.own[n] == table && s != KERNEL && s in w.kind && w.kind[s] == Solo
  {
    hide Inv, Shrunk;
  }

  lemma EmptyPassed(v: World, w: World, s: nat, n: Node, table: nat, i: nat)
    requires Tearing(v, w, s) && StandsAt(w, s, n, table) && i < ENTRIES && Cell(w, n, i) == EMPTY
    requires ClearTo(w, s, n.path, i)
    ensures ClearTo(w, s, n.path, i + 1)
  {
    assert Node(s, Step(n.path, i)) in w.own ==> Hung(w, Node(s, Step(n.path, i)));
    Passed(w, s, n, table, i);
  }

  lemma OnwardStands(w: World, x: World, s: nat, c: Node, n: Node, table: nat)
    requires Onward(w, x, s, c) && StandsAt(w, s, n, table) && n != c
    ensures StandsAt(x, s, n, table)
  {
  }

  lemma ClearToNone(w: World, s: nat, p: Path)
    ensures ClearTo(w, s, p, 0)
  {
  }

  // Entry i of the table a teardown stands at: skipped if empty, else the table below.
  method Peek(k: Kernel, ghost v: World, ghost s: nat, ghost n: Node, table: nat, i: nat)
    returns (present: bool, next: nat, ghost c: Node)
    requires k.Frames() && Tearing(v, k.W(), s) && StandsAt(k.W(), s, n, table)
    requires n.Node? && Depth(n.path) < 3 && i < ENTRIES && ClearTo(k.W(), s, n.path, i)
    ensures !present ==> ClearTo(k.W(), s, n.path, i + 1)
    ensures present ==> c.Node? && c.path == Step(n.path, i) && StandsAt(k.W(), s, c, next) && ClearTo(k.W(), s, c.path, 0)
  {
    hide Inv, ClearTo, Tearing, StandsAt;
    StandsParts(v, k.W(), s, n, table);
    if k.memory[table][i] == EMPTY {
      EmptyPassed(v, k.W(), s, n, table, i);
      return false, 0, n;
    }
    next := k.memory[table][i].frame;
    c := BelowStands(k.W(), s, n, table, i);
    ClearToNone(k.W(), s, c.path);
    present := true;
  }

  lemma Depths(p4: nat, p3: nat, p2: nat)
    ensures Depth(Top) == 0 && Depth(Step(Top, p4)) == 1 && Depth(Step(Step(Top, p4), p3)) == 2
    ensures Depth(Step(Step(Step(Top, p4), p3), p2)) == 3
  {
  }

  lemma WithoutSpaceIs(w: World, s: nat)
    requires Node(s, Top) in w.own
    ensures var x := Given(w, w.own[Node(s, Top)], 1);
            WithoutSpace(w, s) == World(x.memory, x.own - {Node(s, Top)}, x.free, x.kind - {s})
  {
  }

  // Releases the top table, and with it the space.
  method FreeSpace(k: Kernel, ghost v: World, ghost s: nat, pml4: nat)
    requires k.Frames() && k.withheld == {} && Tearing(v, k.W(), s) && StandsAt(k.W(), s, Node(s, Top), pml4)
    requires ClearTo(k.W(), s, Top, ENTRIES)
    modifies k`memory, k`available, k`own, k`kind, k.bitmap
    ensures k.Valid() && SpaceGone(v, k.W(), s)
  {
    hide Inv, Blank, ClearTo, Shrunk, NobodyLinked, SpaceGone, Blanked, Tearing, Given;
    ghost var w := k.W();
    TearingParts(v, w, s);
    RootFrame(w, s);
    k.ReleasePage(pml4);
    k.own := k.own - {Node(s, Top)};
    k.kind := k.kind - {s};
    WithoutSpaceIs(w, s);
    SpaceIsGone(v, w, s);
    InvBlank(k.W());
  }

  lemma RootFrame(w: World, s: nat)
    requires Inv(w) && HasSpace(w, s)
    ensures 0 < w.own[Node(s, Top)] < |w.memory| && w.own[Node(s, Top)] !in w.free
  {
  }

  // Releases every page and table that belongs to the space alone, and its top table.
  method Deconstruct(k: Kernel, ghost s: nat, pml4: nat)
    requires k.Valid() && k.withheld == {} && HasSpace(k.W(), s) && k.W().own[Node(s, Top)] == pml4
    requires s != KERNEL && k.W().kind[s] == Solo && NobodyLinked(k.W(), s)
    modifies k`memory, k`available, k`own, k`kind, k.bitmap
    ensures k.Valid() && SpaceGone(old(k.W()), k.W(), s)
  {
    hide Inv, ClearTo, NobodyLinked, Onward, StandsAt, Tearing, SpaceGone, Kernel.W, Kernel.Frames, Depth;
    ghost var v := k.W();
    ghost var n4 := Node(s, Top);
    TearStarts(v, s);
    for p4 := 0 to ENTRIES
      invariant k.Frames() && Tearing(v, k.W(), s)
      invariant StandsAt(k.W(), s, n4, pml4) && ClearTo(k.W(), s, Top, p4)
    {
      Depths(p4, 0, 0);
      var present3, pml3, n3 := Peek(k, v, s, n4, pml4, p4);
      if !present3 { continue; }
      for p3 := 0 to ENTRIES
        invariant k.Frames() && Tearing(v, k.W(), s)
        invariant StandsAt(k.W(), s, n4, pml4) && ClearTo(k.W(), s, Top, p4)
        invariant StandsAt(k.W(), s, n3, pml3) && ClearTo(k.W(), s, n3.path, p3)
      {
        Depths(p4, p3, 0);
        var present2, pml2, n2 := Peek(k, v, s, n3, pml3, p3);
        if !present2 { continue; }
        for p2 := 0 to ENTRIES
          invariant k.Frames() && Tearing(v, k.W(), s)
          invariant StandsAt(k.W(), s, n4, pml4) && ClearTo(k.W(), s, Top, p4)
          invariant StandsAt(k.W(), s, n3, pml3) && ClearTo(k.W(), s, n3.path, p3)
          invariant StandsAt(k.W(), s, n2, pml2) && ClearTo(k.W(), s, n2.path, p2)
        {
          Depths(p4, p3, p2);
          var present1, pml1, n1 := Peek(k, v, s, n2, pml2, p2);
          if !present1 { continue; }
          for p1 := 0 to ENTRIES
            invariant k.Frames() && Tearing(v, k.W(), s)
            invariant StandsAt(k.W(), s, n4, pml4) && ClearTo(k.W(), s, Top, p4)
            invariant StandsAt(k.W(), s, n3, pml3) && ClearTo(k.W(), s, n3.path, p3)
            invariant StandsAt(k.W(), s, n2, pml2) && ClearTo(k.W(), s, n2.path, p2)
            invariant StandsAt(k.W(), s, n1, pml1) && ClearTo(k.W(), s, n1.path, p1)
          {
            ghost var w1, c1 := k.W(), Node(s, Step(n1.path, p1));
            FreeLeaf(k, v, s, n1, pml1, p1);
            OnwardStands(w1, k.W(), s, c1, n4, pml4);
            OnwardStands(w1, k.W(), s, c1, n3, pml3);
            OnwardStands(w1, k.W(), s, c1, n2, pml2);
            OnwardStands(w1, k.W(), s, c1, n1, pml1);
            OnwardClear(w1, k.W(), s, c1, Top, p4);
            OnwardClear(w1, k.W(), s, c1, n3.path, p3);
            OnwardClear(w1, k.W(), s, c1, n2.path, p2);
          }
          ghost var w2, c2 := k.W(), Node(s, n1.path);
          FreeTable(k, v, s, n2, pml2, p2);
          OnwardStands(w2, k.W(), s, c2, n4, pml4);
          OnwardStands(w2, k.W(), s, c2, n3, pml3);
          OnwardStands(w2, k.W(), s, c2, n2, pml2);
          OnwardClear(w2, k.W(), s, c2, Top, p4);
          OnwardClear(w2, k.W(), s, c2, n3.path, p3);
        }
        ghost var w3, c3 := k.W(), Node(s, n2.path);
        FreeTable(k, v, s, n3, pml3, p3);
        OnwardStands(w3, k.W(), s, c3, n4, pml4);
        OnwardStands(w3, k.W(), s, c3, n3, pml3);
        OnwardClear(w3, k.W(), s, c3, Top, p4);
      }
      ghost var w4, c4 := k.W(), Node(s, n3.path);
      FreeTable(k, v, s, n4, pml4, p4);
      OnwardStands(w4, k.W(), s, c4, n4, pml4);
    }
    FreeSpace(k, v, s, pml4);
  }
}
