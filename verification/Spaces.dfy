// Address spaces as values: trees of paging tables in physical memory, and who owns which frame.
module Spaces {
  import opened Layout

  // A position in a four-level tree: the digits followed from the top table.
  datatype Path = Top | Step(up: Path, digit: nat)

  function Depth(p: Path): (d: nat) {
    match p
    case Top => 0
    case Step(up, _) => Depth(up) + 1
  }

  predicate Digits(p: Path) {
    match p
    case Top => true
    case Step(up, i) => Digits(up) && i < ENTRIES
  }

  // Number of the position among the positions of its depth.
  function Index(p: Path): nat {
    match p
    case Top => 0
    case Step(up, i) => Index(up) * ENTRIES + i
  }

  predicate IsTable(p: Path) {
    Depth(p) < 4 && Digits(p)
  }

  predicate IsPage(p: Path) {
    Depth(p) == 4 && Digits(p)
  }

  // What the kernel hands frames out for: a table or a page of a space, or one of the frames it
  // holds on a space's behalf outside its tree (its memory map, a stream buffer).
  datatype Node = Node(space: nat, path: Path) | Held(space: nat, slot: nat)

  // How a space came about. A thread is linked to the process whose entries it shares; once that
  // process is torn down the thread is severed, and what it shared is no longer there.
  datatype Kind = Solo | Linked(leader: nat) | Severed

  const KERNEL: nat := 0

  datatype World = World(memory: seq<Page>, own: map<Node, nat>, free: set<nat>, kind: map<nat, Kind>)

  // The entry found at a position by walking down from a top table; empty where the walk breaks off.
  function At(memory: seq<Page>, root: nat, p: Path): Entry {
    match p
    case Top => Entry(root, PRESENT)
    case Step(up, i) =>
      var e := At(memory, root, up);
      if e == EMPTY || e.frame >= |memory| || i >= ENTRIES then EMPTY else memory[e.frame][i]
  }

  predicate HasSpace(w: World, s: nat) {
    s in w.kind && Node(s, Top) in w.own
  }

  // A space that may be walked: all its tables are there.
  predicate Walkable(w: World, s: nat) {
    HasSpace(w, s) && !w.kind[s].Severed?
  }

  function Look(w: World, s: nat, p: Path): Entry {
    if HasSpace(w, s) then At(w.memory, w.own[Node(s, Top)], p) else EMPTY
  }

  // The space that owns what a process-flagged entry i of a table of space s points at.
  function Group(w: World, s: nat): nat
    requires s in w.kind
  {
    if w.kind[s].Linked? then w.kind[s].leader else s
  }

  function Home(w: World, n: Node, i: nat): nat
    requires n.Node? && n.space in w.kind
  {
    if n.path.Top? && !Reserved(i) then Group(w, n.space) else n.space
  }

  predicate IsTableAt(w: World, n: Node) {
    n.Node? && Depth(n.path) < 4 && n in w.own && w.own[n] < |w.memory|
  }

  // Entry i of table n.
  function Cell(w: World, n: Node, i: nat): Entry
    requires IsTableAt(w, n) && i < ENTRIES
  {
    w.memory[w.own[n]][i]
  }

  predicate Names(w: World, n: Node, frame: nat) {
    n in w.own && w.own[n] == frame
  }

  // Every frame handed out is a frame of memory other than frame 0, not free, and sits at a sound place.
  ghost predicate Placed(w: World) {
    forall n | n in w.own ::
      && 0 < w.own[n] < |w.memory|
      && w.own[n] !in w.free
      && (n.Node? ==> Depth(n.path) <= 4 && Digits(n.path) && n.space in w.kind)
      && (n.Held? ==> w.own[n] == n.slot)
  }

  // No frame has two owners.
  ghost predicate Injective(w: World) {
    forall m, n | m in w.own && n in w.own && w.own[m] == w.own[n] :: m == n
  }

  // Free frames are blank, and frame 0 is never free.
  ghost predicate Blank(w: World) {
    forall f | f in w.free :: 0 < f < |w.memory| && w.memory[f] == ZeroPage()
  }

  ghost predicate Kinds(w: World) {
    && KERNEL in w.kind && w.kind[KERNEL] == Solo
    && forall s | s in w.kind ::
         && Node(s, Top) in w.own
         && (w.kind[s].Linked? ==>
               && s != KERNEL
               && w.kind[s].leader != KERNEL
               && w.kind[s].leader in w.kind
               && w.kind[w.kind[s].leader] == Solo)
  }

  // An entry whose target its space owns: flagged process in every space but the kernel's, and at
  // the last level not shared.
  predicate Claims(s: nat, depth: nat, e: Entry) {
    if depth == 4 then s != KERNEL && Owned(e.flags) else Process(e.flags) <==> s != KERNEL
  }

  // An owned table or page hangs off an owned table.
  ghost predicate Hung(w: World, n: Node)
    requires n in w.own
  {
    n.Node? && n.path.Step? ==>
      && IsTableAt(w, Node(n.space, n.path.up))
      && n.path.digit < ENTRIES
      && Cell(w, Node(n.space, n.path.up), n.path.digit) != EMPTY
      && Cell(w, Node(n.space, n.path.up), n.path.digit).frame == w.own[n]
      && Claims(n.space, Depth(n.path), Cell(w, Node(n.space, n.path.up), n.path.digit))
  }

  ghost predicate Hangs(w: World) {
    forall n | n in w.own :: Hung(w, n)
  }

  // What entry i of table n may be.
  ghost predicate Typed(w: World, n: Node, i: nat)
    requires IsTableAt(w, n) && n.space in w.kind && i < ENTRIES
  {
    Cell(w, n, i) != EMPTY ==> TypedAs(w, n, i, Cell(w, n, i))
  }

  ghost predicate TypedAs(w: World, n: Node, i: nat, e: Entry)
    requires n.Node? && n.space in w.kind
  {
    && (n.space == KERNEL ==> !Process(e.flags))
    && if Depth(n.path) == 3 then
         Owned(e.flags) ==> Names(w, Node(n.space, Step(n.path, i)), e.frame)
       else if Process(e.flags) then
         || (n.path.Top? && !Reserved(i) && w.kind[n.space].Severed?)
         || Names(w, Node(Home(w, n, i), Step(n.path, i)), e.frame)
       else
         Names(w, Node(KERNEL, Step(n.path, i)), e.frame)
  }

  ghost predicate Tables(w: World)
    requires Placed(w)
  {
    forall n, i: nat | IsTableAt(w, n) && i < ENTRIES :: Typed(w, n, i)
  }

  ghost predicate Inv(w: World) {
    Placed(w) && Injective(w) && Blank(w) && Kinds(w) && Hangs(w) && Tables(w)
  }

  // ---- reading ---------------------------------------------------------------------------------

  // The spaces whose tables a walk in space s can pass through.
  predicate Passes(w: World, s: nat, t: nat)
    requires s in w.kind
  {
    t == s || t == Group(w, s) || t == KERNEL
  }

  // A walk that reaches a table reaches an owned one, at its own place.
  lemma {:induction false} Locate(w: World, s: nat, p: Path) returns (t: nat)
    requires Inv(w) && Walkable(w, s) && IsTable(p) && Look(w, s, p) != EMPTY
    ensures Passes(w, s, t)
    ensures Node(t, p) in w.own && w.own[Node(t, p)] == Look(w, s, p).frame
    ensures Depth(p) > 0 ==> (Process(Look(w, s, p).flags) <==> t != KERNEL)
    ensures t == s || Depth(p) > 0
  {
    match p
    case Top => t := s;
    case Step(up, i) =>
      var u := Locate(w, s, up);
      assert Typed(w, Node(u, up), i);
      if Process(Look(w, s, p).flags) {
        t := Home(w, Node(u, up), i);
      } else {
        t := KERNEL;
      }
  }

  // One step of a walk.
  lemma LookStep(w: World, s: nat, n: Node, i: nat)
    requires Inv(w) && HasSpace(w, s) && n in w.own && n.Node? && i < ENTRIES
    requires Look(w, s, n.path) != EMPTY && Look(w, s, n.path).frame == w.own[n]
    ensures Look(w, s, Step(n.path, i)) == w.memory[w.own[n]][i]
  {
  }

  // ---- writing ---------------------------------------------------------------------------------

  // One word of memory is written.
  function Put(memory: seq<Page>, f: nat, i: nat, e: Entry): (r: seq<Page>)
    requires f < |memory| && i < ENTRIES
    ensures |r| == |memory|
  {
    memory[f := memory[f][i := e]]
  }

  // A blank free frame g becomes the table below entry i of table n.
  ghost function WithTable(w: World, n: Node, i: nat, g: nat, flags: bv12): World
    requires IsTableAt(w, n) && i < ENTRIES
  {
    World(Put(w.memory, w.own[n], i, Entry(g, flags)),
          w.own[Node(n.space, Step(n.path, i)) := g],
          w.free - {g},
          w.kind)
  }

  ghost predicate CanHoldTable(w: World, n: Node, i: nat, g: nat, flags: bv12) {
    && IsTableAt(w, n) && Depth(n.path) < 3 && i < ENTRIES && n.space in w.kind
    && Cell(w, n, i) == EMPTY
    && g in w.free
    && (Process(flags) <==> n.space != KERNEL)
    && Home(w, n, i) == n.space
  }

  lemma TableIsNew(w: World, n: Node, i: nat, g: nat, flags: bv12)
    requires Inv(w) && CanHoldTable(w, n, i, g, flags)
    ensures Node(n.space, Step(n.path, i)) !in w.own
  {
    assert Node(n.space, Step(n.path, i)) in w.own ==> Hung(w, Node(n.space, Step(n.path, i)));
  }

  lemma TableTyped(w: World, n: Node, i: nat, g: nat, flags: bv12, m: Node, j: nat)
    requires Inv(w) && CanHoldTable(w, n, i, g, flags) && Node(n.space, Step(n.path, i)) !in w.own
    requires IsTableAt(w, m) && m.space in w.kind && j < ENTRIES
    ensures IsTableAt(WithTable(w, n, i, g, flags), m) && Typed(WithTable(w, n, i, g, flags), m, j)
  {
    hide Hangs, Kinds, Blank;
    assert Typed(w, m, j);
    assert m != n || j != i ==> Cell(WithTable(w, n, i, g, flags), m, j) == Cell(w, m, j) by { hide TypedAs, Typed, Tables; }
  }

  lemma TableKeepsTables(w: World, n: Node, i: nat, g: nat, flags: bv12)
    requires Inv(w) && CanHoldTable(w, n, i, g, flags)
    requires Placed(WithTable(w, n, i, g, flags))
    ensures Tables(WithTable(w, n, i, g, flags))
  {
    TableIsNew(w, n, i, g, flags);
    hide Hangs, Kinds;
    var v := WithTable(w, n, i, g, flags);
    var c := Node(n.space, Step(n.path, i));
    forall m, j: nat | IsTableAt(v, m) && j < ENTRIES
      ensures Typed(v, m, j)
    {
      if m != c {
        TableTyped(w, n, i, g, flags, m, j);
      }
    }
  }

  lemma TableKeepsHangs(w: World, n: Node, i: nat, g: nat, flags: bv12)
    requires Inv(w) && CanHoldTable(w, n, i, g, flags)
    ensures Hangs(WithTable(w, n, i, g, flags))
  {
    TableIsNew(w, n, i, g, flags);
    var v := WithTable(w, n, i, g, flags);
    var c := Node(n.space, Step(n.path, i));
    forall m | m in v.own ensures Hung(v, m) {
      if m != c {
        assert Hung(w, m);
      }
    }
  }

  lemma TableKeepsInv(w: World, n: Node, i: nat, g: nat, flags: bv12)
    requires Inv(w) && CanHoldTable(w, n, i, g, flags)
    ensures Inv(WithTable(w, n, i, g, flags))
    ensures Node(n.space, Step(n.path, i)) !in w.own
  {
    TableIsNew(w, n, i, g, flags);
    TableKeepsHangs(w, n, i, g, flags);
    TableKeepsTables(w, n, i, g, flags);
  }

  // A new table changes no walk except at its own place, where nothing was.
  lemma {:induction false} TableWalk(w: World, n: Node, i: nat, g: nat, flags: bv12, s: nat, p: Path)
    requires Inv(w) && CanHoldTable(w, n, i, g, flags) && Walkable(w, s) && Digits(p) && Depth(p) <= 4
    ensures Look(WithTable(w, n, i, g, flags), s, p) ==
            if p == Step(n.path, i) && Look(w, s, n.path) != EMPTY && Look(w, s, n.path).frame == w.own[n]
            then Entry(g, flags) else Look(w, s, p)
  {
    match p
    case Top =>
    case Step(up, j) =>
      TableWalk(w, n, i, g, flags, s, up);
      if Look(w, s, up) != EMPTY {
        var t := Locate(w, s, up);
      }
  }

  // Entry i of last-level table n becomes e; the space then owns the page e names, if e claims it.
  ghost function WithLeaf(w: World, n: Node, i: nat, e: Entry): World
    requires IsTableAt(w, n) && i < ENTRIES
  {
    World(Put(w.memory, w.own[n], i, e),
          if n.space != KERNEL && Owned(e.flags) then w.own[Node(n.space, Step(n.path, i)) := e.frame]
          else w.own - {Node(n.space, Step(n.path, i))},
          w.free,
          w.kind)
  }

  // A frame that is neither free nor handed out, so that a leaf may claim it.
  ghost predicate Limbo(w: World, f: nat) {
    0 < f < |w.memory| && f !in w.free && forall m | m in w.own :: w.own[m] != f
  }

  ghost predicate CanHoldLeaf(w: World, n: Node, i: nat, e: Entry) {
    && IsTableAt(w, n) && Depth(n.path) == 3 && i < ENTRIES && n.space in w.kind
    && (n.space == KERNEL ==> !Process(e.flags))
    && (Owned(e.flags) ==> Limbo(w, e.frame))
  }

  lemma LeafKeepsNames(w: World, n: Node, i: nat, e: Entry, m: Node, frame: nat)
    requires CanHoldLeaf(w, n, i, e) && m != Node(n.space, Step(n.path, i))
    ensures Names(w, m, frame) <==> Names(WithLeaf(w, n, i, e), m, frame)
  {
  }

  lemma LeafKeepsTyped(w: World, n: Node, i: nat, e: Entry, m: Node, j: nat, f: Entry)
    requires CanHoldLeaf(w, n, i, e) && IsTableAt(w, m) && m.space in w.kind
    requires m != n || j != i
    requires TypedAs(w, m, j, f)
    ensures TypedAs(WithLeaf(w, n, i, e), m, j, f)
  {
    var v := WithLeaf(w, n, i, e);
    assert Depth(Step(m.path, j)) == 4 <==> Depth(m.path) == 3;
    LeafKeepsNames(w, n, i, e, Node(m.space, Step(m.path, j)), f.frame);
    if Depth(m.path) != 3 {
      LeafKeepsNames(w, n, i, e, Node(Home(w, m, j), Step(m.path, j)), f.frame);
      LeafKeepsNames(w, n, i, e, Node(KERNEL, Step(m.path, j)), f.frame);
    }
  }

  lemma LeafTyped(w: World, n: Node, i: nat, e: Entry, m: Node, j: nat)
    requires Inv(w) && CanHoldLeaf(w, n, i, e) && IsTableAt(w, m) && m.space in w.kind && j < ENTRIES
    ensures IsTableAt(WithLeaf(w, n, i, e), m) && Typed(WithLeaf(w, n, i, e), m, j)
  {
    hide Hangs, Kinds, Blank;
    var v := WithLeaf(w, n, i, e);
    assert Typed(w, m, j);
    if m != n || j != i {
      assert Cell(v, m, j) == Cell(w, m, j) by { hide TypedAs, Typed, Tables; }
      if Cell(w, m, j) != EMPTY {
        LeafKeepsTyped(w, n, i, e, m, j, Cell(w, m, j));
      }
    } else {
      assert Cell(v, m, j) == e;
      assert TypedAs(v, m, j, e);
    }
  }

  lemma LeafKeepsTables(w: World, n: Node, i: nat, e: Entry)
    requires Inv(w) && CanHoldLeaf(w, n, i, e) && Placed(WithLeaf(w, n, i, e))
    ensures Tables(WithLeaf(w, n, i, e))
  {
    hide Hangs, Kinds, Blank;
    var v := WithLeaf(w, n, i, e);
    forall m, j: nat | IsTableAt(v, m) && j < ENTRIES
      ensures Typed(v, m, j)
    {
      LeafTyped(w, n, i, e, m, j);
    }
  }

  lemma LeafHung(w: World, n: Node, i: nat, e: Entry, m: Node)
    requires Inv(w) && CanHoldLeaf(w, n, i, e) && m in w.own && m != Node(n.space, Step(n.path, i))
    ensures m in WithLeaf(w, n, i, e).own && Hung(WithLeaf(w, n, i, e), m)
  {
    hide Tables, Kinds, Blank, Limbo, Owned, Process, Shared;
    assert Hung(w, m);
  }

  lemma LeafKeepsHangs(w: World, n: Node, i: nat, e: Entry)
    requires Inv(w) && CanHoldLeaf(w, n, i, e)
    ensures Hangs(WithLeaf(w, n, i, e))
  {
    hide Tables, Kinds, Blank;
    var v := WithLeaf(w, n, i, e);
    forall m | m in v.own ensures Hung(v, m) {
      if m != Node(n.space, Step(n.path, i)) {
        LeafHung(w, n, i, e, m);
      }
    }
  }

  lemma LeafFrames(w: World, n: Node, i: nat, e: Entry)
    requires Inv(w) && CanHoldLeaf(w, n, i, e)
    ensures var v := WithLeaf(w, n, i, e); Placed(v) && Injective(v) && Blank(v) && Kinds(v)
  {
    hide Tables, Hangs;
  }

  lemma LeafKeepsInv(w: World, n: Node, i: nat, e: Entry)
    requires Inv(w) && CanHoldLeaf(w, n, i, e)
    ensures Inv(WithLeaf(w, n, i, e))
  {
    LeafFrames(w, n, i, e);
    hide Placed, Injective, Blank, Kinds, Hangs, Tables, WithLeaf;
    LeafKeepsHangs(w, n, i, e);
    LeafKeepsTables(w, n, i, e);
  }

  // A written leaf shows at its own place, in the spaces whose walk comes to that table, and nowhere else.
  lemma {:induction false} LeafWalk(w: World, n: Node, i: nat, e: Entry, s: nat, p: Path)
    requires Inv(w) && CanHoldLeaf(w, n, i, e) && Walkable(w, s) && Digits(p) && Depth(p) <= 4
    ensures HasSpace(WithLeaf(w, n, i, e), s)
    ensures Look(WithLeaf(w, n, i, e), s, p) ==
            if p == Step(n.path, i) && Look(w, s, n.path) != EMPTY && Look(w, s, n.path).frame == w.own[n]
            then e else Look(w, s, p)
  {
    hide Hangs, Kinds, Blank, Tables, Limbo, Owned;
    match p
    case Top =>
    case Step(up, j) =>
      LeafWalk(w, n, i, e, s, up);
      if Look(w, s, up) != EMPTY {
        var t := Locate(w, s, up);
      }
  }

  // Memory outside the tables does not show in any walk.
  ghost predicate SameTables(w: World, v: World) {
    && v.own == w.own && v.kind == w.kind && |v.memory| == |w.memory|
    && forall n | IsTableAt(w, n) :: v.memory[w.own[n]] == w.memory[w.own[n]]
  }

  lemma {:induction false} SameTablesWalk(w: World, v: World, s: nat, p: Path)
    requires Inv(w) && SameTables(w, v) && Walkable(w, s) && Digits(p) && Depth(p) <= 4
    ensures Look(v, s, p) == Look(w, s, p)
  {
    match p
    case Top =>
    case Step(up, j) =>
      SameTablesWalk(w, v, s, up);
      if Look(w, s, up) != EMPTY {
        var t := Locate(w, s, up);
      }
  }

  lemma SameTablesInv(w: World, v: World)
    requires Inv(w) && SameTables(w, v) && Placed(v) && Blank(v)
    ensures Inv(v)
  {
    forall m | m in v.own ensures Hung(v, m) {
      assert Hung(w, m);
    }
    forall m, j: nat | IsTableAt(v, m) && j < ENTRIES
      ensures Typed(v, m, j)
    {
      assert Typed(w, m, j);
    }
  }

  // Pages of one depth are numbered apart.
  lemma {:induction false} IndexInjective(p: Path, q: Path)
    requires Depth(p) == Depth(q) && Digits(p) && Digits(q) && Index(p) == Index(q)
    ensures p == q
  {
    match (p, q)
    case (Step(a, i), Step(b, j)) => IndexInjective(a, b);
    case (Top, Top) =>
  }
}
