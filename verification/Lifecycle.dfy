// How address spaces come and go: a new top table, frames held on a space's behalf, threads linked
// to a process's tables and cut off from them.
module Lifecycle {
  import opened Bitmap
  import opened Layout
  import opened Spaces
  import opened Memory
  import opened Reshaping
  import opened Pages
  import opened Paging
  import opened Teardown
  import opened Merging

  // ---- a new space -----------------------------------------------------------------------------

  // Blank free frame g becomes the top table of space s.
  ghost function WithSpace(w: World, s: nat, g: nat): World {
    World(w.memory, w.own[Node(s, Top) := g], w.free - {g}, w.kind[s := Solo])
  }

  lemma NoNodes(w: World, s: nat)
    requires Placed(w) && s !in w.kind
    ensures forall p :: Node(s, p) !in w.own
  {
    assert forall p :: Node(s, p) in w.own ==> s in w.kind;
  }

  lemma SpaceTyped(w: World, s: nat, g: nat, m: Node, j: nat, f: Entry)
    requires IsTableAt(w, m) && m.space in w.kind && s !in w.kind && Placed(w)
    requires TypedAs(w, m, j, f) && Kinds(w)
    ensures TypedAs(WithSpace(w, s, g), m, j, f)
  {
  }

  lemma SpaceInv(w: World, s: nat, g: nat)
    requires Inv(w) && s !in w.kind && g in w.free
    ensures Inv(WithSpace(w, s, g)) && Walkable(WithSpace(w, s, g), s)
    ensures NobodyLinked(WithSpace(w, s, g), s)
  {
    NoNodes(w, s);
    SpaceHangs(w, s, g);
    SpaceTables(w, s, g);
    SpaceBlank(w, s, g);
    hide Blank, Hangs, Tables;
  }

  lemma SpaceHangs(w: World, s: nat, g: nat)
    requires Inv(w) && s !in w.kind && g in w.free
    ensures Hangs(WithSpace(w, s, g))
  {
    var x := WithSpace(w, s, g);
    NoNodes(w, s);
    hide Blank, Tables, Kinds, Injective;
    forall m | m in x.own ensures Hung(x, m) {
      if m != Node(s, Top) {
        assert Hung(w, m);
      }
    }
  }

  lemma SpaceTables(w: World, s: nat, g: nat)
    requires Inv(w) && s !in w.kind && g in w.free
    ensures Placed(WithSpace(w, s, g)) && Tables(WithSpace(w, s, g))
  {
    var x := WithSpace(w, s, g);
    NoNodes(w, s);
    SpacePlaced(w, s, g);
    forall m, j: nat | IsTableAt(x, m) && j < ENTRIES
      ensures Typed(x, m, j)
    {
      if m != Node(s, Top) {
        assert IsTableAt(w, m) && Typed(w, m, j);
        if Cell(w, m, j) != EMPTY {
          SpaceTyped(w, s, g, m, j, Cell(w, m, j));
        }
      }
    }
  }

  lemma SpacePlaced(w: World, s: nat, g: nat)
    requires Inv(w) && s !in w.kind && g in w.free
    ensures Placed(WithSpace(w, s, g))
  {
    hide Hangs, Tables, Kinds, Injective;
  }

  lemma SpaceBlank(w: World, s: nat, g: nat)
    requires Blank(w)
    ensures Blank(WithSpace(w, s, g))
  {
  }

  lemma {:induction false} SpaceWalk(w: World, s: nat, g: nat, r: nat, p: Path)
    requires Inv(w) && s !in w.kind && g in w.free && Walkable(w, r)
    ensures Look(WithSpace(w, s, g), r, p) == Look(w, r, p)
  {
  }

  // Nothing is mapped in the new space.
  lemma {:induction false} SpaceBare(w: World, s: nat, g: nat, p: Path)
    requires Inv(w) && g in w.free && p.Step?
    ensures Look(WithSpace(w, s, g), s, p) == EMPTY
  {
    assert w.memory[g] == ZeroPage();
    if p.up.Step? {
      SpaceBare(w, s, g, p.up);
    } else {
      assert Look(WithSpace(w, s, g), s, Top) == Entry(g, PRESENT);
    }
  }

  // ---- frames held -----------------------------------------------------------------------------

  ghost function Holdings(s: nat, f: nat, n: nat): map<Node, nat> {
    map h | h in (set x | x in Range(f, n) :: Held(s, x)) :: h.slot
  }

  // n limbo frames from f are held on behalf of s.
  ghost function WithHeld(w: World, s: nat, f: nat, n: nat): World {
    World(w.memory, w.own + Holdings(s, f, n), w.free, w.kind)
  }

  lemma HoldingsAre(s: nat, f: nat, n: nat)
    ensures forall h: Node :: h in Holdings(s, f, n) <==> h.Held? && h.space == s && f <= h.slot < f + n
    ensures forall h | h in Holdings(s, f, n) :: Holdings(s, f, n)[h] == h.slot
  {
    forall h: Node ensures h in Holdings(s, f, n) <==> h.Held? && h.space == s && f <= h.slot < f + n {
      if h.Held? && h.space == s && f <= h.slot < f + n {
        assert h.slot in Range(f, n);
      }
    }
  }

  lemma LimboParts(w: World, f: nat)
    requires Limbo(w, f)
    ensures 0 < f < |w.memory| && f !in w.free && forall k | k in w.own :: w.own[k] != f
  {
  }

  lemma HeldPlaced(w: World, s: nat, f: nat, n: nat)
    requires Placed(w) && Injective(w) && forall x: nat | f <= x < f + n :: Limbo(w, x)
    ensures Placed(WithHeld(w, s, f, n)) && Injective(WithHeld(w, s, f, n)) && SameWalks(w, WithHeld(w, s, f, n))
  {
    hide Holdings, Limbo;
    HoldingsAre(s, f, n);
    var x := WithHeld(w, s, f, n);
    forall m | m in x.own
      ensures 0 < x.own[m] < |x.memory| && x.own[m] !in x.free
      ensures if m in Holdings(s, f, n) then x.own[m] == m.slot && forall k | k in w.own :: w.own[k] != m.slot
              else m in w.own && x.own[m] == w.own[m]
    {
      if m in Holdings(s, f, n) {
        LimboParts(w, m.slot);
      }
    }
  }

  lemma HeldInv(w: World, s: nat, f: nat, n: nat)
    requires Inv(w) && forall x: nat | f <= x < f + n :: Limbo(w, x)
    ensures Inv(WithHeld(w, s, f, n)) && SameWalks(w, WithHeld(w, s, f, n))
  {
    hide Holdings, Tables, Hangs, Kinds, Blank;
    HoldingsAre(s, f, n);
    HeldPlaced(w, s, f, n);
    SameWalksInv(w, WithHeld(w, s, f, n));
  }

  lemma SameWalksLook(w: World, x: World, s: nat, p: Path)
    requires SameWalks(w, x)
    ensures Look(x, s, p) == Look(w, s, p)
  {
  }

  // Frames held are let go.
  ghost function WithoutHeld(w: World, s: nat, f: nat, n: nat): World {
    World(w.memory, w.own - Holdings(s, f, n).Keys, w.free, w.kind)
  }

  lemma UnheldInv(w: World, s: nat, f: nat, n: nat)
    requires Inv(w)
    ensures Inv(WithoutHeld(w, s, f, n)) && SameWalks(w, WithoutHeld(w, s, f, n))
  {
    HoldingsAre(s, f, n);
    hide Holdings, Tables, Hangs, Kinds, Blank;
    SameWalksInv(w, WithoutHeld(w, s, f, n));
  }

  // ---- threads ---------------------------------------------------------------------------------

  ghost function WithKind(w: World, s: nat, kind: Kind): World {
    World(w.memory, w.own, w.free, w.kind[s := kind])
  }

  // A space with nothing in its unreserved entries may be of any kind.
  lemma BareKindTyped(w: World, s: nat, kind: Kind, m: Node, j: nat, f: Entry)
    requires IsTableAt(w, m) && m.space in w.kind && s in w.kind
    requires TypedAs(w, m, j, f)
    requires m == Node(s, Top) ==> Reserved(j)
    ensures TypedAs(WithKind(w, s, kind), m, j, f)
  {
  }

  lemma BareKinds(w: World, s: nat, kind: Kind)
    requires Inv(w) && HasSpace(w, s) && s != KERNEL && NobodyLinked(w, s)
    requires kind.Linked? ==> kind.leader in w.kind && kind.leader != KERNEL && w.kind[kind.leader] == Solo && kind.leader != s
    ensures var x := WithKind(w, s, kind); Placed(x) && Injective(x) && Blank(x) && Kinds(x)
  {
    hide Tables, Hangs;
  }

  lemma BareStillTyped(w: World, s: nat, kind: Kind, m: Node, j: nat)
    requires Inv(w) && HasSpace(w, s) && Vacant(w, Node(s, Top), 0) && IsTableAt(w, m) && j < ENTRIES
    ensures IsTableAt(WithKind(w, s, kind), m) && m.space in w.kind && Typed(WithKind(w, s, kind), m, j)
  {
    hide Hangs, Kinds, Blank, Injective;
    assert Typed(w, m, j);
    if Cell(w, m, j) != EMPTY {
      assert m == Node(s, Top) && !Reserved(j) ==> CellIs(w, m, j, EMPTY);
      BareKindTyped(w, s, kind, m, j, Cell(w, m, j));
    }
  }

  lemma BareKind(w: World, s: nat, kind: Kind)
    requires Inv(w) && HasSpace(w, s) && s != KERNEL && NobodyLinked(w, s)
    requires Vacant(w, Node(s, Top), 0)
    requires kind.Linked? ==> kind.leader in w.kind && kind.leader != KERNEL && w.kind[kind.leader] == Solo && kind.leader != s
    ensures Inv(WithKind(w, s, kind))
  {
    var x := WithKind(w, s, kind);
    BareKinds(w, s, kind);
    hide Placed, Blank, Injective, Kinds;
    forall m | m in x.own ensures Hung(x, m) {
      assert Hung(w, m);
    }
    forall m, j: nat | IsTableAt(x, m) && j < ENTRIES
      ensures Typed(x, m, j)
    {
      BareStillTyped(w, s, kind, m, j);
    }
  }

  // Threads of process s are cut off from it.
  ghost function Severing(w: World, s: nat): World {
    World(w.memory, w.own, w.free, map t | t in w.kind :: if w.kind[t] == Linked(s) then Severed else w.kind[t])
  }

  lemma SeverTyped(w: World, s: nat, m: Node, j: nat, f: Entry)
    requires IsTableAt(w, m) && m.space in w.kind && TypedAs(w, m, j, f)
    ensures TypedAs(Severing(w, s), m, j, f)
  {
  }

  lemma SeverKinds(w: World, s: nat)
    requires Inv(w)
    ensures var x := Severing(w, s); Placed(x) && Injective(x) && Blank(x) && Kinds(x) && NobodyLinked(x, s)
  {
    hide Tables, Hangs;
  }

  lemma SeverStillTyped(w: World, s: nat, m: Node, j: nat)
    requires Inv(w) && IsTableAt(w, m) && j < ENTRIES
    ensures IsTableAt(Severing(w, s), m) && m.space in Severing(w, s).kind && Typed(Severing(w, s), m, j)
  {
    hide Hangs, Kinds, Blank, Injective;
    assert Typed(w, m, j);
    if Cell(w, m, j) != EMPTY {
      SeverTyped(w, s, m, j, Cell(w, m, j));
    }
  }

  lemma SeverInv(w: World, s: nat)
    requires Inv(w)
    ensures Inv(Severing(w, s)) && NobodyLinked(Severing(w, s), s)
  {
    var x := Severing(w, s);
    SeverKinds(w, s);
    hide Placed, Blank, Injective, Kinds;
    forall m | m in x.own ensures Hung(x, m) {
      assert Hung(w, m);
    }
    forall m, j: nat | IsTableAt(x, m) && j < ENTRIES
      ensures Typed(x, m, j)
    {
      SeverStillTyped(w, s, m, j);
    }
  }
}
