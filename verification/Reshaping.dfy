// What building tables and writing leaves over a range of pages does to all spaces at once.
module Reshaping {
  import opened Layout
  import opened Spaces

  predicate InRange(q: Path, from: nat, to: nat) {
    IsPage(q) && from <= Index(q) < to
  }

  function Up(p: Path): Path {
    match p
    case Top => Top
    case Step(up, _) => up
  }

  // The three table positions a walk to page q goes through below the top table.
  predicate Over(p: Path, q: Path) {
    p == Up(q) || p == Up(Up(q)) || p == Up(Up(Up(q)))
  }

  // Some page of the range is reached through table position p.
  ghost predicate Needed(p: Path, from: nat, to: nat) {
    exists q :: InRange(q, from, to) && Over(p, q)
  }

  // A walk of space s stands at table n.
  ghost predicate OnPath(w: World, s: nat, n: Node, table: nat) {
    && Walkable(w, s) && IsTableAt(w, n) && Digits(n.path) && n.space in w.kind
    && w.own[n] == table
    && Look(w, s, n.path) != EMPTY && Look(w, s, n.path).frame == table
    && (n.space == KERNEL <==> s == KERNEL)
  }

  // Space s may build at table position p: a missing table would be its own, and a table already
  // there is not one merged in from the kernel.
  ghost predicate OpenTable(w: World, s: nat, p: Path)
    requires s in w.kind
  {
    if Look(w, s, p) == EMPTY then p.Step? && p.up.Top? ==> Reserved(p.digit) || !w.kind[s].Linked?
    else Process(Look(w, s, p).flags) <==> s != KERNEL
  }

  ghost predicate OpenPage(w: World, s: nat, q: Path)
    requires s in w.kind
  {
    OpenTable(w, s, Up(q)) && OpenTable(w, s, Up(Up(q))) && OpenTable(w, s, Up(Up(Up(q))))
  }

  ghost predicate Open(w: World, s: nat, from: nat, to: nat) {
    s in w.kind && forall q | InRange(q, from, to) :: OpenPage(w, s, q)
  }

  // Pages outside the range are what they were, in every space.
  ghost predicate Kept(v: World, w: World, from: nat, to: nat) {
    && w.kind == v.kind && |w.memory| == |v.memory|
    && (forall s | HasSpace(v, s) :: HasSpace(w, s) && w.own[Node(s, Top)] == v.own[Node(s, Top)])
    && forall s, q | Walkable(v, s) && IsPage(q) && !InRange(q, from, to) :: Look(w, s, q) == Look(v, s, q)
  }

  // Inside the range, a page of another space is what it was, unless that space walks the same table.
  ghost predicate Apart(v: World, w: World, s: nat, from: nat, to: nat) {
    forall r, q | Walkable(v, r) && InRange(q, from, to) ::
      || Look(w, r, q) == Look(v, r, q)
      || SameTable(w, r, s, Up(q))
  }

  // Two spaces walk one and the same table at position p.
  predicate SameTable(w: World, r: nat, s: nat, p: Path) {
    Look(w, r, p) != EMPTY && Look(w, s, p) != EMPTY && Look(w, r, p).frame == Look(w, s, p).frame
  }

  ghost predicate TablesKept(v: World, w: World) {
    forall s, p | Walkable(v, s) && IsTable(p) && Look(v, s, p) != EMPTY :: Look(w, s, p) == Look(v, s, p)
  }

  // The space itself, or the process whose thread it is.
  predicate InGroup(w: World, s: nat, t: nat) {
    s in w.kind && (t == s || t == Group(w, s))
  }

  // A table new to the walk of s is one of its own, not one merged in from the kernel.
  ghost predicate NewTables(v: World, w: World, s: nat) {
    forall p | IsTable(p) && p.Step? && Look(v, s, p) == EMPTY && Look(w, s, p) != EMPTY ::
      Process(Look(w, s, p).flags) <==> s != KERNEL
  }

  // What was owned is owned still, but for pages of the range in the tables of the space.
  ghost predicate OwnKept(v: World, w: World, s: nat, from: nat, to: nat) {
    forall n | n in v.own && !(n.Node? && InRange(n.path, from, to) && InGroup(v, s, n.space)) ::
      n in w.own && w.own[n] == v.own[n]
  }

  // What is newly owned is a page of the range, or a table that was missing above a page needed,
  // made of a free frame; or a free frame the kernel now holds for a page of its own.
  ghost predicate NewOwn(v: World, w: World, s: nat, from: nat, to: nat, end: nat) {
    forall n | n in w.own && n !in v.own :: NewNode(v, w, s, from, to, end, n)
  }

  ghost predicate NewNode(v: World, w: World, s: nat, from: nat, to: nat, end: nat, n: Node)
    requires n in w.own
  {
    if n.Held? then s == KERNEL && n.space == KERNEL && w.own[n] in v.free
    else
      && InGroup(v, s, n.space)
      && (InRange(n.path, from, to) ||
          (IsTable(n.path) && w.own[n] in v.free && Look(v, s, n.path) == EMPTY && Needed(n.path, from, end)))
  }

  // A frame that is no longer free is owned: nothing is lost.
  ghost predicate NoLeak(v: World, w: World) {
    && w.free <= v.free
    && forall f | f in v.free && f !in w.free :: exists n :: n in w.own && w.own[n] == f
  }

  ghost predicate Reshaped(v: World, w: World, s: nat, from: nat, to: nat, end: nat) {
    && Kept(v, w, from, to) && Apart(v, w, s, from, to) && TablesKept(v, w) && NewTables(v, w, s)
    && OwnKept(v, w, s, from, to) && NewOwn(v, w, s, from, to, end) && NoLeak(v, w)
  }

  lemma Unshaped(w: World, s: nat, from: nat, end: nat)
    ensures Reshaped(w, w, s, from, from, end)
  {
  }

  lemma OnPathInGroup(w: World, s: nat, n: Node, table: nat)
    requires Inv(w) && OnPath(w, s, n, table)
    ensures InGroup(w, s, n.space)
  {
    var t := Locate(w, s, n.path);
    assert n == Node(t, n.path);
  }

  // All frames the world knows an owner of.
  ghost function OwnedFrames(w: World): set<nat> {
    set n | n in w.own :: w.own[n]
  }

  // Free and owned frames together.
  ghost function Pool(w: World): set<nat> {
    w.free + OwnedFrames(w)
  }

  // Whatever was owned is owned still.
  ghost predicate OwnGrows(v: World, w: World) {
    forall n | n in v.own :: n in w.own && w.own[n] == v.own[n]
  }

  // Something not owned before is owned now.
  lemma PoolGains(v: World, w: World, c: Node, f: nat, free: set<nat>)
    requires c !in v.own && w.own == v.own[c := f] && w.free == v.free - free
    ensures OwnedFrames(w) == OwnedFrames(v) + {f} && OwnGrows(v, w)
  {
    assert f in OwnedFrames(w) by { assert c in w.own; }
    forall g | g in OwnedFrames(v) ensures g in OwnedFrames(w) {
      var n :| n in v.own && v.own[n] == g;
      assert n in w.own && w.own[n] == g;
    }
  }

  // ---- a table is added ------------------------------------------------------------------------

  lemma TableKept(v: World, w: World, n: Node, i: nat, g: nat, flags: bv12, from: nat, to: nat)
    requires Inv(w) && CanHoldTable(w, n, i, g, flags)
    requires Kept(v, w, from, to)
    ensures Kept(v, WithTable(w, n, i, g, flags), from, to)
  {
    var x := WithTable(w, n, i, g, flags);
    forall s, q | Walkable(v, s) && IsPage(q) && !InRange(q, from, to)
      ensures Look(x, s, q) == Look(v, s, q)
    {
      TableWalk(w, n, i, g, flags, s, q);
      assert q != Step(n.path, i);
    }
  }

  lemma TableTablesKept(v: World, w: World, n: Node, i: nat, g: nat, flags: bv12, from: nat, to: nat)
    requires Inv(w) && CanHoldTable(w, n, i, g, flags)
    requires Kept(v, w, from, to) && TablesKept(v, w)
    ensures TablesKept(v, WithTable(w, n, i, g, flags))
  {
    var x := WithTable(w, n, i, g, flags);
    forall s, p | Walkable(v, s) && IsTable(p) && Look(v, s, p) != EMPTY
      ensures Look(x, s, p) == Look(v, s, p)
    {
      TableWalk(w, n, i, g, flags, s, p);
    }
  }

  lemma TableApart(v: World, w: World, s: nat, n: Node, i: nat, g: nat, flags: bv12, from: nat, to: nat)
    requires Inv(w) && CanHoldTable(w, n, i, g, flags) && Walkable(w, s)
    requires Kept(v, w, from, to) && Apart(v, w, s, from, to)
    ensures Apart(v, WithTable(w, n, i, g, flags), s, from, to)
  {
    var x := WithTable(w, n, i, g, flags);
    forall r, q | Walkable(v, r) && InRange(q, from, to)
      ensures || Look(x, r, q) == Look(v, r, q)
              || SameTable(x, r, s, Up(q))
    {
      TableWalk(w, n, i, g, flags, r, q);
      assert q != Step(n.path, i);
      TableWalk(w, n, i, g, flags, r, Up(q));
      TableWalk(w, n, i, g, flags, s, Up(q));
    }
  }

  lemma TablePlace(w: World, n: Node, i: nat, g: nat, flags: bv12)
    requires CanHoldTable(w, n, i, g, flags)
    ensures IsTableAt(w, n) && i < ENTRIES
    ensures WithTable(w, n, i, g, flags).own == w.own[Node(n.space, Step(n.path, i)) := g]
    ensures WithTable(w, n, i, g, flags).free == w.free - {g}
  {
  }

  lemma SameGroup(v: World, w: World, s: nat, t: nat, from: nat, to: nat)
    requires Kept(v, w, from, to) && InGroup(w, s, t)
    ensures InGroup(v, s, t)
  {
    hide Look;
  }

  lemma TableOwn(v: World, w: World, s: nat, n: Node, i: nat, g: nat, flags: bv12, from: nat, to: nat, end: nat)
    requires Inv(w) && CanHoldTable(w, n, i, g, flags)
    requires OnPath(w, s, n, w.own[n]) && Walkable(v, s)
    requires Reshaped(v, w, s, from, to, end) && Needed(Step(n.path, i), from, end)
    ensures OwnKept(v, WithTable(w, n, i, g, flags), s, from, to)
    ensures NewOwn(v, WithTable(w, n, i, g, flags), s, from, to, end)
    ensures NoLeak(v, WithTable(w, n, i, g, flags))
  {
    hide Inv, CanHoldTable, WithTable, Needed, Look, InRange, Apart, Kept, TablesKept, NewTables, IsTable, OnPath, NoLeak, Walkable;
    TablePlace(w, n, i, g, flags);
    TableIsNew(w, n, i, g, flags);
    OnPathInGroup(w, s, n, w.own[n]);
    TableIsMissing(v, w, s, n, i, g, flags, from, to, end);
    SameGroup(v, w, s, n.space, from, to);
    var x := WithTable(w, n, i, g, flags);
    var c := Node(n.space, Step(n.path, i));
    NoLeakMore(v, w, x, c, g);
    forall m | m in x.own && m !in v.own
      ensures NewNode(v, x, s, from, to, end, m)
    {
      if m != c {
        assert NewNode(v, w, s, from, to, end, m);
      }
    }
  }

  // A free frame found an owner.
  lemma NoLeakMore(v: World, w: World, x: World, c: Node, g: nat)
    requires NoLeak(v, w) && c !in w.own && x.own == w.own[c := g] && x.free == w.free - {g}
    ensures NoLeak(v, x)
  {
    forall f | f in v.free && f !in x.free
      ensures exists m :: m in x.own && x.own[m] == f
    {
      if f == g {
        assert x.own[c] == f;
      } else {
        var m :| m in w.own && w.own[m] == f;
        assert x.own[m] == f;
      }
    }
  }

  // The new table was missing from the first.
  lemma TableIsMissing(v: World, w: World, s: nat, n: Node, i: nat, g: nat, flags: bv12, from: nat, to: nat, end: nat)
    requires Inv(w) && CanHoldTable(w, n, i, g, flags) && OnPath(w, s, n, w.own[n]) && Walkable(v, s)
    requires Reshaped(v, w, s, from, to, end)
    ensures IsTable(Step(n.path, i)) && Look(v, s, Step(n.path, i)) == EMPTY && g in v.free
  {
    hide Inv, Kept, Apart, NewTables, OwnKept, NewOwn;
    assert Look(w, s, Step(n.path, i)) == EMPTY;
  }

  lemma TableNewTables(v: World, w: World, s: nat, n: Node, i: nat, g: nat, flags: bv12)
    requires Inv(w) && CanHoldTable(w, n, i, g, flags) && OnPath(w, s, n, w.own[n]) && NewTables(v, w, s)
    ensures NewTables(v, WithTable(w, n, i, g, flags), s)
  {
    var x := WithTable(w, n, i, g, flags);
    forall p | IsTable(p) && p.Step? && Look(v, s, p) == EMPTY && Look(x, s, p) != EMPTY
      ensures Process(Look(x, s, p).flags) <==> s != KERNEL
    {
      TableWalk(w, n, i, g, flags, s, p);
    }
  }

  lemma TableReshaped(v: World, w: World, s: nat, n: Node, i: nat, g: nat, flags: bv12, from: nat, to: nat, end: nat)
    requires Inv(w) && CanHoldTable(w, n, i, g, flags)
    requires OnPath(w, s, n, w.own[n]) && Walkable(v, s)
    requires Reshaped(v, w, s, from, to, end) && Needed(Step(n.path, i), from, end)
    ensures Reshaped(v, WithTable(w, n, i, g, flags), s, from, to, end)
  {
    TableKept(v, w, n, i, g, flags, from, to);
    TableApart(v, w, s, n, i, g, flags, from, to);
    TableTablesKept(v, w, n, i, g, flags, from, to);
    TableNewTables(v, w, s, n, i, g, flags);
    TableOwn(v, w, s, n, i, g, flags, from, to, end);
  }

  lemma TableOpen(w: World, s: nat, n: Node, i: nat, g: nat, flags: bv12, from: nat, end: nat)
    requires Inv(w) && CanHoldTable(w, n, i, g, flags) && OnPath(w, s, n, w.own[n])
    requires Open(w, s, from, end)
    ensures Open(WithTable(w, n, i, g, flags), s, from, end)
  {
    var x := WithTable(w, n, i, g, flags);
    forall q | InRange(q, from, end)
      ensures OpenPage(x, s, q)
    {
      TableWalk(w, n, i, g, flags, s, Up(q));
      TableWalk(w, n, i, g, flags, s, Up(Up(q)));
      TableWalk(w, n, i, g, flags, s, Up(Up(Up(q))));
      assert OpenPage(w, s, q);
    }
  }

  // A walk that stood at a table still does.
  lemma TableOnPath(w: World, s: nat, n: Node, i: nat, g: nat, flags: bv12, m: Node, table: nat)
    requires Inv(w) && CanHoldTable(w, n, i, g, flags) && OnPath(w, s, m, table)
    ensures OnPath(WithTable(w, n, i, g, flags), s, m, table)
  {
    TableWalk(w, n, i, g, flags, s, m.path);
    TableIsNew(w, n, i, g, flags);
  }

  // And the walk comes to the new table.
  lemma TableBelow(w: World, s: nat, n: Node, i: nat, g: nat, flags: bv12)
    requires Inv(w) && CanHoldTable(w, n, i, g, flags) && OnPath(w, s, n, w.own[n])
    ensures OnPath(WithTable(w, n, i, g, flags), s, Node(n.space, Step(n.path, i)), g)
  {
    TableWalk(w, n, i, g, flags, s, Step(n.path, i));
  }

  lemma RangeGrows(q: Path, from: nat, to: nat)
    requires from <= to
    ensures InRange(q, from, to) || InRange(q, to, to + 1) ==> InRange(q, from, to + 1)
  {
  }

  // ---- a leaf is written -----------------------------------------------------------------------

  lemma LeafKept(v: World, w: World, n: Node, i: nat, e: Entry, from: nat, to: nat)
    requires Inv(w) && CanHoldLeaf(w, n, i, e)
    requires Kept(v, w, from, to) && InRange(Step(n.path, i), to, to + 1) && from <= to
    ensures Kept(v, WithLeaf(w, n, i, e), from, to + 1)
  {
    var x := WithLeaf(w, n, i, e);
    forall s, q | Walkable(v, s) && IsPage(q) && !InRange(q, from, to + 1)
      ensures Look(x, s, q) == Look(v, s, q)
    {
      LeafWalk(w, n, i, e, s, q);
    }
    forall s | HasSpace(v, s) ensures HasSpace(x, s) && x.own[Node(s, Top)] == v.own[Node(s, Top)] {
      assert HasSpace(w, s);
    }
  }

  lemma LeafTablesKept(v: World, w: World, n: Node, i: nat, e: Entry, from: nat, to: nat)
    requires Inv(w) && CanHoldLeaf(w, n, i, e)
    requires Kept(v, w, from, to) && TablesKept(v, w)
    ensures TablesKept(v, WithLeaf(w, n, i, e))
  {
    var x := WithLeaf(w, n, i, e);
    forall s, p | Walkable(v, s) && IsTable(p) && Look(v, s, p) != EMPTY
      ensures Look(x, s, p) == Look(v, s, p)
    {
      LeafWalk(w, n, i, e, s, p);
    }
  }

  lemma LeafNewTables(v: World, w: World, s: nat, n: Node, i: nat, e: Entry)
    requires Inv(w) && CanHoldLeaf(w, n, i, e) && Walkable(w, s) && NewTables(v, w, s)
    ensures NewTables(v, WithLeaf(w, n, i, e), s)
  {
    forall p | IsTable(p) && p.Step? && Look(v, s, p) == EMPTY && Look(WithLeaf(w, n, i, e), s, p) != EMPTY
      ensures Process(Look(WithLeaf(w, n, i, e), s, p).flags) <==> s != KERNEL
    {
      LeafWalk(w, n, i, e, s, p);
    }
  }

  lemma LeafApart(v: World, w: World, s: nat, n: Node, i: nat, e: Entry, from: nat, to: nat)
    requires Inv(w) && CanHoldLeaf(w, n, i, e) && OnPath(w, s, n, w.own[n])
    requires Kept(v, w, from, to) && Apart(v, w, s, from, to) && InRange(Step(n.path, i), to, to + 1) && from <= to
    ensures Apart(v, WithLeaf(w, n, i, e), s, from, to + 1)
  {
    var x := WithLeaf(w, n, i, e);
    forall r, q | Walkable(v, r) && InRange(q, from, to + 1)
      ensures || Look(x, r, q) == Look(v, r, q)
              || SameTable(x, r, s, Up(q))
    {
      LeafWalk(w, n, i, e, r, q);
      LeafWalk(w, n, i, e, r, Up(q));
      LeafWalk(w, n, i, e, s, Up(q));
      if !InRange(q, from, to) {
        IndexInjective(q, Step(n.path, i));
        assert Look(w, r, q) == Look(v, r, q);
      }
    }
  }

  // Who owned what still does, but for the page written.
  lemma LeafOwners(w: World, n: Node, i: nat, e: Entry)
    requires IsTableAt(w, n) && i < ENTRIES
    ensures WithLeaf(w, n, i, e).free == w.free
    ensures forall m | m != Node(n.space, Step(n.path, i)) ::
              && (m in WithLeaf(w, n, i, e).own <==> m in w.own)
              && (m in w.own ==> WithLeaf(w, n, i, e).own[m] == w.own[m])
  {
  }

  lemma LeafPlace(w: World, n: Node, i: nat, e: Entry)
    requires CanHoldLeaf(w, n, i, e)
    ensures IsTableAt(w, n) && Depth(n.path) == 3 && i < ENTRIES && n.space in w.kind
  {
  }

  lemma LeafOwn(v: World, w: World, s: nat, n: Node, i: nat, e: Entry, from: nat, to: nat, end: nat)
    requires Inv(w) && CanHoldLeaf(w, n, i, e)
    requires OwnKept(v, w, s, from, to) && NewOwn(v, w, s, from, to, end) && NoLeak(v, w)
    requires n.Node? && InGroup(v, s, n.space)
    requires InRange(Step(n.path, i), to, to + 1) && from <= to
    requires Node(n.space, Step(n.path, i)) in w.own ==> w.own[Node(n.space, Step(n.path, i))] !in v.free
    ensures OwnKept(v, WithLeaf(w, n, i, e), s, from, to + 1)
    ensures NewOwn(v, WithLeaf(w, n, i, e), s, from, to + 1, end)
    ensures NoLeak(v, WithLeaf(w, n, i, e))
  {
    hide Inv, CanHoldLeaf, WithLeaf, Needed, Look, InRange, IsTable;
    assert IsTableAt(w, n) && i < ENTRIES by { LeafPlace(w, n, i, e); }
    LeafOwners(w, n, i, e);
    var x := WithLeaf(w, n, i, e);
    var c := Node(n.space, Step(n.path, i));
    RangeGrows(c.path, from, to);
    forall m | m in v.own && !(m.Node? && InRange(m.path, from, to + 1) && InGroup(v, s, m.space))
      ensures m in x.own && x.own[m] == v.own[m]
    {
      if m.Node? {
        RangeGrows(m.path, from, to);
      }
    }
    forall m | m in x.own && m !in v.own
      ensures NewNode(v, x, s, from, to + 1, end, m)
    {
      if m != c {
        assert NewNode(v, w, s, from, to, end, m);
        if m.Node? {
          RangeGrows(m.path, from, to);
        }
      }
    }
    forall f | f in v.free && f !in x.free
      ensures exists m :: m in x.own && x.own[m] == f
    {
      var m :| m in w.own && w.own[m] == f;
      assert x.own[m] == f;
    }
  }

  lemma LeafReshaped(v: World, w: World, s: nat, n: Node, i: nat, e: Entry, from: nat, to: nat, end: nat)
    requires Inv(w) && CanHoldLeaf(w, n, i, e) && OnPath(w, s, n, w.own[n])
    requires Reshaped(v, w, s, from, to, end) && InRange(Step(n.path, i), to, to + 1) && from <= to
    requires Node(n.space, Step(n.path, i)) in w.own ==> w.own[Node(n.space, Step(n.path, i))] !in v.free
    ensures Reshaped(v, WithLeaf(w, n, i, e), s, from, to + 1, end)
  {
    LeafKept(v, w, n, i, e, from, to);
    LeafApart(v, w, s, n, i, e, from, to);
    OnPathInGroup(w, s, n, w.own[n]);
    LeafTablesKept(v, w, n, i, e, from, to);
    LeafNewTables(v, w, s, n, i, e);
    LeafOwn(v, w, s, n, i, e, from, to, end);
  }

  lemma LeafOpen(w: World, s: nat, n: Node, i: nat, e: Entry, from: nat, end: nat)
    requires Inv(w) && CanHoldLeaf(w, n, i, e) && Walkable(w, s) && Open(w, s, from, end)
    ensures Open(WithLeaf(w, n, i, e), s, from, end)
  {
    var x := WithLeaf(w, n, i, e);
    forall q | InRange(q, from, end)
      ensures OpenPage(x, s, q)
    {
      LeafWalk(w, n, i, e, s, Up(q));
      LeafWalk(w, n, i, e, s, Up(Up(q)));
      LeafWalk(w, n, i, e, s, Up(Up(Up(q))));
      assert OpenPage(w, s, q);
    }
  }

  lemma LeafOnPath(w: World, s: nat, n: Node, i: nat, e: Entry, m: Node, table: nat)
    requires Inv(w) && CanHoldLeaf(w, n, i, e) && OnPath(w, s, m, table)
    ensures OnPath(WithLeaf(w, n, i, e), s, m, table) && Walkable(WithLeaf(w, n, i, e), s)
  {
    hide Inv, Look, Limbo, Owned, Process, Shared;
    LeafWalk(w, n, i, e, s, m.path);
  }

  // The written page reads back, and no other page of the space changes.
  lemma LeafReads(w: World, s: nat, n: Node, i: nat, e: Entry, q: Path)
    requires Inv(w) && CanHoldLeaf(w, n, i, e) && OnPath(w, s, n, w.own[n]) && IsPage(q)
    ensures Look(WithLeaf(w, n, i, e), s, q) == if q == Step(n.path, i) then e else Look(w, s, q)
  {
    LeafWalk(w, n, i, e, s, q);
  }

  // ---- a free frame becomes a page -------------------------------------------------------------

  function Without(w: World, g: nat): World {
    World(w.memory, w.own, w.free - {g}, w.kind)
  }

  lemma WithoutInv(w: World, g: nat)
    requires Inv(w) && g in w.free
    ensures Inv(Without(w, g)) && Limbo(Without(w, g), g)
  {
    SameTablesInv(w, Without(w, g));
  }

  // An entry of a last-level table that claims nothing owns nothing.
  lemma EmptyOwnsNothing(w: World, n: Node, i: nat)
    requires Inv(w) && IsTableAt(w, n) && i < ENTRIES && Cell(w, n, i) == EMPTY
    ensures Node(n.space, Step(n.path, i)) !in w.own
  {
    assert Node(n.space, Step(n.path, i)) in w.own ==> Hung(w, Node(n.space, Step(n.path, i)));
  }

  // The same tables in the same memory, whatever else is owned.
  ghost predicate SameWalks(w: World, x: World) {
    && x.kind == w.kind && x.memory == w.memory
    && (forall n: Node | n.Node? :: n in x.own <==> n in w.own)
    && (forall n | n in w.own && n.Node? :: x.own[n] == w.own[n])
  }

  lemma SameWalksTyped(w: World, x: World, m: Node, j: nat, f: Entry)
    requires SameWalks(w, x) && IsTableAt(w, m) && m.space in w.kind && TypedAs(w, m, j, f)
    ensures TypedAs(x, m, j, f)
  {
  }

  lemma SameWalksHung(w: World, x: World, m: Node)
    requires SameWalks(w, x) && m in x.own && (m.Node? ==> Hung(w, m))
    ensures Hung(x, m)
  {
  }

  lemma SameWalksInv(w: World, x: World)
    requires Inv(w) && SameWalks(w, x) && Placed(x) && Injective(x) && x.free == w.free
    ensures Inv(x)
  {
    hide Injective, Blank;
    forall m | m in x.own ensures Hung(x, m) {
      assert m.Node? ==> m in w.own;
      SameWalksHung(w, x, m);
    }
    forall m, j: nat | IsTableAt(x, m) && j < ENTRIES
      ensures Typed(x, m, j)
    {
      assert IsTableAt(w, m) && Typed(w, m, j);
      if Cell(w, m, j) != EMPTY {
        SameWalksTyped(w, x, m, j, Cell(w, m, j));
      }
    }
    assert Kinds(x);
    assert Blank(x) by { SameBlank(w, x); }
  }

  lemma SameBlank(w: World, x: World)
    requires Blank(w) && x.free == w.free && x.memory == w.memory
    ensures Blank(x)
  {
  }

  // Whose the frame of a page is: its process's, at this place, or the kernel's, who holds it.
  ghost function PageNode(n: Node, i: nat, g: nat): Node
    requires n.Node?
  {
    if n.space == KERNEL then Held(KERNEL, g) else Node(n.space, Step(n.path, i))
  }

  // Free frame g is drawn for a page.
  ghost function Drawn(w: World, s: nat, g: nat): World {
    if s == KERNEL then World(w.memory, w.own[Held(KERNEL, g) := g], w.free - {g}, w.kind) else Without(w, g)
  }

  lemma DrawnInv(w: World, s: nat, g: nat)
    requires Inv(w) && g in w.free
    ensures Inv(Drawn(w, s, g)) && (s != KERNEL ==> Limbo(Drawn(w, s, g), g))
    ensures s == KERNEL ==> Held(KERNEL, g) !in w.own
  {
    WithoutInv(w, g);
    if s == KERNEL {
      hide Tables, Hangs, Kinds;
      SameWalksInv(Without(w, g), Drawn(w, s, g));
    }
  }

  ghost function WithPage(w: World, n: Node, i: nat, g: nat, flags: bv12): World
    requires IsTableAt(w, n) && i < ENTRIES
  {
    WithLeaf(Drawn(w, n.space, g), n, i, Entry(g, flags))
  }

  // Flags a page may be given when it is backed: a process's own, or the kernel's.
  predicate Backable(s: nat, flags: bv12) {
    if s == KERNEL then !Process(flags) else Owned(flags)
  }

  ghost predicate CanHoldPage(w: World, n: Node, i: nat, g: nat, flags: bv12) {
    && IsTableAt(w, n) && Depth(n.path) == 3 && i < ENTRIES && n.space in w.kind
    && Cell(w, n, i) == EMPTY && g in w.free && Backable(n.space, flags)
  }

  lemma OwnedIsProcess(flags: bv12)
    ensures Owned(flags) ==> Process(flags)
  {
  }

  lemma PageKeepsInv(w: World, n: Node, i: nat, g: nat, flags: bv12)
    requires Inv(w) && CanHoldPage(w, n, i, g, flags)
    ensures Inv(WithPage(w, n, i, g, flags)) && Inv(Drawn(w, n.space, g))
    ensures CanHoldLeaf(Drawn(w, n.space, g), n, i, Entry(g, flags))
  {
    hide Inv, Limbo, Process, Owned;
    OwnedIsProcess(flags);
    DrawnInv(w, n.space, g);
    LeafKeepsInv(Drawn(w, n.space, g), n, i, Entry(g, flags));
  }

  // The page's owner is new, and nothing else changes hands.
  lemma PageOwners(w: World, n: Node, i: nat, g: nat, flags: bv12)
    requires Inv(w) && CanHoldPage(w, n, i, g, flags)
    ensures PageNode(n, i, g) !in w.own && WithPage(w, n, i, g, flags).own == w.own[PageNode(n, i, g) := g]
    ensures WithPage(w, n, i, g, flags).free == w.free - {g}
  {
    hide Tables, Hangs, Kinds, Blank;
    EmptyOwnsNothing(w, n, i);
    DrawnInv(w, n.space, g);
  }

  lemma StillFree(v: World, w: World, g: nat)
    requires NoLeak(v, w) && g in w.free
    ensures g in v.free
  {
  }

  lemma PageFrame(w: World, n: Node, i: nat, g: nat, flags: bv12)
    requires Inv(w) && CanHoldPage(w, n, i, g, flags)
    ensures g > 0 && g in w.free && IsTableAt(w, n) && i < ENTRIES
  {
  }

  lemma PageOwn(v: World, w: World, s: nat, n: Node, i: nat, g: nat, flags: bv12, from: nat, to: nat, end: nat)
    requires Inv(w) && CanHoldPage(w, n, i, g, flags)
    requires OwnKept(v, w, s, from, to) && NewOwn(v, w, s, from, to, end) && NoLeak(v, w)
    requires n.Node? && InGroup(v, s, n.space) && (n.space == KERNEL <==> s == KERNEL)
    requires InRange(Step(n.path, i), to, to + 1) && from <= to
    ensures OwnKept(v, WithPage(w, n, i, g, flags), s, from, to + 1)
    ensures NewOwn(v, WithPage(w, n, i, g, flags), s, from, to + 1, end)
    ensures NoLeak(v, WithPage(w, n, i, g, flags))
  {
    hide Inv, CanHoldPage, WithPage, Needed, Look, InRange, NoLeak, IsTable;
    PageOwners(w, n, i, g, flags);
    PageFrame(w, n, i, g, flags);
    StillFree(v, w, g);
    var x := WithPage(w, n, i, g, flags);
    var c := PageNode(n, i, g);
    NoLeakMore(v, w, x, c, g);
    RangeGrows(Step(n.path, i), from, to);
    forall m | m in v.own && !(m.Node? && InRange(m.path, from, to + 1) && InGroup(v, s, m.space))
      ensures m in x.own && x.own[m] == v.own[m]
    {
      if m.Node? {
        RangeGrows(m.path, from, to);
      }
    }
    forall m | m in x.own && m !in v.own
      ensures NewNode(v, x, s, from, to + 1, end, m)
    {
      if m != c {
        assert NewNode(v, w, s, from, to, end, m);
        if m.Node? {
          RangeGrows(m.path, from, to);
        }
      }
    }
  }

  lemma DrawnOnPath(w: World, s: nat, n: Node, t: nat, g: nat)
    requires IsTableAt(w, n) && OnPath(w, s, n, w.own[n])
    ensures n in Drawn(w, t, g).own && OnPath(Drawn(w, t, g), s, n, Drawn(w, t, g).own[n]) && Walkable(Drawn(w, t, g), s)
    ensures n.space == KERNEL <==> s == KERNEL
  {
    DrawnLooks(w, t, g);
    hide Look;
  }

  lemma PageReshaped(v: World, w: World, s: nat, n: Node, i: nat, g: nat, flags: bv12, from: nat, to: nat, end: nat)
    requires Inv(w) && CanHoldPage(w, n, i, g, flags) && OnPath(w, s, n, w.own[n])
    requires Reshaped(v, w, s, from, to, end) && InRange(Step(n.path, i), to, to + 1) && from <= to
    ensures Reshaped(v, WithPage(w, n, i, g, flags), s, from, to + 1, end)
  {
    hide Inv, CanHoldPage, CanHoldLeaf, WithLeaf, Drawn, OnPath, Kept, Apart, TablesKept, NewTables, OwnKept, NewOwn, NoLeak, InRange;
    PageFrame(w, n, i, g, flags);
    PageKeepsInv(w, n, i, g, flags);
    var u := Drawn(w, n.space, g);
    DrawnKeeps(v, w, s, n.space, g, from, to);
    DrawnOnPath(w, s, n, n.space, g);
    LeafKept(v, u, n, i, Entry(g, flags), from, to);
    LeafApart(v, u, s, n, i, Entry(g, flags), from, to);
    LeafTablesKept(v, u, n, i, Entry(g, flags), from, to);
    LeafNewTables(v, u, s, n, i, Entry(g, flags));
    OnPathInGroup(w, s, n, w.own[n]);
    SameGroup(v, w, s, n.space, from, to);
    PageOwn(v, w, s, n, i, g, flags, from, to, end);
  }

  // Nothing shows of a frame being drawn.
  lemma DrawnLooks(w: World, t: nat, g: nat)
    ensures forall r :: HasSpace(Drawn(w, t, g), r) == HasSpace(w, r) && Walkable(Drawn(w, t, g), r) == Walkable(w, r)
    ensures forall r, p :: Look(Drawn(w, t, g), r, p) == Look(w, r, p)
  {
  }

  lemma DrawnKeeps(v: World, w: World, s: nat, t: nat, g: nat, from: nat, to: nat)
    requires Kept(v, w, from, to) && Apart(v, w, s, from, to) && TablesKept(v, w) && NewTables(v, w, s)
    ensures Kept(v, Drawn(w, t, g), from, to) && Apart(v, Drawn(w, t, g), s, from, to)
    ensures TablesKept(v, Drawn(w, t, g)) && NewTables(v, Drawn(w, t, g), s)
  {
    DrawnLooks(w, t, g);
    hide Look;
  }

  // A page left as it was is one more page done.
  lemma SkipReshaped(v: World, w: World, s: nat, from: nat, to: nat, end: nat)
    requires Reshaped(v, w, s, from, to, end) && from <= to
    ensures Reshaped(v, w, s, from, to + 1, end)
  {
    forall r, q | Walkable(v, r) && InRange(q, from, to + 1)
      ensures Look(w, r, q) == Look(v, r, q) || SameTable(w, r, s, Up(q))
    {
      if !InRange(q, from, to) {
        assert Look(w, r, q) == Look(v, r, q);
      }
    }
    forall n | n in w.own && n !in v.own
      ensures NewNode(v, w, s, from, to + 1, end, n)
    {
      assert NewNode(v, w, s, from, to, end, n);
    }
  }
}
