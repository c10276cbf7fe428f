// Sharing one space's tables with another, entry by entry, where the other has none of its own.
module Merging {
  import opened Layout
  import opened Spaces
  import opened Memory
  import opened Reshaping
  import opened Pages
  import opened Paging
  import opened Teardown

  // Entry i of table n becomes e; nothing changes hands.
  function WithLink(w: World, n: Node, i: nat, e: Entry): World
    requires IsTableAt(w, n) && i < ENTRIES
  {
    World(Put(w.memory, w.own[n], i, e), w.own, w.free, w.kind)
  }

  ghost predicate CanLink(w: World, n: Node, i: nat, e: Entry) {
    && IsTableAt(w, n) && i < ENTRIES && n.space in w.kind
    && Cell(w, n, i) == EMPTY
    && (e == EMPTY || TypedAs(w, n, i, e))
  }

  lemma LinkFrames(w: World, n: Node, i: nat, e: Entry)
    requires Inv(w) && CanLink(w, n, i, e)
    ensures var x := WithLink(w, n, i, e); Placed(x) && Injective(x) && Blank(x) && Kinds(x)
  {
    hide Tables, Hangs;
  }

  lemma LinkHung(w: World, n: Node, i: nat, e: Entry, m: Node)
    requires Inv(w) && CanLink(w, n, i, e) && m in w.own
    ensures Hung(WithLink(w, n, i, e), m)
  {
    hide Tables, Kinds, Blank, TypedAs;
    assert Hung(w, m);
  }

  lemma LinkTyped(w: World, n: Node, i: nat, e: Entry, m: Node, j: nat)
    requires Inv(w) && CanLink(w, n, i, e) && IsTableAt(w, m) && m.space in w.kind && j < ENTRIES
    ensures IsTableAt(WithLink(w, n, i, e), m) && Typed(WithLink(w, n, i, e), m, j)
  {
    hide Hangs, Kinds, Blank;
    assert Typed(w, m, j);
    if m != n || j != i {
      assert Cell(WithLink(w, n, i, e), m, j) == Cell(w, m, j) by { hide TypedAs, Typed; }
    }
  }

  lemma LinkKeepsInv(w: World, n: Node, i: nat, e: Entry)
    requires Inv(w) && CanLink(w, n, i, e)
    ensures Inv(WithLink(w, n, i, e))
  {
    var x := WithLink(w, n, i, e);
    LinkFrames(w, n, i, e);
    hide Placed, Injective, Blank, Kinds;
    forall m | m in x.own ensures Hung(x, m) {
      LinkHung(w, n, i, e, m);
    }
    forall m, j: nat | IsTableAt(x, m) && j < ENTRIES
      ensures Typed(x, m, j)
    {
      LinkTyped(w, n, i, e, m, j);
    }
  }

  // The first space reads, below the entry, what the second space reads there.
  lemma {:induction false} LinkWalk(w: World, s: nat, a: nat, n: Node, i: nat, e: Entry, p: Path)
    requires Inv(w) && CanLink(w, n, i, e) && Walkable(w, s) && Walkable(w, a) && Digits(p) && Depth(p) <= 4
    requires Look(w, s, n.path) != EMPTY && Look(w, s, n.path).frame == w.own[n]
    requires Look(w, a, Step(n.path, i)) == e
    ensures Look(WithLink(w, n, i, e), s, p) == if Under(p, Step(n.path, i)) then Look(w, a, p) else Look(w, s, p)
  {
    hide Hangs, Kinds, Blank, Tables, TypedAs;
    match p
    case Top =>
    case Step(up, j) =>
      LinkWalk(w, s, a, n, i, e, up);
      if Under(up, Step(n.path, i)) {
        UnderIsDeeper(up, Step(n.path, i));
        if Look(w, a, up) != EMPTY {
          var t := Locate(w, a, up);
        }
      } else if Look(w, s, up) != EMPTY {
        var t := Locate(w, s, up);
      }
  }

  lemma {:induction false} UnderIsDeeper(q: Path, p: Path)
    requires Under(q, p)
    ensures Depth(q) >= Depth(p)
  {
    if q != p {
      UnderIsDeeper(q.up, p);
    }
  }

  // A space that does not use the table sees nothing.
  lemma {:induction false} LinkElsewhere(w: World, n: Node, i: nat, e: Entry, r: nat, p: Path)
    requires Inv(w) && CanLink(w, n, i, e) && Walkable(w, r) && Digits(p) && Depth(p) <= 4
    requires !Passes(w, r, n.space)
    ensures Look(WithLink(w, n, i, e), r, p) == Look(w, r, p)
  {
    match p
    case Top =>
    case Step(up, j) =>
      LinkElsewhere(w, n, i, e, r, up);
      if Look(w, r, up) != EMPTY {
        var t := Locate(w, r, up);
      }
  }

  function TopDigit(q: Path): nat {
    match Up(Up(Up(q)))
    case Top => 0
    case Step(_, i) => i
  }

  // What page q of space s reads when space a's pages have been merged into it.
  function MergedPage(v: World, a: nat, s: nat, q: Path): Entry {
    if !Reserved(TopDigit(q)) && Look(v, s, q) == EMPTY then Look(v, a, q) else Look(v, s, q)
  }

  // Pages of s below the cursor are merged, the others are as they were; nothing else has changed.
  ghost predicate MergedTo(v: World, w: World, a: nat, s: nat, cursor: nat) {
    forall q | IsPage(q) :: Look(w, s, q) == if Index(q) < cursor then MergedPage(v, a, s, q) else Look(v, s, q)
  }

  // Tables of s stay what they are; one it has not is one of a, if it comes to have one.
  ghost predicate MergedTables(v: World, w: World, a: nat, s: nat) {
    forall p | IsTable(p) && p.Step? ::
      if Look(v, s, p) != EMPTY then Look(w, s, p) == Look(v, s, p) else Look(w, s, p) == EMPTY || Look(w, s, p) == Look(v, a, p)
  }

  ghost predicate MayMerge(v: World, a: nat, s: nat) {
    && Inv(v) && Walkable(v, a) && Walkable(v, s) && a != s && s != KERNEL && NobodyLinked(v, s)
  }

  ghost predicate MergeAt(v: World, w: World, a: nat, s: nat, cursor: nat) {
    && MayMerge(v, a, s) && Inv(w)
    && w.own == v.own && w.free == v.free && w.kind == v.kind && |w.memory| == |v.memory|
    && MergedTo(v, w, a, s, cursor)
    && MergedTables(v, w, a, s)
    && Others(v, w, s)
  }

  // Table n of the walk of s.
  ghost predicate Reaches(w: World, s: nat, n: Node, table: nat) {
    && IsTableAt(w, n) && w.own[n] == table && n.space in w.kind && Digits(n.path)
    && Look(w, s, n.path) != EMPTY && Look(w, s, n.path).frame == table
  }

  // ---- positions and numbers -------------------------------------------------------------------

  lemma Blocks(q: Path, p4: nat, p3: nat, p2: nat, p1: nat)
    requires IsPage(q) && p4 < ENTRIES && p3 < ENTRIES && p2 < ENTRIES && p1 < ENTRIES
    ensures Under(q, Step(Top, p4)) <==> Number(p4, 0, 0, 0) <= Index(q) < Number(p4 + 1, 0, 0, 0)
    ensures Under(q, Step(Step(Top, p4), p3)) <==> Number(p4, p3, 0, 0) <= Index(q) < Number(p4, p3 + 1, 0, 0)
    ensures Under(q, Step(Step(Step(Top, p4), p3), p2)) <==> Number(p4, p3, p2, 0) <= Index(q) < Number(p4, p3, p2 + 1, 0)
    ensures Under(q, PagePath(p4, p3, p2, p1)) <==> Index(q) == Number(p4, p3, p2, p1)
    ensures Under(q, Step(Top, p4)) ==> TopDigit(q) == p4
  {
    var d4, d3, d2, d1 := DigitsOfPage(q);
    UnderDigits(p4, p3, p2, p1, d4, d3, d2, d1);
    PagePathIs(d4, d3, d2, d1);
  }

  lemma UnderDigits(p4: nat, p3: nat, p2: nat, p1: nat, d4: nat, d3: nat, d2: nat, d1: nat)
    ensures var q := PagePath(d4, d3, d2, d1);
            && (Under(q, Step(Top, p4)) <==> d4 == p4)
            && (Under(q, Step(Step(Top, p4), p3)) <==> d4 == p4 && d3 == p3)
            && (Under(q, Step(Step(Step(Top, p4), p3), p2)) <==> d4 == p4 && d3 == p3 && d2 == p2)
            && (Under(q, PagePath(p4, p3, p2, p1)) <==> d4 == p4 && d3 == p3 && d2 == p2 && d1 == p1)
            && TopDigit(q) == d4
  {
    var q1 := Step(Top, d4);
    var q2 := Step(q1, d3);
    var q3 := Step(q2, d2);
    var q := Step(q3, d1);
    var r2 := Step(Step(Top, p4), p3);
    var r3 := Step(r2, p2);
    var r := Step(r3, p1);
    assert !Under(Top, Step(Top, p4)) && !Under(Top, r2) && !Under(Top, r3) && !Under(Top, r);
    assert (Under(q1, Step(Top, p4)) <==> d4 == p4) && !Under(q1, r2) && !Under(q1, r3) && !Under(q1, r);
    assert (Under(q2, Step(Top, p4)) <==> d4 == p4) && (Under(q2, r2) <==> q2 == r2) && !Under(q2, r3) && !Under(q2, r);
    assert (Under(q3, Step(Top, p4)) <==> d4 == p4) && (Under(q3, r2) <==> q2 == r2) && (Under(q3, r3) <==> q3 == r3) && !Under(q3, r);
  }

  // ---- one step of a merge ---------------------------------------------------------------------

  // The pages below position p are exactly those numbered from..to, all outside the reserved entries.
  ghost predicate Block(p: Path, from: nat, to: nat) {
    forall q | IsPage(q) :: (Under(q, p) <==> from <= Index(q) < to) && (Under(q, p) ==> !Reserved(TopDigit(q)))
  }

  lemma {:induction false} BelowEmpty(w: World, s: nat, q: Path, p: Path)
    requires Under(q, p) && Look(w, s, p) == EMPTY
    ensures Look(w, s, q) == EMPTY
  {
    if q != p {
      BelowEmpty(w, s, q.up, p);
    }
  }

  lemma LinkMerges(v: World, w: World, a: nat, s: nat, n: Node, i: nat, e: Entry, from: nat, to: nat)
    requires MergeAt(v, w, a, s, from) && from <= to
    requires CanLink(w, n, i, e) && Reaches(w, s, n, w.own[n]) && Look(w, a, Step(n.path, i)) == e
    requires Block(Step(n.path, i), from, to)
    ensures MergedTo(v, WithLink(w, n, i, e), a, s, to)
  {
    var x := WithLink(w, n, i, e);
    forall q | IsPage(q)
      ensures Look(x, s, q) == if Index(q) < to then MergedPage(v, a, s, q) else Look(v, s, q)
    {
      LinkWalk(w, s, a, n, i, e, q);
      if Under(q, Step(n.path, i)) {
        assert Look(w, s, Step(n.path, i)) == Cell(w, n, i);
        BelowEmpty(w, s, q, Step(n.path, i));
      }
    }
  }

  lemma LinkTables(v: World, w: World, a: nat, s: nat, n: Node, i: nat, e: Entry, from: nat)
    requires MergeAt(v, w, a, s, from)
    requires CanLink(w, n, i, e) && Reaches(w, s, n, w.own[n]) && Look(w, a, Step(n.path, i)) == e
    ensures MergedTables(v, WithLink(w, n, i, e), a, s)
  {
    var x := WithLink(w, n, i, e);
    forall p | IsTable(p) && p.Step?
      ensures if Look(v, s, p) != EMPTY then Look(x, s, p) == Look(v, s, p) else Look(x, s, p) == EMPTY || Look(x, s, p) == Look(v, a, p)
    {
      LinkWalk(w, s, a, n, i, e, p);
      assert Look(w, a, p) == Look(v, a, p);
      if Under(p, Step(n.path, i)) {
        assert Look(w, s, Step(n.path, i)) == Cell(w, n, i);
        BelowEmpty(w, s, p, Step(n.path, i));
      }
    }
  }

  lemma LinkOthers(v: World, w: World, a: nat, s: nat, n: Node, i: nat, e: Entry, from: nat)
    requires MergeAt(v, w, a, s, from) && CanLink(w, n, i, e) && n.space == s
    ensures Others(v, WithLink(w, n, i, e), s)
  {
    var x := WithLink(w, n, i, e);
    forall r, p | Walkable(v, r) && r != s && Digits(p) && Depth(p) <= 4
      ensures Look(x, r, p) == Look(v, r, p)
    {
      LinkElsewhere(w, n, i, e, r, p);
    }
  }

  lemma MergeLink(v: World, w: World, a: nat, s: nat, n: Node, i: nat, e: Entry, from: nat, to: nat)
    requires MergeAt(v, w, a, s, from) && from <= to && IsTableAt(w, n) && i < ENTRIES
    requires Reaches(w, s, n, w.own[n]) && CanLink(w, n, i, e) && Look(w, a, Step(n.path, i)) == e
    requires Block(Step(n.path, i), from, to) && n.space == s
    ensures MergeAt(v, WithLink(w, n, i, e), a, s, to)
  {
    hide Inv, Reaches, CanLink, Block, MergedTo, MergedTables, Others, MayMerge;
    LinkMerges(v, w, a, s, n, i, e, from, to);
    LinkTables(v, w, a, s, n, i, e, from);
    LinkOthers(v, w, a, s, n, i, e, from);
    LinkKeepsInv(w, n, i, e);
  }

  // The source has nothing there.
  lemma MergeNothing(v: World, w: World, a: nat, s: nat, p: Path, from: nat, to: nat)
    requires MergeAt(v, w, a, s, from) && from <= to && IsTableOrPage(p)
    requires Look(w, a, p) == EMPTY && Block(p, from, to)
    ensures MergeAt(v, w, a, s, to)
  {
    hide Inv, MergedTables;
    forall q | IsPage(q)
      ensures Look(w, s, q) == if Index(q) < to then MergedPage(v, a, s, q) else Look(v, s, q)
    {
      if Under(q, p) {
        BelowEmpty(v, a, q, p);
      }
    }
  }

  predicate IsTableOrPage(p: Path) {
    Digits(p) && Depth(p) <= 4
  }

  // The reserved entries are skipped.
  lemma MergeReserved(v: World, w: World, a: nat, s: nat, p4: nat)
    requires p4 < ENTRIES && Reserved(p4)
    requires MergeAt(v, w, a, s, Number(p4, 0, 0, 0))
    ensures MergeAt(v, w, a, s, Number(p4 + 1, 0, 0, 0))
  {
    hide Inv, MergedTables;
    forall q | IsPage(q)
      ensures Look(w, s, q) == if Index(q) < Number(p4 + 1, 0, 0, 0) then MergedPage(v, a, s, q) else Look(v, s, q)
    {
      Blocks(q, p4, 0, 0, 0);
    }
  }

  // The target has the page already.
  lemma MergeHas(v: World, w: World, a: nat, s: nat, q: Path)
    requires IsPage(q) && MergeAt(v, w, a, s, Index(q)) && Look(w, s, q) != EMPTY
    ensures MergeAt(v, w, a, s, Index(q) + 1)
  {
    hide Inv, Others, MayMerge, MergedTables;
    forall p | IsPage(p)
      ensures Look(w, s, p) == if Index(p) < Index(q) + 1 then MergedPage(v, a, s, p) else Look(v, s, p)
    {
      if Index(p) == Index(q) {
        IndexInjective(p, q);
      }
    }
  }

  lemma BlockIs(p4: nat, p3: nat, p2: nat, p1: nat)
    requires p4 < ENTRIES && p3 < ENTRIES && p2 < ENTRIES && p1 < ENTRIES && !Reserved(p4)
    ensures Block(Step(Top, p4), Number(p4, 0, 0, 0), Number(p4 + 1, 0, 0, 0))
    ensures Block(Step(Step(Top, p4), p3), Number(p4, p3, 0, 0), Number(p4, p3 + 1, 0, 0))
    ensures Block(Step(Step(Step(Top, p4), p3), p2), Number(p4, p3, p2, 0), Number(p4, p3, p2 + 1, 0))
    ensures Block(PagePath(p4, p3, p2, p1), Number(p4, p3, p2, p1), Number(p4, p3, p2, p1 + 1))
  {
    forall q | IsPage(q)
      ensures Under(q, Step(Top, p4)) <==> Number(p4, 0, 0, 0) <= Index(q) < Number(p4 + 1, 0, 0, 0)
      ensures Under(q, Step(Step(Top, p4), p3)) <==> Number(p4, p3, 0, 0) <= Index(q) < Number(p4, p3 + 1, 0, 0)
      ensures Under(q, Step(Step(Step(Top, p4), p3), p2)) <==> Number(p4, p3, p2, 0) <= Index(q) < Number(p4, p3, p2 + 1, 0)
      ensures Under(q, PagePath(p4, p3, p2, p1)) <==> Index(q) == Number(p4, p3, p2, p1)
      ensures Under(q, Step(Top, p4)) ==> TopDigit(q) == p4
      ensures Under(q, Step(Step(Top, p4), p3)) ==> TopDigit(q) == p4
      ensures Under(q, Step(Step(Step(Top, p4), p3), p2)) ==> TopDigit(q) == p4
      ensures Under(q, PagePath(p4, p3, p2, p1)) ==> TopDigit(q) == p4
    {
      Blocks(q, p4, p3, p2, p1);
      hide Under, TopDigit;
      assert Number(p4, p3, p2, p1) < Number(p4, p3, p2 + 1, 0) <= Number(p4, p3 + 1, 0, 0) <= Number(p4 + 1, 0, 0, 0);
    }
  }

  // A merge stands at table m of the source and table n of the target, at one position.
  ghost predicate Pair(w: World, a: nat, s: nat, m: Node, n: Node, source: nat, target: nat) {
    && m.Node? && n.Node? && m.path == n.path
    && Reaches(w, a, m, source) && Reaches(w, s, n, target)
    && (if a == KERNEL then m.space == KERNEL && (n.space == s || n.space == KERNEL)
        else m.space == a && n.space == s && n.path == Top)
  }

  ghost predicate PairsStay(v: World, w: World, a: nat, s: nat, depth: nat) {
    forall m, n, x, y | Pair(v, a, s, m, n, x, y) && Depth(n.path) <= depth :: Pair(w, a, s, m, n, x, y)
  }

  // A space other than the kernel's can be merged only at the top, into a space with nothing of its own there.
  ghost predicate Fits(w: World, a: nat, s: nat, n: Node, i: nat) {
    a != KERNEL ==>
      && s in w.kind && a in w.kind && Group(w, s) == Group(w, a)
      && IsTableAt(w, n) && i < ENTRIES && Cell(w, n, i) == EMPTY && !Reserved(i)
  }

  lemma EntryLinks(w: World, a: nat, s: nat, m: Node, n: Node, source: nat, target: nat, i: nat)
    requires Inv(w) && Walkable(w, a) && Walkable(w, s) && a != s
    requires Pair(w, a, s, m, n, source, target) && i < ENTRIES && Fits(w, a, s, n, i)
    requires Cell(w, n, i) == EMPTY
    ensures Cell(w, m, i) != EMPTY ==> n.space == s
    ensures n.space == s ==> CanLink(w, n, i, Cell(w, m, i))
    ensures Look(w, a, Step(n.path, i)) == Cell(w, m, i)
  {
    assert Typed(w, m, i);
    if n.space == KERNEL {
      assert m == n;
    }
  }

  lemma LinkPairs(w: World, a: nat, s: nat, n: Node, i: nat, e: Entry)
    requires Inv(w) && Walkable(w, a) && Walkable(w, s) && a != s && s != KERNEL && NobodyLinked(w, s)
    requires CanLink(w, n, i, e) && n.space == s && Reaches(w, s, n, w.own[n]) && Look(w, a, Step(n.path, i)) == e
    requires Digits(n.path)
    ensures PairsStay(w, WithLink(w, n, i, e), a, s, Depth(n.path))
  {
    var x := WithLink(w, n, i, e);
    forall m', n', y, z | Pair(w, a, s, m', n', y, z) && Depth(n'.path) <= Depth(n.path)
      ensures Pair(x, a, s, m', n', y, z)
    {
      LinkWalk(w, s, a, n, i, e, n'.path);
      if Under(n'.path, Step(n.path, i)) {
        UnderIsDeeper(n'.path, Step(n.path, i));
      }
      LinkElsewhere(w, n, i, e, a, m'.path);
    }
  }

  lemma PairDown(w: World, a: nat, s: nat, m: Node, n: Node, source: nat, target: nat, i: nat)
    returns (cm: Node, cn: Node)
    requires Inv(w) && Walkable(w, s) && Walkable(w, a) && a == KERNEL && s != KERNEL && w.kind[s] == Solo
    requires Pair(w, a, s, m, n, source, target) && Depth(n.path) < 3 && i < ENTRIES
    requires Cell(w, m, i) != EMPTY && Cell(w, n, i) != EMPTY
    ensures Pair(w, a, s, cm, cn, Cell(w, m, i).frame, Cell(w, n, i).frame) && cn.Node? && cn.path == Step(n.path, i)
  {
    assert Typed(w, m, i);
    assert Typed(w, n, i);
    cm := Node(KERNEL, Step(n.path, i));
    cn := Node(if Process(Cell(w, n, i).flags) then s else KERNEL, Step(n.path, i));
    assert Look(w, a, cm.path) == Cell(w, m, i);
    assert Look(w, s, cn.path) == Cell(w, n, i);
  }

  lemma MergeParts(v: World, w: World, a: nat, s: nat, cursor: nat)
    requires MergeAt(v, w, a, s, cursor)
    ensures Inv(w) && Walkable(w, a) && Walkable(w, s) && a != s && s != KERNEL && NobodyLinked(w, s)
    ensures w.own == v.own && w.kind == v.kind && w.free == v.free
  {
    hide Inv, MergedTo, MergedTables, Others;
  }

  lemma PairParts(w: World, a: nat, s: nat, m: Node, n: Node, source: nat, target: nat)
    requires Pair(w, a, s, m, n, source, target)
    ensures m.Node? && n.Node? && m.path == n.path && IsTableAt(w, m) && IsTableAt(w, n)
    ensures w.own[m] == source && w.own[n] == target && Reaches(w, s, n, target) && Digits(n.path)
  {
  }

  // One entry of a merge above the last level.
  method MergeEntry(k: Kernel, ghost v: World, ghost a: nat, ghost s: nat,
                    ghost m: Node, source: nat, ghost n: Node, target: nat, i: nat, ghost from: nat, ghost to: nat)
    returns (down: bool, nextA: nat, nextS: nat, ghost cm: Node, ghost cn: Node)
    requires k.Frames() && MergeAt(v, k.W(), a, s, from) && from <= to
    requires Pair(k.W(), a, s, m, n, source, target) && n.Node? && Depth(n.path) < 3 && i < ENTRIES
    requires Block(Step(n.path, i), from, to) && Fits(k.W(), a, s, n, i) && (a == KERNEL ==> v.kind[s] == Solo)
    modifies k`memory
    ensures k.Frames()
    ensures !down ==> MergeAt(v, k.W(), a, s, to) && EntryMerged(old(k.W()), k.W(), m, n, i)
    ensures down ==> k.W() == old(k.W()) && a == KERNEL
    ensures down ==> cn.Node? && cn.path == Step(n.path, i) && Pair(k.W(), a, s, cm, cn, nextA, nextS)
    ensures PairsStay(old(k.W()), k.W(), a, s, Depth(n.path))
    ensures CellsStay(old(k.W()), k.W(), n, i)
  {
    hide Inv, MergeAt, Pair, Block, PairsStay, NobodyLinked, Reaches, CanLink, Fits, WithLink;
    ghost var w := k.W();
    MergeParts(v, w, a, s, from);
    PairParts(w, a, s, m, n, source, target);
    PairsSame(w, a, s, Depth(n.path));
    down, nextA, nextS, cm, cn := false, 0, 0, m, n;
    var e := k.memory[source][i];
    if e == EMPTY {
      PairLook(w, a, s, m, n, source, target, i);
      MergeNothing(v, w, a, s, Step(n.path, i), from, to);
    } else if k.memory[target][i] == EMPTY {
      EntryLinks(w, a, s, m, n, source, target, i);
      k.memory := Put(k.memory, target, i, e);
      WithLinkIs(w, n, i, e);
      MergeLink(v, w, a, s, n, i, e, from, to);
      LinkPairs(w, a, s, n, i, e);
      MergeParts(v, k.W(), a, s, to);
      InvBlank(k.W());
    } else {
      FitsKernel(w, a, s, n, i);
      cm, cn := PairDown(w, a, s, m, n, source, target, i);
      down, nextA, nextS := true, e.frame, k.memory[target][i].frame;
    }
  }

  // Entry i of the target is the source's, if it had none of its own.
  predicate EntryMerged(u: World, w: World, m: Node, n: Node, i: nat) {
    && IsTableAt(u, m) && IsTableAt(u, n) && i < ENTRIES
    && CellIs(w, n, i, if Cell(u, n, i) == EMPTY then Cell(u, m, i) else Cell(u, n, i))
  }

  // The other entries of the table are what they were.
  ghost predicate CellsStay(u: World, w: World, n: Node, i: nat) {
    forall j: nat, e: Entry | j != i && j < ENTRIES && CellIs(u, n, j, e) :: CellIs(w, n, j, e)
  }

  predicate CellIs(w: World, n: Node, j: nat, e: Entry) {
    IsTableAt(w, n) && j < ENTRIES && Cell(w, n, j) == e
  }

  lemma WithLinkIs(w: World, n: Node, i: nat, e: Entry)
    requires IsTableAt(w, n) && i < ENTRIES
    ensures WithLink(w, n, i, e) == World(Put(w.memory, w.own[n], i, e), w.own, w.free, w.kind)
  {
  }

  lemma FitsKernel(w: World, a: nat, s: nat, n: Node, i: nat)
    requires Fits(w, a, s, n, i) && IsTableAt(w, n) && i < ENTRIES && Cell(w, n, i) != EMPTY
    ensures a == KERNEL
  {
  }

  lemma PairsSame(w: World, a: nat, s: nat, depth: nat)
    ensures PairsStay(w, w, a, s, depth)
  {
  }

  lemma PairLook(w: World, a: nat, s: nat, m: Node, n: Node, source: nat, target: nat, i: nat)
    requires Inv(w) && Pair(w, a, s, m, n, source, target) && i < ENTRIES
    ensures Look(w, a, Step(n.path, i)) == Cell(w, m, i) && Look(w, s, Step(n.path, i)) == Cell(w, n, i)
    ensures IsTableOrPage(Step(n.path, i))
  {
  }

  lemma PutSame(memory: seq<Page>, f: nat, i: nat)
    requires f < |memory| && i < ENTRIES
    ensures Put(memory, f, i, memory[f][i]) == memory
  {
    assert memory[f][i := memory[f][i]] == memory[f];
  }

  // One page of a merge.
  method MergeLeaf(k: Kernel, ghost v: World, ghost a: nat, ghost s: nat,
                   ghost m: Node, source: nat, ghost n: Node, target: nat, i: nat, ghost from: nat)
    requires k.Frames() && MergeAt(v, k.W(), a, s, from) && a == KERNEL
    requires Pair(k.W(), a, s, m, n, source, target) && n.Node? && Depth(n.path) == 3 && i < ENTRIES
    requires Block(Step(n.path, i), from, from + 1) && InRange(Step(n.path, i), from, from + 1)
    modifies k`memory
    ensures k.Frames() && MergeAt(v, k.W(), a, s, from + 1)
    ensures PairsStay(old(k.W()), k.W(), a, s, 3)
  {
    hide Inv, MergeAt, Pair, Block, PairsStay, NobodyLinked, Reaches, CanLink, WithLink;
    ghost var w := k.W();
    MergeParts(v, w, a, s, from);
    PairParts(w, a, s, m, n, source, target);
    PairsSame(w, a, s, 3);
    PairLook(w, a, s, m, n, source, target, i);
    var e := k.memory[source][i];
    if k.memory[target][i] == EMPTY {
      EntryLinks(w, a, s, m, n, source, target, i);
      k.memory := Put(k.memory, target, i, e);
      if n.space == s {
        WithLinkIs(w, n, i, e);
        MergeLink(v, w, a, s, n, i, e, from, from + 1);
        LinkPairs(w, a, s, n, i, e);
        MergeParts(v, k.W(), a, s, from + 1);
        InvBlank(k.W());
      } else {
        PutSame(w.memory, target, i);
        MergeNothing(v, w, a, s, Step(n.path, i), from, from + 1);
      }
    } else {
      MergeHas(v, w, a, s, Step(n.path, i));
    }
  }

  // Every entry outside the reserved ones still empty from p4 on.
  ghost predicate Vacant(w: World, n: Node, p4: nat) {
    forall j: nat | p4 <= j < ENTRIES && !Reserved(j) :: CellIs(w, n, j, EMPTY)
  }

  // What may be merged into what: the kernel into any process, or a space into a thread of its group
  // that has nothing yet but its stacks.
  ghost predicate Mergeable(w: World, a: nat, s: nat) {
    && MayMerge(w, a, s)
    && (if a == KERNEL then w.kind[s] == Solo else Group(w, s) == Group(w, a) && Vacant(w, Node(s, Top), 0))
  }

  // A thread's unreserved entries below p4 are those of the space merged into it.
  ghost predicate TopsShared(v: World, w: World, a: nat, s: nat, p4: nat) {
    a != KERNEL ==>
      forall j: nat | j < p4 && j < ENTRIES && !Reserved(j) :: CellIs(w, Node(s, Top), j, Look(v, a, Step(Top, j)))
  }

  lemma TopsNext(v: World, u: World, w: World, a: nat, s: nat, p4: nat, from: nat)
    requires TopsShared(v, u, a, s, p4) && p4 < ENTRIES && !Reserved(p4) && TopFits(u, a, s, p4)
    requires MergeAt(v, u, a, s, from) && Pair(u, a, s, Node(a, Top), Node(s, Top), u.own[Node(a, Top)], u.own[Node(s, Top)])
    requires EntryMerged(u, w, Node(a, Top), Node(s, Top), p4)
    requires CellsStay(u, w, Node(s, Top), p4)
    ensures TopsShared(v, w, a, s, p4 + 1)
  {
    if a != KERNEL {
      assert CellIs(u, Node(s, Top), p4, EMPTY);
      hide Inv, MergedTo;
      var top := Step(Top, p4);
      assert Depth(top) == 1 && Digits(top);
      assert Look(u, a, top) == Look(v, a, top);
      assert Look(u, a, top) == Cell(u, Node(a, Top), p4);
    }
  }

  // Pages of s outside the reserved entries that were missing are those of a; all else is as it was.
  ghost predicate Merged(v: World, w: World, a: nat, s: nat) {
    && w.own == v.own && w.free == v.free && w.kind == v.kind
    && TopsShared(v, w, a, s, ENTRIES)
    && (forall q | IsPage(q) :: Look(w, s, q) == MergedPage(v, a, s, q))
    && MergedTables(v, w, a, s)
    && Others(v, w, s)
  }

  lemma MergeStarts(v: World, a: nat, s: nat)
    requires Mergeable(v, a, s)
    ensures MergeAt(v, v, a, s, 0)
    ensures Pair(v, a, s, Node(a, Top), Node(s, Top), v.own[Node(a, Top)], v.own[Node(s, Top)])
    ensures TopFits(v, a, s, 0) && TopsShared(v, v, a, s, 0)
  {
  }

  lemma MergeEnds(v: World, w: World, a: nat, s: nat)
    requires MergeAt(v, w, a, s, PAGES) && TopsShared(v, w, a, s, ENTRIES)
    ensures Inv(w) && Merged(v, w, a, s)
  {
    hide Inv, Others, MayMerge, MergedTables;
    forall q | IsPage(q)
      ensures Look(w, s, q) == MergedPage(v, a, s, q)
    {
      var d4, d3, d2, d1 := DigitsOfPage(q);
      PagePathIs(d4, d3, d2, d1);
    }
  }

  lemma PairStays(v: World, w: World, a: nat, s: nat, depth: nat, m: Node, n: Node, x: nat, y: nat)
    requires PairsStay(v, w, a, s, depth) && Pair(v, a, s, m, n, x, y) && n.Node? && Depth(n.path) <= depth
    ensures Pair(w, a, s, m, n, x, y)
  {
  }

  ghost predicate TopFits(w: World, a: nat, s: nat, p4: nat) {
    a != KERNEL ==>
      && s in w.kind && a in w.kind && Group(w, s) == Group(w, a) && Vacant(w, Node(s, Top), p4)
  }

  lemma FitsHere(w: World, a: nat, s: nat, p4: nat)
    requires TopFits(w, a, s, p4) && p4 < ENTRIES && !Reserved(p4)
    ensures Fits(w, a, s, Node(s, Top), p4)
  {
    assert a != KERNEL ==> CellIs(w, Node(s, Top), p4, EMPTY);
  }

  lemma TopFitsNext(u: World, w: World, a: nat, s: nat, p4: nat)
    requires TopFits(u, a, s, p4) && w.kind == u.kind
    requires CellsStay(u, w, Node(s, Top), p4)
    ensures TopFits(w, a, s, p4 + 1)
  {
    if a != KERNEL {
      forall j: nat | p4 + 1 <= j < ENTRIES && !Reserved(j)
        ensures CellIs(w, Node(s, Top), j, EMPTY)
      {
        assert CellIs(u, Node(s, Top), j, EMPTY);
      }
    }
  }

  lemma TopMerged(v: World, u: World, w: World, a: nat, s: nat, p4: nat, from: nat, to: nat)
    requires MergeAt(v, u, a, s, from) && MergeAt(v, w, a, s, to) && p4 < ENTRIES && !Reserved(p4)
    requires TopsShared(v, u, a, s, p4) && TopFits(u, a, s, p4)
    requires Node(a, Top) in u.own && Node(s, Top) in u.own
    requires Pair(u, a, s, Node(a, Top), Node(s, Top), u.own[Node(a, Top)], u.own[Node(s, Top)])
    requires EntryMerged(u, w, Node(a, Top), Node(s, Top), p4) && CellsStay(u, w, Node(s, Top), p4)
    ensures TopFits(w, a, s, p4 + 1) && TopsShared(v, w, a, s, p4 + 1)
  {
    hide MergeAt, Pair, TopsShared, TopFits, EntryMerged, CellsStay;
    KindsSame(v, u, w, a, s, from, to);
    TopFitsNext(u, w, a, s, p4);
    TopsNext(v, u, w, a, s, p4, from);
  }

  lemma PairsStayOn(u: World, v: World, w: World, a: nat, s: nat, depth: nat)
    requires PairsStay(u, v, a, s, depth) && PairsStay(v, w, a, s, depth)
    ensures PairsStay(u, w, a, s, depth)
  {
    hide Reaches, Depth;
    forall m, n, x, y | Pair(u, a, s, m, n, x, y) && Depth(n.path) <= depth ensures Pair(w, a, s, m, n, x, y) {
      assert Pair(v, a, s, m, n, x, y);
    }
  }

  lemma PairsStayLess(v: World, w: World, a: nat, s: nat, depth: nat, less: nat)
    requires PairsStay(v, w, a, s, depth) && less <= depth
    ensures PairsStay(v, w, a, s, less)
  {
    hide Pair, Depth;
  }

  // Only the kernel's tables are merged below the top level.
  ghost predicate KernelOnto(v: World, a: nat, s: nat) {
    a == KERNEL && s in v.kind && v.kind[s] == Solo
  }

  // The pages below one last-level table.
  method MergeLeaves(k: Kernel, ghost v: World, ghost a: nat, ghost s: nat, ghost m1: Node, pml1A: nat, ghost n1: Node, pml1S: nat,
                     ghost p4: nat, ghost p3: nat, ghost p2: nat)
    requires p4 < ENTRIES && p3 < ENTRIES && p2 < ENTRIES && !Reserved(p4) && KernelOnto(v, a, s)
    requires k.Frames() && MergeAt(v, k.W(), a, s, Number(p4, p3, p2, 0))
    requires n1.Node? && n1.path == Step(Step(Step(Top, p4), p3), p2) && Pair(k.W(), a, s, m1, n1, pml1A, pml1S)
    modifies k`memory
    ensures k.Frames() && MergeAt(v, k.W(), a, s, Number(p4, p3, p2 + 1, 0)) && PairsStay(old(k.W()), k.W(), a, s, 2)
  {
    hide Inv, MergeAt, Pair, PairsStay, Kernel.W, Kernel.Frames, Depth, Number, Block, IsPage, InRange, Reserved;
    ghost var w := k.W();
    Depths(p4, p3, p2);
    PairsSame(w, a, s, 3);
    for p1 := 0 to ENTRIES
      invariant k.Frames() && MergeAt(v, k.W(), a, s, Number(p4, p3, p2, p1))
      invariant Pair(k.W(), a, s, m1, n1, pml1A, pml1S) && PairsStay(w, k.W(), a, s, 3)
    {
      BlockIs(p4, p3, p2, p1);
      PagePathIs(p4, p3, p2, p1);
      Carry(p4, p3, p2, p1);
      ghost var w1 := k.W();
      MergeLeaf(k, v, a, s, m1, pml1A, n1, pml1S, p1, Number(p4, p3, p2, p1));
      PairStays(w1, k.W(), a, s, 3, m1, n1, pml1A, pml1S);
      PairsStayOn(w, w1, k.W(), a, s, 3);
    }
    Carry(p4, p3, p2, ENTRIES);
    PairsStayLess(w, k.W(), a, s, 3, 2);
  }

  // The tables and pages below one table of the level above.
  method MergeTables(k: Kernel, ghost v: World, ghost a: nat, ghost s: nat, ghost m2: Node, pml2A: nat, ghost n2: Node, pml2S: nat,
                     ghost p4: nat, ghost p3: nat)
    requires p4 < ENTRIES && p3 < ENTRIES && !Reserved(p4) && KernelOnto(v, a, s)
    requires k.Frames() && MergeAt(v, k.W(), a, s, Number(p4, p3, 0, 0))
    requires n2.Node? && n2.path == Step(Step(Top, p4), p3) && Pair(k.W(), a, s, m2, n2, pml2A, pml2S)
    modifies k`memory
    ensures k.Frames() && MergeAt(v, k.W(), a, s, Number(p4, p3 + 1, 0, 0)) && PairsStay(old(k.W()), k.W(), a, s, 1)
  {
    hide Inv, MergeAt, Pair, PairsStay, Kernel.W, Kernel.Frames, Depth, Number, Block, Reserved, Fits, EntryMerged, CellsStay;
    ghost var w := k.W();
    Depths(p4, p3, 0);
    PairsSame(w, a, s, 2);
    for p2 := 0 to ENTRIES
      invariant k.Frames() && MergeAt(v, k.W(), a, s, Number(p4, p3, p2, 0))
      invariant Pair(k.W(), a, s, m2, n2, pml2A, pml2S) && PairsStay(w, k.W(), a, s, 2)
    {
      BlockIs(p4, p3, p2, 0);
      NumbersGrow(p4, p3, p2);
      ghost var w2 := k.W();
      KernelFits(w2, a, s, n2, p2);
      var down1, pml1A, pml1S, m1, n1 :=
        MergeEntry(k, v, a, s, m2, pml2A, n2, pml2S, p2, Number(p4, p3, p2, 0), Number(p4, p3, p2 + 1, 0));
      ghost var u2 := k.W();
      if down1 {
        MergeLeaves(k, v, a, s, m1, pml1A, n1, pml1S, p4, p3, p2);
        PairsStayOn(w2, u2, k.W(), a, s, 2);
      }
      PairStays(w2, k.W(), a, s, 2, m2, n2, pml2A, pml2S);
      PairsStayOn(w, w2, k.W(), a, s, 2);
    }
    Carry(p4, p3, ENTRIES, 0);
    PairsStayLess(w, k.W(), a, s, 2, 1);
  }

  lemma NumbersGrow(p4: nat, p3: nat, p2: nat)
    ensures Number(p4, p3, p2, 0) <= Number(p4, p3, p2 + 1, 0)
    ensures Number(p4, p3, 0, 0) <= Number(p4, p3 + 1, 0, 0)
    ensures Number(p4, 0, 0, 0) <= Number(p4 + 1, 0, 0, 0)
  {
  }

  // The tables and pages below one top-level entry.
  method MergeSpan(k: Kernel, ghost v: World, ghost a: nat, ghost s: nat, ghost m3: Node, pml3A: nat, ghost n3: Node, pml3S: nat, ghost p4: nat)
    requires p4 < ENTRIES && !Reserved(p4) && KernelOnto(v, a, s)
    requires k.Frames() && MergeAt(v, k.W(), a, s, Number(p4, 0, 0, 0))
    requires n3.Node? && n3.path == Step(Top, p4) && Pair(k.W(), a, s, m3, n3, pml3A, pml3S)
    modifies k`memory
    ensures k.Frames() && MergeAt(v, k.W(), a, s, Number(p4 + 1, 0, 0, 0)) && PairsStay(old(k.W()), k.W(), a, s, 0)
  {
    hide Inv, MergeAt, Pair, PairsStay, Kernel.W, Kernel.Frames, Depth, Number, Block, Reserved, Fits, EntryMerged, CellsStay;
    ghost var w := k.W();
    Depths(p4, 0, 0);
    PairsSame(w, a, s, 1);
    for p3 := 0 to ENTRIES
      invariant k.Frames() && MergeAt(v, k.W(), a, s, Number(p4, p3, 0, 0))
      invariant Pair(k.W(), a, s, m3, n3, pml3A, pml3S) && PairsStay(w, k.W(), a, s, 1)
    {
      BlockIs(p4, p3, 0, 0);
      NumbersGrow(p4, p3, 0);
      ghost var w3 := k.W();
      KernelFits(w3, a, s, n3, p3);
      var down2, pml2A, pml2S, m2, n2 :=
        MergeEntry(k, v, a, s, m3, pml3A, n3, pml3S, p3, Number(p4, p3, 0, 0), Number(p4, p3 + 1, 0, 0));
      ghost var u3 := k.W();
      if down2 {
        MergeTables(k, v, a, s, m2, pml2A, n2, pml2S, p4, p3);
        PairsStayOn(w3, u3, k.W(), a, s, 1);
      }
      PairStays(w3, k.W(), a, s, 1, m3, n3, pml3A, pml3S);
      PairsStayOn(w, w3, k.W(), a, s, 1);
    }
    Carry(p4, ENTRIES, 0, 0);
    PairsStayLess(w, k.W(), a, s, 1, 0);
  }

  // One top-level entry of a merge.
  method MergeTop(k: Kernel, ghost v: World, ghost a: nat, ghost s: nat, source: nat, target: nat, p4: nat)
    requires p4 < ENTRIES && !Reserved(p4) && s in v.kind && (a == KERNEL ==> v.kind[s] == Solo)
    requires k.Frames() && MergeAt(v, k.W(), a, s, Number(p4, 0, 0, 0))
    requires Pair(k.W(), a, s, Node(a, Top), Node(s, Top), source, target)
    requires TopFits(k.W(), a, s, p4) && TopsShared(v, k.W(), a, s, p4)
    modifies k`memory
    ensures k.Frames() && MergeAt(v, k.W(), a, s, Number(p4 + 1, 0, 0, 0))
    ensures Pair(k.W(), a, s, Node(a, Top), Node(s, Top), source, target)
    ensures TopFits(k.W(), a, s, p4 + 1) && TopsShared(v, k.W(), a, s, p4 + 1)
  {
    hide Inv, MergeAt, Pair, PairsStay, TopFits, TopsShared, EntryMerged, CellsStay, Fits, Kernel.W, Kernel.Frames, Depth, Number, Block, Reserved;
    BlockIs(p4, 0, 0, 0);
    Depths(p4, 0, 0);
    NumbersGrow(p4, 0, 0);
    ghost var w4, m4, n4 := k.W(), Node(a, Top), Node(s, Top);
    FitsHere(w4, a, s, p4);
    var down3, pml3A, pml3S, m3, n3 :=
      MergeEntry(k, v, a, s, m4, source, n4, target, p4, Number(p4, 0, 0, 0), Number(p4 + 1, 0, 0, 0));
    ghost var u4 := k.W();
    if down3 {
      MergeSpan(k, v, a, s, m3, pml3A, n3, pml3S, p4);
      PairsStayOn(w4, u4, k.W(), a, s, 0);
      KernelTopFits(k.W(), a, s, p4 + 1);
    } else {
      PairTops(w4, a, s, source, target);
      TopMerged(v, w4, k.W(), a, s, p4, Number(p4, 0, 0, 0), Number(p4 + 1, 0, 0, 0));
    }
    PairStays(w4, k.W(), a, s, 0, m4, n4, source, target);
  }

  lemma PairTops(w: World, a: nat, s: nat, source: nat, target: nat)
    requires Pair(w, a, s, Node(a, Top), Node(s, Top), source, target)
    ensures Names(w, Node(a, Top), source) && Names(w, Node(s, Top), target)
  {
  }

  // Shares the tables and pages of one space with another wherever the other has none.
  method Merge(k: Kernel, ghost a: nat, ghost s: nat, source: nat, target: nat)
    requires k.Frames() && Mergeable(k.W(), a, s)
    requires k.W().own[Node(a, Top)] == source && k.W().own[Node(s, Top)] == target
    modifies k`memory
    ensures k.Valid() && Merged(old(k.W()), k.W(), a, s)
  {
    hide Inv, MergeAt, Merged, Pair, TopFits, TopsShared, Mergeable, Number, Reserved, Vacant, Look;
    ghost var v := k.W();
    MergeStarts(v, a, s);
    KindSolo(v, a, s);
    NumberEnd();
    for p4 := 0 to ENTRIES
      invariant k.Frames() && MergeAt(v, k.W(), a, s, Number(p4, 0, 0, 0))
      invariant Pair(k.W(), a, s, Node(a, Top), Node(s, Top), source, target)
      invariant TopFits(k.W(), a, s, p4) && TopsShared(v, k.W(), a, s, p4)
    {
      Stacks(p4);
      if p4 == ENTRY_STACK || p4 == ENTRY_CONTEXT {
        ReservedSkipped(v, k.W(), a, s, p4);
        continue;
      }
      MergeTop(k, v, a, s, source, target, p4);
    }
    MergeEnds(v, k.W(), a, s);
  }

  lemma Stacks(p4: nat)
    ensures Reserved(p4) <==> p4 == ENTRY_STACK || p4 == ENTRY_CONTEXT
  {
  }

  lemma NumberEnd()
    ensures Number(ENTRIES, 0, 0, 0) == PAGES && Number(0, 0, 0, 0) == 0
  {
  }

  lemma KernelTopFits(w: World, a: nat, s: nat, p4: nat)
    requires a == KERNEL
    ensures TopFits(w, a, s, p4)
    ensures forall v :: TopsShared(v, w, a, s, p4)
  {
  }

  lemma KernelFits(w: World, a: nat, s: nat, n: Node, i: nat)
    requires a == KERNEL
    ensures Fits(w, a, s, n, i)
  {
  }

  lemma KindSolo(v: World, a: nat, s: nat)
    requires Mergeable(v, a, s)
    ensures s in v.kind && (a == KERNEL ==> v.kind[s] == Solo)
  {
    hide Inv;
  }

  lemma KindsSame(v: World, u: World, w: World, a: nat, s: nat, from: nat, to: nat)
    requires MergeAt(v, u, a, s, from) && MergeAt(v, w, a, s, to)
    ensures w.kind == u.kind
  {
    hide Inv, MergedTo, MergedTables, Others, MayMerge;
  }

  lemma ReservedSkipped(v: World, w: World, a: nat, s: nat, p4: nat)
    requires p4 < ENTRIES && Reserved(p4) && MergeAt(v, w, a, s, Number(p4, 0, 0, 0))
    requires TopFits(w, a, s, p4) && TopsShared(v, w, a, s, p4)
    ensures MergeAt(v, w, a, s, Number(p4 + 1, 0, 0, 0)) && TopFits(w, a, s, p4 + 1) && TopsShared(v, w, a, s, p4 + 1)
  {
    hide MergeAt;
    MergeReserved(v, w, a, s, p4);
  }
}
