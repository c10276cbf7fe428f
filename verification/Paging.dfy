// Walking, building and clearing four-level paging tables in physical memory.
module Paging {
  import opened Bitmap
  import opened Layout
  import opened Spaces
  import opened Memory
  import opened Reshaping
  import opened Pages

  const PAGE_BYTES := 0x1000
  const PML1_BYTES := 0x20_0000
  const PML2_BYTES := 0x4000_0000
  const PML3_BYTES := 0x80_0000_0000
  const CANONICAL_BYTES := 0x1_0000_0000_0000

  // Number of the page an address lies in, its sign-extended part left off.
  function PageOf(address: nat): nat {
    address % CANONICAL_BYTES / PAGE_BYTES
  }

  // The entries, level by level, under which an address is found.
  method Locate4(address: nat) returns (p4: nat, p3: nat, p2: nat, p1: nat)
    ensures p4 < ENTRIES && p3 < ENTRIES && p2 < ENTRIES && p1 < ENTRIES
    ensures Number(p4, p3, p2, p1) == PageOf(address)
  {
    var a := address % CANONICAL_BYTES;
    p4 := a / PML3_BYTES;
    p3 := a % PML3_BYTES / PML2_BYTES;
    p2 := a % PML3_BYTES % PML2_BYTES / PML1_BYTES;
    p1 := a % PML3_BYTES % PML2_BYTES % PML1_BYTES / PAGE_BYTES;
  }

  // What is needed to go from table n to the table below its entry i.
  ghost predicate Ready(w: World, n: Node, i: nat, flags: bv12)
    requires IsTableAt(w, n) && i < ENTRIES && n.space in w.kind
  {
    if Cell(w, n, i) == EMPTY then (Process(flags) <==> n.space != KERNEL) && Home(w, n, i) == n.space
    else Process(Cell(w, n, i).flags) <==> n.space != KERNEL
  }

  // Nothing happened, or a table was built below entry i of table n.
  ghost predicate Descended(v: World, w: World, n: Node, i: nat, g: nat, flags: bv12) {
    w == v || (CanHoldTable(v, n, i, g, flags) && w == WithTable(v, n, i, g, flags))
  }

  lemma ReadyBelow(w: World, s: nat, n: Node, i: nat, flags: bv12)
    requires Inv(w) && IsTableAt(w, n) && OnPath(w, s, n, w.own[n]) && Depth(n.path) < 3 && i < ENTRIES
    requires OpenTable(w, s, Step(n.path, i)) && (Process(flags) <==> s != KERNEL)
    ensures Ready(w, n, i, flags)
  {
    assert n.path.Top? ==> n == Node(s, Top);
    assert Look(w, s, Step(n.path, i)) == Cell(w, n, i);
  }

  lemma ReadyEmpty(w: World, n: Node, i: nat, g: nat, flags: bv12)
    requires IsTableAt(w, n) && n.space in w.kind && i < ENTRIES && Depth(n.path) < 3 && Ready(w, n, i, flags)
    requires Cell(w, n, i) == EMPTY && g in w.free
    ensures CanHoldTable(w, n, i, g, flags)
  {
  }

  lemma WithTableIs(w: World, n: Node, i: nat, g: nat, flags: bv12)
    requires IsTableAt(w, n) && i < ENTRIES
    ensures WithTable(w, n, i, g, flags) ==
            World(Put(w.memory, w.own[n], i, Entry(g, flags)), w.own[Node(n.space, Step(n.path, i)) := g], w.free - {g}, w.kind)
  {
  }

  lemma PageIsReal(w: World, g: nat)
    requires Inv(w) && g in w.free
    ensures g > 0
  {
  }

  // The table that is there below an entry.
  lemma ReadyBelowIs(w: World, s: nat, n: Node, table: nat, i: nat, flags: bv12) returns (c: Node)
    requires Inv(w) && OnPath(w, s, n, table) && i < ENTRIES && Depth(n.path) < 3 && Ready(w, n, i, flags)
    requires Cell(w, n, i) != EMPTY
    ensures c.Node? && c.path == Step(n.path, i) && OnPath(w, s, c, Cell(w, n, i).frame) && Cell(w, n, i).frame != 0
  {
    hide Hangs, Blank;
    assert Typed(w, n, i);
    c := Node(if Process(Cell(w, n, i).flags) then Home(w, n, i) else KERNEL, Step(n.path, i));
    StepReads(w, s, n, i);
  }

  // The table below entry i of a table, built of a free frame if it is missing; 0 if there is no free frame.
  method Descend(k: Kernel, ghost s: nat, ghost n: Node, table: nat, i: nat, flags: bv12)
    returns (next: nat, ghost c: Node)
    requires k.Valid() && OnPath(k.W(), s, n, table) && Depth(n.path) < 3 && i < ENTRIES
    requires Ready(k.W(), n, i, flags)
    modifies k`memory, k`available, k`own, k.bitmap
    ensures k.Valid()
    ensures next == 0 ==> k.W() == old(k.W()) && k.W().free == {} && old(Cell(k.W(), n, i)) == EMPTY
    ensures next != 0 ==> c.Node? && c.path == Step(n.path, i) && OnPath(k.W(), s, c, next)
    ensures next != 0 ==> Descended(old(k.W()), k.W(), n, i, next, flags)
  {
    hide Inv, Blank, Process, Look, CanHoldTable, WithTable, OnPath, Ready;
    ghost var w := k.W();
    OnPathTable(w, s, n, table);
    if k.memory[table][i] == EMPTY {
      var page := k.AllocPage();
      if page == 0 {
        return 0, n;
      }
      ReadyEmpty(w, n, i, page, flags);
      k.memory := Put(k.memory, table, i, Entry(page, flags));
      c := Node(n.space, Step(n.path, i));
      k.own := k.own[c := page];
      WithTableIs(w, n, i, page, flags);
      assert k.W() == WithTable(w, n, i, page, flags);
      TableKeepsInv(w, n, i, page, flags);
      TableBelow(w, s, n, i, page, flags);
      InvBlank(k.W());
      PageIsReal(w, page);
      return page, c;
    }
    next := k.memory[table][i].frame;
    c := ReadyBelowIs(w, s, n, table, i, flags);
  }

  // Where a run that builds over pages from..end stands when it has come to page `to`.
  ghost predicate BuildAt(v: World, w: World, s: nat, from: nat, to: nat, end: nat) {
    && Inv(w) && Walkable(w, s) && Walkable(v, s) && Inv(v)
    && Reshaped(v, w, s, from, to, end)
    && Open(w, s, from, end)
  }

  lemma BuildStarts(w: World, s: nat, from: nat, end: nat)
    requires Inv(w) && Walkable(w, s) && Open(w, s, from, end)
    ensures BuildAt(w, w, s, from, from, end)
    ensures OnPath(w, s, Node(s, Top), w.own[Node(s, Top)])
  {
    Unshaped(w, s, from, end);
  }

  // Walks that stood at a table still do.
  ghost predicate PathsStay(v: World, w: World, s: nat) {
    forall m, t | OnPath(v, s, m, t) :: OnPath(w, s, m, t)
  }

  // A table may have been added: no page and no unclaimed frame of the space is touched.
  ghost predicate Grew(v: World, w: World, s: nat) {
    && PathsStay(v, w, s)
    && (forall q | IsPage(q) :: Look(w, s, q) == Look(v, s, q))
    && (forall f | Limbo(v, f) :: Limbo(w, f))
    && PagesStay(v, w)
    && OwnGrows(v, w) && Pool(w) == Pool(v)
  }

  // Pages and other frames that are no tables stay owned, with what is in them.
  ghost predicate PagesStay(v: World, w: World) {
    forall m | m in v.own && (m.Node? ==> IsPage(m.path)) && v.own[m] < |v.memory| ::
      m in w.own && w.own[m] == v.own[m] && v.own[m] < |w.memory| && w.memory[v.own[m]] == v.memory[v.own[m]]
  }

  // Since v the tables that are there stayed what they were, and a new one lies over a page of the range and is
  // flagged so, whoever walks it.
  ghost predicate Tagged(v: World, w: World, from: nat, end: nat, tag: bv12) {
    forall r | Walkable(v, r) :: Walkable(w, r) && TaggedIn(v, w, r, from, end, tag)
  }

  ghost predicate TaggedIn(v: World, w: World, r: nat, from: nat, end: nat, tag: bv12) {
    forall p | IsTable(p) && p.Step? :: TaggedAt(v, w, r, p, from, end, tag)
  }

  ghost predicate TaggedAt(v: World, w: World, r: nat, p: Path, from: nat, end: nat, tag: bv12) {
    if Look(v, r, p) != EMPTY then Look(w, r, p) == Look(v, r, p)
    else Look(w, r, p) == EMPTY || (Look(w, r, p).flags == tag && Needed(p, from, end))
  }

  lemma TaggedNot(w: World, from: nat, end: nat, tag: bv12)
    ensures Tagged(w, w, from, end, tag)
  {
    hide Look;
  }

  lemma TaggedOn(u: World, v: World, w: World, from: nat, end: nat, a: nat, b: nat, tag: bv12)
    requires Tagged(u, v, from, end, tag) && Tagged(v, w, a, b, tag) && from <= a <= b <= end
    ensures Tagged(u, w, from, end, tag)
  {
    hide Look, Needed, Walkable, IsTable;
    forall r | Walkable(u, r) ensures Walkable(w, r) && TaggedIn(u, w, r, from, end, tag) {
      assert Walkable(v, r);
      forall p | IsTable(p) && p.Step? ensures TaggedAt(u, w, r, p, from, end, tag) {
        assert TaggedAt(u, v, r, p, from, end, tag) && TaggedAt(v, w, r, p, a, b, tag);
        NeededWithin(p, a, b, from, end);
      }
    }
  }

  lemma NeededWithin(p: Path, a: nat, b: nat, from: nat, end: nat)
    requires from <= a <= b <= end
    ensures Needed(p, a, b) ==> Needed(p, from, end)
  {
    if Needed(p, a, b) {
      var q :| InRange(q, a, b) && Over(p, q);
      assert InRange(q, from, end);
    }
  }

  lemma TableTagged(w: World, n: Node, i: nat, g: nat, flags: bv12, from: nat, end: nat)
    requires Inv(w) && CanHoldTable(w, n, i, g, flags) && Needed(Step(n.path, i), from, end)
    ensures Tagged(w, WithTable(w, n, i, g, flags), from, end, flags)
  {
    var x := WithTable(w, n, i, g, flags);
    hide Inv, Needed, Look;
    TableKeepsInv(w, n, i, g, flags);
    forall r | Walkable(w, r) ensures Walkable(x, r) && TaggedIn(w, x, r, from, end, flags) {
      TableWalkable(w, n, i, g, flags, r);
      forall p | IsTable(p) && p.Step? ensures TaggedAt(w, x, r, p, from, end, flags) {
        TableWalk(w, n, i, g, flags, r, p);
      }
    }
  }

  lemma TableWalkable(w: World, n: Node, i: nat, g: nat, flags: bv12, r: nat)
    requires CanHoldTable(w, n, i, g, flags) && Walkable(w, r)
    ensures Walkable(WithTable(w, n, i, g, flags), r)
  {
  }

  lemma LeafTagged(w: World, n: Node, i: nat, e: Entry, from: nat, end: nat, tag: bv12)
    requires Inv(w) && CanHoldLeaf(w, n, i, e)
    ensures Tagged(w, WithLeaf(w, n, i, e), from, end, tag)
  {
    var x := WithLeaf(w, n, i, e);
    forall r | Walkable(w, r) ensures Walkable(x, r) && TaggedIn(w, x, r, from, end, tag) {
      LeafWalkable(w, n, i, e, r);
      hide Inv, Needed, Look;
      forall p | IsTable(p) && p.Step? ensures TaggedAt(w, x, r, p, from, end, tag) {
        LeafWalk(w, n, i, e, r, p);
      }
    }
  }

  lemma LeafTaggedOn(v: World, w: World, n: Node, i: nat, e: Entry, from: nat, end: nat, tag: bv12)
    requires Inv(w) && CanHoldLeaf(w, n, i, e) && Tagged(v, w, from, end, tag) && from <= end
    ensures Tagged(v, WithLeaf(w, n, i, e), from, end, tag)
  {
    hide Inv, CanHoldLeaf, WithLeaf, Tagged;
    LeafPlace(w, n, i, e);
    LeafTagged(w, n, i, e, from, end, tag);
    TaggedOn(v, w, WithLeaf(w, n, i, e), from, end, from, end, tag);
  }

  lemma LeafWalkable(w: World, n: Node, i: nat, e: Entry, r: nat)
    requires CanHoldLeaf(w, n, i, e) && Walkable(w, r)
    ensures Walkable(WithLeaf(w, n, i, e), r)
  {
  }

  lemma PageTagged(w: World, n: Node, i: nat, g: nat, flags: bv12, from: nat, end: nat, tag: bv12)
    requires Inv(w) && CanHoldPage(w, n, i, g, flags)
    ensures Tagged(w, WithPage(w, n, i, g, flags), from, end, tag)
  {
    hide Inv, Look, Drawn, WithLeaf, CanHoldLeaf, CanHoldPage, Tagged;
    PageFrame(w, n, i, g, flags);
    PageKeepsInv(w, n, i, g, flags);
    LeafTagged(Drawn(w, n.space, g), n, i, Entry(g, flags), from, end, tag);
    DrawnTagged(w, WithPage(w, n, i, g, flags), n.space, g, from, end, tag);
  }

  lemma DrawnTagged(w: World, x: World, t: nat, g: nat, from: nat, end: nat, tag: bv12)
    requires Tagged(Drawn(w, t, g), x, from, end, tag)
    ensures Tagged(w, x, from, end, tag)
  {
    DrawnLooks(w, t, g);
    hide Look, Drawn, Needed, Walkable, IsTable;
    var u := Drawn(w, t, g);
    forall r | Walkable(w, r) ensures Walkable(x, r) && TaggedIn(w, x, r, from, end, tag) {
      assert Walkable(u, r);
      forall p | IsTable(p) && p.Step? ensures TaggedAt(w, x, r, p, from, end, tag) {
        assert TaggedAt(u, x, r, p, from, end, tag);
      }
    }
  }

  // Every entry a processor passes on its way to p, and the one it finds there, has one of these bits.
  ghost predicate Grants(w: World, s: nat, p: Path, bit: bv12) {
    match p
    case Top => true
    case Step(up, _) => Grants(w, s, up, bit) && Carries(Look(w, s, p).flags, bit)
  }

  // The tables over a page that are there have one of these bits.
  ghost predicate OverGrants(w: World, s: nat, q: Path, bit: bv12) {
    forall p | Over(p, q) && Look(w, s, p) != EMPTY :: Carries(Look(w, s, p).flags, bit)
  }

  // Pages of the range grant what their own entry and the tag of new tables grant, wherever the tables that
  // were there do.
  ghost predicate Granted(v: World, w: World, s: nat, from: nat, to: nat, tag: bv12) {
    forall q, bit | InRange(q, from, to) && OverGrants(v, s, q, bit) && Carries(tag, bit) && Carries(Look(w, s, q).flags, bit) ::
      Grants(w, s, q, bit)
  }

  lemma TaggedGrants(v: World, w: World, s: nat, from: nat, to: nat, end: nat, tag: bv12)
    requires Tagged(v, w, from, end, tag) && Walkable(v, s)
    ensures Granted(v, w, s, from, to, tag)
  {
    hide Look, Needed, InRange;
    forall q, bit | InRange(q, from, to) && OverGrants(v, s, q, bit) && Carries(tag, bit) && Carries(Look(w, s, q).flags, bit)
      ensures Grants(w, s, q, bit)
    {
      RangeIsPage(q, from, to);
      GrantsAt(v, w, s, q, from, end, tag, bit);
    }
  }

  lemma GrantsAt(v: World, w: World, s: nat, q: Path, from: nat, end: nat, tag: bv12, bit: bv12)
    requires Tagged(v, w, from, end, tag) && Walkable(v, s) && IsPage(q) && OverGrants(v, s, q, bit)
    requires Carries(tag, bit) && Carries(Look(w, s, q).flags, bit)
    ensures Grants(w, s, q, bit)
  {
    hide Carries, Look, Needed, Tagged, TaggedIn, TaggedAt, Walkable, OverGrants, Grants;
    var d4, d3, d2, d1 := DigitsOfPage(q);
    PagePathIs(d4, d3, d2, d1);
    NoFlags(bit);
    PageAbove(w, s, q);
    forall p | Over(p, q) ensures Carries(Look(w, s, p).flags, bit) {
      TableAbove(w, s, q, p);
      GrantsOne(v, w, s, q, p, from, end, tag, bit);
    }
    GrantsDown(w, s, d4, d3, d2, d1, bit);
  }

  lemma GrantsDown(w: World, s: nat, d4: nat, d3: nat, d2: nat, d1: nat, bit: bv12)
    requires forall p | Over(p, PagePath(d4, d3, d2, d1)) :: Carries(Look(w, s, p).flags, bit)
    requires Carries(Look(w, s, PagePath(d4, d3, d2, d1)).flags, bit)
    ensures Grants(w, s, PagePath(d4, d3, d2, d1), bit)
  {
    hide Carries, Look;
    var p1 := Step(Top, d4);
    var p2 := Step(p1, d3);
    var p3 := Step(p2, d2);
    assert Over(p1, Step(p3, d1)) && Over(p2, Step(p3, d1)) && Over(p3, Step(p3, d1));
    assert Grants(w, s, p1, bit) && Grants(w, s, p2, bit);
    assert Grants(w, s, p3, bit);
  }

  lemma NoFlags(bit: bv12)
    ensures !Carries(EMPTY.flags, bit)
  {
  }

  lemma GrantsOne(v: World, w: World, s: nat, q: Path, p: Path, from: nat, end: nat, tag: bv12, bit: bv12)
    requires Tagged(v, w, from, end, tag) && Walkable(v, s) && Over(p, q) && IsTable(p) && p.Step? && OverGrants(v, s, q, bit)
    requires Carries(tag, bit) && Look(w, s, p) != EMPTY
    ensures Carries(Look(w, s, p).flags, bit)
  {
    hide Look, Needed;
    assert TaggedIn(v, w, s, from, end, tag);
    assert TaggedAt(v, w, s, p, from, end, tag);
  }

  lemma BuildTable(v: World, w: World, s: nat, from: nat, to: nat, end: nat, n: Node, i: nat, g: nat, flags: bv12)
    requires BuildAt(v, w, s, from, to, end)
    requires CanHoldTable(w, n, i, g, flags) && OnPath(w, s, n, w.own[n])
    requires Needed(Step(n.path, i), from, end)
    ensures BuildAt(v, WithTable(w, n, i, g, flags), s, from, to, end)
  {
    assert IsTableAt(w, n) && i < ENTRIES && n in w.own;
    hide Inv, Reshaped, Open, CanHoldTable, Needed;
    TableKeepsInv(w, n, i, g, flags);
    TableReshaped(v, w, s, n, i, g, flags, from, to, end);
    TableOpen(w, s, n, i, g, flags, from, end);
    TableOnPath(w, s, n, i, g, flags, n, w.own[n]);
  }

  lemma TableGrew(w: World, s: nat, n: Node, i: nat, g: nat, flags: bv12)
    requires Inv(w) && Walkable(w, s) && CanHoldTable(w, n, i, g, flags)
    ensures Grew(w, WithTable(w, n, i, g, flags), s)
  {
    var x := WithTable(w, n, i, g, flags);
    TablePagesStay(w, n, i, g, flags);
    TablePool(w, n, i, g, flags);
    forall m, t | OnPath(w, s, m, t) ensures OnPath(x, s, m, t) {
      TableOnPath(w, s, n, i, g, flags, m, t);
    }
    forall q | IsPage(q) ensures Look(x, s, q) == Look(w, s, q) {
      TableWalk(w, n, i, g, flags, s, q);
    }
  }

  // A run took one step down: nothing has changed, or a table needed for the range is there that was not,
  // made of a free frame.
  ghost predicate AtMostOne(w: World, x: World, s: nat, from: nat, end: nat) {
    x == w || exists c, g :: Needed(c, from, end) && OneFilled(w, x, s, c, g)
  }

  lemma TableFills(w: World, s: nat, n: Node, i: nat, g: nat, flags: bv12, from: nat, end: nat)
    requires Inv(w) && Walkable(w, s) && CanHoldTable(w, n, i, g, flags) && OnPath(w, s, n, w.own[n])
    requires Needed(Step(n.path, i), from, end)
    ensures AtMostOne(w, WithTable(w, n, i, g, flags), s, from, end)
  {
    var x := WithTable(w, n, i, g, flags);
    var c := Step(n.path, i);
    NeededTable(c, from, end);
    assert g > 0 && Look(w, s, c) == Cell(w, n, i);
    hide Inv, Needed, Look;
    TableWalk(w, n, i, g, flags, s, c);
    forall p | Digits(p) && Depth(p) <= 4 && p != c
      ensures Look(x, s, p) == Look(w, s, p)
    {
      TableWalk(w, n, i, g, flags, s, p);
    }
    assert OneFilled(w, x, s, c, g);
  }

  lemma SpentGrew(v: World, w: World, x: World, s: nat, from: nat, end: nat, ps: set<Path>)
    requires Spent(v, w, s, ps) && Lasting(v, w, s, ps) && AtMostOne(w, x, s, from, end) && TablesOver(from, end) <= ps
    requires forall p | p in ps :: Digits(p) && Depth(p) <= 4
    ensures Spent(v, x, s, ps) && Lasting(v, x, s, ps)
  {
    hide Spent, Lasting, OneFilled, Needed, TablesOver, Digits, Depth;
    if x != w {
      var c, g :| Needed(c, from, end) && OneFilled(w, x, s, c, g);
      TablesOverIs(from, end, c);
      SpentOne(v, w, x, s, ps, c, g);
    }
  }

  lemma TablePool(w: World, n: Node, i: nat, g: nat, flags: bv12)
    requires Inv(w) && CanHoldTable(w, n, i, g, flags)
    ensures OwnGrows(w, WithTable(w, n, i, g, flags)) && Pool(WithTable(w, n, i, g, flags)) == Pool(w)
  {
    TableIsNew(w, n, i, g, flags);
    hide Inv;
    PoolGains(w, WithTable(w, n, i, g, flags), Node(n.space, Step(n.path, i)), g, {g});
  }

  lemma TablePagesStay(w: World, n: Node, i: nat, g: nat, flags: bv12)
    requires Inv(w) && CanHoldTable(w, n, i, g, flags)
    ensures PagesStay(w, WithTable(w, n, i, g, flags))
  {
    hide Tables, Hangs, Kinds, Blank;
    TableIsNew(w, n, i, g, flags);
  }

  // The table position a run goes to next is open.
  lemma BuildOpen(v: World, w: World, s: nat, from: nat, to: nat, end: nat, q: Path, p: Path)
    requires BuildAt(v, w, s, from, to, end) && from <= to < end
    requires IsPage(q) && Index(q) == to && Over(p, q)
    ensures OpenTable(w, s, p) && Needed(p, from, end)
  {
    hide Inv, Reshaped, OpenTable;
    assert InRange(q, from, end);
    assert OpenPage(w, s, q);
  }

  lemma NeededHere(to: nat, q: Path, p: Path)
    requires IsPage(q) && Index(q) == to && Over(p, q)
    ensures Needed(p, to, to + 1)
  {
    assert InRange(q, to, to + 1);
  }

  lemma GrewSame(w: World, s: nat, from: nat, end: nat)
    ensures Grew(w, w, s) && AtMostOne(w, w, s, from, end)
  {
  }

  lemma StepReads(w: World, s: nat, n: Node, i: nat)
    requires Inv(w) && IsTableAt(w, n) && OnPath(w, s, n, w.own[n]) && i < ENTRIES
    ensures Look(w, s, Step(n.path, i)) == Cell(w, n, i)
  {
  }

  lemma OnPathTable(w: World, s: nat, n: Node, table: nat)
    requires OnPath(w, s, n, table)
    ensures Walkable(w, s) && IsTableAt(w, n) && w.own[n] == table && n.space in w.kind
  {
  }

  // One step down of a run, to the table below entry i of the table it stands at.
  method Down(k: Kernel, ghost v: World, ghost s: nat, ghost from: nat, ghost to: nat, ghost end: nat,
              ghost n: Node, table: nat, i: nat, flags: bv12, ghost q: Path)
    returns (next: nat, ghost c: Node)
    requires k.Frames() && BuildAt(v, k.W(), s, from, to, end) && from <= to < end
    requires n.Node? && OnPath(k.W(), s, n, table) && Depth(n.path) < 3 && i < ENTRIES
    requires IsPage(q) && Index(q) == to && Over(Step(n.path, i), q)
    requires Process(flags) <==> s != KERNEL
    modifies k`memory, k`available, k`own, k.bitmap
    ensures k.Frames() && BuildAt(v, k.W(), s, from, to, end)
    ensures next == 0 ==> k.W() == old(k.W()) && k.W().free == {} && Look(k.W(), s, Step(n.path, i)) == EMPTY
    ensures next != 0 ==> c.Node? && c.path == Step(n.path, i) && OnPath(k.W(), s, c, next)
    ensures Grew(old(k.W()), k.W(), s) && AtMostOne(old(k.W()), k.W(), s, to, to + 1) && Needed(Step(n.path, i), to, to + 1)
    ensures Tagged(old(k.W()), k.W(), to, to + 1, flags)
  {
    hide Tagged, Look, AtMostOne, Inv, BuildAt, Grew, PathsStay, OnPath, CanHoldTable, WithTable, Needed, Ready, OpenTable, Over;
    ghost var w := k.W();
    OnPathTable(w, s, n, table);
    BuildInv(v, w, s, from, to, end);
    BuildOpen(v, w, s, from, to, end, q, Step(n.path, i));
    ReadyBelow(w, s, n, i, flags);
    GrewSame(w, s, to, to + 1);
    NeededHere(to, q, Step(n.path, i));
    StepReads(w, s, n, i);
    next, c := Descend(k, s, n, table, i, flags);
    TaggedNot(w, to, to + 1, flags);
    if k.W() != w {
      TableTagged(w, n, i, next, flags, to, to + 1);
      TableGrew(w, s, n, i, next, flags);
      TableFills(w, s, n, i, next, flags, to, to + 1);
      BuildTable(v, w, s, from, to, end, n, i, next, flags);
    }
  }

  lemma LeafFits(w: World, s: nat, n: Node, i: nat, e: Entry)
    requires n in w.own && OnPath(w, s, n, w.own[n]) && Depth(n.path) == 3 && i < ENTRIES
    requires (Process(e.flags) <==> s != KERNEL) && (Owned(e.flags) ==> Limbo(w, e.frame))
    ensures CanHoldLeaf(w, n, i, e)
  {
    hide Limbo;
  }

  // A page not reached yet that is owned was owned before.
  lemma OldPage(v: World, w: World, s: nat, from: nat, to: nat, end: nat, c: Node)
    requires OwnKept(v, w, s, from, to) && NewOwn(v, w, s, from, to, end)
    requires c in w.own && c.Node? && IsPage(c.path) && !InRange(c.path, from, to)
    ensures c in v.own && v.own[c] == w.own[c]
  {
    assert c !in v.own ==> NewNode(v, w, s, from, to, end, c);
  }

  lemma WasOwned(v: World, w: World, s: nat, from: nat, to: nat, end: nat, c: Node)
    requires Inv(v) && Reshaped(v, w, s, from, to, end)
    requires c in w.own && c.Node? && IsPage(c.path) && !InRange(c.path, from, to)
    ensures w.own[c] !in v.free
  {
    hide Kept, Apart, TablesKept, OwnKept, NewOwn, NoLeak, Hangs, Tables, Injective;
    OldPage(v, w, s, from, to, end, c);
  }

  lemma LeafPathsStay(w: World, s: nat, n: Node, i: nat, e: Entry)
    requires Inv(w) && CanHoldLeaf(w, n, i, e)
    ensures PathsStay(w, WithLeaf(w, n, i, e), s)
  {
    forall m, t | OnPath(w, s, m, t) ensures OnPath(WithLeaf(w, n, i, e), s, m, t) {
      LeafOnPath(w, s, n, i, e, m, t);
    }
  }

  lemma BuildLeaf(v: World, w: World, s: nat, from: nat, to: nat, end: nat, n: Node, i: nat, e: Entry)
    requires BuildAt(v, w, s, from, to, end) && from <= to < end
    requires IsTableAt(w, n) && OnPath(w, s, n, w.own[n]) && CanHoldLeaf(w, n, i, e)
    requires InRange(Step(n.path, i), to, to + 1)
    ensures BuildAt(v, WithLeaf(w, n, i, e), s, from, to + 1, end)
  {
    assert i < ENTRIES;
    hide Inv, Reshaped, Open, CanHoldLeaf, OnPath, Limbo, WithLeaf, Walkable;
    if Node(n.space, Step(n.path, i)) in w.own {
      WasOwned(v, w, s, from, to, end, Node(n.space, Step(n.path, i)));
    }
    LeafKeepsInv(w, n, i, e);
    LeafReshaped(v, w, s, n, i, e, from, to, end);
    LeafOpen(w, s, n, i, e, from, end);
    LeafOnPath(w, s, n, i, e, n, w.own[n]);
  }

  // Writes entry i of the last-level table a run stands at.
  method PutLeaf(k: Kernel, ghost v: World, ghost s: nat, ghost from: nat, ghost to: nat, ghost end: nat,
                 ghost n: Node, table: nat, i: nat, e: Entry)
    requires k.Frames() && BuildAt(v, k.W(), s, from, to, end) && from <= to < end
    requires n.Node? && OnPath(k.W(), s, n, table) && Depth(n.path) == 3 && i < ENTRIES
    requires InRange(Step(n.path, i), to, to + 1)
    requires (Process(e.flags) <==> s != KERNEL) && (Owned(e.flags) ==> Limbo(k.W(), e.frame))
    modifies k`memory, k`own
    ensures CanHoldLeaf(old(k.W()), n, i, e) && k.W() == WithLeaf(old(k.W()), n, i, e)
    ensures k.Frames() && BuildAt(v, k.W(), s, from, to + 1, end) && PathsStay(old(k.W()), k.W(), s)
  {
    hide Inv, BuildAt, Limbo, PathsStay, OnPath, CanHoldLeaf, WithLeaf, Process, Owned, InRange;
    ghost var w := k.W();
    OnPathTable(w, s, n, table);
    LeafFits(w, s, n, i, e);
    BuildInv(v, w, s, from, to, end);
    k.memory := Put(k.memory, table, i, e);
    k.own := WithLeaf(w, n, i, e).own;
    WithLeafIs(w, n, i, e);
    BuildLeaf(v, w, s, from, to, end, n, i, e);
    LeafPathsStay(w, s, n, i, e);
    BuildInv(v, k.W(), s, from, to + 1, end);
    InvBlank(k.W());
  }

  lemma BuildRoot(v: World, w: World, s: nat, from: nat, to: nat, end: nat)
    requires BuildAt(v, w, s, from, to, end)
    ensures Node(s, Top) in v.own && OnPath(w, s, Node(s, Top), v.own[Node(s, Top)])
  {
    hide Apart, TablesKept, OwnKept, NewOwn, NoLeak, Open, Tables, Hangs, Injective;
  }

  lemma WithLeafIs(w: World, n: Node, i: nat, e: Entry)
    requires IsTableAt(w, n) && i < ENTRIES
    ensures WithLeaf(w, n, i, e) ==
            World(Put(w.memory, w.own[n], i, e), WithLeaf(w, n, i, e).own, w.free, w.kind)
  {
  }

  lemma BuildInv(v: World, w: World, s: nat, from: nat, to: nat, end: nat)
    requires BuildAt(v, w, s, from, to, end)
    ensures Inv(w)
  {
  }

  lemma InvBlank(w: World)
    requires Inv(w)
    ensures Blank(w)
  {
  }

  lemma StayOnPath(v: World, w: World, s: nat, m: Node, t: nat)
    requires PathsStay(v, w, s) && OnPath(v, s, m, t)
    ensures OnPath(w, s, m, t)
  {
  }

  lemma AllStay(v: World, w: World, s: nat, m3: Node, t3: nat, m2: Node, t2: nat, m1: Node, t1: nat)
    requires PathsStay(v, w, s) && OnPath(v, s, m3, t3) && OnPath(v, s, m2, t2) && OnPath(v, s, m1, t1)
    ensures OnPath(w, s, m3, t3) && OnPath(w, s, m2, t2) && OnPath(w, s, m1, t1)
  {
    hide OnPath;
  }

  // ---- mapping given frames --------------------------------------------------------------------

  // Pages of the range show consecutive frames from source.
  ghost predicate Shows(w: World, s: nat, from: nat, to: nat, source: nat, flags: bv12) {
    forall q | InRange(q, from, to) :: Look(w, s, q) == Entry(source + (Index(q) - from), flags)
  }

  // The frames still to be mapped are nobody's, if mapping them is to claim them.
  ghost predicate Unclaimed(w: World, source: nat, done: nat, count: nat, flags: bv12) {
    Owned(flags) ==> forall f: nat | source + done <= f < source + count :: Limbo(w, f)
  }

  // The range was unmapped, and the frames from source are to be claimed.
  ghost predicate Claiming(v: World, s: nat, from: nat, count: nat, flags: bv12) {
    Owned(flags) && forall q | InRange(q, from, from + count) :: Look(v, s, q) == EMPTY
  }

  // Then nothing is lost, and the frames mapped so far have joined the pool.
  ghost predicate Stocked(v: World, w: World, s: nat, from: nat, done: nat, count: nat, source: nat, flags: bv12) {
    Claiming(v, s, from, count, flags) ==> OwnGrows(v, w) && Pool(w) == Pool(v) + Range(source, done)
  }

  ghost predicate MapAt(w: World, s: nat, from: nat, done: nat, count: nat, source: nat, flags: bv12) {
    Shows(w, s, from, from + done, source, flags) && Unclaimed(w, source, done, count, flags)
  }

  lemma MapGrew(v: World, w: World, s: nat, from: nat, done: nat, count: nat, source: nat, flags: bv12)
    requires MapAt(v, s, from, done, count, source, flags) && Grew(v, w, s)
    ensures MapAt(w, s, from, done, count, source, flags)
  {
  }

  lemma LeafShows(w: World, s: nat, from: nat, to: nat, source: nat, flags: bv12, n: Node, i: nat)
    requires Inv(w) && n in w.own && OnPath(w, s, n, w.own[n]) && Shows(w, s, from, to, source, flags)
    requires from <= to && CanHoldLeaf(w, n, i, Entry(source + (to - from), flags))
    requires InRange(Step(n.path, i), to, to + 1)
    ensures Shows(WithLeaf(w, n, i, Entry(source + (to - from), flags)), s, from, to + 1, source, flags)
  {
    var e := Entry(source + (to - from), flags);
    forall p | InRange(p, from, to + 1)
      ensures Look(WithLeaf(w, n, i, e), s, p) == Entry(source + (Index(p) - from), flags)
    {
      LeafReads(w, s, n, i, e, p);
      if !InRange(p, from, to) {
        IndexInjective(p, Step(n.path, i));
      }
    }
  }

  lemma LeafUnclaimed(w: World, source: nat, done: nat, count: nat, flags: bv12, n: Node, i: nat)
    requires Unclaimed(w, source, done, count, flags) && done < count && IsTableAt(w, n) && i < ENTRIES
    ensures Unclaimed(WithLeaf(w, n, i, Entry(source + done, flags)), source, done + 1, count, flags)
  {
    var x := WithLeaf(w, n, i, Entry(source + done, flags));
    if Owned(flags) {
      forall f: nat | source + done + 1 <= f < source + count
        ensures Limbo(x, f)
      {
        assert Limbo(w, f);
      }
    }
  }

  lemma MapStarts(w: World, s: nat, from: nat, count: nat, source: nat, flags: bv12)
    requires Unclaimed(w, source, 0, count, flags)
    ensures MapAt(w, s, from, 0, count, source, flags)
  {
  }

  lemma NextIsLimbo(w: World, s: nat, from: nat, done: nat, count: nat, source: nat, flags: bv12)
    requires MapAt(w, s, from, done, count, source, flags) && done < count
    ensures Owned(flags) ==> Limbo(w, source + done)
  {
    hide Limbo, Shows;
    assert source + done < source + count;
  }

  lemma MapLeaf(v: World, w: World, s: nat, from: nat, done: nat, count: nat, source: nat, flags: bv12, n: Node, i: nat)
    requires BuildAt(v, w, s, from, from + done, from + count) && MapAt(w, s, from, done, count, source, flags)
    requires IsTableAt(w, n) && i < ENTRIES && OnPath(w, s, n, w.own[n])
    requires CanHoldLeaf(w, n, i, Entry(source + done, flags))
    requires InRange(Step(n.path, i), from + done, from + done + 1) && done < count
    ensures MapAt(WithLeaf(w, n, i, Entry(source + done, flags)), s, from, done + 1, count, source, flags)
  {
    hide Inv, BuildAt, Shows, Unclaimed, CanHoldLeaf, OnPath, WithLeaf, InRange;
    BuildInv(v, w, s, from, from + done, from + count);
    LeafShows(w, s, from, from + done, source, flags, n, i);
    LeafUnclaimed(w, source, done, count, flags, n, i);
  }

  ghost predicate Mapping(v: World, w: World, s: nat, from: nat, done: nat, count: nat, source: nat, flags: bv12) {
    && BuildAt(v, w, s, from, from + done, from + count)
    && MapAt(w, s, from, done, count, source, flags)
    && Stocked(v, w, s, from, done, count, source, flags)
    && Tagged(v, w, from, from + count, flags | WRITE)
  }

  lemma MappingDone(v: World, w: World, s: nat, from: nat, done: nat, count: nat, source: nat, flags: bv12)
    requires Mapping(v, w, s, from, done, count, source, flags)
    ensures Inv(w) && Reshaped(v, w, s, from, from + done, from + count) && Open(w, s, from, from + count)
    ensures Shows(w, s, from, from + done, source, flags)
    ensures Stocked(v, w, s, from, done, count, source, flags)
    ensures Tagged(v, w, from, from + count, flags | WRITE) && Granted(v, w, s, from, from + done, flags | WRITE)
  {
    hide Tagged, Granted, Inv, Reshaped, Open, Stocked;
    TaggedGrants(v, w, s, from, from + done, from + count, flags | WRITE);
  }

  lemma MappingRoot(v: World, w: World, s: nat, from: nat, done: nat, count: nat, source: nat, flags: bv12)
    requires Mapping(v, w, s, from, done, count, source, flags)
    ensures Node(s, Top) in v.own && OnPath(w, s, Node(s, Top), v.own[Node(s, Top)])
  {
    hide Tagged, BuildAt, MapAt, OnPath, Stocked;
    BuildRoot(v, w, s, from, from + done, from + count);
  }

  lemma MappingStarts(w: World, s: nat, from: nat, count: nat, source: nat, flags: bv12)
    requires Inv(w) && Walkable(w, s) && Open(w, s, from, from + count) && Unclaimed(w, source, 0, count, flags)
    ensures Mapping(w, w, s, from, 0, count, source, flags)
  {
    hide Tagged, Inv, Walkable, Open, Unclaimed, BuildAt, MapAt;
    TaggedNot(w, from, from + count, flags | WRITE);
    BuildStarts(w, s, from, from + count);
    MapStarts(w, s, from, count, source, flags);
    assert Range(source, 0) == {};
  }

  lemma StockedGrew(v: World, w: World, x: World, s: nat, from: nat, done: nat, count: nat, source: nat, flags: bv12)
    requires Stocked(v, w, s, from, done, count, source, flags) && Grew(w, x, s)
    ensures Stocked(v, x, s, from, done, count, source, flags)
  {
    hide PathsStay, PagesStay, Claiming, Pool;
  }

  lemma StockedLeaf(v: World, w: World, s: nat, from: nat, done: nat, count: nat, source: nat, flags: bv12, n: Node, i: nat)
    requires BuildAt(v, w, s, from, from + done, from + count)
    requires Stocked(v, w, s, from, done, count, source, flags)
    requires IsTableAt(w, n) && i < ENTRIES && OnPath(w, s, n, w.own[n])
    requires CanHoldLeaf(w, n, i, Entry(source + done, flags))
    requires InRange(Step(n.path, i), from + done, from + done + 1) && done < count
    ensures Stocked(v, WithLeaf(w, n, i, Entry(source + done, flags)), s, from, done + 1, count, source, flags)
  {
    hide Inv, Reshaped, Open, Limbo;
    if Claiming(v, s, from, count, flags) {
      var x := WithLeaf(w, n, i, Entry(source + done, flags));
      NotYet(v, w, s, from, from + done, from + count, n, i);
      assert InRange(Step(n.path, i), from, from + count);
      EmptyOwnsNothing(w, n, i);
      PoolGains(w, x, Node(n.space, Step(n.path, i)), source + done, {});
      assert Range(source, done + 1) == Range(source, done) + {source + done};
    }
  }

  // One step down of a mapping run.
  method MapDown(k: Kernel, ghost v: World, ghost s: nat, ghost from: nat, ghost done: nat, ghost count: nat, ghost source: nat,
                 ghost n: Node, table: nat, i: nat, flags: bv12, ghost q: Path)
    returns (next: nat, ghost c: Node)
    requires k.Frames() && Mapping(v, k.W(), s, from, done, count, source, flags) && done < count
    requires n.Node? && OnPath(k.W(), s, n, table) && Depth(n.path) < 3 && i < ENTRIES
    requires IsPage(q) && Index(q) == from + done && Over(Step(n.path, i), q)
    requires Process(flags) <==> s != KERNEL
    modifies k`memory, k`available, k`own, k.bitmap
    ensures k.Frames() && Mapping(v, k.W(), s, from, done, count, source, flags)
    ensures next == 0 ==> k.W().free == {}
    ensures next != 0 ==> c.Node? && c.path == Step(n.path, i) && OnPath(k.W(), s, c, next)
    ensures PathsStay(old(k.W()), k.W(), s)
  {
    hide Tagged, BuildAt, MapAt, OnPath, Over, IsPage, Depth, Index, PathsStay, Limbo, Stocked, OwnGrows, Pool, PagesStay;
    WriteKeepsProcess(flags);
    ghost var w := k.W();
    next, c := Down(k, v, s, from, from + done, from + count, n, table, i, flags | WRITE, q);
    TaggedOn(v, w, k.W(), from, from + count, from + done, from + done + 1, flags | WRITE);
    MapGrew(w, k.W(), s, from, done, count, source, flags);
    StockedGrew(v, w, k.W(), s, from, done, count, source, flags);
  }

  // One page of a mapping run.
  method MapPage(k: Kernel, ghost v: World, ghost s: nat, ghost from: nat, ghost done: nat, ghost count: nat, ghost source: nat,
                 ghost n: Node, table: nat, i: nat, frame: nat, flags: bv12)
    requires k.Frames() && Mapping(v, k.W(), s, from, done, count, source, flags)
    requires n.Node? && OnPath(k.W(), s, n, table) && Depth(n.path) == 3 && i < ENTRIES
    requires InRange(Step(n.path, i), from + done, from + done + 1) && done < count
    requires frame == source + done && (Process(flags) <==> s != KERNEL)
    modifies k`memory, k`own
    ensures k.Frames() && Mapping(v, k.W(), s, from, done + 1, count, source, flags)
    ensures PathsStay(old(k.W()), k.W(), s)
  {
    hide Inv, Tagged, BuildAt, OnPath, PathsStay, MapAt, WithLeaf, CanHoldLeaf, Limbo, Process, Owned, InRange, Stocked, OwnGrows, Pool;
    BuildInv(v, k.W(), s, from, from + done, from + count);
    ghost var w := k.W();
    OnPathTable(w, s, n, table);
    NextIsLimbo(w, s, from, done, count, source, flags);
    PutLeaf(k, v, s, from, from + done, from + count, n, table, i, Entry(frame, flags));
    LeafTaggedOn(v, w, n, i, Entry(frame, flags), from, from + count, flags | WRITE);
    MapLeaf(v, w, s, from, done, count, source, flags, n, i);
    StockedLeaf(v, w, s, from, done, count, source, flags, n, i);
  }

  // Maps `count` frames from `source` at the pages from `target` on. Answers false when memory for
  // tables runs out or the range runs over the end of the address space.
  method Map(k: Kernel, ghost s: nat, pml4: nat, source: nat, target: nat, count: nat, flags: bv12)
    returns (ok: bool, ghost done: nat)
    requires k.Valid() && Walkable(k.W(), s) && k.W().own[Node(s, Top)] == pml4
    requires count > 0 && (Process(flags) <==> s != KERNEL)
    requires Open(k.W(), s, PageOf(target), PageOf(target) + count)
    requires Unclaimed(k.W(), source, 0, count, flags)
    modifies k`memory, k`available, k`own, k.bitmap
    ensures k.Valid()
    ensures done <= count && (ok <==> done == count)
    ensures !ok ==> k.W().free == {} || PageOf(target) + count > PAGES
    ensures PageOf(target) + count > PAGES ==> !ok
    ensures Reshaped(old(k.W()), k.W(), s, PageOf(target), PageOf(target) + done, PageOf(target) + count)
    ensures Shows(k.W(), s, PageOf(target), PageOf(target) + done, source, flags)
    ensures Open(k.W(), s, PageOf(target), PageOf(target) + count)
    ensures Stocked(old(k.W()), k.W(), s, PageOf(target), done, count, source, flags)
    ensures Tagged(old(k.W()), k.W(), PageOf(target), PageOf(target) + count, flags | WRITE)
    ensures Granted(old(k.W()), k.W(), s, PageOf(target), PageOf(target) + done, flags | WRITE)
  {
    hide Tagged, Granted, Mapping, OnPath, PathsStay, Inv, WithLeaf, CanHoldLeaf, Limbo, Reshaped, Open, Unclaimed, Shows, Stocked;
    hide Over, Depth, PageOf, Process, Owned, Digits, Index, IsPage, InRange, Number, Kernel.W, Kernel.Frames;
    assert Depth(Top) == 0 by { DepthTop(); }
    ghost var v, from := k.W(), PageOf(target);
    var left, frame := count, source;
    done := 0;
    var p4: nat, p3: nat, p2: nat, p1: nat := Locate4(target);
    MappingStarts(v, s, from, count, source, flags);
    ghost var n4 := Node(s, Top);
    while p4 < ENTRIES
      invariant k.Frames() && Mapping(v, k.W(), s, from, done, count, source, flags)
      invariant p4 <= ENTRIES && p3 < ENTRIES && p2 < ENTRIES && p1 < ENTRIES
      invariant Number(p4, p3, p2, p1) == from + done && done < count
      invariant left == count - done && frame == source + done
    {
      ghost var u4 := k.W();
      MappingRoot(v, u4, s, from, done, count, source, flags);
      PagePathIs(p4, p3, p2, p1);
      var pml3, n3 := MapDown(k, v, s, from, done, count, source, n4, pml4, p4, flags, PagePath(p4, p3, p2, p1));
      if pml3 == 0 {
        MappingDone(v, k.W(), s, from, done, count, source, flags);
        return false, done;
      }
      while p3 < ENTRIES
        invariant k.Frames() && Mapping(v, k.W(), s, from, done, count, source, flags)
        invariant p4 < ENTRIES && p3 <= ENTRIES && p2 < ENTRIES && p1 < ENTRIES
        invariant Number(p4, p3, p2, p1) == from + done && done < count
        invariant left == count - done && frame == source + done
        invariant OnPath(k.W(), s, n3, pml3)
      {
        ghost var u3 := k.W();
        PagePathIs(p4, p3, p2, p1);
        var pml2, n2 := MapDown(k, v, s, from, done, count, source, n3, pml3, p3, flags, PagePath(p4, p3, p2, p1));
        if pml2 == 0 {
          MappingDone(v, k.W(), s, from, done, count, source, flags);
          return false, done;
        }
        StayOnPath(u3, k.W(), s, n3, pml3);
        while p2 < ENTRIES
          invariant k.Frames() && Mapping(v, k.W(), s, from, done, count, source, flags)
          invariant p4 < ENTRIES && p3 < ENTRIES && p2 <= ENTRIES && p1 < ENTRIES
          invariant Number(p4, p3, p2, p1) == from + done && done < count
          invariant left == count - done && frame == source + done
          invariant OnPath(k.W(), s, n3, pml3)
          invariant OnPath(k.W(), s, n2, pml2)
        {
          ghost var u2 := k.W();
          PagePathIs(p4, p3, p2, p1);
          var pml1, n1 := MapDown(k, v, s, from, done, count, source, n2, pml2, p2, flags, PagePath(p4, p3, p2, p1));
          if pml1 == 0 {
            MappingDone(v, k.W(), s, from, done, count, source, flags);
            return false, done;
          }
          StayOnPath(u2, k.W(), s, n3, pml3);
          StayOnPath(u2, k.W(), s, n2, pml2);
          while p1 < ENTRIES
            invariant k.Frames() && Mapping(v, k.W(), s, from, done, count, source, flags)
            invariant p4 < ENTRIES && p3 < ENTRIES && p2 < ENTRIES && p1 <= ENTRIES
            invariant Number(p4, p3, p2, p1) == from + done && done < count
            invariant left == count - done && frame == source + done
            invariant OnPath(k.W(), s, n3, pml3)
            invariant OnPath(k.W(), s, n2, pml2)
            invariant OnPath(k.W(), s, n1, pml1)
          {
            ghost var u1 := k.W();
            PagePathIs(p4, p3, p2, p1);
            MapPage(k, v, s, from, done, count, source, n1, pml1, p1, frame, flags);
            AllStay(u1, k.W(), s, n3, pml3, n2, pml2, n1, pml1);
            frame, left, done := frame + 1, left - 1, done + 1;
            NotAtEnd(p4, p3, p2, p1);
            if left == 0 {
              MappingDone(v, k.W(), s, from, done, count, source, flags);
              return true, done;
            }
            Carry(p4, p3, p2, p1);
            p1 := p1 + 1;
          }
          Carry(p4, p3, p2, p1);
          p1 := 0;
          p2 := p2 + 1;
        }
        Carry(p4, p3, p2, p1);
        p2 := 0;
        p3 := p3 + 1;
      }
      Carry(p4, p3, p2, p1);
      p3 := 0;
      p4 := p4 + 1;
    }
    Carry(p4, p3, p2, p1);
    MappingDone(v, k.W(), s, from, done, count, source, flags);
    return false, done;
  }

  // ---- backing pages with fresh frames ---------------------------------------------------------

  // A page backed by a frame that was free before: flagged as asked, blank, and owned at this place, or
  // held by the kernel if the page is one of its own.
  ghost predicate Fresh(v: World, w: World, s: nat, q: Path, flags: bv12) {
    && Look(w, s, q).flags == flags
    && Look(w, s, q).frame in v.free
    && Look(w, s, q).frame < |w.memory| && w.memory[Look(w, s, q).frame] == ZeroPage()
    && exists n :: OwnsPage(n, s, q) && Names(w, n, Look(w, s, q).frame)
  }

  predicate OwnsPage(n: Node, s: nat, q: Path) {
    if s == KERNEL then n.Held? && n.space == KERNEL else n.Node? && n.path == q
  }

  // Pages mapped before are left alone; the others have a fresh frame each.
  ghost predicate Backed(v: World, w: World, s: nat, from: nat, to: nat, flags: bv12) {
    forall q | InRange(q, from, to) ::
      if Look(v, s, q) != EMPTY then Look(w, s, q) == Look(v, s, q) else Fresh(v, w, s, q, flags)
  }

  // No two of the pages that were missing share a frame.
  ghost predicate SeparateFrames(v: World, w: World, s: nat, from: nat, to: nat) {
    forall q, r | InRange(q, from, to) && InRange(r, from, to) && q != r && Look(v, s, q) == EMPTY && Look(v, s, r) == EMPTY ::
      Look(w, s, q).frame != Look(w, s, r).frame
  }

  // The positions a run over pages from..end may have to fill.
  ghost function Positions(from: nat, end: nat): set<Path> {
    TablesOver(from, end) + PagesOver(from, end)
  }

  lemma PositionsAre(from: nat, end: nat)
    ensures TablesOver(from, end) <= Positions(from, end)
    ensures forall p | p in Positions(from, end) :: Digits(p) && Depth(p) <= 4
  {
    TablesAreNoPages(from, end, from, end);
  }

  ghost predicate Backing(v: World, w: World, s: nat, from: nat, to: nat, end: nat, flags: bv12) {
    && BuildAt(v, w, s, from, to, end) && Backed(v, w, s, from, to, flags) && SeparateFrames(v, w, s, from, to)
    && OwnGrows(v, w) && Pool(w) == Pool(v)
    && Spent(v, w, s, Positions(from, end)) && Lasting(v, w, s, Positions(from, end))
    && Tagged(v, w, from, end, flags)
  }

  lemma FreshStays(v: World, w: World, x: World, s: nat, q: Path, flags: bv12)
    requires Fresh(v, w, s, q, flags) && PagesStay(w, x) && Look(x, s, q) == Look(w, s, q) && IsPage(q)
    ensures Fresh(v, x, s, q, flags)
  {
    hide Look, IsPage;
    var n :| OwnsPage(n, s, q) && Names(w, n, Look(w, s, q).frame);
    assert Names(x, n, Look(w, s, q).frame);
  }

  lemma FreshIsTaken(v: World, w: World, s: nat, q: Path, flags: bv12)
    requires Inv(w) && Fresh(v, w, s, q, flags)
    ensures Look(w, s, q).frame !in w.free && Look(w, s, q) != EMPTY
  {
    hide Look, Injective, Blank, Kinds, Hangs, Tables;
    var n :| OwnsPage(n, s, q) && Names(w, n, Look(w, s, q).frame);
  }

  lemma BackedStays(v: World, w: World, x: World, s: nat, from: nat, to: nat, flags: bv12)
    requires Backed(v, w, s, from, to, flags) && SeparateFrames(v, w, s, from, to) && PagesStay(w, x)
    requires forall q | InRange(q, from, to) :: Look(x, s, q) == Look(w, s, q)
    ensures Backed(v, x, s, from, to, flags) && SeparateFrames(v, x, s, from, to)
  {
    hide Look, InRange, Fresh;
    forall q | InRange(q, from, to)
      ensures if Look(v, s, q) != EMPTY then Look(x, s, q) == Look(v, s, q) else Fresh(v, x, s, q, flags)
    {
      if Look(v, s, q) == EMPTY {
        FreshStays(v, w, x, s, q, flags) by { RangeIsPage(q, from, to); }
      }
    }
  }

  lemma RangeIsPage(q: Path, from: nat, to: nat)
    requires InRange(q, from, to)
    ensures IsPage(q)
  {
  }

  lemma PagePagesStay(w: World, n: Node, i: nat, g: nat, flags: bv12)
    requires Inv(w) && CanHoldPage(w, n, i, g, flags)
    ensures PagesStay(w, WithPage(w, n, i, g, flags))
  {
    PageOwners(w, n, i, g, flags);
    hide Tables, Hangs, Kinds, Blank;
  }

  lemma PageBuilt(v: World, w: World, s: nat, from: nat, to: nat, end: nat, n: Node, i: nat, g: nat, flags: bv12)
    requires BuildAt(v, w, s, from, to, end) && from <= to < end
    requires IsTableAt(w, n) && i < ENTRIES && OnPath(w, s, n, w.own[n]) && CanHoldPage(w, n, i, g, flags)
    requires InRange(Step(n.path, i), to, to + 1)
    ensures BuildAt(v, WithPage(w, n, i, g, flags), s, from, to + 1, end)
    ensures PathsStay(w, WithPage(w, n, i, g, flags), s)
  {
    hide Inv, Reshaped, Open, CanHoldPage, CanHoldLeaf, Limbo, WithLeaf, InRange, PathsStay, Drawn, OnPath;
    var u := Drawn(w, n.space, g);
    var e := Entry(g, flags);
    PageKeepsInv(w, n, i, g, flags);
    PageReshaped(v, w, s, n, i, g, flags, from, to, end);
    OpenDrawn(w, s, n.space, g, from, end);
    PathsDrawn(w, s, n.space, g);
    StayOnPath(w, u, s, n, w.own[n]);
    OnPathTable(u, s, n, w.own[n]);
    LeafOpen(u, s, n, i, e, from, end);
    LeafOnPath(u, s, n, i, e, n, w.own[n]);
    LeafPathsStay(u, s, n, i, e);
    PathsStayOn(w, u, WithPage(w, n, i, g, flags), s);
  }

  lemma OpenDrawn(w: World, s: nat, t: nat, g: nat, from: nat, end: nat)
    requires Open(w, s, from, end)
    ensures Open(Drawn(w, t, g), s, from, end)
  {
    DrawnLooks(w, t, g);
    hide Look;
    forall q | InRange(q, from, end) ensures OpenPage(Drawn(w, t, g), s, q) {
      assert OpenPage(w, s, q);
    }
  }

  lemma PathsDrawn(w: World, s: nat, t: nat, g: nat)
    ensures PathsStay(w, Drawn(w, t, g), s)
  {
    DrawnLooks(w, t, g);
    hide Look;
  }

  lemma PathsStayOn(u: World, v: World, w: World, s: nat)
    requires PathsStay(u, v, s) && PathsStay(v, w, s)
    ensures PathsStay(u, w, s)
  {
  }

  // A page a run has not come to is as it was.
  lemma NotYet(v: World, w: World, s: nat, from: nat, to: nat, end: nat, n: Node, i: nat)
    requires BuildAt(v, w, s, from, to, end) && IsTableAt(w, n) && i < ENTRIES && OnPath(w, s, n, w.own[n])
    requires InRange(Step(n.path, i), to, to + 1)
    ensures Look(w, s, Step(n.path, i)) == Cell(w, n, i) == Look(v, s, Step(n.path, i))
  {
    hide Inv, Apart, TablesKept, OwnKept, NewOwn, NoLeak, Open;
    assert !InRange(Step(n.path, i), from, to);
  }

  lemma PagePool(w: World, n: Node, i: nat, g: nat, flags: bv12)
    requires Inv(w) && CanHoldPage(w, n, i, g, flags)
    ensures OwnGrows(w, WithPage(w, n, i, g, flags)) && Pool(WithPage(w, n, i, g, flags)) == Pool(w)
  {
    PageOwners(w, n, i, g, flags);
    hide Inv, WithPage;
    PoolGains(w, WithPage(w, n, i, g, flags), PageNode(n, i, g), g, {g});
  }

  lemma OwnGrowsOn(u: World, v: World, w: World)
    requires OwnGrows(u, v) && OwnGrows(v, w)
    ensures OwnGrows(u, w)
  {
  }

  lemma PageReads(w: World, s: nat, n: Node, i: nat, g: nat, flags: bv12, q: Path)
    requires Inv(w) && CanHoldPage(w, n, i, g, flags) && OnPath(w, s, n, w.own[n]) && Digits(q) && Depth(q) <= 4
    ensures Look(WithPage(w, n, i, g, flags), s, q) == if q == Step(n.path, i) then Entry(g, flags) else Look(w, s, q)
  {
    hide Inv, CanHoldPage, CanHoldLeaf, Drawn, WithLeaf;
    PageFrame(w, n, i, g, flags);
    PageKeepsInv(w, n, i, g, flags);
    DrawnOnPath(w, s, n, n.space, g);
    DrawnLooks(w, n.space, g);
    LeafWalk(Drawn(w, n.space, g), n, i, Entry(g, flags), s, q);
  }

  lemma FreshPage(v: World, w: World, s: nat, n: Node, i: nat, g: nat, flags: bv12)
    requires Inv(w) && w.free <= v.free && CanHoldPage(w, n, i, g, flags) && OnPath(w, s, n, w.own[n])
    requires IsPage(Step(n.path, i))
    ensures Fresh(v, WithPage(w, n, i, g, flags), s, Step(n.path, i), flags)
  {
    var x := WithPage(w, n, i, g, flags);
    PageReads(w, s, n, i, g, flags, Step(n.path, i));
    PageOwners(w, n, i, g, flags);
    hide Look, Tables, Hangs, Kinds, Injective;
    assert OwnsPage(PageNode(n, i, g), s, Step(n.path, i)) && Names(x, PageNode(n, i, g), g);
  }

  lemma BackingPage(v: World, w: World, s: nat, from: nat, to: nat, end: nat, n: Node, i: nat, g: nat, flags: bv12)
    requires Backing(v, w, s, from, to, end, flags) && from <= to < end
    requires IsTableAt(w, n) && i < ENTRIES && OnPath(w, s, n, w.own[n]) && CanHoldPage(w, n, i, g, flags)
    requires InRange(Step(n.path, i), to, to + 1)
    ensures Backed(v, WithPage(w, n, i, g, flags), s, from, to + 1, flags)
    ensures SeparateFrames(v, WithPage(w, n, i, g, flags), s, from, to + 1)
  {
    hide Tagged, Inv, BuildAt, CanHoldPage, OnPath, WithPage, PagesStay, Fresh, Look, Spent, Lasting, Positions, OwnGrows, Pool, Cell;
    var q := Step(n.path, i);
    var x := WithPage(w, n, i, g, flags);
    RangeIsPage(q, to, to + 1);
    BuildInv(v, w, s, from, to, end);
    BuildFree(v, w, s, from, to, end);
    PageFrame(w, n, i, g, flags);
    NotYet(v, w, s, from, to, end, n, i);
    FreshPage(v, w, s, n, i, g, flags);
    PagePagesStay(w, n, i, g, flags);
    EmptyCell(w, n, i, g, flags);
    PageShows(w, s, n, i, g, flags, q);
    forall p | InRange(p, from, to + 1)
      ensures if Look(v, s, p) != EMPTY then Look(x, s, p) == Look(v, s, p) else Fresh(v, x, s, p, flags)
      ensures p != q ==> InRange(p, from, to) && Look(x, s, p) == Look(w, s, p)
      ensures p != q && Look(v, s, p) == EMPTY ==> Look(x, s, p).frame != g
    {
      PageShows(w, s, n, i, g, flags, p);
      if !InRange(p, from, to) {
        IndexInjective(p, q);
      } else if Look(v, s, p) == EMPTY {
        FreshStays(v, w, x, s, p, flags);
        FreshIsTaken(v, w, s, p, flags);
      }
    }
  }

  lemma PageShows(w: World, s: nat, n: Node, i: nat, g: nat, flags: bv12, q: Path)
    requires Inv(w) && CanHoldPage(w, n, i, g, flags) && OnPath(w, s, n, w.own[n]) && IsPage(q)
    ensures Look(WithPage(w, n, i, g, flags), s, q) == if q == Step(n.path, i) then Entry(g, flags) else Look(w, s, q)
  {
    hide Inv, CanHoldPage, OnPath, WithPage, Look;
    PageReads(w, s, n, i, g, flags, q);
  }

  lemma BuildFree(v: World, w: World, s: nat, from: nat, to: nat, end: nat)
    requires BuildAt(v, w, s, from, to, end)
    ensures w.free <= v.free
  {
    hide Inv, Kept, Apart, TablesKept, NewTables, OwnKept, NewOwn, Open;
  }

  // The page was one of the positions to fill.
  lemma PageSpends(v: World, w: World, s: nat, from: nat, to: nat, end: nat, n: Node, i: nat, g: nat, flags: bv12)
    requires Backing(v, w, s, from, to, end, flags) && from <= to < end
    requires IsTableAt(w, n) && i < ENTRIES && OnPath(w, s, n, w.own[n]) && CanHoldPage(w, n, i, g, flags)
    requires InRange(Step(n.path, i), to, to + 1)
    ensures Spent(v, WithPage(w, n, i, g, flags), s, Positions(from, end))
    ensures Lasting(v, WithPage(w, n, i, g, flags), s, Positions(from, end))
  {
    hide Tagged, Inv, BuildAt, Backed, SeparateFrames, Spent, Lasting, OnPath, CanHoldPage, WithPage, Positions, Look, OwnGrows, Pool, Cell;
    var q := Step(n.path, i);
    var x := WithPage(w, n, i, g, flags);
    BuildInv(v, w, s, from, to, end);
    PageFrame(w, n, i, g, flags);
    EmptyCell(w, n, i, g, flags);
    StepReads(w, s, n, i);
    PageOwners(w, n, i, g, flags);
    PageReads(w, s, n, i, g, flags, q);
    forall p | Digits(p) && Depth(p) <= 4 && p != q ensures Look(x, s, p) == Look(w, s, p) {
      PageReads(w, s, n, i, g, flags, p);
    }
    PositionsAre(from, end);
    PageIsPosition(from, to, end, q);
    SpentOne(v, w, x, s, Positions(from, end), q, g);
  }

  lemma PageIsPosition(from: nat, to: nat, end: nat, q: Path)
    requires InRange(q, to, to + 1) && from <= to < end
    ensures q in Positions(from, end)
  {
    PagesOverIs(from, end, q);
  }

  lemma EmptyCell(w: World, n: Node, i: nat, g: nat, flags: bv12)
    requires CanHoldPage(w, n, i, g, flags)
    ensures Cell(w, n, i) == EMPTY
  {
  }

  lemma BackingStarts(w: World, s: nat, from: nat, end: nat, flags: bv12)
    requires Inv(w) && Walkable(w, s) && Open(w, s, from, end)
    ensures Backing(w, w, s, from, from, end, flags)
  {
    hide Tagged, Inv, Open;
    TaggedNot(w, from, end, flags);
    BuildStarts(w, s, from, end);
    SpentNothing(w, s, Positions(from, end));
  }

  lemma BackingRoot(v: World, w: World, s: nat, from: nat, to: nat, end: nat, flags: bv12)
    requires Backing(v, w, s, from, to, end, flags)
    ensures Node(s, Top) in v.own && OnPath(w, s, Node(s, Top), v.own[Node(s, Top)])
  {
    hide Tagged, BuildAt, Backed, SeparateFrames, OnPath, Spent, Lasting;
    BuildRoot(v, w, s, from, to, end);
  }

  lemma BackingDone(v: World, w: World, s: nat, from: nat, to: nat, end: nat, flags: bv12)
    requires Backing(v, w, s, from, to, end, flags)
    ensures Inv(w) && Reshaped(v, w, s, from, to, end) && Open(w, s, from, end) && Backed(v, w, s, from, to, flags)
    ensures OwnGrows(v, w) && Pool(w) == Pool(v) && SeparateFrames(v, w, s, from, to)
    ensures Tagged(v, w, from, end, flags) && Granted(v, w, s, from, to, flags)
  {
    TaggedGrants(v, w, s, from, to, end, flags);
    hide Tagged, Granted, Inv, Reshaped, Open, Backed, SeparateFrames, Spent, Lasting;
  }

  lemma BackingGrew(v: World, w: World, x: World, s: nat, from: nat, to: nat, end: nat, flags: bv12)
    requires Backing(v, w, s, from, to, end, flags) && Grew(w, x, s) && AtMostOne(w, x, s, to, to + 1) && from <= to < end
    ensures Backed(v, x, s, from, to, flags) && SeparateFrames(v, x, s, from, to) && OwnGrows(v, x) && Pool(x) == Pool(w)
    ensures Spent(v, x, s, Positions(from, end)) && Lasting(v, x, s, Positions(from, end))
  {
    hide Tagged, PathsStay, PagesStay, Fresh, Pool, Backed, SeparateFrames, BuildAt, Spent, Lasting, AtMostOne, Positions, Look, Depth, Digits;
    BackedStays(v, w, x, s, from, to, flags) by { assert forall q | InRange(q, from, to) :: IsPage(q); }
    PositionsAre(from, end);
    TablesWithin(to, to + 1, from, end);
    SpentGrew(v, w, x, s, to, to + 1, Positions(from, end));
  }

  // One step down of a backing run.
  method BackDown(k: Kernel, ghost v: World, ghost s: nat, ghost from: nat, ghost to: nat, ghost end: nat,
                  ghost n: Node, table: nat, i: nat, flags: bv12, ghost q: Path)
    returns (next: nat, ghost c: Node)
    requires k.Frames() && Backing(v, k.W(), s, from, to, end, flags) && from <= to < end
    requires n.Node? && OnPath(k.W(), s, n, table) && Depth(n.path) < 3 && i < ENTRIES
    requires IsPage(q) && Index(q) == to && Over(Step(n.path, i), q)
    requires Process(flags) <==> s != KERNEL
    modifies k`memory, k`available, k`own, k.bitmap
    ensures k.Frames() && Backing(v, k.W(), s, from, to, end, flags)
    ensures next == 0 ==> k.W().free == {} && !Affordable(v, s, from, end - from)
    ensures next != 0 ==> c.Node? && c.path == Step(n.path, i) && OnPath(k.W(), s, c, next)
    ensures PathsStay(old(k.W()), k.W(), s)
  {
    hide Tagged, BuildAt, Backed, SeparateFrames, OnPath, Over, IsPage, Depth, Index, PathsStay, Limbo, PagesStay, OwnGrows, Pool;
    hide Spent, Lasting, Positions, Missing, Needed, AtMostOne, Look;
    ghost var w := k.W();
    next, c := Down(k, v, s, from, to, end, n, table, i, flags, q);
    TaggedOn(v, w, k.W(), from, end, to, to + 1, flags);
    BackingGrew(v, w, k.W(), s, from, to, end, flags);
    if next == 0 {
      TablesOverIs(to, to + 1, Step(n.path, i));
      TablesWithin(to, to + 1, from, end);
      PositionsAre(from, end);
      NotAfforded(v, k.W(), s, Positions(from, end), Step(n.path, i));
    }
  }

  lemma SkipBuilt(v: World, w: World, s: nat, from: nat, to: nat, end: nat)
    requires BuildAt(v, w, s, from, to, end) && from <= to
    ensures BuildAt(v, w, s, from, to + 1, end)
  {
    hide Inv, Reshaped, Open;
    SkipReshaped(v, w, s, from, to, end);
  }

  lemma SkipBacked(v: World, w: World, s: nat, from: nat, to: nat, end: nat, flags: bv12, n: Node, i: nat)
    requires Backing(v, w, s, from, to, end, flags) && from <= to
    requires IsTableAt(w, n) && i < ENTRIES && OnPath(w, s, n, w.own[n]) && Cell(w, n, i) != EMPTY
    requires InRange(Step(n.path, i), to, to + 1)
    ensures Backed(v, w, s, from, to + 1, flags) && SeparateFrames(v, w, s, from, to + 1)
  {
    hide Tagged, BuildAt, Fresh, OnPath, Look, Spent, Lasting, Positions, OwnGrows, Pool;
    NotYet(v, w, s, from, to, end, n, i);
    forall q | InRange(q, from, to + 1)
      ensures if Look(v, s, q) != EMPTY then Look(w, s, q) == Look(v, s, q) else Fresh(v, w, s, q, flags)
      ensures Look(v, s, q) == EMPTY ==> InRange(q, from, to)
    {
      if !InRange(q, from, to) {
        IndexInjective(q, Step(n.path, i));
      }
    }
  }

  // One page of a backing run: a page already mapped stays, a missing one gets a free frame.
  method BackPage(k: Kernel, ghost v: World, ghost s: nat, ghost from: nat, ghost to: nat, ghost end: nat,
                  ghost n: Node, table: nat, i: nat, flags: bv12)
    returns (got: bool)
    requires k.Frames() && Backing(v, k.W(), s, from, to, end, flags) && from <= to < end
    requires n.Node? && OnPath(k.W(), s, n, table) && Depth(n.path) == 3 && i < ENTRIES
    requires InRange(Step(n.path, i), to, to + 1)
    requires Backable(s, flags)
    modifies k`memory, k`available, k`own, k.bitmap
    ensures k.Frames() && Backing(v, k.W(), s, from, if got then to + 1 else to, end, flags)
    ensures PathsStay(old(k.W()), k.W(), s)
    ensures !got ==> k.W().free == {} && !Affordable(v, s, from, end - from)
  {
    hide Tagged, SeparateFrames, Spent, Lasting, Positions, Missing, Look, Backable, BuildAt, Backed, OnPath, PathsStay, InRange, Inv, WithPage, CanHoldPage, Owned, OwnGrows, Pool;
    ghost var w := k.W();
    OnPathTable(w, s, n, table);
    BuildInv(v, w, s, from, to, end);
    PathsSame(w, s);
    if k.memory[table][i] == EMPTY {
      var page := k.AllocPage();
      if page == 0 {
        assert k.W() == w;
        StepReads(w, s, n, i);
        PageIsPosition(from, to, end, Step(n.path, i));
        NotAfforded(v, w, s, Positions(from, end), Step(n.path, i));
        return false;
      }
      PageFits(w, s, n, i, page, flags);
      k.memory := Put(k.memory, table, i, Entry(page, flags));
      k.own := WithPage(w, n, i, page, flags).own;
      WithPageIs(w, n, i, page, flags);
      PageBuilt(v, w, s, from, to, end, n, i, page, flags);
      BackingPage(v, w, s, from, to, end, n, i, page, flags);
      PageSpends(v, w, s, from, to, end, n, i, page, flags);
      PageTagged(w, n, i, page, flags, to, to + 1, flags);
      TaggedOn(v, w, k.W(), from, end, to, to + 1, flags);
      PagePool(w, n, i, page, flags);
      OwnGrowsOn(v, w, k.W());
      BuildInv(v, k.W(), s, from, to + 1, end);
      InvBlank(k.W());
    } else {
      SkipBuilt(v, w, s, from, to, end);
      SkipBacked(v, w, s, from, to, end, flags, n, i);
    }
    return true;
  }

  lemma PathsSame(w: World, s: nat)
    ensures PathsStay(w, w, s)
  {
  }

  lemma PageFits(w: World, s: nat, n: Node, i: nat, g: nat, flags: bv12)
    requires IsTableAt(w, n) && OnPath(w, s, n, w.own[n]) && Depth(n.path) == 3 && i < ENTRIES
    requires Cell(w, n, i) == EMPTY && g in w.free && Backable(s, flags)
    ensures CanHoldPage(w, n, i, g, flags)
  {
  }

  lemma WithPageIs(w: World, n: Node, i: nat, g: nat, flags: bv12)
    requires IsTableAt(w, n) && i < ENTRIES
    ensures WithPage(w, n, i, g, flags) ==
            World(Put(w.memory, w.own[n], i, Entry(g, flags)), WithPage(w, n, i, g, flags).own, w.free - {g}, w.kind)
  {
  }

  // What a backing run has cost: a frame for each table that was missing and for each page.
  lemma BackingCost(v: World, w: World, s: nat, from: nat, to: nat, end: nat, flags: bv12)
    requires Backing(v, w, s, from, to, end, flags) && from <= to <= end
    ensures |v.free| == |w.free| + |Filled(v, w, s, TablesOver(from, end))| + |Missing(v, s, PagesOver(from, to))|
  {
    hide Tagged, Inv, BuildAt, SeparateFrames, Lasting, TablesOver, PagesOver, Look, OwnGrows, Pool, Fresh, InRange;
    BuildInv(v, w, s, from, to, end);
    TablesAreNoPages(from, end, from, end);
    FilledApart(v, w, s, TablesOver(from, end), PagesOver(from, end));
    forall q ensures q in Filled(v, w, s, PagesOver(from, end)) <==> q in Missing(v, s, PagesOver(from, to)) {
      PagesOverIs(from, end, q);
      PagesOverIs(from, to, q);
      SubRange(q, from, to, end);
      if InRange(q, from, to) {
        if Look(v, s, q) == EMPTY {
          FreshIsTaken(v, w, s, q, flags);
        }
      } else if InRange(q, from, end) {
        RangeIsPage(q, from, end);
        BuildFrom(v, w, s, from, to, end);
        BuildOutside(v, w, s, from, to, end, s, q);
      }
    }
    assert Filled(v, w, s, PagesOver(from, end)) == Missing(v, s, PagesOver(from, to));
  }

  lemma BuildFrom(v: World, w: World, s: nat, from: nat, to: nat, end: nat)
    requires BuildAt(v, w, s, from, to, end)
    ensures Walkable(v, s) && Walkable(w, s)
  {
    hide Inv, Reshaped, Open, Walkable;
  }

  lemma SubRange(q: Path, from: nat, to: nat, end: nat)
    requires from <= to <= end
    ensures InRange(q, from, to) ==> InRange(q, from, end)
  {
  }

  // A page outside the range is as it was.
  lemma BuildOutside(v: World, w: World, s: nat, from: nat, to: nat, end: nat, r: nat, q: Path)
    requires BuildAt(v, w, s, from, to, end) && Walkable(v, r) && IsPage(q) && !InRange(q, from, to)
    ensures Look(w, r, q) == Look(v, r, q)
  {
    hide Inv, Apart, OwnKept, NewOwn, NoLeak, NewTables, TablesKept, Open;
  }

  // A walk to a page passes all tables above it.
  lemma TableAbove(w: World, s: nat, q: Path, p: Path)
    requires IsPage(q) && Over(p, q) && Look(w, s, Up(q)) != EMPTY
    ensures IsTable(p) && Look(w, s, p) != EMPTY
  {
    var d4, d3, d2, d1 := DigitsOfPage(q);
    PagePathIs(d4, d3, d2, d1);
    LookDown(w, s, d4, d3, d2);
  }

  // A range whose pages are all there has all its tables.
  lemma AllThere(w: World, s: nat, from: nat, end: nat)
    requires forall q | InRange(q, from, end) :: Look(w, s, q) != EMPTY
    ensures forall p | p in Positions(from, end) :: Look(w, s, p) != EMPTY
  {
    hide Look, TablesOver, PagesOver, InRange, Over;
    forall p | p in Positions(from, end) ensures Look(w, s, p) != EMPTY {
      PagesOverIs(from, end, p);
      TablesOverIs(from, end, p);
      if !InRange(p, from, end) {
        var q :| InRange(q, from, end) && Over(p, q);
        RangeIsPage(q, from, end);
        PageAbove(w, s, q);
        TableAbove(w, s, q, p);
      }
    }
  }

  lemma PageAbove(w: World, s: nat, q: Path)
    requires IsPage(q) && Look(w, s, q) != EMPTY
    ensures Look(w, s, Up(q)) != EMPTY
  {
  }

  // A run that came to the end of its range, or of the address space, filled all that was missing.
  lemma BackingWhole(v: World, w: World, s: nat, from: nat, to: nat, end: nat, flags: bv12)
    requires Backing(v, w, s, from, to, end, flags) && from <= to <= end && (to == end || to >= PAGES)
    ensures Filled(v, w, s, TablesOver(from, end)) == Missing(v, s, TablesOver(from, end))
    ensures |Missing(v, s, Positions(from, end))| <= |v.free|
  {
    hide Tagged, Inv, BuildAt, SeparateFrames, Lasting, TablesOver, PagesOver, Look, OwnGrows, Pool, Fresh, Spent;
    BuildInv(v, w, s, from, to, end);
    forall q | InRange(q, from, end) ensures Look(w, s, q) != EMPTY {
      InsidePages(q);
      assert InRange(q, from, to);
      if Look(v, s, q) == EMPTY {
        FreshIsTaken(v, w, s, q, flags);
      }
    }
    AllThere(w, s, from, end);
    Afforded(v, w, s, Positions(from, end));
    assert forall p | p in TablesOver(from, end) :: p in Positions(from, end);
  }

  // The free frames suffice for the pages of a range that are missing and for the tables missing over them.
  ghost predicate Affordable(v: World, s: nat, from: nat, count: nat) {
    |Missing(v, s, Positions(from, from + count))| <= |v.free|
  }

  // The counter has gone down by the tables filled over the range and by the pages done that were missing; all
  // tables that were missing are filled if all pages are done.
  ghost predicate Charged(v: World, w: World, s: nat, from: nat, done: nat, count: nat, drop: int) {
    && drop == |Filled(v, w, s, TablesOver(from, from + count))| + |Missing(v, s, PagesOver(from, from + done))|
    && (done == count ==> Filled(v, w, s, TablesOver(from, from + count)) == Missing(v, s, TablesOver(from, from + count)))
  }

  lemma FramesCount(k: Kernel)
    requires k.Frames()
    ensures k.available == |k.W().free| + |k.withheld|
  {
  }

  // Backs `count` pages from `address` on. Answers false when the free frames do not suffice for the pages
  // and tables that are missing, or the range runs over the end of the address space; the pages before are
  // then backed and nothing else has changed.
  method Alloc(k: Kernel, ghost s: nat, pml4: nat, address: nat, count: nat, flags: bv12)
    returns (ok: bool, ghost done: nat)
    requires k.Valid() && Walkable(k.W(), s) && k.W().own[Node(s, Top)] == pml4
    requires count > 0 && Backable(s, flags)
    requires Open(k.W(), s, PageOf(address), PageOf(address) + count)
    modifies k`memory, k`available, k`own, k.bitmap
    ensures k.Valid()
    ensures done <= count && (ok <==> done == count)
    ensures ok <==> PageOf(address) + count <= PAGES && Affordable(old(k.W()), s, PageOf(address), count)
    ensures !ok ==> k.W().free == {} || PageOf(address) + done == PAGES
    ensures Charged(old(k.W()), k.W(), s, PageOf(address), done, count, old(k.available) - k.available)
    ensures SeparateFrames(old(k.W()), k.W(), s, PageOf(address), PageOf(address) + done)
    ensures Reshaped(old(k.W()), k.W(), s, PageOf(address), PageOf(address) + done, PageOf(address) + count)
    ensures Backed(old(k.W()), k.W(), s, PageOf(address), PageOf(address) + done, flags)
    ensures OwnGrows(old(k.W()), k.W()) && Pool(k.W()) == Pool(old(k.W()))
    ensures Open(k.W(), s, PageOf(address), PageOf(address) + count)
    ensures Tagged(old(k.W()), k.W(), PageOf(address), PageOf(address) + count, flags)
    ensures Granted(old(k.W()), k.W(), s, PageOf(address), PageOf(address) + done, flags)
  {
    OwnedIsProcess(flags);
    hide Tagged, Granted, Backing, OnPath, PathsStay, Inv, Reshaped, Open, Backed, OwnGrows, Pool, SeparateFrames, Backable, Affordable, Charged;
    hide Over, Depth, PageOf, Process, Owned, Digits, Index, IsPage, InRange, Number, Kernel.W, Kernel.Frames;
    assert Depth(Top) == 0 by { DepthTop(); }
    BackableProcess(s, flags);
    FramesCount(k);
    ghost var v, from := k.W(), PageOf(address);
    var left := count;
    done := 0;
    var p4: nat, p3: nat, p2: nat, p1: nat := Locate4(address);
    BackingStarts(v, s, from, from + count, flags);
    ghost var n4 := Node(s, Top);
    while p4 < ENTRIES
      invariant k.Frames() && Backing(v, k.W(), s, from, from + done, from + count, flags)
      invariant p4 <= ENTRIES && p3 < ENTRIES && p2 < ENTRIES && p1 < ENTRIES
      invariant p4 == ENTRIES ==> p3 == p2 == p1 == 0
      invariant Number(p4, p3, p2, p1) == from + done && done < count
      invariant left == count - done
    {
      ghost var u4 := k.W();
      BackingRoot(v, u4, s, from, from + done, from + count, flags);
      PagePathIs(p4, p3, p2, p1);
      var pml3, n3 := BackDown(k, v, s, from, from + done, from + count, n4, pml4, p4, flags, PagePath(p4, p3, p2, p1));
      if pml3 == 0 {
        AllocDone(k, v, s, from, done, count, flags);
        return false, done;
      }
      while p3 < ENTRIES
        invariant k.Frames() && Backing(v, k.W(), s, from, from + done, from + count, flags)
        invariant p4 < ENTRIES && p3 <= ENTRIES && p2 < ENTRIES && p1 < ENTRIES
        invariant p3 == ENTRIES ==> p2 == p1 == 0
        invariant Number(p4, p3, p2, p1) == from + done && done < count
        invariant left == count - done
        invariant OnPath(k.W(), s, n3, pml3)
      {
        ghost var u3 := k.W();
        PagePathIs(p4, p3, p2, p1);
        var pml2, n2 := BackDown(k, v, s, from, from + done, from + count, n3, pml3, p3, flags, PagePath(p4, p3, p2, p1));
        if pml2 == 0 {
          AllocDone(k, v, s, from, done, count, flags);
          return false, done;
        }
        StayOnPath(u3, k.W(), s, n3, pml3);
        while p2 < ENTRIES
          invariant k.Frames() && Backing(v, k.W(), s, from, from + done, from + count, flags)
          invariant p4 < ENTRIES && p3 < ENTRIES && p2 <= ENTRIES && p1 < ENTRIES
          invariant p2 == ENTRIES ==> p1 == 0
          invariant Number(p4, p3, p2, p1) == from + done && done < count
          invariant left == count - done
          invariant OnPath(k.W(), s, n3, pml3)
          invariant OnPath(k.W(), s, n2, pml2)
        {
          ghost var u2 := k.W();
          PagePathIs(p4, p3, p2, p1);
          var pml1, n1 := BackDown(k, v, s, from, from + done, from + count, n2, pml2, p2, flags, PagePath(p4, p3, p2, p1));
          if pml1 == 0 {
            AllocDone(k, v, s, from, done, count, flags);
            return false, done;
          }
          StayOnPath(u2, k.W(), s, n3, pml3);
          StayOnPath(u2, k.W(), s, n2, pml2);
          while p1 < ENTRIES
            invariant k.Frames() && Backing(v, k.W(), s, from, from + done, from + count, flags)
            invariant p4 < ENTRIES && p3 < ENTRIES && p2 < ENTRIES && p1 <= ENTRIES
            invariant Number(p4, p3, p2, p1) == from + done && done < count
            invariant left == count - done
            invariant OnPath(k.W(), s, n3, pml3)
            invariant OnPath(k.W(), s, n2, pml2)
            invariant OnPath(k.W(), s, n1, pml1)
          {
            ghost var u1 := k.W();
            PagePathIs(p4, p3, p2, p1);
            var got := BackPage(k, v, s, from, from + done, from + count, n1, pml1, p1, flags);
            if !got {
              AllocDone(k, v, s, from, done, count, flags);
              return false, done;
            }
            AllStay(u1, k.W(), s, n3, pml3, n2, pml2, n1, pml1);
            left, done := left - 1, done + 1;
            NotAtEnd(p4, p3, p2, p1);
            if left == 0 {
              AllocDone(k, v, s, from, done, count, flags);
              return true, done;
            }
            Carry(p4, p3, p2, p1);
            p1 := p1 + 1;
          }
          Carry(p4, p3, p2, p1);
          p1 := 0;
          p2 := p2 + 1;
        }
        Carry(p4, p3, p2, p1);
        p2 := 0;
        p3 := p3 + 1;
      }
      Carry(p4, p3, p2, p1);
      p3 := 0;
      p4 := p4 + 1;
    }
    AtEnd();
    AllocDone(k, v, s, from, done, count, flags);
    return false, done;
  }

  lemma BackableProcess(s: nat, flags: bv12)
    requires Backable(s, flags)
    ensures Process(flags) <==> s != KERNEL
  {
    OwnedIsProcess(flags);
  }

  // Where a backing run stands in the end.
  lemma AllocDone(k: Kernel, v: World, s: nat, from: nat, done: nat, count: nat, flags: bv12)
    requires k.Frames() && Backing(v, k.W(), s, from, from + done, from + count, flags) && done <= count
    ensures k.Valid() && Reshaped(v, k.W(), s, from, from + done, from + count) && Open(k.W(), s, from, from + count)
    ensures Backed(v, k.W(), s, from, from + done, flags) && SeparateFrames(v, k.W(), s, from, from + done)
    ensures OwnGrows(v, k.W()) && Pool(k.W()) == Pool(v)
    ensures Tagged(v, k.W(), from, from + count, flags) && Granted(v, k.W(), s, from, from + done, flags)
    ensures Charged(v, k.W(), s, from, done, count, |v.free| + |k.withheld| - k.available)
    ensures done == count || from + done >= PAGES ==> Affordable(v, s, from, count)
  {
    hide Tagged, Granted, Backing, Inv, Reshaped, Open, Backed, SeparateFrames, OwnGrows, Pool, Missing, Filled, Positions, TablesOver, PagesOver;
    BackingDone(v, k.W(), s, from, from + done, from + count, flags);
    BackingCost(v, k.W(), s, from, from + done, from + count, flags);
    if done == count || from + done >= PAGES {
      BackingWhole(v, k.W(), s, from, from + done, from + count, flags);
    }
  }

  // ---- reading and taking out one page ---------------------------------------------------------

  // The last-level table above an address, and the entry in it; every table on the way is there.
  method Follow(k: Kernel, ghost s: nat, pml4: nat, address: nat)
    returns (pml1: nat, p1: nat, ghost n: Node)
    requires Inv(k.W()) && Walkable(k.W(), s) && k.W().own[Node(s, Top)] == pml4
    requires Look(k.W(), s, Up(PageAt(PageOf(address)))) != EMPTY
    ensures n.Node? && IsTableAt(k.W(), n) && Depth(n.path) == 3 && p1 < ENTRIES && n.space in k.W().kind
    ensures Passes(k.W(), s, n.space) && k.W().own[n] == pml1
    ensures Step(n.path, p1) == PageAt(PageOf(address))
    ensures Look(k.W(), s, n.path) != EMPTY && Look(k.W(), s, n.path).frame == pml1
    ensures n.space != KERNEL <==> Process(Look(k.W(), s, n.path).flags)
    ensures Look(k.W(), s, PageAt(PageOf(address))) == k.memory[pml1][p1]
  {
    ghost var w := k.W();
    var p4: nat, p3: nat, p2: nat, p1': nat := Locate4(address);
    p1 := p1';
    ghost var q := PageAt(PageOf(address));
    PageAtIs(PageOf(address));
    PagePathIs(p4, p3, p2, p1);
    IndexInjective(q, PagePath(p4, p3, p2, p1));
    LookDown(w, s, p4, p3, p2);
    hide Inv;
    ghost var t4 := Locate(w, s, Top);
    ghost var t3 := Locate(w, s, Step(Top, p4));
    ghost var t2 := Locate(w, s, Step(Step(Top, p4), p3));
    ghost var t1 := Locate(w, s, Step(Step(Step(Top, p4), p3), p2));
    OwnedPlace(w, Node(t3, Step(Top, p4)));
    OwnedPlace(w, Node(t2, Step(Step(Top, p4), p3)));
    OwnedPlace(w, Node(t1, Step(Step(Step(Top, p4), p3), p2)));
    OwnedPlace(w, Node(t4, Top));
    var pml3 := k.memory[pml4][p4].frame;
    var pml2 := k.memory[pml3][p3].frame;
    pml1 := k.memory[pml2][p2].frame;
    n := Node(t1, Step(Step(Step(Top, p4), p3), p2));
  }

  lemma OwnedPlace(w: World, n: Node)
    requires Inv(w) && n in w.own
    ensures 0 < w.own[n] < |w.memory| && (n.Node? ==> n.space in w.kind)
  {
  }

  // A walk that gets to a last-level table found every table above it.
  lemma LookDown(w: World, s: nat, p4: nat, p3: nat, p2: nat)
    requires p4 < ENTRIES && p3 < ENTRIES && p2 < ENTRIES
    requires Look(w, s, Step(Step(Step(Top, p4), p3), p2)) != EMPTY
    ensures Look(w, s, Top) != EMPTY && Look(w, s, Step(Top, p4)) != EMPTY && Look(w, s, Step(Step(Top, p4), p3)) != EMPTY
  {
    assert Look(w, s, Step(Step(Top, p4), p3)) != EMPTY;
    assert Look(w, s, Step(Top, p4)) != EMPTY;
  }

  // The frame behind an address.
  method Address(k: Kernel, ghost s: nat, pml4: nat, address: nat) returns (frame: nat)
    requires Inv(k.W()) && Walkable(k.W(), s) && k.W().own[Node(s, Top)] == pml4
    requires Look(k.W(), s, Up(PageAt(PageOf(address)))) != EMPTY
    ensures frame == Look(k.W(), s, PageAt(PageOf(address))).frame
  {
    var pml1, p1, n := Follow(k, s, pml4, address);
    frame := k.memory[pml1][p1].frame;
  }

  // Page q of space s is taken out, in the table of space t it was in.
  ghost predicate Removed(v: World, w: World, s: nat, t: nat, q: Path) {
    && w.kind == v.kind && w.free == v.free && |w.memory| == |v.memory|
    && w.own == v.own - {Node(t, q)}
    && Look(w, s, q) == EMPTY
    && forall r, p | Walkable(v, r) && Digits(p) && Depth(p) <= 4 ::
         Look(w, r, p) == if p == q && SameTable(v, r, s, Up(q)) then EMPTY else Look(v, r, p)
  }

  lemma LeafRemoved(w: World, s: nat, n: Node, i: nat)
    requires Inv(w) && IsTableAt(w, n) && OnPath(w, s, n, w.own[n]) && CanHoldLeaf(w, n, i, EMPTY)
    requires IsPage(Step(n.path, i))
    ensures Removed(w, WithLeaf(w, n, i, EMPTY), s, n.space, Step(n.path, i))
  {
    NothingOwned();
    hide Inv, CanHoldLeaf;
    LeafReads(w, s, n, i, EMPTY, Step(n.path, i));
    forall r, p | Walkable(w, r) && Digits(p) && Depth(p) <= 4
      ensures Look(WithLeaf(w, n, i, EMPTY), r, p) ==
              if p == Step(n.path, i) && SameTable(w, r, s, n.path) then EMPTY else Look(w, r, p)
    {
      LeafWalk(w, n, i, EMPTY, r, p);
    }
  }

  lemma NothingOwned()
    ensures !Process(EMPTY.flags) && !Owned(EMPTY.flags)
  {
  }

  lemma RemovedFrame(w: World, n: Node, i: nat)
    requires Inv(w) && IsTableAt(w, n) && Depth(n.path) == 3 && i < ENTRIES && n.space in w.kind && n.space != KERNEL
    ensures CanHoldLeaf(w, n, i, EMPTY)
    ensures Owned(Cell(w, n, i).flags) ==>
              && Names(w, Node(n.space, Step(n.path, i)), Cell(w, n, i).frame)
              && Limbo(WithLeaf(w, n, i, EMPTY), Cell(w, n, i).frame)
  {
    NothingOwned();
    hide Hangs, Kinds, Blank;
    if Owned(Cell(w, n, i).flags) {
      assert Cell(w, n, i) != EMPTY;
      assert Typed(w, n, i);
    }
  }

  lemma PageOfBound(address: nat)
    ensures PageOf(address) < PAGES
  {
  }

  // A walk that comes to a last-level table of the space's own may write there.
  lemma WalkEndsHere(w: World, s: nat, n: Node, table: nat)
    requires Inv(w) && Walkable(w, s) && IsTableAt(w, n) && w.own[n] == table && n.space in w.kind
    requires Look(w, s, n.path) != EMPTY && Look(w, s, n.path).frame == table && Passes(w, s, n.space)
    requires n.space != KERNEL
    ensures OnPath(w, s, n, table) && Digits(n.path)
  {
    hide Injective, Blank, Hangs, Tables;
  }

  // Clearing what is clear changes nothing.
  lemma NothingRemoved(w: World, n: Node, i: nat)
    requires Inv(w) && IsTableAt(w, n) && i < ENTRIES && Cell(w, n, i) == EMPTY
    ensures Put(w.memory, w.own[n], i, EMPTY) == w.memory && WithLeaf(w, n, i, EMPTY).own == w.own
  {
    NothingOwned();
    EmptyOwnsNothing(w, n, i);
    assert w.memory[w.own[n]][i := EMPTY] == w.memory[w.own[n]];
  }

  // Takes the page behind an address out of the tables and answers its frame; a shared page stays, and the
  // answer is 0, as it is if nothing was there.
  method Remove(k: Kernel, ghost s: nat, pml4: nat, address: nat) returns (frame: nat, ghost t: nat)
    requires k.Valid() && Walkable(k.W(), s) && k.W().own[Node(s, Top)] == pml4
    requires Look(k.W(), s, Up(PageAt(PageOf(address)))) != EMPTY
    requires Process(Look(k.W(), s, Up(PageAt(PageOf(address)))).flags)
    modifies k`memory, k`own
    ensures k.Valid()
    ensures Passes(old(k.W()), s, t) && t != KERNEL
    ensures var e := old(Look(k.W(), s, PageAt(PageOf(address))));
            if Shared(e.flags) || e == EMPTY then frame == 0 && k.W() == old(k.W())
            else
              && frame == e.frame
              && Removed(old(k.W()), k.W(), s, t, PageAt(PageOf(address)))
              && (Owned(e.flags) ==> Names(old(k.W()), Node(t, PageAt(PageOf(address))), frame) && Limbo(k.W(), frame))
  {
    hide Inv, PageOf, PageAt, Removed, CanHoldLeaf, Limbo, WithLeaf, Look, Walkable, Blank, Passes, Process;
    ghost var w := k.W();
    var pml1, p1, n := Follow(k, s, pml4, address);
    PageAtIs(PageOf(address)) by { PageOfBound(address); }
    WalkEndsHere(w, s, n, pml1);
    t := n.space;
    var removed := k.memory[pml1][p1];
    if Shared(removed.flags) {
      return 0, t;
    }
    if removed == EMPTY {
      NothingRemoved(w, n, p1);
    }
    RemovedFrame(w, n, p1);
    LeafRemoved(w, s, n, p1);
    LeafKeepsInv(w, n, p1, EMPTY);
    k.memory := Put(k.memory, pml1, p1, EMPTY);
    k.own := WithLeaf(w, n, p1, EMPTY).own;
    WithLeafIs(w, n, p1, EMPTY);
    InvBlank(k.W());
    frame := removed.frame;
  }
}
