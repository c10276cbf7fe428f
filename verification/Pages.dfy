// Pages by number, and what a run over a range of pages costs.
module Pages {
  import opened Layout
  import opened Spaces
  import opened Reshaping

  const PAGES := 0x10_0000_0000

  function PagePath(p4: nat, p3: nat, p2: nat, p1: nat): Path {
    Step(Step(Step(Step(Top, p4), p3), p2), p1)
  }

  function Number(p4: nat, p3: nat, p2: nat, p1: nat): nat {
    ((p4 * ENTRIES + p3) * ENTRIES + p2) * ENTRIES + p1
  }

  // Counting on from one page to the next, with carries.
  lemma Carry(p4: nat, p3: nat, p2: nat, p1: nat)
    ensures Number(p4, p3, p2, p1 + 1) == Number(p4, p3, p2, p1) + 1
    ensures p1 == ENTRIES ==> Number(p4, p3, p2, p1) == Number(p4, p3, p2 + 1, 0)
    ensures p2 == ENTRIES ==> Number(p4, p3, p2, p1) == Number(p4, p3 + 1, 0, p1)
    ensures p3 == ENTRIES ==> Number(p4, p3, p2, p1) == Number(p4 + 1, 0, p2, p1)
    ensures p4 >= ENTRIES ==> Number(p4, p3, p2, p1) >= PAGES
  {
  }

  lemma DepthTop()
    ensures Depth(Top) == 0
  {
  }

  lemma PagePathIs(p4: nat, p3: nat, p2: nat, p1: nat)
    requires p4 < ENTRIES && p3 < ENTRIES && p2 < ENTRIES && p1 < ENTRIES
    ensures IsPage(PagePath(p4, p3, p2, p1)) && Index(PagePath(p4, p3, p2, p1)) == Number(p4, p3, p2, p1)
    ensures InRange(PagePath(p4, p3, p2, p1), Number(p4, p3, p2, p1), Number(p4, p3, p2, p1) + 1)
    ensures Over(Step(Top, p4), PagePath(p4, p3, p2, p1))
    ensures Over(Step(Step(Top, p4), p3), PagePath(p4, p3, p2, p1))
    ensures Over(Step(Step(Step(Top, p4), p3), p2), PagePath(p4, p3, p2, p1))
    ensures Depth(Step(Top, p4)) == 1 && Depth(Step(Step(Top, p4), p3)) == 2
    ensures Depth(Step(Step(Step(Top, p4), p3), p2)) == 3
  {
    var a := Step(Top, p4);
    var b := Step(a, p3);
    var c := Step(b, p2);
    assert Depth(a) == 1 && Digits(a) && Index(a) == p4;
    assert Depth(b) == 2 && Digits(b) && Index(b) == p4 * ENTRIES + p3;
    assert Depth(c) == 3 && Digits(c) && Index(c) == (p4 * ENTRIES + p3) * ENTRIES + p2;
  }

  // The position of page number v.
  function PageAt(v: nat): Path {
    PagePath(v / 0x800_0000, v / 0x4_0000 % ENTRIES, v / 0x200 % ENTRIES, v % ENTRIES)
  }

  lemma PageAtIs(v: nat)
    requires v < PAGES
    ensures IsPage(PageAt(v)) && Index(PageAt(v)) == v
  {
    PagePathIs(v / 0x800_0000, v / 0x4_0000 % ENTRIES, v / 0x200 % ENTRIES, v % ENTRIES);
  }

  lemma DigitsOfPage(q: Path) returns (d4: nat, d3: nat, d2: nat, d1: nat)
    requires IsPage(q)
    ensures q == PagePath(d4, d3, d2, d1) && d4 < ENTRIES && d3 < ENTRIES && d2 < ENTRIES && d1 < ENTRIES
  {
    assert Depth(q.up) == 3 && Digits(q.up);
    assert Depth(q.up.up) == 2 && Digits(q.up.up);
    assert Depth(q.up.up.up) == 1 && Digits(q.up.up.up);
    assert Depth(q.up.up.up.up) == 0;
    d4, d3, d2, d1 := q.up.up.up.digit, q.up.up.digit, q.up.digit, q.digit;
  }

  lemma NotAtEnd(p4: nat, p3: nat, p2: nat, p1: nat)
    requires p4 < ENTRIES && p3 < ENTRIES && p2 < ENTRIES && p1 < ENTRIES
    ensures Number(p4, p3, p2, p1) < PAGES
  {
  }

  lemma AtEnd()
    ensures Number(ENTRIES, 0, 0, 0) == PAGES
  {
  }

  lemma InsidePages(q: Path)
    requires IsPage(q)
    ensures Index(q) < PAGES
  {
    var d4, d3, d2, d1 := DigitsOfPage(q);
    PagePathIs(d4, d3, d2, d1);
    NotAtEnd(d4, d3, d2, d1);
  }

  // ---- what a run costs ------------------------------------------------------------------------

  // The pages from..to.
  ghost function PagesOver(from: nat, to: nat): set<Path> {
    set x: nat | from <= x < to && x < PAGES :: PageAt(x)
  }

  // The table positions a walk to one of the pages from..to passes below the top table.
  ghost function TablesOver(from: nat, to: nat): set<Path> {
    (set x: nat | from <= x < to && x < PAGES :: Up(PageAt(x)))
    + (set x: nat | from <= x < to && x < PAGES :: Up(Up(PageAt(x))))
    + (set x: nat | from <= x < to && x < PAGES :: Up(Up(Up(PageAt(x)))))
  }

  lemma PagesOverIs(from: nat, to: nat, q: Path)
    ensures q in PagesOver(from, to) <==> InRange(q, from, to)
  {
    if InRange(q, from, to) {
      InsidePages(q);
      PageAtIs(Index(q));
      IndexInjective(q, PageAt(Index(q)));
    }
    if q in PagesOver(from, to) {
      var x: nat :| from <= x < to && x < PAGES && q == PageAt(x);
      PageAtIs(x);
    }
  }

  lemma TablesOverIs(from: nat, to: nat, p: Path)
    ensures p in TablesOver(from, to) <==> Needed(p, from, to)
  {
    if Needed(p, from, to) {
      var q :| InRange(q, from, to) && Over(p, q);
      InsidePages(q);
      PageAtIs(Index(q));
      IndexInjective(q, PageAt(Index(q)));
      assert from <= Index(q) < to && Index(q) < PAGES;
    }
    if p in TablesOver(from, to) {
      var x: nat :| from <= x < to && x < PAGES && (p == Up(PageAt(x)) || p == Up(Up(PageAt(x))) || p == Up(Up(Up(PageAt(x)))));
      PageAtIs(x);
      assert InRange(PageAt(x), from, to) && Over(p, PageAt(x));
    }
  }

  lemma NeededTable(p: Path, from: nat, to: nat)
    requires Needed(p, from, to)
    ensures IsTable(p) && p.Step?
  {
    var q :| InRange(q, from, to) && Over(p, q);
    var d4, d3, d2, d1 := DigitsOfPage(q);
    PagePathIs(d4, d3, d2, d1);
  }

  lemma TablesWithin(from: nat, to: nat, start: nat, end: nat)
    requires start <= from && to <= end
    ensures TablesOver(from, to) <= TablesOver(start, end)
  {
  }

  // Of some positions, those where a walk of the space finds nothing.
  ghost function Missing(w: World, s: nat, ps: set<Path>): set<Path> {
    set p | p in ps && Look(w, s, p) == EMPTY
  }

  // Of some positions, those that came to be filled.
  ghost function Filled(v: World, w: World, s: nat, ps: set<Path>): set<Path> {
    set p | p in ps && Look(v, s, p) == EMPTY && Look(w, s, p) != EMPTY
  }

  // Every frame that is not free any more filled one position.
  ghost predicate Spent(v: World, w: World, s: nat, ps: set<Path>) {
    |v.free| == |w.free| + |Filled(v, w, s, ps)|
  }

  // Nothing was emptied.
  ghost predicate Lasting(v: World, w: World, s: nat, ps: set<Path>) {
    forall p | p in ps && Look(v, s, p) != EMPTY :: Look(w, s, p) != EMPTY
  }

  // One frame less is free, and one position is filled that was not.
  ghost predicate OneFilled(w: World, x: World, s: nat, c: Path, g: nat) {
    && g in w.free && x.free == w.free - {g}
    && Look(w, s, c) == EMPTY && Look(x, s, c) != EMPTY
    && forall p | Digits(p) && Depth(p) <= 4 && p != c :: Look(x, s, p) == Look(w, s, p)
  }

  lemma SpentNothing(w: World, s: nat, ps: set<Path>)
    ensures Spent(w, w, s, ps) && Lasting(w, w, s, ps)
  {
    assert Filled(w, w, s, ps) == {};
  }

  lemma SpentOne(v: World, w: World, x: World, s: nat, ps: set<Path>, c: Path, g: nat)
    requires Spent(v, w, s, ps) && Lasting(v, w, s, ps) && OneFilled(w, x, s, c, g) && c in ps
    requires forall p | p in ps :: Digits(p) && Depth(p) <= 4
    ensures Spent(v, x, s, ps) && Lasting(v, x, s, ps)
  {
    hide Look, Digits, Depth;
    assert Filled(v, x, s, ps) == Filled(v, w, s, ps) + {c};
  }

  lemma SpentSame(v: World, w: World, x: World, s: nat, ps: set<Path>)
    requires Spent(v, w, s, ps) && Lasting(v, w, s, ps) && x.free == w.free
    requires forall p | p in ps :: Look(x, s, p) == EMPTY <==> Look(w, s, p) == EMPTY
    ensures Spent(v, x, s, ps) && Lasting(v, x, s, ps)
  {
    hide Look;
    assert Filled(v, x, s, ps) == Filled(v, w, s, ps);
  }

  // What was needed sufficed.
  lemma Afforded(v: World, w: World, s: nat, ps: set<Path>)
    requires Spent(v, w, s, ps) && forall p | p in ps :: Look(w, s, p) != EMPTY
    ensures Filled(v, w, s, ps) == Missing(v, s, ps) && |Missing(v, s, ps)| <= |v.free|
  {
    hide Look;
  }

  // It did not: everything is spent and a position is not filled.
  lemma NotAfforded(v: World, w: World, s: nat, ps: set<Path>, c: Path)
    requires Spent(v, w, s, ps) && Lasting(v, w, s, ps) && w.free == {} && c in ps && Look(w, s, c) == EMPTY
    ensures |Missing(v, s, ps)| > |v.free|
  {
    hide Look;
    SubsetSize(Filled(v, w, s, ps) + {c}, Missing(v, s, ps));
  }

  lemma {:induction false} SubsetSize(a: set<Path>, b: set<Path>)
    requires a <= b
    ensures |a| <= |b|
  {
    if a != {} {
      var p :| p in a;
      SubsetSize(a - {p}, b - {p});
    }
  }

  // Positions of two kinds, each counted.
  lemma FilledApart(v: World, w: World, s: nat, ps: set<Path>, qs: set<Path>)
    requires ps !! qs
    ensures |Filled(v, w, s, ps + qs)| == |Filled(v, w, s, ps)| + |Filled(v, w, s, qs)|
    ensures |Missing(v, s, ps + qs)| == |Missing(v, s, ps)| + |Missing(v, s, qs)|
  {
    hide Look;
    assert Filled(v, w, s, ps + qs) == Filled(v, w, s, ps) + Filled(v, w, s, qs);
    assert Missing(v, s, ps + qs) == Missing(v, s, ps) + Missing(v, s, qs);
  }

  lemma TablesAreNoPages(from: nat, to: nat, start: nat, end: nat)
    ensures TablesOver(from, to) !! PagesOver(start, end)
    ensures forall p | p in TablesOver(from, to) + PagesOver(start, end) :: Digits(p) && Depth(p) <= 4
    ensures forall p | p in TablesOver(from, to) :: IsTable(p) && p.Step?
  {
    forall p | p in TablesOver(from, to) ensures IsTable(p) && p.Step? {
      TablesOverIs(from, to, p);
      NeededTable(p, from, to);
    }
    forall p | p in PagesOver(start, end) ensures IsPage(p) {
      PagesOverIs(start, end, p);
    }
  }
}
