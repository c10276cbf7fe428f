// States in which sharing memory goes wrong: no frame for a table, and no place in the target's map.
module Failing {
  import opened Bitmap
  import opened Layout
  import opened Spaces
  import opened Memory
  import opened Reshaping
  import opened Pages
  import opened Paging
  import opened Merging
  import opened Lifecycle
  import opened UserMemory
  import opened Sharing
  import opened Connecting

  const LIMIT := 0x120
  // Two processes, and a frame that is nobody's.
  const SPARSE := 1
  const FULL := 2
  const ELSEWHERE := 10

  const LOW := Step(Top, 0)
  const LOWER := Step(LOW, 0)
  const LOWEST := Step(LOWER, 0)

  predicate Taken(i: nat) {
    FIRST_PAGE <= i < LIMIT
  }

  function Pointing(g: nat): Page {
    ZeroPage()[0 := Entry(g, USER_PAGE)]
  }

  // The pages of the full process: all that are managed, shown to it by others.
  function Leaves(): Page {
    seq(ENTRIES, i requires 0 <= i < ENTRIES => if Taken(i) then Entry(ELSEWHERE, SHARED_PAGE) else EMPTY)
  }

  // Frame 1 is the kernel's top table, 2 to 5 are the tables of the sparse process, 6 to 9 those of the full one.
  function FrameOf(f: nat): Page {
    if 2 <= f <= 4 || 6 <= f <= 8 then Pointing(f + 1) else if f == 9 then Leaves() else ZeroPage()
  }

  function Owners(): map<Node, nat> {
    map[Node(KERNEL, Top) := 1,
        Node(SPARSE, Top) := 2, Node(SPARSE, LOW) := 3, Node(SPARSE, LOWER) := 4, Node(SPARSE, LOWEST) := 5,
        Node(FULL, Top) := 6, Node(FULL, LOW) := 7, Node(FULL, LOWER) := 8, Node(FULL, LOWEST) := 9]
  }

  // Both have the tables over their first 512 pages. No frame is free.
  ghost function Scene(): World {
    World(seq(LIMIT, f requires 0 <= f < LIMIT => FrameOf(f)), Owners(), {}, map[KERNEL := Solo, SPARSE := Solo, FULL := Solo])
  }

  lemma OwnersAre(n: Node)
    ensures n in Owners() <==>
              || n == Node(KERNEL, Top)
              || (n.Node? && (n.space == SPARSE || n.space == FULL) && (n.path == Top || n.path == LOW || n.path == LOWER || n.path == LOWEST))
    ensures n in Owners() ==> n.Node? && 0 < Owners()[n] < 10 && Depth(n.path) < 4 && Digits(n.path) && n.space <= 2
    ensures n in Owners() ==> Owners()[n] == (if n.space == KERNEL then 1 else if n.space == SPARSE then 2 else 6) + Depth(n.path)
  {
    assert Depth(Top) == 0 && Depth(LOW) == 1 && Depth(LOWER) == 2 && Depth(LOWEST) == 3;
    assert Digits(LOW) && Digits(LOWER) && Digits(LOWEST);
  }

  lemma OneNode(m: Node, n: Node)
    requires m in Owners() && n in Owners() && Owners()[m] == Owners()[n]
    ensures m == n
  {
    hide Owners;
    OwnersAre(m);
    OwnersAre(n);
  }

  lemma SceneFrames()
    ensures Placed(Scene()) && Injective(Scene()) && Blank(Scene()) && Kinds(Scene())
  {
    hide Owners;
    forall n ensures n in Owners() ==> n.Node? && 0 < Owners()[n] < 10 && Depth(n.path) < 4 && Digits(n.path) && n.space <= 2 {
      OwnersAre(n);
    }
    forall m, n | m in Owners() && n in Owners() && Owners()[m] == Owners()[n] ensures m == n {
      OneNode(m, n);
    }
    OwnersAre(Node(KERNEL, Top));
    OwnersAre(Node(SPARSE, Top));
    OwnersAre(Node(FULL, Top));
  }

  lemma PointingIs(g: nat, i: nat)
    requires i < ENTRIES
    ensures Pointing(g)[i] == if i == 0 then Entry(g, USER_PAGE) else EMPTY
    ensures Entry(g, PRESENT) != EMPTY && Entry(g, USER_PAGE) != EMPTY
  {
  }

  // Entries of the tables above the last level point at the table below, if there is one.
  lemma CellIs(n: Node, i: nat)
    requires n in Owners() && n.Node? && i < ENTRIES
    ensures IsTableAt(Scene(), n)
    ensures Depth(n.path) < 3 ==>
              Cell(Scene(), n, i) ==
              if i == 0 && Node(n.space, Step(n.path, 0)) in Owners() then Entry(Owners()[n] + 1, USER_PAGE) else EMPTY
    ensures Depth(n.path) == 3 ==> Cell(Scene(), n, i) == EMPTY || Cell(Scene(), n, i) == Entry(ELSEWHERE, SHARED_PAGE)
  {
    hide Owners, Pointing;
    OwnersAre(n);
    OwnersAre(Node(n.space, Step(n.path, 0)));
    PointingIs(Owners()[n] + 1, i);
  }

  lemma ParentIs(n: Node)
    requires n in Owners() && n.Node? && n.path.Step?
    ensures n.path.digit == 0 && n.space != KERNEL && Node(n.space, n.path.up) in Owners()
    ensures Owners()[n] == Owners()[Node(n.space, n.path.up)] + 1
    ensures 0 < Depth(n.path) < 4
  {
    hide Owners;
    OwnersAre(n);
    OwnersAre(Node(n.space, n.path.up));
  }

  lemma UserFlags()
    ensures Process(USER_PAGE) && Owned(USER_PAGE) && Process(SHARED_PAGE) && !Owned(SHARED_PAGE)
  {
  }

  lemma SceneInv()
    ensures Inv(Scene())
  {
    SceneFrames();
    UserFlags();
    hide Owners, Placed, Injective, Blank, Process, Owned;
    var w := Scene();
    forall n ensures n in Owners() ==> n.Node? && n.space <= 2 {
      OwnersAre(n);
    }
    forall n | n in w.own ensures Hung(w, n) {
      if n.Node? && n.path.Step? {
        ParentIs(n);
        CellIs(Node(n.space, n.path.up), 0);
      }
    }
    forall n, i: nat | IsTableAt(w, n) && i < ENTRIES ensures Typed(w, n, i) {
      CellIs(n, i);
      OwnersAre(n);
      if Cell(w, n, i) != EMPTY && Depth(n.path) < 3 {
        ParentIs(Node(n.space, Step(n.path, 0)));
      }
    }
  }

  // ---- what the processes read -----------------------------------------------------------------

  // The first table of a process.
  function First(s: nat): nat {
    if s == SPARSE then 2 else 6
  }

  lemma TopReads(s: nat)
    requires s == SPARSE || s == FULL
    ensures Walkable(Scene(), s) && Group(Scene(), s) == s && Look(Scene(), s, Top) == Entry(First(s), PRESENT)
  {
    hide FrameOf;
    OwnersAre(Node(s, Top));
  }

  lemma StepReads(s: nat, up: Path, i: nat)
    requires HasSpace(Scene(), s)
    ensures Look(Scene(), s, Step(up, i)) ==
            var e := Look(Scene(), s, up);
            if e == EMPTY || e.frame >= LIMIT || i >= ENTRIES then EMPTY else FrameOf(e.frame)[i]
  {
    hide FrameOf, Owners;
  }

  // Above the last level a process reads its tables and nothing else.
  lemma {:induction false} TableReads(s: nat, p: Path)
    requires (s == SPARSE || s == FULL) && 0 < Depth(p) < 4
    ensures Look(Scene(), s, p) == if p == LOW || p == LOWER || p == LOWEST then Entry(First(s) + Depth(p), USER_PAGE) else EMPTY
  {
    TopReads(s);
    StepReads(s, p.up, p.digit);
    PointingIs(First(s) + Depth(p), if p.digit < ENTRIES then p.digit else 0);
    PointingIs(First(s) + Depth(p) - 1, 0);
    hide Look, Pointing;
    if p.up.Step? {
      TableReads(s, p.up);
    }
  }

  lemma PageReads(s: nat, x: nat)
    requires (s == SPARSE || s == FULL) && x < 2 * ENTRIES
    ensures Look(Scene(), s, PageAt(x)) == if s == FULL && Taken(x) then Entry(ELSEWHERE, SHARED_PAGE) else EMPTY
    ensures x < ENTRIES ==> Up(PageAt(x)) == LOWEST
  {
    PageAtIs(x);
    TopReads(s);
    TableReads(s, Up(PageAt(x)));
    StepReads(s, Up(PageAt(x)), x % ENTRIES);
    PointingIs(0, 0);
    hide Look, Pointing;
  }

  lemma SourceReads(s: nat, r: nat, n: nat)
    requires (s == SPARSE && r == FULL) || (s == FULL && r == SPARSE)
    requires n <= ENTRIES
    ensures Connecting.Source(Scene(), s, r, 0, n)
  {
    TopReads(r);
    TopReads(s);
    TableReads(r, LOWEST);
    PointingIs(First(r) + 3, 0);
    hide Look, Pointing;
    forall x: nat | x < n ensures Look(Scene(), r, Up(PageAt(x))) != EMPTY {
      PageReads(r, x);
    }
  }

  lemma IsLowReady(s: nat)
    requires s == SPARSE || s == FULL
    ensures LowReady(Scene(), s) && KernelLow(Scene())
  {
    TopReads(s);
    TableReads(s, LOW);
    PointingIs(First(s) + 1, 0);
    OwnersAre(Node(KERNEL, LOW));
    hide Look, Pointing, Owners;
  }

  // ---- no frame --------------------------------------------------------------------------------

  // A map of so many words, all pages from the first one on free.
  function Words(n: nat): seq<bv32> {
    seq(n, i => if i < 8 then 0 else 0xFFFF_FFFF)
  }

  const MANY := ENTRIES - FIRST_PAGE + 1

  lemma SparseIsUsable()
    ensures Usable(Scene(), SPARSE, Words(17))
    ensures forall x: nat :: x in Free(Words(17)) <==> FIRST_PAGE <= x < WORD_BITS * 17
  {
    FilledMap(Words(17));
    IsLowReady(SPARSE);
    TopReads(SPARSE);
    hide Free, Look, LowReady, KernelLow;
    forall x: nat | x < WORD_BITS * |Words(17)| ensures AgreesAt(Scene(), SPARSE, Words(17), x) {
      PageReads(SPARSE, x);
    }
  }

  lemma ManyFit(words: seq<bv32>)
    requires |words| == 17 && forall x: nat :: x in Free(words) <==> FIRST_PAGE <= x < WORD_BITS * 17
    ensures FirstFit(Free(words), LIMIT, MANY, FIRST_PAGE) && !NoFit(Free(words), LIMIT, MANY) && Bitmap.Bounded(words, LIMIT, MANY)
  {
    hide Free;
    forall q: nat | q < FIRST_PAGE ensures !Bitmap.Fits(Free(words), q, MANY) {
      assert q !in Free(words);
    }
    assert Bitmap.Fits(Free(words), FIRST_PAGE, MANY);
  }

  lemma OneMissing()
    ensures !Suffices(Scene(), SPARSE, FIRST_PAGE, MANY)
  {
    var c := Step(LOWER, 1);
    TableReads(SPARSE, c);
    PageAtIs(ENTRIES);
    hide Look;
    assert Up(PageAt(ENTRIES)) == c;
    assert Over(c, PageAt(ENTRIES)) && InRange(PageAt(ENTRIES), FIRST_PAGE, FIRST_PAGE + MANY);
    TablesOverIs(FIRST_PAGE, FIRST_PAGE + MANY, c);
    assert c in Missing(Scene(), SPARSE, TablesOver(FIRST_PAGE, FIRST_PAGE + MANY));
  }

  // The pages fit in the target's map, and one of them needs a table for which no frame is free.
  lemma NoFrame()
    ensures var w := Scene();
            var words := Words(17);
            && Inv(w) && |w.memory| == LIMIT && Usable(w, SPARSE, words) && Connecting.Source(w, SPARSE, FULL, 0, MANY)
            && Bitmap.Bounded(words, LIMIT, MANY) && !NoFit(Free(words), LIMIT, MANY) && !Holds(w, SPARSE, Free(words), LIMIT, MANY)
  {
    hide Inv, Usable, Connecting.Source, Free, Suffices, Words, Scene, Bitmap.Bounded;
    SceneInv();
    SceneSize();
    SourceReads(SPARSE, FULL, MANY);
    SparseIsUsable();
    ManyFit(Words(17)) by { assert |Words(17)| == 17 by { WordsSize(17); } }
    OneMissing();
  }

  lemma SceneSize()
    ensures |Scene().memory| == LIMIT
  {
  }

  lemma WordsSize(n: nat)
    ensures |Words(n)| == n
  {
  }

  // ---- no place --------------------------------------------------------------------------------

  lemma FullIsUsable()
    ensures Usable(Scene(), FULL, seq(9, _ => 0)) && Free(seq(9, _ => 0)) == {}
  {
    var words: seq<bv32> := seq(9, _ => 0);
    NothingFree(words);
    IsLowReady(FULL);
    TopReads(FULL);
    UserFlags();
    hide Free, Look, LowReady, KernelLow;
    forall x: nat | x < WORD_BITS * |words| ensures AgreesAt(Scene(), FULL, words, x) {
      PageReads(FULL, x);
    }
  }

  lemma NothingFree(words: seq<bv32>)
    requires forall i | 0 <= i < |words| :: words[i] == 0
    ensures Free(words) == {}
  {
    hide TestBit;
    forall x: nat | x < WORD_BITS * |words| ensures !Bit(words, x) {
      WordBits(words[x / WORD_BITS], x % WORD_BITS);
    }
  }

  // No page of the target is free: the page is shown at page 0, which is not managed.
  lemma NoPlace()
    ensures var w := Scene();
            var words: seq<bv32> := seq(9, _ => 0);
            && Inv(w) && |w.memory| == LIMIT && Usable(w, FULL, words) && Connecting.Source(w, FULL, SPARSE, 0, 1)
            && Bitmap.Bounded(words, LIMIT, 1) && NoFit(Free(words), LIMIT, 1) && !Holds(w, FULL, Free(words), LIMIT, 1)
  {
    hide Inv, Usable, Connecting.Source, Suffices, Scene, Holds;
    var words: seq<bv32> := seq(9, _ => 0);
    SceneInv();
    SceneSize();
    SourceReads(FULL, SPARSE, 1);
    FullIsUsable();
    NoneFits(Free(words));
    assert 287 !in Free(words);
    PageReads(FULL, FIRST_PAGE);
    NoPlaceBreaks(Scene(), FULL, Free(words), LIMIT, 1, FIRST_PAGE);
  }

  lemma NoneFits(free: set<nat>)
    requires free == {}
    ensures NoFit(free, LIMIT, 1)
  {
    forall q: nat | q < LIMIT ensures !Bitmap.Fits(free, q, 1) {
      assert q !in free;
    }
  }

  // ---- a shared page is given back -------------------------------------------------------------

  // All pages of the full process are shared: it may give one back, and its map and tables disagree then.
  lemma SharedReturned()
    ensures var w := Scene();
            var words: seq<bv32> := seq(9, _ => 0);
            && Inv(w) && |w.memory| == LIMIT && Usable(w, FULL, words)
            && Lent(w, FULL, WORD_BITS * |words|, FIRST_PAGE, 1) && !Unshared(w, FULL, FIRST_PAGE, 1)
  {
    SceneInv();
    SceneSize();
    FullIsUsable();
    hide Inv, Usable, Scene, Look, Shared, Process;
    PageReads(FULL, FIRST_PAGE);
    TableReads(FULL, LOWEST);
    PointingIs(First(FULL) + 3, 0);
    SharedFlags();
    assert Returnable(Scene(), FULL, FIRST_PAGE);
    assert !UnsharedPage(Scene(), FULL, FIRST_PAGE);
  }

  lemma SharedFlags()
    ensures Shared(SHARED_PAGE) && Process(SHARED_PAGE) && Depth(LOWEST) == 3
  {
  }
}
