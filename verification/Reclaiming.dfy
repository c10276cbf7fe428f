// The collector: closing the descendants of a task that asked to go, and taking the task down.
module Reclaiming {
  import opened Bitmap
  import opened Layout
  import opened Spaces
  import opened Memory
  import opened Reshaping
  import opened Pages
  import opened Paging
  import opened Teardown
  import opened Merging
  import opened Lifecycle
  import opened UserMemory
  import opened Births
  import opened Execution
  import opened Tasks
  import opened Processes
  import opened Launching

  // ---- closing descendants ---------------------------------------------------------------------

  ghost predicate ClosedThrough(a: seq<Task>, b: seq<Task>, p: nat, n: nat)
    requires n <= |a|
  {
    |b| == |a| && forall j | 0 <= j < |a| :: b[j] == if Through(a, j, p, n) then Closed(a[j]) else a[j]
  }

  // Exactly the tasks that come from p are stopped and closed.
  ghost predicate DescendantsClosed(a: seq<Task>, b: seq<Task>, p: nat) {
    |b| == |a| && forall j | 0 <= j < |a| :: b[j] == if Descends(a, j, p) then Closed(a[j]) else a[j]
  }

  lemma ClosingKeepsTree(a: seq<Task>, b: seq<Task>, p: nat, n: nat)
    requires n <= |a| && ClosedThrough(a, b, p, n)
    ensures SameTree(a, b)
  {
    hide Through;
    forall i | 0 <= i < |a| ensures Used(a[i]) == Used(b[i]) {
      assert Through(a, i, p, n) ==> Used(a[i]) by { ThroughUsed(a, i, p, n); }
    }
  }

  lemma ThroughUsed(a: seq<Task>, j: nat, p: nat, n: nat)
    requires j < |a| && n <= |a|
    ensures Through(a, j, p, n) ==> Used(a[j])
  {
  }

  lemma TableSame(a: seq<Task>, b: seq<Task>, p: nat, n: nat, lastPid: nat)
    requires Table(a, lastPid) && n <= |a| && ClosedThrough(a, b, p, n) && p > 0
    ensures Table(b, lastPid) && SameTree(a, b)
  {
    ClosingKeepsTree(a, b, p, n);
    assert !Through(a, 0, p, n) by {
      if Through(a, 0, p, n) {
        ThroughDescends(a, lastPid, 0, p, n);
        RootDescends(a, lastPid, p);
      }
    }
    hide Through;
  }

  lemma RootDescends(a: seq<Task>, lastPid: nat, p: nat)
    requires Table(a, lastPid) && p > 0
    ensures !Descends(a, 0, p)
  {
  }

  lemma CloseChild(a: seq<Task>, b: seq<Task>, c: seq<Task>, d: seq<Task>, p: nat, i: nat, lastPid: nat)
    requires Table(a, lastPid) && i < |a| && p > 0 && ClosedThrough(a, b, p, i) && ChildOf(a[i], p)
    requires DescendantsClosed(b, c, a[i].pid) && d == c[i := Closed(c[i])]
    ensures ClosedThrough(a, d, p, i + 1)
  {
    ClosingKeepsTree(a, b, p, i);
    forall j | 0 <= j < |a| ensures d[j] == if Through(a, j, p, i + 1) then Closed(a[j]) else a[j] {
      DescendsSame(a, b, j, a[i].pid);
      ThroughNext(a, j, p, i);
      hide Through, Descends;
    }
  }

  lemma ThroughNext(a: seq<Task>, j: nat, p: nat, i: nat)
    requires j < |a| && i < |a|
    ensures Through(a, j, p, i + 1) <==> Through(a, j, p, i) || ThroughChild(a, j, p, i)
  {
  }

  lemma SkipChild(a: seq<Task>, b: seq<Task>, p: nat, i: nat)
    requires i < |a| && ClosedThrough(a, b, p, i) && !ChildOf(a[i], p)
    ensures ClosedThrough(a, b, p, i + 1)
  {
    forall j | 0 <= j < |a| ensures Through(a, j, p, i + 1) == Through(a, j, p, i) {
      ThroughNext(a, j, p, i);
    }
    hide Through;
  }

  lemma AllClosed(a: seq<Task>, b: seq<Task>, p: nat, lastPid: nat)
    requires Table(a, lastPid) && p > 0 && ClosedThrough(a, b, p, |a|)
    ensures DescendantsClosed(a, b, p)
  {
    forall j | 0 <= j < |a| ensures Through(a, j, p, |a|) == Descends(a, j, p) {
      if Through(a, j, p, |a|) {
        ThroughDescends(a, lastPid, j, p, |a|);
      }
      if Descends(a, j, p) {
        DescendsThrough(a, j, p);
      }
    }
    hide Through, Descends;
  }

  // child: closes every task that comes from task p, and no other. It ends because a task's
  // identifier is larger than its parent's.
  method Child(sys: System, p: nat)
    requires Table(sys.tasks, sys.taskId) && p > 0
    modifies sys`tasks
    ensures DescendantsClosed(old(sys.tasks), sys.tasks, p)
    decreases if p <= sys.taskId then sys.taskId - p else 0
  {
    hide Through, Descends, Table, ClosedThrough, DescendantsClosed;
    ghost var a := sys.tasks;
    NoneThrough(a, p);
    TableSize(a, sys.taskId);
    for i := 0 to TASK_LIMIT
      invariant |a| == TASK_LIMIT && ClosedThrough(a, sys.tasks, p, i)
    {
      ghost var b := sys.tasks;
      TableSame(a, b, p, i, sys.taskId);
      TableSize(b, sys.taskId);
      if Used(sys.tasks[i]) && sys.tasks[i].parent == p {
        YoungerChild(a, sys.taskId, i, p);
        Child(sys, sys.tasks[i].pid);
        ghost var c := sys.tasks;
        ClosedSize(b, c, a[i].pid);
        sys.tasks := sys.tasks[i := sys.tasks[i].(active := false)];
        // the processor that runs the task leaves it
        sys.tasks := sys.tasks[i := sys.tasks[i].(exec := false)];
        sys.tasks := sys.tasks[i := sys.tasks[i].(close := true)];
        assert sys.tasks == c[i := Closed(c[i])];
        CloseChild(a, b, c, sys.tasks, p, i, sys.taskId);
      } else {
        SkipChild(a, b, p, i);
      }
    }
    AllClosed(a, sys.tasks, p, sys.taskId);
  }

  lemma NoneThrough(a: seq<Task>, p: nat)
    ensures ClosedThrough(a, a, p, 0)
  {
  }

  lemma TableSize(a: seq<Task>, lastPid: nat)
    requires Table(a, lastPid)
    ensures |a| == TASK_LIMIT
  {
  }

  lemma ClosedSize(a: seq<Task>, b: seq<Task>, p: nat)
    requires DescendantsClosed(a, b, p)
    ensures |b| == |a|
  {
  }

  lemma YoungerChild(a: seq<Task>, lastPid: nat, i: nat, p: nat)
    requires Table(a, lastPid) && p > 0 && i < |a| && ChildOf(a[i], p)
    ensures p < a[i].pid <= lastPid
  {
  }

  // ---- letting held frames go ------------------------------------------------------------------

  // Some held frames went back to the free ones, and nothing else changed.
  ghost predicate Calm(v: World, w: World, gone: set<Node>) {
    && Inv(w) && |w.memory| == |v.memory| && w.kind == v.kind && Pool(w) == Pool(v)
    && Less(v, w, gone)
    && (forall r, p | Walkable(v, r) && Digits(p) && Depth(p) <= 4 :: Look(w, r, p) == Look(v, r, p))
  }

  ghost predicate Less(v: World, w: World, gone: set<Node>) {
    && (forall n :: n in w.own <==> n in v.own && n !in gone)
    && (forall n | n in w.own :: w.own[n] == v.own[n])
  }

  lemma CalmSame(w: World)
    requires Inv(w)
    ensures Calm(w, w, {})
  {
  }

  lemma CalmOn(u: World, v: World, w: World, f: set<Node>, g: set<Node>)
    requires Calm(u, v, f) && Calm(v, w, g) && (forall n | n in f :: n.Held?)
    ensures Calm(u, w, f + g)
  {
    hide Inv, Pool, Look;
    forall r | Walkable(u, r) ensures Walkable(v, r) {
      assert Node(r, Top) !in f;
    }
  }

  lemma HeldAreLimbo(w: World, s: nat, f: nat, n: nat)
    requires Inv(w) && HoldsMap(w, s, f, n)
    ensures forall y: nat | f <= y < f + n :: Limbo(WithoutHeld(w, s, f, n), y)
    ensures n > 0 ==> f > 0 && f + n <= |w.memory| && Range(f, n) !! w.free
  {
    HoldingsAre(s, f, n);
    hide Holdings, Tables, Hangs, Kinds, Blank;
    var x := WithoutHeld(w, s, f, n);
    forall y: nat | f <= y < f + n ensures Limbo(x, y) {
      assert Names(w, Held(s, y), y);
      assert Held(s, y) in Holdings(s, f, n);
    }
    if n > 0 {
      assert Names(w, Held(s, f), f) && Names(w, Held(s, f + n - 1), f + n - 1);
      assert forall y | y in Range(f, n) :: Names(w, Held(s, y), y);
    }
  }

  lemma UnheldPool(w: World, s: nat, f: nat, n: nat)
    requires HoldsMap(w, s, f, n) && forall m | m in w.own && m.Held? :: w.own[m] == m.slot
    ensures OwnedFrames(WithoutHeld(w, s, f, n)) + Range(f, n) == OwnedFrames(w)
    ensures Less(w, WithoutHeld(w, s, f, n), Holdings(s, f, n).Keys)
  {
    HoldingsAre(s, f, n);
    hide Holdings;
    var x := WithoutHeld(w, s, f, n);
    forall g | g in OwnedFrames(w) ensures g in OwnedFrames(x) + Range(f, n) {
      var m :| m in w.own && w.own[m] == g;
      if m !in Holdings(s, f, n) { assert m in x.own && x.own[m] == g; }
    }
    forall g | g in Range(f, n) ensures g in OwnedFrames(w) {
      assert Names(w, Held(s, g), g);
    }
    forall g | g in OwnedFrames(x) ensures g in OwnedFrames(w) {
      var m :| m in x.own && x.own[m] == g;
      assert m in w.own && w.own[m] == g;
    }
  }

  // Frames let go and given back: the books still account for them.
  lemma DroppedInv(w: World, u: World, s: nat, f: nat, n: nat)
    requires u == WithoutHeld(w, s, f, n) && Inv(u) && (forall y: nat | f <= y < f + n :: Limbo(u, y))
    requires (n > 0 ==> f > 0 && f + n <= |w.memory|) && u.free == w.free && u.kind == w.kind && u.memory == w.memory
    requires OwnedFrames(u) + Range(f, n) == OwnedFrames(w) && Less(w, u, Holdings(s, f, n).Keys)
    ensures var x := Given(u, f, n);
            && Inv(x) && SameTables(u, x) && x.kind == w.kind && Pool(x) == Pool(w) && |x.memory| == |w.memory|
            && Less(w, x, Holdings(s, f, n).Keys)
  {
    hide Inv, Limbo, Given, WithoutHeld, Holdings;
    GivenMany(u, f, n);
    GivenOwn(u, f, n);
    GivenFree(u, f, n);
  }

  lemma GivenFree(w: World, f: nat, n: nat)
    ensures Given(w, f, n).free == w.free + Range(f, n)
  {
  }

  lemma Dropped(w: World, s: nat, f: nat, n: nat)
    requires Inv(w) && HoldsMap(w, s, f, n)
    ensures Calm(w, Given(WithoutHeld(w, s, f, n), f, n), Holdings(s, f, n).Keys)
  {
    hide Inv, Limbo, Given, WithoutHeld, Holdings, Pool, Less, HoldsMap, SameWalks, SameTables, Look, Walkable, Digits, Depth;
    var u := WithoutHeld(w, s, f, n);
    var x := Given(u, f, n);
    HeldAreLimbo(w, s, f, n);
    HeldSlots(w);
    UnheldPool(w, s, f, n);
    UnheldInv(w, s, f, n);
    UnheldShape(w, s, f, n);
    DroppedInv(w, u, s, f, n);
    DroppedLooks(w, u, x);
  }

  lemma UnheldShape(w: World, s: nat, f: nat, n: nat)
    ensures WithoutHeld(w, s, f, n).free == w.free && WithoutHeld(w, s, f, n).kind == w.kind
    ensures WithoutHeld(w, s, f, n).memory == w.memory
  {
  }

  lemma DroppedLooks(w: World, u: World, x: World)
    requires SameWalks(w, u) && Inv(u) && SameTables(u, x)
    ensures forall r, p | Walkable(w, r) && Digits(p) && Depth(p) <= 4 :: Look(x, r, p) == Look(w, r, p)
    ensures |x.memory| == |w.memory|
  {
    forall r, p | Walkable(w, r) && Digits(p) && Depth(p) <= 4 ensures Look(x, r, p) == Look(w, r, p) {
      SameWalksLook(w, u, r, p);
      hide Look, Inv;
      SameTablesWalk(u, x, r, p);
    }
  }

  // Frames held on behalf of space s are released.
  method Drop(k: Kernel, ghost s: nat, f: nat, n: nat)
    requires k.Valid() && k.withheld == {} && HoldsMap(k.W(), s, f, n) && n > 0
    modifies k`memory, k`available, k`own, k.bitmap
    ensures k.Valid() && Calm(old(k.W()), k.W(), Holdings(s, f, n).Keys)
  {
    hide Inv, Calm, HoldsMap, Limbo, Given, WithoutHeld, Blank;
    ghost var w := k.W();
    HeldAreLimbo(w, s, f, n);
    Dropped(w, s, f, n);
    UnheldInv(w, s, f, n);
    k.own := k.own - Holdings(s, f, n).Keys;
    assert k.W() == WithoutHeld(w, s, f, n) by { UnheldIs(w, s, f, n); }
    InvBlank(k.W());
    k.Release(f, n);
    CalmInv(w, k.W(), Holdings(s, f, n).Keys);
  }

  lemma UnheldIs(w: World, s: nat, f: nat, n: nat)
    ensures WithoutHeld(w, s, f, n) == World(w.memory, w.own - Holdings(s, f, n).Keys, w.free, w.kind)
  {
  }

  lemma CalmInv(v: World, w: World, gone: set<Node>)
    requires Calm(v, w, gone)
    ensures Inv(w) && Pool(w) == Pool(v) && w.kind == v.kind && Less(v, w, gone)
  {
  }

  // ---- streams ---------------------------------------------------------------------------------

  // One user of stream x less; the buffer goes with the last one.
  function OneLess(streams: seq<Stream>, x: nat): (after: seq<Stream>)
    requires x < |streams| && streams[x].count > 0
    ensures |after| == |streams|
  {
    if streams[x].count == 1 then streams[x := Stream(0, 0)] else streams[x := Stream(streams[x].base, streams[x].count - 1)]
  }

  ghost function Buffer(streams: seq<Stream>, x: nat): set<Node>
    requires x < |streams|
  {
    if streams[x].count == 1 then {Held(KERNEL, streams[x].base)} else {}
  }

  lemma BufferHolding(f: nat)
    ensures Holdings(KERNEL, f, 1).Keys == {Held(KERNEL, f)}
  {
    HoldingsAre(KERNEL, f, 1);
    forall h: Node ensures h in Holdings(KERNEL, f, 1).Keys <==> h in {Held(KERNEL, f)} {
    }
  }

  lemma HoldsOne(w: World, streams: seq<Stream>, x: nat)
    requires StreamsOk(streams, w) && x < |streams| && streams[x].base != 0
    ensures HoldsMap(w, KERNEL, streams[x].base, 1)
  {
  }

  lemma OneLessOk(streams: seq<Stream>, x: nat, v: World, w: World)
    requires StreamsOk(streams, v) && x < |streams| && streams[x].count > 0 && streams[x].base != 0
    requires Less(v, w, Buffer(streams, x))
    ensures StreamsOk(OneLess(streams, x), w)
  {
  }

  // kernel_stream_release
  method ReleaseStream(sys: System, x: nat)
    requires sys.k.Valid() && sys.k.withheld == {} && StreamsOk(sys.streams, sys.k.W())
    requires x < |sys.streams| && sys.streams[x].count > 0 && sys.streams[x].base != 0
    modifies sys`streams, sys.k`memory, sys.k`available, sys.k`own, sys.k.bitmap
    ensures sys.k.Valid() && sys.streams == OneLess(old(sys.streams), x)
    ensures Calm(old(sys.k.W()), sys.k.W(), Buffer(old(sys.streams), x))
    ensures StreamsOk(sys.streams, sys.k.W())
  {
    hide Inv, Calm, HoldsMap, StreamsOk, Kernel.W, Kernel.Frames, Less, Holdings;
    ghost var v, before := sys.k.W(), sys.streams;
    HoldsOne(v, before, x);
    BufferHolding(before[x].base);
    sys.streams := sys.streams[x := sys.streams[x].(count := sys.streams[x].count - 1)];
    if sys.streams[x].count == 0 {
      Drop(sys.k, KERNEL, sys.streams[x].base, 1);
      sys.streams := sys.streams[x := sys.streams[x].(base := 0)];
    } else {
      CalmSame(v);
    }
    CalmInv(v, sys.k.W(), Buffer(before, x));
    OneLessOk(before, x, v, sys.k.W());
  }

  // ---- a thread's entries are cut off -----------------------------------------------------------

  // A thread owns no table under an entry it shares.
  lemma LinkedIsBare(w: World, s: nat)
    requires Inv(w) && HasSpace(w, s) && w.kind[s].Linked?
    ensures Bare(w, s)
  {
    hide Blank;
    forall j: nat | j < ENTRIES && !Reserved(j) ensures Node(s, Step(Top, j)) !in w.own {
      var n := Node(s, Top);
      var c := Node(s, Step(Top, j));
      assert c in w.own ==> Hung(w, c);
      assert Typed(w, n, j);
    }
  }

  function ScrubbedPage(page: Page): Page {
    seq(ENTRIES, j requires 0 <= j < ENTRIES => if Reserved(j) then page[j] else EMPTY)
  }

  // The thread keeps its reserved entries only, and stands on its own.
  ghost function Scrubbed(w: World, s: nat): World
    requires IsTableAt(w, Node(s, Top))
  {
    World(w.memory[w.own[Node(s, Top)] := ScrubbedPage(w.memory[w.own[Node(s, Top)]])], w.own, w.free, w.kind[s := Solo])
  }

  lemma ScrubbedCell(w: World, s: nat, m: Node, j: nat)
    requires Inv(w) && IsTableAt(w, Node(s, Top)) && IsTableAt(w, m) && j < ENTRIES
    ensures IsTableAt(Scrubbed(w, s), m)
    ensures Cell(Scrubbed(w, s), m, j) == if m == Node(s, Top) && !Reserved(j) then EMPTY else Cell(w, m, j)
  {
    hide Tables, Hangs, Kinds, Blank;
  }

  lemma ScrubTyped(w: World, s: nat, m: Node, j: nat, f: Entry)
    requires IsTableAt(w, m) && IsTableAt(w, Node(s, Top)) && m.space in w.kind && s in w.kind && TypedAs(w, m, j, f)
    requires m == Node(s, Top) ==> Reserved(j)
    ensures TypedAs(Scrubbed(w, s), m, j, f)
  {
    hide ScrubbedPage;
  }

  lemma ScrubInv(w: World, s: nat)
    requires Inv(w) && HasSpace(w, s) && s != KERNEL && w.kind[s] != Solo && Bare(w, s)
    ensures IsTableAt(w, Node(s, Top))
    ensures Inv(Scrubbed(w, s)) && NobodyLinked(Scrubbed(w, s), s)
  {
    AtRoot(w, s);
    var x := Scrubbed(w, s);
    assert Kinds(x);
    assert Blank(x) by { hide Tables, Hangs, Kinds, Injective; }
    hide Blank;
    forall m | m in x.own ensures Hung(x, m) {
      assert Hung(w, m);
      if m.Node? && m.path.Step? {
        ScrubbedCell(w, s, Node(m.space, m.path.up), m.path.digit);
      }
    }
    forall m, j: nat | IsTableAt(x, m) && j < ENTRIES
      ensures Typed(x, m, j)
    {
      assert IsTableAt(w, m) && Typed(w, m, j);
      ScrubbedCell(w, s, m, j);
      if Cell(x, m, j) != EMPTY {
        ScrubTyped(w, s, m, j, Cell(w, m, j));
      }
    }
  }

  // No other space passes through the thread's top table.
  lemma {:induction false} ScrubWalk(w: World, s: nat, r: nat, p: Path)
    requires Inv(w) && HasSpace(w, s) && s != KERNEL && w.kind[s] != Solo && IsTableAt(w, Node(s, Top))
    requires Walkable(w, r) && r != s && Digits(p) && Depth(p) <= 4
    ensures Look(Scrubbed(w, s), r, p) == Look(w, r, p)
  {
    match p
    case Top =>
    case Step(up, j) =>
      ScrubWalk(w, s, r, up);
      if Look(w, r, up) != EMPTY {
        var t := Locate(w, r, up);
        ScrubbedCell(w, s, Node(t, up), j);
      }
  }

  // What a step of taking space s down leaves: other spaces but its threads read what they read, and
  // what is gone is accounted for.
  ghost predicate Reaping(v: World, w: World, s: nat, gone: set<Node>) {
    && Inv(w) && |w.memory| == |v.memory| && Pool(w) == Pool(v)
    && KindsLeft(v, w, s) && Less(v, w, gone) && StillReads(v, w, s)
  }

  // Only threads of s may have been cut off.
  ghost predicate KindsLeft(v: World, w: World, s: nat) {
    && w.kind.Keys == v.kind.Keys
    && forall r | r in v.kind && r != s :: w.kind[r] == v.kind[r] || (v.kind[r] == Linked(s) && w.kind[r] == Severed)
  }

  ghost predicate StillReads(v: World, w: World, s: nat) {
    forall r, p | Walkable(v, r) && r != s && v.kind[r] != Linked(s) && Digits(p) && Depth(p) <= 4 :: Look(w, r, p) == Look(v, r, p)
  }

  lemma ReapingCalm(v: World, w: World, s: nat, gone: set<Node>)
    requires Calm(v, w, gone)
    ensures Reaping(v, w, s, gone)
  {
    hide Inv, Pool, Look, Less;
  }

  lemma SameLess(v: World, w: World, x: World, gone: set<Node>)
    requires Less(v, w, gone) && x.own == w.own
    ensures Less(v, x, gone)
  {
  }

  lemma ReapingScrub(v: World, w: World, s: nat, gone: set<Node>)
    requires Reaping(v, w, s, gone) && HasSpace(w, s) && s != KERNEL && w.kind[s] != Solo && Bare(w, s)
    requires forall n | n in gone :: n.Held?
    ensures IsTableAt(w, Node(s, Top)) && Reaping(v, Scrubbed(w, s), s, gone)
    ensures HasSpace(Scrubbed(w, s), s) && Scrubbed(w, s).kind[s] == Solo && NobodyLinked(Scrubbed(w, s), s)
  {
    ScrubInv(w, s);
    var x := Scrubbed(w, s);
    SamePool(w, x);
    ScrubReads(v, w, s, gone);
    SameLess(v, w, x, gone);
    ScrubKinds(v, w, s);
    hide Inv, Pool, Look, StillReads, Less, Bare, KindsLeft, NobodyLinked, Scrubbed;
  }

  lemma ScrubKinds(v: World, w: World, s: nat)
    requires KindsLeft(v, w, s) && HasSpace(w, s) && IsTableAt(w, Node(s, Top))
    ensures KindsLeft(v, Scrubbed(w, s), s) && |Scrubbed(w, s).memory| == |w.memory|
    ensures HasSpace(Scrubbed(w, s), s) && Scrubbed(w, s).kind[s] == Solo
  {
    hide ScrubbedPage;
  }

  lemma ScrubReads(v: World, w: World, s: nat, gone: set<Node>)
    requires Reaping(v, w, s, gone) && HasSpace(w, s) && s != KERNEL && w.kind[s] != Solo && IsTableAt(w, Node(s, Top))
    requires forall n | n in gone :: n.Held?
    ensures StillReads(v, Scrubbed(w, s), s)
  {
    hide Inv, Pool, Scrubbed, Look;
    forall r, p | Walkable(v, r) && r != s && v.kind[r] != Linked(s) && Digits(p) && Depth(p) <= 4
      ensures Look(Scrubbed(w, s), r, p) == Look(v, r, p)
    {
      ReapingWalkable(v, w, s, gone, r);
      ScrubWalk(w, s, r, p);
    }
  }

  lemma ReapingWalkable(v: World, w: World, s: nat, gone: set<Node>, r: nat)
    requires Reaping(v, w, s, gone) && (forall n | n in gone :: n.Held?)
    requires Walkable(v, r) && r != s && v.kind[r] != Linked(s)
    ensures Walkable(w, r) && w.kind[r] == v.kind[r]
  {
    hide Inv, Pool, StillReads;
    assert Node(r, Top) !in gone;
  }

  lemma ReapingSever(v: World, w: World, s: nat, gone: set<Node>)
    requires Reaping(v, w, s, gone) && HasSpace(w, s) && w.kind[s] == Solo && forall n | n in gone :: n.Held?
    ensures Reaping(v, Severing(w, s), s, gone) && NobodyLinked(Severing(w, s), s)
    ensures HasSpace(Severing(w, s), s) && Severing(w, s).kind[s] == Solo
  {
    SeverInv(w, s);
    var x := Severing(w, s);
    SamePool(w, x);
    SameLess(v, w, x, gone);
    SeverReads(v, w, s, gone);
    SeverKinds(v, w, s);
    hide Inv, Pool, Less, StillReads, KindsLeft;
  }

  lemma SeverKinds(v: World, w: World, s: nat)
    requires KindsLeft(v, w, s)
    ensures KindsLeft(v, Severing(w, s), s)
  {
    assert Severing(w, s).kind.Keys == w.kind.Keys;
  }

  lemma SeverReads(v: World, w: World, s: nat, gone: set<Node>)
    requires Reaping(v, w, s, gone) && forall n | n in gone :: n.Held?
    ensures StillReads(v, Severing(w, s), s)
  {
    hide Inv, Pool, Less;
    var x := Severing(w, s);
    forall r, p | Walkable(v, r) && r != s && v.kind[r] != Linked(s) && Digits(p) && Depth(p) <= 4
      ensures Look(x, r, p) == Look(v, r, p)
    {
      ReapingWalkable(v, w, s, gone, r);
      hide StillReads;
      assert HasSpace(x, r) && x.own == w.own && x.memory == w.memory;
      assert Look(x, r, p) == Look(w, r, p);
    }
  }

  // kernel_page entries of a thread other than its own: written empty, one by one.
  method Scrub(k: Kernel, ghost s: nat, cr3: nat)
    requires k.Valid() && HasSpace(k.W(), s) && s != KERNEL && k.W().kind[s] != Solo && Bare(k.W(), s)
    requires k.W().own[Node(s, Top)] == cr3
    modifies k`memory, k`kind
    ensures k.Valid() && IsTableAt(old(k.W()), Node(s, Top)) && k.W() == Scrubbed(old(k.W()), s)
  {
    hide Inv, Blank, Bare;
    ghost var w := k.W();
    ScrubInv(w, s);
    for p := 0 to ENTRIES
      invariant |k.memory| == |w.memory| && k.kind == w.kind
      invariant forall f | 0 <= f < |k.memory| && f != cr3 :: k.memory[f] == w.memory[f]
      invariant forall j | 0 <= j < ENTRIES :: k.memory[cr3][j] == if j < p && !Reserved(j) then EMPTY else w.memory[cr3][j]
    {
      if p != ENTRY_STACK && p != ENTRY_CONTEXT {
        k.memory := Put(k.memory, cr3, p, EMPTY);
      }
    }
    k.kind := k.kind[s := Solo];
    assert k.memory[cr3] == ScrubbedPage(w.memory[cr3]);
    assert k.memory == Scrubbed(w, s).memory;
    assert k.W().free == w.free && k.W().own == w.own && k.W().kind == Scrubbed(w, s).kind;
    InvBlank(k.W());
  }

  // ---- the space is gone ------------------------------------------------------------------------

  // Space s is gone with all its tables and pages, and so are the held frames of `gone`. Every frame is
  // accounted for, and no other space but the threads of s reads anything else than before.
  ghost predicate Reaped(v: World, w: World, s: nat, gone: set<Node>) {
    && Inv(w) && |w.memory| == |v.memory| && Pool(w) == Pool(v)
    && KindsAfter(v, w, s) && StillReads(v, w, s)
    && Less(v, w, gone + Nodes(v, s))
  }

  ghost predicate KindsAfter(v: World, w: World, s: nat) {
    && w.kind.Keys == v.kind.Keys - {s}
    && forall r | r in w.kind :: w.kind[r] == if v.kind[r] == Linked(s) then Severed else v.kind[r]
  }

  ghost function Nodes(w: World, s: nat): set<Node> {
    set n | n in w.own && n.Node? && n.space == s
  }

  lemma GonePool(w: World, y: World, s: nat)
    requires SpaceGone(w, y, s)
    ensures Pool(y) == Pool(w)
  {
    hide Others;
    assert forall n | n in w.own :: n in y.own || w.own[n] in y.free;
    forall f | f in Pool(w) ensures f in Pool(y) {
      if f in OwnedFrames(w) {
        var n :| n in w.own && w.own[n] == f;
        if n in y.own { assert y.own[n] == f; }
      }
    }
    forall f | f in Pool(y) ensures f in Pool(w) {
      if f in OwnedFrames(y) {
        var n :| n in y.own && y.own[n] == f;
        assert n in w.own && w.own[n] == f;
      }
    }
  }

  lemma KindsEnd(v: World, w: World, y: World, s: nat)
    requires KindsLeft(v, w, s) && y.kind == w.kind - {s} && Inv(y) && s in v.kind
    ensures KindsAfter(v, y, s)
  {
    hide Placed, Injective, Blank, Hangs, Tables;
  }

  lemma ReapingEnds(v: World, w: World, y: World, s: nat, gone: set<Node>)
    requires Reaping(v, w, s, gone) && (forall n | n in gone :: n.Held?) && s in v.kind
    requires SpaceGone(w, y, s) && Inv(y) && |y.memory| == |w.memory|
    ensures Reaped(v, y, s, gone)
  {
    GonePool(w, y, s);
    KindsEnd(v, w, y, s);
    ReadsEnd(v, w, y, s, gone);
    LessEnd(v, w, y, s, gone);
    hide Inv, Pool, SpaceGone, KindsLeft, KindsAfter, StillReads, Less, Nodes;
  }

  lemma ReadsEnd(v: World, w: World, y: World, s: nat, gone: set<Node>)
    requires Reaping(v, w, s, gone) && (forall n | n in gone :: n.Held?) && SpaceGone(w, y, s)
    ensures StillReads(v, y, s)
  {
    hide Inv, Pool, Look, Freed, Less, KindsLeft;
    forall r, p | Walkable(v, r) && r != s && v.kind[r] != Linked(s) && Digits(p) && Depth(p) <= 4
      ensures Look(y, r, p) == Look(v, r, p)
    {
      ReapingWalkable(v, w, s, gone, r);
    }
  }

  lemma LessEnd(v: World, w: World, y: World, s: nat, gone: set<Node>)
    requires Less(v, w, gone) && SpaceGone(w, y, s)
    ensures Less(v, y, gone + Nodes(v, s))
  {
    hide Others, Freed;
  }

  // ---- the table without the task ---------------------------------------------------------------

  // Entry e is free, every task that came from its task is closed, and no other entry has changed.
  ghost predicate Gone(a: seq<Task>, b: seq<Task>, e: nat) {
    && 0 < e < |a| && |b| == |a|
    && forall j | 0 <= j < |a| :: b[j] == if j == e then Unused(a[j]) else if Descends(a, j, a[e].pid) then Closed(a[j]) else a[j]
  }

  ghost function Heirs(a: seq<Task>, p: nat): set<nat> {
    set j: nat | j < |a| && Descends(a, j, p) :: a[j].pid
  }

  lemma GoneEntry(a: seq<Task>, b: seq<Task>, e: nat, j: nat)
    requires Gone(a, b, e) && j < |a|
    ensures b[j].pid == a[j].pid && b[j].parent == a[j].parent && b[j].cr3 == a[j].cr3 && b[j].thread == (j != e && a[j].thread)
    ensures b[j].streamIn == a[j].streamIn && b[j].streamOut == a[j].streamOut && b[j].words == a[j].words && b[j].mapFrame == a[j].mapFrame
    ensures Used(b[j]) <==> j != e && Used(a[j])
    ensures j != e ==> SameEntry(a[j], b[j])
  {
    assert Descends(a, j, a[e].pid) ==> Used(a[j]);
    hide Descends;
  }

  lemma GoneTable(a: seq<Task>, b: seq<Task>, e: nat, lastPid: nat)
    requires Table(a, lastPid) && Gone(a, b, e) && Used(a[e])
    ensures Table(b, lastPid)
  {
    forall j: nat | j < |a| ensures Used(b[j]) <==> j != e && Used(a[j]) {
      GoneEntry(a, b, e, j);
    }
    forall j: nat | j < |a| ensures b[j].pid == a[j].pid && b[j].parent == a[j].parent {
      GoneEntry(a, b, e, j);
    }
    RootDescends(a, lastPid, a[e].pid);
    hide Descends;
  }

  lemma OtherPid(a: seq<Task>, e: nat, j: nat, lastPid: nat)
    requires Table(a, lastPid) && e < |a| && j < |a| && j != e && Used(a[j]) && Used(a[e])
    ensures a[j].pid != a[e].pid && (j > 0 ==> a[j].pid > 0)
  {
  }

  lemma KindLeft(v: World, w: World, s: nat, r: nat)
    requires KindsAfter(v, w, s) && r in w.kind
    ensures r != s && r in v.kind
  {
  }

  lemma LowLeft(v: World, w: World, s: nat, gone: set<Node>)
    requires KernelLow(v) && Less(v, w, gone + Nodes(v, s))
    ensures KernelLow(w)
  {
    hide Nodes;
  }

  lemma GoneSpaces(a: seq<Task>, b: seq<Task>, e: nat, lastPid: nat, v: World, w: World, gone: set<Node>)
    requires Inv(v) && Table(a, lastPid) && SpacesOk(a, v) && Gone(a, b, e) && Used(a[e])
    requires Reaped(v, w, a[e].pid, gone) && (forall n | n in gone :: n.Held?)
    ensures SpacesOk(b, w)
  {
    hide Inv, Gone, Table, Pool, Look, LowReady, Bare, SpaceOf, HasTask, Reaped, Used, KindsAfter, StillReads, Less, Nodes, KernelLow;
    GoneSize(a, b, e);
    var s := a[e].pid;
    ReapedParts(v, w, s, gone);
    forall j | 0 <= j < |b| && Used(b[j]) ensures SpaceOf(b[j], w, j) {
      GoneEntry(a, b, e, j);
      OtherPid(a, e, j, lastPid);
      SpaceLeft(a[j], b[j], j, v, w, s, gone);
    }
    forall r | r in w.kind ensures HasTask(b, r) {
      KindLeft(v, w, s, r);
      TaskLeft(a, b, e, r);
    }
    forall r | r in w.kind && w.kind[r].Severed? ensures Bare(w, r) {
      KindLeft(v, w, s, r);
      BareLeft(v, w, s, gone, r);
    }
    LowLeft(v, w, s, gone);
  }

  lemma GoneSize(a: seq<Task>, b: seq<Task>, e: nat)
    requires Gone(a, b, e)
    ensures |b| == |a| && 0 < e < |a|
  {
  }

  lemma ReapedParts(v: World, w: World, s: nat, gone: set<Node>)
    requires Reaped(v, w, s, gone)
    ensures Inv(w) && Pool(w) == Pool(v) && KindsAfter(v, w, s) && StillReads(v, w, s) && Less(v, w, gone + Nodes(v, s))
  {
    hide Inv, Pool;
  }

  lemma SpaceLeft(t: Task, x: Task, j: nat, v: World, w: World, s: nat, gone: set<Node>)
    requires SpaceOf(t, v, j) && SameEntry(t, x) && t.pid != s && (forall n | n in gone :: n.Held?)
    requires KindsAfter(v, w, s) && StillReads(v, w, s) && Less(v, w, gone + Nodes(v, s))
    ensures SpaceOf(x, w, j)
  {
    OneDeep();
    var n := Node(t.pid, Top);
    assert n in w.own && n !in gone && n !in Nodes(v, s);
    hide Look, Nodes;
  }

  lemma TaskLeft(a: seq<Task>, b: seq<Task>, e: nat, r: nat)
    requires Gone(a, b, e) && HasTask(a, r) && r != a[e].pid
    ensures HasTask(b, r)
  {
    var i :| 0 <= i < |a| && Used(a[i]) && a[i].pid == r;
    GoneEntry(a, b, e, i);
    hide Gone;
  }

  lemma BareLeft(v: World, w: World, s: nat, gone: set<Node>, r: nat)
    requires Inv(v) && Less(v, w, gone + Nodes(v, s)) && KindsAfter(v, w, s) && r in w.kind && w.kind[r].Severed?
    requires v.kind[r].Severed? ==> Bare(v, r)
    ensures Bare(w, r)
  {
    if v.kind[r].Linked? {
      InvPlaces(v, r);
      LinkedIsBare(v, r);
    }
    hide Inv;
  }

  lemma InvPlaces(w: World, r: nat)
    requires Inv(w) && r in w.kind
    ensures HasSpace(w, r)
  {
  }

  lemma GoneHeld(a: seq<Task>, b: seq<Task>, e: nat, lastPid: nat, v: World, w: World, gone: set<Node>, mapPages: nat)
    requires Table(a, lastPid) && HeldOk(a, v, mapPages) && Gone(a, b, e) && Used(a[e])
    requires Less(v, w, gone + Nodes(v, a[e].pid)) && (forall n | n in gone :: n.Held? && n.space in {KERNEL, a[e].pid})
    ensures HeldOk(b, w, mapPages)
  {
    hide Gone, Table;
    GoneSize(a, b, e);
    forall i | 0 < i < |b| && Used(b[i]) && !b[i].thread ensures HoldsMap(w, b[i].pid, b[i].mapFrame, mapPages) {
      GoneEntry(a, b, e, i);
      OtherPid(a, e, i, lastPid);
      assert HoldsMap(v, a[i].pid, a[i].mapFrame, mapPages);
    }
  }

  lemma GoneMaps(a: seq<Task>, b: seq<Task>, e: nat, v: World, w: World, bitmap: array<bv32>, mapPages: nat)
    requires MapsApart(a, v.kind, bitmap, mapPages) && Gone(a, b, e) && Used(a[e]) && KindsAfter(v, w, a[e].pid)
    ensures MapsApart(b, w.kind, bitmap, mapPages)
  {
    forall i: nat | i < |a| ensures Used(b[i]) <==> i != e && Used(a[i]) { GoneEntry(a, b, e, i); }
    forall i: nat | i < |a| && i != e ensures SameEntry(a[i], b[i]) { GoneEntry(a, b, e, i); }
    hide Descends;
    forall i | 0 < i < |b| && Used(b[i]) && b[i].pid in w.kind && w.kind[b[i].pid].Linked? ensures HasLeader(b, w.kind, i) {
      assert HasLeader(a, v.kind, i);
      var j :| 0 < j < |a| && Used(a[j]) && !a[j].thread && a[j].pid == v.kind[a[i].pid].leader && a[j].words == a[i].words;
      assert j != e;
    }
  }

  // A thread whose creator's process is going either was closed before or comes from that process.
  lemma {:induction false} ThreadDescends(a: seq<Task>, kind: map<nat, Kind>, doomed: set<nat>, lastPid: nat, i: nat, g: nat)
    requires Table(a, lastPid) && DoomOk(a, kind, doomed, lastPid)
    requires 0 < i < |a| && Used(a[i]) && a[i].pid !in doomed && a[i].thread && a[i].pid in kind && kind[a[i].pid] == Linked(g)
    requires AllThreads(a, kind)
    ensures Descends(a, i, g)
    decreases a[i].pid
  {
    assert HasParent(a, kind, doomed, i);
    var j :| 0 <= j < |a| && ParentIs(a, kind, doomed, i, j);
    if a[j].thread {
      assert kind[a[j].pid] == Linked(g) by { assert !kind[a[j].pid].Severed?; }
      ThreadDescends(a, kind, doomed, lastPid, j, g);
    } else {
      assert a[i].parent == g;
    }
  }

  ghost predicate AllThreads(a: seq<Task>, kind: map<nat, Kind>) {
    forall j | 0 < j < |a| && Used(a[j]) :: a[j].pid in kind && (a[j].thread <==> kind[a[j].pid] != Solo)
  }

  lemma SpacesThreads(a: seq<Task>, v: World)
    requires SpacesOk(a, v)
    ensures AllThreads(a, v.kind)
  {
    hide LowReady, KernelLow;
    forall j | 0 < j < |a| && Used(a[j]) ensures a[j].pid in v.kind && (a[j].thread <==> v.kind[a[j].pid] != Solo) {
      assert SpaceOf(a[j], v, j);
    }
  }

  lemma HeirIs(a: seq<Task>, p: nat, j: nat)
    requires j < |a|
    ensures Descends(a, j, p) ==> a[j].pid in Heirs(a, p)
  {
  }

  lemma HeirOf(a: seq<Task>, p: nat, lastPid: nat, j: nat)
    requires Table(a, lastPid) && j < |a| && Used(a[j]) && a[j].pid in Heirs(a, p)
    ensures Descends(a, j, p)
  {
    var i: nat :| i < |a| && Descends(a, i, p) && a[i].pid == a[j].pid;
    assert i == j;
  }

  // A task that neither was doomed nor comes from task p does not share the entries of p.
  lemma NotOfProcess(a: seq<Task>, kind: map<nat, Kind>, doomed: set<nat>, lastPid: nat, p: nat, i: nat)
    requires Table(a, lastPid) && DoomOk(a, kind, doomed, lastPid) && AllThreads(a, kind)
    requires 0 < i < |a| && Used(a[i]) && a[i].pid !in doomed && !Descends(a, i, p)
    ensures a[i].pid in kind && kind[a[i].pid] != Linked(p) && !kind[a[i].pid].Severed?
  {
    if kind[a[i].pid] == Linked(p) {
      ThreadDescends(a, kind, doomed, lastPid, i, p);
    }
  }

  // The parent of such a task is another such task.
  lemma ParentElsewhere(a: seq<Task>, kind: map<nat, Kind>, doomed: set<nat>, lastPid: nat, e: nat, i: nat) returns (j: nat)
    requires Table(a, lastPid) && DoomOk(a, kind, doomed, lastPid) && e < |a| && Used(a[e])
    requires 0 < i < |a| && i != e && Used(a[i]) && a[i].pid !in doomed && !Descends(a, i, a[e].pid)
    ensures j < |a| && j != e && ParentIs(a, kind, doomed, i, j) && !Descends(a, j, a[e].pid)
  {
    assert HasParent(a, kind, doomed, i);
    j :| 0 <= j < |a| && ParentIs(a, kind, doomed, i, j);
    assert j != e;
    assert a[j].pid < a[i].pid;
  }

  lemma ParentStays(a: seq<Task>, b: seq<Task>, e: nat, v: World, w: World, doomed: set<nat>, lastPid: nat, i: nat)
    requires Table(a, lastPid) && DoomOk(a, v.kind, doomed, lastPid) && AllThreads(a, v.kind)
    requires Gone(a, b, e) && Used(a[e]) && KindsAfter(v, w, a[e].pid)
    requires 0 < i < |a| && i != e && Used(a[i]) && a[i].pid !in doomed && !Descends(a, i, a[e].pid)
    ensures |b| == |a| && HasParent(b, w.kind, doomed + Heirs(a, a[e].pid), i)
  {
    var p := a[e].pid;
    hide Gone, Descends, Heirs, Table, DoomOk;
    GoneSize(a, b, e);
    var j := ParentElsewhere(a, v.kind, doomed, lastPid, e, i);
    NotHeir(a, p, lastPid, j);
    GoneEntry(a, b, e, i);
    GoneEntry(a, b, e, j);
    OtherPid(a, e, i, lastPid);
    OtherPid(a, e, j, lastPid);
    if a[i].thread {
      NotOfProcess(a, v.kind, doomed, lastPid, p, i);
      NotOfProcess(a, v.kind, doomed, lastPid, p, j);
    }
    assert ParentIs(b, w.kind, doomed + Heirs(a, p), i, j);
  }

  lemma NotHeir(a: seq<Task>, p: nat, lastPid: nat, j: nat)
    requires Table(a, lastPid) && j < |a| && Used(a[j]) && !Descends(a, j, p)
    ensures a[j].pid !in Heirs(a, p)
  {
    if a[j].pid in Heirs(a, p) {
      HeirOf(a, p, lastPid, j);
    }
  }

  lemma HeirsBound(a: seq<Task>, p: nat, lastPid: nat)
    requires Table(a, lastPid) && p > 0
    ensures forall x | x in Heirs(a, p) :: 0 < x <= lastPid
  {
    forall x | x in Heirs(a, p) ensures 0 < x <= lastPid {
      var j: nat :| j < |a| && Descends(a, j, p) && a[j].pid == x;
      RootDescends(a, lastPid, p);
    }
  }

  lemma GoneStopped(a: seq<Task>, b: seq<Task>, e: nat, v: World, doomed: set<nat>, lastPid: nat, i: nat)
    requires Table(a, lastPid) && DoomOk(a, v.kind, doomed, lastPid) && Gone(a, b, e)
    requires 0 < i < |a| && Used(b[i]) && b[i].pid in doomed + Heirs(a, a[e].pid)
    ensures b[i].close && !b[i].active && !b[i].exec
  {
    GoneEntry(a, b, e, i);
    if !Descends(a, i, a[e].pid) {
      NotHeir(a, a[e].pid, lastPid, i);
    }
    hide Descends, Table, Heirs;
  }

  lemma GoneDoom(a: seq<Task>, b: seq<Task>, e: nat, v: World, w: World, doomed: set<nat>, lastPid: nat)
    requires Table(a, lastPid) && DoomOk(a, v.kind, doomed, lastPid) && AllThreads(a, v.kind) && SpacesOk(a, v)
    requires KERNEL in v.kind && v.kind[KERNEL] == Solo
    requires Gone(a, b, e) && Used(a[e]) && KindsAfter(v, w, a[e].pid) && a[e].pid > 0
    ensures DoomOk(b, w.kind, doomed + Heirs(a, a[e].pid), lastPid)
  {
    hide SpacesOk, Heirs, Descends, Table, HasParent, Gone, AllThreads, KindsAfter, Used;
    GoneSize(a, b, e);
    HeirsBound(a, a[e].pid, lastPid);
    GoneParents(a, b, e, v, w, doomed, lastPid);
    GoneSevered(a, e, v, w, doomed, lastPid);
    GoneAllStopped(a, b, e, v, doomed, lastPid);
  }

  lemma GoneAllStopped(a: seq<Task>, b: seq<Task>, e: nat, v: World, doomed: set<nat>, lastPid: nat)
    requires Table(a, lastPid) && DoomOk(a, v.kind, doomed, lastPid) && Gone(a, b, e)
    ensures forall i | 0 < i < |b| && Used(b[i]) && b[i].pid in doomed + Heirs(a, a[e].pid) :: b[i].close && !b[i].active && !b[i].exec
  {
    GoneSize(a, b, e);
    hide Heirs, Descends, Table, Gone, DoomOk, Used;
    forall i | 0 < i < |b| && Used(b[i]) && b[i].pid in doomed + Heirs(a, a[e].pid) ensures b[i].close && !b[i].active && !b[i].exec {
      GoneStopped(a, b, e, v, doomed, lastPid, i);
    }
  }

  lemma GoneSevered(a: seq<Task>, e: nat, v: World, w: World, doomed: set<nat>, lastPid: nat)
    requires Table(a, lastPid) && DoomOk(a, v.kind, doomed, lastPid) && AllThreads(a, v.kind) && SpacesOk(a, v)
    requires KERNEL in v.kind && v.kind[KERNEL] == Solo && e < |a| && a[e].pid > 0 && KindsAfter(v, w, a[e].pid)
    ensures forall s | s in w.kind && w.kind[s].Severed? :: s in doomed + Heirs(a, a[e].pid)
  {
    hide SpacesOk, Heirs, Descends, Table, DoomOk, AllThreads;
    forall s | s in w.kind && w.kind[s].Severed? ensures s in doomed + Heirs(a, a[e].pid) {
      SeveredDoomed(a, e, v, doomed, lastPid, s);
    }
  }

  lemma GoneParents(a: seq<Task>, b: seq<Task>, e: nat, v: World, w: World, doomed: set<nat>, lastPid: nat)
    requires Table(a, lastPid) && DoomOk(a, v.kind, doomed, lastPid) && AllThreads(a, v.kind)
    requires Gone(a, b, e) && Used(a[e]) && KindsAfter(v, w, a[e].pid)
    ensures |b| == |a|
    ensures forall i | 0 < i < |b| && Used(b[i]) && b[i].pid !in doomed + Heirs(a, a[e].pid) :: HasParent(b, w.kind, doomed + Heirs(a, a[e].pid), i)
  {
    var all := doomed + Heirs(a, a[e].pid);
    GoneSize(a, b, e);
    hide Heirs, Descends, Table, HasParent, Gone, AllThreads, DoomOk, KindsAfter;
    forall i | 0 < i < |b| && Used(b[i]) && b[i].pid !in all ensures HasParent(b, w.kind, all, i) {
      GoneEntry(a, b, e, i);
      HeirIs(a, a[e].pid, i);
      ParentStays(a, b, e, v, w, doomed, lastPid, i);
    }
  }

  lemma SeveredDoomed(a: seq<Task>, e: nat, v: World, doomed: set<nat>, lastPid: nat, s: nat)
    requires Table(a, lastPid) && DoomOk(a, v.kind, doomed, lastPid) && AllThreads(a, v.kind) && SpacesOk(a, v)
    requires KERNEL in v.kind && v.kind[KERNEL] == Solo
    requires e < |a| && s in v.kind && (v.kind[s].Severed? || v.kind[s] == Linked(a[e].pid)) && a[e].pid > 0
    ensures s in doomed + Heirs(a, a[e].pid)
  {
    if v.kind[s] == Linked(a[e].pid) && s !in doomed {
      assert HasTask(a, s);
      var i :| 0 <= i < |a| && Used(a[i]) && a[i].pid == s;
      KernelTask(a, v, lastPid);
      assert a[i].thread;
      ThreadDescends(a, v.kind, doomed, lastPid, i, a[e].pid);
      HeirIs(a, a[e].pid, i);
    }
  }

  lemma KernelTask(a: seq<Task>, v: World, lastPid: nat)
    requires Table(a, lastPid) && SpacesOk(a, v)
    ensures a[0].pid == 0
  {
  }

  // ---- the collector's step ---------------------------------------------------------------------

  lemma LessHas(v: World, w: World, gone: set<Node>, s: nat)
    requires Less(v, w, gone) && (forall n | n in gone :: n.Held?) && Node(s, Top) in v.own
    ensures Node(s, Top) in w.own && w.own[Node(s, Top)] == v.own[Node(s, Top)]
    ensures Bare(v, s) ==> Bare(w, s)
  {
    assert Node(s, Top) !in gone;
  }

  lemma LessHolds(v: World, w: World, gone: set<Node>, s: nat, f: nat, n: nat)
    requires Less(v, w, gone) && HoldsMap(v, s, f, n) && forall m | m in gone :: m.Held? && m.space != s
    ensures HoldsMap(w, s, f, n)
  {
  }

  lemma HoldingsHeld(s: nat, f: nat, n: nat)
    ensures forall h | h in Holdings(s, f, n).Keys :: h.Held? && h.space == s
  {
    HoldingsAre(s, f, n);
  }

  lemma SeveringIs(w: World, s: nat)
    ensures Severing(w, s) == World(w.memory, w.own, w.free, Severing(w, s).kind)
  {
  }

  // The space of a task is taken down: a thread's is cut off from what it shares first, a process's
  // leaves its threads cut off.
  method TakeDown(k: Kernel, ghost v: World, ghost s: nat, ghost gone: set<Node>, thread: bool, cr3: nat, frame: nat, mapPages: nat)
    requires k.Valid() && k.withheld == {} && Calm(v, k.W(), gone) && s != KERNEL && mapPages > 0
    requires HasSpace(v, s) && v.own[Node(s, Top)] == cr3 && forall n | n in gone :: n.Held? && n.space == KERNEL
    requires if thread then v.kind[s] != Solo && Bare(v, s) else v.kind[s] == Solo && HoldsMap(v, s, frame, mapPages)
    modifies k`memory, k`available, k`own, k`kind, k.bitmap
    ensures k.Valid()
    ensures Reaped(v, k.W(), s, if thread then gone else gone + Holdings(s, frame, mapPages).Keys)
  {
    hide Inv, Calm, Reaping, Less, Bare, Pool, Blank, Scrubbed, Severing, NobodyLinked, HoldsMap, Holdings, Reaped, SpaceGone;
    ghost var all := gone;
    CalmInv(v, k.W(), gone);
    LessHas(v, k.W(), gone, s);
    if thread {
      ghost var w := k.W();
      ReapingCalm(v, w, s, gone);
      ReapingScrub(v, w, s, gone);
      Scrub(k, s, cr3);
      ScrubbedOwn(w, s);
    } else {
      ghost var w := k.W();
      LessHolds(v, w, gone, s, frame, mapPages);
      Drop(k, s, frame, mapPages);
      all := gone + Holdings(s, frame, mapPages).Keys;
      HoldingsHeld(s, frame, mapPages);
      CalmOn(v, w, k.W(), gone, Holdings(s, frame, mapPages).Keys);
      ghost var u := k.W();
      CalmInv(v, u, all);
      LessHas(v, u, all, s);
      ReapingCalm(v, u, s, all);
      ReapingSever(v, u, s, all);
      k.kind := Severing(u, s).kind;
      SeveringIs(u, s);
      assert k.W() == Severing(u, s);
    }
    ghost var x := k.W();
    ReapingInv(v, x, s, all);
    InvBlank(x);
    FrameCount(k);
    Deconstruct(k, s, cr3);
    FrameCount(k);
    ReapingEnds(v, x, k.W(), s, all);
  }

  lemma ScrubbedOwn(w: World, s: nat)
    requires IsTableAt(w, Node(s, Top))
    ensures Scrubbed(w, s).own == w.own
  {
  }

  lemma ReapingInv(v: World, w: World, s: nat, gone: set<Node>)
    requires Reaping(v, w, s, gone)
    ensures Inv(w)
  {
  }

  // ---- a task's streams -------------------------------------------------------------------------

  lemma StreamDues(a: seq<Task>, e: nat, streams: seq<Stream>, nullStream: nat)
    requires Counted(a, streams, nullStream) && StreamsSet(a, nullStream) && 0 < e < |a| && Used(a[e])
    ensures |streams| == STREAM_LIMIT && a[e].streamIn < STREAM_LIMIT && a[e].streamOut < STREAM_LIMIT
    ensures streams[a[e].streamIn].count > 0 && streams[a[e].streamIn].base != 0
    ensures OneLess(streams, a[e].streamIn)[a[e].streamOut].count > 0 && OneLess(streams, a[e].streamIn)[a[e].streamOut].base != 0
    ensures Counted(a[e := Unused(a[e])], OneLess(OneLess(streams, a[e].streamIn), a[e].streamOut), nullStream)
  {
    var x, y := a[e].streamIn, a[e].streamOut;
    RefsAtLeast(a, e, x);
    RefsAtLeast(a, e, y);
    var after := OneLess(OneLess(streams, x), y);
    assert !Used(Unused(a[e]));
    CountedStep(a, e, Unused(a[e]), streams, after, nullStream);
  }

  lemma BufferHeld(streams: seq<Stream>, x: nat)
    requires x < |streams|
    ensures forall n | n in Buffer(streams, x) :: n.Held? && n.space == KERNEL
  {
  }

  // What task t leaves behind: the buffers of streams nobody else uses, and a process's map.
  ghost predicate Dues(t: Task, streams: seq<Stream>, mapPages: nat, gone: set<Node>) {
    && t.streamIn < |streams| && streams[t.streamIn].count > 0
    && t.streamOut < |streams| && OneLess(streams, t.streamIn)[t.streamOut].count > 0
    && gone == Buffer(streams, t.streamIn) + Buffer(OneLess(streams, t.streamIn), t.streamOut)
               + (if t.thread then {} else Holdings(t.pid, t.mapFrame, mapPages).Keys)
  }

  lemma ClosedEntries(a: seq<Task>, b: seq<Task>, p: nat)
    requires DescendantsClosed(a, b, p)
    ensures SameEntries(a, b)
  {
    forall j | 0 <= j < |a| ensures SameEntry(a[j], b[j]) {
      assert Descends(a, j, p) ==> Used(a[j]);
      hide Descends;
    }
  }

  lemma NowGone(a: seq<Task>, b: seq<Task>, e: nat)
    requires 0 < e < |a| && DescendantsClosed(a, b, a[e].pid)
    ensures e < |b| && Gone(a, b[e := Unused(b[e])], e)
  {
    hide Descends;
  }

  // The table without the task, in the world without its space.
  lemma StandsOn(a: seq<Task>, b: seq<Task>, e: nat, v: World, w: World, before: seq<Stream>, after: seq<Stream>, nullStream: nat,
                 doomed: set<nat>, lastPid: nat, bitmap: array<bv32>, mapPages: nat, gone: set<Node>)
    requires Standing(a, v, before, nullStream, doomed, lastPid, bitmap, mapPages)
    requires Gone(a, b, e) && Used(a[e]) && Reaped(v, w, a[e].pid, gone)
    requires forall n | n in gone :: n.Held? && n.space in {KERNEL, a[e].pid}
    requires Counted(b, after, nullStream) && StreamsOk(after, w)
    ensures Standing(b, w, after, nullStream, doomed + Heirs(a, a[e].pid), lastPid, bitmap, mapPages)
  {
    var s := a[e].pid;
    hide Inv, Table, SpacesOk, DoomOk, HeldOk, Counted, StreamsOk, MapsApart, Pool, Gone, Reaped, KindsAfter, Less, StillReads, Used, Heirs, AllThreads;
    ReapedParts(v, w, s, gone);
    GoneSize(a, b, e);
    TopPid(a, e, lastPid);
    KernelIsSolo(v);
    SpacesThreads(a, v);
    GoneTable(a, b, e, lastPid);
    GoneSpaces(a, b, e, lastPid, v, w, gone);
    GoneDoom(a, b, e, v, w, doomed, lastPid);
    GoneHeld(a, b, e, lastPid, v, w, gone, mapPages);
    GoneMaps(a, b, e, v, w, bitmap, mapPages);
    GoneSet(a, b, e, nullStream);
  }

  lemma TopPid(a: seq<Task>, e: nat, lastPid: nat)
    requires Table(a, lastPid) && 0 < e < |a| && Used(a[e])
    ensures 0 < a[e].pid <= lastPid
  {
  }

  lemma KernelIsSolo(w: World)
    requires Inv(w)
    ensures KERNEL in w.kind && w.kind[KERNEL] == Solo
  {
  }

  lemma GoneSet(a: seq<Task>, b: seq<Task>, e: nat, nullStream: nat)
    requires StreamsSet(a, nullStream) && Gone(a, b, e)
    ensures StreamsSet(b, nullStream)
  {
    forall i | 0 <= i < |b| ensures b[i].streamIn == a[i].streamIn && b[i].streamOut == a[i].streamOut && (Used(b[i]) ==> Used(a[i])) {
      GoneEntry(a, b, e, i);
    }
    hide Gone;
  }

  // Another process's map still agrees.
  lemma ReapedAgrees(v: World, w: World, s: nat, gone: set<Node>, g: nat, words: seq<bv32>)
    requires Reaped(v, w, s, gone) && Walkable(v, g) && g != s && v.kind[g] == Solo
    requires Agrees(v, g, words) && WORD_BITS * |words| <= LOW_PAGES
    ensures Agrees(w, g, words)
  {
    ReapedParts(v, w, s, gone);
    hide Reaped, Less, KindsAfter, Inv, Look, Free, PageAt;
    forall x: nat | x < WORD_BITS * |words| ensures AgreesAt(w, g, words, x) {
      assert AgreesAt(v, g, words, x);
      PageAtIs(x);
    }
  }

  lemma GoerParts(sys: System, a: seq<Task>, v: World, streams: seq<Stream>, doomed: set<nat>, lastPid: nat, e: nat)
    requires Standing(a, v, streams, sys.nullStream, doomed, lastPid, sys.k.bitmap, sys.mapPages) && 0 < e < |a| && Used(a[e])
    ensures Table(a, lastPid) && Counted(a, streams, sys.nullStream) && StreamsSet(a, sys.nullStream) && StreamsOk(streams, v) && Inv(v)
    ensures HasSpace(v, a[e].pid) && v.own[Node(a[e].pid, Top)] == a[e].cr3 && a[e].pid != KERNEL && a[e].pid > 0
    ensures if a[e].thread then v.kind[a[e].pid] != Solo && Bare(v, a[e].pid)
            else v.kind[a[e].pid] == Solo && HoldsMap(v, a[e].pid, a[e].mapFrame, sys.mapPages)
  {
    hide LowReady, Counted, StreamsOk, DoomOk, MapsApart, Bare, Inv;
    assert SpaceOf(a[e], v, e);
    if a[e].thread && v.kind[a[e].pid].Linked? {
      LinkedIsBare(v, a[e].pid);
    }
  }

  // The streams of a task, which may be one and the same, have a user less each.
  method ReleaseStreams(sys: System, x: nat, y: nat) returns (ghost buffers: set<Node>)
    requires sys.k.Valid() && sys.k.withheld == {} && StreamsOk(sys.streams, sys.k.W())
    requires x < |sys.streams| && sys.streams[x].count > 0 && sys.streams[x].base != 0
    requires y < |sys.streams| && OneLess(sys.streams, x)[y].count > 0 && OneLess(sys.streams, x)[y].base != 0
    modifies sys`streams, sys.k`memory, sys.k`available, sys.k`own, sys.k.bitmap
    ensures sys.k.Valid() && sys.streams == OneLess(OneLess(old(sys.streams), x), y)
    ensures buffers == Buffer(old(sys.streams), x) + Buffer(OneLess(old(sys.streams), x), y)
    ensures Calm(old(sys.k.W()), sys.k.W(), buffers) && StreamsOk(sys.streams, sys.k.W())
    ensures forall n | n in buffers :: n.Held? && n.space == KERNEL
  {
    hide Inv, Calm, StreamsOk, Kernel.W, Kernel.Frames, Kernel.Valid, OneLess, Buffer;
    ghost var v, streams := sys.k.W(), sys.streams;
    ReleaseStream(sys, x);
    ghost var u := sys.k.W();
    ReleaseStream(sys, y);
    BufferHeld(streams, x);
    BufferHeld(OneLess(streams, x), y);
    buffers := Buffer(streams, x) + Buffer(OneLess(streams, x), y);
    CalmOn(v, u, sys.k.W(), Buffer(streams, x), Buffer(OneLess(streams, x), y));
  }

  // The collector takes a closed task that no processor runs: the tasks that come from it are closed,
  // its streams have a user less each, and its space, with its memory map, is taken down. What it owned
  // is free, and nothing else is; whatever other spaces read stays.
  method Reclaim(sys: System, e: nat)
    requires sys.Valid() && 0 < e < |sys.tasks| && sys.tasks[e].close && !sys.tasks[e].exec
    modifies sys`tasks, sys`streams, sys`doomed
    modifies sys.k`memory, sys.k`available, sys.k`own, sys.k`kind, sys.k.bitmap
    ensures sys.Valid() && Gone(old(sys.tasks), sys.tasks, e)
    ensures exists gone :: Dues(old(sys.tasks)[e], old(sys.streams), sys.mapPages, gone)
                           && Reaped(old(sys.k.W()), sys.k.W(), old(sys.tasks)[e].pid, gone)
    ensures e < |sys.tasks| && NoFlag(sys.tasks[e]) && sys.tasks[e].sleep == old(sys.tasks)[e].sleep
  {
    hide Inv, Pool, Gone, Reaped, Standing, Agrees, Kernel.W, Kernel.Valid, System.Valid, Dues;
    ValidIs(sys);
    ghost var v, a, streams, doomed, lastPid := sys.k.W(), sys.tasks, sys.streams, sys.doomed, sys.taskId;
    ghost var gone := TakeOut(sys, e);
    StillAgree(sys, a, sys.tasks, e, v, sys.k.W(), streams, doomed, lastPid, gone);
    AgreeingAll(sys);
    ReapedParts(v, sys.k.W(), a[e].pid, gone);
    GoneIsFree(a, sys.tasks, e);
    ValidIs(sys);
  }

  lemma GoneIsFree(a: seq<Task>, b: seq<Task>, e: nat)
    requires Gone(a, b, e)
    ensures e < |b| == |a| && NoFlag(b[e]) && b[e].sleep == a[e].sleep
  {
  }

  // What the collector does, but for the maps of the others.
  method TakeOut(sys: System, e: nat) returns (ghost gone: set<Node>)
    requires sys.k.Valid() && sys.k.withheld == {} && sys.mapPages > 0
    requires Standing(sys.tasks, sys.k.W(), sys.streams, sys.nullStream, sys.doomed, sys.taskId, sys.k.bitmap, sys.mapPages)
    requires 0 < e < |sys.tasks| && sys.tasks[e].close && !sys.tasks[e].exec
    modifies sys`tasks, sys`streams, sys`doomed
    modifies sys.k`memory, sys.k`available, sys.k`own, sys.k`kind, sys.k.bitmap
    ensures sys.k.Valid() && sys.k.withheld == {} && Gone(old(sys.tasks), sys.tasks, e)
    ensures Standing(sys.tasks, sys.k.W(), sys.streams, sys.nullStream, sys.doomed, sys.taskId, sys.k.bitmap, sys.mapPages)
    ensures Dues(old(sys.tasks)[e], old(sys.streams), sys.mapPages, gone) && Reaped(old(sys.k.W()), sys.k.W(), old(sys.tasks)[e].pid, gone)
  {
    hide Inv, Table, SpacesOk, DoomOk, HeldOk, Counted, StreamsOk, StreamsSet, MapsApart, Pool, Gone, Reaped, Standing, Calm, HoldsMap, Bare, Descends;
    hide Kernel.W, Kernel.Frames, Kernel.Valid, Free, DescendantsClosed, OneLess, Buffer, Heirs, Holdings, Dues;
    ghost var v, a, streams, doomed, lastPid := sys.k.W(), sys.tasks, sys.streams, sys.doomed, sys.taskId;
    assert Used(a[e]);
    GoerParts(sys, a, v, streams, doomed, lastPid, e);
    Child(sys, sys.tasks[e].pid);
    ghost var b := sys.tasks;
    ClosedEntries(a, b, a[e].pid);
    assert SameEntry(a[e], b[e]);
    FlagsCounted(a, b, streams, sys.nullStream);
    SetSame(a, b, sys.nullStream);
    StreamDues(b, e, streams, sys.nullStream);
    ghost var buffers := ReleaseStreams(sys, sys.tasks[e].streamIn, sys.tasks[e].streamOut);
    ghost var x := sys.k.W();
    var t := sys.tasks[e];
    TakeDown(sys.k, v, a[e].pid, buffers, t.thread, t.cr3, t.mapFrame, sys.mapPages);
    gone := if t.thread then buffers else buffers + Holdings(t.pid, t.mapFrame, sys.mapPages).Keys;
    ghost var w := sys.k.W();
    DuesAre(t, a[e], streams, sys.mapPages, buffers, gone);
    CalmInv(v, x, buffers);
    StreamsLeft(sys.streams, v, x, w, buffers, gone, a[e].pid);
    sys.tasks := sys.tasks[e := Unused(sys.tasks[e])];
    sys.doomed := doomed + Heirs(a, a[e].pid);
    NowGone(a, b, e);
    StandsOn(a, sys.tasks, e, v, w, streams, sys.streams, sys.nullStream, doomed, lastPid, sys.k.bitmap, sys.mapPages, gone);
  }

  // The maps of the others agree with their tables.
  ghost predicate AllAgreeing(tasks: seq<Task>, w: World, bitmap: array<bv32>)
    reads set t | t in tasks :: t.words
  {
    forall i | 0 < i < |tasks| && Used(tasks[i]) && !tasks[i].thread && tasks[i].words != bitmap ::
      Agrees(w, tasks[i].pid, tasks[i].words[..])
  }

  lemma AgreeingAll(sys: System)
    requires AllAgreeing(sys.tasks, sys.k.W(), sys.k.bitmap)
    requires Standing(sys.tasks, sys.k.W(), sys.streams, sys.nullStream, sys.doomed, sys.taskId, sys.k.bitmap, sys.mapPages)
    ensures sys.Agreement()
  {
    hide Agrees, Standing, Kernel.W, Used;
    forall i | 0 < i < |sys.tasks| && Used(sys.tasks[i]) && !sys.tasks[i].thread ensures sys.tasks[i].words != sys.k.bitmap {
      StandingOther(sys.tasks, sys.k.W(), sys.streams, sys.nullStream, sys.doomed, sys.taskId, sys.k.bitmap, sys.mapPages, i);
    }
  }

  lemma StillAgree(sys: System, a: seq<Task>, b: seq<Task>, e: nat, v: World, w: World, streams: seq<Stream>, doomed: set<nat>, lastPid: nat, gone: set<Node>)
    requires e < |a| && Used(a[e]) && Reaped(v, w, a[e].pid, gone) && Gone(a, b, e) && AllAgreeing(a, v, sys.k.bitmap)
    requires WORD_BITS * FRAME_WORDS * sys.mapPages <= LOW_PAGES
    requires Standing(a, v, streams, sys.nullStream, doomed, lastPid, sys.k.bitmap, sys.mapPages)
    ensures AllAgreeing(b, w, sys.k.bitmap)
  {
    hide Inv, Table, Counted, StreamsOk, StreamsSet, Gone, Reaped, Standing, Agrees, HoldsMap, Bare, Used;
    GoneSize(a, b, e);
    GoerParts(sys, a, v, streams, doomed, lastPid, e);
    forall i | 0 < i < |b| && Used(b[i]) && !b[i].thread && b[i].words != sys.k.bitmap
      ensures Agrees(w, b[i].pid, b[i].words[..])
    {
      GoneEntry(a, b, e, i);
      OtherPid(a, e, i, lastPid);
      StandingOther(a, v, streams, sys.nullStream, doomed, lastPid, sys.k.bitmap, sys.mapPages, i);
      GoerParts(sys, a, v, streams, doomed, lastPid, i);
      ReapedAgrees(v, w, a[e].pid, gone, a[i].pid, a[i].words[..]);
    }
  }

  lemma DuesAre(t: Task, x: Task, streams: seq<Stream>, mapPages: nat, buffers: set<Node>, gone: set<Node>)
    requires SameEntry(x, t)
    requires x.streamIn < |streams| && streams[x.streamIn].count > 0
    requires x.streamOut < |streams| && OneLess(streams, x.streamIn)[x.streamOut].count > 0
    requires buffers == Buffer(streams, x.streamIn) + Buffer(OneLess(streams, x.streamIn), x.streamOut)
    requires gone == if t.thread then buffers else buffers + Holdings(t.pid, t.mapFrame, mapPages).Keys
    requires forall n | n in buffers :: n.Held? && n.space == KERNEL
    ensures Dues(x, streams, mapPages, gone)
    ensures forall n | n in gone :: n.Held? && n.space in {KERNEL, x.pid}
    ensures x.pid != KERNEL ==> forall n | n in gone && n.space == KERNEL :: n in buffers
  {
    HoldingsHeld(t.pid, t.mapFrame, mapPages);
    hide OneLess, Buffer, Holdings;
  }

  lemma StreamsLeft(streams: seq<Stream>, v: World, x: World, w: World, buffers: set<Node>, gone: set<Node>, s: nat)
    requires StreamsOk(streams, x) && Less(v, x, buffers) && Reaped(v, w, s, gone) && s != KERNEL
    requires forall n | n in gone && n.space == KERNEL :: n in buffers
    ensures StreamsOk(streams, w)
  {
    ReapedParts(v, w, s, gone);
    hide Reaped, StillReads, KindsAfter, Inv;
    forall i | 0 <= i < |streams| && streams[i].base != 0 ensures Names(w, Held(KERNEL, streams[i].base), streams[i].base) {
      var n := Held(KERNEL, streams[i].base);
      assert Names(x, n, streams[i].base);
      assert n !in gone && n !in Nodes(v, s);
    }
  }
}
