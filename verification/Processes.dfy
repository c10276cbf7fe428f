// Processes and threads: who exists, which space each has, and who is about to go.
module Processes {
  import opened Bitmap
  import opened Layout
  import opened Spaces
  import opened Memory
  import opened Reshaping
  import opened Pages
  import opened Paging
  import opened Teardown
  import opened Merging
  import opened Lifecycle
  import opened UserMemory
  import opened Sharing
  import opened Connecting
  import opened Births
  import opened Execution
  import opened Ownership
  import opened Tasks

  // Every task in use has its space, and every space its task. A thread's space shares the entries of
  // its process, unless the process is gone; then the thread has its stacks and nothing else.
  ghost predicate SpacesOk(tasks: seq<Task>, w: World) {
    && KernelLow(w)
    && AllSpaces(tasks, w)
    && (forall s | s in w.kind :: HasTask(tasks, s))
    && (forall s | s in w.kind && w.kind[s].Severed? :: Bare(w, s))
  }

  ghost predicate AllSpaces(tasks: seq<Task>, w: World) {
    forall i | 0 <= i < |tasks| && Used(tasks[i]) :: SpaceOf(tasks[i], w, i)
  }

  ghost predicate SpaceOf(t: Task, w: World, i: nat) {
    && HasSpace(w, t.pid) && w.own[Node(t.pid, Top)] == t.cr3
    && (i > 0 ==> (t.thread <==> w.kind[t.pid] != Solo) && (w.kind[t.pid] != Severed ==> LowReady(w, t.pid)))
  }

  ghost predicate HasTask(tasks: seq<Task>, s: nat) {
    exists i :: 0 <= i < |tasks| && Used(tasks[i]) && tasks[i].pid == s
  }

  ghost predicate Bare(w: World, s: nat) {
    forall j: nat | j < ENTRIES && !Reserved(j) :: Node(s, Step(Top, j)) !in w.own
  }

  function GroupIn(kind: map<nat, Kind>, s: nat): nat
    requires s in kind
  {
    if kind[s].Linked? then kind[s].leader else s
  }

  // A doomed task is closed and stopped for good. A task that is not doomed has a parent in use that
  // is not doomed either, and a thread's parent is of its own process.
  ghost predicate DoomOk(tasks: seq<Task>, kind: map<nat, Kind>, doomed: set<nat>, lastPid: nat) {
    && (forall p | p in doomed :: 0 < p <= lastPid)
    && (forall i | 0 < i < |tasks| && Used(tasks[i]) && tasks[i].pid in doomed :: tasks[i].close && !tasks[i].active && !tasks[i].exec)
    && (forall i | 0 < i < |tasks| && Used(tasks[i]) && tasks[i].pid !in doomed :: HasParent(tasks, kind, doomed, i))
    && (forall s | s in kind && kind[s].Severed? :: s in doomed)
  }

  ghost predicate HasParent(tasks: seq<Task>, kind: map<nat, Kind>, doomed: set<nat>, i: nat)
    requires i < |tasks|
  {
    exists j :: 0 <= j < |tasks| && ParentIs(tasks, kind, doomed, i, j)
  }

  ghost predicate ParentIs(tasks: seq<Task>, kind: map<nat, Kind>, doomed: set<nat>, i: nat, j: nat)
    requires i < |tasks| && j < |tasks|
  {
    && Used(tasks[j]) && tasks[j].pid == tasks[i].parent && tasks[j].pid !in doomed
    && (tasks[i].thread ==>
          && j > 0 && tasks[i].pid in kind && tasks[j].pid in kind
          && GroupIn(kind, tasks[i].pid) == GroupIn(kind, tasks[j].pid))
  }

  // The frames of every process's memory map are held for it.
  ghost predicate HeldOk(tasks: seq<Task>, w: World, mapPages: nat) {
    forall i | 0 < i < |tasks| && Used(tasks[i]) && !tasks[i].thread :: HoldsMap(w, tasks[i].pid, tasks[i].mapFrame, mapPages)
  }

  // Every stream in use has a buffer of its own.
  ghost predicate StreamsOk(streams: seq<Stream>, w: World) {
    && (forall x | 0 <= x < |streams| && streams[x].base != 0 :: Names(w, Held(KERNEL, streams[x].base), streams[x].base))
    && (forall x, y | 0 <= x < |streams| && 0 <= y < |streams| && streams[x].base != 0 && streams[x].base == streams[y].base :: x == y)
  }

  // No two processes share a map, and a thread uses its process's.
  ghost predicate MapsApart(tasks: seq<Task>, kind: map<nat, Kind>, bitmap: array<bv32>, mapPages: nat) {
    && (forall i | 0 < i < |tasks| && Used(tasks[i]) && !tasks[i].thread ::
          tasks[i].words.Length == FRAME_WORDS * mapPages && tasks[i].words != bitmap)
    && (forall i, j | 0 < i < |tasks| && 0 < j < |tasks| && Used(tasks[i]) && Used(tasks[j])
                      && !tasks[i].thread && !tasks[j].thread && tasks[i].words == tasks[j].words :: i == j)
    && (forall i | 0 < i < |tasks| && Used(tasks[i]) && tasks[i].pid in kind && kind[tasks[i].pid].Linked? ::
          HasLeader(tasks, kind, i))
  }

  ghost predicate HasLeader(tasks: seq<Task>, kind: map<nat, Kind>, i: nat)
    requires i < |tasks| && tasks[i].pid in kind && kind[tasks[i].pid].Linked?
  {
    exists j :: 0 < j < |tasks| && Used(tasks[j]) && !tasks[j].thread
                && tasks[j].pid == kind[tasks[i].pid].leader && tasks[j].words == tasks[i].words
  }

  lemma FlagsOnly(a: seq<Task>, b: seq<Task>, w: World, bitmap: array<bv32>, mapPages: nat)
    requires SameEntries(a, b) && SpacesOk(a, w) && HeldOk(a, w, mapPages) && MapsApart(a, w.kind, bitmap, mapPages)
    ensures SpacesOk(b, w) && HeldOk(b, w, mapPages) && MapsApart(b, w.kind, bitmap, mapPages)
  {
    FlagsSpaces(a, b, w);
    FlagsMaps(a, b, w, bitmap, mapPages);
    hide SpacesOk, MapsApart, HoldsMap;
    forall i | 0 < i < |b| && Used(b[i]) && !b[i].thread ensures HoldsMap(w, b[i].pid, b[i].mapFrame, mapPages) {
      assert SameEntry(a[i], b[i]);
    }
  }

  lemma FlagsSpaces(a: seq<Task>, b: seq<Task>, w: World)
    requires SameEntries(a, b) && SpacesOk(a, w)
    ensures SpacesOk(b, w)
  {
    hide LowReady, Bare, KernelLow, HasSpace;
    forall i | 0 <= i < |b| && Used(b[i]) ensures SpaceOf(b[i], w, i) {
      assert SameEntry(a[i], b[i]) && SpaceOf(a[i], w, i);
    }
    forall s | s in w.kind ensures HasTask(b, s) {
      assert HasTask(a, s);
      var i :| 0 <= i < |a| && Used(a[i]) && a[i].pid == s;
      assert SameEntry(a[i], b[i]);
    }
  }

  lemma FlagsMaps(a: seq<Task>, b: seq<Task>, w: World, bitmap: array<bv32>, mapPages: nat)
    requires SameEntries(a, b) && MapsApart(a, w.kind, bitmap, mapPages)
    ensures MapsApart(b, w.kind, bitmap, mapPages)
  {
    assert forall i | 0 <= i < |a| :: SameEntry(a[i], b[i]);
    forall i | 0 < i < |b| && Used(b[i]) && b[i].pid in w.kind && w.kind[b[i].pid].Linked?
      ensures HasLeader(b, w.kind, i)
    {
      assert HasLeader(a, w.kind, i);
    }
  }

  // Flags change; who is doomed stays doomed, closed and stopped.
  lemma FlagsDoom(a: seq<Task>, b: seq<Task>, kind: map<nat, Kind>, doomed: set<nat>, lastPid: nat)
    requires SameEntries(a, b) && DoomOk(a, kind, doomed, lastPid)
    requires forall i | 0 < i < |b| && Used(b[i]) && b[i].pid in doomed :: b[i] == a[i]
    ensures DoomOk(b, kind, doomed, lastPid)
  {
    forall i | 0 < i < |b| && Used(b[i]) && b[i].pid !in doomed
      ensures HasParent(b, kind, doomed, i)
    {
      assert SameEntry(a[i], b[i]);
      assert HasParent(a, kind, doomed, i);
      var j :| 0 <= j < |a| && ParentIs(a, kind, doomed, i, j);
      assert SameEntry(a[j], b[j]);
      assert ParentIs(b, kind, doomed, i, j);
    }
    forall i | 0 < i < |b| && Used(b[i]) && b[i].pid in doomed
      ensures b[i].close && !b[i].active && !b[i].exec
    {
      assert SameEntry(a[i], b[i]);
    }
  }

  lemma FlagsTable(a: seq<Task>, b: seq<Task>, lastPid: nat)
    requires SameEntries(a, b) && Table(a, lastPid) && b[0] == a[0]
    ensures Table(b, lastPid)
  {
    assert forall i | 0 <= i < |a| :: SameEntry(a[i], b[i]);
  }

  lemma FlagsCounted(a: seq<Task>, b: seq<Task>, streams: seq<Stream>, nullStream: nat)
    requires SameEntries(a, b) && Counted(a, streams, nullStream)
    ensures Counted(b, streams, nullStream)
  {
    forall x: nat | x < STREAM_LIMIT ensures Refs(b, x) == Refs(a, x) {
      RefsSame(a, b, x);
    }
  }

  lemma TableParts(tasks: seq<Task>, lastPid: nat)
    requires Table(tasks, lastPid)
    ensures |tasks| == TASK_LIMIT
  {
  }

  // ---- a step in a process's own memory --------------------------------------------------------

  lemma PrivateSpaces(tasks: seq<Task>, v: World, w: World, s: nat)
    requires Inv(v) && SpacesOk(tasks, v) && Private(v, w, s) && KernelLow(w) && LowReady(v, s)
    ensures SpacesOk(tasks, w)
  {
    hide LowReady, KernelLow, ApartFrom, Pool;
    forall i | 0 <= i < |tasks| && Used(tasks[i]) ensures SpaceOf(tasks[i], w, i) {
      assert SpaceOf(tasks[i], v, i);
    }
    forall r | r in w.kind && w.kind[r].Severed? ensures Bare(w, r) {
      assert Bare(v, r);
      LowWalkable(v, s);
      GroupSolo(v, s);
    }
  }

  lemma PrivateHeld(tasks: seq<Task>, streams: seq<Stream>, v: World, w: World, s: nat, mapPages: nat)
    requires HeldOk(tasks, v, mapPages) && StreamsOk(streams, v) && Private(v, w, s)
    ensures HeldOk(tasks, w, mapPages) && StreamsOk(streams, w)
  {
    hide ApartFrom, Pool, LowReady;
    forall i | 0 < i < |tasks| && Used(tasks[i]) && !tasks[i].thread
      ensures HoldsMap(w, tasks[i].pid, tasks[i].mapFrame, mapPages)
    {
      assert HoldsMap(v, tasks[i].pid, tasks[i].mapFrame, mapPages);
    }
  }

  // Another process's map still agrees.
  lemma PrivateAgrees(v: World, w: World, s: nat, g: nat, words: seq<bv32>)
    requires Inv(v) && Private(v, w, s) && Agrees(v, g, words) && g in v.kind && v.kind[g] == Solo && HasSpace(v, g)
    requires s in v.kind && Group(v, s) != g && WORD_BITS * |words| <= LOW_PAGES
    ensures Agrees(w, g, words)
  {
    forall x: nat | x < WORD_BITS * |words| ensures AgreesAt(w, g, words, x) {
      assert AgreesAt(v, g, words, x);
      PageAtIs(x);
    }
  }

  class System {
    const k: Kernel
    const mapPages: nat
    const nullStream: nat
    var tasks: seq<Task>
    var streams: seq<Stream>
    var taskId: nat
    ghost var doomed: set<nat>
    ghost const pool: set<nat>

    constructor (k: Kernel, tasks: seq<Task>, streams: seq<Stream>, mapPages: nat, nullStream: nat, taskId: nat)
      ensures this.k == k && this.tasks == tasks && this.streams == streams && this.mapPages == mapPages
      ensures this.nullStream == nullStream && this.taskId == taskId && doomed == {} && pool == Pool(k.W())
    {
      this.k := k;
      this.tasks := tasks;
      this.streams := streams;
      this.mapPages := mapPages;
      this.nullStream := nullStream;
      this.taskId := taskId;
      doomed := {};
      pool := Pool(k.W());
    }

    ghost function Arrays(): set<array<bv32>>
      reads this
    {
      set i | 0 <= i < |tasks| :: tasks[i].words
    }

    // The map of every process agrees with its tables.
    ghost predicate Agreement()
      reads this, k, k.bitmap, Arrays()
    {
      forall i | 0 < i < |tasks| && Used(tasks[i]) && !tasks[i].thread :: Agrees(k.W(), tasks[i].pid, tasks[i].words[..])
    }

    ghost predicate Valid()
      reads this, k, k.bitmap, Arrays()
    {
      && k.Valid() && k.withheld == {}
      && mapPages == (k.limit / 8 + PAGE_BYTES - 1) / PAGE_BYTES
      && FIRST_PAGE < k.limit && WORD_BITS * FRAME_WORDS * mapPages <= LOW_PAGES
      && Table(tasks, taskId)
      && SpacesOk(tasks, k.W())
      && DoomOk(tasks, k.W().kind, doomed, taskId)
      && HeldOk(tasks, k.W(), mapPages)
      && Counted(tasks, streams, nullStream) && StreamsSet(tasks, nullStream) && StreamsOk(streams, k.W())
      && MapsApart(tasks, k.W().kind, k.bitmap, mapPages) && Agreement()
      && Pool(k.W()) == pool
    }

    // A task that is not about to go.
    ghost predicate Alive(t: nat)
      reads this
    {
      0 < t < |tasks| && Used(tasks[t]) && tasks[t].pid !in doomed
    }

    // Such a task that is on a processor.
    ghost predicate Running(t: nat)
      reads this
    {
      Alive(t) && tasks[t].exec
    }

    // Changes flags of one entry.
    ghost predicate FlagChange(t: nat, x: Task)
      reads this
    {
      0 < t < |tasks| && SameEntry(tasks[t], x) && tasks[t].pid !in doomed
    }

    method SetFlags(t: nat, x: Task)
      requires Valid() && FlagChange(t, x)
      modifies this`tasks
      ensures Valid() && tasks == old(tasks)[t := x]
    {
      hide SpacesOk, HeldOk, MapsApart, DoomOk, Table, Counted, StreamsSet, StreamsOk, Pool, Agrees, Inv;
      ghost var a := tasks;
      tasks := tasks[t := x];
      assert SameEntries(a, tasks) by { assert forall i | 0 <= i < |a| && i != t :: tasks[i] == a[i]; }
      FlagsOnly(a, tasks, k.W(), k.bitmap, mapPages);
      FlagsDoom(a, tasks, k.W().kind, doomed, taskId);
      TableParts(a, taskId);
      FlagsTable(a, tasks, taskId);
      FlagsCounted(a, tasks, streams, nullStream);
      SetSame(a, tasks, nullStream);
      forall i | 0 < i < |tasks| && Used(tasks[i]) && !tasks[i].thread
        ensures Agrees(k.W(), tasks[i].pid, tasks[i].words[..])
      {
        assert SameEntry(a[i], tasks[i]);
      }
    }

    // kernel_service_exit: the task asks to be reclaimed and is not selected again.
    method Exit(t: nat)
      requires Valid() && Running(t)
      modifies this`tasks
      ensures Valid()
      ensures tasks == old(tasks)[t := old(tasks)[t].(close := true, active := false)]
    {
      SetFlags(t, tasks[t].(close := true, active := false));
    }

    // A processor takes up a task that is active and on no processor.
    method Take(t: nat)
      requires Valid() && 0 < t < |tasks| && tasks[t].active && !tasks[t].exec
      modifies this`tasks
      ensures Valid() && Running(t)
      ensures tasks == old(tasks)[t := old(tasks)[t].(exec := true)]
    {
      assert tasks[t].pid !in doomed;
      SetFlags(t, tasks[t].(exec := true));
    }

    // A processor leaves a task.
    method Leave(t: nat)
      requires Valid() && Running(t)
      modifies this`tasks
      ensures Valid()
      ensures tasks == old(tasks)[t := old(tasks)[t].(exec := false)]
    {
      SetFlags(t, tasks[t].(exec := false));
    }

    // The entry of the process whose map task t uses.
    ghost predicate Owner(t: nat, g: nat)
      reads this, k, k.bitmap
    {
      && 0 < t < |tasks| && 0 < g < |tasks| && Used(tasks[t]) && Used(tasks[g]) && !tasks[g].thread
      && tasks[t].pid in k.W().kind && tasks[g].pid == Group(k.W(), tasks[t].pid) && tasks[g].words == tasks[t].words
    }

    lemma OwnerOf(t: nat) returns (g: nat)
      requires Valid() && Alive(t)
      ensures Owner(t, g)
      ensures Usable(k.W(), tasks[t].pid, tasks[t].words[..]) && k.W().own[Node(tasks[t].pid, Top)] == tasks[t].cr3
      ensures tasks[t].words != k.bitmap && tasks[t].words.Length == FRAME_WORDS * mapPages
    {
      hide Inv, Table, HeldOk, StreamsOk, Counted, StreamsSet, Pool, Agrees, KernelLow, LowReady;
      assert SpaceOf(tasks[t], k.W(), t);
      assert k.W().kind[tasks[t].pid] != Severed;
      if tasks[t].thread {
        assert HasLeader(tasks, k.W().kind, t);
        g :| 0 < g < |tasks| && Used(tasks[g]) && !tasks[g].thread
             && tasks[g].pid == k.W().kind[tasks[t].pid].leader && tasks[g].words == tasks[t].words;
      } else {
        g := t;
      }
    }

    // kernel_service_memory_alloc
    method MemoryAlloc(t: nat, bytes: nat) returns (address: nat, halted: bool)
      requires Valid() && Running(t)
      requires Bitmap.Bounded(tasks[t].words[..], k.limit, PagesFor(bytes))
      modifies k`memory, k`available, k`own, k.bitmap, tasks[t].words
      ensures halted <==> old(Exhausts(k.W(), tasks[t].pid, Free(tasks[t].words[..]), k.limit, PagesFor(bytes)))
      ensures halted ==> k.W().free == {}
      ensures !halted ==> Valid() && Private(old(k.W()), k.W(), tasks[t].pid)
      ensures !halted && address == 0 ==>
                && k.W() == old(k.W()) && tasks[t].words[..] == old(tasks[t].words[..])
                && (PagesFor(bytes) == 0 || NoFit(old(Free(tasks[t].words[..])), k.limit, PagesFor(bytes)))
                && (bytes == 0 || NoRoom(old(Free(tasks[t].words[..])), k.limit, bytes))
      ensures !halted && address != 0 ==> bytes > 0 && BytesHanded(old(k.W()), k.W(), tasks[t].pid, address, bytes)
      ensures !halted && address != 0 ==>
                && address % PAGE_BYTES == 0 && PagesFor(bytes) > 0
                && Allotted(old(k.W()), k.W(), tasks[t].pid, old(Free(tasks[t].words[..])), Free(tasks[t].words[..]),
                            k.limit, PagesFor(bytes), address / PAGE_BYTES)
    {
      hide Inv, Table, HeldOk, StreamsOk, Counted, StreamsSet, Pool, Agrees, KernelLow, LowReady, Private, SpacesOk, DoomOk, Usable, ApartFrom, MapsApart, Bit, Bitmap.Bounded, Exhausts, Allotted, BytesHanded, NoRoom;
      ghost var g := OwnerOf(t);
      ghost var v, s := k.W(), tasks[t].pid;
      UsableParts(v, s, tasks[t].words[..]);
      address, halted := UserAlloc(k, s, tasks[t].cr3, tasks[t].words, bytes);
      if !halted {
        ghost var w := k.W();
        UsableParts(w, s, tasks[t].words[..]);
        StepKeeps(tasks, streams, v, w, s, mapPages);
        forall i | 0 < i < |tasks| && Used(tasks[i]) && !tasks[i].thread
          ensures Agrees(w, tasks[i].pid, tasks[i].words[..])
        {
          if i == g {
            UsableAgrees(w, s, tasks[t].words[..]);
          } else {
            OtherProcess(tasks, taskId, v, k.bitmap, mapPages, i, g);
            PrivateAgrees(v, w, s, tasks[i].pid, tasks[i].words[..]);
          }
        }
      }
    }

    // Task t runs, and n pages from p lie in its map and may be given back.
    ghost predicate MayReturn(t: nat, p: nat, n: nat)
      reads this, k, k.bitmap
    {
      Running(t) && Lent(k.W(), tasks[t].pid, WORD_BITS * tasks[t].words.Length, p, n)
    }

    // In world v task t had those pages free; now it has n more of them, and no other process sees anything.
    ghost predicate Returned(t: nat, v: World, free: set<nat>, p: nat, n: nat)
      reads this, k, k.bitmap, Arrays()
    {
      && t < |tasks| && tasks[t].words in Arrays()
      && GivenBack(v, k.W(), tasks[t].pid, free, Free(tasks[t].words[..]), p, n)
      && Private(v, k.W(), tasks[t].pid)
    }

    // kernel_service_memory_release: the system is sound afterwards if and only if no page given back is
    // shared, or lies below the managed ones.
    method MemoryRelease(t: nat, address: nat, bytes: nat)
      requires Valid() && MayReturn(t, FirstReturned(address), PagesFor(bytes))
      modifies k`memory, k`available, k`own, k.bitmap, tasks[t].words
      ensures k.Valid() && Returned(t, old(k.W()), old(Free(tasks[t].words[..])), FirstReturned(address), PagesFor(bytes))
      ensures Valid() <==> old(Unshared(k.W(), tasks[t].pid, FirstReturned(address), PagesFor(bytes)))
      ensures BytesReturned(old(k.W()), k.W(), tasks[t].pid, old(Free(tasks[t].words[..])), Free(tasks[t].words[..]), address, bytes)
    {
      hide Inv, Table, HeldOk, StreamsOk, Counted, StreamsSet, Pool, Agrees, KernelLow, LowReady, Private, SpacesOk, DoomOk, Usable, ApartFrom, MapsApart, Bit, Lent, Emptied, Unshared, BytesReturned;
      ghost var g := OwnerOf(t);
      ghost var v, s := k.W(), tasks[t].pid;
      UsableParts(v, s, tasks[t].words[..]);
      UserRelease(k, s, tasks[t].cr3, tasks[t].words, address, bytes);
      if Usable(k.W(), s, tasks[t].words[..]) {
        ghost var w := k.W();
        UsableParts(w, s, tasks[t].words[..]);
        StepKeeps(tasks, streams, v, w, s, mapPages);
        forall i | 0 < i < |tasks| && Used(tasks[i]) && !tasks[i].thread
          ensures Agrees(w, tasks[i].pid, tasks[i].words[..])
        {
          if i == g {
            UsableAgrees(w, s, tasks[t].words[..]);
          } else {
            OtherProcess(tasks, taskId, v, k.bitmap, mapPages, i, g);
            PrivateAgrees(v, w, s, tasks[i].pid, tasks[i].words[..]);
          }
        }
      } else if Valid() {
        ghost var h := OwnerOf(t);
      }
    }

    // Task t has tables over n pages from a on, and what it shows to its own process is mapped there.
    ghost predicate MayShare(t: nat, u: nat, a: nat, n: nat)
      reads this, k, k.bitmap
    {
      Running(t) && Alive(u) && Source(k.W(), tasks[u].pid, tasks[t].pid, a, n) && 0 < n <= LOW_PAGES
    }

    // The map task u uses agrees with its tables.
    ghost predicate MapAgrees(u: nat)
      reads this, k, k.bitmap, Arrays()
    {
      0 < u < |tasks| && tasks[u].words in Arrays() && Usable(k.W(), tasks[u].pid, tasks[u].words[..])
    }

    // kernel_service_memory_share: pages of task t are shown to task u. The state is sound afterwards if
    // and only if it was bound to be: a place fits in the target's map and the frames suffice for its tables,
    // or no place fits and no page can be shown at all.
    method MemoryShare(t: nat, u: nat, source: nat, bytes: nat) returns (address: nat, ghost done: nat)
      requires Valid() && MayShare(t, u, PageOf(source), PagesFor(bytes))
      requires Bitmap.Bounded(tasks[u].words[..], k.limit, PagesFor(bytes))
      modifies k`memory, k`available, k`own, k.bitmap, tasks[u].words
      ensures k.Valid() && done <= PagesFor(bytes)
      ensures MapAgrees(u) <==> old(Holds(k.W(), tasks[u].pid, Free(tasks[u].words[..]), k.limit, PagesFor(bytes)))
      ensures Valid() <==> old(Holds(k.W(), tasks[u].pid, Free(tasks[u].words[..]), k.limit, PagesFor(bytes)))
      ensures HasSpace(k.W(), tasks[u].pid) && k.W().own[Node(tasks[u].pid, Top)] == tasks[u].cr3
      ensures Valid() <==> Tells(k.W(), tasks[u].pid, address / PAGE_BYTES, PagesFor(bytes))
      ensures Valid() ==> Private(old(k.W()), k.W(), tasks[u].pid)
      ensures address == 0 <==> NoFit(old(Free(tasks[u].words[..])), k.limit, PagesFor(bytes))
      ensures address == 0 <==> NoRoom(old(Free(tasks[u].words[..])), k.limit, bytes)
      ensures address != 0 && MapAgrees(u) ==> BytesShown(old(k.W()), k.W(), tasks[u].pid, address, tasks[t].pid, source, bytes)
      ensures address != 0 && MapAgrees(u) ==>
                Connected(old(k.W()), k.W(), tasks[u].pid, old(Free(tasks[u].words[..])), Free(tasks[u].words[..]),
                             k.limit, PagesFor(bytes), address / PAGE_BYTES, tasks[t].pid, PageOf(source))
    {
      hide Inv, Table, HeldOk, StreamsOk, Counted, StreamsSet, Pool, Agrees, KernelLow, LowReady, Private, SpacesOk, DoomOk, Usable, ApartFrom, MapsApart, Bit, Bitmap.Bounded, Readable, Connected, BytesShown, NoRoom, Source, Holds, Tells, Stretch, Shown;
      ghost var g := OwnerOf(u);
      ghost var h := OwnerOf(t);
      ghost var v, s := k.W(), tasks[u].pid;
      UsableParts(v, s, tasks[u].words[..]);
      address, done := UserShare(k, s, tasks[u].cr3, tasks[u].words, tasks[t].pid, tasks[t].cr3, source, bytes);
      if Usable(k.W(), s, tasks[u].words[..]) {
        ghost var w := k.W();
        UsableParts(w, s, tasks[u].words[..]);
        StepKeeps(tasks, streams, v, w, s, mapPages);
        forall i | 0 < i < |tasks| && Used(tasks[i]) && !tasks[i].thread
          ensures Agrees(w, tasks[i].pid, tasks[i].words[..])
        {
          if i == g {
            UsableAgrees(w, s, tasks[u].words[..]);
          } else {
            OtherProcess(tasks, taskId, v, k.bitmap, mapPages, i, g);
            PrivateAgrees(v, w, s, tasks[i].pid, tasks[i].words[..]);
          }
        }
      } else if Valid() {
        ghost var h' := OwnerOf(u);
      }
    }

    // The program of task t writes a word to one of its pages.
    method Store(t: nat, page: nat, i: nat, e: Entry)
      requires Valid() && Running(t) && page < LOW_PAGES && i < ENTRIES
      requires Owned(Look(k.W(), tasks[t].pid, PageAt(page)).flags)
      modifies k`memory
      ensures Valid()
      ensures Look(old(k.W()), tasks[t].pid, PageAt(page)).frame < |old(k.memory)|
      ensures k.memory == Put(old(k.memory), Look(old(k.W()), tasks[t].pid, PageAt(page)).frame, i, e)
      ensures SameTables(old(k.W()), k.W())
    {
      hide Inv, Table, HeldOk, StreamsOk, Counted, StreamsSet, Pool, KernelLow, LowReady, DoomOk, MapsApart, Bit, SpacesOk, Agrees, SameTables, Usable, Look, PageAt, PageOf, Put, Owned, Walkable, IsPage, Index, Up;
      ghost var g := OwnerOf(t);
      ghost var v, s := k.W(), tasks[t].pid;
      UsableParts(v, s, tasks[t].words[..]);
      PageAtIs(page);
      PageOfNumber(page);
      LeafOwner(v, s, PageAt(page));
      var frame := Address(k, s, tasks[t].cr3, page * PAGE_BYTES);
      StoreKeeps(v, s, PageAt(page), i, e);
      k.memory := Put(k.memory, frame, i, e);
      ghost var w := k.W();
      InvBlank(w);
      SameSpaces(tasks, streams, v, w, mapPages);
      forall j | 0 < j < |tasks| && Used(tasks[j]) && !tasks[j].thread
        ensures Agrees(w, tasks[j].pid, tasks[j].words[..])
      {
        OtherLength(tasks, v, k.bitmap, mapPages, j);
        SameAgrees(v, w, tasks[j].pid, tasks[j].words[..]);
      }
    }
  }

  // A leaf a process has to itself is a page it owns.
  lemma LeafOwner(w: World, s: nat, q: Path)
    requires Inv(w) && Walkable(w, s) && IsPage(q) && Owned(Look(w, s, q).flags)
    ensures exists t :: Names(w, Node(t, q), Look(w, s, q).frame)
    ensures Look(w, s, Up(q)) != EMPTY
  {
    OwnedIsNotEmpty(EMPTY);
    assert Look(w, s, Up(q)) != EMPTY;
    assert IsTable(Up(q));
    var t := Locate(w, s, Up(q));
    assert Typed(w, Node(t, Up(q)), q.digit);
    assert Names(w, Node(t, q), Look(w, s, q).frame);
  }

  lemma PageIsNoTable(w: World, n: Node, i: nat, e: Entry)
    requires Placed(w) && Injective(w) && Blank(w) && n in w.own && n.Node? && IsPage(n.path) && i < ENTRIES
    ensures w.own[n] < |w.memory|
    ensures var x := World(Put(w.memory, w.own[n], i, e), w.own, w.free, w.kind); SameTables(w, x) && Placed(x) && Blank(x)
  {
  }

  lemma StoreKeeps(w: World, s: nat, q: Path, i: nat, e: Entry)
    requires Inv(w) && Walkable(w, s) && IsPage(q) && Owned(Look(w, s, q).flags) && i < ENTRIES
    ensures Look(w, s, q).frame < |w.memory|
    ensures var x := World(Put(w.memory, Look(w, s, q).frame, i, e), w.own, w.free, w.kind);
            Inv(x) && SameTables(w, x)
  {
    hide Tables, Hangs, Kinds, Look, Owned;
    LeafOwner(w, s, q);
    var f := Look(w, s, q).frame;
    var t :| Names(w, Node(t, q), f);
    var x := World(Put(w.memory, f, i, e), w.own, w.free, w.kind);
    PageIsNoTable(w, Node(t, q), i, e);
    SameTablesInv(w, x);
  }

  lemma SameSpaces(tasks: seq<Task>, streams: seq<Stream>, v: World, w: World, mapPages: nat)
    requires Inv(v) && SameTables(v, w) && w.free == v.free && SpacesOk(tasks, v) && HeldOk(tasks, v, mapPages) && StreamsOk(streams, v)
    ensures SpacesOk(tasks, w) && HeldOk(tasks, w, mapPages) && StreamsOk(streams, w) && Pool(w) == Pool(v)
  {
    hide Inv, Look, LowReady;
    forall i | 0 <= i < |tasks| && Used(tasks[i]) ensures SpaceOf(tasks[i], w, i) {
      assert SpaceOf(tasks[i], v, i);
      if LowReady(v, tasks[i].pid) {
        GivenLow(v, w, tasks[i].pid);
      }
    }
    forall r | r in w.kind && w.kind[r].Severed? ensures Bare(w, r) {
      assert Bare(v, r);
    }
    forall i | 0 < i < |tasks| && Used(tasks[i]) && !tasks[i].thread
      ensures HoldsMap(w, tasks[i].pid, tasks[i].mapFrame, mapPages)
    {
      assert HoldsMap(v, tasks[i].pid, tasks[i].mapFrame, mapPages);
    }
  }

  lemma SameAgrees(v: World, w: World, g: nat, words: seq<bv32>)
    requires Inv(v) && SameTables(v, w) && Walkable(v, g) && Agrees(v, g, words) && WORD_BITS * |words| <= LOW_PAGES
    ensures Agrees(w, g, words)
  {
    forall x: nat | x < WORD_BITS * |words| ensures AgreesAt(w, g, words, x) {
      assert AgreesAt(v, g, words, x);
      PageAtIs(x);
      SameTablesWalk(v, w, g, PageAt(x));
    }
  }

  lemma OtherLength(tasks: seq<Task>, w: World, bitmap: array<bv32>, mapPages: nat, i: nat)
    requires SpacesOk(tasks, w) && MapsApart(tasks, w.kind, bitmap, mapPages)
    requires 0 < i < |tasks| && Used(tasks[i]) && !tasks[i].thread
    ensures Walkable(w, tasks[i].pid) && |tasks[i].words[..]| == FRAME_WORDS * mapPages
  {
    hide SpacesOk;
    ProcessIsSolo(tasks, w, i);
  }

  lemma StepKeeps(tasks: seq<Task>, streams: seq<Stream>, v: World, w: World, s: nat, mapPages: nat)
    requires Inv(v) && SpacesOk(tasks, v) && Private(v, w, s) && KernelLow(w) && LowReady(v, s)
    requires HeldOk(tasks, v, mapPages) && StreamsOk(streams, v)
    ensures SpacesOk(tasks, w) && HeldOk(tasks, w, mapPages) && StreamsOk(streams, w)
    ensures w.kind == v.kind && Pool(w) == Pool(v)
  {
    hide Inv, SpacesOk, Private, KernelLow, LowReady, HeldOk, StreamsOk;
    PrivateSpaces(tasks, v, w, s);
    PrivateHeld(tasks, streams, v, w, s, mapPages);
    PrivateKind(v, w, s);
  }

  // Two processes have two spaces and two maps.
  lemma OtherProcess(tasks: seq<Task>, lastPid: nat, w: World, bitmap: array<bv32>, mapPages: nat, i: nat, g: nat)
    requires Table(tasks, lastPid) && SpacesOk(tasks, w) && MapsApart(tasks, w.kind, bitmap, mapPages)
    requires 0 < i < |tasks| && 0 < g < |tasks| && i != g
    requires Used(tasks[i]) && Used(tasks[g]) && !tasks[i].thread && !tasks[g].thread
    ensures tasks[i].pid != tasks[g].pid && tasks[i].words != tasks[g].words && tasks[i].words != bitmap
    ensures tasks[i].pid in w.kind && w.kind[tasks[i].pid] == Solo && HasSpace(w, tasks[i].pid)
    ensures |tasks[i].words[..]| == FRAME_WORDS * mapPages
  {
    hide SpacesOk;
    ProcessIsSolo(tasks, w, i);
    DistinctPids(tasks, lastPid, i, g);
  }

  lemma PrivateKind(v: World, w: World, s: nat)
    requires Private(v, w, s)
    ensures w.kind == v.kind && Pool(w) == Pool(v)
  {
  }

  lemma UsableAgrees(w: World, s: nat, words: seq<bv32>)
    requires Usable(w, s, words)
    ensures Agrees(w, Group(w, s), words)
  {
  }

  lemma ProcessIsSolo(tasks: seq<Task>, w: World, i: nat)
    requires SpacesOk(tasks, w) && 0 < i < |tasks| && Used(tasks[i]) && !tasks[i].thread
    ensures tasks[i].pid in w.kind && w.kind[tasks[i].pid] == Solo && HasSpace(w, tasks[i].pid)
  {
    assert SpaceOf(tasks[i], w, i);
  }

  lemma DistinctPids(tasks: seq<Task>, lastPid: nat, i: nat, j: nat)
    requires Table(tasks, lastPid) && i < |tasks| && j < |tasks| && i != j && Used(tasks[i]) && Used(tasks[j])
    ensures tasks[i].pid != tasks[j].pid
  {
  }

  // In a sound system no two processes, with their threads, can reach each other's memory.
  lemma ProcessesApart(sys: System, i: nat, j: nat, p: Path, q: Path)
    requires sys.Valid() && 0 < i < |sys.tasks| && 0 < j < |sys.tasks| && i != j
    requires Used(sys.tasks[i]) && Used(sys.tasks[j]) && !sys.tasks[i].thread && !sys.tasks[j].thread
    requires IsPage(p) && IsPage(q)
    requires Owned(Look(sys.k.W(), sys.tasks[i].pid, p).flags) && Owned(Look(sys.k.W(), sys.tasks[j].pid, q).flags)
    ensures Look(sys.k.W(), sys.tasks[i].pid, p).frame != Look(sys.k.W(), sys.tasks[j].pid, q).frame
  {
    var w := sys.k.W();
    hide Inv, Look, MapsApart, HeldOk, DoomOk, StreamsOk, Counted, Agrees, KernelLow;
    ProcessIsSolo(sys.tasks, w, i);
    ProcessIsSolo(sys.tasks, w, j);
    DistinctPids(sys.tasks, sys.taskId, i, j);
    if Look(w, sys.tasks[i].pid, p).frame == Look(w, sys.tasks[j].pid, q).frame {
      OneOwner(w, sys.tasks[i].pid, sys.tasks[j].pid, p, q);
    }
  }
}
