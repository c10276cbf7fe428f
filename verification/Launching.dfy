// A new task takes its place among the others: kernel_task_add, kernel_exec and kernel_service_thread.
module Launching {
  import opened Bitmap
  import opened Layout
  import opened Spaces
  import opened Memory
  import opened Reshaping
  import opened Pages
  import opened Paging
  import opened Teardown
  import opened Merging
  import opened Lifecycle
  import opened UserMemory
  import opened Births
  import opened Execution
  import opened Tasks
  import opened Processes

  // Task x is to take the free entry t, started by the task of entry r.
  ghost predicate Joins(a: seq<Task>, t: nat, x: Task, r: nat, kind: map<nat, Kind>, doomed: set<nat>, lastPid: nat) {
    && 0 < t < |a| && r < |a| && !Used(a[t]) && x.secured && Used(a[r])
    && x.pid == lastPid + 1 && x.parent == a[r].pid && a[r].pid !in doomed
    && (x.thread ==> r > 0 && x.pid in kind && a[r].pid in kind && GroupIn(kind, x.pid) == GroupIn(kind, a[r].pid))
  }

  lemma AddTable(a: seq<Task>, t: nat, x: Task, r: nat, kind: map<nat, Kind>, doomed: set<nat>, lastPid: nat)
    requires Table(a, lastPid) && Joins(a, t, x, r, kind, doomed, lastPid)
    ensures Table(a[t := x], lastPid + 1)
  {
  }

  lemma AddSpaces(a: seq<Task>, t: nat, x: Task, v: World, w: World)
    requires SpacesOk(a, v) && Born(v, w, x.pid, {}) && 0 < t < |a| && !Used(a[t]) && Used(x) && SpaceOf(x, w, t)
    requires w.kind[x.pid] != Severed
    ensures SpacesOk(a[t := x], w)
  {
    BornSpaces(v, w, x.pid, {});
    hide Born, LowReady, Bare, SpaceOf, KernelLow, NewcomersOnly, HasTask, Used, AllSpaces, KernelKept;
    AddSpaceOf(a, t, x, v, w);
    AddHasTask(a, t, x, v, w);
    AddBare(a, x.pid, v, w);
  }

  lemma AddBare(a: seq<Task>, s: nat, v: World, w: World)
    requires SpacesOk(a, v) && KernelKept(v, w, s) && NewcomersOnly(v, w, s) && s in w.kind && w.kind[s] != Severed
    ensures forall r | r in w.kind && w.kind[r].Severed? :: Bare(w, r)
  {
    hide Bare, AllSpaces, KernelLow, HasTask, NewcomersOnly;
    forall r | r in w.kind && w.kind[r].Severed? ensures Bare(w, r) {
      StillBare(v, w, s, r);
    }
  }

  lemma AddSpaceOf(a: seq<Task>, t: nat, x: Task, v: World, w: World)
    requires AllSpaces(a, v) && Born(v, w, x.pid, {}) && 0 < t < |a| && SpaceOf(x, w, t)
    ensures AllSpaces(a[t := x], w)
  {
    hide Born, SpaceOf, Used;
    var b := a[t := x];
    forall i | 0 <= i < |b| && Used(b[i]) ensures SpaceOf(b[i], w, i) {
      if i != t {
        StillSpace(v, w, x.pid, {}, a[i], i);
      }
    }
  }

  lemma AddHasTask(a: seq<Task>, t: nat, x: Task, v: World, w: World)
    requires SpacesOk(a, v) && KernelKept(v, w, x.pid) && 0 < t < |a| && !Used(a[t]) && Used(x)
    ensures forall s | s in w.kind :: HasTask(a[t := x], s)
  {
    hide Bare, AllSpaces, KernelLow, HasTask, Used;
    forall s | s in w.kind ensures HasTask(a[t := x], s) {
      if s == x.pid {
        NewTask(a, t, x);
      } else {
        StillTask(a, t, x, s);
      }
    }
  }

  lemma NewTask(a: seq<Task>, t: nat, x: Task)
    requires t < |a| && Used(x)
    ensures HasTask(a[t := x], x.pid)
  {
    assert a[t := x][t] == x;
  }

  lemma StillTask(a: seq<Task>, t: nat, x: Task, s: nat)
    requires t < |a| && !Used(a[t]) && HasTask(a, s)
    ensures HasTask(a[t := x], s)
  {
    var i :| 0 <= i < |a| && Used(a[i]) && a[i].pid == s;
    assert a[t := x][i] == a[i];
  }

  lemma BornSpaces(v: World, w: World, s: nat, limbo: set<nat>)
    requires Born(v, w, s, limbo)
    ensures KernelKept(v, w, s) && s !in v.kind && s in w.kind && NewcomersOnly(v, w, s) && KernelLow(w)
  {
    hide Inv, Pool;
  }

  lemma StillSpace(v: World, w: World, s: nat, limbo: set<nat>, t: Task, i: nat)
    requires Born(v, w, s, limbo) && SpaceOf(t, v, i)
    ensures SpaceOf(t, w, i)
  {
    hide Inv, Pool, LowReady, NewcomersOnly, KernelLow, NobodyLinked;
  }

  lemma StillBare(v: World, w: World, s: nat, r: nat)
    requires NewcomersOnly(v, w, s) && r != s && Bare(v, r)
    ensures Bare(w, r)
  {
  }

  lemma AddDoom(a: seq<Task>, t: nat, x: Task, r: nat, v: World, w: World, doomed: set<nat>, lastPid: nat)
    requires DoomOk(a, v.kind, doomed, lastPid) && Joins(a, t, x, r, w.kind, doomed, lastPid)
    requires KernelKept(v, w, x.pid) && x.pid !in v.kind && w.kind[x.pid] != Severed
    ensures DoomOk(a[t := x], w.kind, doomed, lastPid + 1)
  {
    var b := a[t := x];
    forall i | 0 < i < |b| && Used(b[i]) && b[i].pid !in doomed ensures HasParent(b, w.kind, doomed, i) {
      if i != t {
        assert HasParent(a, v.kind, doomed, i);
        var j :| 0 <= j < |a| && ParentIs(a, v.kind, doomed, i, j);
        assert ParentIs(b, w.kind, doomed, i, j);
      } else {
        assert ParentIs(b, w.kind, doomed, t, r);
      }
    }
  }

  lemma AddHeld(a: seq<Task>, t: nat, x: Task, v: World, w: World, mapPages: nat)
    requires HeldOk(a, v, mapPages) && OwnGrows(v, w) && 0 < t < |a|
    requires !x.thread ==> HoldsMap(w, x.pid, x.mapFrame, mapPages)
    ensures HeldOk(a[t := x], w, mapPages)
  {
    var b := a[t := x];
    forall i | 0 < i < |b| && Used(b[i]) && !b[i].thread ensures HoldsMap(w, b[i].pid, b[i].mapFrame, mapPages) {
      assert i != t ==> HoldsMap(v, a[i].pid, a[i].mapFrame, mapPages);
    }
  }

  // A thread uses the map of its leader, a process one nobody has.
  ghost predicate MapJoins(a: seq<Task>, t: nat, x: Task, kind: map<nat, Kind>, bitmap: array<bv32>, mapPages: nat) {
    if x.thread then
      x.pid in kind && kind[x.pid].Linked? &&
      exists j :: 0 < j < |a| && Used(a[j]) && !a[j].thread && a[j].pid == kind[x.pid].leader && a[j].words == x.words
    else
      && x.words.Length == FRAME_WORDS * mapPages && x.words != bitmap && (x.pid in kind ==> !kind[x.pid].Linked?)
      && forall j | 0 <= j < |a| :: a[j].words != x.words
  }

  lemma AddMaps(a: seq<Task>, t: nat, x: Task, v: World, w: World, bitmap: array<bv32>, mapPages: nat)
    requires MapsApart(a, v.kind, bitmap, mapPages) && 0 < t < |a| && !Used(a[t]) && KernelKept(v, w, x.pid)
    requires MapJoins(a, t, x, w.kind, bitmap, mapPages)
    requires forall i | 0 < i < |a| && Used(a[i]) :: a[i].pid in v.kind
    requires x.pid !in v.kind
    ensures MapsApart(a[t := x], w.kind, bitmap, mapPages)
  {
    var b := a[t := x];
    forall i | 0 < i < |b| && Used(b[i]) && b[i].pid in w.kind && w.kind[b[i].pid].Linked? ensures HasLeader(b, w.kind, i) {
      if i != t {
        assert HasLeader(a, v.kind, i);
        var j :| 0 < j < |a| && Used(a[j]) && !a[j].thread && a[j].pid == v.kind[a[i].pid].leader && a[j].words == a[i].words;
        assert b[j] == a[j];
      } else {
        var j :| 0 < j < |a| && Used(a[j]) && !a[j].thread && a[j].pid == w.kind[x.pid].leader && a[j].words == x.words;
        assert b[j] == a[j];
      }
    }
  }

  // Whatever another process reads is as before, so its map still agrees.
  lemma BornAgrees(v: World, w: World, s: nat, limbo: set<nat>, g: nat, words: seq<bv32>)
    requires Born(v, w, s, limbo) && Walkable(v, g) && Agrees(v, g, words) && WORD_BITS * |words| <= LOW_PAGES
    ensures Agrees(w, g, words)
  {
    hide Inv, Look, Free, Pool, PageAt;
    forall x: nat | x < WORD_BITS * |words| ensures AgreesAt(w, g, words, x) {
      assert AgreesAt(v, g, words, x);
      PageAtIs(x);
    }
  }

  // A stream with a frame of its own, made where no stream was.
  ghost predicate StreamMade(v: World, w: World, before: seq<Stream>, after: seq<Stream>, x: nat) {
    && x < |before| && before[x].base == 0 && |after| == |before|
    && (forall y | 0 <= y < |before| && y != x :: after[y].base == before[y].base)
    && after[x].base in v.free && Names(w, Held(KERNEL, after[x].base), after[x].base)
  }

  lemma MadeOk(v: World, w: World, before: seq<Stream>, after: seq<Stream>, x: nat)
    requires Placed(v) && StreamsOk(before, v) && OwnGrows(v, w) && StreamMade(v, w, before, after, x)
    ensures StreamsOk(after, w)
  {
    forall y | 0 <= y < |before| && before[y].base != 0 ensures before[y].base != after[x].base {
      assert Names(v, Held(KERNEL, before[y].base), before[y].base);
    }
  }

  // ---- the entry and its streams ---------------------------------------------------------------

  // A fresh entry: its name and numbers are set, and nothing but the claim on the entry is.
  function NewEntry(e: Task, pid: nat, parent: nat): Task {
    Unused(e).(secured := true, pid := pid, parent := parent, streamIn := NO_STREAM, streamOut := NO_STREAM)
  }

  predicate NoFlag(x: Task) {
    !x.active && !x.exec && !x.close && !x.daemon && !x.thread && !x.init && !x.secured
  }

  // Of all flags only the claim is set, and the numbers are those of the new task; how long the entry sleeps, and
  // all else, is as its last task left it.
  predicate Claimed(e: Task, x: Task, pid: nat, parent: nat) {
    && x.secured && !x.active && !x.exec && !x.close && !x.daemon && !x.thread && !x.init
    && x.pid == pid && x.parent == parent && x.sleep == e.sleep && x.cr3 == e.cr3 && x.words == e.words && x.mapFrame == e.mapFrame
  }

  // kernel_task_add: takes the first free entry, if there is one.
  method AddTask(sys: System, r: nat) returns (t: nat)
    requires |sys.tasks| == TASK_LIMIT && r < TASK_LIMIT
    modifies sys`tasks, sys`taskId
    ensures t <= TASK_LIMIT && forall i | 0 <= i < t :: Used(old(sys.tasks)[i])
    ensures t == TASK_LIMIT ==> sys.tasks == old(sys.tasks) && sys.taskId == old(sys.taskId)
    ensures t < TASK_LIMIT ==>
              && !Used(old(sys.tasks)[t]) && sys.taskId == old(sys.taskId) + 1
              && sys.tasks == old(sys.tasks)[t := NewEntry(old(sys.tasks)[t], old(sys.taskId) + 1, old(sys.tasks)[r].pid)]
    ensures t < TASK_LIMIT ==> NoFlag(old(sys.tasks)[t]) && Claimed(old(sys.tasks)[t], sys.tasks[t], old(sys.taskId) + 1, old(sys.tasks)[r].pid)
    ensures forall i | 0 <= i < t :: !NoFlag(old(sys.tasks)[i])
  {
    t := 0;
    while t < TASK_LIMIT
      invariant t <= TASK_LIMIT && forall i | 0 <= i < t :: Used(sys.tasks[i])
      invariant sys.tasks == old(sys.tasks) && sys.taskId == old(sys.taskId)
    {
      if !Used(sys.tasks[t]) {
        sys.taskId := sys.taskId + 1;
        sys.tasks := sys.tasks[t := NewEntry(sys.tasks[t], sys.taskId, sys.tasks[r].pid)];
        return;
      }
      t := t + 1;
    }
  }

  // kernel_stream: the first slot not in use gets a buffer and one user.
  method OpenStream(sys: System, ghost v: World, ghost s: nat, ghost limbo: set<nat>, ghost cr3: nat)
    returns (ok: bool, x: nat)
    requires sys.k.Valid() && Raw(v, sys.k.W(), s, limbo, cr3) && |sys.streams| == STREAM_LIMIT
    modifies sys`streams, sys.k`available, sys.k`own, sys.k.bitmap
    ensures !ok ==> (forall y | 0 <= y < STREAM_LIMIT :: old(sys.streams)[y].base != 0) || NoFit(sys.k.W().free, sys.k.limit, 1)
    ensures ok ==>
              && x < STREAM_LIMIT && (forall y | 0 <= y < x :: old(sys.streams)[y].base != 0) && old(sys.streams)[x].base == 0
              && sys.k.Valid() && Raw(v, sys.k.W(), s, limbo, cr3)
              && SameWalks(old(sys.k.W()), sys.k.W()) && OwnGrows(old(sys.k.W()), sys.k.W())
              && |sys.streams| == STREAM_LIMIT && sys.streams[x].count == 1 && sys.streams == old(sys.streams)[x := sys.streams[x]]
              && StreamMade(old(sys.k.W()), sys.k.W(), old(sys.streams), sys.streams, x) && sys.streams[x].base != 0
  {
    hide Raw, SameWalks, OwnGrows, Inv, Kernel.Frames, Kernel.Valid, Kernel.W, NoFit, StreamMade, Names;
    x := 0;
    while x < STREAM_LIMIT && sys.streams[x].base != 0
      invariant x <= STREAM_LIMIT && forall y | 0 <= y < x :: sys.streams[y].base != 0
    {
      x := x + 1;
    }
    if x == STREAM_LIMIT {
      return false, x;
    }
    var base := Keep(sys.k, v, s, limbo, cr3, KERNEL, 1);
    if base == 0 {
      return false, x;
    }
    MadeIs(old(sys.k.W()), sys.k.W(), sys.streams, x, base);
    sys.streams := sys.streams[x := Stream(base, 1)];
    return true, x;
  }

  lemma MadeIs(v: World, w: World, before: seq<Stream>, x: nat, base: nat)
    requires x < |before| && before[x].base == 0 && Range(base, 1) <= v.free
    requires forall y: nat | base <= y < base + 1 :: Names(w, Held(KERNEL, y), y)
    ensures StreamMade(v, w, before, before[x := Stream(base, 1)], x)
  {
    assert Range(base, 1) == {base} && Names(w, Held(KERNEL, base), base);
  }

  // How a new process's output is connected.
  datatype Flow = ToParentIn | ToOwnIn | ToParentOut

  function OutOf(flow: Flow, parent: Task, own: nat): nat {
    match flow
    case ToParentIn => parent.streamIn
    case ToOwnIn => own
    case ToParentOut => parent.streamOut
  }

  // Entry t has its two streams now, and nothing else has changed.
  ghost predicate Wired(a: seq<Task>, b: seq<Task>, t: nat) {
    && t < |a| && |b| == |a| && b[t].streamIn < NO_STREAM && b[t].streamOut < NO_STREAM
    && b == a[t := a[t].(streamIn := b[t].streamIn, streamOut := b[t].streamOut)]
  }

  // The task's input is a stream that was not in use.
  predicate NewStream(before: seq<Stream>, tasks: seq<Task>, t: nat) {
    t < |tasks| && tasks[t].streamIn < |before| && before[tasks[t].streamIn].base == 0
  }

  // The stream was not in use.
  predicate Own(before: seq<Stream>, x: Task) {
    x.streamOut < |before| && x.streamOut != x.streamIn && before[x.streamOut].base == 0
  }

  // What the task writes goes to its creator's input, or to where its creator writes, if there is such a stream,
  // and otherwise to a stream of its own; or it is what the task reads itself.
  predicate Outlet(flow: Flow, parent: Task, before: seq<Stream>, x: Task) {
    && (flow == ToParentIn ==> if parent.streamIn < NO_STREAM then x.streamOut == parent.streamIn else Own(before, x))
    && (flow == ToParentOut ==> if parent.streamOut < NO_STREAM then x.streamOut == parent.streamOut else Own(before, x))
    && (flow == ToOwnIn ==> x.streamOut == x.streamIn)
  }

  // What the stream steps keep while a task is on its way.
  ghost predicate Flowing(sys: System)
    reads sys, sys.k, sys.k.bitmap
  {
    && |sys.tasks| == TASK_LIMIT && |sys.streams| == STREAM_LIMIT
    && Counted(sys.tasks, sys.streams, sys.nullStream) && StreamsOk(sys.streams, sys.k.W())
  }

  // A new task's output: one more user of the stream it was given, or a stream of its own.
  method Output(sys: System, ghost v: World, ghost s: nat, ghost limbo: set<nat>, ghost cr3: nat, t: nat, given: nat)
    returns (ok: bool, out: nat)
    requires sys.k.Valid() && Raw(v, sys.k.W(), s, limbo, cr3) && Flowing(sys)
    requires 0 < t < TASK_LIMIT && Used(sys.tasks[t]) && sys.tasks[t].streamOut == NO_STREAM
    requires given <= NO_STREAM && (given < NO_STREAM ==> sys.streams[given].base != 0)
    modifies sys`tasks, sys`streams, sys.k`available, sys.k`own, sys.k.bitmap
    ensures !ok ==> NoFit(sys.k.W().free, sys.k.limit, 1)
    ensures ok ==>
              && sys.k.Valid() && Raw(v, sys.k.W(), s, limbo, cr3) && Flowing(sys)
              && SameWalks(old(sys.k.W()), sys.k.W()) && OwnGrows(old(sys.k.W()), sys.k.W())
              && out < NO_STREAM && (if given < NO_STREAM then out == given else old(sys.streams)[out].base == 0)
              && sys.tasks == old(sys.tasks)[t := old(sys.tasks)[t].(streamOut := out)]
  {
    hide Raw, SameWalks, OwnGrows, Inv, Kernel.Frames, Kernel.Valid, StreamsOk, Counted, NoFit, Kernel.W, StreamMade;
    ghost var a, before, w := sys.tasks, sys.streams, sys.k.W();
    out := given;
    if given != NO_STREAM {
      SharedStream(a, t, before, sys.nullStream, given);
      sys.streams := sys.streams[given := sys.streams[given].(count := sys.streams[given].count + 1)];
      SameBases(before, sys.streams, w);
      NothingMoved(w);
    } else {
      SlotLeft(a, before, sys.nullStream, t);
      ok, out := OpenStream(sys, v, s, limbo, cr3);
      if !ok {
        return;
      }
      MadeStreams(v, w, sys.k.W(), s, limbo, cr3, before, sys.streams, out);
      OtherStream(a, t, before, sys.streams, sys.nullStream, out);
    }
    sys.tasks := sys.tasks[t := sys.tasks[t].(streamOut := out)];
    ok := true;
  }

  // Gives a new task its streams: an input of its own, and the output it was started with. There is
  // always a slot left for them.
  method Connect(sys: System, ghost v: World, ghost s: nat, ghost limbo: set<nat>, ghost cr3: nat, t: nat, r: nat, flow: Flow)
    returns (ok: bool)
    requires sys.k.Valid() && Raw(v, sys.k.W(), s, limbo, cr3) && Flowing(sys)
    requires 0 < t < TASK_LIMIT && r < TASK_LIMIT && r != t
    requires Used(sys.tasks[t]) && sys.tasks[t].streamIn == NO_STREAM && sys.tasks[t].streamOut == NO_STREAM
    requires Used(sys.tasks[r]) && sys.tasks[r].streamIn <= NO_STREAM && sys.tasks[r].streamOut <= NO_STREAM
    requires r == 0 ==> sys.tasks[0].streamIn in {NO_STREAM, sys.nullStream} && sys.tasks[0].streamOut in {NO_STREAM, sys.nullStream}
    modifies sys`tasks, sys`streams, sys.k`available, sys.k`own, sys.k.bitmap
    ensures !ok ==> NoFit(sys.k.W().free, sys.k.limit, 1)
    ensures ok ==>
              && sys.k.Valid() && Raw(v, sys.k.W(), s, limbo, cr3) && Flowing(sys)
              && SameWalks(old(sys.k.W()), sys.k.W()) && OwnGrows(old(sys.k.W()), sys.k.W())
              && Wired(old(sys.tasks), sys.tasks, t) && NewStream(old(sys.streams), sys.tasks, t)
              && Outlet(flow, old(sys.tasks)[r], old(sys.streams), sys.tasks[t])
  {
    hide Raw, SameWalks, OwnGrows, Inv, Kernel.Frames, Kernel.Valid, StreamsOk, Counted, NoFit, Kernel.W, StreamMade, Wired;
    ghost var a, before, w := sys.tasks, sys.streams, sys.k.W();
    SlotLeft(a, before, sys.nullStream, t);
    var made, x := OpenStream(sys, v, s, limbo, cr3);
    if !made {
      return false;
    }
    ghost var u := sys.k.W();
    MadeStreams(v, w, u, s, limbo, cr3, before, sys.streams, x);
    FirstStream(a, t, before, sys.streams, sys.nullStream, x);
    sys.tasks := sys.tasks[t := sys.tasks[t].(streamIn := x)];
    GivenInUse(a, r, before, sys.streams, sys.nullStream, x, flow);
    var out: nat;
    ok, out := Output(sys, v, s, limbo, cr3, t, OutOf(flow, sys.tasks[r], x));
    if ok {
      SameWalksOn(w, u, sys.k.W());
      OwnGrowsOn(w, u, sys.k.W());
      WiredTwice(a, t, x, out);
    }
  }

  // The output a task is given is a stream in use.
  lemma GivenInUse(a: seq<Task>, r: nat, before: seq<Stream>, after: seq<Stream>, nullStream: nat, x: nat, flow: Flow)
    requires Counted(a, before, nullStream) && r < |a| && Used(a[r])
    requires r == 0 ==> a[0].streamIn in {NO_STREAM, nullStream} && a[0].streamOut in {NO_STREAM, nullStream}
    requires |after| == STREAM_LIMIT && x < STREAM_LIMIT && after == before[x := after[x]] && after[x].base != 0
    ensures OutOf(flow, a[r], x) < NO_STREAM ==> after[OutOf(flow, a[r], x)].base != 0
  {
    var y := OutOf(flow, a[r], x);
    if r > 0 {
      RefsAtLeast(a, r, y);
    }
  }

  lemma WiredOne(a: seq<Task>, b: seq<Task>, t: nat, i: nat)
    requires Wired(a, b, t) && i < |a| && i != t
    ensures |b| == |a| && b[i] == a[i]
  {
  }

  lemma WiredTwice(a: seq<Task>, t: nat, x: nat, y: nat)
    requires t < |a| && x < NO_STREAM && y < NO_STREAM
    ensures var b := a[t := a[t].(streamIn := x)];
            Wired(a, b[t := b[t].(streamOut := y)], t)
  {
    var b := a[t := a[t].(streamIn := x)];
    assert b[t := b[t].(streamOut := y)] == a[t := a[t].(streamIn := x, streamOut := y)];
  }

  lemma NothingMoved(w: World)
    ensures SameWalks(w, w) && OwnGrows(w, w)
  {
  }

  lemma SameWalksOn(u: World, v: World, w: World)
    requires SameWalks(u, v) && SameWalks(v, w)
    ensures SameWalks(u, w)
  {
  }

  lemma MadeStreams(v: World, w: World, x: World, s: nat, limbo: set<nat>, cr3: nat, before: seq<Stream>, after: seq<Stream>, i: nat)
    requires Raw(v, w, s, limbo, cr3) && OwnGrows(w, x) && StreamsOk(before, w) && StreamMade(w, x, before, after, i)
    ensures StreamsOk(after, x)
  {
    RawParts(v, w, s, limbo, cr3);
    PlacedOf(w);
    hide Inv, Raw, Placed;
    MadeOk(w, x, before, after, i) by { PlacedOf(w); }
  }

  lemma SameBases(before: seq<Stream>, after: seq<Stream>, w: World)
    requires StreamsOk(before, w) && |before| == |after| && forall y | 0 <= y < |before| :: after[y].base == before[y].base
    ensures StreamsOk(after, w)
  {
  }

  lemma FirstStream(a: seq<Task>, t: nat, before: seq<Stream>, after: seq<Stream>, nullStream: nat, x: nat)
    requires Counted(a, before, nullStream) && 0 < t < |a| && Used(a[t]) && a[t].streamIn == NO_STREAM && a[t].streamOut == NO_STREAM
    requires |before| == STREAM_LIMIT && |after| == STREAM_LIMIT && x < STREAM_LIMIT
    requires before[x].base == 0 && after == before[x := after[x]] && after[x].count == 1 && after[x].base != 0
    ensures Counted(a[t := a[t].(streamIn := x)], after, nullStream)
  {
    CountedStep(a, t, a[t].(streamIn := x), before, after, nullStream);
  }

  lemma SharedStream(a: seq<Task>, t: nat, streams: seq<Stream>, nullStream: nat, y: nat)
    requires Counted(a, streams, nullStream) && 0 < t < |a| && Used(a[t]) && a[t].streamOut == NO_STREAM
    requires y < STREAM_LIMIT && streams[y].base != 0
    ensures Counted(a[t := a[t].(streamOut := y)], streams[y := streams[y].(count := streams[y].count + 1)], nullStream)
  {
    CountedStep(a, t, a[t].(streamOut := y), streams, streams[y := streams[y].(count := streams[y].count + 1)], nullStream);
  }

  lemma OtherStream(a: seq<Task>, t: nat, before: seq<Stream>, after: seq<Stream>, nullStream: nat, x: nat)
    requires Counted(a, before, nullStream) && 0 < t < |a| && Used(a[t]) && a[t].streamOut == NO_STREAM
    requires |before| == STREAM_LIMIT && |after| == STREAM_LIMIT && x < STREAM_LIMIT
    requires before[x].base == 0 && after == before[x := after[x]] && after[x].count == 1 && after[x].base != 0
    ensures Counted(a[t := a[t].(streamOut := x)], after, nullStream)
  {
    CountedStep(a, t, a[t].(streamOut := x), before, after, nullStream);
  }

  // ---- a new process ---------------------------------------------------------------------------

  // Everything about the table that holds before the new task is there.
  ghost predicate Standing(a: seq<Task>, v: World, streams: seq<Stream>, nullStream: nat, doomed: set<nat>, lastPid: nat,
                           bitmap: array<bv32>, mapPages: nat) {
    && Inv(v) && Table(a, lastPid) && SpacesOk(a, v) && DoomOk(a, v.kind, doomed, lastPid) && HeldOk(a, v, mapPages)
    && Counted(a, streams, nullStream) && StreamsSet(a, nullStream) && StreamsOk(streams, v) && MapsApart(a, v.kind, bitmap, mapPages)
  }

  // What a new task needs to join.
  ghost predicate Arrived(v: World, w: World, a: seq<Task>, t: nat, x: Task, mapPages: nat, bitmap: array<bv32>) {
    && Born(v, w, x.pid, {}) && LowReady(w, x.pid) && w.kind[x.pid] != Severed && w.own[Node(x.pid, Top)] == x.cr3
    && (x.thread <==> w.kind[x.pid] != Solo)
    && (!x.thread ==> HoldsMap(w, x.pid, x.mapFrame, mapPages))
    && MapJoins(a, t, x, w.kind, bitmap, mapPages)
    && x.streamIn < NO_STREAM && x.streamOut < NO_STREAM
  }

  lemma TaskJoins(a: seq<Task>, v: World, before: seq<Stream>, nullStream: nat, doomed: set<nat>, lastPid: nat, bitmap: array<bv32>, mapPages: nat,
                  t: nat, x: Task, r: nat, w: World, after: seq<Stream>)
    requires Standing(a, v, before, nullStream, doomed, lastPid, bitmap, mapPages)
    requires Joins(a, t, x, r, w.kind, doomed, lastPid) && Arrived(v, w, a, t, x, mapPages, bitmap)
    requires Counted(a[t := x], after, nullStream) && StreamsOk(after, w)
    ensures Standing(a[t := x], w, after, nullStream, doomed, lastPid + 1, bitmap, mapPages)
  {
    hide Inv, Table, SpacesOk, DoomOk, HeldOk, Counted, StreamsOk, MapsApart, Born, LowReady, HoldsMap, Loaded, Pool, MapJoins;
    BornSpaces(v, w, x.pid, {});
    BornInv(v, w, x.pid, {});
    AddTable(a, t, x, r, w.kind, doomed, lastPid);
    LowWalkable(w, x.pid);
    AddSpaces(a, t, x, v, w);
    AddDoom(a, t, x, r, v, w, doomed, lastPid);
    AddHeld(a, t, x, v, w, mapPages);
    AllKnown(a, v);
    AddMaps(a, t, x, v, w, bitmap, mapPages);
  }

  lemma AllKnown(a: seq<Task>, v: World)
    requires SpacesOk(a, v)
    ensures forall i | 0 < i < |a| && Used(a[i]) :: a[i].pid in v.kind
    ensures KernelLow(v)
  {
    forall i | 0 < i < |a| && Used(a[i]) ensures a[i].pid in v.kind {
      assert SpaceOf(a[i], v, i);
    }
  }

  lemma PidIsNew(a: seq<Task>, v: World, lastPid: nat)
    requires SpacesOk(a, v) && Table(a, lastPid)
    ensures lastPid + 1 !in v.kind
  {
    forall s | s in v.kind ensures s <= lastPid {
      assert HasTask(a, s);
    }
  }

  lemma ValidIs(sys: System)
    ensures sys.Valid() <==>
      && sys.k.Valid() && sys.k.withheld == {} && sys.mapPages == (sys.k.limit / 8 + PAGE_BYTES - 1) / PAGE_BYTES
      && FIRST_PAGE < sys.k.limit && WORD_BITS * FRAME_WORDS * sys.mapPages <= LOW_PAGES
      && Standing(sys.tasks, sys.k.W(), sys.streams, sys.nullStream, sys.doomed, sys.taskId, sys.k.bitmap, sys.mapPages)
      && sys.Agreement() && Pool(sys.k.W()) == sys.pool
  {
  }

  // What starting a task means for the table: the first free entry, the next identifier, the caller's child.
  ghost predicate Added(a: seq<Task>, b: seq<Task>, t: nat, r: nat, lastPid: nat) {
    && 0 < t < |a| && r < |a| && |b| == |a| && !Used(a[t]) && (forall i | 0 <= i < t :: Used(a[i])) && b == a[t := b[t]]
    && b[t].pid == lastPid + 1 && b[t].parent == a[r].pid && b[t].active && b[t].init && !b[t].exec && !b[t].close
  }

  // A process that has its entry, its space and its map, but no streams and no part of the kernel's space.
  ghost predicate Enrolled(a: seq<Task>, b: seq<Task>, v: World, w: World, t: nat, r: nat, pid: nat, limbo: set<nat>,
                           cr3: nat, words: array<bv32>, frame: nat, plan: Plan, mapPages: nat) {
    && 0 < t < |a| && r < |a| && !Used(a[t]) && (forall i | 0 <= i < t :: Used(a[i]))
    && b == a[t := Fitted(a[t], pid, a[r].pid, cr3, words, frame)]
    && Raw(v, w, pid, limbo, cr3) && Laid(w, pid, plan) && HoldsMap(w, pid, frame, mapPages)
  }

  // The table has no free entry.
  ghost predicate AllUsed(tasks: seq<Task>) {
    forall i | 0 <= i < |tasks| :: Used(tasks[i])
  }

  lemma KernelLacks(k: Kernel, n: nat)
    requires n > 0 ==> NoFit(k.W().free, k.limit, n)
    ensures Lacks(k.W(), k.limit, n)
  {
  }

  lemma FittedIs(a: seq<Task>, b: seq<Task>, t: nat, r: nat, pid: nat, cr3: nat, words: array<bv32>, frame: nat)
    requires t < |a| && r < |a| && b == a[t := NewEntry(a[t], pid, a[r].pid)]
    ensures b[t := b[t].(cr3 := cr3, words := words, mapFrame := frame)] == a[t := Fitted(a[t], pid, a[r].pid, cr3, words, frame)]
  {
  }

  lemma EnrolledIs(a: seq<Task>, b: seq<Task>, v: World, w: World, t: nat, r: nat, pid: nat, limbo: set<nat>,
                   cr3: nat, words: array<bv32>, frame: nat, plan: Plan, mapPages: nat)
    requires 0 < t < |a| && r < |a| && b == a[t := NewEntry(a[t], pid, a[r].pid)] && !Used(a[t]) && forall i | 0 <= i < t :: Used(a[i])
    requires Raw(v, w, pid, limbo, cr3) && Laid(w, pid, plan) && HoldsMap(w, pid, frame, mapPages)
    ensures Enrolled(a, b[t := b[t].(cr3 := cr3, words := words, mapFrame := frame)], v, w, t, r, pid, limbo, cr3, words, frame, plan, mapPages)
  {
    hide Raw, Laid, HoldsMap, Fitted;
    FittedIs(a, b, t, r, pid, cr3, words, frame);
  }

  // The first half of kernel_exec.
  method Enroll(sys: System, r: nat, file: nat, args: nat, size: nat)
    returns (ok: bool, t: nat, work: nat, cr3: nat, words: array<bv32>, frame: nat)
    requires sys.Valid() && r < |sys.tasks|
    requires 0 < args <= LOW_PAGES && size > 0 && FIRST_PAGE + size <= WORD_BITS * FRAME_WORDS * sys.mapPages
    modifies sys`tasks, sys`taskId
    modifies sys.k`memory, sys.k`available, sys.k`own, sys.k`kind, sys.k.bitmap
    ensures !ok ==> AllUsed(sys.tasks) || LacksOne(sys.k.W(), sys.k.limit, {1, file, args, size, sys.mapPages})
    ensures ok ==>
              && sys.k.Valid() && sys.taskId == old(sys.taskId) + 1 && file > 0 && work + file <= sys.k.limit
              && Enrolled(old(sys.tasks), sys.tasks, old(sys.k.W()), sys.k.W(), t, r, sys.taskId, Range(work, file), cr3, words, frame,
                          Plan(size, args, CONTEXT_PAGES), sys.mapPages)
              && fresh(words) && words.Length == FRAME_WORDS * sys.mapPages
              && forall x: nat :: x in Free(words[..]) <==> FIRST_PAGE + size <= x < WORD_BITS * words.Length
  {
    hide Inv, Counted, StreamsOk, StreamsSet, Laid, HoldsMap, Standing, Raw, Accounted;
    hide Kernel.W, Kernel.Frames, Kernel.Valid, System.Valid, Free, KernelLow, NoFit, FirstFit, NewEntry, Fitted, Enrolled, Lacks;
    ok, t, cr3, frame := false, 0, 0, 0;
    ValidIs(sys);
    ghost var v, a, streams, lastPid := sys.k.W(), sys.tasks, sys.streams, sys.taskId;
    StandingParts(sys, a, v, streams, lastPid);
    KernelParts(sys.k);
    words := new bv32[0];
    work := sys.k.AllocPages(file);
    if work == 0 {
      assert Lacks(sys.k.W(), sys.k.limit, file) by { KernelLacks(sys.k, file); }
      return;
    }
    WorkTaken(sys.k, v, work, file);
    t := AddTask(sys, r);
    if t == TASK_LIMIT {
      return;
    }
    PagesBound(sys, size);
    ok, cr3, frame := Furnish(sys.k, v, sys.taskId, Range(work, file), args, size, sys.mapPages);
    if !ok {
      return;
    }
    words := NewMap(sys.k.limit, sys.mapPages, size);
    ghost var b := sys.tasks;
    sys.tasks := sys.tasks[t := sys.tasks[t].(cr3 := cr3, words := words, mapFrame := frame)];
    EnrolledIs(a, b, v, sys.k.W(), t, r, sys.taskId, Range(work, file), cr3, words, frame, Plan(size, args, CONTEXT_PAGES), sys.mapPages);
  }

  // The steps of kernel_exec, in their order.
  method Assemble(sys: System, r: nat, file: nat, args: nat, size: nat, flow: Flow) returns (ok: bool, t: nat)
    requires sys.Valid() && (r == 0 || sys.Running(r))
    requires 0 < args <= LOW_PAGES && size > 0 && FIRST_PAGE + size <= WORD_BITS * FRAME_WORDS * sys.mapPages
    modifies sys`tasks, sys`streams, sys`taskId
    modifies sys.k`memory, sys.k`available, sys.k`own, sys.k`kind, sys.k.bitmap
    ensures !ok ==> AllUsed(sys.tasks) || LacksOne(sys.k.W(), sys.k.limit, {1, file, args, size, sys.mapPages})
    ensures ok ==> sys.k.Valid() && sys.taskId == old(sys.taskId) + 1
    ensures ok ==> Added(old(sys.tasks), sys.tasks, t, r, old(sys.taskId)) && !sys.tasks[t].thread
    ensures ok ==> Born(old(sys.k.W()), sys.k.W(), sys.tasks[t].pid, {}) && Loaded(sys.k.W(), sys.tasks[t].pid, size)
    ensures ok ==> Complete(old(sys.k.W()), sys.k.W(), sys.tasks[t].pid, KERNEL, Plan(size, args, CONTEXT_PAGES))
    ensures ok ==> NewStream(old(sys.streams), sys.tasks, t) && Outlet(flow, old(sys.tasks)[r], old(sys.streams), sys.tasks[t])
    ensures ok ==> Standing(sys.tasks, sys.k.W(), sys.streams, sys.nullStream, sys.doomed, sys.taskId, sys.k.bitmap, sys.mapPages)
    ensures ok ==>
              && fresh(sys.tasks[t].words)
              && forall x: nat :: x in Free(sys.tasks[t].words[..]) <==> FIRST_PAGE + size <= x < WORD_BITS * sys.tasks[t].words.Length
  {
    hide Inv, Counted, StreamsOk, StreamsSet, Born, LowReady, HoldsMap, Loaded, Laid, Complete, Standing, Raw, Enrolled, Fitted;
    hide Kernel.W, Kernel.Frames, Kernel.Valid, System.Valid, System.Running, Free, KernelLow, SameWalks, OwnGrows, NoFit, Added, Wired, NewStream, Used;
    ok, t := false, 0;
    ValidIs(sys);
    ghost var v, a, streams, lastPid := sys.k.W(), sys.tasks, sys.streams, sys.taskId;
    StandingParts(sys, a, v, streams, lastPid);
    CallerIs(sys, r);
    var enrolled, at, work, cr3, words, frame := Enroll(sys, r, file, args, size);
    if !enrolled {
      return;
    }
    t := at;
    ghost var pid, limbo, plan := sys.taskId, Range(work, file), Plan(size, args, CONTEXT_PAGES);
    ghost var w, b := sys.k.W(), sys.tasks;
    EnrolledParts(a, b, v, w, t, r, pid, limbo, cr3, words, frame, plan, sys.mapPages);
    NotYetWired(v, w, pid, limbo, cr3, a, t, b, streams, sys.nullStream);
    CallerStreams(a, sys.nullStream, r);
    var connected := Connect(sys, v, pid, limbo, cr3, t, r, flow);
    if !connected {
      assert Lacks(sys.k.W(), sys.k.limit, 1) by { KernelLacks(sys.k, 1); }
      return;
    }
    ghost var u := sys.k.W();
    WiredOne(b, sys.tasks, t, 0);
    SameLaid(w, u, pid, plan);
    StillHeld(v, w, u, pid, limbo, cr3, sys.tasks[0].cr3, frame, sys.mapPages);
    Finish(sys.k, v, pid, sys.tasks[0].cr3, cr3, work, file, plan);
    ghost var c := sys.tasks;
    sys.tasks := sys.tasks[t := sys.tasks[t].(active := true, init := true)];
    ok := true;
    ExecJoins(a, v, streams, sys.nullStream, sys.doomed, lastPid, sys.k.bitmap, sys.mapPages,
              t, r, cr3, words, frame, b, c, sys.tasks, w, limbo, u, sys.k.W(), sys.streams, plan, flow);
  }

  lemma EnrolledParts(a: seq<Task>, b: seq<Task>, v: World, w: World, t: nat, r: nat, pid: nat, limbo: set<nat>,
                      cr3: nat, words: array<bv32>, frame: nat, plan: Plan, mapPages: nat)
    requires Enrolled(a, b, v, w, t, r, pid, limbo, cr3, words, frame, plan, mapPages)
    ensures 0 < t < |a| && |b| == |a| && b == a[t := b[t]] && !Used(a[t]) && Used(b[t])
    ensures b[t].streamIn == NO_STREAM && b[t].streamOut == NO_STREAM
    ensures Raw(v, w, pid, limbo, cr3) && Laid(w, pid, plan) && HoldsMap(w, pid, frame, mapPages)
  {
    hide Raw, Laid, HoldsMap;
  }

  // kernel_exec: a new process with `size` pages of program, child of the task that called. When it
  // succeeds every other space is as it was, the new one has its own frames and no others, and its
  // map and its tables agree.
  method Exec(sys: System, r: nat, file: nat, args: nat, size: nat, flow: Flow) returns (ok: bool, t: nat)
    requires sys.Valid() && (r == 0 || sys.Running(r))
    requires 0 < args <= LOW_PAGES && size > 0 && FIRST_PAGE + size <= WORD_BITS * FRAME_WORDS * sys.mapPages
    modifies sys`tasks, sys`streams, sys`taskId
    modifies sys.k`memory, sys.k`available, sys.k`own, sys.k`kind, sys.k.bitmap
    ensures !ok ==> AllUsed(sys.tasks) || LacksOne(sys.k.W(), sys.k.limit, {1, file, args, size, sys.mapPages})
    ensures ok ==> sys.Valid() && sys.taskId == old(sys.taskId) + 1
    ensures ok ==> Added(old(sys.tasks), sys.tasks, t, r, old(sys.taskId)) && !sys.tasks[t].thread
    ensures ok ==> Born(old(sys.k.W()), sys.k.W(), sys.tasks[t].pid, {}) && Loaded(sys.k.W(), sys.tasks[t].pid, size)
    ensures ok ==> Complete(old(sys.k.W()), sys.k.W(), sys.tasks[t].pid, KERNEL, Plan(size, args, CONTEXT_PAGES))
    ensures ok ==> NewStream(old(sys.streams), sys.tasks, t) && Outlet(flow, old(sys.tasks)[r], old(sys.streams), sys.tasks[t])
    ensures ok ==> fresh(sys.tasks[t].words)
  {
    hide Born, Loaded, Complete, Pool, Standing, Agrees, Kernel.W, Kernel.Valid, System.Valid, System.Running, Free;
    ValidIs(sys);
    ghost var v, a, streams, lastPid := sys.k.W(), sys.tasks, sys.streams, sys.taskId;
    ok, t := Assemble(sys, r, file, args, size, flow);
    if ok {
      ghost var pid := sys.tasks[t].pid;
      StandingOther(sys.tasks, sys.k.W(), sys.streams, sys.nullStream, sys.doomed, sys.taskId, sys.k.bitmap, sys.mapPages, t);
      forall i | 0 < i < |sys.tasks| && Used(sys.tasks[i]) && !sys.tasks[i].thread
        ensures Agrees(sys.k.W(), sys.tasks[i].pid, sys.tasks[i].words[..])
      {
        if i == t {
          LoadedAgrees(sys.k.W(), pid, size, sys.tasks[t].words[..]);
        } else {
          StandingOther(a, v, streams, sys.nullStream, sys.doomed, lastPid, sys.k.bitmap, sys.mapPages, i);
          BornAgrees(v, sys.k.W(), pid, {}, a[i].pid, old(a[i].words[..]));
        }
      }
      SameAccounts(v, sys.k.W(), pid);
      ValidIs(sys);
    }
  }

  lemma StandingOther(a: seq<Task>, v: World, streams: seq<Stream>, nullStream: nat, doomed: set<nat>, lastPid: nat,
                      bitmap: array<bv32>, mapPages: nat, i: nat)
    requires Standing(a, v, streams, nullStream, doomed, lastPid, bitmap, mapPages)
    requires 0 < i < |a| && Used(a[i]) && !a[i].thread
    ensures Walkable(v, a[i].pid) && a[i].words.Length == FRAME_WORDS * mapPages && a[i].words != bitmap
  {
    hide Inv, Table, DoomOk, HeldOk, Counted, StreamsOk, SpacesOk;
    OtherLength(a, v, bitmap, mapPages, i);
  }

  lemma SameAccounts(v: World, w: World, s: nat)
    requires Born(v, w, s, {})
    ensures Pool(w) == Pool(v)
  {
    hide Inv, Pool;
  }

  // The entry of a process whose space is ready.
  function Fitted(e: Task, pid: nat, parent: nat, cr3: nat, words: array<bv32>, frame: nat): Task {
    NewEntry(e, pid, parent).(cr3 := cr3, words := words, mapFrame := frame)
  }

  lemma ExecJoins(a: seq<Task>, v: World, before: seq<Stream>, nullStream: nat, doomed: set<nat>, lastPid: nat, bitmap: array<bv32>, mapPages: nat,
                  t: nat, r: nat, cr3: nat, words: array<bv32>, frame: nat, b: seq<Task>, c: seq<Task>, d: seq<Task>,
                  y: World, limbo: set<nat>, u: World, w: World, after: seq<Stream>, plan: Plan, flow: Flow)
    requires Standing(a, v, before, nullStream, doomed, lastPid, bitmap, mapPages)
    requires Enrolled(a, b, v, y, t, r, lastPid + 1, limbo, cr3, words, frame, plan, mapPages) && Wired(b, c, t)
    requires r < |a| && Used(a[r]) && a[r].pid !in doomed
    requires d == c[t := c[t].(active := true, init := true)]
    requires Counted(c, after, nullStream) && StreamsOk(after, u) && w.own == u.own && w.kind == u.kind
    requires NewStream(before, c, t) && Outlet(flow, a[r], before, c[t])
    requires HoldsMap(u, lastPid + 1, frame, mapPages) && HasSpace(u, lastPid + 1)
    requires u.kind[lastPid + 1] == Solo && u.own[Node(lastPid + 1, Top)] == cr3
    requires Born(v, w, lastPid + 1, {}) && LowReady(w, lastPid + 1)
    requires words.Length == FRAME_WORDS * mapPages && words != bitmap && forall j | 0 <= j < |a| :: a[j].words != words
    ensures Standing(d, w, after, nullStream, doomed, lastPid + 1, bitmap, mapPages)
    ensures NewStream(before, d, t) && Outlet(flow, a[r], before, d[t])
    ensures Added(a, d, t, r, lastPid) && d == a[t := d[t]] && !d[t].thread && d[t].pid == lastPid + 1 && d[t].words == words
  {
    hide Born, Laid, LowReady, Inv, Standing, Counted, HoldsMap, StreamsOk, Raw;
    var x := d[t];
    assert d == a[t := x];
    assert Counted(d, after, nullStream) by {
      assert SameEntries(c, d);
      FlagsCounted(c, d, after, nullStream);
    }
    assert StreamsOk(after, w) by { SameNames(after, u, w); }
    assert HoldsMap(w, lastPid + 1, frame, mapPages) by { SameHoldings(u, w, lastPid + 1, frame, mapPages); }
    TaskJoins(a, v, before, nullStream, doomed, lastPid, bitmap, mapPages, t, x, r, w, after);
  }

  lemma SameNames(streams: seq<Stream>, u: World, w: World)
    requires StreamsOk(streams, u) && w.own == u.own
    ensures StreamsOk(streams, w)
  {
  }

  lemma SameHoldings(u: World, w: World, s: nat, f: nat, n: nat)
    requires HoldsMap(u, s, f, n) && w.own == u.own
    ensures HoldsMap(w, s, f, n)
  {
  }

  lemma StillHeld(v: World, w: World, x: World, s: nat, limbo: set<nat>, cr3: nat, root: nat, f: nat, n: nat)
    requires Raw(v, x, s, limbo, cr3) && OwnGrows(w, x) && Names(v, Node(KERNEL, Top), root) && HoldsMap(w, s, f, n)
    ensures Names(x, Node(KERNEL, Top), root) && HoldsMap(x, s, f, n)
    ensures s in x.kind && x.kind[s] == Solo && HasSpace(x, s) && x.own[Node(s, Top)] == cr3
  {
    RawParts(v, x, s, limbo, cr3);
    HeldStays(w, x, s, f, n);
  }

  lemma CallerStreams(a: seq<Task>, nullStream: nat, r: nat)
    requires StreamsSet(a, nullStream) && r < |a| && Used(a[r]) && nullStream < STREAM_LIMIT
    ensures a[r].streamIn <= NO_STREAM && a[r].streamOut <= NO_STREAM
    ensures r == 0 ==> a[0].streamIn in {NO_STREAM, nullStream} && a[0].streamOut in {NO_STREAM, nullStream}
  {
  }

  lemma StandingParts(sys: System, a: seq<Task>, v: World, streams: seq<Stream>, lastPid: nat)
    requires Standing(a, v, streams, sys.nullStream, sys.doomed, lastPid, sys.k.bitmap, sys.mapPages)
    ensures Inv(v) && KernelLow(v) && lastPid + 1 !in v.kind && |a| == TASK_LIMIT && |streams| == STREAM_LIMIT
    ensures Used(a[0]) && a[0].pid == 0 && Names(v, Node(KERNEL, Top), a[0].cr3)
    ensures Counted(a, streams, sys.nullStream) && StreamsOk(streams, v) && StreamsSet(a, sys.nullStream)
    ensures 0 !in sys.doomed && sys.nullStream < STREAM_LIMIT
  {
    hide Inv, HeldOk, StreamsOk, MapsApart, Distinct;
    AllKnown(a, v);
    PidIsNew(a, v, lastPid);
    assert SpaceOf(a[0], v, 0);
  }

  lemma CallerIs(sys: System, r: nat)
    requires r == 0 || sys.Running(r)
    requires |sys.tasks| == TASK_LIMIT && Used(sys.tasks[0]) && sys.tasks[0].pid == 0 && 0 !in sys.doomed
    ensures r < |sys.tasks| && Used(sys.tasks[r]) && sys.tasks[r].pid !in sys.doomed
  {
  }

  lemma KernelParts(k: Kernel)
    requires k.Valid()
    ensures k.Frames() && k.W().own == k.own && k.W().kind == k.kind && k.W().memory == k.memory
  {
  }

  lemma WorkTaken(k: Kernel, v: World, f: nat, n: nat)
    requires k.Frames() && Inv(v) && k.W() == Taken(v, f, n) && FirstFit(v.free, k.limit, n, f) && n > 0
    ensures k.Valid() && Accounted(v, k.W(), Range(f, n)) && k.own == v.own && k.kind == v.kind && k.memory == v.memory
    ensures f + n <= k.limit
  {
    hide Inv, Pool;
    PoolTaken(v, f, n);
    assert f + n - 1 in v.free;
    InvBlank(v);
  }

  lemma PagesBound(sys: System, size: nat)
    requires FIRST_PAGE + size <= WORD_BITS * FRAME_WORDS * sys.mapPages <= LOW_PAGES
    ensures FIRST_PAGE + size <= LOW_PAGES
  {
  }

  // The new entry refers to no stream yet.
  lemma NotYetWired(v: World, w: World, s: nat, limbo: set<nat>, cr3: nat, a: seq<Task>, t: nat, b: seq<Task>, streams: seq<Stream>, nullStream: nat)
    requires Raw(v, w, s, limbo, cr3) && Counted(a, streams, nullStream) && StreamsOk(streams, v)
    requires 0 < t < |a| && |b| == |a| && b == a[t := b[t]] && !Used(a[t]) && b[t].streamIn == NO_STREAM && b[t].streamOut == NO_STREAM
    ensures Counted(b, streams, nullStream) && StreamsOk(streams, w)
  {
    hide Born, Inv, Pure;
    CountedStep(a, t, b[t], streams, streams, nullStream);
    RawParts(v, w, s, limbo, cr3);
  }

  // ---- a new thread ----------------------------------------------------------------------------

  // The entry of a thread: map and streams are its creator's.
  function Threaded(e: Task, pid: nat, c: Task, cr3: nat): Task {
    NewEntry(e, pid, c.pid).(cr3 := cr3, words := c.words, mapFrame := c.mapFrame,
                             streamIn := c.streamIn, streamOut := c.streamOut, active := true, thread := true, init := true)
  }

  // Stream y has one user more.
  function OneMore(streams: seq<Stream>, y: nat): (after: seq<Stream>)
    requires y < |streams|
    ensures |after| == |streams|
  {
    streams[y := streams[y].(count := streams[y].count + 1)]
  }

  lemma ThreadCounted(a: seq<Task>, t: nat, x: Task, r: nat, before: seq<Stream>, nullStream: nat)
    requires Counted(a, before, nullStream) && 0 < t < |a| && !Used(a[t]) && 0 < r < |a| && Used(a[r]) && Used(x)
    requires x.streamIn == a[r].streamIn < NO_STREAM && x.streamOut == a[r].streamOut < NO_STREAM
    ensures Counted(a[t := x], OneMore(OneMore(before, x.streamIn), x.streamOut), nullStream)
  {
    RefsAtLeast(a, r, x.streamIn);
    RefsAtLeast(a, r, x.streamOut);
    CountedStep(a, t, x, before, OneMore(OneMore(before, x.streamIn), x.streamOut), nullStream);
  }

  // The process whose map the thread of entry r uses.
  lemma LeaderOf(a: seq<Task>, v: World, r: nat, bitmap: array<bv32>, mapPages: nat, doomed: set<nat>, lastPid: nat)
    requires SpacesOk(a, v) && MapsApart(a, v.kind, bitmap, mapPages) && DoomOk(a, v.kind, doomed, lastPid)
    requires 0 < r < |a| && Used(a[r]) && a[r].pid !in doomed
    ensures a[r].pid in v.kind && LowReady(v, a[r].pid) && v.own[Node(a[r].pid, Top)] == a[r].cr3
    ensures exists j :: 0 < j < |a| && Used(a[j]) && !a[j].thread && a[j].pid == Group(v, a[r].pid) && a[j].words == a[r].words
  {
    hide LowReady, KernelLow;
    assert SpaceOf(a[r], v, r);
    if a[r].thread {
      assert HasLeader(a, v.kind, r);
    } else {
      assert a[r].pid == Group(v, a[r].pid);
    }
  }

  lemma ThreadJoins(a: seq<Task>, v: World, before: seq<Stream>, nullStream: nat, doomed: set<nat>, lastPid: nat, bitmap: array<bv32>, mapPages: nat,
                    t: nat, r: nat, cr3: nat, w: World)
    requires Standing(a, v, before, nullStream, doomed, lastPid, bitmap, mapPages)
    requires 0 < t < |a| && 0 < r < |a| && !Used(a[t]) && Used(a[r]) && a[r].pid !in doomed && a[r].pid in v.kind
    requires |before| == STREAM_LIMIT && a[r].streamIn < STREAM_LIMIT && a[r].streamOut < STREAM_LIMIT
    requires Born(v, w, lastPid + 1, {}) && LowReady(w, lastPid + 1)
    requires w.kind[lastPid + 1] == Linked(Group(v, a[r].pid)) && w.own[Node(lastPid + 1, Top)] == cr3
    ensures Standing(a[t := Threaded(a[t], lastPid + 1, a[r], cr3)], w, OneMore(OneMore(before, a[r].streamIn), a[r].streamOut),
                     nullStream, doomed, lastPid + 1, bitmap, mapPages)
  {
    hide Inv, Table, SpacesOk, DoomOk, HeldOk, Counted, StreamsOk, MapsApart, Born, LowReady, HoldsMap, OneMore;
    var x := Threaded(a[t], lastPid + 1, a[r], cr3);
    BornSpaces(v, w, x.pid, {});
    LeaderOf(a, v, r, bitmap, mapPages, doomed, lastPid);
    assert Joins(a, t, x, r, w.kind, doomed, lastPid);
    ThreadCounted(a, t, x, r, before, nullStream);
    BornInv(v, w, x.pid, {});
    ThreadStreams(before, v, w, a[r].streamIn, a[r].streamOut);
    TaskJoins(a, v, before, nullStream, doomed, lastPid, bitmap, mapPages, t, x, r, w, OneMore(OneMore(before, a[r].streamIn), a[r].streamOut));
  }

  lemma ThreadStreams(before: seq<Stream>, v: World, w: World, x: nat, y: nat)
    requires StreamsOk(before, v) && OwnGrows(v, w) && x < |before| && y < |before|
    ensures StreamsOk(OneMore(OneMore(before, x), y), w)
  {
  }

  // kernel_service_thread: a new thread beside the task that called. When it succeeds the thread reads
  // every page its creator reads but for the stacks, and has two stacks of its own.
  method Thread(sys: System, r: nat) returns (ok: bool, t: nat)
    requires sys.Valid() && sys.Running(r)
    modifies sys`tasks, sys`streams, sys`taskId
    modifies sys.k`memory, sys.k`available, sys.k`own, sys.k`kind, sys.k.bitmap
    ensures !ok ==> AllUsed(sys.tasks) || Lacks(sys.k.W(), sys.k.limit, 1)
    ensures ok ==> sys.Valid() && sys.taskId == old(sys.taskId) + 1
    ensures ok ==> Added(old(sys.tasks), sys.tasks, t, r, old(sys.taskId)) && sys.tasks[t].thread
    ensures ok ==> Born(old(sys.k.W()), sys.k.W(), sys.tasks[t].pid, {})
    ensures ok ==> r < |old(sys.tasks)| && Follows(old(sys.k.W()), sys.k.W(), sys.tasks[t].pid, old(sys.tasks)[r].pid)
    ensures ok ==> Complete(old(sys.k.W()), sys.k.W(), sys.tasks[t].pid, old(sys.tasks)[r].pid, THREAD_PLAN)
    ensures ok ==> sys.tasks[t].words == old(sys.tasks)[r].words
    ensures ok ==> sys.tasks[t].streamIn == old(sys.tasks)[r].streamIn && sys.tasks[t].streamOut == old(sys.tasks)[r].streamOut
  {
    hide Inv, Counted, StreamsOk, Born, LowReady, Standing, Raw, Agrees, TopsOnly, Laid, Complete, Follows, Pool;
    hide Kernel.W, Kernel.Frames, Kernel.Valid, System.Valid, Free, KernelLow, System.Running;
    ok, t := false, 0;
    ValidIs(sys);
    ghost var v, a, streams, lastPid := sys.k.W(), sys.tasks, sys.streams, sys.taskId;
    StandingParts(sys, a, v, streams, lastPid);
    CallerIs(sys, r);
    assert r > 0 by { RunningIs(sys, r); }
    CreatorParts(a, v, streams, sys.nullStream, sys.doomed, lastPid, sys.k.bitmap, sys.mapPages, r);
    t := AddTask(sys, r);
    if t == TASK_LIMIT {
      return;
    }
    var pid := sys.taskId;
    var furnished, cr3 := FurnishThread(sys.k, pid);
    if !furnished {
      return;
    }
    var creator := sys.tasks[r];
    sys.tasks := sys.tasks[t := sys.tasks[t].(cr3 := cr3, words := creator.words, mapFrame := creator.mapFrame)];
    sys.streams := OneMore(sys.streams, creator.streamIn);
    sys.streams := OneMore(sys.streams, creator.streamOut);
    sys.tasks := sys.tasks[t := sys.tasks[t].(streamIn := creator.streamIn, streamOut := creator.streamOut)];
    RawRoot(v, sys.k.W(), pid, cr3);
    Attach(sys.k, v, pid, creator.pid, creator.cr3, cr3);
    sys.tasks := sys.tasks[t := sys.tasks[t].(active := true, thread := true, init := true)];
    ok := true;
    ghost var w := sys.k.W();
    assert sys.tasks == a[t := Threaded(a[t], pid, a[r], cr3)];
    ThreadJoins(a, v, streams, sys.nullStream, sys.doomed, lastPid, sys.k.bitmap, sys.mapPages, t, r, cr3, w);
    forall i | 0 < i < |sys.tasks| && Used(sys.tasks[i]) && !sys.tasks[i].thread
      ensures Agrees(w, sys.tasks[i].pid, sys.tasks[i].words[..])
    {
      StandingOther(a, v, streams, sys.nullStream, sys.doomed, lastPid, sys.k.bitmap, sys.mapPages, i);
      BornAgrees(v, w, pid, {}, a[i].pid, old(a[i].words[..]));
    }
    SameAccounts(v, w, pid);
    ValidIs(sys);
  }

  lemma RunningIs(sys: System, r: nat)
    requires sys.Running(r)
    ensures 0 < r < |sys.tasks|
  {
  }

  lemma RawRoot(v: World, w: World, s: nat, cr3: nat)
    requires Raw(v, w, s, {}, cr3)
    ensures Names(w, Node(s, Top), cr3)
  {
    RawParts(v, w, s, {}, cr3);
  }

  lemma CreatorParts(a: seq<Task>, v: World, streams: seq<Stream>, nullStream: nat, doomed: set<nat>, lastPid: nat, bitmap: array<bv32>, mapPages: nat, r: nat)
    requires Standing(a, v, streams, nullStream, doomed, lastPid, bitmap, mapPages) && 0 < r < |a| && Used(a[r]) && a[r].pid !in doomed
    ensures LowReady(v, a[r].pid) && Names(v, Node(a[r].pid, Top), a[r].cr3) && a[r].pid in v.kind
    ensures a[r].streamIn < NO_STREAM && a[r].streamOut < NO_STREAM
  {
    hide Inv, Table, HeldOk, Counted, StreamsOk, LowReady, KernelLow;
    LeaderOf(a, v, r, bitmap, mapPages, doomed, lastPid);
    assert SpaceOf(a[r], v, r);
  }
}
