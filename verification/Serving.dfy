// Whole runs of the system: any list of what processors, programs and the collector ask for.
module Serving {
  import opened Bitmap
  import opened Layout
  import opened Spaces
  import opened Memory
  import opened Reshaping
  import opened Pages
  import opened Paging
  import opened Lifecycle
  import opened UserMemory
  import opened Sharing
  import opened Connecting
  import opened Births
  import opened Execution
  import opened Tasks
  import opened Processes
  import opened Launching
  import opened Reclaiming
  import opened Boot
  import opened Startup

  // A processor takes up a task or leaves it, the program of an entry calls the kernel or writes to its own
  // memory, or the collector takes a closed task.
  datatype Request =
    | Exec(r: nat, file: nat, args: nat, size: nat, flow: Flow)
    | Thread(r: nat)
    | Exit(t: nat)
    | Take(t: nat)
    | Leave(t: nat)
    | Get(t: nat, bytes: nat)
    | Give(t: nat, address: nat, bytes: nat)
    | Share(t: nat, u: nat, source: nat, bytes: nat)
    | Store(t: nat, page: nat, i: nat, value: Entry)
    | Collect(e: nat)

  // ---- who may ask for what ----------------------------------------------------------------------

  predicate OnProcessor(tasks: seq<Task>, t: nat) {
    0 < t < |tasks| && Used(tasks[t]) && tasks[t].exec
  }

  // What the walk from a task's top table reads.
  function Read(memory: seq<Page>, x: Task, p: Path): Entry {
    At(memory, x.cr3, p)
  }

  // The map of the task reaches as far as a search for n pages reads ahead.
  predicate Reaches(x: Task, limit: nat, n: nat) {
    limit + n <= WORD_BITS * x.words.Length + 1
  }

  predicate GivesBack(memory: seq<Page>, x: Task, page: nat) {
    && page >= FIRST_PAGE && Read(memory, x, Up(PageAt(page))) != EMPTY && !Layout.Shared(Read(memory, x, PageAt(page)).flags)
    && (Read(memory, x, PageAt(page)) != EMPTY ==> Process(Read(memory, x, PageAt(page)).flags))
  }

  predicate Permits(tasks: seq<Task>, memory: seq<Page>, limit: nat, mapPages: nat, q: Request) {
    match q
    case Exec(r, file, args, size, flow) =>
      && (r == 0 || OnProcessor(tasks, r)) && 0 < args <= LOW_PAGES && size > 0
      && FIRST_PAGE + size <= WORD_BITS * FRAME_WORDS * mapPages
    case Thread(r) => OnProcessor(tasks, r)
    case Exit(t) => OnProcessor(tasks, t)
    case Take(t) => 0 < t < |tasks| && tasks[t].active && !tasks[t].exec
    case Leave(t) => OnProcessor(tasks, t)
    case Get(t, bytes) => OnProcessor(tasks, t) && Reaches(tasks[t], limit, PagesFor(bytes))
    case Give(t, address, bytes) =>
      && OnProcessor(tasks, t) && FirstReturned(address) + PagesFor(bytes) <= WORD_BITS * tasks[t].words.Length
      && forall x: nat | FirstReturned(address) <= x < FirstReturned(address) + PagesFor(bytes) :: GivesBack(memory, tasks[t], x)
    case Share(t, u, source, bytes) =>
      && OnProcessor(tasks, t) && 0 < u < |tasks| && Used(tasks[u]) && !tasks[u].close
      && 0 < PagesFor(bytes) && PageOf(source) + PagesFor(bytes) <= LOW_PAGES && Reaches(tasks[u], limit, PagesFor(bytes))
      && forall x: nat | PageOf(source) <= x < PageOf(source) + PagesFor(bytes) :: Read(memory, tasks[t], PageAt(x)) != EMPTY
    case Store(t, page, i, value) =>
      && OnProcessor(tasks, t) && page < LOW_PAGES && i < ENTRIES && Owned(Read(memory, tasks[t], PageAt(page)).flags)
    case Collect(e) => 0 < e < |tasks| && tasks[e].close && !tasks[e].exec
  }

  predicate May(sys: System, q: Request)
    reads sys, sys.k
  {
    Permits(sys.tasks, sys.k.memory, sys.k.limit, sys.mapPages, q)
  }

  // ---- what a request does -----------------------------------------------------------------------

  // The state of the system, with the pages that are free in the map of each entry.
  datatype Snapshot = Snapshot(tasks: seq<Task>, streams: seq<Stream>, w: World, maps: map<nat, set<nat>>, taskId: nat)

  ghost function Snap(sys: System): Snapshot
    reads sys, sys.k, sys.k.bitmap, sys.Arrays()
  {
    Snapshot(sys.tasks, sys.streams, sys.k.W(), map i: nat | i < |sys.tasks| :: Free(sys.tasks[i].words[..]), sys.taskId)
  }

  // The maps of all processes but the one whose map this is are as they were.
  ghost predicate OtherMaps(s: Snapshot, s': Snapshot, words: array<bv32>) {
    forall i: nat | 0 < i < |s.tasks| && Used(s.tasks[i]) && !s.tasks[i].thread && s.tasks[i].words != words && i in s.maps ::
      i in s'.maps && s'.maps[i] == s.maps[i]
  }

  ghost predicate MapsStay(s: Snapshot, s': Snapshot) {
    forall i: nat | 0 < i < |s.tasks| && Used(s.tasks[i]) && !s.tasks[i].thread && i in s.maps ::
      i in s'.maps && s'.maps[i] == s.maps[i]
  }

  // Task t was started by task r, and everything else is as it was.
  ghost predicate Started(s: Snapshot, s': Snapshot, t: nat, r: nat) {
    && Added(s.tasks, s'.tasks, t, r, s.taskId) && s'.taskId == s.taskId + 1 && Born(s.w, s'.w, s'.tasks[t].pid, {})
    && MapsStay(s, s')
  }

  ghost predicate NewProcess(s: Snapshot, s': Snapshot, t: nat, r: nat, args: nat, size: nat, flow: Flow) {
    && Started(s, s', t, r) && !s'.tasks[t].thread
    && Loaded(s'.w, s'.tasks[t].pid, size) && Complete(s.w, s'.w, s'.tasks[t].pid, KERNEL, Plan(size, args, CONTEXT_PAGES))
    && NewStream(s.streams, s'.tasks, t) && Outlet(flow, s.tasks[r], s.streams, s'.tasks[t])
  }

  ghost predicate NewThread(s: Snapshot, s': Snapshot, t: nat, r: nat) {
    && Started(s, s', t, r) && s'.tasks[t].thread && Complete(s.w, s'.w, s'.tasks[t].pid, s.tasks[r].pid, THREAD_PLAN)
    && s'.tasks[t].words == s.tasks[r].words
    && s'.tasks[t].streamIn == s.tasks[r].streamIn && s'.tasks[t].streamOut == s.tasks[r].streamOut
  }

  // A step in the memory of task t's process, which no other process notices.
  ghost predicate Inside(s: Snapshot, s': Snapshot, t: nat) {
    && 0 < t < |s.tasks| && t in s.maps && t in s'.maps && HasSpace(s.w, s.tasks[t].pid)
    && s'.tasks == s.tasks && s'.streams == s.streams && s'.taskId == s.taskId
    && Private(s.w, s'.w, s.tasks[t].pid) && OtherMaps(s, s', s.tasks[t].words)
  }

  ghost predicate Got(s: Snapshot, s': Snapshot, t: nat, n: nat, limit: nat) {
    && Inside(s, s', t)
    && if n == 0 || NoFit(s.maps[t], limit, n) then s'.w == s.w && s'.maps[t] == s.maps[t]
       else exists p: nat :: Allotted(s.w, s'.w, s.tasks[t].pid, s.maps[t], s'.maps[t], limit, n, p)
  }

  ghost predicate Gave(s: Snapshot, s': Snapshot, t: nat, p: nat, n: nat) {
    Inside(s, s', t) && GivenBack(s.w, s'.w, s.tasks[t].pid, s.maps[t], s'.maps[t], p, n)
  }

  ghost predicate SharedWith(s: Snapshot, s': Snapshot, t: nat, u: nat, a: nat, n: nat, limit: nat) {
    && Inside(s, s', u) && t < |s.tasks|
    && (NoFit(s.maps[u], limit, n) || exists p: nat :: Connected(s.w, s'.w, s.tasks[u].pid, s.maps[u], s'.maps[u], limit, n, p, s.tasks[t].pid, a))
  }

  ghost predicate Stored(s: Snapshot, s': Snapshot, t: nat, page: nat, i: nat, e: Entry) {
    && t < |s.tasks| && i < ENTRIES && s' == s.(w := s'.w) && Inv(s.w) && SameTables(s.w, s'.w)
    && Look(s.w, s.tasks[t].pid, PageAt(page)).frame < |s.w.memory|
    && s'.w.memory == Put(s.w.memory, Look(s.w, s.tasks[t].pid, PageAt(page)).frame, i, e)
  }

  ghost predicate Collected(s: Snapshot, s': Snapshot, e: nat, mapPages: nat) {
    && Gone(s.tasks, s'.tasks, e) && s'.taskId == s.taskId && e < |s.tasks|
    && (exists gone :: Dues(s.tasks[e], s.streams, mapPages, gone) && Reaped(s.w, s'.w, s.tasks[e].pid, gone))
    && MapsStay(s, s')
  }

  ghost predicate Flagged(s: Snapshot, s': Snapshot, t: nat, x: Task) {
    t < |s.tasks| && s' == s.(tasks := s.tasks[t := x])
  }

  ghost predicate Does(s: Snapshot, s': Snapshot, q: Request, limit: nat, mapPages: nat) {
    match q
    case Exec(r, file, args, size, flow) => exists t: nat :: NewProcess(s, s', t, r, args, size, flow)
    case Thread(r) => exists t: nat :: NewThread(s, s', t, r)
    case Exit(t) => t < |s.tasks| && Flagged(s, s', t, s.tasks[t].(close := true, active := false))
    case Take(t) => t < |s.tasks| && Flagged(s, s', t, s.tasks[t].(exec := true))
    case Leave(t) => t < |s.tasks| && Flagged(s, s', t, s.tasks[t].(exec := false))
    case Get(t, bytes) => Got(s, s', t, PagesFor(bytes), limit)
    case Give(t, address, bytes) => Gave(s, s', t, FirstReturned(address), PagesFor(bytes))
    case Share(t, u, source, bytes) => SharedWith(s, s', t, u, PageOf(source), PagesFor(bytes), limit)
    case Store(t, page, i, value) => Stored(s, s', t, page, i, value)
    case Collect(e) => Collected(s, s', e, mapPages)
  }

  // A request that may be made does what it does; any other does nothing.
  ghost predicate Goes(s: Snapshot, s': Snapshot, q: Request, limit: nat, mapPages: nat) {
    if Permits(s.tasks, s.w.memory, limit, mapPages, q) then Does(s, s', q, limit, mapPages) else s' == s
  }

  ghost predicate Run(log: seq<Snapshot>, qs: seq<Request>, limit: nat, mapPages: nat) {
    |log| == |qs| + 1 && forall i | 0 <= i < |qs| :: Goes(log[i], log[i + 1], qs[i], limit, mapPages)
  }

  // The memory call is bound to succeed: it asks for no more than there is, or sharing leaves a sound state.
  ghost predicate Bound(s: Snapshot, q: Request, limit: nat) {
    match q
    case Get(t, bytes) => t < |s.tasks| && t in s.maps && !Exhausts(s.w, s.tasks[t].pid, s.maps[t], limit, PagesFor(bytes))
    case Share(_, u, _, bytes) => u < |s.tasks| && u in s.maps && Holds(s.w, s.tasks[u].pid, s.maps[u], limit, PagesFor(bytes))
    case _ => true
  }

  // ---- the premises are those of the operations --------------------------------------------------

  lemma DoomedIsStopped(sys: System, i: nat)
    requires sys.Valid() && 0 < i < |sys.tasks| && Used(sys.tasks[i]) && (sys.tasks[i].exec || !sys.tasks[i].close)
    ensures sys.Alive(i)
  {
    hide Inv, Table, SpacesOk, HeldOk, Counted, StreamsOk, StreamsSet, MapsApart, Pool, Agrees;
  }

  lemma ReadIsLook(sys: System, t: nat, p: Path)
    requires sys.Valid() && 0 < t < |sys.tasks| && Used(sys.tasks[t])
    ensures Read(sys.k.memory, sys.tasks[t], p) == Look(sys.k.W(), sys.tasks[t].pid, p) && HasSpace(sys.k.W(), sys.tasks[t].pid)
  {
    hide Inv, Table, DoomOk, HeldOk, Counted, StreamsOk, StreamsSet, MapsApart, Pool, Agrees;
    assert SpaceOf(sys.tasks[t], sys.k.W(), t);
  }

  lemma MayGive(sys: System, t: nat, address: nat, bytes: nat)
    requires sys.Valid() && May(sys, Give(t, address, bytes))
    ensures sys.MayReturn(t, FirstReturned(address), PagesFor(bytes))
    ensures Unshared(sys.k.W(), sys.tasks[t].pid, FirstReturned(address), PagesFor(bytes))
  {
    hide System.Valid, Look, PageAt, PagesFor, FirstReturned, Kernel.W, Read;
    DoomedIsStopped(sys, t);
    var p, n := FirstReturned(address), PagesFor(bytes);
    forall x: nat | p <= x < p + n
      ensures Returnable(sys.k.W(), sys.tasks[t].pid, x) && UnsharedPage(sys.k.W(), sys.tasks[t].pid, x)
    {
      assert GivesBack(sys.k.memory, sys.tasks[t], x);
      ReadIsLook(sys, t, PageAt(x));
      ReadIsLook(sys, t, Up(PageAt(x)));
    }
  }

  lemma MayShare(sys: System, t: nat, u: nat, source: nat, bytes: nat)
    requires sys.Valid() && May(sys, Share(t, u, source, bytes))
    ensures sys.MayShare(t, u, PageOf(source), PagesFor(bytes)) && PagesFor(bytes) > 0 && sys.Alive(u) && t < |sys.tasks|
    ensures Bitmap.Bounded(sys.tasks[u].words[..], sys.k.limit, PagesFor(bytes))
  {
    hide System.Valid, Look, PageAt, PagesFor, PageOf, Kernel.W, Read, KernelLow, LowReady, Agrees;
    DoomedIsStopped(sys, t);
    DoomedIsStopped(sys, u);
    var g := sys.OwnerOf(t);
    var h := sys.OwnerOf(u);
    var w, r, a, n := sys.k.W(), sys.tasks[t].pid, PageOf(source), PagesFor(bytes);
    UsableParts(w, r, sys.tasks[t].words[..]);
    forall x: nat | a <= x < a + n ensures Look(w, r, PageAt(x)) != EMPTY && Look(w, r, Up(PageAt(x))) != EMPTY {
      ReadIsLook(sys, t, PageAt(x));
      PageAtIs(x);
      PageAbove(w, r, PageAt(x));
    }
  }

  // Just the requests may be made that the operations ask for, of tasks that run.
  ghost predicate Rightful(sys: System, q: Request)
    reads sys, sys.k, sys.k.bitmap
  {
    match q
    case Exec(r, file, args, size, flow) =>
      (r == 0 || sys.Running(r)) && 0 < args <= LOW_PAGES && 0 < size && FIRST_PAGE + size <= 32 * 1024 * sys.mapPages
    case Thread(r) => sys.Running(r)
    case Exit(t) => sys.Running(t)
    case Take(t) => 0 < t < |sys.tasks| && sys.tasks[t].active && !sys.tasks[t].exec
    case Leave(t) => sys.Running(t)
    case Get(t, bytes) => sys.Running(t) && sys.k.limit + PagesFor(bytes) <= 32 * sys.tasks[t].words.Length + 1
    case Give(t, address, bytes) =>
      sys.MayReturn(t, FirstReturned(address), PagesFor(bytes)) && Unshared(sys.k.W(), sys.tasks[t].pid, FirstReturned(address), PagesFor(bytes))
    case Share(t, u, source, bytes) =>
      && sys.Running(t) && sys.Alive(u) && !sys.tasks[u].close && bytes > 0
      && PageOf(source) + PagesFor(bytes) <= LOW_PAGES && sys.k.limit + PagesFor(bytes) <= 32 * sys.tasks[u].words.Length + 1
      && forall x: nat | PageOf(source) <= x < PageOf(source) + PagesFor(bytes) :: Look(sys.k.W(), sys.tasks[t].pid, PageAt(x)) != EMPTY
    case Store(t, page, i, _) =>
      sys.Running(t) && page < LOW_PAGES && i < 512 && Owned(Look(sys.k.W(), sys.tasks[t].pid, PageAt(page)).flags)
    case Collect(e) => 0 < e < |sys.tasks| && sys.tasks[e].close && !sys.tasks[e].exec
  }

  lemma MayIsRightful(sys: System, q: Request)
    requires sys.Valid()
    ensures May(sys, q) <==> Rightful(sys, q)
  {
    hide System.Valid, Look, PageAt, PageOf, PagesFor, FirstReturned, Kernel.W, Read, Owned, Lent, Unshared, GivesBack;
    RunningIs(sys);
    match q {
      case Give(t, address, bytes) => GiveIsRightful(sys, t, address, bytes);
      case Share(t, u, source, bytes) =>
        PagesHold(bytes);
        if OnProcessor(sys.tasks, t) {
          forall x: nat ensures Read(sys.k.memory, sys.tasks[t], PageAt(x)) == Look(sys.k.W(), sys.tasks[t].pid, PageAt(x)) {
            ReadIsLook(sys, t, PageAt(x));
          }
        }
        if 0 < u < |sys.tasks| && Used(sys.tasks[u]) && !sys.tasks[u].close {
          DoomedIsStopped(sys, u);
        }
      case Store(t, page, _, _) =>
        if OnProcessor(sys.tasks, t) {
          ReadIsLook(sys, t, PageAt(page));
        }
      case _ =>
    }
  }

  lemma RunningIs(sys: System)
    requires sys.Valid()
    ensures forall t: nat :: OnProcessor(sys.tasks, t) <==> sys.Running(t)
  {
    hide System.Valid;
    forall t: nat | OnProcessor(sys.tasks, t) ensures sys.Running(t) {
      DoomedIsStopped(sys, t);
    }
  }

  lemma GiveIsRightful(sys: System, t: nat, address: nat, bytes: nat)
    requires sys.Valid()
    ensures May(sys, Give(t, address, bytes)) <==> Rightful(sys, Give(t, address, bytes))
  {
    hide System.Valid, Look, PageAt, PagesFor, FirstReturned, Kernel.W, Read;
    RunningIs(sys);
    if May(sys, Give(t, address, bytes)) {
      MayGive(sys, t, address, bytes);
    }
    if Rightful(sys, Give(t, address, bytes)) {
      var p, n := FirstReturned(address), PagesFor(bytes);
      forall x: nat | p <= x < p + n ensures GivesBack(sys.k.memory, sys.tasks[t], x) {
        assert Returnable(sys.k.W(), sys.tasks[t].pid, x) && UnsharedPage(sys.k.W(), sys.tasks[t].pid, x);
        ReadIsLook(sys, t, PageAt(x));
        ReadIsLook(sys, t, Up(PageAt(x)));
      }
    }
  }

  // A process's map is not the kernel's.
  lemma MapsOwn(sys: System)
    requires sys.Valid()
    ensures forall i | 0 < i < |sys.tasks| && Used(sys.tasks[i]) && !sys.tasks[i].thread :: sys.tasks[i].words != sys.k.bitmap
  {
    hide Inv, Table, SpacesOk, DoomOk, HeldOk, Counted, StreamsOk, StreamsSet, Pool, Agrees;
  }

  // ---- one request -------------------------------------------------------------------------------

  // What is left when a request leaves no sound system: a task could not be started for want of an entry or of
  // frames, or memory ran out under a call.
  ghost predicate Failed(sys: System, q: Request)
    reads sys, sys.k, sys.k.bitmap
  {
    match q
    case Exec(r, file, args, size, flow) => AllUsed(sys.tasks) || LacksOne(sys.k.W(), sys.k.limit, {1, file, args, size, sys.mapPages})
    case Thread(r) => AllUsed(sys.tasks) || Lacks(sys.k.W(), sys.k.limit, 1)
    case Get(t, bytes) => sys.k.W().free == {}
    case Share(_, _, _, _) => true
    case _ => false
  }

  method ServeExec(sys: System, r: nat, file: nat, args: nat, size: nat, flow: Flow) returns (sound: bool)
    requires sys.Valid() && May(sys, Exec(r, file, args, size, flow))
    modifies sys`tasks, sys`streams, sys`taskId
    modifies sys.k`memory, sys.k`available, sys.k`own, sys.k`kind, sys.k.bitmap
    ensures sound ==> sys.Valid() && fresh(sys.Arrays() - old(sys.Arrays())) && Does(old(Snap(sys)), Snap(sys), Exec(r, file, args, size, flow), sys.k.limit, sys.mapPages)
    ensures !sound ==> Failed(sys, Exec(r, file, args, size, flow))
  {
    hide System.Valid, Born, Loaded, Complete, Outlet, NewStream, LacksOne, Lacks, AllUsed, Kernel.W, Free, Added;
    MapsOwn(sys);
    ghost var s := Snap(sys);
    if r > 0 {
      DoomedIsStopped(sys, r);
    }
    var t;
    sound, t := Launching.Exec(sys, r, file, args, size, flow);
    if sound {
      AddedIs(s.tasks, sys.tasks, t, r, s.taskId);
      assert NewProcess(s, Snap(sys), t, r, args, size, flow);
    }
  }

  lemma AddedIs(a: seq<Task>, b: seq<Task>, t: nat, r: nat, lastPid: nat)
    requires Added(a, b, t, r, lastPid)
    ensures t < |a| && r < |a| && |b| == |a| && !Used(a[t]) && b == a[t := b[t]]
  {
  }

  method ServeThread(sys: System, r: nat) returns (sound: bool)
    requires sys.Valid() && May(sys, Thread(r))
    modifies sys`tasks, sys`streams, sys`taskId
    modifies sys.k`memory, sys.k`available, sys.k`own, sys.k`kind, sys.k.bitmap
    ensures sound ==> sys.Valid() && fresh(sys.Arrays() - old(sys.Arrays())) && Does(old(Snap(sys)), Snap(sys), Thread(r), sys.k.limit, sys.mapPages)
    ensures !sound ==> Failed(sys, Thread(r))
  {
    hide System.Valid, Born, Complete, Follows, Lacks, AllUsed, Kernel.W, Free, Added;
    MapsOwn(sys);
    ghost var s := Snap(sys);
    DoomedIsStopped(sys, r);
    var t;
    sound, t := Launching.Thread(sys, r);
    if sound {
      AddedIs(s.tasks, sys.tasks, t, r, s.taskId);
      assert sys.tasks[t].words == s.tasks[r].words;
      assert NewThread(s, Snap(sys), t, r);
    }
  }

  // What a request does to the flags of an entry, if that is all it does.
  function Marked(q: Request, x: Task): Task {
    match q
    case Exit(_) => x.(close := true, active := false)
    case Take(_) => x.(exec := true)
    case Leave(_) => x.(exec := false)
    case _ => x
  }

  method ServeFlags(sys: System, q: Request)
    requires sys.Valid() && May(sys, q) && (q.Exit? || q.Take? || q.Leave?)
    modifies sys`tasks
    ensures sys.Valid() && fresh(sys.Arrays() - old(sys.Arrays())) && Does(old(Snap(sys)), Snap(sys), q, sys.k.limit, sys.mapPages)
  {
    hide System.Valid, Does, Permits, Kernel.W, Free;
    ghost var s := Snap(sys);
    FlagsMay(sys, q);
    ServeMark(sys, q);
    forall i: nat | i < |s.tasks| ensures sys.tasks[i].words == s.tasks[i].words && s.maps[i] == Free(sys.tasks[i].words[..]) {
    }
    assert Snap(sys).maps == s.maps;
    FlagsDo(s, Snap(sys), q, sys.k.limit, sys.mapPages);
  }

  method ServeMark(sys: System, q: Request)
    requires sys.Valid() && (q.Exit? || q.Take? || q.Leave?) && 0 < q.t < |sys.tasks|
    requires if q.Take? then sys.tasks[q.t].active && !sys.tasks[q.t].exec else sys.Running(q.t)
    modifies sys`tasks
    ensures sys.Valid() && sys.tasks == old(sys.tasks)[q.t := Marked(q, old(sys.tasks[q.t]))]
  {
    hide System.Valid;
    match q {
      case Exit(t) => sys.Exit(t);
      case Take(t) => sys.Take(t);
      case Leave(t) => sys.Leave(t);
    }
  }

  lemma FlagsMay(sys: System, q: Request)
    requires sys.Valid() && May(sys, q) && (q.Exit? || q.Take? || q.Leave?)
    ensures 0 < q.t < |sys.tasks|
    ensures if q.Take? then sys.tasks[q.t].active && !sys.tasks[q.t].exec else sys.Running(q.t)
  {
    hide System.Valid;
    if !q.Take? {
      DoomedIsStopped(sys, q.t);
    }
  }

  lemma FlagsDo(s: Snapshot, s': Snapshot, q: Request, limit: nat, mapPages: nat)
    requires (q.Exit? || q.Take? || q.Leave?) && q.t < |s.tasks| && Flagged(s, s', q.t, Marked(q, s.tasks[q.t]))
    ensures Does(s, s', q, limit, mapPages)
  {
  }

  method ServeGet(sys: System, t: nat, bytes: nat) returns (sound: bool)
    requires t < |sys.tasks| && sys.Valid() && May(sys, Get(t, bytes))
    modifies sys.k`memory, sys.k`available, sys.k`own, sys.k.bitmap, sys.tasks[t].words
    ensures sound ==> sys.Valid() && Does(old(Snap(sys)), Snap(sys), Get(t, bytes), sys.k.limit, sys.mapPages)
    ensures sound <==> Bound(old(Snap(sys)), Get(t, bytes), sys.k.limit)
    ensures !sound ==> Failed(sys, Get(t, bytes))
  {
    hide System.Valid, Kernel.W, Free, Exhausts, Allotted, Private, Look, NoFit, PagesFor;
    MapsOwn(sys);
    ghost var s := Snap(sys);
    DoomedIsStopped(sys, t);
    ReadIsLook(sys, t, Top);
    var address, halted := sys.MemoryAlloc(t, bytes);
    sound := !halted;
    assert sound ==> Inside(s, Snap(sys), t);
    if sound && address != 0 {
      AllottedFits(s.w, sys.k.W(), s.tasks[t].pid, s.maps[t], Free(sys.tasks[t].words[..]), sys.k.limit, PagesFor(bytes), address / PAGE_BYTES);
    }
  }

  lemma AllottedFits(v: World, w: World, s: nat, before: set<nat>, after: set<nat>, limit: nat, n: nat, p: nat)
    requires Allotted(v, w, s, before, after, limit, n, p)
    ensures !NoFit(before, limit, n)
  {
    hide Look;
  }

  method ServeGive(sys: System, t: nat, address: nat, bytes: nat)
    requires t < |sys.tasks| && sys.Valid() && May(sys, Give(t, address, bytes))
    modifies sys.k`memory, sys.k`available, sys.k`own, sys.k.bitmap, sys.tasks[t].words
    ensures sys.Valid() && Does(old(Snap(sys)), Snap(sys), Give(t, address, bytes), sys.k.limit, sys.mapPages)
  {
    hide System.Valid, Kernel.W, Free, GivenBack, Private, Look, PageAt, Read, Unshared, PagesFor, FirstReturned, Lent;
    MapsOwn(sys);
    ghost var s := Snap(sys);
    DoomedIsStopped(sys, t);
    ReadIsLook(sys, t, Top);
    MayGive(sys, t, address, bytes);
    sys.MemoryRelease(t, address, bytes);
    assert Inside(s, Snap(sys), t);
  }

  method ServeStore(sys: System, t: nat, page: nat, i: nat, value: Entry)
    requires sys.Valid() && May(sys, Store(t, page, i, value))
    modifies sys.k`memory
    ensures sys.Valid() && Does(old(Snap(sys)), Snap(sys), Store(t, page, i, value), sys.k.limit, sys.mapPages)
  {
    hide System.Valid, Look, PageAt, Read, Owned, SameTables, Put, Inv;
    ghost var s := Snap(sys);
    DoomedIsStopped(sys, t);
    ReadIsLook(sys, t, PageAt(page));
    SystemInv(sys);
    sys.Store(t, page, i, value);
    assert Snap(sys).maps == s.maps;
  }

  lemma SystemInv(sys: System)
    requires sys.Valid()
    ensures Inv(sys.k.W())
  {
  }

  method ServeShare(sys: System, t: nat, u: nat, source: nat, bytes: nat) returns (sound: bool)
    requires u < |sys.tasks| && sys.Valid() && May(sys, Share(t, u, source, bytes))
    modifies sys.k`memory, sys.k`available, sys.k`own, sys.k.bitmap, sys.tasks[u].words
    ensures sound <==> sys.Valid()
    ensures sound <==> Bound(old(Snap(sys)), Share(t, u, source, bytes), sys.k.limit)
    ensures sound ==> Does(old(Snap(sys)), Snap(sys), Share(t, u, source, bytes), sys.k.limit, sys.mapPages)
  {
    hide Permits, System.Valid, System.MayShare, System.MapAgrees, Kernel.W, Kernel.Valid, Look, PageAt, PagesFor, PageOf, Holds, Connected, Bitmap.Bounded, Read, Tells, Private, Free, NoFit, HasSpace;
    MapsOwn(sys);
    ghost var s := Snap(sys);
    MayShare(sys, t, u, source, bytes);
    ReadIsLook(sys, u, Top);
    ghost var g := sys.OwnerOf(u);
    var address, done := sys.MemoryShare(t, u, source, bytes);
    sound := if address / PAGE_BYTES == 0 then Read(sys.k.memory, sys.tasks[u], PageAt(0)) == EMPTY
             else Read(sys.k.memory, sys.tasks[u], PageAt(address / PAGE_BYTES + PagesFor(bytes) - 1)) != EMPTY;
    TellsIs(sys, u, address / PAGE_BYTES, PagesFor(bytes));
    assert sound ==> Inside(s, Snap(sys), u);
    assert sound ==> Holds(s.w, s.tasks[u].pid, s.maps[u], sys.k.limit, PagesFor(bytes));
  }

  lemma TellsIs(sys: System, u: nat, p: nat, n: nat)
    requires u < |sys.tasks| && HasSpace(sys.k.W(), sys.tasks[u].pid) && sys.k.W().own[Node(sys.tasks[u].pid, Top)] == sys.tasks[u].cr3 && n > 0
    ensures Tells(sys.k.W(), sys.tasks[u].pid, p, n) <==>
              if p == 0 then Read(sys.k.memory, sys.tasks[u], PageAt(0)) == EMPTY
              else Read(sys.k.memory, sys.tasks[u], PageAt(p + n - 1)) != EMPTY
  {
    hide PageAt;
  }

  method ServeCollect(sys: System, e: nat)
    requires sys.Valid() && May(sys, Collect(e))
    modifies sys`tasks, sys`streams, sys`doomed
    modifies sys.k`memory, sys.k`available, sys.k`own, sys.k`kind, sys.k.bitmap
    ensures sys.Valid() && fresh(sys.Arrays() - old(sys.Arrays())) && Does(old(Snap(sys)), Snap(sys), Collect(e), sys.k.limit, sys.mapPages)
  {
    hide System.Valid, Gone, Reaped, Dues, Kernel.W, Free;
    MapsOwn(sys);
    ghost var s := Snap(sys);
    Reclaim(sys, e);
    GoneSize(s.tasks, sys.tasks, e);
    forall j | 0 <= j < |s.tasks| ensures sys.tasks[j].words == s.tasks[j].words {
      GoneEntry(s.tasks, sys.tasks, e, j);
    }
    assert MapsStay(s, Snap(sys));
  }

  // Serves a request that may be made. The system stays sound, unless it answers false.
  method ServeOne(sys: System, q: Request) returns (sound: bool)
    requires sys.Valid() && May(sys, q)
    modifies sys, sys.k, sys.k.bitmap, sys.Arrays()
    ensures sound ==> sys.Valid() && fresh(sys.Arrays() - old(sys.Arrays())) && Does(old(Snap(sys)), Snap(sys), q, sys.k.limit, sys.mapPages)
    ensures !sound ==> Failed(sys, q)
    ensures q.Get? || q.Share? ==> (sound <==> Bound(old(Snap(sys)), q, sys.k.limit))
  {
    hide Permits, System.Valid, Does, Snap, Failed, Bound;
    EntriesOf(sys, q);
    sound := true;
    match q {
      case Exec(r, file, args, size, flow) => sound := ServeExec(sys, r, file, args, size, flow);
      case Thread(r) => sound := ServeThread(sys, r);
      case Exit(_) => ServeFlags(sys, q);
      case Take(_) => ServeFlags(sys, q);
      case Leave(_) => ServeFlags(sys, q);
      case Get(t, bytes) => sound := ServeGet(sys, t, bytes);
      case Give(t, address, bytes) => ServeGive(sys, t, address, bytes);
      case Store(t, page, i, value) => ServeStore(sys, t, page, i, value);
      case Share(t, u, source, bytes) =>
        sound := ServeShare(sys, t, u, source, bytes);
        ShareFailed(sys, q);
      case Collect(e) => ServeCollect(sys, e);
    }
  }

  lemma EntriesOf(sys: System, q: Request)
    requires May(sys, q)
    ensures q.Share? ==> q.u < |sys.tasks| && sys.tasks[q.u].words in sys.Arrays()
    ensures q.Get? || q.Give? || q.Store? ==> q.t < |sys.tasks| && sys.tasks[q.t].words in sys.Arrays()
  {
    hide Read, GivesBack, PagesFor, PageAt;
  }

  lemma ShareFailed(sys: System, q: Request)
    requires q.Share?
    ensures Failed(sys, q)
  {
  }

  // ---- any list of requests ----------------------------------------------------------------------

  // Requests are served one after the other; one that may not be made is not. The system is sound after each,
  // up to one that fails: what that leaves is stated for the last.
  method Serve(sys: System, qs: seq<Request>) returns (n: nat, ghost log: seq<Snapshot>)
    requires sys.Valid()
    modifies sys, sys.k, sys.k.bitmap, sys.Arrays()
    ensures n <= |qs| && Run(log, qs[..n], sys.k.limit, sys.mapPages) && log[0] == old(Snap(sys))
    ensures n == |qs| ==> sys.Valid() && log[n] == Snap(sys)
    ensures n < |qs| ==> Failed(sys, qs[n])
    ensures n < |qs| && (qs[n].Get? || qs[n].Share?) ==> !Bound(log[n], qs[n], sys.k.limit)
    ensures n < |qs| ==> Permits(log[n].tasks, log[n].w.memory, sys.k.limit, sys.mapPages, qs[n])
  {
    hide Permits, System.Valid, Does, Failed, Bound;
    n, log := 0, [Snap(sys)];
    while n < |qs|
      invariant n <= |qs| && sys.Valid() && fresh(sys.Arrays() - old(sys.Arrays()))
      invariant Run(log, qs[..n], sys.k.limit, sys.mapPages) && log[0] == old(Snap(sys)) && log[n] == Snap(sys)
    {
      ghost var s := Snap(sys);
      var may := May(sys, qs[n]);
      if may {
        var sound := ServeOne(sys, qs[n]);
        if !sound {
          return;
        }
      }
      RunOn(log, qs, n, Snap(sys), sys.k.limit, sys.mapPages);
      log := log + [Snap(sys)];
      n := n + 1;
    }
  }

  lemma RunOn(log: seq<Snapshot>, qs: seq<Request>, n: nat, s: Snapshot, limit: nat, mapPages: nat)
    requires n < |qs| && Run(log, qs[..n], limit, mapPages) && Goes(log[n], s, qs[n], limit, mapPages)
    ensures Run(log + [s], qs[..n + 1], limit, mapPages)
  {
    hide Goes;
    forall i | 0 <= i < n + 1 ensures Goes((log + [s])[i], (log + [s])[i + 1], qs[..n + 1][i], limit, mapPages) {
      if i < n {
        assert Goes(log[i], log[i + 1], qs[..n][i], limit, mapPages);
      }
    }
  }

  // ---- nobody else is touched ----------------------------------------------------------------------

  // The request changes the memory of the process of space r, or takes the space or its process down.
  ghost predicate Concerns(s: Snapshot, q: Request, r: nat) {
    match q
    case Get(t, _) => t < |s.tasks| && Related(s.w, s.tasks[t].pid, r)
    case Give(t, _, _) => t < |s.tasks| && Related(s.w, s.tasks[t].pid, r)
    case Share(_, u, _, _) => u < |s.tasks| && Related(s.w, s.tasks[u].pid, r)
    case Collect(e) => e < |s.tasks| && r in s.w.kind && (s.tasks[e].pid == r || s.w.kind[r] == Linked(s.tasks[e].pid))
    case _ => false
  }

  ghost predicate Related(w: World, s: nat, r: nat) {
    s in w.kind && r in w.kind && Group(w, s) == Group(w, r)
  }

  // A space may be walked as before and reads what it read.
  ghost predicate Same(v: World, w: World, r: nat) {
    && Walkable(v, r) && Walkable(w, r) && w.kind[r] == v.kind[r]
    && forall q | IsPage(q) :: Look(w, r, q) == Look(v, r, q)
  }

  lemma PrivateSame(v: World, w: World, s: nat, r: nat)
    requires Private(v, w, s) && Walkable(v, r) && s in v.kind && !Related(v, s, r)
    ensures Same(v, w, r)
  {
    hide Look;
  }

  lemma BornSame(v: World, w: World, s: nat, r: nat)
    requires Born(v, w, s, {}) && Walkable(v, r)
    ensures Same(v, w, r)
  {
    hide Look, Inv, Pool;
  }

  lemma StoredSame(v: World, w: World, r: nat)
    requires Inv(v) && SameTables(v, w) && Walkable(v, r)
    ensures Same(v, w, r)
  {
    hide Inv, Look;
    forall q | IsPage(q) ensures Look(w, r, q) == Look(v, r, q) {
      SameTablesWalk(v, w, r, q);
    }
  }

  lemma ReapedSame(v: World, w: World, t: Task, streams: seq<Stream>, mapPages: nat, gone: set<Node>, r: nat)
    requires Reaped(v, w, t.pid, gone) && Dues(t, streams, mapPages, gone) && Walkable(v, r) && t.pid != r && v.kind[r] != Linked(t.pid)
    ensures Same(v, w, r)
  {
    BufferHeld(streams, t.streamIn);
    BufferHeld(OneLess(streams, t.streamIn), t.streamOut);
    HoldingsHeld(t.pid, t.mapFrame, mapPages);
    hide Look, Inv, Pool, Buffer, OneLess, Holdings;
    assert Node(r, Top) !in gone + Nodes(v, t.pid);
  }

  lemma OthersSame(s: Snapshot, s': Snapshot, q: Request, limit: nat, mapPages: nat, r: nat)
    requires Goes(s, s', q, limit, mapPages) && Walkable(s.w, r) && !Concerns(s, q, r)
    ensures Same(s.w, s'.w, r)
  {
    hide Look, Private, Born, Reaped, Dues, SameTables, Loaded, Complete, Permits, Allotted, GivenBack, Connected, Gone, Put, Inv, Related, Added, NoFit;
    if Permits(s.tasks, s.w.memory, limit, mapPages, q) {
      match q {
        case Exec(a, file, args, size, flow) =>
          var t: nat :| NewProcess(s, s', t, a, args, size, flow);
          AddedIs(s.tasks, s'.tasks, t, a, s.taskId);
          BornSame(s.w, s'.w, s'.tasks[t].pid, r);
        case Thread(a) =>
          var t: nat :| NewThread(s, s', t, a);
          AddedIs(s.tasks, s'.tasks, t, a, s.taskId);
          BornSame(s.w, s'.w, s'.tasks[t].pid, r);
        case Get(t, _) => PrivateSame(s.w, s'.w, s.tasks[t].pid, r);
        case Give(t, _, _) => PrivateSame(s.w, s'.w, s.tasks[t].pid, r);
        case Share(_, u, _, _) => PrivateSame(s.w, s'.w, s.tasks[u].pid, r);
        case Store(_, _, _, _) => StoredSame(s.w, s'.w, r);
        case Collect(e) =>
          var gone :| Dues(s.tasks[e], s.streams, mapPages, gone) && Reaped(s.w, s'.w, s.tasks[e].pid, gone);
          ReapedSame(s.w, s'.w, s.tasks[e], s.streams, mapPages, gone, r);
        case _ =>
      }
    }
  }

  // Over every run: whatever the others do, a process reads what it read, until a request concerns it.
  lemma {:induction false} Isolated(log: seq<Snapshot>, qs: seq<Request>, limit: nat, mapPages: nat, r: nat, i: nat, j: nat)
    requires Run(log, qs, limit, mapPages) && i <= j < |log| && Walkable(log[i].w, r)
    requires forall k | i <= k < j :: !Concerns(log[k], qs[k], r)
    ensures Same(log[i].w, log[j].w, r)
  {
    hide Look, Goes, Concerns;
    if i < j {
      Isolated(log, qs, limit, mapPages, r, i, j - 1);
      assert Goes(log[j - 1], log[j], qs[j - 1], limit, mapPages);
      OthersSame(log[j - 1], log[j], qs[j - 1], limit, mapPages, r);
    }
  }

  // ---- from power-on -------------------------------------------------------------------------------

  // Over every run from power-on, as long as no request fails: the system is sound, and every frame of RAM but the
  // kernel's data and map is free or has its owner.
  method PowerOn(regions: seq<Region>, memory: seq<Page>, dataPages: nat, ms: seq<Mapping>, qs: seq<Request>)
    returns (ok: bool, k: Kernel, sys: System?, n: nat, ghost place: nat, ghost log: seq<Snapshot>)
    requires Sound(regions) && |memory| == LimitOf(regions) && LimitOf(regions) / 8 % PAGE_BYTES != 0
    requires exists i: nat :: i < |regions| && regions[i].sort == Usable && Count(regions[i]) >= MapPages(LimitOf(regions)) + dataPages > 0
    requires FIRST_PAGE < LimitOf(regions) && WORD_BITS * FRAME_WORDS * MapPages(LimitOf(regions)) <= LOW_PAGES
    requires forall i | 0 <= i < |ms| :: High(ms[i])
    ensures !ok ==> LacksOne(k.W(), k.limit, {1, AreaPages(|regions|)})
    ensures ok ==> sys != null && sys.k == k && n <= |qs| && Run(log, qs[..n], k.limit, sys.mapPages)
    ensures ok && n == |qs| ==>
              && sys.Valid() && log[n] == Snap(sys)
              && AllOfRam(k.W(), regions, place, MapPages(k.limit) + dataPages) && k.available == |k.W().free|
    ensures ok && n < |qs| ==> Failed(sys, qs[n])
  {
    hide Sound, FramesOf, System.Valid, Run, Snap, Failed, Permits, KernelStacked, Fitting, AllMapped, LacksOne, Pool, Kernel.W;
    n, log := 0, [];
    ok, k, sys, place := Startup.Start(regions, memory, dataPages, ms);
    if ok {
      SystemPool(sys);
      n, log := Serve(sys, qs);
      if n == |qs| {
        SystemPool(sys);
      }
    }
  }

  lemma SystemPool(sys: System)
    requires sys.Valid()
    ensures Pool(sys.k.W()) == sys.pool && sys.k.available == |sys.k.W().free|
  {
  }
}
