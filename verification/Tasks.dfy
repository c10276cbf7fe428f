// The task table: entries, descent from a parent, and references to streams.
module Tasks {

  // 8192 bytes of entries of 371 bytes each
  const TASK_LIMIT := 22
  const STREAM_LIMIT := 44
  // A stream pointer that is not set
  const NO_STREAM := STREAM_LIMIT

  // An entry of the task table. `words` is the process's map of free pages and `mapFrame` the first of
  // the frames that hold it.
  datatype Task = Task(
    active: bool, exec: bool, close: bool, daemon: bool, thread: bool, init: bool, secured: bool,
    pid: nat, parent: nat, sleep: nat, cr3: nat,
    streamIn: nat, streamOut: nat,
    words: array<bv32>, mapFrame: nat)

  datatype Stream = Stream(base: nat, count: nat)

  // An entry is in use while any flag is set.
  predicate Used(t: Task) {
    t.active || t.exec || t.close || t.daemon || t.thread || t.init || t.secured
  }

  function Unused(t: Task): Task {
    t.(active := false, exec := false, close := false, daemon := false, thread := false, init := false, secured := false)
  }

  // What closing a descendant does to its entry.
  function Closed(t: Task): Task {
    t.(active := false, exec := false, close := true)
  }

  ghost predicate Distinct(tasks: seq<Task>) {
    forall i, j | 0 <= i < |tasks| && 0 <= j < |tasks| && Used(tasks[i]) && Used(tasks[j]) && tasks[i].pid == tasks[j].pid :: i == j
  }

  // Entry 0 is the kernel's; every other task has an identifier larger than its parent's.
  ghost predicate Table(tasks: seq<Task>, lastPid: nat) {
    && |tasks| == TASK_LIMIT
    && Used(tasks[0]) && tasks[0].pid == 0 && tasks[0].parent == 0 && !tasks[0].active && !tasks[0].close && !tasks[0].exec
    && Distinct(tasks)
    && (forall i | 0 <= i < |tasks| && Used(tasks[i]) :: tasks[i].secured)
    && forall i | 0 < i < |tasks| && Used(tasks[i]) :: tasks[i].parent < tasks[i].pid <= lastPid
  }

  // ---- descent ---------------------------------------------------------------------------------

  predicate ChildOf(t: Task, p: nat) {
    Used(t) && t.parent == p
  }

  // Entry i is in use and comes from task p through parents that are in use.
  ghost predicate Descends(tasks: seq<Task>, i: nat, p: nat)
    requires i < |tasks|
    decreases tasks[i].pid
  {
    && Used(tasks[i])
    && (tasks[i].parent == p ||
        exists j: nat :: j < |tasks| && tasks[j].pid < tasks[i].pid && Used(tasks[j]) && tasks[j].pid == tasks[i].parent
                         && Descends(tasks, j, p))
  }

  // The same tasks with the same parents.
  ghost predicate SameTree(a: seq<Task>, b: seq<Task>) {
    |a| == |b| && forall i | 0 <= i < |a| :: Used(a[i]) == Used(b[i]) && a[i].pid == b[i].pid && a[i].parent == b[i].parent
  }

  lemma {:induction false} DescendsSame(a: seq<Task>, b: seq<Task>, i: nat, p: nat)
    requires SameTree(a, b) && i < |a|
    ensures Descends(a, i, p) == Descends(b, i, p)
    decreases a[i].pid
  {
    forall j: nat | j < |a| && a[j].pid < a[i].pid ensures Descends(a, j, p) == Descends(b, j, p) {
      DescendsSame(a, b, j, p);
    }
  }

  // Entry j comes from task p through one of the first n entries.
  ghost predicate Through(tasks: seq<Task>, j: nat, p: nat, n: nat)
    requires j < |tasks| && n <= |tasks|
  {
    exists c: nat :: c < n && ThroughChild(tasks, j, p, c)
  }

  ghost predicate ThroughChild(tasks: seq<Task>, j: nat, p: nat, c: nat)
    requires j < |tasks| && c < |tasks|
  {
    ChildOf(tasks[c], p) && (j == c || Descends(tasks, j, tasks[c].pid))
  }

  lemma {:induction false} DescendsThrough(tasks: seq<Task>, j: nat, p: nat)
    requires j < |tasks| && Distinct(tasks) && Descends(tasks, j, p)
    ensures Through(tasks, j, p, |tasks|)
    decreases tasks[j].pid
  {
    if tasks[j].parent == p {
      assert ThroughChild(tasks, j, p, j);
    } else {
      var k: nat :| k < |tasks| && tasks[k].pid < tasks[j].pid && Used(tasks[k]) && tasks[k].pid == tasks[j].parent
                    && Descends(tasks, k, p);
      DescendsThrough(tasks, k, p);
      var c: nat :| c < |tasks| && ThroughChild(tasks, k, p, c);
      assert ThroughChild(tasks, j, p, c);
    }
  }

  lemma {:induction false} ChildDescends(tasks: seq<Task>, lastPid: nat, j: nat, p: nat, c: nat)
    requires Table(tasks, lastPid) && j < |tasks| && c < |tasks| && p > 0
    requires ChildOf(tasks[c], p) && Descends(tasks, j, tasks[c].pid)
    ensures Descends(tasks, j, p)
    decreases tasks[j].pid
  {
    if tasks[j].parent == tasks[c].pid {
      assert Descends(tasks, c, p);
      assert tasks[c].pid < tasks[j].pid by { assert j != 0; }
    } else {
      var k: nat :| k < |tasks| && tasks[k].pid < tasks[j].pid && Used(tasks[k]) && tasks[k].pid == tasks[j].parent
                    && Descends(tasks, k, tasks[c].pid);
      ChildDescends(tasks, lastPid, k, p, c);
    }
  }

  lemma ThroughDescends(tasks: seq<Task>, lastPid: nat, j: nat, p: nat, n: nat)
    requires Table(tasks, lastPid) && j < |tasks| && n <= |tasks| && p > 0 && Through(tasks, j, p, n)
    ensures Descends(tasks, j, p)
  {
    var c: nat :| c < n && ThroughChild(tasks, j, p, c);
    if j != c {
      ChildDescends(tasks, lastPid, j, p, c);
    }
  }

  // ---- references to streams -------------------------------------------------------------------

  function RefsOf(t: Task, x: nat): nat {
    if Used(t) then (if t.streamIn == x then 1 else 0) + (if t.streamOut == x then 1 else 0) else 0
  }

  // How often tasks other than the kernel refer to stream x.
  function Refs(tasks: seq<Task>, x: nat): nat {
    if |tasks| <= 1 then 0 else Refs(tasks[..|tasks| - 1], x) + RefsOf(tasks[|tasks| - 1], x)
  }

  lemma {:induction false} RefsUpdate(tasks: seq<Task>, i: nat, t: Task, x: nat)
    requires 0 < i < |tasks|
    ensures Refs(tasks[i := t], x) + RefsOf(tasks[i], x) == Refs(tasks, x) + RefsOf(t, x)
  {
    var last := |tasks| - 1;
    if i == last {
      assert tasks[i := t][..last] == tasks[..last];
    } else {
      RefsUpdate(tasks[..last], i, t, x);
      assert tasks[i := t][..last] == tasks[..last][i := t];
    }
  }

  lemma {:induction false} RefsAtLeast(tasks: seq<Task>, i: nat, x: nat)
    requires 0 < i < |tasks|
    ensures Refs(tasks, x) >= RefsOf(tasks[i], x)
  {
    if i < |tasks| - 1 {
      RefsAtLeast(tasks[..|tasks| - 1], i, x);
    }
  }

  // All references to streams below n.
  function Total(tasks: seq<Task>, n: nat): nat {
    if n == 0 then 0 else Total(tasks, n - 1) + Refs(tasks, n - 1)
  }

  function Contribution(t: Task, n: nat): nat {
    if Used(t) then (if t.streamIn < n then 1 else 0) + (if t.streamOut < n then 1 else 0) else 0
  }

  lemma {:induction false} TotalLast(tasks: seq<Task>, n: nat)
    requires |tasks| > 1
    ensures Total(tasks, n) == Total(tasks[..|tasks| - 1], n) + Contribution(tasks[|tasks| - 1], n)
  {
    if n > 0 {
      TotalLast(tasks, n - 1);
    }
  }

  lemma {:induction false} TotalNone(tasks: seq<Task>, n: nat)
    requires |tasks| <= 1
    ensures Total(tasks, n) == 0
  {
    if n > 0 {
      TotalNone(tasks, n - 1);
    }
  }

  // No task refers to more than two streams, and a task that has set at most one refers to at most one.
  lemma {:induction false} TotalBound(tasks: seq<Task>, n: nat, i: nat)
    requires |tasks| >= 1 && n <= NO_STREAM
    ensures Total(tasks, n) <= 2 * (|tasks| - 1)
    ensures 0 < i < |tasks| && (tasks[i].streamIn == NO_STREAM || tasks[i].streamOut == NO_STREAM) ==>
              Total(tasks, n) <= 2 * (|tasks| - 1) - 1
    ensures 0 < i < |tasks| && tasks[i].streamIn == NO_STREAM && tasks[i].streamOut == NO_STREAM ==>
              Total(tasks, n) <= 2 * (|tasks| - 1) - 2
  {
    if |tasks| == 1 {
      TotalNone(tasks, n);
    } else {
      TotalLast(tasks, n);
      TotalBound(tasks[..|tasks| - 1], n, i);
    }
  }

  // ---- the stream table ------------------------------------------------------------------------

  // Every count is the number of references, the kernel's null stream counting once more; a slot is in
  // use while its count is not zero.
  ghost predicate Counted(tasks: seq<Task>, streams: seq<Stream>, nullStream: nat) {
    && |streams| == STREAM_LIMIT && nullStream < STREAM_LIMIT
    && forall x: nat | x < STREAM_LIMIT ::
         && streams[x].count == Refs(tasks, x) + (if x == nullStream then 1 else 0)
         && (streams[x].base == 0 <==> streams[x].count == 0)
  }

  // An entry changes its references, and the counts follow.
  lemma CountedStep(a: seq<Task>, t: nat, x: Task, before: seq<Stream>, after: seq<Stream>, nullStream: nat)
    requires Counted(a, before, nullStream) && 0 < t < |a| && |after| == STREAM_LIMIT
    requires forall y: nat | y < STREAM_LIMIT :: after[y].count + RefsOf(a[t], y) == before[y].count + RefsOf(x, y)
    requires forall y: nat | y < STREAM_LIMIT :: after[y].base == 0 <==> after[y].count == 0
    ensures Counted(a[t := x], after, nullStream)
  {
    forall y: nat | y < STREAM_LIMIT ensures after[y].count == Refs(a[t := x], y) + (if y == nullStream then 1 else 0) {
      RefsUpdate(a, t, x, y);
    }
  }

  // Every task has both its streams; the kernel's are the null stream, once it is made.
  ghost predicate StreamsSet(tasks: seq<Task>, nullStream: nat) {
    && (forall i | 0 < i < |tasks| && Used(tasks[i]) :: tasks[i].streamIn < NO_STREAM && tasks[i].streamOut < NO_STREAM)
    && (|tasks| > 0 ==> (tasks[0].streamIn == NO_STREAM || tasks[0].streamIn == nullStream)
                        && (tasks[0].streamOut == NO_STREAM || tasks[0].streamOut == nullStream))
  }

  lemma SetSame(a: seq<Task>, b: seq<Task>, nullStream: nat)
    requires SameEntries(a, b) && StreamsSet(a, nullStream)
    ensures StreamsSet(b, nullStream)
  {
    assert forall i | 0 <= i < |a| :: SameEntry(a[i], b[i]);
  }

  // A stream a task refers to is in use.
  lemma ReferredInUse(tasks: seq<Task>, streams: seq<Stream>, nullStream: nat, i: nat)
    requires Counted(tasks, streams, nullStream) && StreamsSet(tasks, nullStream) && i < |tasks| && Used(tasks[i])
    ensures tasks[i].streamIn < NO_STREAM ==> streams[tasks[i].streamIn].base != 0
    ensures tasks[i].streamOut < NO_STREAM ==> streams[tasks[i].streamOut].base != 0
  {
    if i > 0 {
      RefsAtLeast(tasks, i, tasks[i].streamIn);
      RefsAtLeast(tasks, i, tasks[i].streamOut);
    }
  }

  lemma {:induction false} AllInUse(tasks: seq<Task>, streams: seq<Stream>, nullStream: nat, n: nat)
    requires Counted(tasks, streams, nullStream) && n <= STREAM_LIMIT
    requires forall x: nat | x < n :: streams[x].base != 0
    ensures Total(tasks, n) + (if nullStream < n then 1 else 0) >= n
  {
    if n > 0 {
      AllInUse(tasks, streams, nullStream, n - 1);
    }
  }

  // While some task has not set both its streams, there is a free slot.
  lemma SlotLeft(tasks: seq<Task>, streams: seq<Stream>, nullStream: nat, i: nat)
    requires |tasks| == TASK_LIMIT && Counted(tasks, streams, nullStream)
    requires 0 < i < |tasks| && (tasks[i].streamIn == NO_STREAM || tasks[i].streamOut == NO_STREAM)
    ensures exists x: nat :: x < STREAM_LIMIT && streams[x].base == 0
  {
    if forall x: nat | x < STREAM_LIMIT :: streams[x].base != 0 {
      AllInUse(tasks, streams, nullStream, STREAM_LIMIT);
      TotalBound(tasks, STREAM_LIMIT, i);
    }
  }

  // Entries that differ in flags and times only, and are used alike.
  ghost predicate SameEntry(a: Task, b: Task) {
    && Used(a) == Used(b) && a.secured == b.secured && a.pid == b.pid && a.parent == b.parent && a.cr3 == b.cr3 && a.thread == b.thread
    && a.streamIn == b.streamIn && a.streamOut == b.streamOut && a.words == b.words && a.mapFrame == b.mapFrame
  }

  ghost predicate SameEntries(a: seq<Task>, b: seq<Task>) {
    |a| == |b| && forall i | 0 <= i < |a| :: SameEntry(a[i], b[i])
  }

  lemma {:induction false} RefsSame(a: seq<Task>, b: seq<Task>, x: nat)
    requires SameEntries(a, b)
    ensures Refs(a, x) == Refs(b, x)
  {
    if |a| > 1 {
      assert SameEntry(a[|a| - 1], b[|b| - 1]);
      RefsSame(a[..|a| - 1], b[..|b| - 1], x);
    }
  }
}
