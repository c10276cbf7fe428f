// Several processors sharing the task table: releasing a task, selecting the next under a lock, and
// installing it, interleaved with tasks being made, closed and taken down.
module Scheduling {
  import opened Tasks
  import opened Processes

  // What the scheduler looks at in an entry of the task table.
  datatype Slot = Slot(active: bool, exec: bool, close: bool, secured: bool, sleep: nat)

  const EMPTY_SLOT := Slot(false, false, false, false, 0)

  predicate InUse(x: Slot) {
    x.active || x.exec || x.close || x.secured
  }

  // May be taken up: active, on no processor, and awake.
  predicate Ready(x: Slot, now: nat) {
    x.active && !x.exec && x.sleep <= now
  }

  // Where a processor stands.
  datatype Phase =
    | Running(task: nat)
    | Exiting(task: nat)     // has marked its task closed, not yet inactive; takes no interrupt
    | Seeking(entry: nat)    // has left its task, waits for the lock
    | Scanning(entry: nat)   // has the lock
    | Installing(task: nat)  // has chosen, has given the lock back

  datatype State = State(cpus: seq<Phase>, tasks: seq<Slot>, now: nat, reaping: set<nat>)

  datatype Step =
    | Release(cpu: nat) | Lock(cpu: nat) | Skip(cpu: nat) | Mark(cpu: nat) | Install(cpu: nat)
    | Create(entry: nat) | Activate(entry: nat) | Sleep(cpu: nat, until: nat) | Tick
    | Leave(cpu: nat) | Left(cpu: nat) | Stop(entry: nat) | Close(entry: nat) | Reap(entry: nat) | Free(entry: nat)

  // The task is the processor's, from when it is chosen until it is left.
  predicate Holds(p: Phase, t: nat) {
    (p.Running? || p.Exiting? || p.Installing?) && p.task == t
  }

  predicate At(p: Phase) {
    if p.Seeking? || p.Scanning? then p.entry <= TASK_LIMIT else p.task < TASK_LIMIT
  }

  ghost predicate Wrote(s: State, s': State, t: nat, x: Slot)
    requires t < |s.tasks|
  {
    s' == s.(tasks := s.tasks[t := x])
  }

  ghost predicate Moved(s: State, s': State, c: nat, p: Phase)
    requires c < |s.cpus|
  {
    s' == s.(cpus := s.cpus[c := p])
  }

  ghost predicate Both(s: State, s': State, c: nat, p: Phase, t: nat, x: Slot)
    requires c < |s.cpus| && t < |s.tasks|
  {
    s' == s.(cpus := s.cpus[c := p], tasks := s.tasks[t := x])
  }

  // The processor's task leaves it. The processor takes no interrupt while it is between tasks.
  ghost predicate StepOfCpu(s: State, s': State, step: Step, c: nat)
    requires |s.tasks| == TASK_LIMIT && c < |s.cpus| && At(s.cpus[c])
  {
    match (step, s.cpus[c])
    case (Release(_), Running(t)) => Both(s, s', c, Seeking(t + 1), t, s.tasks[t].(exec := false))
    case (Lock(_), Seeking(e)) => (forall d | 0 <= d < |s.cpus| :: !s.cpus[d].Scanning?) && Moved(s, s', c, Scanning(e))
    case (Skip(_), Scanning(e)) =>
      if e == TASK_LIMIT then Moved(s, s', c, Scanning(0)) else !Ready(s.tasks[e], s.now) && Moved(s, s', c, Scanning(e + 1))
    case (Mark(_), Scanning(e)) =>
      e < TASK_LIMIT && Ready(s.tasks[e], s.now) && Both(s, s', c, Installing(e), e, s.tasks[e].(exec := true))
    case (Install(_), Installing(t)) => Moved(s, s', c, Running(t))
    case (Sleep(_, until), Running(t)) => Wrote(s, s', t, s.tasks[t].(sleep := until))
    case (Leave(_), Running(t)) => t > 0 && Both(s, s', c, Exiting(t), t, s.tasks[t].(close := true))
    case (Left(_), Exiting(t)) => Both(s, s', c, Running(t), t, s.tasks[t].(active := false))
    case _ => false
  }

  // A task is made, becomes active unless it was closed meanwhile, is stopped and, once it is inactive and on
  // no processor, closed; a closed task on no processor is taken down, and its entry is free in the end. Who
  // closes a task has stopped it before, so that closing asks for an inactive entry.
  ghost predicate StepOfEntry(s: State, s': State, step: Step, t: nat)
    requires |s.tasks| == TASK_LIMIT && t < TASK_LIMIT
  {
    match step
    case Create(_) => !InUse(s.tasks[t]) && Wrote(s, s', t, s.tasks[t].(secured := true))
    case Activate(_) => t > 0 && s.tasks[t].secured && !s.tasks[t].close && Wrote(s, s', t, s.tasks[t].(active := true))
    case Stop(_) => t > 0 && InUse(s.tasks[t]) && Wrote(s, s', t, s.tasks[t].(active := false))
    case Close(_) => t > 0 && !s.tasks[t].active && !s.tasks[t].exec && Wrote(s, s', t, s.tasks[t].(close := true))
    case Reap(_) => t > 0 && s.tasks[t].close && !s.tasks[t].exec && s' == s.(reaping := s.reaping + {t})
    case Free(_) => t in s.reaping && s' == s.(tasks := s.tasks[t := EMPTY_SLOT.(sleep := s.tasks[t].sleep)], reaping := s.reaping - {t})
    case _ => false
  }

  ghost predicate Next(s: State, s': State, step: Step) {
    && |s.tasks| == TASK_LIMIT
    && match step
       case Tick => s' == s.(now := s.now + 1)
       case Create(t) => t < TASK_LIMIT && StepOfEntry(s, s', step, t)
       case Activate(t) => t < TASK_LIMIT && StepOfEntry(s, s', step, t)
       case Stop(t) => t < TASK_LIMIT && StepOfEntry(s, s', step, t)
       case Close(t) => t < TASK_LIMIT && StepOfEntry(s, s', step, t)
       case Reap(t) => t < TASK_LIMIT && StepOfEntry(s, s', step, t)
       case Free(t) => t < TASK_LIMIT && StepOfEntry(s, s', step, t)
       case _ => step.cpu < |s.cpus| && At(s.cpus[step.cpu]) && StepOfCpu(s, s', step, step.cpu)
  }

  // Every processor starts on the kernel's entry, which is in use and never active.
  ghost predicate Start(s: State) {
    && |s.tasks| == TASK_LIMIT && s.reaping == {}
    && s.tasks[0] == EMPTY_SLOT.(secured := true)
    && (forall t | 0 < t < TASK_LIMIT :: s.tasks[t] == EMPTY_SLOT)
    && (forall c | 0 <= c < |s.cpus| :: s.cpus[c] == Running(0))
  }

  ghost predicate Held(s: State, t: nat) {
    exists c :: 0 <= c < |s.cpus| && Holds(s.cpus[c], t)
  }

  // No two processors have the same task but the kernel's entry.
  ghost predicate Exclusive(s: State) {
    forall c, d | 0 <= c < |s.cpus| && 0 <= d < |s.cpus| && c != d ::
      forall t | Holds(s.cpus[c], t) && Holds(s.cpus[d], t) :: t == 0
  }

  // A task is marked executed exactly while a processor has it.
  ghost predicate Marked(s: State) {
    |s.tasks| == TASK_LIMIT && forall t: nat | 0 < t < TASK_LIMIT :: s.tasks[t].exec <==> Held(s, t)
  }

  ghost predicate OneScans(s: State) {
    forall c, d | 0 <= c < |s.cpus| && 0 <= d < |s.cpus| && s.cpus[c].Scanning? && s.cpus[d].Scanning? :: c == d
  }

  ghost predicate ExitedBy(s: State, t: nat) {
    exists c :: 0 <= c < |s.cpus| && s.cpus[c] == Exiting(t)
  }

  // A closed task is inactive, but for the one step of its own exit.
  ghost predicate ClosedIdle(s: State) {
    |s.tasks| == TASK_LIMIT && forall t: nat | t < TASK_LIMIT && s.tasks[t].close && s.tasks[t].active :: ExitedBy(s, t)
  }

  // What is being taken down is closed, inactive and on no processor.
  ghost predicate ReapingIdle(s: State) {
    |s.tasks| == TASK_LIMIT && forall t | t in s.reaping :: 0 < t < TASK_LIMIT && s.tasks[t].close && !s.tasks[t].active && !s.tasks[t].exec
  }

  ghost predicate Safe(s: State) {
    && |s.tasks| == TASK_LIMIT && !s.tasks[0].active && s.tasks[0].secured
    && (forall c | 0 <= c < |s.cpus| :: At(s.cpus[c]))
    && Exclusive(s) && Marked(s) && OneScans(s) && ClosedIdle(s) && ReapingIdle(s)
  }

  lemma StartIsSafe(s: State)
    requires Start(s)
    ensures Safe(s)
  {
  }

  // ---- one step keeps everyone apart ------------------------------------------------------------

  // What changes about who has what: processor c goes from p to q, and everyone else stays.
  lemma OthersHold(s: State, s': State, c: nat, t: nat)
    requires c < |s.cpus| && |s'.cpus| == |s.cpus| && forall d | 0 <= d < |s.cpus| && d != c :: s'.cpus[d] == s.cpus[d]
    requires Exclusive(s) && t > 0 && Holds(s.cpus[c], t) && !Holds(s'.cpus[c], t)
    ensures !Held(s', t)
  {
  }

  lemma SameHold(s: State, s': State, c: nat, t: nat)
    requires c < |s.cpus| && |s'.cpus| == |s.cpus| && forall d | 0 <= d < |s.cpus| && d != c :: s'.cpus[d] == s.cpus[d]
    requires Holds(s.cpus[c], t) == Holds(s'.cpus[c], t)
    ensures Held(s', t) <==> Held(s, t)
  {
    if Held(s, t) {
      var d :| 0 <= d < |s.cpus| && Holds(s.cpus[d], t);
      assert Holds(s'.cpus[d], t);
    }
    if Held(s', t) {
      var d :| 0 <= d < |s'.cpus| && Holds(s'.cpus[d], t);
      assert Holds(s.cpus[d], t);
    }
  }

  lemma StepExclusive(s: State, s': State, step: Step, c: nat)
    requires Safe(s) && c < |s.cpus| && StepOfCpu(s, s', step, c)
    ensures Exclusive(s')
  {
    hide ClosedIdle, ReapingIdle, OneScans;
    forall d, t: nat | 0 <= d < |s.cpus| && d != c && Holds(s'.cpus[c], t) && Holds(s'.cpus[d], t) ensures t == 0 {
      assert Holds(s.cpus[d], t);
      assert Held(s, t);
    }
  }

  lemma StepMarked(s: State, s': State, step: Step, c: nat)
    requires Safe(s) && c < |s.cpus| && StepOfCpu(s, s', step, c)
    ensures Marked(s')
  {
    hide ClosedIdle, ReapingIdle, OneScans;
    forall t: nat | 0 < t < TASK_LIMIT ensures s'.tasks[t].exec <==> Held(s', t) {
      if Holds(s.cpus[c], t) == Holds(s'.cpus[c], t) {
        SameHold(s, s', c, t);
      } else if Holds(s.cpus[c], t) {
        OthersHold(s, s', c, t);
      }
    }
  }

  lemma StepIdle(s: State, s': State, step: Step, c: nat)
    requires Safe(s) && c < |s.cpus| && StepOfCpu(s, s', step, c)
    ensures ClosedIdle(s') && ReapingIdle(s')
  {
    hide Exclusive, OneScans;
    forall t: nat | t < TASK_LIMIT && s'.tasks[t].close && s'.tasks[t].active ensures ExitedBy(s', t) {
      if s.cpus[c].Running? && s.cpus[c].task == t && step.Leave? {
        assert s'.cpus[c] == Exiting(t);
      } else {
        assert ExitedBy(s, t);
        var d :| 0 <= d < |s.cpus| && s.cpus[d] == Exiting(t);
        assert s'.cpus[d] == Exiting(t);
      }
    }
    forall t | t in s.reaping ensures s'.tasks[t] == s.tasks[t].(sleep := s'.tasks[t].sleep) {
      assert !Held(s, t);
      assert !Holds(s.cpus[c], t);
    }
  }

  lemma CpuStepIsSafe(s: State, s': State, step: Step, c: nat)
    requires Safe(s) && c < |s.cpus| && StepOfCpu(s, s', step, c)
    ensures Safe(s')
  {
    StepExclusive(s, s', step, c);
    StepMarked(s, s', step, c);
    StepIdle(s, s', step, c);
    hide Exclusive, Marked, ClosedIdle, ReapingIdle;
  }

  lemma SameCpus(s: State, s': State)
    requires s'.cpus == s.cpus
    ensures Exclusive(s') == Exclusive(s) && OneScans(s') == OneScans(s)
  {
  }

  lemma EntryStepIsSafe(s: State, s': State, step: Step, t: nat)
    requires Safe(s) && t < TASK_LIMIT && StepOfEntry(s, s', step, t)
    ensures Safe(s')
  {
    SameCpus(s, s');
    hide OneScans, Exclusive;
    assert forall x :: Held(s', x) == Held(s, x);
    assert forall x :: ExitedBy(s', x) == ExitedBy(s, x);
    if ExitedBy(s, t) {
      var c :| 0 <= c < |s.cpus| && s.cpus[c] == Exiting(t);
      assert Holds(s.cpus[c], t);
    }
    assert ClosedIdle(s') && ReapingIdle(s');
    assert Marked(s');
  }

  lemma NextIsSafe(s: State, s': State, step: Step)
    requires Safe(s) && Next(s, s', step)
    ensures Safe(s')
  {
    match step
    case Tick =>
    case Create(t) => EntryStepIsSafe(s, s', step, t);
    case Activate(t) => EntryStepIsSafe(s, s', step, t);
    case Stop(t) => EntryStepIsSafe(s, s', step, t);
    case Close(t) => EntryStepIsSafe(s, s', step, t);
    case Reap(t) => EntryStepIsSafe(s, s', step, t);
    case Free(t) => EntryStepIsSafe(s, s', step, t);
    case _ => CpuStepIsSafe(s, s', step, step.cpu);
  }

  // ---- whole runs -------------------------------------------------------------------------------

  ghost predicate Run(states: seq<State>, steps: seq<Step>) {
    && |states| == |steps| + 1
    && forall i | 0 <= i < |steps| :: StepAt(states, steps, i)
  }

  ghost predicate StepAt(states: seq<State>, steps: seq<Step>, i: int)
    requires 0 <= i < |steps| && |states| == |steps| + 1
  {
    Next(states[i], states[i + 1], steps[i])
  }

  lemma {:induction false} RunStaysSafe(states: seq<State>, steps: seq<Step>, i: nat)
    requires Run(states, steps) && Safe(states[0]) && i < |states|
    ensures Safe(states[i])
  {
    if i > 0 {
      RunStaysSafe(states, steps, i - 1);
      assert StepAt(states, steps, i - 1);
      NextIsSafe(states[i - 1], states[i], steps[i - 1]);
    }
  }

  lemma RunIsSafe(states: seq<State>, steps: seq<Step>, i: nat)
    requires Run(states, steps) && Start(states[0]) && i < |states|
    ensures Safe(states[i])
  {
    StartIsSafe(states[0]);
    RunStaysSafe(states, steps, i);
  }

  // In every interleaving a task other than the kernel's entry is on at most one processor, it is marked
  // executed exactly while it is on one, and no task is taken down while it is on one.
  lemma MutualExclusion(states: seq<State>, steps: seq<Step>, i: nat, t: nat)
    requires Run(states, steps) && Start(states[0]) && i < |states| && 0 < t < TASK_LIMIT
    ensures forall c, d | 0 <= c < |states[i].cpus| && 0 <= d < |states[i].cpus| && Holds(states[i].cpus[c], t) && Holds(states[i].cpus[d], t) :: c == d
    ensures |states[i].tasks| == TASK_LIMIT && (states[i].tasks[t].exec <==> Held(states[i], t))
    ensures t in states[i].reaping ==> !Held(states[i], t)
  {
    RunIsSafe(states, steps, i);
  }

  // ---- fairness ---------------------------------------------------------------------------------

  // Entries to go from one to another, around the table.
  function Distance(entry: nat, t: nat): nat
    requires entry <= TASK_LIMIT && t < TASK_LIMIT
  {
    if t >= entry then t - entry else t + TASK_LIMIT - entry
  }

  // Entries the processor will look at before it comes to t.
  function Ahead(p: Phase, t: nat): nat
    requires At(p) && t < TASK_LIMIT
  {
    Distance(if p.Seeking? || p.Scanning? then p.entry else p.task + 1, t)
  }

  // Task t is ready, and so is not taken up, all along.
  ghost predicate Waits(states: seq<State>, t: nat) {
    forall i | 0 <= i < |states| :: |states[i].tasks| == TASK_LIMIT && t < TASK_LIMIT && Ready(states[i].tasks[t], states[i].now)
  }

  function Marks(steps: seq<Step>, c: nat): nat {
    if steps == [] then 0 else Marks(steps[..|steps| - 1], c) + (if steps[|steps| - 1] == Mark(c) then 1 else 0)
  }

  lemma Closer(s: State, s': State, step: Step, c: nat, t: nat)
    requires Safe(s) && Safe(s') && Next(s, s', step) && c < |s.cpus| && 0 < t < TASK_LIMIT
    requires Ready(s.tasks[t], s.now) && Ready(s'.tasks[t], s'.now)
    ensures |s'.cpus| == |s.cpus|
    ensures Ahead(s'.cpus[c], t) + (if step == Mark(c) then 1 else 0) <= Ahead(s.cpus[c], t)
  {
    hide Exclusive, Marked, ClosedIdle, ReapingIdle, OneScans;
  }

  // While task t stays ready and is not taken up, processor c takes up no more tasks than it has entries
  // to look at before t: fewer than the table has.
  lemma {:induction false} Bypassed(states: seq<State>, steps: seq<Step>, c: nat, t: nat)
    requires Run(states, steps) && Safe(states[0]) && Waits(states, t) && c < |states[0].cpus| && 0 < t
    ensures Safe(states[|steps|]) && |states[|steps|].cpus| == |states[0].cpus|
    ensures Marks(steps, c) + Ahead(states[|steps|].cpus[c], t) <= Ahead(states[0].cpus[c], t) < TASK_LIMIT
  {
    if steps != [] {
      var n := |steps| - 1;
      var before, rest := states[..|states| - 1], steps[..n];
      forall i | 0 <= i < |rest| ensures StepAt(before, rest, i) {
        assert StepAt(states, steps, i);
      }
      assert StepAt(states, steps, n);
      Bypassed(before, rest, c, t);
      NextIsSafe(states[n], states[n + 1], steps[n]);
      Closer(states[n], states[n + 1], steps[n], c, t);
    }
  }

  // ---- why the collector has to look -------------------------------------------------------------

  // Some run goes from one state to another.
  ghost predicate Leads(s: State, s': State) {
    exists states, steps :: Run(states, steps) && states[0] == s && states[|steps|] == s'
  }

  ghost predicate Reachable(s: State) {
    exists s0 :: Start(s0) && Leads(s0, s)
  }

  lemma LeadsNowhere(s: State)
    ensures Leads(s, s)
  {
    assert Run([s], []);
  }

  lemma LeadsOn(s: State, s': State, s'': State, step: Step)
    requires Leads(s, s') && Next(s', s'', step)
    ensures Leads(s, s'')
  {
    var states, steps :| Run(states, steps) && states[0] == s && states[|steps|] == s';
    var more, taken := states + [s''], steps + [step];
    forall i | 0 <= i < |taken| ensures StepAt(more, taken, i) {
      assert i < |steps| ==> StepAt(states, steps, i);
    }
    assert Run(more, taken) && more[0] == s && more[|taken|] == s'';
  }

  // One processor and one task beside the kernel's.
  function One(p: Phase, x: Slot, reaping: set<nat>): State {
    State([p], seq(TASK_LIMIT, i => if i == 0 then EMPTY_SLOT.(secured := true) else if i == 1 then x else EMPTY_SLOT), 0, reaping)
  }

  const MADE := EMPTY_SLOT.(secured := true)

  lemma FromTheStart()
    ensures Start(One(Running(0), EMPTY_SLOT, {})) && Leads(One(Running(0), EMPTY_SLOT, {}), One(Running(0), MADE, {}))
  {
    LeadsNowhere(One(Running(0), EMPTY_SLOT, {}));
    OneWrites(Running(0), EMPTY_SLOT, MADE, {});
    LeadsOn(One(Running(0), EMPTY_SLOT, {}), One(Running(0), EMPTY_SLOT, {}), One(Running(0), MADE, {}), Create(1));
  }

  lemma OneWrites(p: Phase, x: Slot, y: Slot, reaping: set<nat>)
    ensures One(p, x, reaping).(tasks := One(p, x, reaping).tasks[1 := y]) == One(p, y, reaping)
    ensures One(p, x, reaping).tasks[0 := One(p, x, reaping).tasks[0].(exec := false)] == One(p, x, reaping).tasks
  {
    assert One(p, x, reaping).tasks[1 := y] == One(p, y, reaping).tasks;
  }

  // The processor leaves the kernel's entry and takes up the task.
  lemma TakesUp(s: State, x: Slot, reaping: set<nat>)
    requires Leads(s, One(Running(0), x, reaping)) && Ready(x, 0)
    ensures Leads(s, One(Installing(1), x.(exec := true), reaping))
  {
    OneWrites(Running(0), x, x, reaping);
    LeadsOn(s, One(Running(0), x, reaping), One(Seeking(1), x, reaping), Release(0));
    LeadsOn(s, One(Seeking(1), x, reaping), One(Scanning(1), x, reaping), Lock(0));
    OneWrites(Installing(1), x, x.(exec := true), reaping);
    LeadsOn(s, One(Scanning(1), x, reaping), One(Installing(1), x.(exec := true), reaping), Mark(0));
  }

  // A run leads to a state where a task is closed and its processor still runs it: closing alone is no
  // leave to take it down.
  lemma ClosedIsNotLeft()
    ensures exists s :: Reachable(s) && |s.tasks| == TASK_LIMIT && s.tasks[1].close && Held(s, 1)
  {
    FromTheStart();
    var s := One(Running(0), EMPTY_SLOT, {});
    var x := MADE.(active := true);
    OneWrites(Running(0), MADE, x, {});
    LeadsOn(s, One(Running(0), MADE, {}), One(Running(0), x, {}), Activate(1));
    TakesUp(s, x, {});
    var y := x.(exec := true);
    LeadsOn(s, One(Installing(1), y, {}), One(Running(1), y, {}), Install(0));
    OneWrites(Exiting(1), y, y.(close := true), {});
    LeadsOn(s, One(Running(1), y, {}), One(Exiting(1), y.(close := true), {}), Leave(0));
    var t := One(Exiting(1), y.(close := true), {});
    assert Reachable(t) && Holds(t.cpus[0], 1);
  }

  // ---- why a task must not be activated once it is closed ------------------------------------------

  ghost function Activated(s: State, t: nat): State
    requires t < |s.tasks|
  {
    s.(tasks := s.tasks[t := s.tasks[t].(active := true)])
  }

  // Taking down a closed task is safe if and only if no processor executes it.
  lemma ReapingIsSafe(s: State, t: nat)
    requires Safe(s) && 0 < t < TASK_LIMIT && s.tasks[t].close
    ensures Safe(s.(reaping := s.reaping + {t})) <==> !s.tasks[t].exec
  {
    var s' := s.(reaping := s.reaping + {t});
    if s.tasks[t].exec {
      assert t in s'.reaping;
    } else {
      NextIsSafe(s, s', Reap(t));
    }
  }

  // Activating a task that is on no processor is safe if and only if it is not closed.
  lemma ActivationIsSafe(s: State, t: nat)
    requires Safe(s) && 0 < t < TASK_LIMIT && s.tasks[t].secured && !s.tasks[t].exec
    ensures Safe(Activated(s, t)) <==> !s.tasks[t].close
  {
    var s' := Activated(s, t);
    SameCpus(s, s');
    assert !Held(s, t);
    if s.tasks[t].close {
      assert !ExitedBy(s', t);
      assert !ClosedIdle(s');
    } else {
      NextIsSafe(s, s', Activate(t));
    }
  }

  // How far a processor is from looking at the next entry.
  function Rank(p: Phase): nat {
    match p
    case Exiting(_) => 4
    case Installing(_) => 4
    case Running(_) => 3
    case Seeking(_) => 2
    case Scanning(e) => if e == TASK_LIMIT then 1 else 0
  }

  // Processor c may scan, has not got task t, and t is ready.
  ghost predicate Coming(s: State, c: nat, t: nat) {
    && |s.tasks| == TASK_LIMIT && c < |s.cpus| && At(s.cpus[c]) && !Holds(s.cpus[c], t)
    && 0 < t < TASK_LIMIT && Ready(s.tasks[t], s.now) && forall d | 0 <= d < |s.cpus| && d != c :: !s.cpus[d].Scanning?
  }

  // A step of the processor brings it nearer to the task, or it takes it up.
  lemma Comes(s: State, c: nat, t: nat) returns (s': State, step: Step)
    requires Coming(s, c, t)
    ensures Next(s, s', step) && s'.reaping == s.reaping
    ensures Held(s', t) ||
            (Coming(s', c, t) && (Ahead(s'.cpus[c], t) < Ahead(s.cpus[c], t)
                                  || (Ahead(s'.cpus[c], t) == Ahead(s.cpus[c], t) && Rank(s'.cpus[c]) < Rank(s.cpus[c]))))
  {
    hide Held;
    match s.cpus[c] {
      case Exiting(u) =>
        s', step := s.(cpus := s.cpus[c := Running(u)], tasks := s.tasks[u := s.tasks[u].(active := false)]), Step.Left(c);
      case Installing(u) =>
        s', step := s.(cpus := s.cpus[c := Running(u)]), Install(c);
      case Running(u) =>
        s', step := s.(cpus := s.cpus[c := Seeking(u + 1)], tasks := s.tasks[u := s.tasks[u].(exec := false)]), Release(c);
      case Seeking(e) =>
        s', step := s.(cpus := s.cpus[c := Scanning(e)]), Lock(c);
      case Scanning(e) =>
        if e < TASK_LIMIT && Ready(s.tasks[e], s.now) {
          s', step := s.(cpus := s.cpus[c := Installing(e)], tasks := s.tasks[e := s.tasks[e].(exec := true)]), Mark(c);
          HoldsIs(s', c, e);
        } else {
          s', step := s.(cpus := s.cpus[c := Scanning(if e == TASK_LIMIT then 0 else e + 1)]), Skip(c);
        }
    }
  }

  lemma HoldsIs(s: State, c: nat, t: nat)
    requires c < |s.cpus| && Holds(s.cpus[c], t)
    ensures Held(s, t)
  {
  }

  // A processor whose turn it is to scan comes to any task that is ready.
  lemma {:induction false} Arrives(o: State, s: State, c: nat, t: nat) returns (s': State)
    requires Leads(o, s) && Coming(s, c, t)
    ensures Leads(o, s') && Held(s', t) && s'.reaping == s.reaping
    decreases Ahead(s.cpus[c], t), Rank(s.cpus[c])
  {
    hide Leads, Next, Held;
    var step;
    s', step := Comes(s, c, t);
    LeadsOn(o, s, s', step);
    if !Held(s', t) {
      s' := Arrives(o, s', c, t);
    }
  }

  lemma {:induction false} Wakes(o: State, s: State, until: nat) returns (s': State)
    requires Leads(o, s) && |s.tasks| == TASK_LIMIT
    ensures Leads(o, s') && s' == s.(now := s'.now) && s'.now >= until
    decreases until - s.now
  {
    s' := s;
    if s.now < until {
      s' := s.(now := s.now + 1);
      LeadsOn(o, s, s', Tick);
      s' := Wakes(o, s', until);
    }
  }

  // A closed task that is activated: some run takes it down and then has a processor take it up.
  lemma ClosedIsTakenUp(s: State, t: nat)
    requires Safe(s) && s.cpus != [] && 0 < t < TASK_LIMIT && s.tasks[t].secured && s.tasks[t].close && !s.tasks[t].exec
    ensures exists s' :: Leads(Activated(s, t), s') && t in s'.reaping && Held(s', t)
  {
    var a := Activated(s, t);
    LeadsNowhere(a);
    var b := a.(reaping := a.reaping + {t});
    LeadsOn(a, a, b, Reap(t));
    var w := Wakes(a, b, a.tasks[t].sleep);
    assert !Held(s, t);
    var c: nat := if c: nat :| c < |s.cpus| && s.cpus[c].Scanning? then c else 0;
    assert !Holds(s.cpus[c], t);
    var s' := Arrives(a, w, c, t);
    assert t in s'.reaping;
  }

  // Activating a task that is on no processor lets some run take it down while a processor has it, if and only
  // if the task is closed.
  lemma ActivationDecides(s: State, t: nat)
    requires Safe(s) && s.cpus != [] && 0 < t < TASK_LIMIT && s.tasks[t].secured && !s.tasks[t].exec
    ensures (exists s' :: Leads(Activated(s, t), s') && t in s'.reaping && Held(s', t)) <==> s.tasks[t].close
  {
    ActivationIsSafe(s, t);
    if s.tasks[t].close {
      ClosedIsTakenUp(s, t);
    } else {
      forall s' | Leads(Activated(s, t), s') ensures Safe(s') {
        var states, steps :| Run(states, steps) && states[0] == Activated(s, t) && states[|steps|] == s';
        RunStaysSafe(states, steps, |steps|);
      }
    }
  }

  // In every run a task that is taken up is active, on no processor, and has slept as long as it meant to; and one
  // that is passed over is not.
  lemma TakenUpAwake(states: seq<State>, steps: seq<Step>, i: nat)
    requires Run(states, steps) && i < |steps| && (steps[i].Mark? || steps[i].Skip?)
    ensures var s, c := states[i], steps[i].cpu;
            && c < |s.cpus| && s.cpus[c].Scanning? && |s.tasks| == TASK_LIMIT && s.cpus[c].entry <= TASK_LIMIT
            && var e := s.cpus[c].entry;
               if steps[i].Mark? then
                 && e < TASK_LIMIT && s.tasks[e].active && !s.tasks[e].exec && s.tasks[e].sleep <= s.now
                 && states[i + 1] == s.(cpus := s.cpus[c := Installing(e)], tasks := s.tasks[e := s.tasks[e].(exec := true)])
               else e == TASK_LIMIT || !s.tasks[e].active || s.tasks[e].exec || s.now < s.tasks[e].sleep
  {
    assert StepAt(states, steps, i);
  }

  // kernel_exec activates the new task whether or not it was closed meanwhile. If it was, a run leads on to
  // a state where the collector takes the task down while it is on a processor.
  lemma LateActivationBreaks()
    ensures exists s, s' :: Reachable(s) && |s.tasks| == TASK_LIMIT && s.tasks[1].secured && s.tasks[1].close && !s.tasks[1].active
                            && Leads(Activated(s, 1), s') && 1 in s'.reaping && Held(s', 1)
  {
    FromTheStart();
    var s := One(Running(0), MADE.(close := true), {});
    OneWrites(Running(0), MADE, MADE.(close := true), {});
    LeadsOn(One(Running(0), EMPTY_SLOT, {}), One(Running(0), MADE, {}), s, Close(1));
    assert Reachable(s);
    var x := MADE.(close := true, active := true);
    OneWrites(Running(0), MADE.(close := true), x, {});
    var u := One(Running(0), x, {});
    assert Activated(s, 1) == u;
    LeadsNowhere(u);
    LeadsOn(u, u, One(Running(0), x, {1}), Reap(1));
    TakesUp(u, x, {1});
    var t := One(Installing(1), x.(exec := true), {1});
    assert Holds(t.cpus[0], 1);
    assert Leads(Activated(s, 1), t) && 1 in t.reaping && Held(t, 1);
  }

  // ---- the selection itself ---------------------------------------------------------------------

  function View(t: Task): Slot {
    Slot(t.active, t.exec, t.close, t.secured, t.sleep)
  }

  // Around the table from an entry on, i comes before e.
  predicate Before(entry: nat, i: nat, e: nat) {
    if entry <= e then entry <= i < e else entry <= i || i < e
  }

  // The task is not one to take up: it is inactive, or a processor has it, or it sleeps.
  predicate Passed(x: Task, now: nat) {
    !x.active || x.exec || now < x.sleep
  }

  // kernel_task_select: takes up the first task that is ready, from an entry on and around the table.
  method Select(sys: System, entry: nat, now: nat) returns (e: nat)
    requires sys.Valid() && entry <= TASK_LIMIT
    requires exists i :: 0 <= i < |sys.tasks| && Ready(View(sys.tasks[i]), now)
    modifies sys`tasks
    ensures sys.Valid() && e < TASK_LIMIT && e < |old(sys.tasks)| && Ready(View(old(sys.tasks)[e]), now)
    ensures forall i: nat | i < TASK_LIMIT && i < |old(sys.tasks)| && Ready(View(old(sys.tasks)[i]), now) :: Distance(entry, e) <= Distance(entry, i)
    ensures sys.tasks == old(sys.tasks)[e := old(sys.tasks)[e].(exec := true)] && sys.Running(e)
    ensures old(sys.tasks)[e].active && !old(sys.tasks)[e].exec && old(sys.tasks)[e].sleep <= now
    ensures forall i: nat | i < |old(sys.tasks)| && Before(entry, i, e) :: Passed(old(sys.tasks)[i], now)
  {
    hide System.Valid, System.Running;
    TableOf(sys);
    ghost var i :| 0 <= i < |sys.tasks| && Ready(View(sys.tasks[i]), now);
    e := entry;
    var wrapped := false;
    while true
      invariant e <= TASK_LIMIT && (wrapped ==> e <= entry)
      invariant sys.Valid() && sys.tasks == old(sys.tasks)
      invariant forall k: nat | k < TASK_LIMIT && Ready(View(sys.tasks[k]), now) ::
                  if wrapped then e <= k < entry else k < entry || e <= k
      invariant !wrapped ==> e >= entry
      decreases !wrapped, TASK_LIMIT - e
    {
      if e == TASK_LIMIT {
        assert i < entry;
        e, wrapped := 0, true;
      } else if Ready(View(sys.tasks[e]), now) {
        NotKernel(sys, e);
        sys.Take(e);
        return;
      } else {
        assert wrapped ==> e < entry;
        e := e + 1;
      }
    }
  }

  lemma TableOf(sys: System)
    requires sys.Valid()
    ensures |sys.tasks| == TASK_LIMIT
  {
  }

  lemma NotKernel(sys: System, e: nat)
    requires sys.Valid() && e < |sys.tasks| && sys.tasks[e].active
    ensures e > 0
  {
  }

  // The table once task t is left. The kernel's entry is never marked.
  function Left(tasks: seq<Task>, t: nat): seq<Task>
    requires t < |tasks|
  {
    tasks[t := tasks[t].(exec := false)]
  }

  predicate ReadyIn(tasks: seq<Task>, i: nat, now: nat) {
    i < |tasks| && Ready(View(tasks[i]), now)
  }

  // kernel_task: a processor leaves its task and goes on with the next one that is ready.
  method Switch(sys: System, t: nat, now: nat) returns (next: nat)
    requires sys.Valid() && t < |sys.tasks| && (t > 0 ==> sys.Running(t))
    requires exists i: nat :: ReadyIn(Left(sys.tasks, t), i, now)
    modifies sys`tasks
    ensures sys.Valid() && sys.Running(next) && |sys.tasks| == |old(sys.tasks)|
    ensures ReadyIn(Left(old(sys.tasks), t), next, now)
    ensures forall i: nat | i < TASK_LIMIT && ReadyIn(Left(old(sys.tasks), t), i, now) :: Distance(t + 1, next) <= Distance(t + 1, i)
    ensures sys.tasks == Left(old(sys.tasks), t)[next := Left(old(sys.tasks), t)[next].(exec := true)]
    ensures next < |old(sys.tasks)| && old(sys.tasks)[next].active && (next != t ==> !old(sys.tasks)[next].exec) && old(sys.tasks)[next].sleep <= now
    ensures forall i: nat | i < |old(sys.tasks)| && i != t && Before(t + 1, i, next) :: Passed(old(sys.tasks)[i], now)
    ensures next != t ==> forall i: nat | i < |old(sys.tasks)| && i != next && i != t :: sys.tasks[i] == old(sys.tasks)[i]
  {
    hide System.Valid, System.Running;
    TableOf(sys);
    ghost var left := Left(sys.tasks, t);
    ghost var i: nat :| ReadyIn(left, i, now);
    if t > 0 {
      sys.Leave(t);
    } else {
      KernelIdle(sys);
    }
    assert sys.tasks == left;
    next := Select(sys, t + 1, now);
  }

  lemma KernelIdle(sys: System)
    requires sys.Valid()
    ensures |sys.tasks| > 0 && !sys.tasks[0].exec
  {
  }
}
