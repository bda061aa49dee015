/** The run lifecycle of hermes-maint: lock, load, reconcile, open, persist, close. */
module RunHistory {
  import opened Wrappers

  const MAX_HISTORY := 30

  datatype Outcome = Ok | Partial | Timeout | Degraded | Interrupted

  datatype TaskOutcome = TaskOk | TaskFailed | TaskSkipped | TaskTimeout | TaskDegraded

  datatype Run = Run(
    id: nat, startedAt: nat, finishedAt: Option<nat>, trigger: string, outcome: Option<Outcome>,
    tasks: seq<TaskOutcome>)

  /** The whole state file. */
  datatype State = State(nextRunId: nat, lastRun: Option<Run>, history: seq<Run>)

  const FRESH := State(1, None, [])

  // ------------------------------------------------------------------
  // The outcome of a run
  // ------------------------------------------------------------------

  function OutcomeOf(t: TaskOutcome): Outcome {
    match t
    case TaskTimeout => Timeout
    case TaskFailed => Partial
    case TaskSkipped => Partial
    case TaskDegraded => Degraded
    case TaskOk => Ok
  }

  function Rank(o: Outcome): nat {
    match o
    case Ok => 0
    case Degraded => 1
    case Partial => 2
    case Interrupted => 3
    case Timeout => 4
  }

  /** The worst outcome among the tasks; `Ok` without tasks. */
  ghost predicate IsWorst(tasks: seq<TaskOutcome>, o: Outcome) {
    && (forall t :: t in tasks ==> Rank(OutcomeOf(t)) <= Rank(o))
    && (o == Ok || exists t :: t in tasks && OutcomeOf(t) == o)
  }

  method Aggregate(tasks: seq<TaskOutcome>) returns (o: Outcome)
    ensures IsWorst(tasks, o) && o == Worst(tasks)
    ensures Tells(o, tasks)
  {
    o := Ok;
    for i := 0 to |tasks|
      invariant o == Worst(tasks[..i])
    {
      assert tasks[..i + 1] == tasks[..i] + [tasks[i]];
      WorstMore(tasks[..i], tasks[i]);
      o := RankMax(o, OutcomeOf(tasks[i]));
    }
    assert tasks[..|tasks|] == tasks;
    WorstIsWorst(tasks);
    WorstTells(tasks);
  }

  /** The verdict, in terms of the tasks alone. */
  ghost predicate Tells(o: Outcome, tasks: seq<TaskOutcome>) {
    && (o == Timeout <==> TaskTimeout in tasks)
    && (o == Partial <==> TaskTimeout !in tasks && (TaskFailed in tasks || TaskSkipped in tasks))
    && (o == Degraded <==>
          TaskTimeout !in tasks && TaskFailed !in tasks && TaskSkipped !in tasks && TaskDegraded in tasks)
    && (o == Ok <==> forall t :: t in tasks ==> t == TaskOk)
  }

  lemma WorstTells(tasks: seq<TaskOutcome>)
    ensures Tells(Worst(tasks), tasks)
  {
    WorstIsWorst(tasks);
  }

  function RankMax(a: Outcome, b: Outcome): Outcome { if Rank(a) < Rank(b) then b else a }

  function Worst(tasks: seq<TaskOutcome>): Outcome {
    if tasks == [] then Ok else RankMax(Worst(tasks[..|tasks| - 1]), OutcomeOf(tasks[|tasks| - 1]))
  }

  lemma WorstMore(tasks: seq<TaskOutcome>, t: TaskOutcome)
    ensures Worst(tasks + [t]) == RankMax(Worst(tasks), OutcomeOf(t))
  {
    assert (tasks + [t])[..|tasks|] == tasks;
  }

  lemma {:induction false} WorstIsWorst(tasks: seq<TaskOutcome>)
    ensures IsWorst(tasks, Worst(tasks))
  {
    if tasks != [] {
      var before, last := tasks[..|tasks| - 1], tasks[|tasks| - 1];
      WorstIsWorst(before);
      assert tasks == before + [last];
    }
  }

  /** The verdict of a run does not depend on the order, or the repetition, of its tasks. */
  lemma AggregateIgnoresOrder(a: seq<TaskOutcome>, b: seq<TaskOutcome>)
    requires forall t :: t in a <==> t in b
    ensures Worst(a) == Worst(b)
  {
    WorstIsWorst(a);
    WorstIsWorst(b);
  }

  // ------------------------------------------------------------------
  // The state and its updates
  // ------------------------------------------------------------------

  function Pushed(history: seq<Run>, run: Run): seq<Run> {
    var longer := [run] + history;
    if |longer| <= MAX_HISTORY then longer else longer[..MAX_HISTORY]
  }

  /** One run more in front of the others, of which only the oldest may be lost. */
  ghost predicate PutFirst(after: seq<Run>, before: seq<Run>) {
    && |after| == (if |before| < MAX_HISTORY then |before| + 1 else MAX_HISTORY)
    && forall i :: 1 <= i < |after| ==> after[i] == before[i - 1]
  }

  /** What a push leaves is determined by where each run goes. */
  lemma PushedIsUnique(history: seq<Run>, run: Run, after: seq<Run>)
    ensures after == Pushed(history, run) <==>
            && |after| == (if |history| < MAX_HISTORY then |history| + 1 else MAX_HISTORY)
            && after[0] == run
            && forall i :: 1 <= i < |after| ==> after[i] == history[i - 1]
  {
    var pushed := Pushed(history, run);
    assert forall i :: 1 <= i < |pushed| ==> pushed[i] == history[i - 1];
  }

  function Reconciled(st: State): State {
    match st.lastRun
    case None => st
    case Some(run) =>
      var closed := if run.finishedAt.Some? then run else run.(outcome := Some(Interrupted));
      State(st.nextRunId, None, Pushed(st.history, closed))
  }

  function NewRun(st: State, startedAt: nat, trigger: string): Run {
    Run(st.nextRunId, startedAt, None, trigger, None, [])
  }

  /** What `start` leaves, from the state it loaded. */
  function Started(st: State, startedAt: nat, trigger: string): State {
    var clean := Reconciled(st);
    State(clean.nextRunId + 1, Some(NewRun(clean, startedAt, trigger)), clean.history)
  }

  function ClosedRun(run: Run, finishedAt: nat): Run {
    run.(finishedAt := Some(finishedAt), outcome := Some(Worst(run.tasks)))
  }

  /** What `finish` leaves. */
  function Finished(st: State, run: Run, finishedAt: nat): State {
    State(st.nextRunId, None, Pushed(st.history, ClosedRun(run, finishedAt)))
  }

  /** `State` as the program holds it, updated in place. */
  class LiveState {
    var nextRunId: nat
    var lastRun: Option<Run>
    var history: seq<Run>

    function Value(): State
      reads this
    {
      State(nextRunId, lastRun, history)
    }

    constructor (st: State)
      ensures Value() == st
    {
      nextRunId, lastRun, history := st.nextRunId, st.lastRun, st.history;
    }

    /** The newest run first, the others after it in their order, and only the oldest lost. */
    method PushHistory(run: Run)
      modifies this`history
      ensures |history| == (if |old(history)| < MAX_HISTORY then |old(history)| + 1 else MAX_HISTORY)
      ensures history[0] == run
      ensures forall i :: 1 <= i < |history| ==> history[i] == old(history)[i - 1]
    {
      history := [run] + history;
      if MAX_HISTORY < |history| {
        history := history[..MAX_HISTORY];
      }
    }

    method Reconcile() returns (id: Option<nat>)
      modifies this`lastRun, this`history
      ensures Value() == Reconciled(old(Value()))
      ensures lastRun == None && nextRunId == old(nextRunId)
      ensures old(lastRun).None? ==> history == old(history)
      ensures old(lastRun).Some? ==>
                var run := old(lastRun).value;
                && PutFirst(history, old(history))
                && history[0] == if run.finishedAt.Some? then run else run.(outcome := Some(Interrupted))
      ensures id == if old(lastRun).Some? && old(lastRun).value.finishedAt.None? then Some(old(lastRun).value.id) else None
    {
      if lastRun.None? {
        return None;
      }
      var run := lastRun.value;
      lastRun := None;
      if run.finishedAt.Some? {
        PushHistory(run);
        PushedIsUnique(old(history), run, history);
        return None;
      }
      PushHistory(run.(outcome := Some(Interrupted)));
      PushedIsUnique(old(history), run.(outcome := Some(Interrupted)), history);
      id := Some(run.id);
    }

    /** The part of `start` after the load. */
    method Open(startedAt: nat, trigger: string) returns (run: Run)
      modifies this
      ensures Value() == Started(old(Value()), startedAt, trigger)
      ensures run == Run(old(nextRunId), startedAt, None, trigger, None, [])
      ensures lastRun == Some(run) && nextRunId == old(nextRunId) + 1
    {
      var _ := Reconcile();
      run := Run(nextRunId, startedAt, None, trigger, None, []);
      nextRunId := nextRunId + 1;
      lastRun := Some(run);
    }

    /** The part of `finish` before the save. */
    method Close(run: Run, finishedAt: nat)
      modifies this
      ensures Value() == Finished(old(Value()), run, finishedAt)
      ensures lastRun == None && nextRunId == old(nextRunId) && PutFirst(history, old(history))
      ensures history[0].outcome.Some? && Tells(history[0].outcome.value, run.tasks)
      ensures history[0] == run.(finishedAt := Some(finishedAt), outcome := history[0].outcome)
    {
      var outcome := Aggregate(run.tasks);
      lastRun := None;
      PushHistory(run.(finishedAt := Some(finishedAt), outcome := Some(outcome)));
      PushedIsUnique(old(history), run.(finishedAt := Some(finishedAt), outcome := Some(outcome)), history);
    }
  }

  // ------------------------------------------------------------------
  // What every state file looks like
  // ------------------------------------------------------------------

  /** How many runs a state has closed. */
  function ClosedRuns(st: State): int { st.nextRunId - 1 - if st.lastRun.Some? then 1 else 0 }

  /** Ids run down without gaps from the last closed run, none is missing but for the bound,
      an open run is the newest id, and only an interrupted run lacks an end. */
  ghost predicate WellKept(st: State) {
    && 0 <= ClosedRuns(st)
    && |st.history| == (if ClosedRuns(st) < MAX_HISTORY then ClosedRuns(st) else MAX_HISTORY)
    && (forall i :: 0 <= i < |st.history| ==> st.history[i].id == ClosedRuns(st) - i)
    && (forall i :: 0 <= i < |st.history| ==>
                      && st.history[i].outcome.Some?
                      && (st.history[i].outcome == Some(Interrupted) <==> st.history[i].finishedAt.None?))
    && (st.lastRun.Some? ==>
          && st.lastRun.value.id == st.nextRunId - 1
          && st.lastRun.value.finishedAt.None? && st.lastRun.value.outcome.None?)
  }

  lemma ReconciledIsWellKept(st: State)
    requires WellKept(st)
    ensures WellKept(Reconciled(st)) && Reconciled(st).lastRun == None
    ensures Reconciled(st).nextRunId == st.nextRunId
  {
  }

  lemma StartedIsWellKept(st: State, startedAt: nat, trigger: string)
    requires WellKept(st)
    ensures WellKept(Started(st, startedAt, trigger))
    ensures Started(st, startedAt, trigger).nextRunId == st.nextRunId + 1
  {
    ReconciledIsWellKept(st);
  }

  lemma WorstIsNotInterrupted(tasks: seq<TaskOutcome>)
    ensures Worst(tasks) != Interrupted
  {
    WorstIsWorst(tasks);
  }

  lemma FinishedIsWellKept(st: State, run: Run, finishedAt: nat)
    requires WellKept(st) && st.lastRun.Some? && run.id == st.lastRun.value.id
    ensures WellKept(Finished(st, run, finishedAt))
  {
    WorstIsNotInterrupted(run.tasks);
  }

  // ------------------------------------------------------------------
  // Processes, the lock file and the state file
  // ------------------------------------------------------------------

  datatype Proc =
    | Waiting(inode: nat)  // has opened the lock file, does not hold it
    | Holding(inode: nat)
    | InRun(inode: nat, dry: bool, state: State, run: Run)

  /** How a save ended: a failure before the rename leaves the old file, one after it the new. */
  datatype Save = Saved | FailedOld | FailedNew

  datatype System = System(path: Option<nat>, inodes: nat, file: Option<State>, procs: map<nat, Proc>)

  datatype Event =
    | OpenLock(p: nat)
    | TryLock(p: nat)
    | Begin(p: nat, dry: bool, startedAt: nat, trigger: string, save: Save)
    | Record(p: nat, task: TaskOutcome)
    | Finish(p: nat, finishedAt: nat, save: Save)
    | Die(p: nat)

  predicate Holds(sys: System, p: nat, inode: nat) {
    p in sys.procs && !sys.procs[p].Waiting? && sys.procs[p].inode == inode
  }

  /** The kernel's lock on one inode. */
  predicate Locked(sys: System, inode: nat) { exists p :: p in sys.procs && Holds(sys, p, inode) }

  function Loaded(sys: System): State { if sys.file.Some? then sys.file.value else FRESH }

  predicate Enabled(sys: System, e: Event) {
    match e
    case OpenLock(p) => p !in sys.procs
    case TryLock(p) => p in sys.procs && sys.procs[p].Waiting?
    case Begin(p, _, _, _, _) => p in sys.procs && sys.procs[p].Holding?
    case Record(p, _) => p in sys.procs && sys.procs[p].InRun?
    case Finish(p, _, _) => p in sys.procs && sys.procs[p].InRun?
    case Die(p) => p in sys.procs
  }

  /** Leaving closes the lock file, which releases the lock and removes nothing. */
  function Gone(sys: System, p: nat): System { sys.(procs := sys.procs - {p}) }

  function After(sys: System, e: Event): System
    requires Enabled(sys, e)
  {
    match e
    case OpenLock(p) =>
      if sys.path.Some? then sys.(procs := sys.procs[p := Waiting(sys.path.value)])
      else System(Some(sys.inodes), sys.inodes + 1, sys.file, sys.procs[p := Waiting(sys.inodes)])
    case TryLock(p) =>
      var inode := sys.procs[p].inode;
      if Locked(sys, inode) then Gone(sys, p) else sys.(procs := sys.procs[p := Holding(inode)])
    case Begin(p, dry, startedAt, trigger, save) =>
      var st := Started(Loaded(sys), startedAt, trigger);
      var inside := sys.(procs := sys.procs[p := InRun(sys.procs[p].inode, dry, st, st.lastRun.value)]);
      if dry then inside
      else if save == Saved then inside.(file := Some(st))
      else if save == FailedNew then Gone(sys, p).(file := Some(st))
      else Gone(sys, p)
    case Record(p, task) =>
      var me := sys.procs[p];
      if me.dry then sys else sys.(procs := sys.procs[p := me.(run := me.run.(tasks := me.run.tasks + [task]))])
    case Finish(p, finishedAt, save) =>
      var me := sys.procs[p];
      if me.dry || save == FailedOld then Gone(sys, p)
      else Gone(sys, p).(file := Some(Finished(me.state, me.run, finishedAt)))
    case Die(p) => Gone(sys, p)
  }

  const START := System(None, 0, None, map[])

  predicate Possible(events: seq<Event>)
    decreases |events|, 0
  {
    events == []
    || (Possible(events[..|events| - 1]) && Enabled(SystemAfter(events[..|events| - 1]), events[|events| - 1]))
  }

  function SystemAfter(events: seq<Event>): System
    requires Possible(events)
    decreases |events|, 1
  {
    if events == [] then START else After(SystemAfter(events[..|events| - 1]), events[|events| - 1])
  }

  ghost predicate Invariant(sys: System) {
    // one lock file, ever
    && (sys.path.None? ==> sys.procs == map[])
    && (forall p :: p in sys.procs ==> sys.path == Some(sys.procs[p].inode))
    // one holder
    && (forall p, q :: p in sys.procs && q in sys.procs && !sys.procs[p].Waiting? && !sys.procs[q].Waiting? ==> p == q)
    // the file, and what a real run holds of it
    && (sys.file.Some? ==> WellKept(sys.file.value))
    && (forall p :: p in sys.procs && sys.procs[p].InRun? && !sys.procs[p].dry ==>
                      && sys.file == Some(sys.procs[p].state)
                      && sys.procs[p].state.lastRun.Some?
                      && sys.procs[p].run.id == sys.procs[p].state.lastRun.value.id)
  }

  lemma InvariantStep(sys: System, e: Event)
    requires Invariant(sys) && Enabled(sys, e)
    ensures Invariant(After(sys, e))
  {
    assert WellKept(Loaded(sys));
    match e
    case OpenLock(p) =>
    case TryLock(p) =>
      forall q | q in sys.procs && !sys.procs[q].Waiting?
        ensures Locked(sys, sys.procs[p].inode)
      {
        assert Holds(sys, q, sys.procs[p].inode);
      }
    case Begin(p, dry, startedAt, trigger, save) =>
      StartedIsWellKept(Loaded(sys), startedAt, trigger);
      hide WellKept, Reconciled;
    case Record(p, task) =>
      hide WellKept;
    case Finish(p, finishedAt, save) =>
      if !sys.procs[p].dry {
        FinishedIsWellKept(sys.procs[p].state, sys.procs[p].run, finishedAt);
      }
      hide WellKept, Finished;
    case Die(p) =>
      hide WellKept;
  }

  /** Over every interleaving of starts, dry runs, failed saves, finishes and deaths, from no
      file at all. */
  lemma {:induction false} EveryHistory(events: seq<Event>)
    requires Possible(events)
    ensures Invariant(SystemAfter(events))
  {
    if events != [] {
      EveryHistory(events[..|events| - 1]);
      InvariantStep(SystemAfter(events[..|events| - 1]), events[|events| - 1]);
    }
  }

  /** No two processes are ever between start and finish, and the file, when there is one,
      is well kept. */
  lemma OneRunAtATime(events: seq<Event>, p: nat, q: nat)
    requires Possible(events)
    ensures
      var sys := SystemAfter(events);
      && (p in sys.procs && q in sys.procs && sys.procs[p].InRun? && sys.procs[q].InRun? ==> p == q)
      && (sys.file.Some? ==> WellKept(sys.file.value))
  {
    EveryHistory(events);
  }

  /** A run whose process is gone without closing it is the first thing the next saved start
      records, as interrupted and without an end. */
  lemma InterruptionIsRecorded(events: seq<Event>, p: nat, startedAt: nat, trigger: string)
    requires Possible(events) && Enabled(SystemAfter(events), Begin(p, false, startedAt, trigger, Saved))
    requires SystemAfter(events).file.Some? && SystemAfter(events).file.value.lastRun.Some?
    ensures
      var before := SystemAfter(events).file.value;
      var now := After(SystemAfter(events), Begin(p, false, startedAt, trigger, Saved)).file.value;
      && now.history != []
      && now.history[0] == before.lastRun.value.(outcome := Some(Interrupted))
      && now.history[0].finishedAt.None?
      && now.lastRun.Some? && now.lastRun.value.id == before.lastRun.value.id + 1
  {
    EveryHistory(events);
  }

  /** The tasks that a process recorded since it began. */
  ghost function RecordedBy(events: seq<Event>, p: nat): seq<TaskOutcome> {
    if events == [] then []
    else
      var before := RecordedBy(events[..|events| - 1], p);
      match events[|events| - 1]
      case Begin(q, _, _, _, _) => if q == p then [] else before
      case Record(q, task) => if q == p then before + [task] else before
      case _ => before
  }

  lemma {:induction false} RunHoldsTheRecord(events: seq<Event>, p: nat)
    requires Possible(events)
    ensures
      var procs := SystemAfter(events).procs;
      p in procs && procs[p].InRun? && !procs[p].dry ==> procs[p].run.tasks == RecordedBy(events, p)
  {
    if events != [] {
      RunHoldsTheRecord(events[..|events| - 1], p);
    }
  }

  /** What a saved finish stores: the tasks recorded since the start, with the verdict they
      deserve and the time, in front of what the file held. */
  lemma FinishStoresTheRun(events: seq<Event>, p: nat, finishedAt: nat, save: Save)
    requires Possible(events) && Enabled(SystemAfter(events), Finish(p, finishedAt, save))
    requires !SystemAfter(events).procs[p].dry && save != FailedOld
    ensures
      var before := SystemAfter(events);
      var now := After(before, Finish(p, finishedAt, save)).file;
      && now.Some? && before.file.Some? && now.value.lastRun == None
      && PutFirst(now.value.history, before.file.value.history)
      && now.value.history[0].tasks == RecordedBy(events, p)
      && now.value.history[0].finishedAt == Some(finishedAt)
      && now.value.history[0].outcome.Some? && Tells(now.value.history[0].outcome.value, RecordedBy(events, p))
      && before.file.value.lastRun.Some? && now.value.history[0].id == before.file.value.lastRun.value.id
  {
    EveryHistory(events);
    RunHoldsTheRecord(events, p);
    var me := SystemAfter(events).procs[p];
    WorstTells(me.run.tasks);
    PushedIsUnique(me.state.history, ClosedRun(me.run, finishedAt), Pushed(me.state.history, ClosedRun(me.run, finishedAt)));
  }

  // ------------------------------------------------------------------
  // Why the lock file is never unlinked
  // ------------------------------------------------------------------

  /** What leaving would do if it also removed the lock file. */
  function GoneAndUnlinked(sys: System, p: nat): System { Gone(sys, p).(path := None) }

  /** With an unlink on release, two processes could hold the lock at once. */
  lemma UnlinkWouldBreakTheLock() returns (sys: System)
    ensures exists p, q :: p != q && p in sys.procs && q in sys.procs && sys.procs[p].Holding? && sys.procs[q].Holding?
  {
    var s1 := After(After(START, OpenLock(0)), TryLock(0));
    var s2 := After(s1, OpenLock(1));
    var s3 := GoneAndUnlinked(s2, 0);
    var s4 := After(s3, OpenLock(2));
    assert !Locked(s4, 0);
    var s5 := After(s4, TryLock(1));
    assert s5.procs[1] == Holding(0) && s5.procs[2] == Waiting(1);
    assert !Locked(s5, 1);
    sys := After(s5, TryLock(2));
    assert sys.procs[1].Holding? && sys.procs[2].Holding?;
  }
}
