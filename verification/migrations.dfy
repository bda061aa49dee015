/** Layer-2 schema migrations: one recorded version per component, one transaction per
    migration, any number of processes. */
module Migrations {

  // ------------------------------------------------------------------
  // One process alone
  // ------------------------------------------------------------------

  datatype Outcome = Installed(version: nat) | Failed(at: nat)

  /** The versions `from + 1 ..= to`, in order. */
  function Range(from: nat, to: nat): (s: seq<nat>)
    ensures |s| == if from <= to then to - from else 0
    ensures forall i :: 0 <= i < |s| ==> s[i] == from + 1 + i
  {
    if from < to then seq(to - from, i => from + 1 + i) else []
  }

  ghost predicate IsTarget(registered: set<nat>, target: nat) {
    if registered == {} then target == 0
    else target in registered && forall v :: v in registered ==> v <= target
  }

  /** `target_version`: the highest registered version, 0 without any. */
  method TargetVersion(registered: set<nat>) returns (target: nat)
    ensures IsTarget(registered, target)
  {
    target := 0;
    var rest := registered;
    var seen: set<nat> := {};
    while rest != {}
      invariant seen + rest == registered
      invariant seen != {} ==> target in registered
      invariant seen == {} ==> target == 0
      invariant forall v :: v in seen ==> v <= target
      decreases rest
    {
      var v :| v in rest;
      rest := rest - {v};
      if seen == {} || target < v {
        target := v;
      }
      seen := seen + {v};
    }
  }

  /** One component's registry row (version 0 when absent) and the migrations committed
      to the database, in order. */
  class Registry {
    var version: nat
    ghost var committed: seq<nat>

    /** `migrate_component`. A migration outside `registered` or not in `healthy` raises;
        its transaction rolls back. What is committed is the gap-free stretch above the
        old version, up to the target or to just before the first bad version. */
    method MigrateComponent(registered: set<nat>, healthy: set<nat>) returns (r: Outcome)
      modifies this
      ensures old(version) <= version
      ensures committed == old(committed) + Range(old(version), version)
      ensures forall v :: old(version) < v <= version ==> v in registered && v in healthy
      ensures r.Installed? ==> r.version == version
      ensures forall t: nat :: IsTarget(registered, t) && r.Installed? ==> version == if old(version) < t then t else old(version)
      ensures r.Failed? ==> exists v :: v in registered && r.at <= v
      ensures r.Failed? ==> r.at == version + 1 && !(r.at in registered && r.at in healthy)
    {
      var current := version;
      var target := TargetVersion(registered);
      assert forall t: nat :: IsTarget(registered, t) ==> t == target;
      if target <= current {
        return Installed(current);
      }
      var next := current + 1;
      while next <= target
        invariant current < next <= target + 1
        invariant version == next - 1
        invariant committed == old(committed) + Range(current, version)
        invariant forall v :: current < v < next ==> v in registered && v in healthy
      {
        if next !in registered || next !in healthy {
          return Failed(next);
        }
        version := next;
        committed := committed + [next];
        assert Range(current, next) == Range(current, next - 1) + [next];
        next := next + 1;
      }
      r := Installed(version);
    }
  }

  // ------------------------------------------------------------------
  // Many processes: the version is read before, and outside, the transactions
  // ------------------------------------------------------------------

  datatype Proc =
    | Migrating(registered: set<nat>, target: nat, next: nat)
    | Returned(target: nat)
    | Raised

  datatype World = World(version: nat, committed: set<nat>, procs: map<nat, Proc>)

  datatype Event =
    | Start(p: nat, registered: set<nat>, target: nat) // reads the version and computes the target
    | Commit(p: nat)                                   // one migration and the registry bump
    | Abort(p: nat)                                    // missing or failing migration, rolled back
    | Finish(p: nat)
    | Die(p: nat)

  ghost predicate Enabled(w: World, e: Event) {
    match e
    case Start(p, registered, target) => p !in w.procs && IsTarget(registered, target)
    case Commit(p) =>
      p in w.procs && w.procs[p].Migrating? && w.procs[p].next <= w.procs[p].target
      && w.procs[p].next in w.procs[p].registered
    case Abort(p) => p in w.procs && w.procs[p].Migrating? && w.procs[p].next <= w.procs[p].target
    case Finish(p) => p in w.procs && w.procs[p].Migrating? && w.procs[p].target < w.procs[p].next
    case Die(p) => p in w.procs
  }

  ghost function After(w: World, e: Event): World
    requires Enabled(w, e)
  {
    match e
    case Start(p, registered, target) =>
      w.(procs := w.procs[p := if target <= w.version then Returned(target)
                               else Migrating(registered, target, w.version + 1)])
    case Commit(p) =>
      var me := w.procs[p];
      World(me.next, w.committed + {me.next}, w.procs[p := me.(next := me.next + 1)])
    case Abort(p) => w.(procs := w.procs[p := Raised])
    case Finish(p) => w.(procs := w.procs[p := Returned(w.procs[p].target)])
    case Die(p) => w.(procs := w.procs - {p})
  }

  const EMPTY := World(0, {}, map[])

  ghost predicate Possible(events: seq<Event>)
    decreases |events|, 0
  {
    events == []
    || (Possible(events[..|events| - 1]) && Enabled(StateAfter(events[..|events| - 1]), events[|events| - 1]))
  }

  ghost function StateAfter(events: seq<Event>): World
    requires Possible(events)
    decreases |events|, 1
  {
    if events == [] then EMPTY
    else After(StateAfter(events[..|events| - 1]), events[|events| - 1])
  }

  /** Everything up to `v` has been committed at least once. */
  ghost predicate Applied(committed: set<nat>, v: int) {
    forall k: nat :: 1 <= k <= v ==> k in committed
  }

  /** At every step of every interleaving the recorded version, and the version each
      process believes it stands on, are backed by committed migrations. */
  lemma {:induction false} RecordedImpliesApplied(events: seq<Event>)
    requires Possible(events)
    ensures
      var w := StateAfter(events);
      && Applied(w.committed, w.version)
      && forall p :: p in w.procs && w.procs[p].Migrating? ==> 0 < w.procs[p].next && Applied(w.committed, w.procs[p].next - 1)
  {
    if events != [] {
      RecordedImpliesApplied(events[..|events| - 1]);
    }
  }

  /** The version is not monotone: a process that read an old version records it again. */
  lemma VersionCanGoDown() returns (events: seq<Event>)
    ensures events != [] && Possible(events) && Possible(events[..|events| - 1])
    ensures StateAfter(events).version < StateAfter(events[..|events| - 1]).version
  {
    var e1 := [Start(0, {1, 2}, 2)];
    var e2 := e1 + [Start(1, {1, 2}, 2)];
    var e3 := e2 + [Commit(0)];
    var e4 := e3 + [Commit(0)];
    events := e4 + [Commit(1)];
    assert e1[..0] == [];
    assert IsTarget({1, 2}, 2);
    assert Possible(e1) && StateAfter(e1) == After(EMPTY, e1[0]);
    assert e2[..1] == e1;
    assert Possible(e2) && StateAfter(e2) == After(StateAfter(e1), e2[1]);
    assert e3[..2] == e2;
    assert Possible(e3) && StateAfter(e3) == After(StateAfter(e2), e3[2]);
    assert e4[..3] == e3;
    assert Possible(e4) && StateAfter(e4) == After(StateAfter(e3), e4[3]);
    assert events[..4] == e4;
    assert Possible(events) && StateAfter(events) == After(StateAfter(e4), events[4]);
  }

  /** The recorded version never decreases. */
  ghost predicate NeverGoesDown(events: seq<Event>)
    requires Possible(events)
  {
    events == []
    || (NeverGoesDown(events[..|events| - 1])
        && StateAfter(events[..|events| - 1]).version <= StateAfter(events).version)
  }

  /** A process with a migration still to run. */
  predicate Busy(proc: Proc) { proc.Migrating? && proc.next <= proc.target }

  /** No process starts while another still has a migration to run. */
  ghost predicate OneAtATime(events: seq<Event>)
    requires Possible(events)
  {
    events == []
    || (var w, e := StateAfter(events[..|events| - 1]), events[|events| - 1];
        OneAtATime(events[..|events| - 1]) && (e.Start? ==> forall p :: p in w.procs ==> !Busy(w.procs[p])))
  }

  /** At most one process is busy, and it stands right above the recorded version. */
  ghost predicate OneBusy(w: World) {
    && (forall p :: p in w.procs && Busy(w.procs[p]) ==> w.procs[p].next == w.version + 1)
    && (forall p, q :: p in w.procs && q in w.procs && Busy(w.procs[p]) && Busy(w.procs[q]) ==> p == q)
  }

  lemma OneBusyStep(w: World, e: Event)
    requires OneBusy(w) && Enabled(w, e)
    requires e.Start? ==> forall p :: p in w.procs ==> !Busy(w.procs[p])
    ensures OneBusy(After(w, e)) && w.version <= After(w, e).version
  {
    var w' := After(w, e);
    forall p | p in w'.procs && Busy(w'.procs[p])
      ensures w'.procs[p].next == w'.version + 1
      ensures e.Start? || e.Commit? ==> p == e.p
      ensures p != e.p ==> p in w.procs && Busy(w.procs[p])
    {
      if p != e.p {
        assert p in w.procs && w'.procs[p] == w.procs[p];
      }
      if e.Commit? {
        assert Busy(w.procs[e.p]);
      }
    }
  }

  /** What callers can arrange: started one at a time, processes never lower the version. */
  lemma {:induction false} MonotoneOneAtATime(events: seq<Event>)
    requires Possible(events) && OneAtATime(events)
    ensures OneBusy(StateAfter(events)) && NeverGoesDown(events)
  {
    if events != [] {
      MonotoneOneAtATime(events[..|events| - 1]);
      OneBusyStep(StateAfter(events[..|events| - 1]), events[|events| - 1]);
    }
  }

  /** Each process commits only at or above the version recorded at that moment, which it
      could read first. */
  ghost predicate CommitsForward(events: seq<Event>)
    requires Possible(events)
  {
    events == []
    || (var w, e := StateAfter(events[..|events| - 1]), events[|events| - 1];
        CommitsForward(events[..|events| - 1]) && (e.Commit? ==> w.version <= w.procs[e.p].next))
  }

  /** When the version is monotone: exactly when no commit is behind it. */
  lemma {:induction false} MonotoneWhenForward(events: seq<Event>)
    requires Possible(events)
    ensures NeverGoesDown(events) <==> CommitsForward(events)
  {
    if events != [] {
      MonotoneWhenForward(events[..|events| - 1]);
    }
  }

  ghost predicate SameTarget(events: seq<Event>, target: nat) {
    forall i :: 0 <= i < |events| ==>
                  && !events[i].Abort? && !events[i].Die?
                  && (events[i].Start? ==> events[i].target == target)
  }

  /** Without failures and with one target, the last process to commit stands right above
      the recorded version. */
  lemma {:induction false} LastCommitter(events: seq<Event>, target: nat)
    requires Possible(events) && SameTarget(events, target)
    ensures
      var w := StateAfter(events);
      && (forall p :: p in w.procs ==> !w.procs[p].Raised? && w.procs[p].target == target)
      && (forall p :: p in w.procs && w.procs[p].Migrating? ==> w.procs[p].next <= target + 1)
      && w.version <= target
      && (w.version < target ==>
            || (w.version == 0 && forall p :: p in w.procs ==> w.procs[p].Migrating? && w.procs[p].next == 1)
            || exists p :: p in w.procs && w.procs[p].Migrating? && w.procs[p].next == w.version + 1)
  {
    if events != [] {
      var before := events[..|events| - 1];
      var e := events[|events| - 1];
      LastCommitter(before, target);
      var w, w' := StateAfter(before), StateAfter(events);
      if e.Commit? && w'.version < target {
        assert e.p in w'.procs && w'.procs[e.p].next == w'.version + 1;
      } else if exists p :: p in w.procs && w.procs[p].Migrating? && w.procs[p].next == w.version + 1 {
        var p :| p in w.procs && w.procs[p].Migrating? && w.procs[p].next == w.version + 1;
        if w'.version < target {
          assert p in w'.procs && w'.procs[p].Migrating? && w'.procs[p].next == w'.version + 1;
        }
      }
    }
  }

  /** However their commits interleave, once all the processes have returned the recorded
      version is their target. */
  lemma QuiescentVersion(events: seq<Event>, target: nat)
    requires Possible(events) && SameTarget(events, target)
    requires StateAfter(events).procs != map[]
    requires forall p :: p in StateAfter(events).procs ==> StateAfter(events).procs[p].Returned?
    ensures StateAfter(events).version == target && Applied(StateAfter(events).committed, target)
  {
    LastCommitter(events, target);
    RecordedImpliesApplied(events);
    var p :| p in StateAfter(events).procs;
  }
}
