/** Deploying an approved candidate, and undoing it: the write-ahead protocol over HEAD,
    the checkout, the virtual environment, its copy, the unit files and the service. */
module Deployment {
  import opened Wrappers
  import opened Vocabulary
  import opened Processes
  import opened UpdaterStore
  import Health

  // ------------------------------------------------------------------
  // Production
  // ------------------------------------------------------------------

  /** The files checked out: one commit's, or a mixture left by a command cut short. */
  datatype Checkout = At(commit: Commit) | Mixed

  /** The content of a virtual environment. */
  type Venv = nat

  datatype Copy = Partial | Whole(venv: Venv)

  /** What the running service loaded when it started, and whether a health wait has found
      it healthy since. */
  datatype Gateway = Stopped | Up(head: Commit, venv: Option<Venv>, healthy: bool)

  /** `copy` is the copy of the venv under this deployment's name. */
  datatype Production = Production(
    head: Commit, checkout: Checkout, venv: Option<Venv>, copy: Option<Copy>, units: map<string, string>,
    gateway: Gateway, restarts: nat)

  /** Nothing but the copy differs. */
  predicate Untouched(base: Production, prod: Production) {
    prod.(copy := base.copy) == base
  }

  /** The old venv is safe: whole in its copy, or already back in place. */
  predicate CopyHeld(base: Production, prod: Production) {
    base.venv.Some? && (prod.copy == Some(Whole(base.venv.value)) || (prod.copy == None && prod.venv == base.venv))
  }

  /** Only saved unit files differ, and only by their saved content. */
  predicate UnitsHeld(base: Production, prod: Production, saved: map<string, string>) {
    prod.units + saved == base.units + saved
  }

  /** What the stored data of an open run promises about production, at every step: either
      nothing was touched, or the way back is recorded and whole. */
  ghost predicate Recoverable(data: RunData, base: Production, prod: Production) {
    match data.rollbackPoint
    case None => Untouched(base, prod)
    case Some(rp) =>
      && rp.oldHead == base.head && base.checkout == At(base.head)
      && data.phase.Some?
      && if data.phase == Some(AT_ROLLBACK_POINT) then Untouched(base, prod)
         else CopyHeld(base, prod) && UnitsHeld(base, prod, rp.savedUnits)
  }

  /** Production as it was, with the saved unit files in place. */
  predicate Restored(base: Production, prod: Production, saved: map<string, string>) {
    && prod.head == base.head && prod.checkout == At(base.head) && prod.venv == base.venv
    && prod.units == base.units + saved
  }

  // ------------------------------------------------------------------
  // What an act does when it goes through
  // ------------------------------------------------------------------

  datatype Act =
    | Copying
    | Moving(commit: Commit)
    | Installing(content: Venv)
    | Restarting(up: bool)
    | Waiting
    | Stopping
    | SettingAside
    | PuttingBack

  function AfterAct(p: Production, act: Act): Production {
    match act
    case Copying => if p.venv.Some? then p.(copy := Some(Whole(p.venv.value))) else p
    case Moving(commit) => p.(head := commit, checkout := At(commit))
    case Installing(content) => p.(venv := Some(content))
    case Restarting(up) => p.(gateway := if up then Up(p.head, p.venv, false) else Stopped, restarts := p.restarts + 1)
    case Waiting => if p.gateway.Up? then p.(gateway := p.gateway.(healthy := true)) else p
    case Stopping => p.(gateway := Stopped)
    case SettingAside => p.(venv := None)
    case PuttingBack =>
      if p.copy.Some? && p.copy.value.Whole? then p.(venv := Some(p.copy.value.venv), copy := None) else p
  }

  // ------------------------------------------------------------------
  // What was asked, and answered
  // ------------------------------------------------------------------

  datatype Command =
    | ToCopy | ToSnapshot | ToFetch | ToMove(commit: Commit) | ToInstall(project: bool) | ToRestart | ToWait
    | ToStop | ToSetAside | ToPutBack | ToReload | ToCheck(question: Question)

  /** What the checks before, within and after a deployment look at, besides HEAD. */
  datatype Question =
    | Branch | CleanTree | CandidateIntact | LockIntact | BackupThere | DiskFree | GatewayThere
    | TagOfCandidate
    | VersionReported | LogsClean | UnitSame | PluginsSame | StateKept | ConfigKept | LayersKept

  const ASKED_BEFORE := [Branch, CleanTree, CandidateIntact, LockIntact, BackupThere, DiskFree, GatewayThere]

  const ASKED_AFTER := [VersionReported, LogsClean, UnitSame, PluginsSame, StateKept, ConfigKept, LayersKept]

  /** These questions, in this order, with these answers. */
  function Answered(questions: seq<Question>, answers: seq<bool>): seq<Asked>
    requires |questions| == |answers|
  {
    seq(|questions|, i requires 0 <= i < |questions| => Asked(ToCheck(questions[i]), answers[i]))
  }

  function YesToAll(questions: seq<Question>): seq<Asked> {
    seq(|questions|, i requires 0 <= i < |questions| => Yes(ToCheck(questions[i])))
  }

  datatype Asked = Asked(command: Command, yes: bool)

  function Yes(command: Command): Asked { Asked(command, true) }

  /** The commands and checks in order, how many commands were refused, how many checks did not
      pass, and how often a copy could not be removed. */
  datatype Record = Record(log: seq<Asked>, refusals: nat, doubts: nat, leftovers: nat)

  function AfterCommand(r: Record, command: Command, yes: bool): Record {
    r.(log := r.log + [Asked(command, yes)], refusals := r.refusals + if yes then 0 else 1)
  }

  function AfterCheck(r: Record, command: Command, yes: bool): Record {
    r.(log := r.log + [Asked(command, yes)], doubts := r.doubts + if yes then 0 else 1)
  }

  /** No command refused, and no check failed, from one record to a later one. */
  predicate NoNo(before: Record, after: Record) { after.refusals == before.refusals && after.doubts == before.doubts }

  predicate Later(before: Record, after: Record) {
    && before.log <= after.log
    && before.refusals <= after.refusals && before.doubts <= after.doubts && before.leftovers <= after.leftovers
  }

  // ------------------------------------------------------------------
  // The checks before and after, by name
  // ------------------------------------------------------------------

  const PRECONDITIONS := ["source_head", "branch", "clean_tree", "candidate_intact", "lock_intact", "preupdate_backup",
                          "disk", "gateway_before"]

  const POST_TESTS := ["post_version_commit", "post_version_reported", "post_logs", "post_unit", "post_plugins",
                       "post_persistence", "post_config", "post_external_layers"]

  /** The eight preconditions, in order: the first tells whether HEAD is the approved source,
      and the third is blocked when the checkout is not HEAD's. */
  predicate IsPreconditions(steps: seq<Step>, prod: Production, payload: Payload) {
    && |steps| == |PRECONDITIONS|
    && (forall i :: 0 <= i < |steps| ==> steps[i].name == PRECONDITIONS[i] && steps[i].verdict in {PASS, BLOCKED_})
    && (steps[0].verdict == PASS <==> prod.head == payload.source)
    && (steps[2].verdict == PASS ==> prod.checkout == At(prod.head))
  }

  /** The eight post-tests, in order: the first tells whether HEAD is the candidate. */
  predicate IsPostTests(steps: seq<Step>, onCandidate: bool) {
    && |steps| == |POST_TESTS|
    && (forall i :: 0 <= i < |steps| ==> steps[i].name == POST_TESTS[i] && steps[i].verdict in {PASS, FAIL})
    && (steps[0].verdict == PASS <==> onCandidate)
  }

  // ------------------------------------------------------------------
  // Acts on production: each may fail, and the process may die inside it
  // ------------------------------------------------------------------

  class Host {
    const proc: Process
    var prod: Production
    ghost var record: Record

    constructor (proc: Process, prod: Production)
      ensures this.proc == proc && this.prod == prod && record == Record([], 0, 0, 0)
    {
      this.proc := proc;
      this.prod := prod;
      record := Record([], 0, 0, 0);
    }

    ghost predicate Boundary(running: bool)
      reads this, proc
    {
      proc.Running() ==> running
    }

    /** `cp -a` of the venv. Cut short or failed, it leaves a partial copy. */
    method CopyVenv() returns (ok: bool)
      modifies this`prod, this`record, proc`alive, proc`raised, proc`fate
      ensures Boundary(old(proc.Running()))
      ensures record == AfterCommand(old(record), ToCopy, ok)
      ensures Untouched(old(prod), prod)
      ensures proc.Running() && ok && old(prod).venv.Some? ==> prod.copy == Some(Whole(prod.venv.value))
      ensures ok ==> old(prod).venv.Some?
    {
      ok := *;
      ok := ok && prod.venv.Some?;
      record := AfterCommand(record, ToCopy, ok);
      proc.Step();
      if proc.Running() {
        prod := prod.(copy := Some(Partial));
      }
      proc.Step();
      if proc.Running() && ok {
        prod := AfterAct(prod, Copying);
      }
    }

    /** `rmtree` of the copy, errors ignored. */
    method RemoveCopy()
      modifies this`prod, this`record, proc`alive, proc`raised, proc`fate
      ensures Boundary(old(proc.Running()))
      ensures record == old(record).(leftovers := record.leftovers) && old(record).leftovers <= record.leftovers
      ensures proc.Running() && record == old(record) ==> prod.copy == None
      ensures Untouched(old(prod), prod)
    {
      proc.Step();
      if proc.Running() && prod.copy.Some? {
        prod := prod.(copy := Some(Partial));
      }
      var ok: bool := *;
      record := record.(leftovers := record.leftovers + if ok then 0 else 1);
      proc.Step();
      if proc.Running() && ok {
        prod := prod.(copy := None);
      }
    }

    /** `git merge --ff-only` or `git reset --hard`: the checkout changes first, HEAD last. */
    method MoveHead(commit: Commit) returns (ok: bool)
      modifies this`prod, this`record, proc`alive, proc`raised, proc`fate
      ensures Boundary(old(proc.Running()))
      ensures record == AfterCommand(old(record), ToMove(commit), ok)
      ensures prod.(head := old(prod).head, checkout := old(prod).checkout) == old(prod)
      ensures proc.Running() && ok ==> prod.head == commit && prod.checkout == At(commit)
    {
      ok := *;
      record := AfterCommand(record, ToMove(commit), ok);
      var starts: bool := *;
      proc.Step();
      if proc.Running() && (ok || starts) {
        prod := prod.(checkout := Mixed);
      }
      proc.Step();
      if proc.Running() && ok {
        prod := AfterAct(prod, Moving(commit));
      }
    }

    /** `pip install` into the venv in use: any content may result. */
    method PipInstall(project: bool) returns (ok: bool)
      modifies this`prod, this`record, proc`alive, proc`raised, proc`fate
      ensures Boundary(old(proc.Running()))
      ensures record == AfterCommand(old(record), ToInstall(project), ok)
      ensures prod.(venv := old(prod).venv) == old(prod)
    {
      ok := *;
      record := AfterCommand(record, ToInstall(project), ok);
      var content: int := *;
      proc.Step();
      if proc.Running() && 0 <= content {
        prod := AfterAct(prod, Installing(content));
      }
    }

    /** `os.replace(venv, failed)` when there is a venv. */
    method MoveVenvAside() returns (ok: bool)
      modifies this`prod, this`record, proc`alive, proc`raised, proc`fate
      ensures Boundary(old(proc.Running()))
      ensures record == AfterCommand(old(record), ToSetAside, ok)
      ensures prod.(venv := old(prod).venv) == old(prod)
      ensures proc.Running() && ok ==> prod.venv == None
    {
      ok := *;
      record := AfterCommand(record, ToSetAside, ok);
      proc.Step();
      if proc.Running() && ok {
        prod := AfterAct(prod, SettingAside);
      }
    }

    /** `os.replace(copy, venv)`: one rename. */
    method PutCopyBack() returns (ok: bool)
      modifies this`prod, this`record, proc`alive, proc`raised, proc`fate
      ensures Boundary(old(proc.Running()))
      ensures record == AfterCommand(old(record), ToPutBack, ok)
      ensures prod == old(prod)
              || (old(prod).copy.Some? && old(prod).copy.value.Whole?
                  && prod == old(prod).(venv := Some(old(prod).copy.value.venv), copy := None))
              || (!(old(prod).copy.Some? && old(prod).copy.value.Whole?)
                  && prod.(venv := old(prod).venv, copy := old(prod).copy) == old(prod))
      ensures proc.Running() && ok && old(prod).copy.Some? && old(prod).copy.value.Whole? ==> prod.copy == None
    {
      ok := *;
      record := AfterCommand(record, ToPutBack, ok);
      var content: int := *;
      proc.Step();
      if proc.Running() && ok && prod.copy.Some? {
        match prod.copy.value {
          case Whole(_) => prod := AfterAct(prod, PuttingBack);
          case Partial => prod := prod.(venv := if 0 <= content then Some(content) else None, copy := None);
        }
      }
    }

    /** The saved unit files, one by one, where they differ. */
    method RestoreUnits(saved: map<string, string>) returns (changed: bool)
      modifies this`prod, proc`alive, proc`raised, proc`fate
      ensures Boundary(old(proc.Running()))
      ensures prod.(units := old(prod).units) == old(prod)
      ensures prod.units + saved == old(prod).units + saved
      ensures proc.Running() ==> prod.units == old(prod).units + saved
      ensures proc.Running() ==> (changed <==> old(prod).units != old(prod).units + saved)
    {
      changed := false;
      var rest := saved.Keys;
      while rest != {}
        invariant rest <= saved.Keys
        invariant Boundary(old(proc.Running()))
        invariant prod.(units := old(prod).units) == old(prod)
        invariant prod.units + saved == old(prod).units + saved
        invariant proc.Running() ==> forall f :: f in saved && f !in rest ==> f in prod.units && prod.units[f] == saved[f]
        invariant proc.Running() ==> (changed <==> prod.units != old(prod).units)
        invariant forall f :: f in rest ==> (f in prod.units <==> f in old(prod).units) && (f in prod.units ==> prod.units[f] == old(prod).units[f])
        decreases rest
      {
        var f :| f in rest;
        rest := rest - {f};
        if f !in prod.units || prod.units[f] != saved[f] {
          proc.Step();
          if proc.Running() {
            ghost var before := prod.units;
            prod := prod.(units := prod.units[f := saved[f]]);
            assert prod.units[f] == saved[f] && (f in before ==> before[f] != saved[f]);
            changed := true;
          }
        }
      }
      if proc.Running() {
        assert prod.units == old(prod).units + saved;
      }
    }

    method StopService() returns (ok: bool)
      modifies this`prod, this`record, proc`alive, proc`raised, proc`fate
      ensures Boundary(old(proc.Running()))
      ensures record == AfterCommand(old(record), ToStop, ok)
      ensures prod.(gateway := old(prod).gateway) == old(prod)
      ensures proc.Running() && ok ==> prod.gateway == Stopped
    {
      ok := *;
      record := AfterCommand(record, ToStop, ok);
      proc.Step();
      if proc.Running() && ok {
        prod := AfterAct(prod, Stopping);
      }
    }

    /** One restart command: on success the service runs what is in place now. One that
        fails may leave it stopped, or started late. */
    method RestartService() returns (ok: bool)
      modifies this`prod, this`record, proc`alive, proc`raised, proc`fate
      ensures Boundary(old(proc.Running()))
      ensures record == AfterCommand(old(record), ToRestart, ok)
      ensures prod.(gateway := old(prod).gateway, restarts := old(prod).restarts) == old(prod)
      ensures old(prod).restarts <= prod.restarts <= old(prod).restarts + 1
      ensures proc.Running() ==> prod.restarts == old(prod).restarts + 1
      ensures proc.Running() && ok ==> prod.gateway == Up(prod.head, prod.venv, false)
    {
      ok := *;
      record := AfterCommand(record, ToRestart, ok);
      var late: bool := *;
      proc.Step();
      if proc.Running() {
        prod := AfterAct(prod, Restarting(ok || late));
      }
    }

    /** The health wait, as an oracle that never passes a service that is not up. */
    method Healthy() returns (ok: bool)
      modifies this`prod, this`record, proc`alive, proc`raised, proc`fate
      ensures Boundary(old(proc.Running()))
      ensures record == AfterCheck(old(record), ToWait, ok)
      ensures prod.(gateway := old(prod).gateway) == old(prod)
      ensures proc.Running() && ok ==> old(prod).gateway.Up? && prod.gateway == old(prod).gateway.(healthy := true)
      ensures !ok ==> prod == old(prod)
    {
      ok := *;
      ok := ok && prod.gateway.Up?;
      record := AfterCheck(record, ToWait, ok);
      proc.Step();
      if proc.Running() && ok {
        prod := AfterAct(prod, Waiting);
      }
    }

    /** Any other check, with an answer of its own. */
    method Ask(question: Question) returns (ok: bool)
      modifies this`record, proc`alive, proc`raised, proc`fate
      ensures Boundary(old(proc.Running()))
      ensures record == AfterCheck(old(record), ToCheck(question), ok)
    {
      ok := *;
      record := AfterCheck(record, ToCheck(question), ok);
      proc.Step();
    }

    method AskAll(questions: seq<Question>) returns (answers: seq<bool>)
      modifies this`record, proc`alive, proc`raised, proc`fate
      ensures Boundary(old(proc.Running()))
      ensures |answers| == |questions|
      ensures record == old(record).(log := old(record).log + Answered(questions, answers), doubts := record.doubts)
      ensures old(record).doubts <= record.doubts
      ensures record.doubts == old(record).doubts <==> forall i :: 0 <= i < |answers| ==> answers[i]
    {
      answers := [];
      for i := 0 to |questions|
        invariant Boundary(old(proc.Running()))
        invariant |answers| == i
        invariant record == old(record).(log := old(record).log + Answered(questions[..i], answers), doubts := record.doubts)
        invariant old(record).doubts <= record.doubts
        invariant record.doubts == old(record).doubts <==> forall k :: 0 <= k < |answers| ==> answers[k]
      {
        var answer := Ask(questions[i]);
        ghost var before := answers;
        answers := answers + [answer];
        assert Answered(questions[..i + 1], answers) == Answered(questions[..i], before) + [Asked(ToCheck(questions[i]), answer)];
        assert answer == answers[i] && (forall k :: 0 <= k < i ==> answers[k] == before[k]);
      }
      assert questions[..|questions|] == questions;
    }

    /** Any other command. */
    method Run(command: Command) returns (ok: bool)
      modifies this`record, proc`alive, proc`raised, proc`fate
      ensures Boundary(old(proc.Running()))
      ensures record == AfterCommand(old(record), command, ok)
    {
      ok := *;
      record := AfterCommand(record, command, ok);
      proc.Step();
    }

    // ----------------------------------------------------------------
    // Checks before and after
    // ----------------------------------------------------------------

    method Preconditions(payload: Payload) returns (steps: seq<Step>, ghost answers: seq<bool>)
      modifies this`record, proc`alive, proc`raised, proc`fate
      ensures Boundary(old(proc.Running()))
      ensures record == old(record).(log := record.log, doubts := record.doubts) && old(record).doubts <= record.doubts
      ensures IsPreconditions(steps, prod, payload)
      ensures |answers| == |ASKED_BEFORE| && record.log == old(record).log + Answered(ASKED_BEFORE, answers)
      ensures forall i :: 0 <= i < 7 && i != 1 ==> (steps[i + 1].verdict == PASS <==> answers[i])
      ensures steps[2].verdict == PASS <==> answers[1] && prod.checkout == At(prod.head)
      ensures record.doubts == old(record).doubts <==> forall i :: 0 <= i < |answers| ==> answers[i]
      ensures AllPass(steps) <==> record.doubts == old(record).doubts && AtSource(payload, prod)
    {
      hide IsPreconditions, AllPass, Answered, StepsBefore;
      var yes := AskAll(ASKED_BEFORE);
      answers := yes;
      steps := StepsBefore(prod.head == payload.source, yes, prod.checkout == At(prod.head));
      TheStepsBefore(yes, prod, payload);
    }

    /** `post_tests`. They look at HEAD, not at the venv or at whether the service runs. */
    method PostTests(payload: Payload) returns (steps: seq<Step>, ghost answers: seq<bool>)
      modifies this`record, proc`alive, proc`raised, proc`fate
      ensures Boundary(old(proc.Running()))
      ensures record == old(record).(log := record.log, doubts := record.doubts) && old(record).doubts <= record.doubts
      ensures IsPostTests(steps, prod.head == payload.candidate)
      ensures |answers| == |ASKED_AFTER| && record.log == old(record).log + Answered(ASKED_AFTER, answers)
      ensures forall i :: 0 <= i < 7 ==> (steps[i + 1].verdict == PASS <==> answers[i])
      ensures record.doubts == old(record).doubts <==> forall i :: 0 <= i < |answers| ==> answers[i]
      ensures AllPass(steps) <==> record.doubts == old(record).doubts && prod.head == payload.candidate
    {
      hide IsPostTests, AllPass, Answered, StepsAfter;
      var yes := AskAll(ASKED_AFTER);
      answers := yes;
      steps := StepsAfter(prod.head == payload.candidate, yes);
      TheStepsAfter(prod.head == payload.candidate, yes);
    }
  }

  /** The tree counts as clean only when the checkout is HEAD's, besides. */
  function StepsBefore(source: bool, yes: seq<bool>, whole: bool): seq<Step>
    requires |yes| == 7
  {
    [Step("source_head", Judged(source)), Step("branch", Judged(yes[0])), Step("clean_tree", Judged(yes[1] && whole)),
     Step("candidate_intact", Judged(yes[2])), Step("lock_intact", Judged(yes[3])), Step("preupdate_backup", Judged(yes[4])),
     Step("disk", Judged(yes[5])), Step("gateway_before", Judged(yes[6]))]
  }

  function StepsAfter(onCandidate: bool, yes: seq<bool>): seq<Step>
    requires |yes| == 7
  {
    [Step("post_version_commit", VerdictOf(onCandidate)), Step("post_version_reported", VerdictOf(yes[0])),
     Step("post_logs", VerdictOf(yes[1])), Step("post_unit", VerdictOf(yes[2])), Step("post_plugins", VerdictOf(yes[3])),
     Step("post_persistence", VerdictOf(yes[4])), Step("post_config", VerdictOf(yes[5])),
     Step("post_external_layers", VerdictOf(yes[6]))]
  }

  lemma EightPass(steps: seq<Step>)
    requires |steps| == 8
    ensures AllPass(steps) <==>
              && steps[0].verdict == PASS && steps[1].verdict == PASS && steps[2].verdict == PASS && steps[3].verdict == PASS
              && steps[4].verdict == PASS && steps[5].verdict == PASS && steps[6].verdict == PASS && steps[7].verdict == PASS
  {
  }

  lemma TheStepsBefore(yes: seq<bool>, prod: Production, payload: Payload)
    requires |yes| == 7
    ensures
      var steps := StepsBefore(prod.head == payload.source, yes, prod.checkout == At(prod.head));
      && IsPreconditions(steps, prod, payload)
      && (forall i :: 0 <= i < 7 && i != 1 ==> (steps[i + 1].verdict == PASS <==> yes[i]))
      && (steps[2].verdict == PASS <==> yes[1] && prod.checkout == At(prod.head))
      && (AllPass(steps) <==> AtSource(payload, prod) && forall i :: 0 <= i < 7 ==> yes[i])
  {
    EightPass(StepsBefore(prod.head == payload.source, yes, prod.checkout == At(prod.head)));
  }

  lemma TheStepsAfter(onCandidate: bool, yes: seq<bool>)
    requires |yes| == 7
    ensures
      var steps := StepsAfter(onCandidate, yes);
      && IsPostTests(steps, onCandidate)
      && (forall i :: 0 <= i < 7 ==> (steps[i + 1].verdict == PASS <==> yes[i]))
      && (AllPass(steps) <==> onCandidate && forall i :: 0 <= i < 7 ==> yes[i])
  {
    EightPass(StepsAfter(onCandidate, yes));
  }

  function Judged(ok: bool): Verdict { if ok then PASS else BLOCKED_ }

  datatype DeployResult = DeployResult(
    steps: seq<Step>, deployed: bool, postOk: Option<bool>, rolledBack: Option<bool>, recoveryOk: Option<bool>)

  /** An observation by the wait for health, of a service in this state. */
  predicate Shows(gateway: Gateway, seen: Health.Seen) {
    match seen
    case Active(_, yes) => yes == gateway.Up?
    case Pid(_, pid) => pid != 0 ==> gateway.Up?
    case _ => true
  }

  /** What a positive `Health.WaitHealthy` rests on is enough for `Host.Healthy`: if it was all
      observed of one state of the service, the service is up. */
  lemma EvidenceMeansUp(gateway: Gateway, log: seq<Health.Seen>, before: seq<Health.Seen>, t0: real, pid: nat, base: nat, n: nat,
                        rest: seq<Health.Seen>, stable: real, wantReady: bool)
    requires Health.Evidence(log, before, t0, pid, base, n, rest, stable, wantReady)
    requires forall i :: |before| <= i < |log| ==> Shows(gateway, log[i])
    ensures gateway.Up?
  {
    assert log[|before|] == Health.Active(t0, true);
  }

  /** What one rollback did, step by step: the answers of its commands, where they were asked. */
  datatype Undo = Undo(steps: seq<Step>, stopped: bool, headMoved: bool, aside: Option<bool>, back: Option<bool>,
                       reload: Option<bool>, restarted: bool, ok: bool)

  /** One of the renames raised. */
  predicate SwapFailed(aside: Option<bool>, back: Option<bool>) { aside == Some(false) || back == Some(false) }

  function IfAsked(command: Command, answer: Option<bool>): seq<Asked> {
    if answer.Some? then [Asked(command, answer.value)] else []
  }

  /** `persist`: the state if it differs, then the data: two commits. */
  method Persist(store: Store, rid: RunId, to: State, update: RunData)
    requires store.IsOpen(rid) && DeployState(to)
    modifies store`runs, store.proc`alive, store.proc`raised, store.proc`fate
    ensures store.Boundary(old(store.proc.Running()), old(store.proc.ticking))
    ensures OnlyRun(old(store.runs), store.runs, rid)
    ensures store.runs[rid].data == old(store.runs[rid].data) || store.runs[rid].data == Merged(old(store.runs[rid].data), update)
    ensures store.proc.Running() ==> store.runs[rid] == old(store.runs[rid]).(state := to, data := Merged(old(store.runs[rid].data), update))
  {
    if store.runs[rid].state != to {
      store.Transition(rid, to);
    }
    store.MergeData(rid, update);
  }

  /** Only the state and data of one row differ; a deployment stays one. */
  ghost predicate OnlyRun(before: seq<Run>, after: seq<Run>, rid: RunId) {
    && |before| == |after| && rid < |after|
    && (forall i :: 0 <= i < |after| && i != rid ==> after[i] == before[i])
    && after[rid].outcome == before[rid].outcome && after[rid].kind == before[rid].kind
    && (DeployState(before[rid].state) ==> DeployState(after[rid].state))
  }

  function PhaseOnly(phase: Phase): RunData { RunData(None, Some(phase), None) }

  /** `rollback`: stop, code, venv, unit files, start. However far it gets, and however often
      it is repeated after a death, the way back stays whole. When no command was refused,
      production is restored and the service runs it; it says so exactly when, besides, there
      was a copy to put back. */
  method Rollback(host: Host, rp: RollbackPoint, ghost base: Production) returns (u: Undo)
    requires rp.oldHead == base.head && base.checkout == At(base.head)
    requires CopyHeld(base, host.prod) && UnitsHeld(base, host.prod, rp.savedUnits)
    modifies host`prod, host`record, host.proc`alive, host.proc`raised, host.proc`fate
    ensures host.Boundary(old(host.proc.Running()))
    ensures CopyHeld(base, host.prod) && UnitsHeld(base, host.prod, rp.savedUnits)
    ensures old(host.prod.restarts) <= host.prod.restarts <= old(host.prod.restarts) + 1
    ensures Later(old(host.record), host.record) && host.record.doubts == old(host.record).doubts
    ensures host.record.log
            == old(host.record).log + [Asked(ToStop, u.stopped), Asked(ToMove(rp.oldHead), u.headMoved)]
               + IfAsked(ToSetAside, u.aside) + IfAsked(ToPutBack, u.back) + IfAsked(ToReload, u.reload)
               + [Asked(ToRestart, u.restarted)]
    ensures host.record.refusals == old(host.record).refusals <==>
              u.stopped && u.headMoved && !SwapFailed(u.aside, u.back) && u.reload != Some(false) && u.restarted
    ensures host.proc.Running() ==> (u.reload.Some? <==> old(host.prod.units) != old(host.prod.units) + rp.savedUnits)
    ensures u.back.Some? <==> old(host.prod).copy.Some? && u.aside != Some(false)
    ensures u.ok <==> host.record.refusals == old(host.record).refusals && old(host.prod).copy.Some?
    ensures host.proc.Running() && u.headMoved && !SwapFailed(u.aside, u.back) ==> Restored(base, host.prod, rp.savedUnits)
    ensures host.proc.Running() && host.record.refusals == old(host.record).refusals ==>
              Restored(base, host.prod, rp.savedUnits) && host.prod.gateway == Up(base.head, base.venv, false)
    ensures u.steps == [Step("rollback_stop", VerdictOf(u.stopped)), Step("rollback_code", VerdictOf(u.headMoved)),
                        Step("rollback_venv", VerdictOf(u.back == Some(true)))]
                       + (if u.reload.Some? then [Step("rollback_unit", VerdictOf(u.reload.value))] else [])
                       + [Step("rollback_restart", VerdictOf(u.restarted))]
    ensures host.proc.Running() && u.restarted ==> host.prod.gateway.Up?
  {
    hide VerdictOf, CopyHeld, UnitsHeld;
    var stopped, moved, aside, back := CodeAndVenv(host, rp, base);
    var steps := [Step("rollback_stop", VerdictOf(stopped)), Step("rollback_code", VerdictOf(moved)),
                  Step("rollback_venv", VerdictOf(back == Some(true)))];
    ghost var still := host.prod;
    var reload, restarted := UnitsAndService(host, rp.savedUnits);
    StillHeld(base, still, host.prod, rp.savedUnits);
    if reload.Some? {
      steps := steps + [Step("rollback_unit", VerdictOf(reload.value))];
    }
    steps := steps + [Step("rollback_restart", VerdictOf(restarted))];
    u := Undo(steps, stopped, moved, aside, back, reload, restarted,
              stopped && moved && back == Some(true) && reload != Some(false) && restarted);
  }

  lemma StillHeld(base: Production, before: Production, after: Production, saved: map<string, string>)
    requires CopyHeld(base, before) && UnitsHeld(base, before, saved)
    requires after.copy == before.copy && after.venv == before.venv && after.units + saved == before.units + saved
    ensures CopyHeld(base, after) && UnitsHeld(base, after, saved)
    ensures base.units + saved == after.units + saved
  {
  }

  /** The first half: the service stopped, the code and the venv back. */
  method CodeAndVenv(host: Host, rp: RollbackPoint, ghost base: Production)
    returns (stopped: bool, moved: bool, aside: Option<bool>, back: Option<bool>)
    requires CopyHeld(base, host.prod) && UnitsHeld(base, host.prod, rp.savedUnits)
    modifies host`prod, host`record, host.proc`alive, host.proc`raised, host.proc`fate
    ensures host.Boundary(old(host.proc.Running()))
    ensures CopyHeld(base, host.prod) && UnitsHeld(base, host.prod, rp.savedUnits)
    ensures host.prod.units == old(host.prod).units && host.prod.restarts == old(host.prod).restarts
    ensures Later(old(host.record), host.record) && host.record.doubts == old(host.record).doubts
    ensures host.record.log == old(host.record).log + [Asked(ToStop, stopped), Asked(ToMove(rp.oldHead), moved)]
                               + IfAsked(ToSetAside, aside) + IfAsked(ToPutBack, back)
    ensures host.record.refusals == old(host.record).refusals <==> stopped && moved && !SwapFailed(aside, back)
    ensures back.Some? <==> old(host.prod).copy.Some? && aside != Some(false)
    ensures host.proc.Running() && moved ==> host.prod.head == rp.oldHead && host.prod.checkout == At(rp.oldHead)
    ensures host.proc.Running() && !SwapFailed(aside, back) ==> host.prod.venv == base.venv
  {
    stopped := host.StopService();
    moved := host.MoveHead(rp.oldHead);
    aside, back := SwapVenv(host, base);
    assert host.record.log == old(host.record).log + [Asked(ToStop, stopped), Asked(ToMove(rp.oldHead), moved)]
                              + IfAsked(ToSetAside, aside) + IfAsked(ToPutBack, back);
  }

  /** The second half: the unit files, and the service started. */
  method UnitsAndService(host: Host, saved: map<string, string>) returns (reload: Option<bool>, restarted: bool)
    modifies host`prod, host`record, host.proc`alive, host.proc`raised, host.proc`fate
    ensures host.Boundary(old(host.proc.Running()))
    ensures host.prod.(units := old(host.prod).units, gateway := old(host.prod).gateway, restarts := old(host.prod).restarts)
            == old(host.prod)
    ensures host.prod.units + saved == old(host.prod).units + saved
    ensures old(host.prod.restarts) <= host.prod.restarts <= old(host.prod.restarts) + 1
    ensures Later(old(host.record), host.record) && host.record.doubts == old(host.record).doubts
    ensures host.record.log == old(host.record).log + IfAsked(ToReload, reload) + [Asked(ToRestart, restarted)]
    ensures host.record.refusals == old(host.record).refusals <==> reload != Some(false) && restarted
    ensures host.proc.Running() ==> host.prod.units == old(host.prod).units + saved
    ensures host.proc.Running() ==> (reload.Some? <==> old(host.prod).units != old(host.prod).units + saved)
    ensures host.proc.Running() && restarted ==> host.prod.gateway == Up(host.prod.head, host.prod.venv, false)
  {
    var changed := host.RestoreUnits(saved);
    reload := None;
    if changed {
      var reloaded := host.Run(ToReload);
      reload := Some(reloaded);
    }
    restarted := host.RestartService();
  }

  /** The two renames, each with its answer where it was asked. Without a copy there is nothing
      to do, and the step does not pass, even when the venv is already back. */
  method SwapVenv(host: Host, ghost base: Production) returns (aside: Option<bool>, back: Option<bool>)
    requires CopyHeld(base, host.prod)
    modifies host`prod, host`record, host.proc`alive, host.proc`raised, host.proc`fate
    ensures host.Boundary(old(host.proc.Running()))
    ensures CopyHeld(base, host.prod)
    ensures host.prod.(venv := old(host.prod).venv, copy := old(host.prod).copy) == old(host.prod)
    ensures host.record.log == old(host.record).log + IfAsked(ToSetAside, aside) + IfAsked(ToPutBack, back)
    ensures host.record.doubts == old(host.record).doubts && Later(old(host.record), host.record)
    ensures host.record.refusals == old(host.record).refusals <==> !SwapFailed(aside, back)
    ensures aside.Some? <==> old(host.prod).copy.Some? && old(host.prod).venv.Some?
    ensures back.Some? <==> old(host.prod).copy.Some? && aside != Some(false)
    ensures host.proc.Running() && !SwapFailed(aside, back) ==> host.prod.venv == base.venv
  {
    aside, back := None, None;
    if host.prod.copy == None {
      return;
    }
    if host.prod.venv.Some? {
      var ok := host.MoveVenvAside();
      aside := Some(ok);
      if !ok {
        return;
      }
    }
    var ok := host.PutCopyBack();
    back := Some(ok);
  }

  /** `_rollback_and_verify`. Recovery is verified exactly when no command was refused, there was
      a copy to put back, and the service was found healthy. */
  method RollbackAndVerify(host: Host, store: Store, rid: RunId, rp: RollbackPoint, ghost base: Production, res: DeployResult)
    returns (r: DeployResult)
    requires store.proc == host.proc && store.IsOpen(rid)
    requires store.runs[rid].data.rollbackPoint == Some(rp) && Recoverable(store.runs[rid].data, base, host.prod)
    requires store.runs[rid].data.phase != Some(AT_ROLLBACK_POINT)
    requires res.deployed && res.rolledBack.None? && res.steps != [] && !AllPass(res.steps)
    modifies host`prod, host`record, store`runs, host.proc`alive, host.proc`raised, host.proc`fate
    ensures host.Boundary(old(host.proc.Running()))
    ensures OnlyRun(old(store.runs), store.runs, rid)
    ensures Recoverable(store.runs[rid].data, base, host.prod)
    ensures old(host.prod.restarts) <= host.prod.restarts <= old(host.prod.restarts) + 1
    ensures Later(old(host.record), host.record)
    ensures |old(host.record).log| < |host.record.log| && host.record.log[|old(host.record).log|].command == ToStop
    ensures r.deployed && r.rolledBack.Some? && r.recoveryOk.Some? && !AllPass(r.steps)
    ensures host.proc.Running() ==>
              store.runs[rid].state == VERIFY_RECOVERY && store.runs[rid].data.phase == Some(AT_VERIFY_RECOVERY)
    ensures r.postOk == res.postOk
    ensures res.steps <= r.steps
    ensures store.runs[rid].data.rollbackPoint == Some(rp)
    ensures store.runs[rid].data.payload == old(store.runs[rid].data.payload)
    ensures CopyHeld(base, host.prod) && UnitsHeld(base, host.prod, rp.savedUnits)
    ensures host.proc.Running() && host.record.refusals == old(host.record).refusals ==> Restored(base, host.prod, rp.savedUnits)
    ensures host.proc.Running() ==>
              (r.rolledBack == Some(true) <==>
                 host.record.refusals == old(host.record).refusals && old(host.prod).copy.Some?)
    ensures host.proc.Running() ==>
              (r.recoveryOk == Some(true) <==> NoNo(old(host.record), host.record) && old(host.prod).copy.Some?)
    ensures host.proc.Running() && r.recoveryOk == Some(true) ==>
              Restored(base, host.prod, rp.savedUnits) && host.prod.gateway == Up(base.head, base.venv, true)
  {
    hide AllPass;
    Advance(host, store, rid, ROLLBACK, AT_ROLLBACK, rp, base);
    WayBackIsWhole(store.runs[rid].data, base, host.prod);
    var u := Rollback(host, rp, base);
    StillRecoverable(store.runs[rid].data, base, host.prod);
    Advance(host, store, rid, VERIFY_RECOVERY, AT_VERIFY_RECOVERY, rp, base);
    ghost var still := host.prod;
    var healthy := host.Healthy();
    RestartKeeps(store.runs[rid].data, base, still, host.prod);
    var back := host.prod.head == rp.oldHead;
    var recovered := u.ok && healthy && back;
    r := res.(steps := res.steps + u.steps + [Step("verify_recovery", VerdictOf(recovered))],
              rolledBack := Some(u.ok), recoveryOk := Some(recovered));
    StillFails(res.steps, u.steps + [Step("verify_recovery", VerdictOf(recovered))]);
    assert r.steps == res.steps + (u.steps + [Step("verify_recovery", VerdictOf(recovered))]);
  }

  lemma WayBackIsWhole(data: RunData, base: Production, prod: Production)
    requires Recoverable(data, base, prod) && data.rollbackPoint.Some? && data.phase != Some(AT_ROLLBACK_POINT)
    ensures data.rollbackPoint.value.oldHead == base.head && base.checkout == At(base.head)
    ensures CopyHeld(base, prod) && UnitsHeld(base, prod, data.rollbackPoint.value.savedUnits)
  {
  }

  lemma StillRecoverable(data: RunData, base: Production, prod: Production)
    requires data.rollbackPoint.Some? && data.phase.Some? && data.phase != Some(AT_ROLLBACK_POINT)
    requires data.rollbackPoint.value.oldHead == base.head && base.checkout == At(base.head)
    requires CopyHeld(base, prod) && UnitsHeld(base, prod, data.rollbackPoint.value.savedUnits)
    ensures Recoverable(data, base, prod)
  {
  }

  lemma StillFails(steps: seq<Step>, more: seq<Step>)
    requires !AllPass(steps) && steps != []
    ensures !AllPass(steps + more)
  {
    var i :| 0 <= i < |steps| && steps[i].verdict != PASS;
    assert (steps + more)[i] == steps[i];
  }

  /** A deployment that ended well. */
  predicate Succeeded(r: DeployResult) { r.deployed && r.rolledBack.None? && r.postOk == Some(true) }

  /** Eight preconditions, two copies, code, dependencies, service and eight post-tests. */
  const SUCCESS_STEPS := PRECONDITIONS + ["venv_backup", "db_snapshot", "code", "dependencies", "service_recovery"] + POST_TESTS

  function AllStepsPass(): seq<Step> { seq(|SUCCESS_STEPS|, i requires 0 <= i < |SUCCESS_STEPS| => Step(SUCCESS_STEPS[i], PASS)) }

  /** The steps so far are the first of a success. */
  predicate SoFarWell(steps: seq<Step>, n: nat) {
    n <= |SUCCESS_STEPS| && steps == AllStepsPass()[..n]
  }

  lemma OneMoreStep(steps: seq<Step>, n: nat, name: string)
    requires n < |SUCCESS_STEPS| && SoFarWell(steps, n) && name == SUCCESS_STEPS[n]
    ensures SoFarWell(steps + [Step(name, PASS)], n + 1)
  {
    assert AllStepsPass()[..n + 1] == AllStepsPass()[..n] + [AllStepsPass()[n]];
  }

  lemma FirstSteps(steps: seq<Step>, prod: Production, payload: Payload)
    requires IsPreconditions(steps, prod, payload) && AllPass(steps)
    ensures SoFarWell(steps, 8)
  {
    assert forall i :: 0 <= i < 8 ==> SUCCESS_STEPS[i] == PRECONDITIONS[i];
    forall i | 0 <= i < 8
      ensures steps[i] == AllStepsPass()[i]
    {
    }
    assert steps == AllStepsPass()[..8];
  }

  lemma LastSteps(steps: seq<Step>, post: seq<Step>, onCandidate: bool)
    requires SoFarWell(steps, 13) && IsPostTests(post, onCandidate) && AllPass(post)
    ensures steps + post == AllStepsPass()
  {
    assert forall i :: 0 <= i < 8 ==> SUCCESS_STEPS[13 + i] == POST_TESTS[i];
    forall i | 0 <= i < 8
      ensures post[i] == AllStepsPass()[13 + i]
    {
    }
    assert post == AllStepsPass()[13..];
  }

  lemma WellIsAllPass(steps: seq<Step>, n: nat)
    requires SoFarWell(steps, n) && 0 < n
    ensures AllPass(steps) && |steps| == n
  {
  }

  /** What `deploy` tells, once it returns, is what happened. */
  ghost predicate TellsTheTruth(r: DeployResult, payload: Payload, base: Production, prod: Production, saved: map<string, string>) {
    && (!r.deployed ==> Untouched(base, prod) && r.rolledBack.None? && r.recoveryOk.None?)
    && (Succeeded(r) ==>
          && r.steps == AllStepsPass() && r.recoveryOk.None?
          && prod.head == payload.candidate && prod.checkout == At(payload.candidate)
          && prod.gateway == Up(payload.candidate, prod.venv, true)
          && prod.units == base.units && prod.restarts == base.restarts + 1
          && base.venv.Some? && prod.copy == Some(Whole(base.venv.value)))
    && (r.deployed && !Succeeded(r) ==> r.rolledBack.Some? && r.recoveryOk.Some? && !AllPass(r.steps))
    && (r.rolledBack.Some? ==> CopyHeld(base, prod) && UnitsHeld(base, prod, saved))
    && (r.recoveryOk == Some(true) ==> Restored(base, prod, saved) && prod.gateway == Up(base.head, base.venv, true))
    && prod.restarts <= base.restarts + 2
  }

  /** `deploy`. `saved` is the content of the saved unit files. At every boundary, and so
      wherever the process dies, the stored data and production stand in `Recoverable`. Once it
      returns, it succeeded exactly when it started from the payload's source, no command was
      refused and every check passed. `early` counts what was refused before the code: then
      nothing is deployed, and what is refused later is rolled back. */
  method Deploy(host: Host, store: Store, rid: RunId, payload: Payload, saved: map<string, string>)
    returns (r: DeployResult, ghost early: nat, ghost undoing: Record)
    requires store.proc == host.proc && store.IsOpen(rid)
    requires store.runs[rid].data.rollbackPoint.None? && store.runs[rid].data.phase.None?
    modifies host`prod, host`record, store`runs, host.proc`alive, host.proc`raised, host.proc`fate
    ensures host.Boundary(old(host.proc.Running()))
    ensures OnlyRun(old(store.runs), store.runs, rid)
    ensures store.runs[rid].data.payload == old(store.runs[rid].data.payload)
    ensures Recoverable(store.runs[rid].data, old(host.prod), host.prod)
    ensures store.runs[rid].data.rollbackPoint.Some? ==>
              store.runs[rid].data.rollbackPoint == Some(RollbackPoint(old(host.prod.head), saved))
    ensures store.runs[rid].data.rollbackPoint.Some? <==> store.runs[rid].data.phase.Some?
    ensures Later(old(host.record), host.record)
    ensures host.proc.Running() ==> TellsTheTruth(r, payload, old(host.prod), host.prod, saved)
    ensures host.proc.Running() && r.rolledBack.Some? ==>
              store.runs[rid].data.rollbackPoint == Some(RollbackPoint(old(host.prod.head), saved))
    ensures host.proc.Running() ==>
              (Succeeded(r) <==> AtSource(payload, old(host.prod)) && NoNo(old(host.record), host.record))
    ensures host.proc.Running() ==>
              (r.deployed <==> AtSource(payload, old(host.prod)) && early == 0)
              && early <= Noes(host.record) - Noes(old(host.record))
              && (r.deployed <==> !NotBegun(store.runs[rid].data))
    ensures host.proc.Running() && r.deployed && !Succeeded(r) ==>
              Later(old(host.record), undoing) && UndoneFrom(undoing, host.record, r)
    ensures host.proc.Running() && Succeeded(r) ==>
              && store.runs[rid].state == POST_UPDATE_TESTS && store.runs[rid].data.phase == Some(AT_POST)
              && exists delta :: host.record.log == old(host.record).log + SuccessLog(payload, delta)
    ensures host.proc.Running() && !r.deployed && |r.steps| == 10 && host.record.leftovers == old(host.record).leftovers ==>
              host.prod.copy == None
  {
    hide AllPass, Restored, TellsTheTruth, AllStepsPass, SoFarWell, IsPreconditions, SuccessLog, FromTheCode, YesToAll, Answered,
         UndoneFrom;
    ghost var base, start := host.prod, host.record;
    early, undoing := 0, host.record;
    var pre;
    ghost var answers;
    pre, answers := host.Preconditions(payload);
    r := DeployResult(pre, false, None, None, None);
    if !AllPass(pre) || !host.proc.Running() {
      early := Noes(host.record) - Noes(start);
      EightPreconditions(pre, host.prod, payload);
      NothingDeployed(r, payload, base, host.prod, saved);
      return;
    }
    FirstSteps(pre, host.prod, payload);
    EightPreconditions(pre, host.prod, payload);
    AllYes(ASKED_BEFORE, answers);
    ghost var asked := host.record;
    var rp := RollbackPoint(payload.source, saved);
    Persist(store, rid, CONTROLLED_DEPLOYMENT, RunData(Some(rp), Some(AT_ROLLBACK_POINT), None));
    if !host.proc.Running() {
      return;
    }
    var copied, prepared := Copies(host, pre);
    r := r.(steps := prepared);
    early := Noes(host.record) - Noes(start);
    if !copied || !host.proc.Running() {
      NothingDeployed(r, payload, base, host.prod, saved);
      return;
    }
    Persist(store, rid, CONTROLLED_DEPLOYMENT, RunData(Some(rp), Some(AT_CODE), None));
    if !host.proc.Running() {
      return;
    }
    r, undoing := ChangeProduction(host, store, rid, payload, rp, base, r.(deployed := true));
    if host.proc.Running() && Succeeded(r) {
      ghost var delta :| host.record.log == asked.log + [Yes(ToCopy), Yes(ToSnapshot)] + FromTheCode(payload, delta);
      LogOfSuccess(start.log, asked.log, host.record.log, payload, delta);
    }
  }

  /** HEAD and the checked-out files are the payload's source. */
  predicate AtSource(payload: Payload, prod: Production) { prod.head == payload.source && prod.checkout == At(prod.head) }

  function Noes(r: Record): nat { r.refusals + r.doubts }

  /** Every command and check of a success, with the dependencies installed in one go or two. */
  function SuccessLog(payload: Payload, delta: bool): seq<Asked> {
    YesToAll(ASKED_BEFORE) + [Yes(ToCopy), Yes(ToSnapshot)] + FromTheCode(payload, delta)
  }

  function FromTheCode(payload: Payload, delta: bool): seq<Asked> {
    [Yes(ToFetch), Yes(ToMove(payload.candidate)), Yes(ToCheck(TagOfCandidate))]
    + (if delta then [Yes(ToInstall(false))] else []) + [Yes(ToInstall(true)), Yes(ToRestart), Yes(ToWait)]
    + YesToAll(ASKED_AFTER)
  }

  lemma LogOfSuccess(start: seq<Asked>, pre: seq<Asked>, end: seq<Asked>, payload: Payload, delta: bool)
    requires pre == start + YesToAll(ASKED_BEFORE)
    requires end == pre + [Yes(ToCopy), Yes(ToSnapshot)] + FromTheCode(payload, delta)
    ensures end == start + SuccessLog(payload, delta)
  {
  }

  lemma AllYes(questions: seq<Question>, answers: seq<bool>)
    requires |questions| == |answers| && forall i :: 0 <= i < |answers| ==> answers[i]
    ensures Answered(questions, answers) == YesToAll(questions)
  {
  }

  lemma EightPreconditions(pre: seq<Step>, prod: Production, payload: Payload)
    requires IsPreconditions(pre, prod, payload)
    ensures |pre| == 8
  {
  }

  lemma NothingDeployed(r: DeployResult, payload: Payload, base: Production, prod: Production, saved: map<string, string>)
    requires !r.deployed && r.postOk.None? && r.rolledBack.None? && r.recoveryOk.None? && Untouched(base, prod)
    ensures TellsTheTruth(r, payload, base, prod, saved)
  {
  }

  /** The copies of the venv and of the databases. */
  method Copies(host: Host, pre: seq<Step>) returns (ok: bool, steps: seq<Step>)
    requires SoFarWell(pre, 8)
    modifies host`prod, host`record, host.proc`alive, host.proc`raised, host.proc`fate
    ensures host.Boundary(old(host.proc.Running()))
    ensures Untouched(old(host.prod), host.prod) && Later(old(host.record), host.record)
    ensures host.record.doubts == old(host.record).doubts
    ensures ok <==> host.record.refusals == old(host.record).refusals
    ensures ok ==> host.record.log == old(host.record).log + [Yes(ToCopy), Yes(ToSnapshot)]
    ensures ok && host.proc.Running() ==>
              SoFarWell(steps, 10) && host.prod.venv.Some? && host.prod.copy == Some(Whole(host.prod.venv.value))
    ensures !ok && host.proc.Running() && |steps| == 10 && host.record.leftovers == old(host.record).leftovers ==>
              host.prod.copy == None
  {
    hide AllStepsPass;
    WellIsAllPass(pre, 8);
    var copied := host.CopyVenv();
    if !copied {
      return false, pre + [Step("venv_backup", FAIL)];
    }
    OneMoreStep(pre, 8, "venv_backup");
    steps := pre + [Step("venv_backup", PASS)];
    ok := host.Run(ToSnapshot);
    if !ok {
      host.RemoveCopy();
      return false, steps + [Step("db_snapshot", FAIL)];
    }
    OneMoreStep(steps, 9, "db_snapshot");
    steps := steps + [Step("db_snapshot", PASS)];
  }

  /** A step failed: the way back, and the truth about it. */
  method Undone(host: Host, store: Store, rid: RunId, payload: Payload, rp: RollbackPoint, ghost base: Production, res: DeployResult)
    returns (r: DeployResult)
    requires store.proc == host.proc && store.IsOpen(rid)
    requires store.runs[rid].data.rollbackPoint == Some(rp) && Recoverable(store.runs[rid].data, base, host.prod)
    requires store.runs[rid].data.phase != Some(AT_ROLLBACK_POINT)
    requires res.deployed && res.rolledBack.None? && res.postOk != Some(true) && res.steps != [] && !AllPass(res.steps)
    requires host.prod.restarts <= base.restarts + 1
    modifies host`prod, host`record, store`runs, host.proc`alive, host.proc`raised, host.proc`fate
    ensures host.Boundary(old(host.proc.Running()))
    ensures OnlyRun(old(store.runs), store.runs, rid)
    ensures store.runs[rid].data.payload == old(store.runs[rid].data.payload)
    ensures store.runs[rid].data.rollbackPoint == Some(rp)
    ensures Recoverable(store.runs[rid].data, base, host.prod)
    ensures r.deployed && !Succeeded(r) && Later(old(host.record), host.record)
    ensures host.proc.Running() && old(host.prod).copy.Some? ==> UndoneFrom(old(host.record), host.record, r)
    ensures host.proc.Running() ==> store.runs[rid].data.phase == Some(AT_VERIFY_RECOVERY)
    ensures host.proc.Running() ==> TellsTheTruth(r, payload, base, host.prod, rp.savedUnits)
  {
    hide Recoverable, Restored, AllPass, Untouched, CopyHeld, UnitsHeld;
    r := RollbackAndVerify(host, store, rid, rp, base, res);
  }

  /** The rollback was begun with `undoing` on record, and is verified exactly when nothing was
      refused and no check failed since. */
  predicate UndoneFrom(undoing: Record, end: Record, r: DeployResult) {
    && Later(undoing, end) && |undoing.log| < |end.log| && end.log[|undoing.log|].command == ToStop
    && (r.recoveryOk == Some(true) <==> NoNo(undoing, end))
  }

  lemma TrueSuccess(r: DeployResult, payload: Payload, base: Production, prod: Production, saved: map<string, string>)
    requires Succeeded(r) && r.steps == AllStepsPass() && r.recoveryOk.None?
    requires prod.head == payload.candidate && prod.checkout == At(payload.candidate)
    requires prod.gateway == Up(payload.candidate, prod.venv, true)
    requires prod.units == base.units && prod.restarts == base.restarts + 1
    requires base.venv.Some? && prod.copy == Some(Whole(base.venv.value))
    ensures TellsTheTruth(r, payload, base, prod, saved)
  {
  }

  lemma OneFails(steps: seq<Step>, name: string, verdict: Verdict)
    requires verdict != PASS
    ensures !AllPass(steps + [Step(name, verdict)])
  {
    assert (steps + [Step(name, verdict)])[|steps|].verdict != PASS;
  }

  lemma SomeFails(steps: seq<Step>, more: seq<Step>)
    requires !AllPass(more) && more != []
    ensures !AllPass(steps + more)
  {
    var i :| 0 <= i < |more| && more[i].verdict != PASS;
    assert (steps + more)[|steps| + i] == more[i];
  }

  /** From the code on: it succeeds exactly when no command is refused and every check passes, and
      rolls back otherwise. */
  method ChangeProduction(host: Host, store: Store, rid: RunId, payload: Payload, rp: RollbackPoint,
                          ghost base: Production, before: DeployResult)
    returns (r: DeployResult, ghost undoing: Record)
    requires store.proc == host.proc && store.IsOpen(rid) && host.proc.Running()
    requires store.runs[rid].data.rollbackPoint == Some(rp) && store.runs[rid].data.phase == Some(AT_CODE)
    requires Untouched(base, host.prod) && base.venv.Some? && host.prod.copy == Some(Whole(base.venv.value))
    requires rp.oldHead == base.head && base.checkout == At(base.head)
    requires before.deployed && before.postOk.None? && before.rolledBack.None? && before.recoveryOk.None?
    requires SoFarWell(before.steps, 10)
    modifies host`prod, host`record, store`runs, host.proc`alive, host.proc`raised, host.proc`fate
    ensures host.Boundary(old(host.proc.Running()))
    ensures OnlyRun(old(store.runs), store.runs, rid)
    ensures store.runs[rid].data.payload == old(store.runs[rid].data.payload)
    ensures store.runs[rid].data.rollbackPoint == Some(rp)
    ensures Recoverable(store.runs[rid].data, base, host.prod)
    ensures r.deployed && Later(old(host.record), host.record)
    ensures host.proc.Running() ==> TellsTheTruth(r, payload, base, host.prod, rp.savedUnits)
    ensures host.proc.Running() ==> (Succeeded(r) <==> NoNo(old(host.record), host.record))
    ensures host.proc.Running() && !Succeeded(r) ==>
              Later(old(host.record), undoing) && UndoneFrom(undoing, host.record, r)
    ensures host.proc.Running() ==> store.runs[rid].data.phase.Some? && store.runs[rid].data.phase != Some(AT_ROLLBACK_POINT)
    ensures host.proc.Running() && Succeeded(r) ==>
              && store.runs[rid].state == POST_UPDATE_TESTS && store.runs[rid].data.phase == Some(AT_POST)
              && exists delta ::
                   host.record.log == old(host.record).log + FromTheCode(payload, delta)
  {
    hide AllPass, Restored, TellsTheTruth, AllStepsPass, SoFarWell, FromTheCode, YesToAll, Noes, UndoneFrom;
    undoing := host.record;
    ghost var log := host.record.log;
    ghost var still := host.prod;
    StillRecoverable(store.runs[rid].data, base, host.prod);
    WellIsAllPass(before.steps, 10);
    var merged := Merge(host, payload.candidate);
    MovedKeeps(store.runs[rid].data, base, still, host.prod);
    if !merged {
      OneFails(before.steps, "code", FAIL);
      undoing := host.record;
      r := Undone(host, store, rid, payload, rp, base, before.(steps := before.steps + [Step("code", FAIL)]));
      return;
    }
    OneMoreStep(before.steps, 10, "code");
    var res := before.(steps := before.steps + [Step("code", PASS)]);
    WellIsAllPass(res.steps, 11);
    still := host.prod;
    var installed, delta := Install(host);
    MovedKeeps(store.runs[rid].data, base, still, host.prod);
    if !installed {
      OneFails(res.steps, "dependencies", FAIL);
      undoing := host.record;
      r := Undone(host, store, rid, payload, rp, base, res.(steps := res.steps + [Step("dependencies", FAIL)]));
      return;
    }
    OneMoreStep(res.steps, 11, "dependencies");
    res := res.(steps := res.steps + [Step("dependencies", PASS)]);
    r, undoing := RestartAndTest(host, store, rid, payload, rp, base, res);
    if Succeeded(r) {
      WholeLog(log, payload, delta);
    }
  }

  lemma WholeLog(log: seq<Asked>, payload: Payload, delta: bool)
    ensures log + [Yes(ToFetch), Yes(ToMove(payload.candidate)), Yes(ToCheck(TagOfCandidate))]
            + (if delta then [Yes(ToInstall(false))] else []) + [Yes(ToInstall(true))] + [Yes(ToRestart), Yes(ToWait)]
            + YesToAll(ASKED_AFTER)
            == log + FromTheCode(payload, delta)
  {
  }

  lemma MovedKeeps(data: RunData, base: Production, before: Production, after: Production)
    requires Recoverable(data, base, before) && data.rollbackPoint.Some? && data.phase != Some(AT_ROLLBACK_POINT)
    requires before.copy.Some? && after.copy == before.copy && after.units == before.units
    ensures Recoverable(data, base, after)
  {
  }

  /** The fetch, the fast-forward, and the check of the tag. */
  method Merge(host: Host, candidate: Commit) returns (merged: bool)
    modifies host`prod, host`record, host.proc`alive, host.proc`raised, host.proc`fate
    ensures host.Boundary(old(host.proc.Running()))
    ensures host.prod.(head := old(host.prod).head, checkout := old(host.prod).checkout) == old(host.prod)
    ensures Later(old(host.record), host.record) && (merged <==> NoNo(old(host.record), host.record))
    ensures merged ==>
              host.record.log == old(host.record).log + [Yes(ToFetch), Yes(ToMove(candidate)), Yes(ToCheck(TagOfCandidate))]
    ensures host.proc.Running() && merged ==> host.prod.head == candidate && host.prod.checkout == At(candidate)
  {
    merged := host.Run(ToFetch);
    if merged {
      merged := host.MoveHead(candidate);
    }
    if merged {
      merged := host.Ask(TagOfCandidate);
    }
  }

  /** The dependencies that differ, if any, and the project itself. */
  method Install(host: Host) returns (installed: bool, ghost delta: bool)
    modifies host`prod, host`record, host.proc`alive, host.proc`raised, host.proc`fate
    ensures host.Boundary(old(host.proc.Running()))
    ensures host.prod.(venv := old(host.prod).venv) == old(host.prod)
    ensures Later(old(host.record), host.record) && (installed <==> NoNo(old(host.record), host.record))
    ensures installed ==>
              host.record.log == old(host.record).log
                                 + (if delta then [Yes(ToInstall(false))] else []) + [Yes(ToInstall(true))]
  {
    installed := true;
    var differs: bool := *;
    delta := differs;
    if differs {
      installed := host.PipInstall(false);
    }
    if installed {
      installed := host.PipInstall(true);
    }
  }

  /** A later phase, on production that has not moved. */
  method Advance(host: Host, store: Store, rid: RunId, to: State, phase: Phase, ghost rp: RollbackPoint, ghost base: Production)
    requires store.proc == host.proc && store.IsOpen(rid) && DeployState(to) && phase != AT_ROLLBACK_POINT
    requires store.runs[rid].data.rollbackPoint == Some(rp) && store.runs[rid].data.phase != Some(AT_ROLLBACK_POINT)
    requires Recoverable(store.runs[rid].data, base, host.prod)
    modifies store`runs, host.proc`alive, host.proc`raised, host.proc`fate
    ensures host.Boundary(old(host.proc.Running()))
    ensures OnlyRun(old(store.runs), store.runs, rid)
    ensures store.runs[rid].data.payload == old(store.runs[rid].data.payload)
    ensures store.runs[rid].data.rollbackPoint == Some(rp) && store.runs[rid].data.phase != Some(AT_ROLLBACK_POINT)
    ensures Recoverable(store.runs[rid].data, base, host.prod)
    ensures host.proc.Running() ==> store.runs[rid].state == to && store.runs[rid].data.phase == Some(phase)
  {
    hide CopyHeld, UnitsHeld, Untouched;
    Persist(store, rid, to, PhaseOnly(phase));
  }

  lemma RestartKeeps(data: RunData, base: Production, before: Production, after: Production)
    requires Recoverable(data, base, before) && data.rollbackPoint.Some? && data.phase != Some(AT_ROLLBACK_POINT)
    requires after.(gateway := before.gateway, restarts := before.restarts) == before
    ensures Recoverable(data, base, after)
  {
  }

  /** The restart, and the wait for health after it. */
  method RestartAndWait(host: Host, store: Store, rid: RunId, ghost rp: RollbackPoint, ghost base: Production)
    returns (restarted: bool, healthy: bool)
    requires store.proc == host.proc && store.IsOpen(rid)
    requires store.runs[rid].data.rollbackPoint == Some(rp) && store.runs[rid].data.phase != Some(AT_ROLLBACK_POINT)
    requires Recoverable(store.runs[rid].data, base, host.prod)
    modifies host`prod, host`record, store`runs, host.proc`alive, host.proc`raised, host.proc`fate
    ensures host.Boundary(old(host.proc.Running()))
    ensures OnlyRun(old(store.runs), store.runs, rid)
    ensures store.runs[rid].data.payload == old(store.runs[rid].data.payload)
    ensures store.runs[rid].data.rollbackPoint == Some(rp) && store.runs[rid].data.phase != Some(AT_ROLLBACK_POINT)
    ensures Recoverable(store.runs[rid].data, base, host.prod)
    ensures host.prod.(gateway := old(host.prod).gateway, restarts := old(host.prod).restarts) == old(host.prod)
    ensures old(host.prod).restarts <= host.prod.restarts <= old(host.prod).restarts + 1
    ensures host.proc.Running() ==> host.prod.restarts == old(host.prod).restarts + 1
    ensures Later(old(host.record), host.record) && (restarted && healthy <==> NoNo(old(host.record), host.record))
    ensures restarted && healthy ==> host.record.log == old(host.record).log + [Yes(ToRestart), Yes(ToWait)]
    ensures host.proc.Running() && restarted && healthy ==> host.prod.gateway == Up(host.prod.head, host.prod.venv, true)
  {
    hide Recoverable;
    healthy := false;
    Advance(host, store, rid, SERVICE_RECOVERY, AT_RESTART, rp, base);
    ghost var still := host.prod;
    restarted := host.RestartService();
    if restarted {
      healthy := host.Healthy();
    }
    RestartKeeps(store.runs[rid].data, base, still, host.prod);
  }

  /** Service and post-tests. */
  method RestartAndTest(host: Host, store: Store, rid: RunId, payload: Payload, rp: RollbackPoint,
                        ghost base: Production, before: DeployResult)
    returns (r: DeployResult, ghost undoing: Record)
    requires store.proc == host.proc && store.IsOpen(rid)
    requires store.runs[rid].data.rollbackPoint == Some(rp) && store.runs[rid].data.phase == Some(AT_CODE)
    requires Recoverable(store.runs[rid].data, base, host.prod)
    requires base.venv.Some? && host.prod.copy == Some(Whole(base.venv.value))
    requires host.prod.units == base.units && host.prod.restarts == base.restarts
    requires host.proc.Running() ==> host.prod.head == payload.candidate && host.prod.checkout == At(payload.candidate)
    requires before.deployed && before.postOk.None? && before.rolledBack.None? && before.recoveryOk.None?
    requires SoFarWell(before.steps, 12)
    modifies host`prod, host`record, store`runs, host.proc`alive, host.proc`raised, host.proc`fate
    ensures host.Boundary(old(host.proc.Running()))
    ensures OnlyRun(old(store.runs), store.runs, rid)
    ensures store.runs[rid].data.payload == old(store.runs[rid].data.payload)
    ensures store.runs[rid].data.rollbackPoint == Some(rp)
    ensures Recoverable(store.runs[rid].data, base, host.prod)
    ensures r.deployed && Later(old(host.record), host.record)
    ensures host.proc.Running() ==> TellsTheTruth(r, payload, base, host.prod, rp.savedUnits)
    ensures host.proc.Running() ==> (Succeeded(r) <==> NoNo(old(host.record), host.record))
    ensures host.proc.Running() && !Succeeded(r) ==>
              Later(old(host.record), undoing) && UndoneFrom(undoing, host.record, r)
    ensures host.proc.Running() ==> store.runs[rid].data.phase.Some? && store.runs[rid].data.phase != Some(AT_ROLLBACK_POINT)
    ensures host.proc.Running() && Succeeded(r) ==>
              && store.runs[rid].state == POST_UPDATE_TESTS && store.runs[rid].data.phase == Some(AT_POST)
              && host.record.log == old(host.record).log + [Yes(ToRestart), Yes(ToWait)] + YesToAll(ASKED_AFTER)
  {
    hide AllPass, Restored, Recoverable, TellsTheTruth, AllStepsPass, SoFarWell, IsPostTests, YesToAll, Answered,
         UndoneFrom;
    undoing := host.record;
    WellIsAllPass(before.steps, 12);
    var restarted, healthy := RestartAndWait(host, store, rid, rp, base);
    if !restarted {
      OneFails(before.steps, "restart", FAIL);
      undoing := host.record;
      r := Undone(host, store, rid, payload, rp, base, before.(steps := before.steps + [Step("restart", FAIL)]));
      return;
    }
    if !healthy {
      OneFails(before.steps, "service_recovery", FAIL);
      undoing := host.record;
      r := Undone(host, store, rid, payload, rp, base, before.(steps := before.steps + [Step("service_recovery", FAIL)]));
      return;
    }
    OneMoreStep(before.steps, 12, "service_recovery");
    var res := before.(steps := before.steps + [Step("service_recovery", PASS)]);
    Advance(host, store, rid, POST_UPDATE_TESTS, AT_POST, rp, base);
    var post;
    ghost var answers;
    post, answers := host.PostTests(payload);
    if !AllPass(post) {
      EightPostTests(post, host.prod.head == payload.candidate);
      SomeFails(res.steps, post);
      undoing := host.record;
      r := Undone(host, store, rid, payload, rp, base, res.(steps := res.steps + post, postOk := Some(false)));
      return;
    }
    LastSteps(res.steps, post, host.prod.head == payload.candidate);
    AllYes(ASKED_AFTER, answers);
    r := res.(steps := res.steps + post, postOk := Some(true));
    if host.proc.Running() {
      TrueSuccess(r, payload, base, host.prod, rp.savedUnits);
    }
  }

  lemma EightPostTests(post: seq<Step>, onCandidate: bool)
    requires IsPostTests(post, onCandidate)
    ensures |post| == 8
  {
  }

  // ------------------------------------------------------------------
  // Recovery of a run whose process died
  // ------------------------------------------------------------------

  datatype Recovery = NothingToUndo | FinishedWell(post: seq<Step>) | RolledBack(undo: Undo, healthy: bool)

  /** What one recovery leaves. The verdict "OK" is claimed in one direction: a second
      rollback after the venv is back finds no copy and reports failure, on production
      that is restored all the same. */
  ghost predicate Recovered(rec: Recovery, data: RunData, state: State, base: Production, prod: Production) {
    match rec
    case NothingToUndo => DeployState(state) || data.rollbackPoint.None? ==> Untouched(base, prod)
    case FinishedWell(post) =>
      data.payload.Some? && IsPostTests(post, true) && AllPass(post) && prod.head == data.payload.value.candidate
    case RolledBack(undo, healthy) =>
      && data.rollbackPoint.Some?
      && (undo.restarted || healthy ==> prod.gateway.Up?)
      && (undo.headMoved && !SwapFailed(undo.aside, undo.back) ==> Restored(base, prod, data.rollbackPoint.value.savedUnits))
      && (undo.ok && healthy ==> Restored(base, prod, data.rollbackPoint.value.savedUnits) && prod.gateway == Up(base.head, base.venv, true))
  }

  /** How a recovery ends, by what the commands and the checks answered: nothing to undo, and the
      copy gone if it could be removed; or the deployment had ended well, exactly when HEAD was
      the candidate and the eight post-tests pass; or, when no command was refused, production
      restored with the service running it. */
  ghost predicate EndsAs(rec: Recovery, data: RunData, base: Production, before: Production, prod: Production,
                         asked: Record, record: Record)
  {
    && (rec.NothingToUndo? <==> NotBegun(data))
    && (rec.NothingToUndo? ==> Untouched(base, prod))
    && (data.phase == Some(AT_ROLLBACK_POINT) && data.rollbackPoint.Some? && record.leftovers == asked.leftovers ==>
          prod.copy == None)
    && (rec.FinishedWell? <==>
          !NotBegun(data) && data.payload.Some? && before.head == data.payload.value.candidate && record.doubts == asked.doubts)
    && (rec.RolledBack? && record.refusals == asked.refusals ==>
          && Restored(base, prod, data.rollbackPoint.value.savedUnits)
          && prod.gateway == Up(base.head, base.venv, rec.healthy)
          && (before.copy.Some? ==> rec.undo.ok))
  }

  /** The stored data shows that production was not touched: no rollback point, or nothing done
      since it was recorded. */
  predicate NotBegun(data: RunData) { data.rollbackPoint.None? || data.phase == Some(AT_ROLLBACK_POINT) }

  /** `reconcile`, on one open run. Without a rollback the gateway is as the dead process left
      it, up or not; after one it is up if the restart or the wait for health went well. */
  method RecoverRun(host: Host, store: Store, rid: RunId, ghost base: Production) returns (rec: Recovery)
    requires store.proc == host.proc && store.IsOpen(rid)
    requires Recoverable(store.runs[rid].data, base, host.prod)
    modifies host`prod, host`record, store`runs, store`checks, host.proc`alive, host.proc`raised, host.proc`fate
    ensures host.Boundary(old(host.proc.Running()))
    ensures forall r :: r != rid ==> (RequiredPass(store.checks, r) <==> RequiredPass(old(store.checks), r))
    ensures forall k :: k in store.checks ==> k in old(store.checks) || k.run == rid
    ensures store.runs == old(store.runs) || store.runs == old(store.runs)[rid := old(store.runs)[rid].(outcome := Some(INTERRUPTED))]
    ensures Recoverable(store.runs[rid].data, base, host.prod)
    ensures host.proc.Running() || store.runs == old(store.runs)
    ensures rec.FinishedWell? || !DeployState(old(store.runs[rid].state)) ==> host.prod == old(host.prod)
    ensures !rec.RolledBack? ==> host.prod.gateway == old(host.prod.gateway)
    ensures host.proc.Running() ==> store.runs[rid].outcome == Some(INTERRUPTED)
    ensures host.proc.Running() ==> Recovered(rec, old(store.runs[rid].data), old(store.runs[rid].state), base, host.prod)
    ensures Later(old(host.record), host.record)
    ensures host.proc.Running() && DeployState(old(store.runs[rid].state)) ==>
              EndsAs(rec, old(store.runs[rid].data), base, old(host.prod), host.prod, old(host.record), host.record)
  {
    var run := store.runs[rid];
    store.RecordCheck(rid, OfOrchestrator, "interrupted", FAIL, true);
    rec := NothingToUndo;
    if DeployState(run.state) && run.data.rollbackPoint.Some? {
      if run.data.phase == Some(AT_ROLLBACK_POINT) {
        host.RemoveCopy();
      } else {
        rec := FinishOrUndo(host, run.data, base);
      }
      host.proc.Step();
    }
    var _ := store.CloseRun(rid, INTERRUPTED);
  }

  /** Past the rollback point: either the deployment had finished well, or it is undone. */
  method FinishOrUndo(host: Host, data: RunData, ghost base: Production) returns (rec: Recovery)
    requires data.rollbackPoint.Some? && data.phase != Some(AT_ROLLBACK_POINT) && Recoverable(data, base, host.prod)
    modifies host`prod, host`record, host.proc`alive, host.proc`raised, host.proc`fate
    ensures host.Boundary(old(host.proc.Running()))
    ensures Recoverable(data, base, host.prod)
    ensures !rec.NothingToUndo?
    ensures !rec.RolledBack? ==> host.prod == old(host.prod)
    ensures forall state :: host.proc.Running() ==> Recovered(rec, data, state, base, host.prod)
    ensures Later(old(host.record), host.record)
    ensures host.proc.Running() ==> EndsAs(rec, data, base, old(host.prod), host.prod, old(host.record), host.record)
  {
    var post: seq<Step> := [];
    if data.payload.Some? {
      ghost var answers;
      post, answers := host.PostTests(data.payload.value);
    }
    if AllPass(post) {
      return FinishedWell(post);
    }
    var undo := Rollback(host, data.rollbackPoint.value, base);
    var healthy := host.Healthy();
    rec := RolledBack(undo, healthy);
  }

  // ------------------------------------------------------------------
  // A deployment, its deaths, and its recovery
  // ------------------------------------------------------------------

  /** Where production ends: untouched, or at the candidate with every post-test passing, or,
      when the code moved back and no rename failed, restored. */
  ghost predicate Settled(rec: Recovery, payload: Payload, base: Production, prod: Production, saved: map<string, string>) {
    match rec
    case NothingToUndo => Untouched(base, prod)
    case FinishedWell(post) => IsPostTests(post, true) && AllPass(post) && prod.head == payload.candidate
    case RolledBack(undo, healthy) =>
      && (undo.restarted || healthy ==> prod.gateway.Up?)
      && (undo.headMoved && !SwapFailed(undo.aside, undo.back) ==> Restored(base, prod, saved))
      && (undo.ok && healthy ==> Restored(base, prod, saved) && prod.gateway == Up(base.head, base.venv, true))
  }

  /** A deployment whose process may die at any step, and recoveries that may die in turn:
      the first recovery to end settles production. `asked` is the record when that recovery
      began: if none of its commands was refused, production is untouched, or at the candidate
      with eight post-tests passing, or restored with the service running it. */
  method DeployAndRecover(host: Host, store: Store, rid: RunId, payload: Payload, saved: map<string, string>, lives: nat)
    returns (r: DeployResult, rec: Option<Recovery>, ghost asked: Record)
    requires store.proc == host.proc && store.IsOpen(rid) && DeployState(store.runs[rid].state)
    requires store.runs[rid].data == RunData(None, None, Some(payload))
    requires host.proc.Running() && !host.proc.guarded // no exception is caught: only death interrupts
    modifies host`prod, host`record, store`runs, store`checks, host.proc
    ensures rid < |store.runs| && Recoverable(store.runs[rid].data, old(host.prod), host.prod)
    ensures host.proc.Running() && rec.None? ==>
              store.IsOpen(rid) && TellsTheTruth(r, payload, old(host.prod), host.prod, saved)
    ensures rec.Some? ==>
              store.runs[rid].outcome == Some(INTERRUPTED) && Settled(rec.value, payload, old(host.prod), host.prod, saved)
    ensures !host.proc.Running() ==> store.IsOpen(rid) && rec.None?
    ensures old(host.record).refusals <= asked.refusals <= host.record.refusals
    ensures rec.Some? && host.record.refusals == asked.refusals ==>
              || Untouched(old(host.prod), host.prod)
              || (rec.value.FinishedWell? && host.prod.head == payload.candidate
                  && IsPostTests(rec.value.post, true) && AllPass(rec.value.post))
              || (Restored(old(host.prod), host.prod, saved) && host.prod.gateway.Up?
                  && host.prod.gateway.head == old(host.prod).head && host.prod.gateway.venv == old(host.prod).venv)
  {
    hide Recoverable, TellsTheTruth, Restored, Untouched, AllPass;
    ghost var base := host.prod;
    asked := host.record;
    ghost var early, undoing;
    r, early, undoing := Deploy(host, store, rid, payload, saved);
    rec := None;
    if host.proc.Running() {
      return;
    }
    for i := 0 to lives
      invariant Later(old(host.record), host.record) && asked.refusals <= host.record.refusals
      invariant old(host.record).refusals <= asked.refusals
      invariant !host.proc.Running() && store.IsOpen(rid) && DeployState(store.runs[rid].state)
      invariant Recoverable(store.runs[rid].data, base, host.prod)
      invariant store.runs[rid].data.payload == Some(payload)
      invariant store.runs[rid].data.rollbackPoint.Some? ==>
                  store.runs[rid].data.rollbackPoint == Some(RollbackPoint(base.head, saved))
    {
      host.proc.Boot();
      asked := host.record;
      var recovery := RecoverRun(host, store, rid, base);
      if host.proc.Running() {
        rec := Some(recovery);
        return;
      }
    }
  }

  // ------------------------------------------------------------------
  // What recovery does not promise
  // ------------------------------------------------------------------

  /** One line of the protocol: an act that went through, or one call of `persist`. */
  datatype Deed = Did(act: Act) | Wrote(to: State, update: RunData)

  datatype Scene = Scene(prod: Production, state: State, data: RunData)

  function AfterDeeds(scene: Scene, deeds: seq<Deed>): Scene
    decreases |deeds|
  {
    if deeds == [] then scene else AfterDeeds(AfterDeed(scene, deeds[0]), deeds[1..])
  }

  function AfterDeed(scene: Scene, deed: Deed): Scene {
    match deed
    case Did(act) => scene.(prod := AfterAct(scene.prod, act))
    case Wrote(to, update) => scene.(state := to, data := Merged(scene.data, update))
  }

  lemma NextDeed(scene: Scene, deeds: seq<Deed>, i: nat)
    requires i < |deeds|
    ensures AfterDeeds(scene, deeds[i..]) == AfterDeeds(AfterDeed(scene, deeds[i]), deeds[i + 1..])
  {
    assert deeds[i..][1..] == deeds[i + 1..];
  }

  /** `deploy` until HEAD is the candidate. */
  function UpToCode(payload: Payload, saved: map<string, string>): seq<Deed> {
    var rp := RollbackPoint(payload.source, saved);
    [Wrote(CONTROLLED_DEPLOYMENT, RunData(Some(rp), Some(AT_ROLLBACK_POINT), None)), Did(Copying),
     Wrote(CONTROLLED_DEPLOYMENT, RunData(Some(rp), Some(AT_CODE), None)), Did(Moving(payload.candidate))]
  }

  /** `deploy` up to its restart, which starts the service or does not. */
  function UpToRestart(payload: Payload, saved: map<string, string>, content: Venv, up: bool): seq<Deed> {
    UpToCode(payload, saved)
    + [Did(Installing(content)), Wrote(SERVICE_RECOVERY, PhaseOnly(AT_RESTART)), Did(Restarting(up))]
  }

  /** Where a death can leave the service stopped at the candidate: after a restart that
      failed, or, when the service started but was not found healthy, after the rollback
      stopped it. */
  function StoppedHistory(payload: Payload, saved: map<string, string>, content: Venv, failedRestart: bool): seq<Deed> {
    if failedRestart then UpToRestart(payload, saved, content, false)
    else UpToRestart(payload, saved, content, true) + [Wrote(ROLLBACK, PhaseOnly(AT_ROLLBACK)), Did(Stopping)]
  }

  function AllPostTestsPass(): seq<Step> { seq(|POST_TESTS|, i requires 0 <= i < |POST_TESTS| => Step(POST_TESTS[i], PASS)) }

  /** After either history, on any production and for any approved payload, a recovery whose
      eight post-tests all pass ends well, and leaves the service stopped. (`RecoverRun`: it
      ends with the service up exactly when the dead process had left it up.) */
  lemma {:induction false} StoppedServiceMayPass(base: Production, payload: Payload, saved: map<string, string>, content: Venv, failedRestart: bool)
    requires base.head == payload.source && base.checkout == At(base.head) && base.venv.Some?
    ensures
      var scene := AfterDeeds(Scene(base, CONTROLLED_DEPLOYMENT, RunData(None, None, Some(payload))),
                              StoppedHistory(payload, saved, content, failedRestart));
      && DeployState(scene.state) && Recoverable(scene.data, base, scene.prod)
      && Recovered(FinishedWell(AllPostTestsPass()), scene.data, scene.state, base, scene.prod)
      && scene.prod.gateway == Stopped
  {
    var start := Scene(base, CONTROLLED_DEPLOYMENT, RunData(None, None, Some(payload)));
    UpToTheRestart(base, payload, saved, content, !failedRestart);
    if !failedRestart {
      var deeds := UpToRestart(payload, saved, content, true);
      var more := [Wrote(ROLLBACK, PhaseOnly(AT_ROLLBACK)), Did(Stopping)];
      InTurn(start, deeds, more);
      var scene := AfterDeeds(start, deeds);
      NextDeed(scene, more, 0);
      NextDeed(AfterDeed(scene, more[0]), more, 1);
      assert more[0..] == more;
    }
  }

  lemma {:induction false} InTurn(scene: Scene, first: seq<Deed>, second: seq<Deed>)
    ensures AfterDeeds(scene, first + second) == AfterDeeds(AfterDeeds(scene, first), second)
    decreases |first|
  {
    if first == [] {
      assert first + second == second;
    } else {
      assert (first + second)[1..] == first[1..] + second;
      InTurn(AfterDeed(scene, first[0]), first[1..], second);
    }
  }

  /** What the stored data and production are once the code has moved. */
  lemma {:induction false} UpToTheCode(base: Production, payload: Payload, saved: map<string, string>)
    requires base.venv.Some?
    ensures AfterDeeds(Scene(base, CONTROLLED_DEPLOYMENT, RunData(None, None, Some(payload))), UpToCode(payload, saved))
            == Scene(base.(copy := Some(Whole(base.venv.value)), head := payload.candidate, checkout := At(payload.candidate)),
                     CONTROLLED_DEPLOYMENT,
                     RunData(Some(RollbackPoint(payload.source, saved)), Some(AT_CODE), Some(payload)))
  {
    var s0 := Scene(base, CONTROLLED_DEPLOYMENT, RunData(None, None, Some(payload)));
    var deeds := UpToCode(payload, saved);
    assert deeds[0..] == deeds;
    NextDeed(s0, deeds, 0);
    var s1 := AfterDeed(s0, deeds[0]);
    NextDeed(s1, deeds, 1);
    var s2 := AfterDeed(s1, deeds[1]);
    NextDeed(s2, deeds, 2);
    var s3 := AfterDeed(s2, deeds[2]);
    NextDeed(s3, deeds, 3);
  }

  /** And once the service was restarted, or not. */
  lemma {:induction false} UpToTheRestart(base: Production, payload: Payload, saved: map<string, string>, content: Venv, up: bool)
    requires base.venv.Some?
    ensures AfterDeeds(Scene(base, CONTROLLED_DEPLOYMENT, RunData(None, None, Some(payload))),
                       UpToRestart(payload, saved, content, up))
            == Scene(base.(copy := Some(Whole(base.venv.value)), head := payload.candidate, checkout := At(payload.candidate),
                           venv := Some(content), restarts := base.restarts + 1,
                           gateway := if up then Up(payload.candidate, Some(content), false) else Stopped),
                     SERVICE_RECOVERY,
                     RunData(Some(RollbackPoint(payload.source, saved)), Some(AT_RESTART), Some(payload)))
  {
    var s0 := Scene(base, CONTROLLED_DEPLOYMENT, RunData(None, None, Some(payload)));
    var more := [Did(Installing(content)), Wrote(SERVICE_RECOVERY, PhaseOnly(AT_RESTART)), Did(Restarting(up))];
    UpToTheCode(base, payload, saved);
    InTurn(s0, UpToCode(payload, saved), more);
    assert more[0..] == more;
    var s4 := AfterDeeds(s0, UpToCode(payload, saved));
    NextDeed(s4, more, 0);
    var s5 := AfterDeed(s4, more[0]);
    NextDeed(s5, more, 1);
    var s6 := AfterDeed(s5, more[1]);
    NextDeed(s6, more, 2);
  }
}
