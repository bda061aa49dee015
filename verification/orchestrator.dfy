/** The orchestrator: daily runs, approved applications and revocations over one store and
    one production, each run guarded, and each start reconciling what died before. */
module Orchestration {
  import opened Wrappers
  import opened Vocabulary
  import opened Processes
  import opened UpdaterStore
  import opened Deployment

  /** One call of `deploy`: the candidate as the gate read it, when, and on what authority. */
  datatype Grant = Grant(
    code: Code, payload: Payload, status: Status, checkedAt: int, automatic: bool, attested: bool)

  /** A candidate pending approval, intact, not expired when the gate looked, and either
      attested by a second factor or applied automatically under a policy that says so. */
  predicate Lawful(g: Grant, autoApply: bool) {
    && g.status == PENDING && CandidateCode(g.payload) == g.code && g.checkedAt <= g.payload.expiresAt
    && (g.attested || (g.automatic && autoApply))
  }

  /** Every call was lawful and used up its approval, and no candidate was deployed twice. */
  ghost predicate SingleUse(grants: seq<Grant>, consumed: set<Code>, autoApply: bool) {
    && (forall i :: 0 <= i < |grants| ==> Lawful(grants[i], autoApply) && grants[i].code in consumed)
    && (forall i, j :: 0 <= i < j < |grants| ==> grants[i].code != grants[j].code)
  }

  /** The file of a second factor, if it could be read and is root's. */
  datatype Approval = NoApproval | Approval(code: Code, factor: bool, approvedAt: int, expiresAt: int)

  /** `approval.check`, past the candidate's own expiry. Seconds. */
  predicate Attests(approval: Approval, code: Code, payload: Payload, now: int, approvalTtl: int) {
    && approval.Approval? && approval.code == code && approval.factor
    && payload.createdAt <= approval.approvedAt <= now + 300
    && now <= approval.expiresAt && now <= approval.approvedAt + approvalTtl
  }

  /** One reason after the other to refuse it. */
  method CheckApproval(approval: Approval, code: Code, payload: Payload, now: int, approvalTtl: int) returns (valid: bool)
    ensures valid <==>
              && approval.Approval? && approval.code == code && approval.factor
              && payload.createdAt <= approval.approvedAt <= now + 300
              && now <= approval.expiresAt && now <= approval.approvedAt + approvalTtl
  {
    if approval.NoApproval? || approval.code != code {
      return false;
    }
    if !approval.factor {
      return false;
    }
    if approval.approvedAt < payload.createdAt {
      return false;
    }
    if (if approval.expiresAt < approval.approvedAt + approvalTtl then approval.expiresAt else approval.approvedAt + approvalTtl) < now {
      return false;
    }
    valid := approval.approvedAt <= now + 300;
  }

  /** The candidate an application is about: the one wanted, or the pending one. */
  predicate IsMeant(candidates: map<Code, Candidate>, code: Code, wanted: Option<Code>) {
    && code in candidates && candidates[code].status == PENDING && CandidateCode(candidates[code].payload) == code
    && (wanted.Some? ==> wanted.value == code)
  }

  /** What the gate asks of a candidate, at the time it reads the clock. */
  predicate MayDeploy(candidates: map<Code, Candidate>, consumed: set<Code>, code: Code, wanted: Option<Code>,
                      automatic: bool, approval: Approval, now: int, approvalTtl: int)
  {
    && IsMeant(candidates, code, wanted)
    && now <= candidates[code].payload.expiresAt
    && (automatic || Attests(approval, code, candidates[code].payload, now, approvalTtl))
    && code !in consumed
  }

  /** Some candidate passes the gate. */
  ghost predicate Admits(candidates: map<Code, Candidate>, consumed: set<Code>, wanted: Option<Code>,
                         automatic: bool, approval: Approval, now: int, approvalTtl: int)
  {
    exists c :: MayDeploy(candidates, consumed, c, wanted, automatic, approval, now, approvalTtl)
  }

  // ------------------------------------------------------------------
  // Never the same failure twice
  // ------------------------------------------------------------------

  type Pair = (Tag, Commit)

  function PairOf(p: Payload): Pair { (p.target, p.source) }

  function NewestAbout(attempts: seq<Attempt>, pair: Pair): Option<Attempt> {
    if attempts == [] then None
    else if About(attempts[|attempts| - 1], pair.0, pair.1) then Some(attempts[|attempts| - 1])
    else NewestAbout(attempts[..|attempts| - 1], pair)
  }

  ghost predicate Timed(attempts: seq<Attempt>, clock: int) {
    && (forall i :: 0 <= i < |attempts| ==> attempts[i].at <= clock)
    && (forall i, j :: 0 <= i < j < |attempts| ==> attempts[i].at < attempts[j].at)
  }

  /** A pair is not prepared while a candidate of it awaits approval, nor after a rollback,
      nor too soon after a failure of its own. */
  ghost predicate MustSkip(attempts: seq<Attempt>, candidates: map<Code, Candidate>, pair: Pair, now: int, retryAfter: int) {
    || (exists c :: c in PendingCodes(candidates) && PairOf(candidates[c].payload) == pair && now < candidates[c].expiresAt)
    || match NewestAbout(attempts, pair)
       case None => false
       case Some(a) =>
         || a.outcome == AttemptRolledBack
         || ((a.outcome == AttemptBlocked || a.outcome == AttemptFailed) && !a.backupReason && now - a.at < retryAfter)
  }

  /** What a preparation leaves: the outcome, the newest attempt and the pending candidate
      agree. */
  ghost predicate Prepared(outcome: Outcome, rid: RunId, pair: Pair, attempts: seq<Attempt>, candidates: map<Code, Candidate>) {
    && attempts != [] && About(attempts[|attempts| - 1], pair.0, pair.1)
    && match attempts[|attempts| - 1].outcome
       case AttemptPending =>
         && outcome == PENDING_APPROVAL
         && PendingFrom(candidates, rid, pair)
       case AttemptBlocked => outcome == BLOCKED
       case AttemptFailed => outcome == FAILED
       case AttemptBackupFailed => outcome == FAILED && attempts[|attempts| - 1].backupReason
       case _ => false
  }

  lemma PendingIsPrepared(rid: RunId, pair: Pair, attempts: seq<Attempt>, candidates: map<Code, Candidate>)
    requires Prepared(PENDING_APPROVAL, rid, pair, attempts, candidates)
    ensures PendingFrom(candidates, rid, pair)
  {
  }

  /** The pairs whose deployment was rolled back, as the attempts record them. */
  function Failures(attempts: seq<Attempt>): seq<Pair> {
    if attempts == [] then []
    else
      var last := attempts[|attempts| - 1];
      Failures(attempts[..|attempts| - 1]) + if last.outcome == AttemptRolledBack then [(last.target, last.source)] else []
  }

  /** The newest attempt on a pair is a rollback, and no candidate of it awaits approval. */
  ghost predicate Burnt(pair: Pair, attempts: seq<Attempt>, candidates: map<Code, Candidate>) {
    && NewestAbout(attempts, pair).Some? && NewestAbout(attempts, pair).value.outcome == AttemptRolledBack
    && forall c :: c in PendingCodes(candidates) ==> PairOf(candidates[c].payload) != pair
  }

  ghost predicate Distinct(pairs: seq<Pair>) {
    forall i, j :: 0 <= i < j < |pairs| ==> pairs[i] != pairs[j]
  }

  /** No pair was rolled back twice, and none that was can be prepared again. */
  ghost predicate NoRepeats(attempts: seq<Attempt>, candidates: map<Code, Candidate>, clock: int) {
    && Timed(attempts, clock) && Distinct(Failures(attempts))
    && forall p :: p in Failures(attempts) ==> Burnt(p, attempts, candidates)
  }

  predicate Failure(outcome: Outcome) { outcome == ROLLED_BACK || outcome == RECOVERY_FAILED }

  /** A run closed as a deployment that failed in production. */
  predicate FailedRun(run: Run) { run.outcome.Some? && Failure(run.outcome.value) }

  /** No two runs ended rolled back or unrecovered on the same pair. */
  ghost predicate FailsOnce(runs: seq<Run>) {
    && (forall i :: 0 <= i < |runs| && FailedRun(runs[i]) ==> runs[i].data.payload.Some?)
    && (forall i, j :: 0 <= i < j < |runs| && FailedRun(runs[i]) && FailedRun(runs[j]) ==>
                         PairOf(runs[i].data.payload.value) != PairOf(runs[j].data.payload.value))
  }

  /** And the attempts remember each of them. */
  ghost predicate RunsFailOnce(runs: seq<Run>, failures: seq<Pair>) {
    && FailsOnce(runs)
    && (forall i :: 0 <= i < |runs| && FailedRun(runs[i]) ==> PairOf(runs[i].data.payload.value) in failures)
  }

  /** A failure on record, of a pair on which no earlier run failed. */
  ghost predicate FirstFailure(past: seq<Run>, data: RunData, attempts: seq<Attempt>) {
    && data.payload.Some? && PairOf(data.payload.value) in Failures(attempts)
    && (forall i :: 0 <= i < |past| && FailedRun(past[i]) ==>
                      past[i].data.payload.Some? && PairOf(past[i].data.payload.value) != PairOf(data.payload.value))
  }

  lemma NotYetFailed(runs: seq<Run>, past: seq<Run>, before: seq<Attempt>, after: seq<Attempt>, data: RunData)
    requires RunsFailOnce(runs, Failures(before)) && past <= runs && data.payload.Some?
    requires PairOf(data.payload.value) !in Failures(before) && PairOf(data.payload.value) in Failures(after)
    ensures FirstFailure(past, data, after)
  {
  }

  /** Closing the run in progress. */
  lemma OneMoreClosed(runs: seq<Run>, rid: RunId, outcome: Outcome, attempts: seq<Attempt>)
    requires |runs| == rid + 1 && runs[rid].outcome.None? && RunsFailOnce(runs, Failures(attempts))
    requires Failure(outcome) ==> FirstFailure(runs[..rid], runs[rid].data, attempts)
    ensures RunsFailOnce(runs[rid := runs[rid].(outcome := Some(outcome))], Failures(attempts))
  {
    var past := runs[..rid];
    assert forall i :: 0 <= i < rid ==> past[i] == runs[i];
  }

  lemma {:induction false} NewestIsLast(attempts: seq<Attempt>, pair: Pair, last: Option<Attempt>, clock: int)
    requires Timed(attempts, clock) && IsLast(attempts, pair.0, pair.1, last)
    ensures NewestAbout(attempts, pair) == last
  {
    if attempts != [] {
      var before, a := attempts[..|attempts| - 1], attempts[|attempts| - 1];
      assert attempts == before + [a];
      if !About(a, pair.0, pair.1) {
        assert IsLast(before, pair.0, pair.1, last) by {
          if last.Some? {
            assert last.value in before;
          }
          forall i | 0 <= i < |before|
            ensures before[i] == attempts[i]
          {
          }
        }
        NewestIsLast(before, pair, last, clock);
      } else {
        assert About(attempts[|attempts| - 1], pair.0, pair.1);
        var i :| 0 <= i < |attempts| && attempts[i] == last.value;
        assert attempts[|attempts| - 1].at <= last.value.at;
      }
    }
  }

  lemma OtherAttempt(attempts: seq<Attempt>, a: Attempt, pair: Pair)
    ensures NewestAbout(attempts + [a], pair) ==
            if About(a, pair.0, pair.1) then Some(a) else NewestAbout(attempts, pair)
  {
    assert (attempts + [a])[..|attempts|] == attempts;
  }

  lemma OneMoreFailure(attempts: seq<Attempt>, a: Attempt)
    ensures Failures(attempts + [a])
            == Failures(attempts) + if a.outcome == AttemptRolledBack then [(a.target, a.source)] else []
  {
    assert (attempts + [a])[..|attempts|] == attempts;
  }

  /** Recording an attempt other than a rollback, on a pair that has not failed. */
  lemma AttemptElsewhere(attempts: seq<Attempt>, candidates: map<Code, Candidate>, clock: int, a: Attempt)
    requires NoRepeats(attempts, candidates, clock) && clock < a.at && (a.target, a.source) !in Failures(attempts)
    requires a.outcome != AttemptRolledBack
    ensures NoRepeats(attempts + [a], candidates, a.at) && Failures(attempts + [a]) == Failures(attempts)
  {
    OneMoreFailure(attempts, a);
    forall p | p in Failures(attempts + [a])
      ensures Burnt(p, attempts + [a], candidates)
    {
      assert Burnt(p, attempts, candidates);
      OtherAttempt(attempts, a, p);
    }
  }

  /** Recording the rollback of a pair that had not failed, with nothing left pending. */
  lemma AttemptBurns(attempts: seq<Attempt>, candidates: map<Code, Candidate>, clock: int, a: Attempt)
    requires NoRepeats(attempts, candidates, clock) && clock < a.at && (a.target, a.source) !in Failures(attempts)
    requires a.outcome == AttemptRolledBack && PendingCodes(candidates) == {}
    ensures NoRepeats(attempts + [a], candidates, a.at)
    ensures Failures(attempts + [a]) == Failures(attempts) + [(a.target, a.source)]
  {
    OneMoreFailure(attempts, a);
    var before, all := Failures(attempts), Failures(attempts + [a]);
    forall p | p in all
      ensures Burnt(p, attempts + [a], candidates)
    {
      OtherAttempt(attempts, a, p);
      if p != (a.target, a.source) {
        assert p in before;
        assert Burnt(p, attempts, candidates);
      }
    }
    forall i, j | 0 <= i < j < |all|
      ensures all[i] != all[j]
    {
      assert all[i] == before[i] && before[i] in before;
    }
  }

  lemma {:induction false} NewestIsOnRecord(attempts: seq<Attempt>, pair: Pair, clock: int)
    ensures NewestAbout(attempts, pair).Some? ==>
              var a := NewestAbout(attempts, pair).value;
              && (Timed(attempts, clock) ==> a.at <= clock)
              && (a.outcome == AttemptRolledBack ==> pair in Failures(attempts))
  {
    if attempts != [] {
      var before, last := attempts[..|attempts| - 1], attempts[|attempts| - 1];
      assert attempts == before + [last];
      OneMoreFailure(before, last);
      if About(last, pair.0, pair.1) {
        assert last.outcome == AttemptRolledBack ==> Failures(attempts)[|Failures(before)|] == pair;
      } else {
        NewestIsOnRecord(before, pair, clock);
      }
    }
  }

  /** Candidates that leave the pending ones as they were, or drop some, or add one of a
      pair that has not failed. */
  lemma CandidatesElsewhere(attempts: seq<Attempt>, candidates: map<Code, Candidate>,
                            after: map<Code, Candidate>, clock: int, later: int)
    requires NoRepeats(attempts, candidates, clock) && clock <= later
    requires forall c :: c in PendingCodes(after) ==>
                           (c in PendingCodes(candidates) && after[c].payload == candidates[c].payload)
                           || PairOf(after[c].payload) !in Failures(attempts)
    ensures NoRepeats(attempts, after, later)
  {
    forall p | p in Failures(attempts)
      ensures Burnt(p, attempts, after)
    {
      assert Burnt(p, attempts, candidates);
    }
  }

  // ------------------------------------------------------------------
  // What a closed run tells
  // ------------------------------------------------------------------

  /** The candidate is in production, and the service runs it. */
  ghost predicate InPlace(data: RunData, base: Production, prod: Production) {
    && data.payload.Some?
    && prod.head == data.payload.value.candidate && prod.checkout == At(prod.head)
    && prod.gateway == Up(prod.head, prod.venv, true) && prod.units == base.units
    && prod.restarts == base.restarts + 1
  }

  /** The outcome of an application is true of production. FAILED is the outcome of a
      deployment that went well when only the message about it could not be sent, so it does
      not mean that production was left alone. */
  ghost predicate OutcomeTells(outcome: Outcome, data: RunData, base: Production, prod: Production) {
    && (outcome == BLOCKED ==> Untouched(base, prod))
    && (outcome == SUCCESS || outcome == FAILED ==> InPlace(data, base, prod))
    && (outcome == ROLLED_BACK || outcome == RECOVERY_FAILED ==>
          && data.rollbackPoint.Some?
          && CopyHeld(base, prod) && UnitsHeld(base, prod, data.rollbackPoint.value.savedUnits))
    && (outcome == ROLLED_BACK ==>
          && Restored(base, prod, data.rollbackPoint.value.savedUnits)
          && prod.gateway == Up(base.head, base.venv, true))
    && prod.restarts <= base.restarts + 2
  }

  /** Some outcome of an application is true of production. */
  ghost predicate Told(data: RunData, base: Production, prod: Production) {
    || OutcomeTells(BLOCKED, data, base, prod) || OutcomeTells(SUCCESS, data, base, prod)
    || OutcomeTells(ROLLED_BACK, data, base, prod) || OutcomeTells(RECOVERY_FAILED, data, base, prod)
  }

  /** What the state of an open run tells. Before `deploy` is called there is no way back on
      record; after it, the run is in one of the deployment's states, or past them with an
      outcome that is true. */
  ghost predicate StateTells(run: Run, base: Production, prod: Production, deploying: bool) {
    if deploying then DeployState(run.state) || Told(run.data, base, prod) else run.data.rollbackPoint.None?
  }

  /** What a reconciliation leaves of the run it found open. */
  ghost predicate Ended(rec: Recovery, run: Run, base: Production, prod: Production) {
    && Recovered(rec, run.data, run.state, base, prod)
    && (run.data.rollbackPoint.Some? && !DeployState(run.state) ==> Told(run.data, base, prod))
  }

  predicate Excepted(checks: map<CheckKey, Check>, rid: RunId) {
    CheckKey(rid, OfOrchestrator, "exception") in checks
  }

  /** What an application that ends FAILED leaves. Without an exception on record the candidate
      is in place, and only the message about it was not sent. With one, production is as it
      was if the stored data shows it, and otherwise anywhere on the way, with the way back. */
  ghost predicate FailedLeaves(excepted: bool, data: RunData, base: Production, prod: Production) {
    if !excepted then InPlace(data, base, prod) && !Untouched(base, prod)
    else if NotBegun(data) then Untouched(base, prod)
    else CopyHeld(base, prod) && UnitsHeld(base, prod, data.rollbackPoint.value.savedUnits)
  }

  lemma WhatFailedLeaves(excepted: bool, data: RunData, base: Production, prod: Production)
    requires Recoverable(data, base, prod) && (!excepted ==> OutcomeTells(FAILED, data, base, prod))
    ensures FailedLeaves(excepted, data, base, prod)
  {
  }

  /** At most one call more. */
  predicate Grew(before: seq<Grant>, after: seq<Grant>) {
    before <= after && |after| <= |before| + 1
  }

  predicate Noted(before: map<CheckKey, Check>, after: map<CheckKey, Check>, key: CheckKey, check: Check) {
    after == before[key := check]
  }

  /** What a daily run finds out, each by an oracle. */
  datatype Findings = Findings(
    resources: bool, gateway: bool, maintenance: bool, backup: Verdict,
    hermes: Verdict, claude: Verdict, codex: Verdict, opencode: Verdict, network: bool,
    auxUp: bool, hermesUp: bool, target: Tag, source: Commit, aux: Verdict,
    dirty: bool, preUpdate: Verdict, staging: Verdict, tests: Verdict, review: Verdict)

  /** One candidate awaits approval, of this pair, prepared by this run. */
  ghost predicate PendingFrom(candidates: map<Code, Candidate>, rid: RunId, pair: Pair) {
    exists c :: PendingCodes(candidates) == {c} && candidates[c].run == rid && PairOf(candidates[c].payload) == pair
  }

  predicate AllKnown(f: Findings) { f.hermes == PASS && f.claude == PASS && f.codex == PASS && f.opencode == PASS }

  /** Nothing stands against the candidate; or what does is evidence against it. */
  predicate GoodCandidate(f: Findings) {
    !f.dirty && f.preUpdate == PASS && f.staging == PASS && f.tests == PASS && f.review != BLOCKED_
  }

  predicate BlockedCandidate(f: Findings) {
    || f.dirty
    || (f.preUpdate == PASS && f.staging == BLOCKED_)
    || (f.preUpdate == PASS && f.staging == PASS && f.tests == PASS && f.review == BLOCKED_)
  }

  /** The outcome of a daily run, by what it found and by whether it prepared a candidate. */
  predicate DailyTells(outcome: Outcome, f: Findings, prepared: bool, dailyBackup: bool) {
    var backedUp := dailyBackup && f.resources && f.backup == PASS;
    var something := f.auxUp || f.hermesUp;
    && (outcome == NO_UPDATES <==> !something && AllKnown(f) && backedUp)
    && (outcome == SUCCESS <==> something && !prepared && AllKnown(f) && backedUp)
    && (outcome == PENDING_APPROVAL <==> prepared && GoodCandidate(f) && backedUp)
    && (outcome == BLOCKED <==> (prepared && BlockedCandidate(f)) || (!something && !AllKnown(f) && f.network))
    && outcome in {NO_UPDATES, SUCCESS, PENDING_APPROVAL, BLOCKED, FAILED}
  }

  /** `telegram`: the message about the deployment can be sent. */
  datatype Job = Daily(found: Findings) | Apply(wanted: Option<Code>, automatic: bool, approval: Approval, telegram: bool)

  /** When a run read the clock, whether it prepared a candidate, and what was on record when its
      body began and when its rollback did. */
  datatype Trace = Trace(looked: int, prepared: bool, asked: Record, undoing: Record)

  /** The outcome of an application, by what was refused: nothing begun; nothing refused from the
      payload's source on; or a rollback, verified exactly when nothing was refused since. */
  predicate ApplyTells(outcome: Outcome, telegram: bool, data: RunData, base: Production, t: Trace, end: Record) {
    && (outcome == BLOCKED <==> NotBegun(data))
    && (outcome == SUCCESS || outcome == FAILED <==>
          data.payload.Some? && AtSource(data.payload.value, base) && NoNo(t.asked, end))
    && (outcome == SUCCESS ==> telegram) && (outcome == FAILED ==> !telegram)
    && (Failure(outcome) ==>
          && Later(t.asked, t.undoing) && Later(t.undoing, end)
          && |t.undoing.log| < |end.log| && end.log[|t.undoing.log|].command == ToStop
          && (outcome == ROLLED_BACK <==> NoNo(t.undoing, end)))
    && outcome in {SUCCESS, BLOCKED, FAILED, ROLLED_BACK, RECOVERY_FAILED}
  }

  class Orchestrator {
    const proc: Process
    const store: Store
    const host: Host
    const autoApply: bool
    const dailyBackup: bool
    const aiRequired: bool
    const ttl: int
    const approvalTtl: int // seconds, as is the next
    const retryAfter: int
    const enableAux: bool
    const enablePrepare: bool

    /** Production as the run in progress found it. */
    ghost var base: Production
    /** The runs before the one in progress. */
    ghost var past: seq<Run>
    /** Every call of `deploy`. */
    ghost var grants: seq<Grant>
    /** `deploy` was called by the run in progress. */
    ghost var deploying: bool

    /** What holds at every boundary between two steps, dead or alive. */
    ghost predicate Durable()
      reads this, store, host, proc
    {
      store.proc == proc && host.proc == proc && Lasting()
    }

    ghost predicate Lasting()
      reads this`base, this`grants, this`deploying, store, host`prod, proc`ticking, proc`clock
    {
      && Books(store.runs, store.checks) && OnePending(store.candidates) && Signed(store.candidates)
      && SingleUse(grants, store.consumed, autoApply)
      && (store.runs != [] && store.runs[|store.runs| - 1].outcome.None? ==>
            && Recoverable(store.runs[|store.runs| - 1].data, base, host.prod)
            && StateTells(store.runs[|store.runs| - 1], base, host.prod, deploying))
      && (proc.ticking ==>
            NoRepeats(store.attempts, store.candidates, proc.clock) && RunsFailOnce(store.runs, Failures(store.attempts)))
    }

    ghost predicate Ongoing(rid: RunId)
      reads this, store, host, proc
    {
      Durable() && |store.runs| == rid + 1 && store.IsOpen(rid) && PastKept()
    }

    /** In a run on whose record there is no exception. */
    ghost predicate InRun(rid: RunId)
      reads this, store, host, proc
    {
      Ongoing(rid) && !Excepted(store.checks, rid)
    }

    /** In a run that has not called `deploy`. */
    ghost predicate Preparing(rid: RunId)
      reads this, store, host, proc
    {
      InRun(rid) && !deploying
    }

    /** The runs before the last are as they were when it began. */
    ghost predicate PastKept()
      reads this`past, store`runs
    {
      store.runs != [] && store.runs[..|store.runs| - 1] == past
    }

    constructor (store: Store, host: Host, autoApply: bool, dailyBackup: bool, aiRequired: bool, ttl: int, approvalTtl: int, retryAfter: int,
                 enableAux: bool, enablePrepare: bool)
      requires store.proc == host.proc && store.proc.Running() && store.runs == [] && store.checks == map[] && store.candidates == map[]
      requires store.attempts == [] && store.consumed == {}
      ensures Durable() && this.store == store && this.host == host && proc == store.proc && grants == []
      ensures this.autoApply == autoApply
    {
      this.proc, this.store, this.host := store.proc, store, host;
      this.autoApply, this.dailyBackup, this.aiRequired := autoApply, dailyBackup, aiRequired;
      this.ttl, this.approvalTtl, this.retryAfter := ttl, approvalTtl, retryAfter;
      this.enableAux, this.enablePrepare := enableAux, enablePrepare;
      base, past, grants, deploying := host.prod, [], [], false;
    }

    // ----------------------------------------------------------------
    // Steps of a run
    // ----------------------------------------------------------------

    method To(rid: RunId, to: State)
      requires InRun(rid) && (deploying ==> DeployState(to) || Told(store.runs[rid].data, base, host.prod))
      modifies store`runs, proc`alive, proc`raised, proc`fate
      ensures InRun(rid) && store.Boundary(old(proc.Running()), old(proc.ticking))
      ensures store.runs[rid].data == old(store.runs[rid].data)
      ensures proc.Running() ==> store.runs[rid].state == to
    {
      hide OnePending, Signed, SingleUse, NoRepeats, Recoverable, RequiredPass, Told, RunsFailOnce, Failures;
      if proc.ticking {
        StillOpen(store.runs, rid, store.runs[rid].(state := to), Failures(store.attempts));
      }
      store.Transition(rid, to);
    }

    method Note(rid: RunId, component: Component, name: string, verdict: Verdict, required: bool)
      requires InRun(rid) && component != OfOrchestrator
      modifies store`checks, proc`alive, proc`raised, proc`fate
      ensures InRun(rid) && store.Boundary(old(proc.Running()), old(proc.ticking))
      ensures proc.Running() ==> Noted(old(store.checks), store.checks, CheckKey(rid, component, name), Check(verdict, required))
      ensures (verdict == PASS || !required) && RequiredPass(old(store.checks), rid) ==> RequiredPass(store.checks, rid)
      ensures proc.Running() && required && verdict != PASS ==> !RequiredPass(store.checks, rid)
    {
      hide OnePending, Signed, SingleUse, NoRepeats, Recoverable, RunsFailOnce, Failures, StateTells;
      store.RecordCheck(rid, component, name, verdict, required);
    }

    /** A failed check of the orchestrator's own. */
    method NoteOwn(rid: RunId, name: string)
      requires Ongoing(rid)
      modifies store`checks, proc`alive, proc`raised, proc`fate
      ensures Ongoing(rid) && store.Boundary(old(proc.Running()), old(proc.ticking))
      ensures Excepted(store.checks, rid) <==> Excepted(old(store.checks), rid) || (proc.Running() && name == "exception")
      ensures proc.Running() ==> !RequiredPass(store.checks, rid)
    {
      hide OnePending, Signed, SingleUse, NoRepeats, Recoverable, RunsFailOnce, Failures, StateTells;
      store.RecordCheck(rid, OfOrchestrator, name, FAIL, true);
    }

    /** An attempt other than a rollback, on a pair that has not failed in production. */
    method Attempted(pair: Pair, outcome: AttemptOutcome, backupReason: bool)
      requires Durable() && (proc.ticking ==> pair !in Failures(store.attempts)) && outcome != AttemptRolledBack
      modifies store`attempts, proc`alive, proc`raised, proc`fate, proc`ticking, proc`clock
      ensures Durable() && store.Boundary(old(proc.Running()), old(proc.ticking))
      ensures proc.ticking ==> old(proc.clock) <= proc.clock
      ensures store.attempts
              == old(store.attempts) + if proc.Running() then [Attempt(pair.0, pair.1, proc.clock, outcome, backupReason)] else []
    {
      hide Books, OnePending, Signed, SingleUse, Recoverable, NoRepeats, RunsFailOnce, StateTells, Failures;
      ghost var before, clock := store.attempts, proc.clock;
      store.RecordAttempt(pair.0, pair.1, outcome, backupReason);
      if proc.ticking {
        if proc.Running() {
          AttemptElsewhere(before, store.candidates, clock, store.attempts[|store.attempts| - 1]);
        } else {
          ClockMoves(before, store.candidates, clock, proc.clock);
        }
      }
    }

    /** A status other than pending. */
    method SetStatus(code: Code, status: Status)
      requires Durable() && status != PENDING
      modifies store`candidates, proc`alive, proc`raised, proc`fate
      ensures Durable() && store.Boundary(old(proc.Running()), old(proc.ticking))
      ensures old(proc.Running()) ==> (proc.Running() <==> 0 < old(proc.fate))
      ensures proc.Running() ==> proc.fate == old(proc.fate) - 1
      ensures proc.Running() ==> PendingCodes(store.candidates) == PendingCodes(old(store.candidates)) - {code}
      ensures store.candidates ==
              if proc.Running() && code in old(store.candidates)
              then old(store.candidates)[code := old(store.candidates)[code].(status := status)]
              else old(store.candidates)
    {
      hide Books, SingleUse, Recoverable, NoRepeats, RunsFailOnce, StateTells, Failures;
      ghost var before := store.candidates;
      store.SetCandidateStatus(code, status);
      if proc.ticking {
        CandidatesElsewhere(store.attempts, before, store.candidates, proc.clock, proc.clock);
      }
    }

    /** A look at the clock. */
    method Now() returns (now: int)
      requires Durable()
      modifies proc`clock, proc`ticking
      ensures Durable() && now == proc.clock && (proc.ticking ==> old(proc.ticking) && old(proc.clock) < now)
    {
      hide Books, OnePending, Signed, SingleUse, Recoverable, NoRepeats, RunsFailOnce, StateTells, Failures;
      ghost var clock := proc.clock;
      now := proc.Now();
      if proc.ticking {
        ClockMoves(store.attempts, store.candidates, clock, now);
      }
    }

    // ----------------------------------------------------------------
    // daily
    // ----------------------------------------------------------------

    /** `_hermes_skip_reason`: already pending, rolled back in production, or too recent. */
    method HermesSkips(target: Tag, source: Commit) returns (skip: bool)
      requires Durable()
      modifies proc`clock, proc`ticking
      ensures Durable() && (proc.ticking ==> old(proc.ticking) && old(proc.clock) < proc.clock)
      ensures proc.ticking ==> (skip <==> MustSkip(store.attempts, store.candidates, (target, source), proc.clock, retryAfter))
      ensures !skip && proc.ticking ==> (target, source) !in Failures(store.attempts)
    {
      hide Books, Signed, SingleUse, Recoverable, NewestAbout, RunsFailOnce, StateTells, Failures;
      var now := Now();
      var pending := store.PendingCandidate();
      var last := store.LastAttempt(target, source);
      if proc.ticking {
        NewestIsLast(store.attempts, (target, source), last, now);
      }
      if pending.Some? {
        var row := store.candidates[pending.value];
        if PairOf(row.payload) == (target, source) && now < row.expiresAt {
          return true;
        }
      }
      if last.Some? && last.value.outcome == AttemptRolledBack {
        return true;
      }
      skip := last.Some? && (last.value.outcome == AttemptBlocked || last.value.outcome == AttemptFailed)
              && !last.value.backupReason && now - last.value.at < retryAfter;
    }

    /** `_prepare_hermes`: what it records. The phases themselves are oracles. */
    method PrepareHermes(rid: RunId, f: Findings) returns (outcome: Outcome)
      requires Preparing(rid) && (proc.ticking ==> (f.target, f.source) !in Failures(store.attempts))
      modifies store`runs, store`checks, store`attempts, store`candidates, proc`alive, proc`raised, proc`fate, proc`ticking, proc`clock
      ensures Preparing(rid) && store.Boundary(old(proc.Running()), old(proc.ticking))
      ensures proc.ticking ==> old(proc.clock) <= proc.clock
      ensures outcome in {BLOCKED, FAILED, PENDING_APPROVAL}
      ensures outcome == PENDING_APPROVAL <==> GoodCandidate(f)
      ensures outcome == BLOCKED <==> BlockedCandidate(f)
      ensures proc.Running() ==> Prepared(outcome, rid, (f.target, f.source), store.attempts, store.candidates)
      ensures proc.Running() ==>
                |store.attempts| == |old(store.attempts)| + 1 && old(store.attempts) <= store.attempts
                && (store.attempts[|old(store.attempts)|].outcome == AttemptBackupFailed <==> !f.dirty && f.preUpdate != PASS)
                && About(store.attempts[|old(store.attempts)|], f.target, f.source)
      ensures outcome == PENDING_APPROVAL && !aiRequired && RequiredPass(old(store.checks), rid) ==>
                RequiredPass(store.checks, rid)
    {
      hide Lasting, PastKept, Excepted, PairOf, RequiredPass, Noted, Prepared;
      if f.dirty {
        Note(rid, OfHermes, "clean_tree", BLOCKED_, true);
        outcome := Block(rid, (f.target, f.source), AttemptBlocked);
        return;
      }
      To(rid, BACKUP);
      To(rid, BACKUP_VERIFICATION);
      Note(rid, OfBackup, "pre_update", f.preUpdate, true);
      if f.preUpdate != PASS {
        outcome := Block(rid, (f.target, f.source), AttemptBackupFailed);
        return;
      }
      var blocked := Examined(rid, f);
      if blocked.Some? {
        outcome := Block(rid, (f.target, f.source), if blocked == Some(BLOCKED) then AttemptBlocked else AttemptFailed);
        return;
      }
      Ready(rid, f.target, f.source);
      outcome := PENDING_APPROVAL;
    }

    /** `block`: the attempt that explains the outcome. Only a failed backup says nothing of
        the candidate. */
    method Block(rid: RunId, pair: Pair, attempt: AttemptOutcome) returns (outcome: Outcome)
      requires Preparing(rid) && (proc.ticking ==> pair !in Failures(store.attempts))
      requires attempt == AttemptBlocked || attempt == AttemptFailed || attempt == AttemptBackupFailed
      modifies store`attempts, proc`alive, proc`raised, proc`fate, proc`ticking, proc`clock
      ensures Preparing(rid) && store.Boundary(old(proc.Running()), old(proc.ticking))
      ensures proc.ticking ==> old(proc.clock) <= proc.clock
      ensures proc.Running() ==> Prepared(outcome, rid, pair, store.attempts, store.candidates)
      ensures proc.Running() ==>
                store.attempts
                == old(store.attempts) + [Attempt(pair.0, pair.1, proc.clock, attempt, attempt == AttemptBackupFailed)]
      ensures outcome == if attempt == AttemptBlocked then BLOCKED else FAILED
    {
      hide Lasting, PastKept, Excepted;
      outcome := if attempt == AttemptBlocked then BLOCKED else FAILED;
      Attempted(pair, attempt, attempt == AttemptBackupFailed);
    }

    method Ready(rid: RunId, target: Tag, source: Commit)
      requires Preparing(rid) && (proc.ticking ==> (target, source) !in Failures(store.attempts))
      modifies store`runs, store`attempts, store`candidates, proc`alive, proc`raised, proc`fate, proc`ticking, proc`clock
      ensures Preparing(rid) && store.Boundary(old(proc.Running()), old(proc.ticking))
      ensures proc.ticking ==> old(proc.clock) <= proc.clock
      ensures proc.Running() ==> Prepared(PENDING_APPROVAL, rid, (target, source), store.attempts, store.candidates)
      ensures proc.Running() ==>
                store.attempts == old(store.attempts) + [Attempt(target, source, proc.clock, AttemptPending, false)]
    {
      hide Lasting, PastKept, Excepted, PairOf, PendingCodes;
      SaveReady(rid, target, source);
      To(rid, AUTHORIZATION_GATE);
      Attempted((target, source), AttemptPending, false);
    }

    /** Staging, tests and review: why the candidate goes no further, if it does not. */
    method Examined(rid: RunId, f: Findings) returns (blocked: Option<Outcome>)
      requires Preparing(rid)
      modifies store`runs, store`checks, proc`alive, proc`raised, proc`fate
      ensures Preparing(rid) && store.Boundary(old(proc.Running()), old(proc.ticking))
      ensures blocked.Some? ==> blocked.value in {BLOCKED, FAILED}
      ensures blocked.None? <==> f.staging == PASS && f.tests == PASS && f.review != BLOCKED_
      ensures blocked == Some(BLOCKED) <==>
                f.staging == BLOCKED_ || (f.staging == PASS && f.tests == PASS && f.review == BLOCKED_)
      ensures blocked.None? && !aiRequired && RequiredPass(old(store.checks), rid) ==> RequiredPass(store.checks, rid)
    {
      hide Lasting, PastKept, Excepted, RequiredPass, Noted;
      To(rid, STAGING_PREPARATION);
      Note(rid, OfStaging, "candidate", f.staging, true);
      if f.staging != PASS {
        return Some(if f.staging == BLOCKED_ then BLOCKED else FAILED);
      }
      To(rid, COMPATIBILITY_TESTS);
      Note(rid, OfTests, "suites", f.tests, true);
      if f.tests != PASS {
        return Some(FAILED);
      }
      To(rid, AI_REVIEW);
      Note(rid, OfReview, "ai", f.review, aiRequired);
      if f.review == BLOCKED_ {
        return Some(BLOCKED);
      }
      To(rid, UPDATE_READY);
      blocked := None;
    }

    /** The candidate, signed by its content, replaces whatever was pending. */
    method SaveReady(rid: RunId, target: Tag, source: Commit)
      requires Durable() && (proc.ticking ==> (target, source) !in Failures(store.attempts))
      modifies store`candidates, proc`alive, proc`raised, proc`fate, proc`ticking, proc`clock
      ensures Durable() && store.Boundary(old(proc.Running()), old(proc.ticking))
      ensures proc.ticking ==> old(proc.clock) <= proc.clock
      ensures proc.Running() ==>
                exists c :: PendingCodes(store.candidates) == {c} && store.candidates[c].run == rid
                            && PairOf(store.candidates[c].payload) == (target, source)
    {
      hide Books, SingleUse, Recoverable, NoRepeats, RunsFailOnce, StateTells, Failures;
      var now := Now();
      ghost var before, start := store.candidates, proc.clock;
      var candidate, nonce: int := *, *;
      var payload := Payload(source, target, if candidate < 0 then 0 else candidate, now, now + ttl,
                             if nonce < 0 then 0 else nonce);
      var code := CandidateCode(payload);
      store.SaveCandidate(code, rid, payload, ttl);
      if proc.ticking {
        CandidatesElsewhere(store.attempts, before, store.candidates, start, proc.clock);
      }
    }

    /** There is an update, resources, and no reason to skip it at the time read. */
    ghost predicate ToPrepare(f: Findings, attempts: seq<Attempt>, candidates: map<Code, Candidate>, now: int) {
      && f.hermesUp && f.resources && enablePrepare
      && !MustSkip(attempts, candidates, (f.target, f.source), now, retryAfter)
    }

    /** `_daily`. It never touches production. What it found determines its outcome; a candidate
        is prepared exactly when there is an update, resources, and no reason to skip it. */
    method DailyBody(rid: RunId, f: Findings) returns (outcome: Outcome, ghost prepared: bool, ghost looked: int)
      requires Preparing(rid) && RequiredPass(store.checks, rid)
      modifies store`runs, store`checks, store`attempts, store`candidates, proc`alive, proc`raised, proc`fate, proc`ticking, proc`clock
      ensures Preparing(rid) && store.Boundary(old(proc.Running()), old(proc.ticking))
      ensures DailyTells(outcome, f, prepared, dailyBackup)
      ensures Green(outcome) ==> RequiredPass(store.checks, rid)
      ensures prepared ==> f.hermesUp && f.resources && enablePrepare
      ensures proc.ticking ==>
                && old(proc.clock) <= looked <= proc.clock
                && (prepared <==> ToPrepare(f, old(store.attempts), old(store.candidates), looked))
      ensures proc.Running() && prepared ==>
                |store.attempts| == |old(store.attempts)| + 1
                && About(store.attempts[|old(store.attempts)|], f.target, f.source)
      ensures proc.Running() && outcome == PENDING_APPROVAL ==> PendingFrom(store.candidates, rid, (f.target, f.source))
      ensures proc.Running() && !prepared ==> store.attempts == old(store.attempts) && store.candidates == old(store.candidates)
    {
      hide Lasting, PastKept, Excepted, RequiredPass, Noted, Prepared, MustSkip, DailyTells, PendingFrom;
      prepared := false;
      var backup := Preflight(rid, f);
      var skip := Classified(rid, f);
      looked := proc.clock;
      if !f.auxUp && !f.hermesUp {
        NothingNew(rid);
        if !AllKnown(f) {
          outcome := if f.network then BLOCKED else FAILED;
        } else {
          outcome := if backup == PASS then NO_UPDATES else FAILED;
        }
        NoNewsTells(outcome, f, dailyBackup);
        return;
      }
      outcome, prepared := News(rid, f, backup, skip);
    }

    /** When there are updates. */
    method News(rid: RunId, f: Findings, backup: Verdict, skip: bool) returns (outcome: Outcome, ghost prepared: bool)
      requires Preparing(rid) && (!skip && proc.ticking ==> (f.target, f.source) !in Failures(store.attempts))
      requires f.auxUp || f.hermesUp
      requires backup == PASS <==> dailyBackup && f.resources && f.backup == PASS
      modifies store`runs, store`checks, store`attempts, store`candidates, proc`alive, proc`raised, proc`fate, proc`ticking, proc`clock
      ensures Preparing(rid) && store.Boundary(old(proc.Running()), old(proc.ticking))
      ensures proc.ticking ==> old(proc.clock) <= proc.clock
      ensures prepared <==> f.hermesUp && !skip && f.resources && enablePrepare
      ensures DailyTells(outcome, f, prepared, dailyBackup)
      ensures Green(outcome) ==> AllKnown(f) && backup == PASS
      ensures Green(outcome) && RequiredPass(old(store.checks), rid) ==> RequiredPass(store.checks, rid)
      ensures proc.Running() && prepared ==>
                |store.attempts| == |old(store.attempts)| + 1
                && About(store.attempts[|old(store.attempts)|], f.target, f.source)
      ensures proc.Running() && outcome == PENDING_APPROVAL ==> PendingFrom(store.candidates, rid, (f.target, f.source))
      ensures !prepared ==> store.attempts == old(store.attempts) && store.candidates == old(store.candidates)
    {
      hide Lasting, PastKept, Excepted, RequiredPass, Noted, Prepared, GoodCandidate, BlockedCandidate, PendingFrom, DailyTells,
           About;
      outcome, prepared := Updates(rid, f, skip);
      ghost var told := outcome;
      if backup != PASS && (outcome == SUCCESS || outcome == PENDING_APPROVAL) {
        outcome := FAILED;
      }
      To(rid, TELEGRAM_REPORT);
      To(rid, COMPLETE);
      if outcome == SUCCESS && !AllKnown(f) {
        outcome := FAILED;
      }
      if proc.Running() && told == PENDING_APPROVAL {
        PendingIsPrepared(rid, (f.target, f.source), store.attempts, store.candidates);
      }
      NewsTells(outcome, told, f, prepared, dailyBackup);
    }

    /** The versions, and whether an update of Hermes is to be skipped. */
    method Classified(rid: RunId, f: Findings) returns (skip: bool)
      requires Preparing(rid)
      modifies store`runs, store`checks, proc`alive, proc`raised, proc`fate, proc`ticking, proc`clock
      ensures Preparing(rid) && store.Boundary(old(proc.Running()), old(proc.ticking))
      ensures !skip ==> f.hermesUp && (proc.ticking ==> (f.target, f.source) !in Failures(store.attempts))
      ensures proc.ticking ==>
                && old(proc.clock) <= proc.clock
                && (skip <==>
                      !f.hermesUp || MustSkip(store.attempts, store.candidates, (f.target, f.source), proc.clock, retryAfter))
      ensures AllKnown(f) && RequiredPass(old(store.checks), rid) ==> RequiredPass(store.checks, rid)
    {
      hide Lasting, PastKept, Excepted, RequiredPass, Noted, Failures, MustSkip;
      To(rid, VERSION_DISCOVERY);
      Versions(rid, f);
      To(rid, UPDATE_CLASSIFICATION);
      skip := true;
      if f.hermesUp {
        skip := HermesSkips(f.target, f.source);
      }
    }

    method NothingNew(rid: RunId)
      requires Preparing(rid)
      modifies store`runs, proc`alive, proc`raised, proc`fate
      ensures Preparing(rid) && store.Boundary(old(proc.Running()), old(proc.ticking))
    {
      hide Lasting, PastKept, Excepted;
      To(rid, NO_UPDATES_FOUND);
      To(rid, NOTIFY_CURRENT_VERSIONS);
      To(rid, COMPLETE);
    }

    /** Resources, and the daily backup, before anything else. */
    method Preflight(rid: RunId, f: Findings) returns (backup: Verdict)
      requires Preparing(rid)
      modifies store`runs, store`checks, proc`alive, proc`raised, proc`fate
      ensures Preparing(rid) && store.Boundary(old(proc.Running()), old(proc.ticking))
      ensures backup == PASS <==> dailyBackup && f.resources && f.backup == PASS
      ensures backup == PASS && RequiredPass(old(store.checks), rid) ==> RequiredPass(store.checks, rid)
    {
      hide Lasting, PastKept, Excepted, RequiredPass, Noted;
      To(rid, PREFLIGHT);
      Note(rid, OfPreflight, "resources", if f.resources then PASS else BLOCKED_, true);
      Note(rid, OfPreflight, "gateway", VerdictOf(f.gateway), false);
      Note(rid, OfPreflight, "hermes_maint", if f.maintenance then PASS else NOT_OBSERVED, false);
      To(rid, DAILY_BACKUP);
      backup := if !dailyBackup then SKIPPED else if !f.resources then BLOCKED_ else f.backup;
      Note(rid, OfBackup, "daily", backup, true);
    }

    method Versions(rid: RunId, f: Findings)
      requires Preparing(rid)
      modifies store`checks, proc`alive, proc`raised, proc`fate
      ensures Preparing(rid) && store.Boundary(old(proc.Running()), old(proc.ticking))
      ensures AllKnown(f) && RequiredPass(old(store.checks), rid) ==> RequiredPass(store.checks, rid)
    {
      hide Lasting, PastKept, Excepted, RequiredPass, Noted;
      Note(rid, OfVersions, "hermes", f.hermes, true);
      Note(rid, OfVersions, "claude", f.claude, true);
      Note(rid, OfVersions, "codex", f.codex, true);
      Note(rid, OfVersions, "opencode", f.opencode, true);
    }

    method Updates(rid: RunId, f: Findings, skip: bool) returns (outcome: Outcome, ghost prepared: bool)
      requires Preparing(rid) && (!skip && proc.ticking ==> (f.target, f.source) !in Failures(store.attempts))
      modifies store`runs, store`checks, store`attempts, store`candidates, proc`alive, proc`raised, proc`fate, proc`ticking, proc`clock
      ensures Preparing(rid) && store.Boundary(old(proc.Running()), old(proc.ticking))
      ensures proc.ticking ==> old(proc.clock) <= proc.clock
      ensures prepared <==> f.hermesUp && !skip && f.resources && enablePrepare
      ensures outcome in {SUCCESS, PENDING_APPROVAL, BLOCKED, FAILED}
      ensures outcome == SUCCESS <==> !prepared
      ensures prepared ==> (outcome == PENDING_APPROVAL <==> GoodCandidate(f)) && (outcome == BLOCKED <==> BlockedCandidate(f))
      ensures proc.Running() && prepared ==>
                && Prepared(outcome, rid, (f.target, f.source), store.attempts, store.candidates)
                && |store.attempts| == |old(store.attempts)| + 1
                && About(store.attempts[|old(store.attempts)|], f.target, f.source)
      ensures !prepared ==> store.attempts == old(store.attempts) && store.candidates == old(store.candidates)
      ensures !prepared && RequiredPass(old(store.checks), rid) ==> RequiredPass(store.checks, rid)
    {
      hide Lasting, PastKept, Excepted, RequiredPass, Noted, Prepared, GoodCandidate, BlockedCandidate;
      Announced(rid, f);
      outcome, prepared := SUCCESS, false;
      if f.hermesUp {
        if !skip && f.resources && enablePrepare {
          prepared := true;
          outcome := PrepareHermes(rid, f);
        } else {
          Note(rid, OfHermes, "preparation", SKIPPED, false);
        }
      }
    }

    /** The news, and the auxiliary updates. */
    method Announced(rid: RunId, f: Findings)
      requires Preparing(rid)
      modifies store`runs, store`checks, proc`alive, proc`raised, proc`fate
      ensures Preparing(rid) && store.Boundary(old(proc.Running()), old(proc.ticking))
      ensures RequiredPass(old(store.checks), rid) ==> RequiredPass(store.checks, rid)
    {
      hide Lasting, PastKept, Excepted, RequiredPass, Noted;
      To(rid, UPDATES_AVAILABLE);
      To(rid, NOTIFY_AVAILABLE);
      if f.auxUp {
        if f.resources && enableAux {
          To(rid, AUX_UPDATES);
        }
        Note(rid, OfAux, "update", if f.resources && enableAux then f.aux else SKIPPED, false);
      }
    }

    // ----------------------------------------------------------------
    // apply
    // ----------------------------------------------------------------

    /** `consume_approval`, as the orchestrator uses it. */
    method Consume(code: Code) returns (first: bool)
      requires Durable()
      modifies store`consumed, proc`alive, proc`raised, proc`fate
      ensures Durable() && store.Boundary(old(proc.Running()), old(proc.ticking))
      ensures first <==> code !in old(store.consumed)
      ensures first ==> Ungranted(code)
      ensures proc.Running() ==> code in store.consumed
    {
      hide Books, OnePending, Signed, Recoverable, NoRepeats, Lawful, RunsFailOnce, StateTells, Failures;
      first := store.ConsumeApproval(code);
    }

    /** `deploy` was never called for this candidate. */
    ghost predicate Ungranted(code: Code)
      reads this`grants
    {
      forall i :: 0 <= i < |grants| ==> grants[i].code != code
    }

    /** The gate of `_apply`: which candidate may be deployed, its approval consumed. */
    method Authorise(rid: RunId, wanted: Option<Code>, automatic: bool, approval: Approval)
      returns (granted: Option<Code>, ghost grant: Grant)
      requires Preparing(rid) && store.runs[rid].data == NO_DATA && (automatic ==> autoApply)
      modifies store`runs, store`checks, store`candidates, store`consumed, proc`alive, proc`raised, proc`fate, proc`ticking, proc`clock
      ensures Preparing(rid) && store.Boundary(old(proc.Running()), old(proc.ticking))
      ensures store.runs[rid].data == NO_DATA
      ensures granted.Some? && proc.Running() ==>
                && granted.value in PendingCodes(store.candidates)
                && granted.value in store.consumed && granted.value !in old(store.consumed)
                && grant.code == granted.value && grant.payload == store.candidates[granted.value].payload
                && grant.automatic == automatic && grant.checkedAt == proc.clock
                && Lawful(grant, autoApply) && Ungranted(grant.code)
      ensures granted.Some? && RequiredPass(old(store.checks), rid) ==> RequiredPass(store.checks, rid)
      ensures granted.None? && proc.Running() ==> !RequiredPass(store.checks, rid)
      ensures proc.ticking ==> old(proc.clock) <= proc.clock
      ensures granted.Some? <==>
                Admits(old(store.candidates), old(store.consumed), wanted, automatic, approval, proc.clock, approvalTtl)
      ensures granted.Some? ==>
                MayDeploy(old(store.candidates), old(store.consumed), granted.value, wanted, automatic, approval, proc.clock, approvalTtl)
      ensures proc.Running() ==>
                && store.candidates.Keys == old(store.candidates).Keys
                && forall c :: c in old(store.candidates) ==>
                     store.candidates[c] ==
                     if IsMeant(old(store.candidates), c, wanted) && old(store.candidates)[c].payload.expiresAt < proc.clock
                     then old(store.candidates)[c].(status := EXPIRED) else old(store.candidates)[c]
    {
      hide Lasting, PastKept, Excepted, RequiredPass, Noted, Attests, IsMeant, Admits, MayDeploy, Lawful, PendingCodes, Ungranted;
      ghost var candidates, consumed := store.candidates, store.consumed;
      var found := Find(rid, wanted);
      if found.None? {
        GateIsExact(candidates, consumed, found, wanted, automatic, approval, proc.clock, approvalTtl);
        OnlyExpired(candidates, store.candidates, found, wanted, proc.clock);
        return None, Grant(Code(Payload(0, "", 0, 0, 0, 0)), Payload(0, "", 0, 0, 0, 0), EXPIRED, proc.clock, automatic, false);
      }
      MeantIs(candidates, found.value, wanted);
      var passed;
      passed, grant := Pass(rid, found.value, automatic, approval);
      GateIsExact(candidates, consumed, found, wanted, automatic, approval, proc.clock, approvalTtl);
      if proc.Running() {
        OnlyExpired(candidates, store.candidates, found, wanted, proc.clock);
      }
      granted := if passed then found else None;
    }

    /** The gate, on the candidate it is about: attested, and its approval used up. */
    method Pass(rid: RunId, code: Code, automatic: bool, approval: Approval) returns (passed: bool, ghost grant: Grant)
      requires Preparing(rid) && store.runs[rid].data == NO_DATA && (automatic ==> autoApply)
      requires code in store.candidates && store.candidates[code].status == PENDING
      requires CandidateCode(store.candidates[code].payload) == code
      modifies store`checks, store`candidates, store`consumed, proc`alive, proc`raised, proc`fate, proc`ticking, proc`clock
      ensures Preparing(rid) && store.Boundary(old(proc.Running()), old(proc.ticking))
      ensures proc.ticking ==> old(proc.clock) <= proc.clock
      ensures passed <==>
                && (automatic || Attests(approval, code, old(store.candidates)[code].payload, proc.clock, approvalTtl))
                && proc.clock <= old(store.candidates)[code].payload.expiresAt && code !in old(store.consumed)
      ensures store.candidates ==
              if proc.Running() && old(store.candidates)[code].payload.expiresAt < proc.clock
              then old(store.candidates)[code := old(store.candidates)[code].(status := EXPIRED)] else store.candidates
      ensures proc.Running() && proc.clock <= old(store.candidates)[code].payload.expiresAt ==> store.candidates == old(store.candidates)
      ensures passed && proc.Running() ==>
                && code in store.consumed && grant.code == code && grant.payload == store.candidates[code].payload
                && grant.automatic == automatic && grant.checkedAt == proc.clock
                && Lawful(grant, autoApply) && Ungranted(code)
      ensures passed && RequiredPass(old(store.checks), rid) ==> RequiredPass(store.checks, rid)
      ensures !passed && proc.Running() ==> !RequiredPass(store.checks, rid)
    {
      hide Lasting, PastKept, Excepted, RequiredPass, Noted, Attests, Lawful, Ungranted;
      var row := store.candidates[code];
      var now, attested, ok := Attested(rid, code, row.payload, automatic, approval);
      grant := Grant(code, row.payload, row.status, now, automatic, attested);
      if !ok {
        return false, grant;
      }
      passed := Consume(code);
      Note(rid, OfApproval, "single_use", if passed then PASS else BLOCKED_, true);
      GrantIsLawful(grant, autoApply);
    }

    /** The candidate wanted, or the pending one: intact and pending, or none. */
    method Find(rid: RunId, wanted: Option<Code>) returns (granted: Option<Code>)
      requires Preparing(rid) && store.runs[rid].data == NO_DATA
      modifies store`runs, store`checks, proc`alive, proc`raised, proc`fate
      ensures Preparing(rid) && store.Boundary(old(proc.Running()), old(proc.ticking))
      ensures store.runs[rid].data == NO_DATA
      ensures granted.Some? ==> IsMeant(store.candidates, granted.value, wanted) && store.checks == old(store.checks)
      ensures granted.None? && proc.Running() ==> !RequiredPass(store.checks, rid)
      ensures forall c :: IsMeant(store.candidates, c, wanted) ==> granted == Some(c)
    {
      hide Lasting, PastKept, Excepted, RequiredPass, Noted, IsMeant, OnePending, Signed, PendingCodes;
      Kept();
      To(rid, AUTHORIZATION_GATE);
      var pending := store.PendingCandidate();
      var found := if wanted.None? then pending else if wanted.value in store.candidates then wanted else None;
      WhoIsMeant(store.candidates, wanted, pending);
      if found.None? {
        Note(rid, OfApproval, "candidate", BLOCKED_, true);
        return None;
      }
      var code := found.value;
      var row := store.candidates[code];
      if row.status != PENDING || CandidateCode(row.payload) != code {
        Note(rid, OfApproval, "candidate", BLOCKED_, true);
        return None;
      }
      granted := found;
    }

    lemma Kept()
      requires Durable()
      ensures OnePending(store.candidates) && Signed(store.candidates)
    {
    }

    /** The second factor, or the policy; an expired candidate is withdrawn. */
    method Attested(rid: RunId, code: Code, payload: Payload, automatic: bool, approval: Approval)
      returns (now: int, attested: bool, ok: bool)
      requires Preparing(rid)
      modifies store`checks, store`candidates, proc`alive, proc`raised, proc`fate, proc`ticking, proc`clock
      ensures Preparing(rid) && store.Boundary(old(proc.Running()), old(proc.ticking))
      ensures now == proc.clock && (proc.ticking ==> old(proc.clock) < now)
      ensures attested <==> Attests(approval, code, payload, now, approvalTtl)
      ensures ok <==> (automatic || attested) && now <= payload.expiresAt
      ensures store.candidates ==
              if payload.expiresAt < now && proc.Running() && code in old(store.candidates)
              then old(store.candidates)[code := old(store.candidates)[code].(status := EXPIRED)]
              else old(store.candidates)
      ensures ok && RequiredPass(old(store.checks), rid) ==> RequiredPass(store.checks, rid)
      ensures !ok && proc.Running() ==> !RequiredPass(store.checks, rid)
    {
      hide Lasting, PastKept, Excepted, RequiredPass, Noted;
      now := Now();
      attested := CheckApproval(approval, code, payload, now, approvalTtl);
      var expired := payload.expiresAt < now;
      ok := !expired && (automatic || attested);
      Note(rid, OfApproval, "attestation", if ok then PASS else BLOCKED_, true);
      if !ok && expired {
        SetStatus(code, EXPIRED);
      }
    }

    /** `_apply`. */
    method ApplyBody(rid: RunId, wanted: Option<Code>, automatic: bool, approval: Approval, telegram: bool)
      returns (outcome: Outcome, ghost t: Trace)
      requires Preparing(rid) && store.runs[rid].data == NO_DATA && base == host.prod && (automatic ==> autoApply)
      requires RequiredPass(store.checks, rid)
      modifies this`grants, this`deploying, store, host`prod, host`record, proc`alive, proc`raised, proc`fate, proc`ticking, proc`clock
      ensures InRun(rid) && store.Boundary(old(proc.Running()), old(proc.ticking))
      ensures proc.Running() ==> OutcomeTells(outcome, store.runs[rid].data, base, host.prod)
      ensures outcome in {SUCCESS, BLOCKED, FAILED, ROLLED_BACK, RECOVERY_FAILED}
      ensures outcome == SUCCESS ==> RequiredPass(store.checks, rid)
      ensures Grew(old(grants), grants)
      ensures proc.ticking ==> old(proc.clock) <= t.looked <= proc.clock
      ensures proc.Running() ==>
                (grants != old(grants) <==>
                   Admits(old(store.candidates), old(store.consumed), wanted, automatic, approval, t.looked, approvalTtl))
      ensures t.asked == old(host.record)
      ensures proc.Running() ==> ApplyTells(outcome, telegram, store.runs[rid].data, base, t, host.record)
      ensures proc.Running() && grants != old(grants) ==> store.runs[rid].data.payload == Some(grants[|grants| - 1].payload)
      ensures proc.Running() && grants != old(grants) ==>
                var code := grants[|grants| - 1].code;
                && code in store.candidates
                && (store.candidates[code].status == REFUSED <==> outcome == BLOCKED)
                && (store.candidates[code].status == DEPLOYED <==> outcome == SUCCESS || outcome == FAILED)
                && (store.candidates[code].status == REVERTED <==> outcome == ROLLED_BACK || outcome == RECOVERY_FAILED)
      ensures proc.Running() && proc.ticking && Failure(outcome) ==> FirstFailure(past, store.runs[rid].data, store.attempts)
    {
      hide Lasting, PastKept, Excepted, RequiredPass, TellsTheTruth, Lawful, OutcomeTells, PairOf, FirstFailure, Told, Admits;
      var granted;
      ghost var grant;
      granted, grant := Authorise(rid, wanted, automatic, approval);
      t := Trace(proc.clock, false, host.record, host.record);
      if granted.None? || !proc.Running() {
        Refused(rid);
        outcome := BLOCKED;
        return;
      }
      ghost var undoing;
      outcome, undoing := Deploying(rid, granted.value, store.candidates[granted.value].payload, grant, telegram);
      t := t.(undoing := undoing);
    }

    /** `_apply`, once allowed. */
    method Deploying(rid: RunId, code: Code, payload: Payload, ghost grant: Grant, telegram: bool)
      returns (outcome: Outcome, ghost undoing: Record)
      requires Preparing(rid) && store.runs[rid].data == NO_DATA && base == host.prod
      requires code in PendingCodes(store.candidates) && code in store.candidates && store.candidates[code].payload == payload
      requires Lawful(grant, autoApply) && grant.code == code && grant.payload == payload && code in store.consumed && Ungranted(code)
      modifies this`grants, this`deploying, store, host`prod, host`record, proc`alive, proc`raised, proc`fate, proc`ticking, proc`clock
      ensures InRun(rid) && store.Boundary(old(proc.Running()), old(proc.ticking))
      ensures proc.Running() ==> OutcomeTells(outcome, store.runs[rid].data, base, host.prod)
      ensures outcome in {SUCCESS, BLOCKED, FAILED, ROLLED_BACK, RECOVERY_FAILED}
      ensures outcome == SUCCESS && RequiredPass(old(store.checks), rid) ==> RequiredPass(store.checks, rid)
      ensures proc.Running() ==>
                && store.runs[rid].data.payload == Some(payload)
                && ApplyTells(outcome, telegram, store.runs[rid].data, base, Trace(0, false, old(host.record), undoing), host.record)
      ensures grants == old(grants) || grants == old(grants) + [grant]
      ensures proc.Running() ==> grants == old(grants) + [grant]
      ensures proc.ticking ==> old(proc.clock) <= proc.clock
      ensures proc.Running() ==> code in store.candidates && store.candidates[code].status == Spent(outcome)
      ensures proc.Running() && proc.ticking && Failure(outcome) ==> FirstFailure(past, store.runs[rid].data, store.attempts)
    {
      hide Lasting, PastKept, Excepted, RequiredPass, Noted, TellsTheTruth, AllPass, Lawful, OutcomeTells, PendingCodes, PairOf, Spent, FirstFailure, Told,
           ApplyTells, Later, UndoneFrom, AtSource, NoNo, NotBegun;
      undoing := host.record;
      outcome := FAILED;
      Attach(rid, payload);
      To(rid, CONTROLLED_DEPLOYMENT);
      if !proc.Running() {
        return;
      }
      ghost var asked := host.record;
      var res;
      res, undoing := Invoke(rid, payload, grant);
      if !proc.Running() {
        return;
      }
      SuccessPasses(res, payload, base, host.prod,
                    if res.rolledBack.Some? then store.runs[rid].data.rollbackPoint.value.savedUnits else map[]);
      NoteSteps(rid, res.steps);
      Note(rid, OfDeploy, "telegram_route", VerdictOf(telegram), true);
      if !proc.Running() {
        return;
      }
      outcome := Conclude(rid, code, payload, res, telegram);
      ByWhatWasRefused(outcome, telegram, res, payload, store.runs[rid].data, base, asked, undoing, host.record);
    }

    /** Nothing was deployed: blocked tells the truth. */
    lemma Refused(rid: RunId)
      requires InRun(rid) && base == host.prod
      ensures OutcomeTells(BLOCKED, store.runs[rid].data, base, host.prod)
    {
    }

    /** The payload, stored with the run before anything is deployed. */
    method Attach(rid: RunId, payload: Payload)
      requires Preparing(rid) && store.runs[rid].data == NO_DATA
      modifies store`runs, proc`alive, proc`raised, proc`fate
      ensures Preparing(rid) && store.Boundary(old(proc.Running()), old(proc.ticking))
      ensures proc.Running() ==> store.runs[rid].data == RunData(None, None, Some(payload))
    {
      hide OnePending, Signed, SingleUse, NoRepeats, RequiredPass, Untouched, Failures;
      store.MergeData(rid, RunData(None, None, Some(payload)));
    }

    /** The one call of `deploy`. */
    method Invoke(rid: RunId, payload: Payload, ghost grant: Grant) returns (res: DeployResult, ghost undoing: Record)
      requires InRun(rid) && store.runs[rid].data == RunData(None, None, Some(payload)) && base == host.prod && proc.Running()
      requires DeployState(store.runs[rid].state) && grant.payload == payload
      requires Lawful(grant, autoApply) && grant.code in store.consumed && Ungranted(grant.code)
      modifies this`grants, this`deploying, store`runs, host`prod, host`record, proc`alive, proc`raised, proc`fate
      ensures InRun(rid) && store.Boundary(old(proc.Running()), old(proc.ticking))
      ensures grants == old(grants) + [grant] && deploying
      ensures store.runs[rid].data.payload == Some(payload)
      ensures proc.Running() && res.rolledBack.Some? ==> store.runs[rid].data.rollbackPoint.Some?
      ensures proc.Running() ==>
                && (Succeeded(res) <==> AtSource(payload, base) && NoNo(old(host.record), host.record))
                && (res.deployed <==> !NotBegun(store.runs[rid].data))
                && (res.deployed && !Succeeded(res) ==>
                      Later(old(host.record), undoing) && UndoneFrom(undoing, host.record, res))
      ensures proc.Running() ==>
                TellsTheTruth(res, payload, base, host.prod,
                              if res.rolledBack.Some? then store.runs[rid].data.rollbackPoint.value.savedUnits else map[])
    {
      hide OnePending, Signed, NoRepeats, RequiredPass, Recoverable, Lawful, Failures, Told, TellsTheTruth, UndoneFrom, Later;
      var saved: map<string, string> := *;
      ghost var early;
      res, early, undoing := Deploy(host, store, rid, payload, saved);
      OneMoreGrant(grants, store.consumed, autoApply, grant);
      grants, deploying := grants + [grant], true;
      if proc.Running() && res.rolledBack.None? {
        UnitsIrrelevant(res, payload, base, host.prod, saved, map[]);
      }
    }

    /** Each step becomes a required check with its verdict, the later of two of one name. */
    method NoteSteps(rid: RunId, steps: seq<Step>)
      requires InRun(rid)
      modifies store`checks, proc`alive, proc`raised, proc`fate
      ensures InRun(rid) && store.Boundary(old(proc.Running()), old(proc.ticking))
      ensures AllPass(steps) && RequiredPass(old(store.checks), rid) ==> RequiredPass(store.checks, rid)
      ensures proc.Running() ==>
                forall i :: 0 <= i < |steps| && LastOfItsName(steps, i) ==>
                              CheckKey(rid, OfDeploy, steps[i].name) in store.checks
                              && store.checks[CheckKey(rid, OfDeploy, steps[i].name)] == Check(steps[i].verdict, true)
    {
      hide Lasting, PastKept, Excepted, RequiredPass;
      for i := 0 to |steps|
        invariant proc.Running() ==>
                    forall k :: 0 <= k < i && LastOfItsName(steps, k) ==>
                                  CheckKey(rid, OfDeploy, steps[k].name) in store.checks
                                  && store.checks[CheckKey(rid, OfDeploy, steps[k].name)] == Check(steps[k].verdict, true)
        invariant InRun(rid) && store.Boundary(old(proc.Running()), old(proc.ticking))
        invariant AllPass(steps) && RequiredPass(old(store.checks), rid) ==> RequiredPass(store.checks, rid)
      {
        Note(rid, OfDeploy, steps[i].name, steps[i].verdict, true);
      }
    }

    /** The end of `_apply`: status, outcome, and the attempt that keeps a failed pair from
        being prepared again. */
    method Conclude(rid: RunId, code: Code, payload: Payload, res: DeployResult, telegram: bool) returns (outcome: Outcome)
      requires InRun(rid) && store.runs[rid].data.payload == Some(payload) && proc.Running()
      requires code in PendingCodes(store.candidates)
      requires code in store.candidates && store.candidates[code].payload == payload
      requires res.rolledBack.Some? ==> store.runs[rid].data.rollbackPoint.Some?
      requires TellsTheTruth(res, payload, base, host.prod,
                             if res.rolledBack.Some? then store.runs[rid].data.rollbackPoint.value.savedUnits else map[])
      modifies store`runs, store`candidates, store`attempts, proc`alive, proc`raised, proc`fate, proc`ticking, proc`clock
      ensures InRun(rid) && store.Boundary(old(proc.Running()), old(proc.ticking))
      ensures proc.ticking ==> old(proc.clock) <= proc.clock
      ensures OutcomeTells(outcome, store.runs[rid].data, base, host.prod)
      ensures outcome in {SUCCESS, BLOCKED, FAILED, ROLLED_BACK, RECOVERY_FAILED}
      ensures outcome == BLOCKED <==> !res.deployed
      ensures outcome == SUCCESS <==> Succeeded(res) && telegram
      ensures outcome == FAILED <==> Succeeded(res) && !telegram
      ensures outcome == ROLLED_BACK <==> res.recoveryOk == Some(true)
      ensures outcome == RECOVERY_FAILED <==> res.recoveryOk == Some(false)
      ensures store.runs[rid].data == old(store.runs[rid].data)
      ensures proc.Running() ==> code in store.candidates && store.candidates[code].status == Spent(outcome)
      ensures proc.ticking && proc.Running() && Failure(outcome) ==> FirstFailure(past, store.runs[rid].data, store.attempts)
    {
      hide Lasting, PastKept, Excepted, TellsTheTruth, OutcomeTells, PendingCodes, PairOf, FirstFailure, Failures, Told;
      outcome := OutcomeOf(res, telegram);
      TheTruthIsTold(res, telegram, payload, store.runs[rid].data, base, host.prod);
      if !res.deployed {
        SetStatus(code, REFUSED);
      } else if res.rolledBack.None? && res.postOk == Some(true) {
        SetStatus(code, DEPLOYED);
      } else {
        Failed(rid, code, payload);
      }
      Reported(rid, outcome);
    }

    /** The last states of an application, with an outcome that is true. */
    method Reported(rid: RunId, outcome: Outcome)
      requires InRun(rid) && OutcomeTells(outcome, store.runs[rid].data, base, host.prod)
      requires outcome in {SUCCESS, BLOCKED, FAILED, ROLLED_BACK, RECOVERY_FAILED}
      modifies store`runs, proc`alive, proc`raised, proc`fate
      ensures InRun(rid) && store.Boundary(old(proc.Running()), old(proc.ticking))
      ensures store.runs[rid].data == old(store.runs[rid].data)
    {
      hide Lasting, PastKept, Excepted, OutcomeTells, Told;
      OneOfThem(outcome, store.runs[rid].data, base, host.prod);
      To(rid, TELEGRAM_REPORT);
      if outcome == SUCCESS {
        To(rid, COMPLETE);
      }
    }

    /** The failure of the run in progress, the first on its pair. */
    method Failed(rid: RunId, code: Code, payload: Payload)
      requires InRun(rid) && store.runs[rid].data.payload == Some(payload) && proc.Running()
      requires code in PendingCodes(store.candidates)
      requires code in store.candidates && store.candidates[code].payload == payload
      modifies store`candidates, store`attempts, proc`alive, proc`raised, proc`fate, proc`ticking, proc`clock
      ensures InRun(rid) && store.Boundary(old(proc.Running()), old(proc.ticking))
      ensures proc.ticking ==> old(proc.clock) <= proc.clock
      ensures proc.Running() ==> code in store.candidates && store.candidates[code].status == REVERTED
      ensures proc.ticking && proc.Running() ==> FirstFailure(past, store.runs[rid].data, store.attempts)
    {
      hide Lasting, PendingCodes, PairOf, FirstFailure, Failures, RunsFailOnce, FailsOnce;
      if proc.ticking {
        RunsSoFar();
      }
      ghost var before := store.attempts;
      RememberFailure(code, payload);
      if proc.ticking && proc.Running() {
        NotYetFailed(store.runs, past, before, store.attempts, store.runs[rid].data);
      }
    }

    lemma RunsSoFar()
      requires Durable() && proc.ticking
      ensures RunsFailOnce(store.runs, Failures(store.attempts)) && FailsOnce(store.runs)
    {
    }

    /** A deployment that did not hold: the candidate is spent, and the pair remembered. These
        are two commits. */
    method RememberFailure(code: Code, payload: Payload)
      requires Durable() && proc.Running()
      requires code in PendingCodes(store.candidates)
      requires code in store.candidates && store.candidates[code].payload == payload
      modifies store`candidates, store`attempts, proc`alive, proc`raised, proc`fate, proc`ticking, proc`clock
      ensures Durable() && store.Boundary(old(proc.Running()), old(proc.ticking))
      ensures proc.Running() <==> 2 <= old(proc.fate)
      ensures proc.ticking ==> old(proc.clock) < proc.clock && PairOf(payload) !in Failures(old(store.attempts))
      ensures store.candidates ==
              if 1 <= old(proc.fate) then old(store.candidates)[code := old(store.candidates)[code].(status := REVERTED)]
              else old(store.candidates)
      ensures 1 <= old(proc.fate) ==> PendingCodes(store.candidates) == {}
      ensures store.attempts ==
              if 2 <= old(proc.fate)
              then old(store.attempts) + [Attempt(payload.target, payload.source, proc.clock, AttemptRolledBack, false)]
              else old(store.attempts)
      ensures 2 <= old(proc.fate) ==> Failures(store.attempts) == Failures(old(store.attempts)) + [PairOf(payload)]
    {
      hide Books, Signed, SingleUse, Recoverable, NoRepeats, RunsFailOnce, StateTells, Failures;
      if proc.ticking {
        NotBurnt(store.attempts, store.candidates, proc.clock, code);
      }
      SetStatus(code, REVERTED);
      assert proc.Running() ==> PendingCodes(store.candidates) == {};
      ghost var before, clock := store.attempts, proc.clock;
      store.RecordAttempt(payload.target, payload.source, AttemptRolledBack, false);
      if proc.Running() {
        OneMoreFailure(before, store.attempts[|store.attempts| - 1]);
      }
      if proc.ticking {
        if proc.Running() {
          AttemptBurns(before, store.candidates, clock, store.attempts[|store.attempts| - 1]);
          StillFailed(store.runs, Failures(before), Failures(store.attempts));
        } else {
          ClockMoves(before, store.candidates, clock, proc.clock);
        }
      }
    }

    // ----------------------------------------------------------------
    // Reconciliation, the guard, and the entry points
    // ----------------------------------------------------------------

    /** `reconcile`: every open run; there is at most one. */
    method Reconcile() returns (rec: Recovery)
      requires Durable()
      modifies store`runs, store`checks, host`prod, host`record, proc`alive, proc`raised, proc`fate
      ensures Durable() && store.Boundary(old(proc.Running()), old(proc.ticking))
      ensures ClosedStay(old(store.runs), store.runs) && |store.runs| == |old(store.runs)|
      ensures proc.Running() ==> forall i :: 0 <= i < |store.runs| ==> store.runs[i].outcome.Some?
      ensures proc.Running() && old(store.runs) != [] && old(store.runs)[|old(store.runs)| - 1].outcome.None? ==>
                var last := old(store.runs)[|old(store.runs)| - 1];
                && store.runs[|store.runs| - 1].outcome == Some(INTERRUPTED) && Ended(rec, last, base, host.prod)
                && (if DeployState(last.state)
                    then EndsAs(rec, last.data, base, old(host.prod), host.prod, old(host.record), host.record)
                    else host.prod == old(host.prod))
    {
      hide Lasting, PastKept, Excepted, Ended, EndsAs;
      rec := NothingToUndo;
      var n := |store.runs|;
      OnlyLastOpen();
      for i := 0 to n
        invariant Durable() && store.Boundary(old(proc.Running()), old(proc.ticking)) && |store.runs| == n == |old(store.runs)|
        invariant i < n ==> store.runs == old(store.runs) && host.prod == old(host.prod) && host.record == old(host.record)
        invariant ClosedStay(old(store.runs), store.runs)
        invariant i == n && 0 < n && proc.Running() ==> store.runs[n - 1].outcome.Some? && store.runs[..n - 1] == old(store.runs)[..n - 1]
        invariant i == n && 0 < n && proc.Running() && old(store.runs)[n - 1].outcome.None? ==>
                    && store.runs[n - 1].outcome == Some(INTERRUPTED) && Ended(rec, old(store.runs)[n - 1], base, host.prod)
                    && (if DeployState(old(store.runs)[n - 1].state)
                        then EndsAs(rec, old(store.runs)[n - 1].data, base, old(host.prod), host.prod, old(host.record), host.record)
                        else host.prod == old(host.prod))
      {
        if store.IsOpen(i) {
          rec := Interrupted(i);
        }
      }
      assert forall i :: 0 <= i < n - 1 ==> old(store.runs)[..n - 1][i] == old(store.runs)[i];
    }

    lemma OnlyLastOpen()
      requires Durable()
      ensures forall i :: 0 <= i < |store.runs| - 1 ==> store.runs[i].outcome.Some?
    {
    }

    /** The last run, whose process died. */
    method Interrupted(rid: RunId) returns (rec: Recovery)
      requires Durable() && rid == |store.runs| - 1 && store.IsOpen(rid)
      modifies store`runs, store`checks, host`prod, host`record, proc`alive, proc`raised, proc`fate
      ensures Durable() && store.Boundary(old(proc.Running()), old(proc.ticking))
      ensures |store.runs| == rid + 1 && store.runs[..rid] == old(store.runs)[..rid]
      ensures proc.Running() ==>
                && store.runs[rid].outcome == Some(INTERRUPTED)
                && Ended(rec, old(store.runs)[rid], base, host.prod)
                && (if DeployState(old(store.runs)[rid].state)
                    then EndsAs(rec, old(store.runs)[rid].data, base, old(host.prod), host.prod, old(host.record), host.record)
                    else host.prod == old(host.prod))
    {
      hide OnePending, Signed, SingleUse, NoRepeats, RequiredPass, Recoverable, Recovered, Told, Failures, RunsFailOnce, EndsAs;
      ghost var before := store.runs;
      rec := RecoverRun(host, store, rid, base);
      if proc.Running() && proc.ticking {
        OneMoreClosed(before, rid, INTERRUPTED, store.attempts);
      }
    }

    /** A new run, on production as it is now. */
    method Begin(kind: string) returns (rid: RunId)
      requires Durable() && (proc.Running() ==> forall i :: 0 <= i < |store.runs| ==> store.runs[i].outcome.Some?)
      modifies this`base, this`past, this`deploying, store`runs, proc`alive, proc`raised, proc`fate
      ensures Durable() && store.Boundary(old(proc.Running()), old(proc.ticking))
      ensures rid == |old(store.runs)| && past == old(store.runs)
      ensures old(store.runs) <= store.runs
      ensures proc.Running() ==>
                Preparing(rid) && store.runs[rid].data == NO_DATA && base == host.prod && RequiredPass(store.checks, rid)
    {
      hide Lasting, RequiredPass, Excepted, Between;
      WhatLasts();
      past := store.runs;
      rid := store.OpenRun(kind);
      if proc.Running() {
        base, deploying := host.prod, false;
        Afresh(past, rid);
        assert store.runs[..rid] == past;
      }
    }

    /** What lasts whatever run is open. */
    ghost predicate Between(runs: seq<Run>)
      reads this`grants, store`checks, store`candidates, store`consumed, store`attempts, proc`ticking, proc`clock
    {
      && Books(runs, store.checks) && OnePending(store.candidates) && Signed(store.candidates)
      && SingleUse(grants, store.consumed, autoApply)
      && (proc.ticking ==>
            NoRepeats(store.attempts, store.candidates, proc.clock) && RunsFailOnce(runs, Failures(store.attempts)))
    }

    lemma WhatLasts()
      requires Durable()
      ensures Between(store.runs)
    {
    }

    /** A run just opened, nothing done. */
    lemma Afresh(before: seq<Run>, rid: RunId)
      requires store.proc == proc && host.proc == proc && Between(before)
      requires forall i :: 0 <= i < |before| ==> before[i].outcome.Some?
      requires rid == |before| && |store.runs| == rid + 1 && store.runs == before + [store.runs[rid]]
      requires store.runs[rid].outcome.None? && store.runs[rid].data == NO_DATA
      requires base == host.prod && !deploying
      ensures Lasting() && RequiredPass(store.checks, rid) && !Excepted(store.checks, rid)
    {
      hide OnePending, Signed, SingleUse, NoRepeats, RequiredPass, Books, Failures, Excepted, RunsFailOnce, Recoverable, StateTells;
      OneMoreRun(before, store.checks, store.runs[rid]);
      NothingNoted(before, store.checks);
      if proc.ticking {
        OneMoreOpen(before, store.runs[rid], Failures(store.attempts));
      }
      NothingDone(store.runs[rid], host.prod);
    }

    /** `_guarded`. A run whose process survives is closed, once, with the outcome that is
        returned; and green only with every required check at PASS, whatever the body
        claimed and however it ended. */
    method Guarded(job: Job) returns (rid: RunId, outcome: Outcome, ghost t: Trace)
      requires Durable() && proc.Running() && !proc.guarded
      modifies this, store, host`prod, host`record, proc
      ensures Durable() && (proc.ticking ==> old(proc.ticking)) && (proc.Running() ==> !proc.guarded)
      ensures ClosedStay(old(store.runs), store.runs)
      ensures proc.Running() ==>
                && |store.runs| == |old(store.runs)| + 1 && rid == |old(store.runs)|
                && store.runs[rid].outcome == Some(outcome)
                && (Green(outcome) ==> RequiredPass(store.checks, rid))
                && (job.Daily? ==> host.prod == base)
                && (Excepted(store.checks, rid) ==> outcome == FAILED)
                && (job.Apply? && !Excepted(store.checks, rid) ==>
                      OutcomeTells(outcome, store.runs[rid].data, base, host.prod))
                && (job.Apply? && outcome == FAILED ==>
                      FailedLeaves(Excepted(store.checks, rid), store.runs[rid].data, base, host.prod))
      ensures Grew(old(grants), grants) && (job.Daily? ==> grants == old(grants))
      ensures proc.Running() && !Excepted(store.checks, rid) ==>
                && (job.Daily? ==> DailyTells(outcome, job.found, t.prepared, dailyBackup))
                && (job.Daily? && proc.ticking ==>
                      (t.prepared <==> ToPrepare(job.found, old(store.attempts), old(store.candidates), t.looked)))
                && (job.Apply? ==>
                      (grants != old(grants) <==>
                         Admits(old(store.candidates), old(store.consumed), job.wanted, job.automatic && autoApply,
                                job.approval, t.looked, approvalTtl))
                      && (grants != old(grants) ==> store.runs[rid].data.payload == Some(grants[|grants| - 1].payload))
                      && ApplyTells(outcome, job.telegram, store.runs[rid].data, base, t, host.record))
      ensures proc.Running() && proc.ticking ==> old(proc.clock) <= t.looked <= proc.clock
      ensures proc.Running() && job.Daily? && outcome == PENDING_APPROVAL ==>
                PendingFrom(store.candidates, rid, (job.found.target, job.found.source))
    {
      hide Lasting, PastKept, RequiredPass, OutcomeTells, Ended, Excepted, FirstFailure, FailedLeaves, Recoverable, Admits,
           ToPrepare, PendingFrom, DailyTells, ApplyTells;
      rid, outcome, t := |store.runs|, FAILED, Trace(proc.clock, false, host.record, host.record);
      var _ := Reconcile();
      rid := Begin(if job.Daily? then "daily" else "apply");
      if !proc.Running() {
        return;
      }
      outcome, t := Body(rid, job);
      ghost var told := outcome;
      outcome := Close(rid, outcome);
      if job.Daily? {
        NoneOther(told, job.found, t.prepared, dailyBackup);
      }
      if proc.Running() && job.Apply? && outcome == FAILED {
        WhatFailedLeaves(Excepted(store.checks, rid), store.runs[rid].data, base, host.prod);
      }
      assert store.runs[..rid] == past;
      StillClosed(old(store.runs), past, store.runs);
    }

    /** The body, with whatever exception it raises caught and recorded. */
    method Body(rid: RunId, job: Job) returns (outcome: Outcome, ghost t: Trace)
      requires Preparing(rid) && store.runs[rid].data == NO_DATA && base == host.prod && proc.Running() && !proc.guarded
      requires RequiredPass(store.checks, rid)
      modifies this`grants, this`deploying, store, host`prod, host`record, proc
      ensures Ongoing(rid) && (proc.ticking ==> old(proc.ticking)) && (proc.Running() ==> !proc.guarded)
      ensures proc.Running() && Excepted(store.checks, rid) ==> outcome == FAILED
      ensures proc.Running() && job.Apply? ==>
                && Recoverable(store.runs[rid].data, base, host.prod)
                && outcome in {SUCCESS, BLOCKED, FAILED, ROLLED_BACK, RECOVERY_FAILED}
                && (outcome == SUCCESS ==> RequiredPass(store.checks, rid))
                && (!Excepted(store.checks, rid) ==> OutcomeTells(outcome, store.runs[rid].data, base, host.prod))
      ensures proc.Running() && proc.ticking && Failure(outcome) ==> FirstFailure(past, store.runs[rid].data, store.attempts)
      ensures job.Daily? ==> host.prod == base && grants == old(grants)
      ensures Grew(old(grants), grants)
      ensures proc.Running() && !Excepted(store.checks, rid) ==>
                && (job.Daily? ==>
                      DailyTells(outcome, job.found, t.prepared, dailyBackup)
                      && (Green(outcome) ==> RequiredPass(store.checks, rid)))
                && (job.Daily? && proc.ticking ==>
                      (t.prepared <==> ToPrepare(job.found, old(store.attempts), old(store.candidates), t.looked)))
                && (job.Apply? ==>
                      (grants != old(grants) <==>
                         Admits(old(store.candidates), old(store.consumed), job.wanted, job.automatic && autoApply,
                                job.approval, t.looked, approvalTtl))
                      && (grants != old(grants) ==> store.runs[rid].data.payload == Some(grants[|grants| - 1].payload))
                      && ApplyTells(outcome, job.telegram, store.runs[rid].data, base, t, host.record))
      ensures proc.ticking ==> old(proc.clock) <= t.looked <= proc.clock
      ensures t.asked == old(host.record)
      ensures proc.Running() && job.Daily? && outcome == PENDING_APPROVAL ==>
                PendingFrom(store.candidates, rid, (job.found.target, job.found.source))
    {
      hide Lasting, PastKept, OutcomeTells, FirstFailure, RequiredPass, Excepted, Recoverable, Admits, ToPrepare, PendingFrom,
           DailyTells, ApplyTells;
      Guard(true);
      if job.Daily? {
        ghost var prepared, looked;
        outcome, prepared, looked := DailyBody(rid, job.found);
        NoneOther(outcome, job.found, prepared, dailyBackup);
        t := Trace(looked, prepared, host.record, host.record);
      } else {
        outcome, t := ApplyBody(rid, job.wanted, job.automatic && autoApply, job.approval, job.telegram);
      }
      var raised := Caught();
      if raised {
        NoteOwn(rid, "exception");
        outcome := FAILED;
      }
      WayBack(rid);
    }

    lemma WayBack(rid: RunId)
      requires Ongoing(rid)
      ensures Recoverable(store.runs[rid].data, base, host.prod)
    {
    }

    method Guard(on: bool)
      requires Durable()
      modifies proc`guarded
      ensures Durable() && proc.guarded == on
    {
      hide Books, OnePending, Signed, SingleUse, NoRepeats, Recoverable, RunsFailOnce, StateTells, Failures;
      proc.guarded := on;
    }

    /** Leaves the guard; true when an exception was on its way up. */
    method Caught() returns (raised: bool)
      requires Durable()
      modifies proc`guarded, proc`raised, proc`fate
      ensures Durable() && !proc.guarded
      ensures raised <==> old(proc.alive && proc.raised)
      ensures proc.Running() <==> raised || old(proc.Running())
    {
      hide Books, OnePending, Signed, SingleUse, NoRepeats, Recoverable, RunsFailOnce, StateTells, Failures;
      raised := proc.alive && proc.raised;
      if raised {
        proc.Catch();
      }
      proc.guarded := false;
    }

    /** Closing, and closing as failed what may not be closed green. */
    method Close(rid: RunId, claimed: Outcome) returns (outcome: Outcome)
      requires Ongoing(rid)
      requires proc.Running() && proc.ticking && Failure(claimed) ==> FirstFailure(past, store.runs[rid].data, store.attempts)
      modifies store`runs, store`checks, proc`alive, proc`raised, proc`fate
      ensures Durable() && store.Boundary(old(proc.Running()), old(proc.ticking))
      ensures |store.runs| == rid + 1 && store.runs[..rid] == past
      ensures store.runs[rid].data == old(store.runs)[rid].data
      ensures outcome != claimed <==> Green(claimed) && !RequiredPass(old(store.checks), rid)
      ensures outcome == claimed || outcome == FAILED
      ensures Excepted(store.checks, rid) <==> Excepted(old(store.checks), rid)
      ensures proc.Running() ==> store.runs[rid].outcome == Some(outcome) && (Green(outcome) ==> RequiredPass(store.checks, rid))
    {
      hide Lasting, RequiredPass, FirstFailure, Noted, Excepted;
      outcome := claimed;
      var refused := CloseAs(rid, claimed);
      if refused {
        NoteOwn(rid, "close");
        outcome := FAILED;
        refused := CloseAs(rid, FAILED);
      }
    }

    method CloseAs(rid: RunId, outcome: Outcome) returns (refused: bool)
      requires Ongoing(rid)
      requires proc.Running() && proc.ticking && Failure(outcome) ==> FirstFailure(past, store.runs[rid].data, store.attempts)
      modifies store`runs, proc`alive, proc`raised, proc`fate
      ensures Durable() && store.Boundary(old(proc.Running()), old(proc.ticking))
      ensures refused <==> Green(outcome) && !RequiredPass(store.checks, rid)
      ensures refused ==> Ongoing(rid)
      ensures |store.runs| == rid + 1 && store.runs[..rid] == past && store.runs[rid].data == old(store.runs)[rid].data
      ensures proc.Running() && !refused ==>
                store.runs[rid].outcome == Some(outcome) && (Green(outcome) ==> RequiredPass(store.checks, rid))
    {
      hide OnePending, Signed, SingleUse, NoRepeats, Recoverable, RequiredPass, Failures, RunsFailOnce, FirstFailure, StateTells;
      ghost var before := store.runs;
      assert before[..rid] == past;
      refused := store.CloseRun(rid, outcome);
      if proc.ticking && proc.Running() && !refused {
        OneMoreClosed(before, rid, outcome, store.attempts);
      }
    }

    /** `daily`: the run, and at once the automatic application of what it prepared, under a
        policy that says so. Without that policy, production is as it was found and nothing
        is deployed. */
    method DailyRun(f: Findings, telegram: bool) returns (rid: RunId, outcome: Outcome)
      requires Durable() && proc.Running() && !proc.guarded
      modifies this, store, host`prod, host`record, proc
      ensures Durable() && (proc.ticking ==> old(proc.ticking))
      ensures ClosedStay(old(store.runs), store.runs)
      ensures proc.Running() ==>
                && rid == |store.runs| - 1 && store.runs[rid].outcome == Some(outcome)
                && (Green(outcome) ==> RequiredPass(store.checks, rid))
                && |old(store.runs)| < |store.runs| <= |old(store.runs)| + 2
                && (|store.runs| == |old(store.runs)| + 2 <==>
                      autoApply && store.runs[|old(store.runs)|].outcome == Some(PENDING_APPROVAL))
      ensures Grew(old(grants), grants) && (!autoApply ==> grants == old(grants) && (proc.Running() ==> host.prod == base))
    {
      hide Lasting, PastKept, Excepted, RequiredPass, OutcomeTells, Admits, ToPrepare, DailyTells, ApplyTells;
      ghost var t;
      rid, outcome, t := Guarded(Daily(f));
      ghost var runs, first := store.runs, rid;
      if proc.Running() && outcome == PENDING_APPROVAL && autoApply {
        var pending := store.PendingCandidate();
        ghost var c :| PendingCodes(store.candidates) == {c} && store.candidates[c].run == rid;
        assert pending.Some? && pending.value in PendingCodes(store.candidates);
        if pending.Some? && store.candidates[pending.value].run == rid {
          rid, outcome, t := Guarded(Apply(pending, true, NoApproval, telegram));
        }
      }
    }

    /** `_revoke`, between runs: a pending candidate, and no other, stops being pending. */
    method Revoke(code: Code) returns (revoked: bool)
      requires Durable()
      modifies store`candidates, store`attempts, proc`alive, proc`raised, proc`fate, proc`ticking, proc`clock
      ensures Durable() && store.Boundary(old(proc.Running()), old(proc.ticking))
      ensures revoked <==> code in PendingCodes(old(store.candidates))
      ensures proc.Running() ==> PendingCodes(store.candidates) == PendingCodes(old(store.candidates)) - {code}
      ensures revoked && proc.Running() ==>
                store.candidates == old(store.candidates)[code := old(store.candidates)[code].(status := REVOKED)]
      ensures revoked && proc.Running() ==>
                var payload := old(store.candidates)[code].payload;
                store.attempts
                == old(store.attempts) + [Attempt(payload.target, payload.source, proc.clock, AttemptRevoked, false)]
      ensures !revoked ==> store.candidates == old(store.candidates) && store.attempts == old(store.attempts)
    {
      hide Books, Signed, SingleUse, NoRepeats, Recoverable, RunsFailOnce, StateTells, Failures;
      revoked := code in store.candidates && store.candidates[code].status == PENDING;
      if revoked {
        var payload := store.candidates[code].payload;
        if proc.ticking {
          NotBurnt(store.attempts, store.candidates, proc.clock, code);
        }
        SetStatus(code, REVOKED);
        Attempted(PairOf(payload), AttemptRevoked, false);
      }
    }

    /** The failed pair, in the eyes of the next process: once the wait after an attempt is over
        and the candidate expired, it is skipped exactly when the attempt was committed, which
        takes two more boundaries. A death or an exception before that lets the pair be
        prepared again. */
    method AfterAFailure(rid: RunId, code: Code, payload: Payload) returns (skip: bool)
      requires InRun(rid) && proc.Running()
      requires code in PendingCodes(store.candidates)
      requires code in store.candidates && store.candidates[code].payload == payload
      modifies store, host`prod, host`record, proc
      ensures Durable()
      ensures proc.Running() ==> |store.runs| == rid + 1 && store.runs[rid].outcome.Some?
      ensures proc.ticking && proc.clock - old(proc.clock) >= retryAfter && old(store.candidates[code].expiresAt) <= proc.clock ==>
                (skip <==> 2 <= old(proc.fate))
      ensures 2 <= old(proc.fate) && proc.ticking ==> skip
    {
      hide Lasting, PastKept, Excepted, RequiredPass, Ended, FirstFailure, Failures, Noted;
      ghost var clock, before, candidates := proc.clock, store.attempts, store.candidates;
      ghost var fate := proc.fate;
      if proc.ticking {
        OldAttempts();
      }
      OnlyPending(code);
      RememberFailure(code, payload);
      var raised := Caught();
      if raised {
        NoteOwn(rid, "exception");
        var _ := Close(rid, FAILED);
      }
      Boot();
      var _ := Reconcile();
      skip := HermesSkips(payload.target, payload.source);
      if proc.ticking {
        if 2 <= fate {
          OtherAttempt(before, store.attempts[|before|], PairOf(payload));
        } else if retryAfter <= proc.clock - clock && candidates[code].expiresAt <= proc.clock {
          NothingToSkip(before, store.candidates, PairOf(payload), clock, proc.clock, retryAfter);
        }
      }
    }

    lemma OldAttempts()
      requires Durable() && proc.ticking
      ensures Timed(store.attempts, proc.clock)
    {
    }

    lemma OnlyPending(code: Code)
      requires Durable() && code in PendingCodes(store.candidates)
      ensures PendingCodes(store.candidates) == {code}
    {
    }

    /** Any number of processes, one after another, each doing one thing, each dying where it
        may: what is durable stays so. */
    method Operate(n: nat)
      requires Durable()
      modifies this, store, host`prod, host`record, proc
      ensures Durable() && ClosedStay(old(store.runs), store.runs) && old(grants) <= grants
      ensures proc.ticking ==> FailsOnce(store.runs)
    {
      hide Lasting, PastKept, Excepted, RequiredPass, Noted;
      for i := 0 to n
        invariant Durable() && ClosedStay(old(store.runs), store.runs) && old(grants) <= grants
      {
        Boot();
        ghost var runs := store.runs;
        var choice: int := *;
        var telegram: bool := *;
        if choice == 0 {
          var found: Findings := *;
          var _, _ := DailyRun(found, telegram);
        } else if choice == 1 {
          var wanted: Option<Code> := *;
          var approval: Approval := *;
          var _, _, _ := Guarded(Apply(wanted, false, approval, telegram));
        } else {
          var code: Code := *;
          var _ := Revoke(code);
        }
        StillClosed(old(store.runs), runs, store.runs);
      }
      if proc.ticking {
        RunsSoFar();
      }
    }

    method Boot()
      requires Durable()
      modifies proc
      ensures Durable() && proc.Running() && !proc.guarded
      ensures proc.clock == old(proc.clock) && proc.ticking == old(proc.ticking)
    {
      hide Books, OnePending, Signed, SingleUse, NoRepeats, Recoverable, RunsFailOnce, StateTells, Failures;
      proc.Boot();
    }
  }

  /** A run that was closed is still there, unchanged. */
  ghost predicate ClosedStay(before: seq<Run>, after: seq<Run>) {
    |before| <= |after| && forall i :: 0 <= i < |before| && before[i].outcome.Some? ==> after[i] == before[i]
  }

  lemma StillClosed(first: seq<Run>, second: seq<Run>, third: seq<Run>)
    requires ClosedStay(first, second) && (ClosedStay(second, third) || second <= third)
    ensures ClosedStay(first, third)
  {
  }

  /** The status a deployed candidate is left in. */
  function Spent(outcome: Outcome): Status {
    match outcome
    case BLOCKED => REFUSED
    case ROLLED_BACK => REVERTED
    case RECOVERY_FAILED => REVERTED
    case _ => DEPLOYED
  }

  /** The outcome of an application, from what `deploy` returned. */
  function OutcomeOf(res: DeployResult, telegram: bool): Outcome {
    if !res.deployed then BLOCKED
    else if res.rolledBack.None? && res.postOk == Some(true) then if telegram then SUCCESS else FAILED
    else if res.recoveryOk == Some(true) then ROLLED_BACK
    else RECOVERY_FAILED
  }

  lemma TheTruthIsTold(res: DeployResult, telegram: bool, payload: Payload, data: RunData, base: Production, prod: Production)
    requires data.payload == Some(payload) && (res.rolledBack.Some? ==> data.rollbackPoint.Some?)
    requires TellsTheTruth(res, payload, base, prod,
                           if res.rolledBack.Some? then data.rollbackPoint.value.savedUnits else map[])
    ensures OutcomeTells(OutcomeOf(res, telegram), data, base, prod)
    ensures
      var outcome := OutcomeOf(res, telegram);
      && (outcome == BLOCKED <==> !res.deployed)
      && (outcome == SUCCESS <==> Succeeded(res) && telegram)
      && (outcome == FAILED <==> Succeeded(res) && !telegram)
      && (outcome == ROLLED_BACK <==> res.recoveryOk == Some(true))
      && (outcome == RECOVERY_FAILED <==> res.recoveryOk == Some(false))
  {
    if res.recoveryOk.Some? {
      assert res.recoveryOk == Some(res.recoveryOk.value);
      assert res.recoveryOk.value == true || res.recoveryOk.value == false;
    }
  }

  lemma MeantIs(candidates: map<Code, Candidate>, code: Code, wanted: Option<Code>)
    requires IsMeant(candidates, code, wanted)
    ensures code in candidates && candidates[code].status == PENDING && code in PendingCodes(candidates)
    ensures CandidateCode(candidates[code].payload) == code
  {
  }

  /** The gate is about the one candidate that is meant. */
  lemma GateIsExact(candidates: map<Code, Candidate>, consumed: set<Code>, found: Option<Code>, wanted: Option<Code>,
                    automatic: bool, approval: Approval, now: int, approvalTtl: int)
    requires forall c :: IsMeant(candidates, c, wanted) ==> found == Some(c)
    requires found.Some? ==> IsMeant(candidates, found.value, wanted)
    ensures Admits(candidates, consumed, wanted, automatic, approval, now, approvalTtl) <==>
              && found.Some? && found.value in candidates && now <= candidates[found.value].payload.expiresAt
              && (automatic || Attests(approval, found.value, candidates[found.value].payload, now, approvalTtl))
              && found.value !in consumed
    ensures Admits(candidates, consumed, wanted, automatic, approval, now, approvalTtl) ==>
              MayDeploy(candidates, consumed, found.value, wanted, automatic, approval, now, approvalTtl)
  {
    if found.Some? && MayDeploy(candidates, consumed, found.value, wanted, automatic, approval, now, approvalTtl) {
      assert Admits(candidates, consumed, wanted, automatic, approval, now, approvalTtl);
    }
  }

  /** At most the candidate that is meant is withdrawn, when it has expired. */
  lemma OnlyExpired(before: map<Code, Candidate>, after: map<Code, Candidate>, found: Option<Code>, wanted: Option<Code>, now: int)
    requires forall c :: IsMeant(before, c, wanted) ==> found == Some(c)
    requires found.Some? ==> IsMeant(before, found.value, wanted)
    requires after == if found.Some? && found.value in before && before[found.value].payload.expiresAt < now
                      then before[found.value := before[found.value].(status := EXPIRED)] else before
    ensures after.Keys == before.Keys
    ensures forall c :: c in before ==>
                          after[c] == if IsMeant(before, c, wanted) && before[c].payload.expiresAt < now
                                      then before[c].(status := EXPIRED) else before[c]
  {
  }

  lemma GrantIsLawful(g: Grant, autoApply: bool)
    requires g.status == PENDING && CandidateCode(g.payload) == g.code && g.checkedAt <= g.payload.expiresAt
    requires g.attested || (g.automatic && autoApply)
    ensures Lawful(g, autoApply)
  {
  }

  /** The one candidate that can be meant: the one wanted, or the pending one. */
  lemma WhoIsMeant(candidates: map<Code, Candidate>, wanted: Option<Code>, pending: Option<Code>)
    requires OnePending(candidates) && Signed(candidates)
    requires pending.None? <==> PendingCodes(candidates) == {}
    requires pending.Some? ==> pending.value in candidates && candidates[pending.value].status == PENDING
    ensures
      var found := if wanted.None? then pending else if wanted.value in candidates then wanted else None;
      && (forall c :: IsMeant(candidates, c, wanted) ==> found == Some(c))
      && (found.Some? ==>
            (IsMeant(candidates, found.value, wanted) <==>
               candidates[found.value].status == PENDING && CandidateCode(candidates[found.value].payload) == found.value))
  {
    forall c | IsMeant(candidates, c, wanted)
      ensures wanted.None? ==> pending == Some(c)
    {
      assert c in PendingCodes(candidates);
    }
  }

  lemma NewsTells(outcome: Outcome, told: Outcome, f: Findings, prepared: bool, dailyBackup: bool)
    requires f.auxUp || f.hermesUp
    requires told in {SUCCESS, PENDING_APPROVAL, BLOCKED, FAILED} && (told == SUCCESS <==> !prepared)
    requires prepared ==> (told == PENDING_APPROVAL <==> GoodCandidate(f)) && (told == BLOCKED <==> BlockedCandidate(f))
    requires outcome ==
             if told == SUCCESS && !(AllKnown(f) && dailyBackup && f.resources && f.backup == PASS) then FAILED
             else if told == PENDING_APPROVAL && !(dailyBackup && f.resources && f.backup == PASS) then FAILED
             else told
    ensures DailyTells(outcome, f, prepared, dailyBackup)
  {
  }

  lemma NoNewsTells(outcome: Outcome, f: Findings, dailyBackup: bool)
    requires !f.auxUp && !f.hermesUp
    requires outcome == if !AllKnown(f) then (if f.network then BLOCKED else FAILED)
                        else if dailyBackup && f.resources && f.backup == PASS then NO_UPDATES else FAILED
    ensures DailyTells(outcome, f, false, dailyBackup)
  {
  }

  lemma NoneOther(outcome: Outcome, f: Findings, prepared: bool, dailyBackup: bool)
    ensures DailyTells(outcome, f, prepared, dailyBackup) ==> !Failure(outcome)
  {
  }

  predicate LastOfItsName(steps: seq<Step>, i: nat) {
    i < |steps| && forall j :: i < j < |steps| ==> steps[j].name != steps[i].name
  }

  lemma ByWhatWasRefused(outcome: Outcome, telegram: bool, res: DeployResult, payload: Payload, data: RunData, base: Production,
                         asked: Record, undoing: Record, end: Record)
    requires data.payload == Some(payload) && outcome in {SUCCESS, BLOCKED, FAILED, ROLLED_BACK, RECOVERY_FAILED}
    requires Succeeded(res) <==> AtSource(payload, base) && NoNo(asked, end)
    requires res.deployed <==> !NotBegun(data)
    requires res.deployed && !Succeeded(res) ==> Later(asked, undoing) && UndoneFrom(undoing, end, res)
    requires outcome == BLOCKED <==> !res.deployed
    requires outcome == SUCCESS <==> Succeeded(res) && telegram
    requires outcome == FAILED <==> Succeeded(res) && !telegram
    requires outcome == ROLLED_BACK <==> res.recoveryOk == Some(true)
    ensures ApplyTells(outcome, telegram, data, base, Trace(0, false, asked, undoing), end)
  {
  }

  lemma OneOfThem(outcome: Outcome, data: RunData, base: Production, prod: Production)
    requires outcome in {SUCCESS, BLOCKED, FAILED, ROLLED_BACK, RECOVERY_FAILED} && OutcomeTells(outcome, data, base, prod)
    ensures Told(data, base, prod)
  {
  }

  lemma OneMoreOpen(runs: seq<Run>, run: Run, failures: seq<Pair>)
    requires RunsFailOnce(runs, failures) && run.outcome.None?
    ensures RunsFailOnce(runs + [run], failures)
  {
  }

  lemma NothingDone(run: Run, prod: Production)
    requires run.data == NO_DATA
    ensures Recoverable(run.data, prod, prod) && StateTells(run, prod, prod, false)
  {
  }

  /** An open run changes. */
  lemma StillOpen(runs: seq<Run>, rid: RunId, run: Run, failures: seq<Pair>)
    requires rid < |runs| && runs[rid].outcome.None? && run.outcome.None? && RunsFailOnce(runs, failures)
    ensures RunsFailOnce(runs[rid := run], failures)
  {
  }

  lemma NothingToSkip(attempts: seq<Attempt>, candidates: map<Code, Candidate>, pair: Pair, clock: int, now: int, retryAfter: int)
    requires Timed(attempts, clock) && pair !in Failures(attempts) && retryAfter <= now - clock
    requires forall c :: c in PendingCodes(candidates) ==> candidates[c].expiresAt <= now
    ensures !MustSkip(attempts, candidates, pair, now, retryAfter)
  {
    NewestIsOnRecord(attempts, pair, clock);
  }

  lemma StillFailed(runs: seq<Run>, failures: seq<Pair>, more: seq<Pair>)
    requires RunsFailOnce(runs, failures) && failures <= more
    ensures RunsFailOnce(runs, more)
  {
  }

  lemma NothingNoted(runs: seq<Run>, checks: map<CheckKey, Check>)
    requires Books(runs, checks)
    ensures RequiredPass(checks, |runs|) && !Excepted(checks, |runs|)
  {
  }

  lemma SuccessPasses(res: DeployResult, payload: Payload, base: Production, prod: Production, saved: map<string, string>)
    requires TellsTheTruth(res, payload, base, prod, saved)
    ensures Succeeded(res) ==> AllPass(res.steps)
  {
  }

  lemma OneMoreRun(runs: seq<Run>, checks: map<CheckKey, Check>, run: Run)
    requires Books(runs, checks) && run.outcome.None? && forall i :: 0 <= i < |runs| ==> runs[i].outcome.Some?
    ensures Books(runs + [run], checks)
  {
  }

  lemma OneMoreGrant(grants: seq<Grant>, consumed: set<Code>, autoApply: bool, g: Grant)
    requires SingleUse(grants, consumed, autoApply)
    requires Lawful(g, autoApply) && g.code in consumed && forall i :: 0 <= i < |grants| ==> grants[i].code != g.code
    ensures SingleUse(grants + [g], consumed, autoApply)
  {
  }

  /** Without a rollback, the saved unit files do not matter. */
  lemma UnitsIrrelevant(res: DeployResult, payload: Payload, base: Production, prod: Production,
                        saved: map<string, string>, other: map<string, string>)
    requires TellsTheTruth(res, payload, base, prod, saved) && res.rolledBack.None?
    ensures TellsTheTruth(res, payload, base, prod, other)
  {
    assert res.deployed ==> Succeeded(res);
  }

  lemma NotBurnt(attempts: seq<Attempt>, candidates: map<Code, Candidate>, clock: int, code: Code)
    requires NoRepeats(attempts, candidates, clock) && code in PendingCodes(candidates)
    ensures PairOf(candidates[code].payload) !in Failures(attempts)
  {
    var pair := PairOf(candidates[code].payload);
    assert pair in Failures(attempts) ==> Burnt(pair, attempts, candidates);
  }

  lemma ClockMoves(attempts: seq<Attempt>, candidates: map<Code, Candidate>, clock: int, later: int)
    requires NoRepeats(attempts, candidates, clock) && clock <= later
    ensures NoRepeats(attempts, candidates, later)
  {
  }
}
