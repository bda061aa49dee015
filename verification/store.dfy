/** The updater's persistent store: runs, checks, candidates, attempts and consumed
    approvals. Every statement commits by itself, and the process may die before it. */
module UpdaterStore {
  import opened Wrappers
  import opened Vocabulary
  import opened Processes

  type RunId = nat

  /** What is restored, recorded before anything is touched. */
  datatype RollbackPoint = RollbackPoint(oldHead: Commit, savedUnits: map<string, string>)

  datatype Phase = AT_ROLLBACK_POINT | AT_CODE | AT_RESTART | AT_POST | AT_ROLLBACK | AT_VERIFY_RECOVERY

  datatype RunData = RunData(rollbackPoint: Option<RollbackPoint>, phase: Option<Phase>, payload: Option<Payload>)

  /** A run row. Its id is its position in the table. */
  datatype Run = Run(kind: string, state: State, outcome: Option<Outcome>, data: RunData)

  datatype CheckKey = CheckKey(run: RunId, component: Component, name: string)

  datatype Check = Check(verdict: Verdict, required: bool)

  datatype Status = PENDING | DEPLOYED | REVERTED | EXPIRED | SUPERSEDED | REFUSED | REVOKED

  datatype Candidate = Candidate(run: RunId, createdAt: int, expiresAt: int, status: Status, payload: Payload)

  datatype AttemptOutcome = AttemptPending | AttemptBlocked | AttemptFailed | AttemptRolledBack | AttemptBackupFailed | AttemptRevoked

  datatype Attempt = Attempt(target: Tag, source: Commit, at: int, outcome: AttemptOutcome, backupReason: bool)

  function Merged(d: RunData, update: RunData): RunData {
    RunData(if update.rollbackPoint.Some? then update.rollbackPoint else d.rollbackPoint,
            if update.phase.Some? then update.phase else d.phase,
            if update.payload.Some? then update.payload else d.payload)
  }

  const NO_DATA := RunData(None, None, None)

  /** No required check of the run is anything but PASS. */
  predicate RequiredPass(checks: map<CheckKey, Check>, run: RunId) {
    forall k :: k in checks && k.run == run && checks[k].required ==> checks[k].verdict == PASS
  }

  /** Only the last run may be open, a run closed green has all its required checks at PASS,
      and no check is of a run not yet opened. */
  ghost predicate Books(runs: seq<Run>, checks: map<CheckKey, Check>) {
    && (forall i :: 0 <= i < |runs| - 1 ==> runs[i].outcome.Some?)
    && (forall i :: 0 <= i < |runs| && runs[i].outcome.Some? && Green(runs[i].outcome.value) ==> RequiredPass(checks, i))
    && (forall k :: k in checks ==> k.run < |runs|)
  }

  ghost predicate OnePending(candidates: map<Code, Candidate>) {
    forall a, b :: a in candidates && b in candidates && candidates[a].status == PENDING && candidates[b].status == PENDING
                   ==> a == b
  }

  /** Every stored payload hashes to its id. */
  ghost predicate Signed(candidates: map<Code, Candidate>) {
    forall c :: c in candidates ==> CandidateCode(candidates[c].payload) == c
  }

  function PendingCodes(candidates: map<Code, Candidate>): set<Code> {
    set c | c in candidates && candidates[c].status == PENDING
  }

  predicate About(a: Attempt, target: Tag, source: Commit) { a.target == target && a.source == source }

  /** The latest of the attempts on one target and source: none is later. */
  ghost predicate IsLast(attempts: seq<Attempt>, target: Tag, source: Commit, last: Option<Attempt>) {
    match last
    case None => forall i :: 0 <= i < |attempts| ==> !About(attempts[i], target, source)
    case Some(a) => a in attempts && About(a, target, source)
                    && forall i :: 0 <= i < |attempts| && About(attempts[i], target, source) ==> attempts[i].at <= a.at
  }

  lemma {:induction false} NewestExists(codes: set<Code>, candidates: map<Code, Candidate>)
    requires codes != {} && codes <= candidates.Keys
    ensures exists c :: c in codes && forall d :: d in codes ==> candidates[d].createdAt <= candidates[c].createdAt
  {
    var x :| x in codes;
    if codes != {x} {
      NewestExists(codes - {x}, candidates);
      var m :| m in codes - {x} && forall d :: d in codes - {x} ==> candidates[d].createdAt <= candidates[m].createdAt;
      var top := if candidates[m].createdAt < candidates[x].createdAt then x else m;
      assert forall d :: d in codes ==> d == x || d in codes - {x};
      assert top in codes;
    }
  }

  class Store {
    const proc: Process
    var runs: seq<Run>
    var checks: map<CheckKey, Check>
    var candidates: map<Code, Candidate>
    var attempts: seq<Attempt>
    var consumed: set<Code>

    constructor (proc: Process)
      ensures this.proc == proc && runs == [] && checks == map[] && candidates == map[] && attempts == [] && consumed == {}
    {
      this.proc := proc;
      runs, checks, candidates, attempts, consumed := [], map[], map[], [], {};
    }

    predicate IsOpen(rid: RunId)
      reads this`runs
    {
      rid < |runs| && runs[rid].outcome.None?
    }

    // --- runs ---------------------------------------------------------

    method OpenRun(kind: string) returns (rid: RunId)
      modifies this`runs, proc`alive, proc`raised, proc`fate
      ensures Boundary(old(proc.Running()), old(proc.ticking))
      ensures runs == if proc.Running() then old(runs) + [Run(kind, SCHEDULED, None, NO_DATA)] else old(runs)
      ensures rid == |old(runs)|
    {
      rid := |runs|;
      proc.Step();
      if proc.Running() {
        runs := runs + [Run(kind, SCHEDULED, None, NO_DATA)];
      }
    }

    /** What a boundary may do to the process, given what it was. */
    ghost predicate Boundary(running: bool, ticking: bool)
      reads this, proc
    {
      (proc.Running() ==> running) && (proc.ticking ==> ticking)
    }

    /** A closed run refuses with an exception. */
    method Transition(rid: RunId, to: State)
      requires rid < |runs|
      modifies this`runs, proc`alive, proc`raised, proc`fate
      ensures old(IsOpen(rid)) ==> Boundary(old(proc.Running()), old(proc.ticking))
      ensures !old(IsOpen(rid)) ==> !proc.Running()
      ensures runs == if proc.Running() then old(runs)[rid := old(runs)[rid].(state := to)] else old(runs)
    {
      proc.Step();
      if proc.Running() {
        if IsOpen(rid) {
          runs := runs[rid := runs[rid].(state := to)];
        } else {
          proc.Raise();
        }
      }
    }

    method MergeData(rid: RunId, update: RunData)
      requires rid < |runs|
      modifies this`runs, proc`alive, proc`raised, proc`fate
      ensures Boundary(old(proc.Running()), old(proc.ticking))
      ensures runs == if proc.Running() then old(runs)[rid := old(runs)[rid].(data := Merged(old(runs)[rid].data, update))] else old(runs)
    {
      proc.Step();
      if proc.Running() {
        runs := runs[rid := runs[rid].(data := Merged(runs[rid].data, update))];
      }
    }

    /** `close_run`. A green close needs every required check at PASS, and a run closes
        once; otherwise it is refused. */
    method CloseRun(rid: RunId, outcome: Outcome) returns (refused: bool)
      requires rid < |runs|
      modifies this`runs, proc`alive, proc`raised, proc`fate
      ensures Boundary(old(proc.Running()), old(proc.ticking))
      ensures refused <==> (Green(outcome) && !RequiredPass(checks, rid)) || !old(IsOpen(rid))
      ensures runs == if proc.Running() && !refused then old(runs)[rid := old(runs)[rid].(outcome := Some(outcome))] else old(runs)
    {
      refused := (Green(outcome) && !RequiredPass(checks, rid)) || !IsOpen(rid);
      proc.Step();
      if proc.Running() && !refused {
        runs := runs[rid := runs[rid].(outcome := Some(outcome))];
      }
    }

    // --- checks -------------------------------------------------------

    method RecordCheck(rid: RunId, component: Component, name: string, verdict: Verdict, required: bool)
      modifies this`checks, proc`alive, proc`raised, proc`fate
      ensures Boundary(old(proc.Running()), old(proc.ticking))
      ensures checks == if proc.Running() then old(checks)[CheckKey(rid, component, name) := Check(verdict, required)] else old(checks)
      ensures forall r :: r != rid ==> (RequiredPass(checks, r) <==> RequiredPass(old(checks), r))
      ensures proc.Running() && required && verdict != PASS ==> !RequiredPass(checks, rid)
    {
      proc.Step();
      if proc.Running() {
        var key := CheckKey(rid, component, name);
        checks := checks[key := Check(verdict, required)];
        assert key in checks;
      }
    }

    // --- candidates ---------------------------------------------------

    /** `save_candidate`: two commits. Death between them leaves no candidate pending. */
    method SaveCandidate(cid: Code, rid: RunId, payload: Payload, ttl: int)
      modifies this`candidates, proc`alive, proc`raised, proc`fate, proc`ticking, proc`clock
      ensures Boundary(old(proc.Running()), old(proc.ticking)) && (proc.ticking ==> old(proc.clock) < proc.clock)
      ensures Signed(old(candidates)) && CandidateCode(payload) == cid ==> Signed(candidates)
      ensures OnePending(old(candidates)) ==> OnePending(candidates)
      ensures forall c :: c in PendingCodes(candidates) ==>
                            || (c == cid && candidates[c].payload == payload)
                            || (c in PendingCodes(old(candidates)) && candidates[c].payload == old(candidates)[c].payload)
      ensures proc.Running() ==> PendingCodes(candidates) == {cid} && candidates[cid].payload == payload && candidates[cid].run == rid
      ensures proc.Running() ==> candidates.Keys == old(candidates).Keys + {cid}
                                 && candidates[cid].createdAt == proc.clock && candidates[cid].expiresAt == proc.clock + ttl
      ensures old(candidates).Keys <= candidates.Keys
      ensures forall c :: c in old(candidates) && c != cid ==>
                            || candidates[c] == old(candidates)[c]
                            || (old(candidates)[c].status == PENDING
                                && candidates[c] == old(candidates)[c].(status := SUPERSEDED))
    {
      var now := proc.Now();
      proc.Step();
      if proc.Running() {
        candidates := map c | c in candidates ::
          if candidates[c].status == PENDING && c != cid then candidates[c].(status := SUPERSEDED) else candidates[c];
      }
      proc.Step();
      if proc.Running() {
        candidates := candidates[cid := Candidate(rid, now, now + ttl, PENDING, payload)];
      }
    }

    method PendingCandidate() returns (c: Option<Code>)
      ensures c.None? <==> PendingCodes(candidates) == {}
      ensures c.Some? ==> c.value in candidates && candidates[c.value].status == PENDING
      ensures c.Some? ==> forall d :: d in PendingCodes(candidates) ==> candidates[d].createdAt <= candidates[c.value].createdAt
    {
      var pending := PendingCodes(candidates);
      if pending == {} {
        return None;
      }
      NewestExists(pending, candidates);
      var newest :| newest in pending && forall d :: d in pending ==> candidates[d].createdAt <= candidates[newest].createdAt;
      c := Some(newest);
    }

    method SetCandidateStatus(cid: Code, status: Status)
      modifies this`candidates, proc`alive, proc`raised, proc`fate
      ensures Boundary(old(proc.Running()), old(proc.ticking))
      ensures old(proc.Running()) ==> (proc.Running() <==> 0 < old(proc.fate))
      ensures proc.Running() ==> proc.fate == old(proc.fate) - 1
      ensures candidates == if proc.Running() && cid in old(candidates) then old(candidates)[cid := old(candidates)[cid].(status := status)] else old(candidates)
    {
      proc.Step();
      if proc.Running() && cid in candidates {
        candidates := candidates[cid := candidates[cid].(status := status)];
      }
    }

    // --- attempts and approvals ---------------------------------------

    method RecordAttempt(target: Tag, source: Commit, outcome: AttemptOutcome, backupReason: bool)
      modifies this`attempts, proc`alive, proc`raised, proc`fate, proc`ticking, proc`clock
      ensures Boundary(old(proc.Running()), old(proc.ticking)) && (proc.ticking ==> old(proc.clock) < proc.clock)
      ensures old(proc.Running()) ==> (proc.Running() <==> 0 < old(proc.fate))
      ensures attempts == if proc.Running() then old(attempts) + [Attempt(target, source, proc.clock, outcome, backupReason)] else old(attempts)
    {
      var now := proc.Now();
      proc.Step();
      if proc.Running() {
        attempts := attempts + [Attempt(target, source, now, outcome, backupReason)];
      }
    }

    /** `last_attempt`: the latest by time. */
    method LastAttempt(target: Tag, source: Commit) returns (last: Option<Attempt>)
      ensures IsLast(attempts, target, source, last)
    {
      last := None;
      for i := 0 to |attempts|
        invariant IsLast(attempts[..i], target, source, last)
      {
        assert attempts[..i + 1] == attempts[..i] + [attempts[i]];
        var a := attempts[i];
        if About(a, target, source) && (last.None? || last.value.at < a.at) {
          last := Some(a);
        }
      }
      assert attempts[..|attempts|] == attempts;
    }

    /** `consume_approval`: true the first time only. */
    method ConsumeApproval(code: Code) returns (first: bool)
      modifies this`consumed, proc`alive, proc`raised, proc`fate
      ensures Boundary(old(proc.Running()), old(proc.ticking))
      ensures first <==> code !in old(consumed)
      ensures consumed == if proc.Running() then old(consumed) + {code} else old(consumed)
    {
      first := code !in consumed;
      proc.Step();
      if proc.Running() {
        consumed := consumed + {code};
      }
    }
  }
}
