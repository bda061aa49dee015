/** The updater's closed vocabulary: verdicts, states and outcomes, and what a candidate
    is. */
module Vocabulary {
  import opened Wrappers

  datatype Verdict = PASS | FAIL | BLOCKED_ | INSUFFICIENT_DATA | NOT_OBSERVED | DEFERRED | IN_PROGRESS | SKIPPED

  datatype State =
    | SCHEDULED | PREFLIGHT | VERSION_DISCOVERY | UPDATE_CLASSIFICATION | NO_UPDATES_FOUND | DAILY_BACKUP
    | NOTIFY_CURRENT_VERSIONS | UPDATES_AVAILABLE | NOTIFY_AVAILABLE | AUX_UPDATES | BACKUP | BACKUP_VERIFICATION
    | STAGING_PREPARATION | COMPATIBILITY_TESTS | AI_REVIEW | UPDATE_READY | AUTHORIZATION_GATE
    | CONTROLLED_DEPLOYMENT | SERVICE_RECOVERY | POST_UPDATE_TESTS | ROLLBACK | VERIFY_RECOVERY
    | TELEGRAM_REPORT | COMPLETE

  datatype Outcome =
    | SUCCESS | NO_UPDATES | PENDING_APPROVAL | BLOCKED | FAILED | ROLLED_BACK | RECOVERY_FAILED | INTERRUPTED

  /** The states in which production may be half changed. */
  predicate DeployState(s: State) {
    s in {CONTROLLED_DEPLOYMENT, SERVICE_RECOVERY, POST_UPDATE_TESTS, ROLLBACK, VERIFY_RECOVERY}
  }

  predicate Green(o: Outcome) { o == SUCCESS || o == NO_UPDATES }

  /** What a check is about. */
  datatype Component =
    | OfOrchestrator | OfPreflight | OfBackup | OfVersions | OfAux | OfHermes | OfStaging | OfTests | OfReview
    | OfApproval | OfDeploy

  function VerdictOf(ok: bool): Verdict { if ok then PASS else FAIL }

  type Commit = nat

  type Tag = string

  /** The content an approval signs. */
  datatype Payload = Payload(
    source: Commit, target: Tag, candidate: Commit, createdAt: int, expiresAt: int, nonce: nat)

  /** A candidate's id is a hash of its payload; hashing is injective here. */
  datatype Code = Code(content: Payload)

  function CandidateCode(p: Payload): Code { Code(p) }

  datatype Step = Step(name: string, verdict: Verdict)

  /** `worst(...) == PASS`: some step, and none that is not PASS. */
  predicate AllPass(steps: seq<Step>) {
    steps != [] && forall i :: 0 <= i < |steps| ==> steps[i].verdict == PASS
  }
}

/** A running process, as the durable world sees it: it may die, or raise, before any
    single commit or act, and then does nothing more. */
module Processes {

  class Process {
    var alive: bool
    /** An exception is on its way up. */
    var raised: bool
    /** An exception would be caught and recorded; outside it ends the process. */
    var guarded: bool
    /** How many boundaries it will still pass before it dies or raises. Nothing decides by
        it but the boundaries themselves. */
    var fate: nat
    var clock: int
    /** The clock has gone forward at every look, so far. */
    ghost var ticking: bool

    predicate Running()
      reads this
    {
      alive && !raised
    }

    constructor ()
      ensures Running() && !guarded && ticking
    {
      var boundaries: int := *;
      alive, raised, guarded, ticking := true, false, false, true;
      fate := if boundaries < 0 then 0 else boundaries;
    }

    /** A boundary between two steps. */
    method Step()
      modifies this`alive, this`raised, this`fate
      ensures !old(Running()) ==> alive == old(alive) && raised == old(raised) && fate == old(fate)
      ensures old(Running()) ==> (Running() <==> 0 < old(fate)) && (raised ==> guarded)
      ensures old(Running()) && Running() ==> fate == old(fate) - 1
    {
      if alive && !raised {
        if fate == 0 {
          var raises: bool := *;
          if raises && guarded {
            raised := true;
          } else {
            alive := false;
          }
        } else {
          fate := fate - 1;
        }
      }
    }

    /** An exception: caught by whoever guards the process, else its end. */
    method Raise()
      requires Running()
      modifies this`alive, this`raised
      ensures !Running() && (raised ==> guarded)
    {
      if guarded {
        raised := true;
      } else {
        alive := false;
      }
    }

    /** An exception caught: the process goes on, for as long as it will. */
    method Catch()
      modifies this`raised, this`guarded, this`fate
      ensures !raised && !guarded
    {
      var boundaries: int := *;
      raised, guarded := false, false;
      fate := if boundaries < 0 then 0 else boundaries;
    }

    method Now() returns (t: int)
      modifies this`clock, this`ticking
      ensures t == clock
      ensures ticking ==> old(ticking) && old(clock) < t
    {
      t := *;
      if t <= clock {
        ticking := false;
      }
      clock := t;
    }

    /** The next process to run. */
    method Boot()
      modifies this
      ensures Running() && !guarded && clock == old(clock) && ticking == old(ticking)
    {
      var boundaries: int := *;
      alive, raised, guarded := true, false, false;
      fate := if boundaries < 0 then 0 else boundaries;
    }
  }
}
