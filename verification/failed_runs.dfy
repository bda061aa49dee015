/** FAILED, as the outcome of an application, does not mean that production was left alone:
    its two causes, each on a history of the protocol, and exactly when it does. */
module FailedRuns {
  import opened Wrappers
  import opened Vocabulary
  import opened UpdaterStore
  import opened Deployment
  import opened Orchestration

  // ------------------------------------------------------------------
  // A message that was not sent
  // ------------------------------------------------------------------

  /** `deploy` to its end, every step passing. */
  function ToTheEnd(payload: Payload, saved: map<string, string>, content: Venv): seq<Deed> {
    UpToRestart(payload, saved, content, true) + [Did(Waiting), Wrote(POST_UPDATE_TESTS, PhaseOnly(AT_POST))]
  }

  /** The deployment went well, the message did not: FAILED, with the candidate in place. */
  lemma {:induction false} UnsentMessage(base: Production, payload: Payload, saved: map<string, string>, content: Venv)
    requires base.head == payload.source && base.checkout == At(base.head) && base.venv.Some?
    ensures
      var scene := AfterDeeds(Scene(base, CONTROLLED_DEPLOYMENT, RunData(None, None, Some(payload))),
                              ToTheEnd(payload, saved, content));
      var res := DeployResult(AllStepsPass(), true, Some(true), None, None);
      && TellsTheTruth(res, payload, base, scene.prod, saved) && OutcomeOf(res, false) == FAILED
      && InPlace(scene.data, base, scene.prod) && !Untouched(base, scene.prod)
  {
    var start := Scene(base, CONTROLLED_DEPLOYMENT, RunData(None, None, Some(payload)));
    var deeds := UpToRestart(payload, saved, content, true);
    var more := [Did(Waiting), Wrote(POST_UPDATE_TESTS, PhaseOnly(AT_POST))];
    hide UpToRestart;
    UpToTheRestart(base, payload, saved, content, true);
    InTurn(start, deeds, more);
    var scene := AfterDeeds(start, deeds);
    assert more[0..] == more;
    NextDeed(scene, more, 0);
    NextDeed(AfterDeed(scene, more[0]), more, 1);
  }

  // ------------------------------------------------------------------
  // An exception
  // ------------------------------------------------------------------

  /** Where an exception can leave production half changed: after the merge, reading the lock
      file; or in the rollback, copying a unit file, with the service stopped. */
  function ExceptionHistory(payload: Payload, saved: map<string, string>, content: Venv, inRollback: bool): seq<Deed> {
    if !inRollback then UpToCode(payload, saved)
    else UpToRestart(payload, saved, content, true) + RolledBackSoFar(payload)
  }

  function RolledBackSoFar(payload: Payload): seq<Deed> {
    [Wrote(ROLLBACK, PhaseOnly(AT_ROLLBACK)), Did(Stopping), Did(Moving(payload.source)), Did(SettingAside), Did(PuttingBack)]
  }

  /** The run is closed FAILED there, on production neither untouched nor at the candidate. */
  lemma {:induction false} ExceptionHalfway(base: Production, payload: Payload, saved: map<string, string>, content: Venv,
                                            inRollback: bool)
    requires base.head == payload.source && base.checkout == At(base.head) && base.venv.Some? && base.gateway.Up?
    requires payload.candidate != payload.source
    ensures
      var scene := AfterDeeds(Scene(base, CONTROLLED_DEPLOYMENT, RunData(None, None, Some(payload))),
                              ExceptionHistory(payload, saved, content, inRollback));
      && Recoverable(scene.data, base, scene.prod) && !NotBegun(scene.data)
      && !Untouched(base, scene.prod) && !InPlace(scene.data, base, scene.prod)
      && (if inRollback then scene.prod.gateway == Stopped && scene.prod.head == base.head && scene.prod.venv == base.venv
          else scene.prod.head == payload.candidate && scene.prod.venv == base.venv && scene.prod.gateway == base.gateway)
  {
    var start := Scene(base, CONTROLLED_DEPLOYMENT, RunData(None, None, Some(payload)));
    if !inRollback {
      UpToTheCode(base, payload, saved);
      return;
    }
    var deeds, more := UpToRestart(payload, saved, content, true), RolledBackSoFar(payload);
    hide UpToRestart;
    UpToTheRestart(base, payload, saved, content, true);
    InTurn(start, deeds, more);
    var s0 := AfterDeeds(start, deeds);
    assert more[0..] == more;
    NextDeed(s0, more, 0);
    var s1 := AfterDeed(s0, more[0]);
    NextDeed(s1, more, 1);
    var s2 := AfterDeed(s1, more[1]);
    NextDeed(s2, more, 2);
    var s3 := AfterDeed(s2, more[2]);
    NextDeed(s3, more, 3);
    NextDeed(AfterDeed(s3, more[3]), more, 4);
  }

  // ------------------------------------------------------------------
  // When FAILED does mean it
  // ------------------------------------------------------------------

  /** From what is stored, production is known to be untouched exactly when there is no rollback
      point or nothing was done since it was recorded. */
  lemma LeftAloneExactly(data: RunData, base: Production, some: Production)
    requires Recoverable(data, base, some)
    ensures (forall prod :: Recoverable(data, base, prod) ==> Untouched(base, prod)) <==> NotBegun(data)
  {
    if !NotBegun(data) {
      var prod := some.(head := base.head + 1);
      assert Recoverable(data, base, prod) && !Untouched(base, prod);
    }
  }

  /** And of a run that ended FAILED: with an exception on record, and nothing begun. */
  lemma FailedLeftAlone(excepted: bool, data: RunData, base: Production, some: Production)
    requires Recoverable(data, base, some) && FailedLeaves(excepted, data, base, some)
    ensures (forall prod :: Recoverable(data, base, prod) && FailedLeaves(excepted, data, base, prod) ==> Untouched(base, prod))
            <==> excepted && NotBegun(data)
  {
    if excepted && !NotBegun(data) {
      var prod := some.(head := base.head + 1);
      assert Recoverable(data, base, prod) && FailedLeaves(excepted, data, base, prod) && !Untouched(base, prod);
    }
  }
}
