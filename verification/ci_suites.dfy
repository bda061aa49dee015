/** How the candidate's test suites decide: run, repeat the failures once, run what is
    left on the baseline, and judge. */
module CiSuites {
  import opened Wrappers

  const FLAKY_MAX := 5

  datatype Verdict = InProgress | Pass | Fail

  datatype Case = Failed(id: string) | Errored(id: string) | Skipped | Passed(id: string) | InternalError

  /** A parsed report. */
  datatype Report = Report(
    passed: nat, failed: nat, errors: nat, skipped: nat,
    failedIds: seq<string>, passedIds: seq<string>, internalError: bool)

  // ------------------------------------------------------------------
  // Lists
  // ------------------------------------------------------------------

  predicate Distinct(s: seq<string>) { forall i, j :: 0 <= i < j < |s| ==> s[i] != s[j] }

  /** First occurrences, in order. */
  function Deduplicated(s: seq<string>): (r: seq<string>)
    ensures Distinct(r) && (forall t :: t in r <==> t in s)
  {
    if s == [] then []
    else
      var before := Deduplicated(s[..|s| - 1]);
      assert s == s[..|s| - 1] + [s[|s| - 1]];
      if s[|s| - 1] in before then before else before + [s[|s| - 1]]
  }

  /** The elements of `s` that are in `keep`, in order. */
  function Among(s: seq<string>, keep: set<string>): (r: seq<string>)
    ensures forall t :: t in r <==> t in s && t in keep
    ensures |r| <= |s|
  {
    if s == [] then []
    else
      var before := Among(s[..|s| - 1], keep);
      assert s == s[..|s| - 1] + [s[|s| - 1]];
      if s[|s| - 1] in keep then before + [s[|s| - 1]] else before
  }

  function Elements(s: seq<string>): set<string> { set t | t in s }

  lemma {:induction false} AmongDistinct(s: seq<string>, keep: set<string>)
    requires Distinct(s)
    ensures Distinct(Among(s, keep))
  {
    if s != [] {
      AmongDistinct(s[..|s| - 1], keep);
    }
  }

  lemma {:induction false} AmongMore(s: seq<string>, t: string, keep: set<string>)
    ensures Among(s + [t], keep) == Among(s, keep) + if t in keep then [t] else []
  {
    assert (s + [t])[..|s|] == s;
  }

  lemma {:induction false} AmongTwice(s: seq<string>, a: set<string>, b: set<string>)
    ensures Among(Among(s, a), b) == Among(s, a * b)
  {
    if s != [] {
      var before := s[..|s| - 1];
      AmongTwice(before, a, b);
      if s[|s| - 1] in a {
        AmongMore(Among(before, a), s[|s| - 1], b);
      }
    }
  }

  // ------------------------------------------------------------------
  // Reports
  // ------------------------------------------------------------------

  function Count(cases: seq<Case>, kind: Case -> bool): nat {
    if cases == [] then 0 else Count(cases[..|cases| - 1], kind) + if kind(cases[|cases| - 1]) then 1 else 0
  }

  predicate IsPassed(c: Case) { c.Passed? }

  predicate IsFailed(c: Case) { c.Failed? }

  predicate IsErrored(c: Case) { c.Errored? }

  predicate IsSkipped(c: Case) { c.Skipped? }

  predicate Fails(c: Case) { c.Failed? || c.Errored? }

  function FailedIds(cases: seq<Case>): seq<string> {
    if cases == [] then []
    else FailedIds(cases[..|cases| - 1])
         + if Fails(cases[|cases| - 1]) then [cases[|cases| - 1].id] else []
  }

  function PassedIds(cases: seq<Case>): seq<string> {
    if cases == [] then []
    else PassedIds(cases[..|cases| - 1])
         + if cases[|cases| - 1].Passed? then [cases[|cases| - 1].id] else []
  }

  function Places(cases: seq<Case>, kind: Case -> bool): set<int> { set i | 0 <= i < |cases| && kind(cases[i]) }

  lemma {:induction false} CountIsNumber(cases: seq<Case>, kind: Case -> bool)
    ensures Count(cases, kind) == |Places(cases, kind)|
  {
    if cases == [] {
      assert Places(cases, kind) == {};
    } else {
      var n, before := |cases| - 1, cases[..|cases| - 1];
      CountIsNumber(before, kind);
      var fewer, all := Places(before, kind), Places(cases, kind);
      forall i
        ensures i in all <==> i in fewer || (i == n && kind(cases[n]))
      {
        assert 0 <= i < n ==> before[i] == cases[i];
      }
      assert all == fewer + if kind(cases[n]) then {n} else {};
    }
  }

  lemma CountsMean(cases: seq<Case>)
    ensures Count(cases, IsPassed) == |set i | 0 <= i < |cases| && cases[i].Passed?|
    ensures Count(cases, IsFailed) == |set i | 0 <= i < |cases| && cases[i].Failed?|
    ensures Count(cases, IsErrored) == |set i | 0 <= i < |cases| && cases[i].Errored?|
    ensures Count(cases, IsSkipped) == |set i | 0 <= i < |cases| && cases[i].Skipped?|
  {
    hide Count;
    CountIsNumber(cases, IsPassed);
    CountIsNumber(cases, IsFailed);
    CountIsNumber(cases, IsErrored);
    CountIsNumber(cases, IsSkipped);
    assert Places(cases, IsPassed) == (set i | 0 <= i < |cases| && cases[i].Passed?);
    assert Places(cases, IsFailed) == (set i | 0 <= i < |cases| && cases[i].Failed?);
    assert Places(cases, IsErrored) == (set i | 0 <= i < |cases| && cases[i].Errored?);
    assert Places(cases, IsSkipped) == (set i | 0 <= i < |cases| && cases[i].Skipped?);
  }

  lemma IdsMean(cases: seq<Case>)
    ensures forall t :: t in FailedIds(cases) <==> Failed(t) in cases || Errored(t) in cases
    ensures forall t :: t in PassedIds(cases) <==> Passed(t) in cases
  {
    forall t
      ensures t in FailedIds(cases) <==> Failed(t) in cases || Errored(t) in cases
      ensures t in PassedIds(cases) <==> Passed(t) in cases
    {
      IdsAreThose(cases, t);
    }
  }

  lemma {:induction false} IdsAreThose(cases: seq<Case>, t: string)
    ensures t in FailedIds(cases) <==> Failed(t) in cases || Errored(t) in cases
    ensures t in PassedIds(cases) <==> Passed(t) in cases
  {
    if cases != [] {
      var before, last := cases[..|cases| - 1], cases[|cases| - 1];
      assert cases == before + [last];
      IdsAreThose(before, t);
    }
  }

  /** `parse_junit`: counts of each kind, and each failed id once. */
  method ParseReport(cases: seq<Case>) returns (r: Report)
    ensures r.passed == |set i | 0 <= i < |cases| && cases[i].Passed?|
    ensures r.failed == |set i | 0 <= i < |cases| && cases[i].Failed?|
    ensures r.errors == |set i | 0 <= i < |cases| && cases[i].Errored?|
    ensures r.skipped == |set i | 0 <= i < |cases| && cases[i].Skipped?|
    ensures r.internalError <==> InternalError in cases
    ensures Distinct(r.failedIds)
    ensures forall t :: t in r.failedIds <==> Failed(t) in cases || Errored(t) in cases
    ensures forall t :: t in r.passedIds <==> Passed(t) in cases
  {
    r := Tally(cases);
    hide Count, FailedIds, PassedIds, Deduplicated, Distinct;
    CountsMean(cases);
    IdsMean(cases);
  }

  /** The loop over the cases. */
  method Tally(cases: seq<Case>) returns (r: Report)
    ensures r.passed == Count(cases, IsPassed) && r.failed == Count(cases, IsFailed)
    ensures r.errors == Count(cases, IsErrored) && r.skipped == Count(cases, IsSkipped)
    ensures r.internalError <==> InternalError in cases
    ensures r.failedIds == Deduplicated(FailedIds(cases)) && r.passedIds == PassedIds(cases)
  {
    var passed, failed, errors, skipped, broken := 0, 0, 0, 0, false;
    var failedIds, passedIds: seq<string> := [], [];
    for i := 0 to |cases|
      invariant passed == Count(cases[..i], IsPassed) && failed == Count(cases[..i], IsFailed)
      invariant errors == Count(cases[..i], IsErrored) && skipped == Count(cases[..i], IsSkipped)
      invariant broken <==> InternalError in cases[..i]
      invariant failedIds == FailedIds(cases[..i]) && passedIds == PassedIds(cases[..i])
    {
      assert cases[..i + 1][..i] == cases[..i];
      match cases[i] {
        case InternalError => broken := true;
        case Failed(id) => failed := failed + 1; failedIds := failedIds + [id];
        case Errored(id) => errors := errors + 1; failedIds := failedIds + [id];
        case Skipped => skipped := skipped + 1;
        case Passed(id) => passed := passed + 1; passedIds := passedIds + [id];
      }
    }
    assert cases[..|cases|] == cases;
    r := Report(passed, failed, errors, skipped, Deduplicated(failedIds), passedIds, broken);
  }

  function Ran(r: Report): nat { r.passed + r.failed + r.errors }

  function FlakyLimit(ran: nat): nat { if FLAKY_MAX < ran / 100 then ran / 100 else FLAKY_MAX }

  // ------------------------------------------------------------------
  // The specification of the three lists
  // ------------------------------------------------------------------

  /** Failures that the repetition saw pass and not fail. */
  function PassedOnRerun(first: Report, rerun: Report): set<string> {
    if Ran(rerun) == 0 then {} else Elements(first.failedIds) * (Elements(rerun.passedIds) - Elements(rerun.failedIds))
  }

  /** What is set aside as flaky: nothing, when there is too much of it. */
  function FlakyIds(first: Report, rerun: Report): set<string> {
    var found := PassedOnRerun(first, rerun);
    if FlakyLimit(Ran(first)) < |Among(first.failedIds, found)| then {} else found
  }

  /** Failures that the baseline shows too; none, when it ran nothing or there is none. */
  function BaselineIds(base: Option<Report>): set<string> {
    if base.None? || Ran(base.value) == 0 then {} else Elements(base.value.failedIds)
  }

  function FlakyList(first: Report, rerun: Report): seq<string> { Among(first.failedIds, FlakyIds(first, rerun)) }

  function PreexistingList(first: Report, rerun: Report, base: Option<Report>): seq<string> {
    Among(first.failedIds, BaselineIds(base) - FlakyIds(first, rerun))
  }

  function RegressionList(first: Report, rerun: Report, base: Option<Report>): seq<string> {
    Among(first.failedIds, Elements(first.failedIds) - FlakyIds(first, rerun) - BaselineIds(base))
  }

  lemma {:induction false} DistinctSize(s: seq<string>)
    requires Distinct(s)
    ensures |Elements(s)| == |s|
  {
    if s != [] {
      var before, last := s[..|s| - 1], s[|s| - 1];
      DistinctSize(before);
      assert last !in Elements(before);
      assert s == before + [last];
      assert Elements(s) == Elements(before) + {last};
    }
  }

  /** What is set aside, in terms of the two reports: the failures that the repetition saw pass
      and not fail, all of them, unless it ran nothing or there are too many. */
  lemma FlakyMeans(first: Report, rerun: Report)
    requires Distinct(first.failedIds)
    ensures
      var seen := set t | t in first.failedIds && t in rerun.passedIds && t !in rerun.failedIds;
      var few := |seen| <= 5 || 100 * |seen| <= first.passed + first.failed + first.errors;
      && (forall t :: t in FlakyList(first, rerun) <==> t in seen && few && 0 < rerun.passed + rerun.failed + rerun.errors)
      && (|FlakyList(first, rerun)| <= 5
          || 100 * |FlakyList(first, rerun)| <= first.passed + first.failed + first.errors)
  {
    var seen := set t | t in first.failedIds && t in rerun.passedIds && t !in rerun.failedIds;
    var found := PassedOnRerun(first, rerun);
    AmongDistinct(first.failedIds, found);
    DistinctSize(Among(first.failedIds, found));
    AmongNone(first.failedIds);
    if 0 < Ran(rerun) {
      assert Elements(Among(first.failedIds, found)) == seen;
    }
  }

  /** What is left, in terms of the reports: known to a baseline that ran something, or a
      regression. */
  lemma LeftMeans(first: Report, rerun: Report, base: Option<Report>)
    ensures forall t :: t in PreexistingList(first, rerun, base) <==>
                          && t in first.failedIds && t !in FlakyList(first, rerun)
                          && base.Some? && 0 < base.value.passed + base.value.failed + base.value.errors
                          && t in base.value.failedIds
    ensures forall t :: t in RegressionList(first, rerun, base) <==>
                          && t in first.failedIds && t !in FlakyList(first, rerun)
                          && t !in PreexistingList(first, rerun, base)
  {
  }

  class Suite {
    var verdict: Verdict
    var passed: nat
    var failed: nat
    var errors: nat
    var skipped: nat
    var failedIds: seq<string>
    var preexisting: seq<string>
    var regressions: seq<string>
    var flaky: seq<string>
    var internalError: bool

    constructor ()
      ensures verdict == InProgress && passed == failed == errors == skipped == 0 && !internalError
      ensures failedIds == preexisting == regressions == flaky == []
    {
      verdict, passed, failed, errors, skipped, internalError := InProgress, 0, 0, 0, 0, false;
      failedIds, preexisting, regressions, flaky := [], [], [], [];
    }

    method Fill(r: Report)
      modifies this
      ensures passed == r.passed && failed == r.failed && errors == r.errors && skipped == r.skipped
      ensures failedIds == r.failedIds && internalError == r.internalError
      ensures unchanged(`verdict) && unchanged(`preexisting) && unchanged(`regressions) && unchanged(`flaky)
    {
      passed, failed, errors, skipped := r.passed, r.failed, r.errors, r.skipped;
      failedIds, internalError := r.failedIds, r.internalError;
    }

    /** `recheck`, on a suite just filled from `first`. `rerun` is the report of the
        repetition, consulted only when something failed. */
    method Recheck(ghost first: Report, rerun: Report)
      requires failedIds == first.failedIds && Distinct(failedIds) && flaky == []
      requires passed == first.passed && failed == first.failed && errors == first.errors
      modifies this`flaky, this`failedIds
      ensures flaky == Among(first.failedIds, FlakyIds(first, rerun))
      ensures
        var seen := set t | t in first.failedIds && t in rerun.passedIds && t !in rerun.failedIds;
        var few := |seen| <= 5 || 100 * |seen| <= first.passed + first.failed + first.errors;
        forall t :: t in flaky <==> t in seen && few && 0 < rerun.passed + rerun.failed + rerun.errors
      ensures forall t :: t in failedIds <==> t in first.failedIds && t !in flaky
      ensures failedIds == Among(first.failedIds, Elements(first.failedIds) - FlakyIds(first, rerun))
    {
      FlakyMeans(first, rerun);
      hide Among;
      ghost var aside := FlakyIds(first, rerun);
      AmongAllBut(failedIds);
      if failedIds == [] {
        NothingFlaky(first, rerun);
        return;
      }
      if Ran(rerun) == 0 {
        NothingFlaky(first, rerun);
        return;
      }
      var still := Elements(rerun.failedIds);
      var passedAgain := Elements(rerun.passedIds);
      var found := Among(failedIds, passedAgain - still);
      AmongSame(failedIds, passedAgain - still, PassedOnRerun(first, rerun));
      if FlakyLimit(passed + failed + errors) < |found| {
        return;
      }
      flaky := found;
      AmongSame(failedIds, Elements(failedIds) - Elements(found), Elements(failedIds) - aside);
      failedIds := Among(failedIds, Elements(failedIds) - Elements(found));
    }

    /** `classify`: each failure left goes to one of two lists; a baseline that ran nothing
        proves nothing, and everything is a regression. */
    method Classify(base: Report)
      requires preexisting == [] && regressions == []
      modifies this`preexisting, this`regressions
      ensures preexisting == Among(failedIds, BaselineIds(Some(base)))
      ensures regressions == Among(failedIds, Elements(failedIds) - BaselineIds(Some(base)))
    {
      hide Among;
      AmongAllBut(failedIds);
      var baseFailed := Elements(base.failedIds);
      var ids := failedIds;
      AmongAllBut([]);
      assert ids[..0] == [];
      AmongSame([], {}, baseFailed);
      AmongSame([], {}, Elements(ids) - baseFailed);
      for i := 0 to |ids|
        invariant failedIds == ids
        invariant preexisting == Among(ids[..i], baseFailed)
        invariant regressions == Among(ids[..i], Elements(ids) - baseFailed)
      {
        var t := ids[i];
        assert ids[..i + 1] == ids[..i] + [t];
        AmongMore(ids[..i], t, baseFailed);
        AmongMore(ids[..i], t, Elements(ids) - baseFailed);
        if t in baseFailed {
          preexisting := preexisting + [t];
        } else {
          regressions := regressions + [t];
        }
      }
      assert ids[..|ids|] == ids;
      if Ran(base) == 0 {
        regressions, preexisting := failedIds, [];
      }
    }

    /** `_finish`: the verdict. */
    method Finish(timedOut: bool)
      modifies this`verdict
      ensures verdict == Pass <==>
              !timedOut && !internalError && 0 < passed + failed + errors && regressions == []
      ensures verdict == Pass || verdict == Fail
    {
      if timedOut {
        verdict := Fail;
      } else if internalError {
        verdict := Fail;
      } else if passed + failed + errors == 0 {
        verdict := Fail;
      } else if regressions != [] {
        verdict := Fail;
      } else {
        verdict := Pass;
      }
    }
  }

  lemma {:induction false} AmongNone(s: seq<string>)
    ensures Among(s, {}) == []
  {
    if s != [] {
      AmongNone(s[..|s| - 1]);
    }
  }

  lemma {:induction false} AmongAll(s: seq<string>, keep: set<string>)
    requires Elements(s) <= keep
    ensures Among(s, keep) == s
  {
    if s != [] {
      assert s == s[..|s| - 1] + [s[|s| - 1]];
      assert s[|s| - 1] in Elements(s);
      assert Elements(s[..|s| - 1]) <= Elements(s);
      AmongAll(s[..|s| - 1], keep);
    }
  }

  lemma AmongAllBut(s: seq<string>)
    ensures Among(s, {}) == [] && Among(s, Elements(s)) == s && Among(s, Elements(s) - {}) == s
  {
    AmongNone(s);
    AmongAll(s, Elements(s));
    AmongAll(s, Elements(s) - {});
  }

  lemma NothingFlaky(first: Report, rerun: Report)
    requires first.failedIds == [] || Ran(rerun) == 0
    ensures FlakyIds(first, rerun) == {}
  {
  }

  lemma {:induction false} AmongSame(s: seq<string>, a: set<string>, b: set<string>)
    requires forall t :: t in s ==> (t in a <==> t in b)
    ensures Among(s, a) == Among(s, b)
  {
    if s != [] {
      AmongSame(s[..|s| - 1], a, b);
    }
  }

  /** A failure excused: it passed when repeated, in a repetition with few enough such
      cases, or it fails on the baseline as well. */
  ghost predicate Excused(t: string, first: Report, rerun: Report, base: Option<Report>) {
    t in FlakyIds(first, rerun) || t in BaselineIds(base)
  }

  ghost predicate AllExcused(first: Report, rerun: Report, base: Option<Report>) {
    forall t :: t in first.failedIds ==> Excused(t, first, rerun, base)
  }

  /** `upstream_suite`: no failure is lost. The failed ids split, in order and without
      overlap, into flaky, preexisting and regressions; and the suite passes exactly when
      it ran to its end, ran something, and every failure is excused. */
  method UpstreamSuite(targets: seq<string>, first: Report, timedOut: bool, rerun: Report, base: Option<Report>)
    returns (s: Suite)
    requires Distinct(first.failedIds)
    ensures fresh(s)
    ensures targets == [] ==> s.verdict == Fail && s.failedIds == s.flaky == s.preexisting == s.regressions == []
    ensures targets != [] ==>
              && s.flaky == FlakyList(first, rerun)
              && s.preexisting == PreexistingList(first, rerun, base)
              && s.regressions == RegressionList(first, rerun, base)
              && (var seen := set t | t in first.failedIds && t in rerun.passedIds && t !in rerun.failedIds;
                  var few := |seen| <= 5 || 100 * |seen| <= first.passed + first.failed + first.errors;
                  forall t :: t in s.flaky <==> t in seen && few && 0 < rerun.passed + rerun.failed + rerun.errors)
              && (forall t :: t in s.preexisting <==>
                                && t in first.failedIds && t !in s.flaky
                                && base.Some? && 0 < base.value.passed + base.value.failed + base.value.errors
                                && t in base.value.failedIds)
              && (forall t :: t in s.regressions <==>
                                t in first.failedIds && t !in s.flaky && t !in s.preexisting)
              && (s.verdict == Pass <==>
                    && !timedOut && !first.internalError && 0 < first.passed + first.failed + first.errors
                    && forall t :: t in first.failedIds ==> t in s.flaky || t in s.preexisting)
              && (s.verdict == Pass || s.verdict == Fail)
  {
    hide Among, FlakyIds, BaselineIds, AllExcused, Elements, Distinct, PreexistingList, RegressionList, FlakyList;
    s := new Suite();
    if targets == [] {
      s.verdict := Fail;
      return;
    }
    s.Fill(first);
    s.Recheck(first, rerun);
    SetAside(first, rerun);
    ghost var left := s.failedIds;
    if base.Some? {
      s.Classify(base.value);
    } else {
      NoBaseline(left);
      s.regressions := s.failedIds;
    }
    LeftOver(first, rerun, base, left);
    s.Finish(timedOut);
    NothingLeft(first, rerun, base);
    ExcusedMeans(first, rerun, base);
  }

  /** The suite's lists, and being excused, in terms of the reports. */
  lemma ExcusedMeans(first: Report, rerun: Report, base: Option<Report>)
    requires Distinct(first.failedIds)
    ensures
      var seen := set t | t in first.failedIds && t in rerun.passedIds && t !in rerun.failedIds;
      var few := |seen| <= 5 || 100 * |seen| <= first.passed + first.failed + first.errors;
      forall t :: t in FlakyList(first, rerun) <==> t in seen && few && 0 < rerun.passed + rerun.failed + rerun.errors
    ensures forall t :: t in PreexistingList(first, rerun, base) <==>
                          && t in first.failedIds && t !in FlakyList(first, rerun)
                          && base.Some? && 0 < base.value.passed + base.value.failed + base.value.errors
                          && t in base.value.failedIds
    ensures forall t :: t in RegressionList(first, rerun, base) <==>
                          && t in first.failedIds && t !in FlakyList(first, rerun)
                          && t !in PreexistingList(first, rerun, base)
    ensures AllExcused(first, rerun, base) <==>
              forall t :: t in first.failedIds ==> t in FlakyList(first, rerun) || t in PreexistingList(first, rerun, base)
  {
    FlakyMeans(first, rerun);
    LeftMeans(first, rerun, base);
    hide Among;
  }

  lemma SetAside(first: Report, rerun: Report)
    ensures FlakyList(first, rerun) == Among(first.failedIds, FlakyIds(first, rerun))
  {
  }

  lemma NoBaseline(left: seq<string>)
    ensures Among(left, BaselineIds(None)) == [] && Among(left, Elements(left) - BaselineIds(None)) == left
  {
    AmongAllBut(left);
  }

  lemma NothingLeft(first: Report, rerun: Report, base: Option<Report>)
    ensures RegressionList(first, rerun, base) == [] <==> AllExcused(first, rerun, base)
  {
    hide Among, FlakyIds, BaselineIds;
    var ids := first.failedIds;
    var left := RegressionList(first, rerun, base);
    if left != [] {
      assert left[0] in left;
    }
    if t :| t in ids && !Excused(t, first, rerun, base) {
      assert t in left;
    }
  }

  /** Splitting what the repetition left is splitting the original failures. */
  lemma LeftOver(first: Report, rerun: Report, base: Option<Report>, left: seq<string>)
    requires left == Among(first.failedIds, Elements(first.failedIds) - FlakyIds(first, rerun))
    ensures Among(left, BaselineIds(base)) == PreexistingList(first, rerun, base)
    ensures Among(left, Elements(left) - BaselineIds(base)) == RegressionList(first, rerun, base)
  {
    hide Among, FlakyIds, BaselineIds;
    var ids, aside, known := first.failedIds, FlakyIds(first, rerun), BaselineIds(base);
    AmongTwice(ids, Elements(ids) - aside, known);
    AmongSame(ids, (Elements(ids) - aside) * known, known - aside);
    AmongTwice(ids, Elements(ids) - aside, Elements(left) - known);
    AmongSame(ids, (Elements(ids) - aside) * (Elements(left) - known), Elements(ids) - aside - known);
  }

  /** The split is a partition of the failures: each is in exactly one list, at most once,
      and little of it is flaky. */
  lemma SplitIsPartition(first: Report, rerun: Report, base: Option<Report>)
    requires Distinct(first.failedIds)
    ensures
      var ids, flaky := first.failedIds, FlakyList(first, rerun);
      var preexisting, regressions := PreexistingList(first, rerun, base), RegressionList(first, rerun, base);
      && |flaky| <= FlakyLimit(Ran(first))
      && Elements(flaky) !! Elements(preexisting) !! Elements(regressions)
      && Elements(flaky) + Elements(preexisting) + Elements(regressions) == Elements(ids)
      && |flaky| + |preexisting| + |regressions| == |ids|
      && Distinct(flaky) && Distinct(preexisting) && Distinct(regressions)
  {
    var ids, aside, known := first.failedIds, FlakyIds(first, rerun), BaselineIds(base);
    AmongNone(ids);
    AmongDistinct(ids, aside);
    AmongDistinct(ids, known - aside);
    AmongDistinct(ids, Elements(ids) - aside - known);
    SplitCounts(ids, aside, known);
  }

  lemma {:induction false} SplitCounts(s: seq<string>, a: set<string>, b: set<string>)
    ensures |Among(s, a)| + |Among(s, b - a)| + |Among(s, Elements(s) - a - b)| == |s|
  {
    if s != [] {
      var t, last := s[..|s| - 1], s[|s| - 1];
      SplitCounts(t, a, b);
      assert last in Elements(s);
      AmongSame(t, Elements(s) - a - b, Elements(t) - a - b);
    }
  }
}
