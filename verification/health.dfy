/** Waiting for the gateway: active, on one PID, without new restarts, long enough. */
module Health {

  /** One observation, with the time it was made. */
  datatype Seen =
    | Active(at: real, yes: bool)
    | Pid(at: real, pid: nat)
    | Restarts(at: real, count: nat)
    | Journal(at: real, ready: bool)

  /** The service as the wait sees it: every answer is the service's to choose. Only
      sleeping moves the clock, and by exactly what was asked. */
  class Service {
    var clock: real
    ghost var log: seq<Seen>

    method IsActive() returns (yes: bool)
      modifies this`log
      ensures log == old(log) + [Active(clock, yes)]
    {
      yes := *;
      log := log + [Active(clock, yes)];
    }

    method MainPid() returns (pid: nat)
      modifies this`log
      ensures log == old(log) + [Pid(clock, pid)]
    {
      pid :| true;
      log := log + [Pid(clock, pid)];
    }

    method RestartCount() returns (count: nat)
      modifies this`log
      ensures log == old(log) + [Restarts(clock, count)]
    {
      count :| true;
      log := log + [Restarts(clock, count)];
    }

    method JournalReady() returns (ready: bool)
      modifies this`log
      ensures log == old(log) + [Journal(clock, ready)]
    {
      ready := *;
      log := log + [Journal(clock, ready)];
    }

    method Sleep(seconds: nat)
      modifies this`clock
      ensures clock == old(clock) + seconds as real
    {
      clock := clock + seconds as real;
    }
  }

  /** One observation of each kind, every second for `n` seconds after `t0`, all good. */
  ghost function GoodSeconds(t0: real, pid: nat, base: nat, n: nat): seq<Seen> {
    if n == 0 then []
    else
      var t := t0 + n as real;
      GoodSeconds(t0, pid, base, n - 1) + [Active(t, true), Pid(t, pid), Restarts(t, base)]
  }

  /** Looks at the journal under one PID, the last of them finding the ready line. */
  ghost predicate FoundReady(log: seq<Seen>, pid: nat) {
    && 3 <= |log| && log[|log| - 1].Journal? && log[|log| - 1].ready
    && StillUp(log, pid)
  }

  ghost predicate StillUp(log: seq<Seen>, pid: nat) {
    forall i :: 0 <= i < |log| ==> StillUpAt(log, i, pid)
  }

  /** A journal look comes right after finding the service up under the PID. */
  ghost predicate StillUpAt(log: seq<Seen>, i: nat, pid: nat)
    requires i < |log|
  {
    match log[i]
    case Active(_, yes) => yes
    case Pid(_, p) => p == pid
    case Journal(at, _) => 2 <= i && log[i - 1] == Pid(at, pid) && log[i - 2] == Active(at, true)
    case Restarts(_, _) => false
  }

  function NonNegative(x: real): real { if x < 0.0 then 0.0 else x }

  /** What a positive answer rests on: the service was up at `t0` with `pid`, a nonzero PID,
      and at every second of a window of at least `stable` seconds with the same PID and the
      restart count `base`; and, when a ready line is wanted, it was found afterwards under
      that PID. Nothing else was observed in between. */
  ghost predicate Evidence(log: seq<Seen>, before: seq<Seen>, t0: real, pid: nat, base: nat, n: nat, rest: seq<Seen>,
                           stable: real, wantReady: bool)
  {
    && log == before + [Active(t0, true), Pid(t0, pid)] + GoodSeconds(t0, pid, base, n) + rest
    && pid != 0 && stable <= n as real
    && if wantReady then FoundReady(rest, pid) else rest == []
  }

  /** Nothing bad: up, on this PID, with this restart count, and ready. */
  predicate GoodSeen(seen: Seen, pid: nat, base: nat) {
    match seen
    case Active(_, yes) => yes
    case Pid(_, p) => p == pid
    case Restarts(_, count) => count == base
    case Journal(_, ready) => ready
  }

  ghost predicate GoodFrom(log: seq<Seen>, from: nat, pid: nat, base: nat) {
    forall i :: from <= i < |log| ==> GoodSeen(log[i], pid, base)
  }

  /** On no PID was all of it good. */
  ghost predicate NeverGood(log: seq<Seen>, from: nat) {
    forall pid, base :: pid != 0 ==> !GoodFrom(log, from, pid, base)
  }

  lemma NeverGoodAgain(log: seq<Seen>, more: seq<Seen>, from: nat)
    requires NeverGood(log, from) && log <= more
    ensures NeverGood(more, from)
  {
    forall pid, base | pid != 0
      ensures !GoodFrom(more, from, pid, base)
    {
      assert !GoodFrom(log, from, pid, base);
      var i :| from <= i < |log| && !GoodSeen(log[i], pid, base);
      assert more[i] == log[i];
    }
  }

  lemma OneBad(log: seq<Seen>, from: nat, i: nat)
    requires from <= i < |log| && forall pid, base :: pid != 0 ==> !GoodSeen(log[i], pid, base)
    ensures NeverGood(log, from)
  {
    forall pid, base | pid != 0
      ensures !GoodFrom(log, from, pid, base)
    {
      assert !GoodSeen(log[i], pid, base);
    }
  }

  lemma BadAtLast(log: seq<Seen>, from: nat, pid: nat)
    requires from < |log|
    requires match log[|log| - 1] case Active(_, yes) => !yes case Pid(_, p) => p != pid case Journal(_, ready) => !ready case _ => false
    ensures forall base :: !GoodFrom(log, from, pid, base)
  {
    forall base: nat
      ensures !GoodFrom(log, from, pid, base)
    {
      assert !GoodSeen(log[|log| - 1], pid, base);
    }
  }

  /** What was bad for the PID and the restart count seen is bad for all. */
  lemma BadForAll(log: seq<Seen>, from: nat, r: nat, p: nat, k: nat, pid: nat, base: nat)
    requires from <= r < |log| && log[r].Restarts? && log[r].count == base
    requires from <= p < |log| && log[p].Pid? && log[p].pid == pid
    requires from <= k && !GoodFrom(log, k, pid, base)
    ensures NeverGood(log, from)
  {
    var i :| k <= i < |log| && !GoodSeen(log[i], pid, base);
    forall other, count | other != 0
      ensures !GoodFrom(log, from, other, count)
    {
      assert !GoodSeen(log[r], other, count) || !GoodSeen(log[p], other, count) || !GoodSeen(log[i], other, count);
    }
  }

  lemma StillUpMore(log: seq<Seen>, t: real, pid: nat, ready: bool)
    requires StillUp(log, pid)
    ensures StillUp(log + [Active(t, true), Pid(t, pid), Journal(t, ready)], pid)
  {
    var more := log + [Active(t, true), Pid(t, pid), Journal(t, ready)];
    forall i | 0 <= i < |more|
      ensures StillUpAt(more, i, pid)
    {
      if i < |log| {
        assert StillUpAt(log, i, pid);
        assert more[i] == log[i];
        assert 2 <= i ==> more[i - 1] == log[i - 1] && more[i - 2] == log[i - 2];
      }
    }
  }

  /** The first inner loop: one look a second until `stable` seconds have passed. */
  method StableWindow(svc: Service, thisPid: nat, baseRestarts: nat, stable: real) returns (steady: bool, ghost n: nat)
    modifies svc
    ensures old(svc.log) <= svc.log
    ensures !steady ==> !GoodFrom(svc.log, |old(svc.log)|, thisPid, baseRestarts)
    ensures steady ==> svc.log == old(svc.log) + GoodSeconds(old(svc.clock), thisPid, baseRestarts, n) && stable <= n as real
    ensures old(svc.clock) <= svc.clock < old(svc.clock) + NonNegative(stable) + 1.0
  {
    var start := svc.clock;
    ghost var opening := svc.log;
    n, steady := 0, true;
    while svc.clock - start < stable
      invariant opening <= svc.log
      invariant svc.clock == start + n as real && n as real < NonNegative(stable) + 1.0
      invariant steady && svc.log == opening + GoodSeconds(start, thisPid, baseRestarts, n)
      decreases start + stable - svc.clock
    {
      svc.Sleep(1);
      n := n + 1;
      ghost var atTick := svc.log;
      var up := svc.IsActive();
      if !up {
        steady := false;
        assert !GoodSeen(svc.log[|svc.log| - 1], thisPid, baseRestarts);
        break;
      }
      var nowPid := svc.MainPid();
      if nowPid != thisPid {
        steady := false;
        assert !GoodSeen(svc.log[|svc.log| - 1], thisPid, baseRestarts);
        break;
      }
      var count := svc.RestartCount();
      if count != baseRestarts {
        steady := false;
        assert !GoodSeen(svc.log[|svc.log| - 1], thisPid, baseRestarts);
        break;
      }
      assert svc.log == atTick + [Active(svc.clock, true), Pid(svc.clock, thisPid), Restarts(svc.clock, baseRestarts)];
    }
  }

  datatype Watch = Found | Lost | TimedOut

  /** The second inner loop: the ready line, while the PID stays. */
  method WatchReady(svc: Service, thisPid: nat, deadline: real) returns (watch: Watch, ghost rest: seq<Seen>)
    modifies svc
    ensures old(svc.log) <= svc.log
    ensures watch == Found ==> svc.log == old(svc.log) + rest && FoundReady(rest, thisPid)
    ensures old(svc.clock) <= svc.clock
    ensures watch == TimedOut ==> deadline <= svc.clock
    ensures watch != Found && old(svc.clock) < deadline ==>
              forall base :: !GoodFrom(svc.log, |old(svc.log)|, thisPid, base)
    ensures watch.TimedOut? ==> svc.clock < deadline + 3.0 || svc.clock == old(svc.clock)
    ensures !watch.TimedOut? ==> svc.clock < deadline
  {
    ghost var window := svc.log;
    rest := [];
    while svc.clock < deadline
      invariant svc.log == window + rest && StillUp(rest, thisPid)
      invariant old(svc.clock) <= svc.clock
      invariant svc.clock == old(svc.clock) || forall base :: !GoodFrom(svc.log, |window|, thisPid, base)
      invariant svc.clock < deadline + 3.0 || svc.clock == old(svc.clock)
      decreases deadline - svc.clock
    {
      var up := svc.IsActive();
      if !up {
        BadAtLast(svc.log, |old(svc.log)|, thisPid);
        return Lost, rest;
      }
      var nowPid := svc.MainPid();
      if nowPid != thisPid {
        BadAtLast(svc.log, |old(svc.log)|, thisPid);
        return Lost, rest;
      }
      var ready := svc.JournalReady();
      StillUpMore(rest, svc.clock, thisPid, ready);
      rest := rest + [Active(svc.clock, true), Pid(svc.clock, thisPid), Journal(svc.clock, ready)];
      assert svc.log == window + rest;
      if ready {
        return Found, rest;
      }
      BadAtLast(svc.log, |old(svc.log)|, thisPid);
      svc.Sleep(3);
    }
    watch := TimedOut;
  }

  /** `wait_healthy`. It returns before `timeout + stable + 3` seconds have passed. It gives up
      only when the time is over, and never on a service of which nothing bad was seen, unless
      it had no time at all, or none for the ready line after the window. */
  method WaitHealthy(svc: Service, timeout: real, stable: real, wantReady: bool)
    returns (ok: bool, ghost before: seq<Seen>, ghost t0: real, ghost pid: nat, ghost base: nat, ghost n: nat,
             ghost rest: seq<Seen>)
    modifies svc
    ensures old(svc.log) + [Restarts(old(svc.clock), base)] <= svc.log
    ensures ok ==> old(svc.log) + [Restarts(old(svc.clock), base)] <= before
    ensures ok ==> Evidence(svc.log, before, t0, pid, base, n, rest, stable, wantReady)
    ensures old(svc.clock) <= svc.clock < old(svc.clock) + NonNegative(timeout) + NonNegative(stable) + 3.0
    ensures !ok ==> old(svc.clock) + timeout <= svc.clock
    ensures 0.0 < timeout && (wantReady ==> NonNegative(stable) + 1.0 <= timeout) ==>
              ok || NeverGood(svc.log, |old(svc.log)|)
  {
    before, t0, pid, n, rest := [], 0.0, 0, 0, [];
    var deadline := svc.clock + timeout;
    var baseRestarts := svc.RestartCount();
    base := baseRestarts;
    ghost var prefix := svc.log;
    while svc.clock < deadline
      invariant prefix <= svc.log
      invariant old(svc.clock) <= svc.clock < old(svc.clock) + NonNegative(timeout) + NonNegative(stable) + 3.0
      invariant svc.clock == old(svc.clock) || (wantReady && timeout < NonNegative(stable) + 1.0)
                || NeverGood(svc.log, |old(svc.log)|)
      decreases deadline - svc.clock
    {
      before := svc.log;
      ghost var from := |old(svc.log)|;
      ghost var first := svc.clock == old(svc.clock);
      var active := svc.IsActive();
      if active {
        var thisPid := svc.MainPid();
        t0, pid := svc.clock, thisPid;
        var steady;
        assert svc.log == before + [Active(t0, true), Pid(t0, pid)];
        steady, n := StableWindow(svc, thisPid, baseRestarts, stable);
        if !steady {
          BadForAll(svc.log, from, from, |before| + 1, |before| + 2, thisPid, base);
        } else if thisPid == 0 {
          OneBad(svc.log, from, |before| + 1);
        }
        ghost var window := |svc.log|;
        if steady && thisPid != 0 {
          if !wantReady {
            rest := [];
            assert svc.log == before + [Active(t0, true), Pid(t0, pid)] + GoodSeconds(t0, pid, base, n) + rest;
            return true, before, t0, pid, base, n, rest;
          }
          var watch;
          watch, rest := WatchReady(svc, thisPid, deadline);
          if watch != Found && first && NonNegative(stable) + 1.0 <= timeout {
            BadForAll(svc.log, from, from, |before| + 1, window, thisPid, base);
          } else if NeverGood(before, from) {
            NeverGoodAgain(before, svc.log, from);
          }
          if watch == Found {
            return true, before, t0, pid, base, n, rest;
          }
          if watch == TimedOut {
            return false, before, t0, pid, base, n, rest;
          }
        }
      }
      if !active {
        OneBad(svc.log, from, |before|);
      }
      svc.Sleep(2);
    }
    ok := false;
  }
}
