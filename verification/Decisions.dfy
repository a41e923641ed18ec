/** What the exit of a process decides: the state of its unit, and whether a restart is
    granted, as if the whole history of the unit were kept. */
module Decisions {
  import opened Config
  import opened Sequences
  import opened Registry
  import opened Kernel
  import opened Supervisor
  import opened Restarts
  import opened CrashLoops

  // ---------- The limiter without pruning ----------

  /** The entries no older than the interval. */
  ghost function NotOld(ts: seq<nat>, now: nat, interval: nat): set<int> {
    set i | 0 <= i < |ts| && now <= ts[i] + interval
  }

  /** In a nondecreasing history they are its end. */
  lemma NotOldIsEnd(ts: seq<nat>, now: nat, interval: nat, burst: nat)
    requires Nondecreasing(ts) && 0 < burst
    ensures |NotOld(ts, now, interval)| >= burst <==> |ts| >= burst && now <= ts[|ts| - burst] + interval
  {
    var S := NotOld(ts, now, interval);
    if |ts| >= burst && now <= ts[|ts| - burst] + interval {
      var end := Stretch(|ts| - burst, burst);
      assert end <= S;
      SubsetCardinality(end, S);
    } else if |ts| >= burst {
      var late := Stretch(|ts| - burst + 1, burst - 1);
      assert S <= late;
      SubsetCardinality(S, late);
    } else {
      assert S <= Stretch(0, |ts|);
      SubsetCardinality(S, Stretch(0, |ts|));
    }
  }

  /** The decision on the pruned history is the one on the whole journal: a restart is
      refused exactly when burst restarts were scheduled within the interval before now. */
  lemma PruningChangesNoDecision(s: Sup, u: UnitId)
    requires Accounted(s) && u < |s.units|
    ensures var burst, interval := BurstOf(s.reg, u), IntervalOf(s.reg, u);
      !Consider(s.units[u].restartHistory, s.world.now, burst, interval).1 <==>
        burst > 0 && |NotOld(Times(s.journal, u), s.world.now, interval)| >= burst
  {
    hide Times, Recent, NotOld, Ledger, FiredOnTime;
    assert Limited(s, u);
    var burst, interval := BurstOf(s.reg, u), IntervalOf(s.reg, u);
    if burst > 0 {
      SameEnd(s.units[u].restartHistory, Times(s.journal, u), s.world.now, burst, interval);
      NotOldIsEnd(Times(s.journal, u), s.world.now, interval, burst);
    }
  }

  lemma SameEnd(history: seq<nat>, ts: seq<nat>, now: nat, burst: nat, interval: nat)
    requires Tracks(history, ts, now, interval) && burst > 0
    ensures !Consider(history, now, burst, interval).1 <==> |ts| >= burst && now <= ts[|ts| - burst] + interval
  {
    hide Consider;
    var k := |ts| - |history|;
    assert forall i :: 0 <= i < |history| ==> history[i] == ts[k + i];
    RefusedIff(history, now, burst, interval);
  }

  // ---------- An exit ----------

  /** Each policy restarts on every exit on which a weaker one does: `No` never,
      `on-abnormal` after a signal, `on-failure` after any unclean exit, `always` always. */
  lemma PoliciesAreOrdered(st: Status)
    ensures !WantsRestart(No, st) && WantsRestart(Always, st)
    ensures WantsRestart(OnAbnormal, st) ==> WantsRestart(OnFailure, st)
    ensures WantsRestart(OnFailure, st) ==> WantsRestart(Always, st)
    ensures WantsRestart(OnFailure, st) && !WantsRestart(OnAbnormal, st) <==> st.Exited? && st.code != 0
    ensures WantsRestart(Always, st) && !WantsRestart(OnFailure, st) <==> st == Exited(0)
  {
  }

  /** A restart follows this exit: the policy asks for it and the limit allows it. */
  ghost predicate RestartDue(s: Sup, u: UnitId, st: Status)
    requires u < |s.units| && u < |s.reg.units|
  {
    && !s.shuttingDown && s.reg.units[u].file.service.Some? && WantsRestart(s.reg.units[u].file.service.value.restart, st)
    && (BurstOf(s.reg, u) == 0 || |NotOld(Times(s.journal, u), s.world.now, IntervalOf(s.reg, u))| < BurstOf(s.reg, u))
  }

  /** The exit of a recorded process: its unit loses it and no other unit changes; the unit
      is Inactive after a clean exit or during a shutdown and Failed otherwise, also when a
      wanted restart is refused; and one restart is queued, after the delay, exactly when
      the policy asks for it and fewer than burst lie in the window. */
  lemma ExitContract(s: Sup, pid: Pid, st: Status)
    requires Accounted(s) && pid in s.byPid
    ensures var u, r := s.byPid[pid], OnChildExit(s, pid, st);
      && u < |s.units| && |r.units| == |s.units| && r.byPid == s.byPid - {pid}
      && (forall v: UnitId :: v < |s.units| && v != u ==> r.units[v] == s.units[v])
      && r.units[u].pid.None?
      && (RestartDue(s, u, st) ==> r.pending == s.pending + [PendingRestart(u, s.world.now + DelayOf(s.reg, u))])
      && (!RestartDue(s, u, st) ==> r.pending == s.pending)
      && (r.units[u].state == Inactive || r.units[u].state == Failed)
      && (r.units[u].state == Inactive <==> s.shuttingDown || (IsClean(st) && (RestartDue(s, u, st) || !Asks(s, u, st))))
  {
    hide Consider, ParseDuration, Times, NotOld, Ledger, FiredOnTime, AllLimited;
    PruningChangesNoDecision(s, s.byPid[pid]);
  }

  ghost predicate Asks(s: Sup, u: UnitId, st: Status)
    requires u < |s.reg.units|
  {
    s.reg.units[u].file.service.Some? && WantsRestart(s.reg.units[u].file.service.value.restart, st)
  }

  lemma FileLimits(svc: ServiceSection, delay: nat, interval: nat)
    requires IsDuration(svc.restartSec, 5 * SECOND, delay) && IsDuration(svc.startLimitIntervalSec, 10 * SECOND, interval)
    ensures RestartDelay(svc) == delay && LimitInterval(svc) == interval
  {
    hide ParseDuration;
  }

  /** What an exit on which the policy restarts comes to, read off the unit file: refused,
      and the unit Failed, when `start-limit-burst` restarts lie within
      `start-limit-interval-sec` before now, ten seconds if it cannot be read; and otherwise
      queued for `restart-sec` from now, five seconds if it cannot be read. */
  lemma RestartFollowsFile(s: Sup, pid: Pid, st: Status, svc: ServiceSection, delay: nat, interval: nat)
    requires Accounted(s) && pid in s.byPid && !s.shuttingDown
    requires s.reg.units[s.byPid[pid]].file.service == Some(svc) && WantsRestart(svc.restart, st)
    requires IsDuration(svc.restartSec, 5 * SECOND, delay) && IsDuration(svc.startLimitIntervalSec, 10 * SECOND, interval)
    ensures var u, r, now := s.byPid[pid], OnChildExit(s, pid, st), s.world.now;
      u < |r.units| &&
      if svc.startLimitBurst > 0 && |NotOld(Times(s.journal, u), now, interval)| >= svc.startLimitBurst then
        r.pending == s.pending && r.units[u].state == Failed && r.journal == s.journal + [Refused(u, now)]
      else
        r.pending == s.pending + [PendingRestart(u, now + delay)] && r.journal == s.journal + [Scheduled(u, now, now + delay)]
  {
    hide Consider, ParseDuration, Times, NotOld, Ledger, FiredOnTime, AllLimited, IsDuration;
    FileLimits(svc, delay, interval);
    PruningChangesNoDecision(s, s.byPid[pid]);
  }
}
