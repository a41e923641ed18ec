/** When the start limiter lets a crashing unit go on and when it stops it, for a unit
    that only its own scheduled restarts start again. */
module CrashLoops {
  import opened Config
  import opened Registry
  import opened Kernel
  import opened Supervisor
  import opened Bookkeeping
  import opened Stopping
  import opened Restarts
  import opened Failure
  import opened Runs

  // ---------- What the journal says of one unit ----------

  /** The times at which a restart of u was considered, granted or not. */
  ghost function Considered(journal: seq<Note>, u: UnitId): seq<nat> {
    if journal == [] then []
    else
      var n := journal[|journal| - 1];
      Considered(journal[..|journal| - 1], u) + if (n.Scheduled? || n.Refused?) && n.unit == u then [n.at] else []
  }

  lemma {:induction false} ConsideredConcat(a: seq<Note>, b: seq<Note>, u: UnitId)
    ensures Considered(a + b, u) == Considered(a, u) + Considered(b, u)
    decreases |b|
  {
    if b == [] {
      assert a + b == a;
    } else {
      assert (a + b)[..|a + b| - 1] == a + b[..|b| - 1];
      ConsideredConcat(a, b[..|b| - 1], u);
    }
  }

  ghost predicate IsRefused(journal: seq<Note>, u: UnitId) {
    exists n :: n in journal && n.Refused? && n.unit == u
  }

  /** The times at which restarts of u were fired. */
  ghost function FiredTimes(journal: seq<Note>, u: UnitId): seq<nat> {
    if journal == [] then []
    else
      var n := journal[|journal| - 1];
      FiredTimes(journal[..|journal| - 1], u) + if n.Fired? && n.unit == u then [n.at] else []
  }

  lemma {:induction false} FiredConcat(a: seq<Note>, b: seq<Note>, u: UnitId)
    ensures FiredTimes(a + b, u) == FiredTimes(a, u) + FiredTimes(b, u)
    decreases |b|
  {
    if b == [] {
      assert a + b == a;
    } else {
      assert (a + b)[..|a + b| - 1] == a + b[..|b| - 1];
      FiredConcat(a, b[..|b| - 1], u);
    }
  }

  lemma FiredOne(n: Note, u: UnitId)
    ensures FiredTimes([n], u) == if n.Fired? && n.unit == u then [n.at] else []
  {
    assert [n][..0] == [];
  }

  /** Nothing was decided about u, and no restart of it fired. */
  ghost predicate Undecided(notes: seq<Note>, u: UnitId) {
    forall n :: n in notes ==> !((n.Scheduled? || n.Refused? || n.Fired?) && n.unit == u)
  }

  lemma {:induction false} UndecidedIsEmpty(notes: seq<Note>, u: UnitId)
    requires Undecided(notes, u)
    ensures Times(notes, u) == [] && Considered(notes, u) == [] && FiredTimes(notes, u) == []
  {
    if notes != [] {
      assert notes[|notes| - 1] in notes;
      UndecidedIsEmpty(notes[..|notes| - 1], u);
    }
  }

  lemma UndecidedAppend(a: seq<Note>, b: seq<Note>, u: UnitId)
    requires a <= b && Undecided(b[|a|..], u)
    ensures Times(b, u) == Times(a, u) && Considered(b, u) == Considered(a, u) && FiredTimes(b, u) == FiredTimes(a, u)
    ensures IsRefused(b, u) <==> IsRefused(a, u)
  {
    var c := b[|a|..];
    assert b == a + c;
    UndecidedIsEmpty(c, u);
    TimesConcat(a, c, u);
    ConsideredConcat(a, c, u);
    FiredConcat(a, c, u);
  }

  lemma DecidedAppend(a: seq<Note>, n: Note, u: UnitId)
    requires (n.Scheduled? || n.Refused?) && n.unit == u
    ensures Times(a + [n], u) == Times(a, u) + if n.Scheduled? then [n.at] else []
    ensures Considered(a + [n], u) == Considered(a, u) + [n.at]
    ensures IsRefused(a + [n], u) <==> IsRefused(a, u) || n.Refused?
    ensures FiredTimes(a + [n], u) == FiredTimes(a, u)
  {
    FiredConcat(a, [n], u);
    FiredOne(n, u);
    TimesConcat(a, [n], u);
    TimesOne(n, u);
    ConsideredConcat(a, [n], u);
    assert [n][..0] == [];
    assert n in a + [n];
  }

  // ---------- The state of a crash loop ----------

  function DelayOf(reg: UnitTable, u: UnitId): nat
    requires u < |reg.units|
  {
    if reg.units[u].file.service.Some? then RestartDelay(reg.units[u].file.service.value) else 0
  }

  function Entries(pending: seq<PendingRestart>, u: UnitId): nat {
    if pending == [] then 0 else (if pending[0].unit == u then 1 else 0) + Entries(pending[1..], u)
  }

  ghost predicate AtLeastApart(ts: seq<nat>, gap: nat) {
    forall i, j :: 0 <= i && j == i + 1 && j < |ts| ==> ts[i] + gap <= ts[j]
  }

  ghost predicate AtMostApart(ts: seq<nat>, gap: nat) {
    forall i, j :: 0 <= i && j == i + 1 && j < |ts| ==> ts[j] <= ts[i] + gap
  }

  /** The delay after the last scheduled restart has passed. */
  ghost predicate Ready(ts: seq<nat>, delay: nat, now: nat) {
    |ts| > 0 ==> ts[|ts| - 1] + delay <= now
  }

  /** At most one restart is queued, it was scheduled last, and none while running. */
  ghost predicate Queued(s: Sup, u: UnitId)
    requires Shaped(s) && u < |s.units|
  {
    var ts := Times(s.journal, u);
    && Entries(s.pending, u) <= 1
    && (forall p :: p in s.pending && p.unit == u ==> |ts| > 0 && p.fireAt == ts[|ts| - 1] + DelayOf(s.reg, u))
    && (s.units[u].pid.Some? ==> Entries(s.pending, u) == 0 && Ready(ts, DelayOf(s.reg, u), s.world.now))
  }

  /** All granted restarts were fired, except the one still queued, unless one was dropped;
      then the unit has no process and is never considered again. */
  ghost predicate AllFired(s: Sup, u: UnitId)
    requires u < |s.units|
  {
    var granted, fired := |Times(s.journal, u)|, |FiredTimes(s.journal, u)|;
    && (s.units[u].pid.Some? || IsRefused(s.journal, u) ==> fired == granted)
    && (Entries(s.pending, u) == 1 ==> fired + 1 == granted)
  }

  ghost predicate OwnPids(s: Sup, u: UnitId)
    requires u < |s.units|
  {
    forall p :: p in s.byPid && s.byPid[p] == u ==> s.units[u].pid == Some(p)
  }

  /** A refusal comes last, after at least `burst` granted restarts, and the unit rests:
      Failed unless a stop has reached it, which does not happen in calm. */
  ghost predicate Rests(s: Sup, u: UnitId, calm: bool)
    requires Shaped(s) && u < |s.units|
  {
    var ts, es := Times(s.journal, u), Considered(s.journal, u);
    if IsRefused(s.journal, u) then
      && |es| == |ts| + 1 && es[..|ts|] == ts && |ts| >= BurstOf(s.reg, u) > 0
      && s.units[u].pid.None? && Entries(s.pending, u) == 0
      && (s.units[u].state == Failed || (!calm && s.units[u].state == Inactive))
      && BurstOf(s.reg, u) * DelayOf(s.reg, u) <= IntervalOf(s.reg, u)
    else es == ts
  }

  ghost predicate Looping(s: Sup, u: UnitId, calm: bool) {
    && Shaped(s) && u < |s.units|
    && AtLeastApart(Times(s.journal, u), DelayOf(s.reg, u)) && Queued(s, u) && OwnPids(s, u) && AllFired(s, u) && Rests(s, u, calm)
  }

  // ---------- Events that are not about u ----------

  /** Nothing happened to u but that it may have been stopped; in calm, only while it had
      a process. */
  ghost predicate Aside(s: Sup, r: Sup, u: UnitId, calm: bool) {
    && Shaped(s) && Shaped(r) && u < |s.units| == |r.units| && r.reg.units == s.reg.units
    && s.world.now <= r.world.now && s.journal <= r.journal && Undecided(r.journal[|s.journal|..], u)
    && Entries(r.pending, u) <= Entries(s.pending, u) && (forall p :: p in r.pending && p.unit == u ==> p in s.pending)
    && (r.units[u] == s.units[u] || (r.units[u].pid.None? && r.units[u].state == Inactive && (calm ==> s.units[u].pid.Some?)))
    && (forall p :: p in r.byPid && r.byPid[p] == u ==> p in s.byPid && s.byPid[p] == u && r.units[u].pid == s.units[u].pid)
  }

  lemma AsideKeeps(s: Sup, r: Sup, u: UnitId, calm: bool)
    requires Looping(s, u, calm) && Aside(s, r, u, calm)
    ensures Looping(r, u, calm)
  {
    hide Times, Considered, FiredTimes, Entries, IsRefused, WellFormed, Undecided;
    UndecidedAppend(s.journal, r.journal, u);
  }

  lemma WorldAside(s: Sup, w: World, u: UnitId, calm: bool)
    requires Shaped(s) && u < |s.units| && s.world.now <= w.now
    ensures Aside(s, s.(world := w), u, calm)
  {
    assert s.journal[|s.journal|..] == [];
  }

  /** Where the recorded pids come from. */
  ghost predicate PidsFrom(s: Sup, r: Sup, id: UnitId) {
    forall p :: p in r.byPid ==> (p in s.byPid && r.byPid[p] == s.byPid[p]) || (r.byPid[p] == id && id < |r.units| && r.units[id].pid == Some(p))
  }

  lemma StartUnitPids(s: Sup, id: UnitId)
    requires Sound(s) && id < |s.units|
    ensures PidsFrom(s, StartUnit(s, id), id)
  {
    hide WorldInv, WaitOneshot, Spawn, HasFailedDependency, WellFormed;
    if s.reg.units[id].file.service.Some? {
      var svc := s.reg.units[id].file.service.value;
      var r := StartService(s, id, svc);
      assert PidsFrom(s, r, id);
    }
  }

  lemma StartOtherAside(s: Sup, id: UnitId, u: UnitId, calm: bool)
    requires Sound(s) && id < |s.units| && u < |s.units| && id != u
    ensures Aside(s, StartUnit(s, id), u, calm)
  {
    hide StartUnit, WorldInv, PidsKnown, HasFailedDependency;
    StartUnitAccounts(s, id);
    StartUnitTouches(s, id);
    StartUnitPids(s, id);
  }

  /** u itself may be started: it is not running, not queued, not refused, and due. */
  ghost predicate MayFire(s: Sup, u: UnitId) {
    && Shaped(s) && u < |s.units| && s.units[u].pid.None? && Entries(s.pending, u) == 0
    && !IsRefused(s.journal, u) && Ready(Times(s.journal, u), DelayOf(s.reg, u), s.world.now)
    && |FiredTimes(s.journal, u)| == |Times(s.journal, u)|
  }

  lemma StartItselfLoops(s: Sup, u: UnitId, calm: bool)
    requires Sound(s) && Looping(s, u, calm) && MayFire(s, u)
    ensures Looping(StartUnit(s, u), u, calm)
  {
    hide StartUnit, WorldInv, PidsKnown, HasFailedDependency, Times, Considered, Entries, IsRefused, WellFormed;
    StartUnitAccounts(s, u);
    StartUnitPids(s, u);
    var r := StartUnit(s, u);
    UneventfulUndecided(r.journal[|s.journal|..], u);
    UndecidedAppend(s.journal, r.journal, u);
  }

  lemma UneventfulUndecided(notes: seq<Note>, u: UnitId)
    requires Uneventful(notes)
    ensures Undecided(notes, u)
  {
  }

  lemma MayFireLater(s: Sup, r: Sup, u: UnitId, calm: bool)
    requires MayFire(s, u) && Aside(s, r, u, calm)
    ensures MayFire(r, u)
  {
    hide Times, Considered, FiredTimes, Entries, IsRefused, WellFormed, Undecided;
    UndecidedAppend(s.journal, r.journal, u);
  }

  lemma {:induction false} ActivateLoops(s: Sup, plan: seq<UnitId>, u: UnitId, calm: bool)
    requires Sound(s) && Looping(s, u, calm) && ValidIds(|s.units|, plan) && (u in plan ==> MayFire(s, u))
    requires forall i, j :: 0 <= i < j < |plan| && plan[i] == u ==> plan[j] != u
    ensures Looping(Activate(s, plan), u, calm)
    decreases |plan|
  {
    hide StartUnit, WorldInv, PidsKnown, Looping, MayFire, Aside, Follows;
    if plan != [] {
      var s1 := StartUnit(s, plan[0]);
      StartUnitSound(s, plan[0]);
      assert forall i :: 0 <= i < |plan[1..]| ==> plan[1..][i] == plan[i + 1];
      LoopingShape(s, u, calm);
      if plan[0] == u {
        StartItselfLoops(s, u, calm);
      } else {
        StartOtherAside(s, plan[0], u, calm);
        AsideKeeps(s, s1, u, calm);
        if u in plan[1..] { MayFireLater(s, s1, u, calm); }
      }
      ActivateLoops(s1, plan[1..], u, calm);
    }
  }

  lemma LoopingShape(s: Sup, u: UnitId, calm: bool)
    requires Looping(s, u, calm)
    ensures Shaped(s) && u < |s.units|
  {
  }

  lemma {:induction false} StartInactiveLoops(s: Sup, plan: seq<UnitId>, u: UnitId, calm: bool)
    requires Sound(s) && Looping(s, u, calm) && ValidIds(|s.units|, plan) && u !in plan
    ensures Looping(StartInactive(s, plan), u, calm)
    decreases |plan|
  {
    hide StartUnit, WorldInv, PidsKnown, Looping, Aside, Follows;
    if plan != [] {
      if s.units[plan[0]].state == Active {
        StartInactiveLoops(s, plan[1..], u, calm);
      } else {
        LoopingShape(s, u, calm);
        StartUnitSound(s, plan[0]);
        StartOtherAside(s, plan[0], u, calm);
        AsideKeeps(s, StartUnit(s, plan[0]), u, calm);
        StartInactiveLoops(StartUnit(s, plan[0]), plan[1..], u, calm);
      }
    }
  }

  // ---------- Child exits ----------

  lemma {:induction false} EntriesConcat(a: seq<PendingRestart>, b: seq<PendingRestart>, u: UnitId)
    ensures Entries(a + b, u) == Entries(a, u) + Entries(b, u)
  {
    if a == [] {
      assert a + b == b;
    } else {
      assert (a + b)[1..] == a[1..] + b;
      EntriesConcat(a[1..], b, u);
    }
  }

  lemma OtherExitAside(s: Sup, pid: Pid, st: Status, u: UnitId, calm: bool)
    requires Shaped(s) && u < |s.units| && (pid in s.byPid ==> s.byPid[pid] != u)
    ensures Aside(s, OnChildExit(s, pid, st), u, calm)
  {
    hide Consider, LimitInterval, RestartDelay, WellFormed, WantsRestart;
    var r := OnChildExit(s, pid, st);
    assert s.journal[|s.journal|..] == [];
    if r.pending != s.pending {
      var p := r.pending[|s.pending|];
      assert r.pending == s.pending + [p];
      EntriesConcat(s.pending, [p], u);
    }
  }

  lemma {:induction false} SpanAtLeast(ts: seq<nat>, gap: nat, i: nat, k: nat)
    requires AtLeastApart(ts, gap) && i + k < |ts|
    ensures ts[i] + k * gap <= ts[i + k]
  {
    if k > 0 {
      SpanAtLeast(ts, gap, i, k - 1);
      assert ts[i + (k - 1)] + gap <= ts[i + k];
      assert k * gap == (k - 1) * gap + gap;
    }
  }

  lemma {:induction false} SpanAtMost(ts: seq<nat>, gap: nat, i: nat, k: nat)
    requires AtMostApart(ts, gap) && i + k < |ts|
    ensures ts[i + k] <= ts[i] + k * gap
  {
    if k > 0 {
      SpanAtMost(ts, gap, i, k - 1);
      assert ts[i + k] <= ts[i + (k - 1)] + gap;
      assert k * gap == (k - 1) * gap + gap;
    }
  }

  /** The limiter refuses exactly when the restart `burst` places back is no older than
      the interval; a window that is hit on the dot counts. */
  lemma RefusedIff(history: seq<nat>, now: nat, burst: nat, interval: nat)
    requires Nondecreasing(history) && (forall i :: 0 <= i < |history| ==> history[i] <= now) && burst > 0
    ensures !Consider(history, now, burst, interval).1 <==> |history| >= burst && now <= history[|history| - burst] + interval
  {
    hide Recent;
    RecentIsSuffix(history, now, interval);
    var recent := Recent(history, now, interval);
    if |recent| >= burst {
      RecentEnough(history, now, interval, |recent| - burst);
      assert history[|history| - burst] == recent[|recent| - burst];
    }
  }

  /** A refusal means that the last `burst` restarts are recent. */
  lemma RefusalMeansRecent(history: seq<nat>, ts: seq<nat>, now: nat, burst: nat, interval: nat)
    requires Tracks(history, ts, now, interval) && !Consider(history, now, burst, interval).1
    ensures |ts| >= burst > 0 && now <= ts[|ts| - burst] + interval
  {
    hide Recent;
    var recent := Recent(history, now, interval);
    PrunedTracks(history, ts, now, interval);
    RecentEnough(history, now, interval, |recent| - burst);
    assert ts[|ts| - burst] == recent[|recent| - burst];
  }

  lemma {:induction false} RecentEnough(history: seq<nat>, now: nat, interval: nat, i: nat)
    requires i < |Recent(history, now, interval)|
    ensures now <= Recent(history, now, interval)[i] + interval
  {
    if now - history[0] <= interval {
      if i > 0 { RecentEnough(history[1..], now, interval, i - 1); }
    } else {
      RecentEnough(history[1..], now, interval, i);
    }
  }

  /** So `burst` restarts, a delay apart, fit into the interval. */
  lemma RefusalMeans(history: seq<nat>, ts: seq<nat>, now: nat, burst: nat, interval: nat, delay: nat)
    requires Tracks(history, ts, now, interval) && AtLeastApart(ts, delay) && Ready(ts, delay, now)
    requires !Consider(history, now, burst, interval).1
    ensures |ts| >= burst > 0 && burst * delay <= interval
  {
    hide Tracks, Consider, AtLeastApart;
    RefusalMeansRecent(history, ts, now, burst, interval);
    SpanAtLeast(ts, delay, |ts| - burst, burst - 1);
    assert burst * delay == (burst - 1) * delay + delay;
  }

  lemma FreedLoops(s: Sup, pid: Pid, st: ActiveState, u: UnitId, calm: bool)
    requires Looping(s, u, calm) && pid in s.byPid && s.byPid[pid] == u && (st == Failed || st == Inactive)
    ensures var s1 := SetState(WithoutPid(s, u, pid), u, st);
      && Looping(s1, u, calm) && MayFire(s1, u) && u !in s1.byPid.Values && s1.units[u].restartHistory == s.units[u].restartHistory
  {
    hide Times, Considered, FiredTimes, Entries, IsRefused, WellFormed;
    var s1 := SetState(WithoutPid(s, u, pid), u, st);
    assert forall p :: p in s1.byPid ==> s1.byPid[p] != u;
  }

  lemma GrantedLoops(s: Sup, r: Sup, u: UnitId, calm: bool, now: nat)
    requires Looping(s, u, calm) && MayFire(s, u) && u !in s.byPid.Values && now == s.world.now
    requires Shaped(r) && r.reg == s.reg && r.world == s.world && |r.units| == |s.units| && r.byPid == s.byPid && r.units[u].pid.None?
    requires r.pending == s.pending + [PendingRestart(u, now + DelayOf(s.reg, u))]
    requires r.journal == s.journal + [Scheduled(u, now, now + DelayOf(s.reg, u))]
    ensures Looping(r, u, calm)
  {
    hide Times, Considered, FiredTimes, Entries, IsRefused, WellFormed;
    var n := Scheduled(u, now, now + DelayOf(s.reg, u));
    DecidedAppend(s.journal, n, u);
    EntriesConcat(s.pending, [PendingRestart(u, n.fireAt)], u);
    OneEntry(PendingRestart(u, n.fireAt));
    forall p | p in s.pending ensures p.unit != u { NoEntry(s.pending, u, p); }
    assert forall p :: p in r.byPid ==> r.byPid[p] in s.byPid.Values;
  }

  lemma OneEntry(p: PendingRestart)
    ensures Entries([p], p.unit) == 1
  {
    assert Entries([p][1..], p.unit) == 0;
  }

  lemma {:induction false} NoEntry(pending: seq<PendingRestart>, u: UnitId, p: PendingRestart)
    requires p in pending && Entries(pending, u) == 0
    ensures p.unit != u
  {
    if pending[0] != p { NoEntry(pending[1..], u, p); }
  }

  lemma RefusedLoops(s: Sup, r: Sup, u: UnitId, calm: bool, now: nat)
    requires Looping(s, u, calm) && MayFire(s, u) && u !in s.byPid.Values && now == s.world.now
    requires Shaped(r) && r.reg == s.reg && r.world == s.world && |r.units| == |s.units| && r.byPid == s.byPid
    requires r.units[u].pid.None? && r.units[u].state == Failed
    requires r.pending == s.pending && r.journal == s.journal + [Refused(u, now)]
    requires |Times(s.journal, u)| >= BurstOf(s.reg, u) > 0 && BurstOf(s.reg, u) * DelayOf(s.reg, u) <= IntervalOf(s.reg, u)
    ensures Looping(r, u, calm)
  {
    hide Times, Considered, FiredTimes, Entries, IsRefused, WellFormed, BurstOf, DelayOf, IntervalOf;
    DecidedAppend(s.journal, Refused(u, now), u);
    assert forall p :: p in r.byPid ==> r.byPid[p] in s.byPid.Values;
  }

  lemma DecisionLoops(s: Sup, u: UnitId, calm: bool, st: Status)
    requires Accounted(s) && Looping(s, u, calm) && MayFire(s, u) && u !in s.byPid.Values
    ensures Looping(MaybeSchedule(s, u, st), u, calm)
  {
    hide Times, Considered, FiredTimes, Entries, IsRefused, WellFormed, Consider, LimitInterval, RestartDelay, WantsRestart, Looping, Ledger, FiredOnTime, Tracks, Spread;
    var service := s.reg.units[u].file.service;
    if service.Some? && WantsRestart(service.value.restart, st) {
      var svc, now, r := service.value, s.world.now, MaybeSchedule(s, u, st);
      if Consider(s.units[u].restartHistory, now, svc.startLimitBurst, LimitInterval(svc)).1 {
        GrantedLoops(s, r, u, calm, now);
      } else {
        assert Limited(s, u);
        LoopingApart(s, u, calm);
        RefusalMeans(s.units[u].restartHistory, Times(s.journal, u), now, svc.startLimitBurst, LimitInterval(svc), RestartDelay(svc));
        RefusedLoops(s, r, u, calm, now);
      }
    }
  }

  lemma LoopingApart(s: Sup, u: UnitId, calm: bool)
    requires Looping(s, u, calm)
    ensures Shaped(s) && u < |s.units| && AtLeastApart(Times(s.journal, u), DelayOf(s.reg, u))
  {
  }

  lemma ExitLoops(s: Sup, pid: Pid, st: Status, u: UnitId, calm: bool)
    requires Accounted(s) && Looping(s, u, calm)
    ensures Looping(OnChildExit(s, pid, st), u, calm)
  {
    hide Looping, MayFire, Aside, MaybeSchedule, Ledger, FiredOnTime, AllLimited, SetState, WithoutPid;
    LoopingShape(s, u, calm);
    if pid in s.byPid && s.byPid[pid] == u {
      var st' := if s.shuttingDown || IsClean(st) then Inactive else Failed;
      FreedLoops(s, pid, st', u, calm);
      FreedAccounted(s, pid, st', u);
      DecisionLoops(SetState(WithoutPid(s, u, pid), u, st'), u, calm, st);
    } else {
      OtherExitAside(s, pid, st, u, calm);
      AsideKeeps(s, OnChildExit(s, pid, st), u, calm);
    }
  }

  lemma FreedAccounted(s: Sup, pid: Pid, st: ActiveState, u: UnitId)
    requires Accounted(s) && u < |s.units|
    ensures Accounted(SetState(WithoutPid(s, u, pid), u, st))
  {
    NoNote(s, SetState(WithoutPid(s, u, pid), u, st));
    SameAccountsKeep(s, SetState(WithoutPid(s, u, pid), u, st));
  }

  lemma {:induction false} ReapAllLoops(s: Sup, u: UnitId, calm: bool)
    requires Accounted(s) && Looping(s, u, calm)
    ensures Looping(ReapAll(s), u, calm)
    decreases |s.world.script|, Left(s.world)
  {
    hide Looping, Aside, OnChildExit, WaitAny, Ledger, FiredOnTime, AllLimited;
    WaitAnyShrinks(s.world);
    LoopingShape(s, u, calm);
    var (child, w) := WaitAny(s.world);
    LaterAccounted(s, w);
    WorldAside(s, w, u, calm);
    AsideKeeps(s, s.(world := w), u, calm);
    if child.Some? {
      var s1 := OnChildExit(s.(world := w), child.value.pid, child.value.status);
      OnChildExitAccounted(s.(world := w), child.value.pid, child.value.status);
      ExitLoops(s.(world := w), child.value.pid, child.value.status, u, calm);
      ReapAllLoops(s1, u, calm);
    }
  }

  // ---------- Timers ----------

  lemma {:induction false} DueOnce(pending: seq<PendingRestart>, now: nat, u: UnitId)
    requires Entries(pending, u) <= 1
    ensures var due := DueUnits(pending, now);
      && (forall i, j :: 0 <= i < j < |due| && due[i] == u ==> due[j] != u)
      && Entries(NotDue(pending, now), u) <= Entries(pending, u)
      && (u in due ==> Entries(NotDue(pending, now), u) == 0 && Entries(pending, u) == 1 && exists p :: p in pending && p.unit == u && p.fireAt <= now)
  {
    if pending != [] {
      var p, rest := pending[0], pending[1..];
      DueOnce(rest, now, u);
      assert forall q :: q in pending <==> q == p || q in rest;
      if p.fireAt <= now {
        var due := DueUnits(rest, now);
        assert DueUnits(pending, now) == [p.unit] + due;
        assert forall i :: 0 < i < |[p.unit] + due| ==> ([p.unit] + due)[i] == due[i - 1] && due[i - 1] in due;
      } else {
        assert ([p] + NotDue(rest, now))[1..] == NotDue(rest, now);
      }
    }
  }

  /** The notes of a timer decide nothing, and fire what leaves the queue. */
  lemma {:induction false} FiredNotesOf(pending: seq<PendingRestart>, now: nat, u: UnitId)
    ensures var notes := FiredNotes(pending, now);
      && Times(notes, u) == [] && Considered(notes, u) == [] && !IsRefused(notes, u)
      && |FiredTimes(notes, u)| + Entries(NotDue(pending, now), u) == Entries(pending, u)
  {
    hide Times, Considered, FiredTimes;
    if pending == [] {
      NoNotes(u);
    } else {
      var p, rest := pending[0], pending[1..];
      FiredNotesOf(rest, now, u);
      if p.fireAt <= now {
        FiredHead(Fired(p.unit, now, p.fireAt), FiredNotes(rest, now), u);
      } else {
        assert ([p] + NotDue(rest, now))[1..] == NotDue(rest, now);
      }
    }
  }

  lemma NoNotes(u: UnitId)
    ensures Times([], u) == [] && Considered([], u) == [] && FiredTimes([], u) == [] && !IsRefused([], u)
  {
  }

  lemma FiredHead(n: Note, rest: seq<Note>, u: UnitId)
    requires n.Fired?
    ensures Times([n] + rest, u) == Times(rest, u) && Considered([n] + rest, u) == Considered(rest, u)
    ensures |FiredTimes([n] + rest, u)| == (if n.unit == u then 1 else 0) + |FiredTimes(rest, u)|
    ensures IsRefused([n] + rest, u) <==> IsRefused(rest, u)
  {
    TimesConcat([n], rest, u);
    TimesOne(n, u);
    ConsideredConcat([n], rest, u);
    FiredConcat([n], rest, u);
    FiredOne(n, u);
    assert [n][..0] == [];
    assert forall m :: m in [n] + rest <==> m == n || m in rest;
  }

  lemma FiredAppend(a: seq<Note>, b: seq<Note>, u: UnitId)
    requires Times(b, u) == [] && Considered(b, u) == [] && !IsRefused(b, u)
    ensures Times(a + b, u) == Times(a, u) && Considered(a + b, u) == Considered(a, u)
    ensures |FiredTimes(a + b, u)| == |FiredTimes(a, u)| + |FiredTimes(b, u)|
    ensures IsRefused(a + b, u) <==> IsRefused(a, u)
  {
    TimesConcat(a, b, u);
    ConsideredConcat(a, b, u);
    FiredConcat(a, b, u);
    assert forall m :: m in a + b <==> m in a || m in b;
  }

  /** The due entries leave the queue and are noted. */
  function Dequeued(s: Sup): Sup {
    s.(pending := NotDue(s.pending, s.world.now), journal := s.journal + FiredNotes(s.pending, s.world.now))
  }

  lemma DequeuedLoops(s: Sup, u: UnitId, calm: bool)
    requires Looping(s, u, calm)
    ensures Looping(Dequeued(s), u, calm)
    ensures u in DueUnits(s.pending, s.world.now) ==> MayFire(Dequeued(s), u)
  {
    hide Times, Considered, FiredTimes, Entries, IsRefused, WellFormed, FiredNotes, DueUnits, AtLeastApart;
    DueOnce(s.pending, s.world.now, u);
    FiredNotesOf(s.pending, s.world.now, u);
    FiredAppend(s.journal, FiredNotes(s.pending, s.world.now), u);
  }

  lemma FireDueLoops(s: Sup, u: UnitId, calm: bool)
    requires Sound(s) && Looping(s, u, calm)
    ensures Looping(FireDue(s), u, calm)
  {
    hide Activate, FiredNotes, DueUnits, WellFormed, Looping, MayFire, PidsKnown, WorldInv, Entries;
    var now := s.world.now;
    LoopingShape(s, u, calm);
    DequeuedLoops(s, u, calm);
    LoopingEntries(s, u, calm);
    DueOnce(s.pending, now, u);
    DueUnitsValid(s.pending, now, |s.units|);
    QueueSound(s, Dequeued(s).pending, Dequeued(s).journal);
    ActivateLoops(Dequeued(s), DueUnits(s.pending, now), u, calm);
  }

  lemma LoopingEntries(s: Sup, u: UnitId, calm: bool)
    requires Looping(s, u, calm)
    ensures Entries(s.pending, u) <= 1
  {
  }

  lemma QueueSound(s: Sup, pending: seq<PendingRestart>, journal: seq<Note>)
    requires Sound(s) && forall p :: p in pending ==> p in s.pending
    ensures Sound(s.(pending := pending, journal := journal))
  {
  }

  // ---------- Stopping and shutting down ----------

  lemma {:induction false} DropsUndecided(pending: seq<PendingRestart>, id: UnitId, u: UnitId)
    ensures Undecided(DroppedNotes(pending, id), u) && Entries(DropOf(pending, id), u) <= Entries(pending, u)
  {
    if pending != [] {
      DropsUndecided(pending[1..], id, u);
      assert ([pending[0]] + DropOf(pending[1..], id))[1..] == DropOf(pending[1..], id);
    }
  }

  lemma {:induction false} PlanDropsUndecided(pending: seq<PendingRestart>, plan: seq<UnitId>, u: UnitId)
    ensures Undecided(DropNotes(pending, plan), u) && Entries(DropPlan(pending, plan), u) <= Entries(pending, u)
    decreases |plan|
  {
    if plan != [] {
      DropsUndecided(pending, plan[0], u);
      PlanDropsUndecided(DropOf(pending, plan[0]), plan[1..], u);
    }
  }

  lemma {:induction false} AllDropsUndecided(pending: seq<PendingRestart>, u: UnitId)
    ensures Undecided(DropAllNotes(pending), u)
  {
    if pending != [] { AllDropsUndecided(pending[1..], u); }
  }

  lemma StoppedPids(s: Sup, r: Sup, plan: seq<UnitId>, u: UnitId)
    requires Shaped(s) && Shaped(r) && u < |s.units| && OwnPids(s, u) && ValidIds(|s.units|, plan) && Stopped(s, r, plan)
    requires Forgot(s.byPid, r.byPid, PidsOf(s.units, plan))
    ensures forall p :: p in r.byPid && r.byPid[p] == u ==> p in s.byPid && s.byPid[p] == u && r.units[u].pid == s.units[u].pid
  {
    hide DropPlan, DropNotes;
    PidsOfFacts(s.units, plan);
    forall p | p in r.byPid && r.byPid[p] == u ensures p in s.byPid && s.byPid[p] == u && r.units[u].pid == s.units[u].pid {
      assert s.units[u].pid == Some(p);
      assert !ChildGone(s, r, u);
      assert p !in PidsOf(s.units, plan);
      assert forall i :: 0 <= i < |plan| ==> s.units[plan[i]].pid != Some(p);
      assert u !in plan;
    }
  }

  /** No stop by this name reaches u. */
  ghost predicate StopSpares(reg: UnitTable, name: string, u: UnitId)
    requires WellFormed(reg)
  {
    StopPlan(reg, name).Plan? ==> u !in StopPlan(reg, name).order
  }

  lemma StopLoops(s: Sup, name: string, u: UnitId, calm: bool)
    requires Sound(s) && Looping(s, u, calm) && (calm ==> StopSpares(s.reg, name, u))
    ensures Looping(StopUnit(s, name), u, calm)
  {
    hide PidsKnown, WorldInv, StopPlan, StopPlanned, DropNotes, DropPlan, DrainCalls, Calls, Terms, Forgot, Times, Considered, Entries, IsRefused, WellFormed, Queued, Rests, AtLeastApart;
    SoundShaped(s);
    if StopPlan(s.reg, name).Plan? {
      StopOrderValid(s.reg, name);
      var order, r := StopPlan(s.reg, name).order, StopUnit(s, name);
      StopPlannedUnits(s, order);
      StopPlannedSound(s, order);
      StoppedPids(s, r, order, u);
      PlanDropsUndecided(s.pending, order, u);
      DropPlanFacts(s.pending, order);
      assert r.journal[|s.journal|..] == DropNotes(s.pending, order);
      StoppedAside(s, r, order, u, calm);
      AsideKeeps(s, r, u, calm);
    }
  }

  lemma StoppedAside(s: Sup, r: Sup, plan: seq<UnitId>, u: UnitId, calm: bool)
    requires Shaped(s) && Shaped(r) && r.reg == s.reg && u < |s.units| && Stopped(s, r, plan) && s.world.now <= r.world.now
    requires OwnPids(s, u) && (calm ==> u !in plan)
    requires forall p :: p in r.byPid && r.byPid[p] == u ==> p in s.byPid && s.byPid[p] == u && r.units[u].pid == s.units[u].pid
    requires Undecided(r.journal[|s.journal|..], u) && Entries(r.pending, u) <= Entries(s.pending, u)
    requires forall p :: p in r.pending ==> p in s.pending
    ensures Aside(s, r, u, calm)
  {
    hide DropPlan, DropNotes, Entries, Undecided, WellFormed;
    assert u in plan ==> r.units[u].state == Inactive && r.units[u].pid.None?;
  }

  lemma TerminateLoops(s: Sup, u: UnitId, calm: bool)
    requires Looping(s, u, calm)
    ensures Looping(InitiateShutdown(s), u, calm)
  {
    hide TermAll, DropAllNotes, Times, Considered, IsRefused, WellFormed, Queued, Rests, AtLeastApart, OwnPids;
    TermAllTime(s.world, s.units);
    AllDropsUndecided(s.pending, u);
    var r := InitiateShutdown(s);
    assert s.journal[|s.journal|..] == [] && (s.journal + DropAllNotes(s.pending))[|s.journal|..] == DropAllNotes(s.pending);
    AsideKeeps(s, r, u, calm);
  }

  // ---------- Runs ----------

  /** No start command of this event has u in its plan. */
  ghost predicate StartsSpare(s: Sup, e: Event, u: UnitId)
    requires Shaped(s)
  {
    match e
    case Start(name) => PlanSpares(s.reg, name, u)
    case Restart(name) => PlanSpares(s.reg, name, u)
    case Enable(name, reach) =>
      EnabledRegistryShaped(s, name, reach);
      reach.Complete? && EnabledRegistry(s.reg, name, reach).Some? ==> PlanSpares(EnabledRegistry(s.reg, name, reach).value, name, u)
    case _ => true
  }

  ghost predicate PlanSpares(reg: UnitTable, name: string, u: UnitId)
    requires WellFormed(reg)
  {
    StartPlan(reg, name).Plan? ==> u !in StartPlan(reg, name).order
  }

  /** u is started by nothing but its own scheduled restarts. */
  ghost predicate OnlyRestarts(s: Sup, events: seq<Event>, u: UnitId)
    requires Shaped(s)
    decreases |events|
  {
    events == [] || (StartsSpare(s, events[0], u) && OnlyRestarts(Step(s, events[0]), events[1..], u))
  }

  lemma StartNamedLoops(s: Sup, name: string, u: UnitId, calm: bool)
    requires Sound(s) && Looping(s, u, calm) && PlanSpares(s.reg, name, u)
    ensures Looping(StartNamed(s, name), u, calm)
  {
    hide PidsKnown, WorldInv, StartPlan, StartInactive, Looping;
    if StartPlan(s.reg, name).Plan? {
      StartOrderValid(s.reg, name);
      StartInactiveLoops(s, StartPlan(s.reg, name).order, u, calm);
    }
  }

  lemma EnableLoops(s: Sup, name: string, reach: EnableReach, u: UnitId, calm: bool)
    requires Invariant(s) && Looping(s, u, calm) && StartsSpare(s, Enable(name, reach), u)
    ensures Looping(EnableUnit(s, name, reach), u, calm)
  {
    hide PidsKnown, WorldInv, Accounted, StartNamed, PlanSpares, EnabledRegistry, WellFormed, Looping, Entries, Undecided;
    EnabledRegistryShaped(s, name, reach);
    var r := EnabledRegistry(s.reg, name, reach);
    if r.Some? {
      OtherEdgesKeep(s, r.value);
      LoopingShape(s, u, calm);
      NothingUndecided(s.journal, u);
      AsideKeeps(s, s.(reg := r.value), u, calm);
      if reach.Complete? { StartNamedLoops(s.(reg := r.value), name, u, calm); }
    }
  }

  lemma NothingUndecided(journal: seq<Note>, u: UnitId)
    ensures Undecided(journal[|journal|..], u)
  {
  }

  /** No stop command of this event has u in its plan. */
  ghost predicate StopsSpare(s: Sup, e: Event, u: UnitId)
    requires Shaped(s)
  {
    match e
    case Stop(name) => StopSpares(s.reg, name, u)
    case Restart(name) => StopSpares(s.reg, name, u)
    case Disable(name) => StopSpares(s.reg, name, u)
    case _ => true
  }

  /** u is never stopped. */
  ghost predicate NeverStopped(s: Sup, events: seq<Event>, u: UnitId)
    requires Shaped(s)
    decreases |events|
  {
    events == [] || (StopsSpare(s, events[0], u) && NeverStopped(Step(s, events[0]), events[1..], u))
  }

  lemma StepLoops(s: Sup, e: Event, u: UnitId, calm: bool)
    requires Invariant(s) && Looping(s, u, calm) && StartsSpare(s, e, u) && (calm ==> StopsSpare(s, e, u))
    ensures Looping(Step(s, e), u, calm)
  {
    hide PidsKnown, WorldInv, Ledger, FiredOnTime, AllLimited, Looping, StartNamed, StopUnit, EnableUnit, FireDue, Advance, PlanSpares, StopSpares, ReapAll, Aside;
    LoopingShape(s, u, calm);
    match e
    case Wait =>
      AdvanceShortens(s.world);
      WorldAside(s, Advance(s.world), u, calm);
      AsideKeeps(s, s.(world := Advance(s.world)), u, calm);
    case ReadSigchld =>
      var s1 := s.(world := s.world.(sigchld := false));
      WorldAside(s, s1.world, u, calm);
      AsideKeeps(s, s1, u, calm);
      LaterAccounted(s, s1.world);
      ReapAllLoops(s1, u, calm);
    case Terminate => TerminateLoops(s, u, calm);
    case Timer => FireDueLoops(s, u, calm);
    case Start(name) => StartNamedLoops(s, name, u, calm);
    case Stop(name) => StopLoops(s, name, u, calm);
    case Restart(name) =>
      StopLoops(s, name, u, calm);
      StopUnitKeeps(s, name);
      StartNamedLoops(StopUnit(s, name), name, u, calm);
    case Enable(name, reach) => EnableLoops(s, name, reach, u, calm);
    case Disable(name) => StopLoops(s, name, u, calm);
  }

  lemma {:induction false} RunLoops(s: Sup, events: seq<Event>, u: UnitId, calm: bool)
    requires Invariant(s) && Looping(s, u, calm) && OnlyRestarts(s, events, u) && (calm ==> NeverStopped(s, events, u))
    ensures Looping(Run(s, events), u, calm)
    decreases |events|
  {
    hide NothingLost, Sound, Accounted, Step, StartsSpare, StopsSpare, Looping;
    if events != [] {
      StepLoops(s, events[0], u, calm);
      StepKeeps(s, events[0]);
      RunLoops(Step(s, events[0]), events[1..], u, calm);
    }
  }

  lemma FreshLoops(reg: UnitTable, script: seq<Round>, now: nat, u: UnitId, calm: bool)
    requires WellFormed(reg) && u < |reg.units|
    ensures Looping(Fresh(reg, script, now), u, calm) && MayFire(Fresh(reg, script, now), u)
  {
  }

  lemma BootLoops(reg: UnitTable, target: string, script: seq<Round>, now: nat, u: UnitId, calm: bool)
    requires WellFormed(reg) && StartPlan(reg, target).Plan? && u < |reg.units|
    ensures Looping(Boot(reg, target, script, now), u, calm)
  {
    hide Activate, Sound, NothingLost, Accounted, WellFormed, StartPlan, Looping, MayFire;
    FreshInvariant(reg, script, now);
    StartOrderValid(reg, target);
    FreshLoops(reg, script, now, u, calm);
    ActivateLoops(Fresh(reg, script, now), StartPlan(reg, target).order, u, calm);
  }

  /** With `burst` delays longer than the interval the limiter never trips: in no run is
      a restart refused to a unit that only its own restarts start. Nor is it with a burst
      of zero. */
  lemma LimiterNeverTrips(reg: UnitTable, target: string, script: seq<Round>, now: nat, events: seq<Event>, u: UnitId)
    requires WellFormed(reg) && StartPlan(reg, target).Plan? && u < |reg.units|
    requires OnlyRestarts(Boot(reg, target, script, now), events, u)
    requires BurstOf(reg, u) == 0 || BurstOf(reg, u) * DelayOf(reg, u) > IntervalOf(reg, u)
    ensures !IsRefused(Run(Boot(reg, target, script, now), events).journal, u)
  {
    hide Boot, Run, Sound, NothingLost, Accounted, OnlyRestarts, WellFormed, StartPlan, IsRefused, Times, Considered, FiredTimes, Queued, OwnPids, AllFired;
    BootInvariant(reg, target, script, now);
    BootLoops(reg, target, script, now, u, false);
    RunLoops(Boot(reg, target, script, now), events, u, false);
    SameParameters(reg, Run(Boot(reg, target, script, now), events).reg, u);
  }

  lemma SameParameters(a: UnitTable, b: UnitTable, u: UnitId)
    requires a.units == b.units && u < |a.units|
    ensures BurstOf(a, u) == BurstOf(b, u) && DelayOf(a, u) == DelayOf(b, u) && IntervalOf(a, u) == IntervalOf(b, u)
  {
  }

  /** Once more than `burst` failures were considered: exactly the first `burst` restarts
      were granted, every one of them was fired, the next was refused, and nothing came
      after it; the unit has no process and nothing queued, and is Failed, in calm. */
  ghost predicate GaveUp(r: Sup, u: UnitId, calm: bool)
    requires u < |r.reg.units| && u < |r.units|
  {
    var ts, es, burst := Times(r.journal, u), Considered(r.journal, u), BurstOf(r.reg, u);
    && |es| == burst + 1 && ts == es[..burst] && |FiredTimes(r.journal, u)| == burst && IsRefused(r.journal, u)
    && r.units[u].pid.None? && Entries(r.pending, u) == 0
    && (r.units[u].state == Failed || (!calm && r.units[u].state == Inactive))
  }

  /** With every failure coming at most `gap` after the one before, and `burst` such gaps
      inside the interval: never more than `burst` restarts are granted, and after more
      failures than that the unit has been given up. It is then Failed unless some stop
      command reached it. */
  lemma ExactlyBurstRestarts(reg: UnitTable, target: string, script: seq<Round>, now: nat, events: seq<Event>, u: UnitId, gap: nat)
    requires WellFormed(reg) && StartPlan(reg, target).Plan? && u < |reg.units|
    requires OnlyRestarts(Boot(reg, target, script, now), events, u)
    requires var r := Run(Boot(reg, target, script, now), events);
      AtMostApart(Considered(r.journal, u), gap) && 0 < BurstOf(reg, u) && BurstOf(reg, u) * gap <= IntervalOf(reg, u)
    ensures var s := Boot(reg, target, script, now);
      var r := Run(s, events);
      && |Times(r.journal, u)| <= BurstOf(reg, u)
      && (|Considered(r.journal, u)| > BurstOf(reg, u) ==> GaveUp(r, u, NeverStopped(s, events, u)))
  {
    hide Boot, Run, Sound, NothingLost, Ledger, FiredOnTime, OnlyRestarts, NeverStopped, WellFormed, StartPlan, Times, Considered, FiredTimes, Tracks;
    var s := Boot(reg, target, script, now);
    var calm := NeverStopped(s, events, u);
    BootInvariant(reg, target, script, now);
    BootLoops(reg, target, script, now, u, calm);
    RunKeeps(s, events);
    RunLoops(s, events, u, calm);
    var r := Run(s, events);
    SameParameters(reg, r.reg, u);
    assert Limited(r, u);
    BurstBound(r, u, calm, gap);
  }

  lemma BurstBound(r: Sup, u: UnitId, calm: bool, gap: nat)
    requires Looping(r, u, calm) && Limited(r, u) && AtMostApart(Considered(r.journal, u), gap)
    requires 0 < BurstOf(r.reg, u) && BurstOf(r.reg, u) * gap <= IntervalOf(r.reg, u)
    ensures |Times(r.journal, u)| <= BurstOf(r.reg, u)
    ensures |Considered(r.journal, u)| > BurstOf(r.reg, u) ==> GaveUp(r, u, calm)
  {
    hide Times, Considered, FiredTimes, IsRefused, BurstOf, IntervalOf, DelayOf, WellFormed, Queued, Nondecreasing;
    var ts, es, burst := Times(r.journal, u), Considered(r.journal, u), BurstOf(r.reg, u);
    assert ts == es || ts == es[..|ts|];
    FewGranted(ts, es, gap, burst, IntervalOf(r.reg, u));
  }

  lemma FewGranted(ts: seq<nat>, es: seq<nat>, gap: nat, burst: nat, interval: nat)
    requires |ts| <= |es| && ts == es[..|ts|] && AtMostApart(es, gap) && Spread(ts, burst, interval) && Nondecreasing(ts)
    requires 0 < burst && burst * gap <= interval
    ensures |ts| <= burst
  {
    hide Spread, AtMostApart;
    if |ts| > burst {
      SpanAtMost(es, gap, 0, burst);
      SpreadGap(ts, burst, interval, 0, burst);
    }
  }
}
