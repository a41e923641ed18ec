/** What becomes of scheduled restarts: each is pending, fired once and not early, or
    dropped; and the start limiter bounds how many there are in any window of time. */
module Restarts {
  import opened Config
  import opened Sequences
  import opened Registry
  import opened Kernel
  import opened Supervisor
  import opened Bookkeeping
  import opened Stopping

  // ---------- The ledger ----------

  datatype Movement = Scheduling | Firing | Dropping

  /** The restart a note is about, when the note records that movement. */
  function Entry(n: Note, m: Movement): Option<PendingRestart> {
    match n
    case Scheduled(u, _, fireAt) => if m == Scheduling then Some(PendingRestart(u, fireAt)) else None
    case Fired(u, _, fireAt) => if m == Firing then Some(PendingRestart(u, fireAt)) else None
    case Dropped(u, fireAt) => if m == Dropping then Some(PendingRestart(u, fireAt)) else None
    case _ => None
  }

  /** All restarts that made a movement, with how often. */
  ghost function Tally(journal: seq<Note>, m: Movement): multiset<PendingRestart> {
    if journal == [] then multiset{}
    else
      var e := Entry(journal[|journal| - 1], m);
      Tally(journal[..|journal| - 1], m) + if e.Some? then multiset{e.value} else multiset{}
  }

  lemma {:induction false} TallyConcat(a: seq<Note>, b: seq<Note>, m: Movement)
    ensures Tally(a + b, m) == Tally(a, m) + Tally(b, m)
    decreases |b|
  {
    if b == [] {
      assert a + b == a;
    } else {
      assert (a + b)[..|a + b| - 1] == a + b[..|b| - 1];
      TallyConcat(a, b[..|b| - 1], m);
    }
  }

  lemma TallyOne(n: Note, m: Movement)
    ensures Tally([n], m) == if Entry(n, m).Some? then multiset{Entry(n, m).value} else multiset{}
  {
    assert [n][..0] == [];
  }

  /** Every scheduled restart is pending, fired or dropped, and no two of these. */
  ghost predicate Ledger(s: Sup) {
    Tally(s.journal, Scheduling) == multiset(s.pending) + Tally(s.journal, Firing) + Tally(s.journal, Dropping)
  }

  ghost predicate FiredOnTime(journal: seq<Note>) {
    forall i :: 0 <= i < |journal| && journal[i].Fired? ==> journal[i].at >= journal[i].fireAt
  }

  // ---------- The history of one unit ----------

  /** When restarts of u were scheduled. */
  ghost function Times(journal: seq<Note>, u: UnitId): seq<nat> {
    if journal == [] then []
    else
      var n := journal[|journal| - 1];
      Times(journal[..|journal| - 1], u) + if n.Scheduled? && n.unit == u then [n.at] else []
  }

  lemma {:induction false} TimesConcat(a: seq<Note>, b: seq<Note>, u: UnitId)
    ensures Times(a + b, u) == Times(a, u) + Times(b, u)
    decreases |b|
  {
    if b == [] {
      assert a + b == a;
    } else {
      assert (a + b)[..|a + b| - 1] == a + b[..|b| - 1];
      TimesConcat(a, b[..|b| - 1], u);
    }
  }

  lemma TimesOne(n: Note, u: UnitId)
    ensures Times([n], u) == if n.Scheduled? && n.unit == u then [n.at] else []
  {
    assert [n][..0] == [];
  }

  ghost predicate Nondecreasing(ts: seq<nat>) {
    forall i, j :: 0 <= i < j < |ts| ==> ts[i] <= ts[j]
  }

  /** The kept history is the end of the whole one, and what it lacks is too old to count. */
  ghost predicate Tracks(history: seq<nat>, ts: seq<nat>, now: nat, interval: nat) {
    && Nondecreasing(ts) && (forall i :: 0 <= i < |ts| ==> ts[i] <= now)
    && |history| <= |ts| && history == ts[|ts| - |history|..]
    && (forall i :: 0 <= i < |ts| - |history| ==> ts[i] + interval < now)
  }

  /** Any burst + 1 scheduled restarts in a row span more than the interval. */
  ghost predicate Spread(ts: seq<nat>, burst: nat, interval: nat) {
    burst > 0 ==> forall i, j :: 0 <= i && j == i + burst && j < |ts| ==> ts[i] + interval < ts[j]
  }

  lemma TracksLater(history: seq<nat>, ts: seq<nat>, now: nat, later: nat, interval: nat)
    requires Tracks(history, ts, now, interval) && now <= later
    ensures Tracks(history, ts, later, interval)
  {
  }

  /** Pruning a nondecreasing history leaves its recent end. */
  lemma {:induction false} RecentIsSuffix(history: seq<nat>, now: nat, interval: nat)
    requires Nondecreasing(history) && forall i :: 0 <= i < |history| ==> history[i] <= now
    ensures var r := Recent(history, now, interval);
      && |r| <= |history| && r == history[|history| - |r|..]
      && (forall i :: 0 <= i < |history| - |r| ==> history[i] + interval < now)
      && (forall t :: t in r ==> now <= t + interval)
  {
    if history == [] {
    } else if now - history[0] <= interval {
      AllRecent(history, now, interval);
      assert history[0..] == history;
    } else {
      var rest := history[1..];
      assert forall i :: 0 <= i < |rest| ==> rest[i] == history[i + 1];
      RecentIsSuffix(rest, now, interval);
      var r := Recent(history, now, interval);
      assert r == Recent(rest, now, interval);
      assert rest[|rest| - |r|..] == history[|history| - |r|..];
      assert forall i :: 0 < i < |history| ==> history[i] == rest[i - 1];
    }
  }

  lemma {:induction false} AllRecent(history: seq<nat>, now: nat, interval: nat)
    requires forall i :: 0 <= i < |history| ==> now - history[i] <= interval
    ensures Recent(history, now, interval) == history
  {
    if history != [] { AllRecent(history[1..], now, interval); }
  }

  /** One decision of the limiter keeps track of the history and keeps it spread out. */
  lemma ConsiderKeeps(history: seq<nat>, ts: seq<nat>, now: nat, burst: nat, interval: nat)
    requires Tracks(history, ts, now, interval) && Spread(ts, burst, interval)
    ensures var (h, allowed) := Consider(history, now, burst, interval);
      var ts' := if allowed then ts + [now] else ts;
      Tracks(h, ts', now, interval) && Spread(ts', burst, interval)
  {
    PrunedTracks(history, ts, now, interval);
    var recent := Recent(history, now, interval);
    if !(burst > 0 && |recent| >= burst) {
      PushTracks(recent, ts, now, interval);
      if burst > 0 { PushSpread(recent, ts, now, burst, interval); }
    }
  }

  lemma PrunedTracks(history: seq<nat>, ts: seq<nat>, now: nat, interval: nat)
    requires Tracks(history, ts, now, interval)
    ensures Tracks(Recent(history, now, interval), ts, now, interval)
  {
    var k := |ts| - |history|;
    assert forall i :: 0 <= i < |history| ==> history[i] == ts[k + i];
    RecentIsSuffix(history, now, interval);
    var r := Recent(history, now, interval);
    forall i | 0 <= i < |ts| - |r| ensures ts[i] + interval < now {
      if i >= k { assert history[i - k] == ts[i]; }
    }
  }

  lemma PushTracks(recent: seq<nat>, ts: seq<nat>, now: nat, interval: nat)
    requires Tracks(recent, ts, now, interval)
    ensures Tracks(recent + [now], ts + [now], now, interval)
  {
  }

  lemma PushSpread(recent: seq<nat>, ts: seq<nat>, now: nat, burst: nat, interval: nat)
    requires Tracks(recent, ts, now, interval) && Spread(ts, burst, interval) && |recent| < burst
    ensures Spread(ts + [now], burst, interval)
  {
    if |ts| >= burst { assert ts[|ts| - burst] + interval < now; }
  }

  // ---------- What every operation keeps ----------

  function BurstOf(reg: UnitTable, u: UnitId): nat
    requires u < |reg.units|
  {
    if reg.units[u].file.service.Some? then reg.units[u].file.service.value.startLimitBurst else 0
  }

  function IntervalOf(reg: UnitTable, u: UnitId): nat
    requires u < |reg.units|
  {
    if reg.units[u].file.service.Some? then LimitInterval(reg.units[u].file.service.value) else 0
  }

  ghost predicate Limited(s: Sup, u: UnitId)
    requires Shaped(s) && u < |s.units|
  {
    var ts := Times(s.journal, u);
    Tracks(s.units[u].restartHistory, ts, s.world.now, IntervalOf(s.reg, u)) && Spread(ts, BurstOf(s.reg, u), IntervalOf(s.reg, u))
  }

  ghost predicate AllLimited(s: Sup)
    requires Shaped(s)
  {
    forall u: UnitId :: u < |s.units| ==> Limited(s, u)
  }

  /** The restart accounts are in order. */
  ghost predicate Accounted(s: Sup) {
    Shaped(s) && Ledger(s) && FiredOnTime(s.journal) && AllLimited(s)
  }

  /** r differs from s in nothing the accounts are about, but time may have passed. */
  ghost predicate SameAccounts(s: Sup, r: Sup) {
    && SameUnits(s, r) && s.world.now <= r.world.now && r.pending == s.pending && r.shuttingDown == s.shuttingDown
    && s.journal <= r.journal && Uneventful(r.journal[|s.journal|..])
    && (forall u: UnitId :: u < |s.units| ==> r.units[u].restartHistory == s.units[u].restartHistory)
  }

  ghost predicate Uneventful(notes: seq<Note>) {
    forall n :: n in notes ==> n.Started? || n.SpawnFailed? || n.OneshotEnded?
  }

  lemma {:induction false} UneventfulTallies(notes: seq<Note>, m: Movement, u: UnitId)
    requires Uneventful(notes)
    ensures Tally(notes, m) == multiset{} && Times(notes, u) == []
  {
    if notes != [] {
      assert notes[|notes| - 1] in notes;
      UneventfulTallies(notes[..|notes| - 1], m, u);
    }
  }

  lemma UneventfulAppend(a: seq<Note>, b: seq<Note>, m: Movement, u: UnitId)
    requires a <= b && Uneventful(b[|a|..])
    ensures Tally(b, m) == Tally(a, m) && Times(b, u) == Times(a, u)
    ensures FiredOnTime(a) ==> FiredOnTime(b)
  {
    hide Tally, Times, Uneventful, FiredOnTime;
    var c := b[|a|..];
    assert b == a + c;
    UneventfulTallies(c, m, u);
    TallyConcat(a, c, m);
    TimesConcat(a, c, u);
    UneventfulOnTime(a, c);
  }

  lemma UneventfulOnTime(a: seq<Note>, c: seq<Note>)
    requires Uneventful(c)
    ensures FiredOnTime(a) ==> FiredOnTime(a + c)
  {
    forall k | 0 <= k < |c| ensures !c[k].Fired? { assert c[k] in c; }
  }

  lemma SameAccountsKeep(s: Sup, r: Sup)
    requires Accounted(s) && SameAccounts(s, r)
    ensures Accounted(r)
  {
    hide Tally, Times, Tracks, Spread, FiredOnTime, Uneventful;
    UneventfulAppend(s.journal, r.journal, Scheduling, 0);
    UneventfulAppend(s.journal, r.journal, Firing, 0);
    UneventfulAppend(s.journal, r.journal, Dropping, 0);
    forall u: UnitId | u < |r.units| ensures Limited(r, u) {
      assert Limited(s, u);
      UneventfulAppend(s.journal, r.journal, Scheduling, u);
      TracksLater(s.units[u].restartHistory, Times(s.journal, u), s.world.now, r.world.now, IntervalOf(s.reg, u));
    }
  }

  lemma SameAccountsTrans(a: Sup, b: Sup, c: Sup)
    requires SameAccounts(a, b) && SameAccounts(b, c)
    ensures SameAccounts(a, c)
  {
    assert c.journal[|a.journal|..] == b.journal[|a.journal|..] + c.journal[|b.journal|..];
  }

  // ---------- Starting ----------

  lemma PlainNote(s: Sup, r: Sup, n: Note)
    requires Shaped(s) && SameUnits(s, r) && r.journal == s.journal + [n] && (n.Started? || n.SpawnFailed? || n.OneshotEnded?)
    requires r.pending == s.pending && r.shuttingDown == s.shuttingDown && s.world.now <= r.world.now
    requires forall u: UnitId :: u < |s.units| ==> r.units[u].restartHistory == s.units[u].restartHistory
    ensures SameAccounts(s, r)
  {
    assert r.journal[|s.journal|..] == [n];
  }

  lemma NoNote(s: Sup, r: Sup)
    requires Shaped(s) && SameUnits(s, r) && r.journal == s.journal
    requires r.pending == s.pending && r.shuttingDown == s.shuttingDown && s.world.now <= r.world.now
    requires forall u: UnitId :: u < |s.units| ==> r.units[u].restartHistory == s.units[u].restartHistory
    ensures SameAccounts(s, r)
  {
    assert r.journal[|s.journal|..] == [];
  }

  lemma StateAccounts(s: Sup, w: World, id: UnitId, st: ActiveState)
    requires Shaped(s) && id < |s.units| && s.world.now <= w.now
    ensures SameAccounts(s, SetState(s.(world := w), id, st))
  {
    NoNote(s, SetState(s.(world := w), id, st));
  }

  lemma SpawnFailureAccounts(s: Sup, id: UnitId)
    requires Shaped(s) && id < |s.units|
    ensures SameAccounts(s, SpawnFailure(s, id))
  {
    PlainNote(s, SpawnFailure(s, id), SpawnFailed(id));
  }

  lemma WithPidAccounts(s: Sup, id: UnitId, pid: Pid)
    requires Shaped(s) && id < |s.units|
    ensures SameAccounts(s, WithPid(s, id, pid))
  {
    PlainNote(s, WithPid(s, id, pid), Started(id, pid));
  }

  lemma FinishOneshotAccounts(s: Sup, id: UnitId, pid: Pid, svc: ServiceSection, outcome: OneshotOutcome, w: World)
    requires Shaped(s) && id < |s.units| && s.world.now <= w.now
    ensures SameAccounts(s, FinishOneshot(s, id, pid, svc, outcome, w))
  {
    PlainNote(s, FinishOneshot(s, id, pid, svc, outcome, w), OneshotEnded(id, outcome));
  }

  lemma StartServiceAccounts(s: Sup, id: UnitId, svc: ServiceSection)
    requires Sound(s) && id < |s.units|
    ensures SameAccounts(s, StartService(s, id, svc))
  {
    hide SameAccounts, PidsKnown, WorldInv, WaitOneshot, Spawn, Calls, SpawnFailure, WithPid, FinishOneshot;
    SoundWorld(s);
    SpawnKeeps(s.world);
    var (child, w) := Spawn(s.world);
    var s1 := SetState(s.(world := w), id, Activating);
    StateAccounts(s, w, id, Activating);
    if child.None? {
      SpawnFailureAccounts(s1, id);
      SameAccountsTrans(s, s1, SpawnFailure(s1, id));
    } else {
      StartedAccounts(s, s1, id, child.value, svc, w);
    }
  }

  lemma StartedAccounts(s: Sup, s1: Sup, id: UnitId, pid: Pid, svc: ServiceSection, w: World)
    requires Shaped(s) && Shaped(s1) && SameAccounts(s, s1) && id < |s.units| && s1.world == w && WorldInv(w) && IsUnreaped(w, pid)
    ensures SameAccounts(s, SetState(WithPid(s1, id, pid), id, Active))
    ensures var (outcome, w') := WaitOneshot(w, pid, w.now + StartTimeout(svc));
      SameAccounts(s, FinishOneshot(WithPid(s1, id, pid), id, pid, svc, outcome, w'))
  {
    var s2 := WithPid(s1, id, pid);
    WithPidAccounts(s1, id, pid);
    StateAccounts(s2, w, id, Active);
    var (outcome, w') := WaitOneshot(w, pid, w.now + StartTimeout(svc));
    WaitOneshotKeeps(w, pid, w.now + StartTimeout(svc));
    FinishOneshotAccounts(s2, id, pid, svc, outcome, w');
    SameAccountsTrans(s, s1, s2);
    SameAccountsTrans(s, s2, SetState(s2, id, Active));
    SameAccountsTrans(s, s2, FinishOneshot(s2, id, pid, svc, outcome, w'));
  }

  lemma StartUnitAccounts(s: Sup, id: UnitId)
    requires Sound(s) && id < |s.units|
    ensures SameAccounts(s, StartUnit(s, id))
  {
    hide Uneventful, SameAccounts, PidsKnown, WorldInv, StartService, HasFailedDependency;
    NoNote(s, SetState(s, id, Failed));
    NoNote(s, SetState(s, id, Active));
    if s.reg.units[id].file.service.Some? {
      StartServiceAccounts(s, id, s.reg.units[id].file.service.value);
    }
  }

  lemma {:induction false} ActivateAccounts(s: Sup, plan: seq<UnitId>)
    requires Sound(s) && ValidIds(|s.units|, plan)
    ensures SameAccounts(s, Activate(s, plan))
    decreases |plan|
  {
    hide Uneventful, SameAccounts, PidsKnown, WorldInv, StartUnit;
    if plan == [] {
      NoNote(s, s);
    } else {
      StartUnitSound(s, plan[0]);
      StartUnitAccounts(s, plan[0]);
      ActivateAccounts(StartUnit(s, plan[0]), plan[1..]);
      SameAccountsTrans(s, StartUnit(s, plan[0]), Activate(s, plan));
    }
  }

  lemma {:induction false} StartInactiveAccounts(s: Sup, plan: seq<UnitId>)
    requires Sound(s) && ValidIds(|s.units|, plan)
    ensures SameAccounts(s, StartInactive(s, plan))
    decreases |plan|
  {
    hide Uneventful, SameAccounts, PidsKnown, WorldInv, StartUnit;
    if plan == [] {
      NoNote(s, s);
    } else if s.units[plan[0]].state == Active {
      StartInactiveAccounts(s, plan[1..]);
    } else {
      StartUnitSound(s, plan[0]);
      StartUnitAccounts(s, plan[0]);
      StartInactiveAccounts(StartUnit(s, plan[0]), plan[1..]);
      SameAccountsTrans(s, StartUnit(s, plan[0]), StartInactive(s, plan));
    }
  }

  // ---------- Child exits ----------

  /** One restart more, noted and queued. */
  lemma ScheduledAccounted(s: Sup, r: Sup, id: UnitId, fireAt: nat)
    requires Accounted(s) && SameUnits(s, r) && id < |s.units| && r.world == s.world
    requires r.pending == s.pending + [PendingRestart(id, fireAt)]
    requires r.journal == s.journal + [Scheduled(id, s.world.now, fireAt)]
    requires Limited(r, id)
    requires forall u: UnitId :: u < |s.units| && u != id ==> r.units[u].restartHistory == s.units[u].restartHistory
    ensures Accounted(r)
  {
    hide Tally, Times, Tracks, Spread;
    var n := Scheduled(id, s.world.now, fireAt);
    forall m ensures Tally(r.journal, m) == Tally(s.journal, m) + if m == Scheduling then multiset{PendingRestart(id, fireAt)} else multiset{} {
      TallyConcat(s.journal, [n], m);
      TallyOne(n, m);
    }
    forall u: UnitId | u < |r.units| ensures Limited(r, u) {
      if u != id {
        TimesConcat(s.journal, [n], u);
        TimesOne(n, u);
        assert Times(s.journal, u) + [] == Times(s.journal, u);
        assert Limited(s, u);
      }
    }
  }

  /** The decision for one unit, before it is noted. */
  lemma LimitedByDecision(s: Sup, r: Sup, id: UnitId, svc: ServiceSection)
    requires Accounted(s) && SameUnits(s, r) && id < |s.units| && s.reg.units[id].file.service == Some(svc) && r.world == s.world
    requires var (h, allowed) := Consider(s.units[id].restartHistory, s.world.now, svc.startLimitBurst, LimitInterval(svc));
      && r.units[id].restartHistory == h
      && Times(r.journal, id) == if allowed then Times(s.journal, id) + [s.world.now] else Times(s.journal, id)
    ensures Limited(r, id)
  {
    hide Tally, Times, Tracks, Spread, FiredOnTime, Consider, LimitInterval, Ledger;
    assert Limited(s, id);
    ConsiderKeeps(s.units[id].restartHistory, Times(s.journal, id), s.world.now, svc.startLimitBurst, LimitInterval(svc));
  }

  lemma MaybeScheduleAccounted(s: Sup, id: UnitId, st: Status)
    requires Accounted(s) && id < |s.units|
    ensures Accounted(MaybeSchedule(s, id, st))
  {
    hide Tally, Times, Tracks, Spread, FiredOnTime, Consider, LimitInterval, RestartDelay, Ledger, AllLimited, Limited, WantsRestart;
    var service := s.reg.units[id].file.service;
    if service.Some? && WantsRestart(service.value.restart, st) {
      var svc, now, r := service.value, s.world.now, MaybeSchedule(s, id, st);
      if Consider(s.units[id].restartHistory, now, svc.startLimitBurst, LimitInterval(svc)).1 {
        ScheduleNoted(s.journal, id, now, now + RestartDelay(svc));
        LimitedByDecision(s, r, id, svc);
        ScheduledAccounted(s, r, id, now + RestartDelay(svc));
      } else {
        RefusalKeepsTimes(s.journal, id, now, id);
        LimitedByDecision(s, r, id, svc);
        RefusedAccounted(s, r, id);
      }
    }
  }

  lemma ScheduleNoted(journal: seq<Note>, id: UnitId, now: nat, fireAt: nat)
    ensures Times(journal + [Scheduled(id, now, fireAt)], id) == Times(journal, id) + [now]
  {
    TimesConcat(journal, [Scheduled(id, now, fireAt)], id);
    TimesOne(Scheduled(id, now, fireAt), id);
  }

  lemma RefusedAccounted(s: Sup, r: Sup, id: UnitId)
    requires Accounted(s) && SameUnits(s, r) && id < |s.units| && r.world == s.world
    requires r.pending == s.pending && r.journal == s.journal + [Refused(id, s.world.now)] && Limited(r, id)
    requires forall u: UnitId :: u < |s.units| && u != id ==> r.units[u].restartHistory == s.units[u].restartHistory
    ensures Accounted(r)
  {
    hide Tally, Times, Tracks, Spread;
    var n := Refused(id, s.world.now);
    forall m ensures Tally(r.journal, m) == Tally(s.journal, m) {
      TallyConcat(s.journal, [n], m);
      TallyOne(n, m);
    }
    forall u: UnitId | u < |r.units| ensures Limited(r, u) {
      RefusalKeepsTimes(s.journal, id, s.world.now, u);
      assert Limited(s, u) && (u == id ==> Limited(r, id));
    }
  }

  lemma RefusalKeepsTimes(journal: seq<Note>, id: UnitId, now: nat, u: UnitId)
    ensures Times(journal + [Refused(id, now)], u) == Times(journal, u)
  {
    TimesConcat(journal, [Refused(id, now)], u);
    TimesOne(Refused(id, now), u);
  }

  lemma OnChildExitAccounted(s: Sup, pid: Pid, st: Status)
    requires Accounted(s)
    ensures Accounted(OnChildExit(s, pid, st))
  {
    hide Ledger, Uneventful, MaybeSchedule, FiredOnTime, Limited;
    if pid in s.byPid {
      var id := s.byPid[pid];
      var s1 := SetState(WithoutPid(s, id, pid), id, if s.shuttingDown || IsClean(st) then Inactive else Failed);
      NoNote(s, s1);
      SameAccountsKeep(s, s1);
      MaybeScheduleAccounted(s1, id, st);
    }
  }

  lemma LaterAccounted(s: Sup, w: World)
    requires Accounted(s) && s.world.now <= w.now
    ensures Accounted(s.(world := w))
  {
    NoNote(s, s.(world := w));
    SameAccountsKeep(s, s.(world := w));
  }

  lemma {:induction false} ReapAllAccounted(s: Sup)
    requires Accounted(s)
    ensures Accounted(ReapAll(s))
    decreases |s.world.script|, Left(s.world)
  {
    hide Ledger, FiredOnTime, AllLimited, OnChildExit, WaitAny;
    WaitAnyShrinks(s.world);
    var (child, w) := WaitAny(s.world);
    LaterAccounted(s, w);
    if child.Some? {
      OnChildExitAccounted(s.(world := w), child.value.pid, child.value.status);
      ReapAllAccounted(OnChildExit(s.(world := w), child.value.pid, child.value.status));
    }
  }

  // ---------- Restarts leaving the queue ----------

  /** The notes account for exactly what left the queue. */
  ghost predicate Moves(before: seq<PendingRestart>, after: seq<PendingRestart>, notes: seq<Note>, m: Movement) {
    && multiset(before) == multiset(after) + Tally(notes, m)
    && (forall k :: k != m ==> Tally(notes, k) == multiset{})
    && (forall u :: Times(notes, u) == [])
    && FiredOnTime(notes)
  }

  lemma MovesPrepend(p: PendingRestart, before: seq<PendingRestart>, after: seq<PendingRestart>, n: Note, notes: seq<Note>, m: Movement)
    requires Moves(before, after, notes, m) && m != Scheduling && Entry(n, m) == Some(p) && (n.Fired? ==> n.at >= n.fireAt)
    ensures Moves([p] + before, after, [n] + notes, m)
  {
    forall k ensures Tally([n] + notes, k) == (if k == m then multiset{p} else multiset{}) + Tally(notes, k) {
      TallyConcat([n], notes, k);
      TallyOne(n, k);
    }
    forall u ensures Times([n] + notes, u) == [] {
      TimesConcat([n], notes, u);
      TimesOne(n, u);
    }
  }

  lemma MovesKeepOne(p: PendingRestart, before: seq<PendingRestart>, after: seq<PendingRestart>, notes: seq<Note>, m: Movement)
    requires Moves(before, after, notes, m)
    ensures Moves([p] + before, [p] + after, notes, m)
  {
  }

  lemma MovesTrans(a: seq<PendingRestart>, b: seq<PendingRestart>, c: seq<PendingRestart>, n1: seq<Note>, n2: seq<Note>, m: Movement)
    requires Moves(a, b, n1, m) && Moves(b, c, n2, m)
    ensures Moves(a, c, n1 + n2, m)
  {
    forall k ensures Tally(n1 + n2, k) == Tally(n1, k) + Tally(n2, k) { TallyConcat(n1, n2, k); }
    forall u ensures Times(n1 + n2, u) == [] { TimesConcat(n1, n2, u); }
  }

  lemma NothingMoves(pending: seq<PendingRestart>, m: Movement)
    ensures Moves(pending, pending, [], m)
  {
  }

  lemma {:induction false} FiringMoves(pending: seq<PendingRestart>, now: nat)
    ensures Moves(pending, NotDue(pending, now), FiredNotes(pending, now), Firing)
  {
    hide Moves;
    NothingMoves([], Firing);
    if pending != [] {
      FiringMoves(pending[1..], now);
      assert pending == [pending[0]] + pending[1..];
      if pending[0].fireAt <= now {
        MovesPrepend(pending[0], pending[1..], NotDue(pending, now), Fired(pending[0].unit, now, pending[0].fireAt), FiredNotes(pending[1..], now), Firing);
      } else {
        MovesKeepOne(pending[0], pending[1..], NotDue(pending[1..], now), FiredNotes(pending, now), Firing);
      }
    }
  }

  lemma {:induction false} DroppingMoves(pending: seq<PendingRestart>, id: UnitId)
    ensures Moves(pending, DropOf(pending, id), DroppedNotes(pending, id), Dropping)
  {
    hide Moves;
    NothingMoves([], Dropping);
    if pending != [] {
      DroppingMoves(pending[1..], id);
      assert pending == [pending[0]] + pending[1..];
      if pending[0].unit == id {
        MovesPrepend(pending[0], pending[1..], DropOf(pending, id), Dropped(id, pending[0].fireAt), DroppedNotes(pending[1..], id), Dropping);
      } else {
        MovesKeepOne(pending[0], pending[1..], DropOf(pending[1..], id), DroppedNotes(pending, id), Dropping);
      }
    }
  }

  lemma {:induction false} DroppingPlanMoves(pending: seq<PendingRestart>, plan: seq<UnitId>)
    ensures Moves(pending, DropPlan(pending, plan), DropNotes(pending, plan), Dropping)
    decreases |plan|
  {
    hide Moves;
    NothingMoves(pending, Dropping);
    if plan != [] {
      DroppingMoves(pending, plan[0]);
      DroppingPlanMoves(DropOf(pending, plan[0]), plan[1..]);
      MovesTrans(pending, DropOf(pending, plan[0]), DropPlan(pending, plan), DroppedNotes(pending, plan[0]), DropNotes(DropOf(pending, plan[0]), plan[1..]), Dropping);
    }
  }

  lemma {:induction false} DroppingAllMoves(pending: seq<PendingRestart>)
    ensures Moves(pending, [], DropAllNotes(pending), Dropping)
  {
    hide Moves;
    NothingMoves([], Dropping);
    if pending != [] {
      DroppingAllMoves(pending[1..]);
      assert pending == [pending[0]] + pending[1..];
      MovesPrepend(pending[0], pending[1..], [], Dropped(pending[0].unit, pending[0].fireAt), DropAllNotes(pending[1..]), Dropping);
    }
  }

  lemma MovesAccounted(s: Sup, r: Sup, notes: seq<Note>, m: Movement)
    requires Accounted(s) && SameUnits(s, r) && s.world.now <= r.world.now && r.journal == s.journal + notes
    requires m != Scheduling && Moves(s.pending, r.pending, notes, m)
    requires forall u: UnitId :: u < |s.units| ==> r.units[u].restartHistory == s.units[u].restartHistory
    ensures Accounted(r)
  {
    hide Tally, Times, Tracks, Spread;
    forall k ensures Tally(r.journal, k) == Tally(s.journal, k) + Tally(notes, k) { TallyConcat(s.journal, notes, k); }
    forall u: UnitId | u < |r.units| ensures Limited(r, u) {
      TimesConcat(s.journal, notes, u);
      assert Times(s.journal, u) + [] == Times(s.journal, u);
      assert Limited(s, u);
      TracksLater(s.units[u].restartHistory, Times(s.journal, u), s.world.now, r.world.now, IntervalOf(s.reg, u));
    }
  }

  lemma FireDueAccounted(s: Sup)
    requires Sound(s) && Accounted(s)
    ensures Accounted(FireDue(s)) && FireDue(s).pending == NotDue(s.pending, s.world.now) && FireDue(s).shuttingDown == s.shuttingDown
  {
    hide Moves, Tally, Times, Tracks, Spread, Ledger, FiredOnTime, AllLimited, WorldInv, Uneventful, Activate;
    var now := s.world.now;
    var s1 := s.(pending := NotDue(s.pending, now), journal := s.journal + FiredNotes(s.pending, now));
    FiringMoves(s.pending, now);
    MovesAccounted(s, s1, FiredNotes(s.pending, now), Firing);
    DueUnitsValid(s.pending, now, |s.units|);
    ActivateAccounts(s1, DueUnits(s.pending, now));
    SameAccountsKeep(s1, FireDue(s));
  }

  lemma StopPlannedAccounted(s: Sup, plan: seq<UnitId>)
    requires Sound(s) && Accounted(s) && ValidIds(|s.units|, plan)
    ensures Accounted(StopPlanned(s, plan))
  {
    hide Moves, Tally, Times, Tracks, Spread, Ledger, FiredOnTime, AllLimited, WorldInv, StopPlanned, DropPlan, DropNotes, Forgot, DrainCalls, Calls, Terms;
    StopPlannedSound(s, plan);
    StopPlannedUnits(s, plan);
    DroppingPlanMoves(s.pending, plan);
    MovesAccounted(s, StopPlanned(s, plan), DropNotes(s.pending, plan), Dropping);
  }

  lemma InitiateShutdownAccounted(s: Sup)
    requires Accounted(s)
    ensures Accounted(InitiateShutdown(s))
  {
    hide Moves, Tally, Times, Tracks, Spread, Ledger, FiredOnTime, AllLimited, TermAll;
    DroppingAllMoves(s.pending);
    TermAllTime(s.world, s.units);
    if !s.shuttingDown { MovesAccounted(s, InitiateShutdown(s), DropAllNotes(s.pending), Dropping); }
  }

  lemma {:induction false} TermAllTime(w: World, units: seq<UnitMeta>)
    ensures TermAll(w, units).now == w.now
    decreases |units|
  {
    if units != [] {
      TermAllTime(if units[0].pid.Some? then Kill(w, SIGTERM, units[0].pid.value) else w, units[1..]);
    }
  }

  // ---------- Sleeping until a deadline ----------

  lemma {:induction false} NextDeadlineIsEarliest(pending: seq<PendingRestart>)
    ensures NextDeadline(pending).None? <==> pending == []
    ensures forall p :: p in pending ==> NextDeadline(pending).Some? && NextDeadline(pending).value <= p.fireAt
    ensures pending != [] ==> exists p :: p in pending && p.fireAt == NextDeadline(pending).value
  {
    if pending != [] {
      NextDeadlineIsEarliest(pending[1..]);
      assert forall p :: p in pending <==> p == pending[0] || p in pending[1..];
    }
  }

  /** The event loop sleeps without limit only when nothing is queued, never past the
      earliest deadline, and no shorter than that or a minute demands; while a shutdown waits
      for the last processes it looks every tenth of a second. */
  lemma NeverOversleeps(s: Sup)
    ensures var t := ComputeTimeout(s);
      && -1 <= t && (t == -1 <==> s.pending == [] && !s.shuttingDown) && (s.pending == [] && s.shuttingDown ==> t == 100)
      && (forall p :: p in s.pending ==> t <= 60_000 && (s.world.now < p.fireAt ==> s.world.now + t * MILLI <= p.fireAt) && (p.fireAt <= s.world.now ==> t == 0))
      && (s.pending != [] ==> t == 60_000 || exists p :: p in s.pending && p.fireAt < s.world.now + (t + 1) * MILLI)
  {
    NextDeadlineIsEarliest(s.pending);
    if s.pending != [] {
      var first := NextDeadline(s.pending).value;
      assert exists p :: p in s.pending && p.fireAt == first;
    }
  }

  // ---------- The bound ----------

  /** The scheduled restarts that fall in a closed window. */
  ghost function InWindow(ts: seq<nat>, from: nat, length: nat): set<int> {
    set i | 0 <= i < |ts| && from <= ts[i] <= from + length
  }

  /** The limiter's promise: in any closed window as long as the interval there are at
      most burst restarts of a unit, although only a pruned history is kept. */
  lemma WindowBound(s: Sup, u: UnitId, from: nat)
    requires Shaped(s) && u < |s.units| && Limited(s, u) && BurstOf(s.reg, u) > 0
    ensures |InWindow(Times(s.journal, u), from, IntervalOf(s.reg, u))| <= BurstOf(s.reg, u)
  {
    SpreadBound(Times(s.journal, u), BurstOf(s.reg, u), IntervalOf(s.reg, u), from);
  }

  lemma SpreadBound(ts: seq<nat>, burst: nat, interval: nat, from: nat)
    requires burst > 0 && Nondecreasing(ts) && Spread(ts, burst, interval)
    ensures |InWindow(ts, from, interval)| <= burst
  {
    hide Spread, Nondecreasing;
    var W := InWindow(ts, from, interval);
    if |W| > 0 {
      var i := Least(W);
      var run := Stretch(i, burst);
      forall j | j in W ensures j in run {
        if j >= i + burst { SpreadGap(ts, burst, interval, i, j); }
      }
      SubsetCardinality(W, run);
    }
  }

  lemma SpreadGap(ts: seq<nat>, burst: nat, interval: nat, i: nat, j: nat)
    requires burst > 0 && Nondecreasing(ts) && Spread(ts, burst, interval) && i + burst <= j < |ts|
    ensures ts[i] + interval < ts[j]
  {
    assert ts[i] + interval < ts[i + burst];
  }

  ghost function Stretch(i: int, n: nat): (r: set<int>)
    ensures |r| == n && forall j :: j in r <==> i <= j < i + n
  {
    if n == 0 then {} else Stretch(i, n - 1) + {i + n - 1}
  }

  lemma Pick<T>(a: set<T>) returns (x: T)
    requires a != {}
    ensures x in a
  {
    x :| x in a;
  }

  lemma {:induction false} Least(a: set<int>) returns (m: int)
    requires |a| > 0
    ensures m in a && forall x :: x in a ==> m <= x
    decreases |a|
  {
    m := Pick(a);
    if |a - {m}| > 0 {
      var k := Least(a - {m});
      assert forall x :: x in a ==> x == m || x in a - {m};
      if k < m { m := k; }
    } else {
      assert forall x :: x in a && x != m ==> x in a - {m};
    }
  }
}
