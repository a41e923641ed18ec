/** The supervisor's state machine as functions on its whole state: what starting,
    child exits, restarts, stopping and shutdown do. */
module Supervisor {
  import opened Config
  import opened Sequences
  import opened Registry
  import opened Kernel

  datatype ActiveState = Inactive | Activating | Active | Deactivating | Failed

  datatype UnitMeta = UnitMeta(state: ActiveState, pid: Option<Pid>, restartHistory: seq<nat>)

  datatype PendingRestart = PendingRestart(unit: UnitId, fireAt: nat)

  datatype OneshotOutcome = Clean | Unclean | TimedOut

  /** What the supervisor reports as it goes. */
  datatype Note =
    | Started(unit: UnitId, pid: Pid)
    | SpawnFailed(unit: UnitId)
    | OneshotEnded(unit: UnitId, outcome: OneshotOutcome)
    | Scheduled(unit: UnitId, at: nat, fireAt: nat)
    | Refused(unit: UnitId, at: nat)
    | Fired(unit: UnitId, at: nat, fireAt: nat)
    | Dropped(unit: UnitId, fireAt: nat)

  datatype Sup = Sup(
    reg: UnitTable, units: seq<UnitMeta>, byPid: map<Pid, UnitId>, pending: seq<PendingRestart>,
    shuttingDown: bool, world: World, journal: seq<Note>)

  ghost predicate Shaped(s: Sup) {
    && WellFormed(s.reg) && |s.units| == |s.reg.units|
    && (forall p :: p in s.byPid ==> s.byPid[p] < |s.units|)
    && (forall r :: r in s.pending ==> r.unit < |s.units|)
  }

  /** A well-shaped state of the same registry and number of units. */
  ghost predicate SameUnits(s: Sup, r: Sup) {
    Shaped(r) && r.reg == s.reg && |r.units| == |s.units|
  }

  /** Ids of units there are n of. */
  ghost predicate ValidIds(n: nat, ids: seq<UnitId>) {
    forall i :: 0 <= i < |ids| ==> ids[i] < n
  }

  const POLL: nat := 20 * MILLI
  const DRAIN_PAUSE: nat := 50 * MILLI

  // ---------- Starting one unit ----------

  function SetState(s: Sup, id: UnitId, st: ActiveState): (r: Sup)
    requires id < |s.units|
    ensures Shaped(s) ==> SameUnits(s, r)
  {
    s.(units := s.units[id := s.units[id].(state := st)])
  }

  /** `wait_oneshot`: polls until the child exits or the deadline has passed. */
  function WaitOneshot(w: World, pid: Pid, deadline: nat): (OneshotOutcome, World)
    decreases if w.now < deadline then deadline - w.now else 0
  {
    AdvanceShortens(w);
    var w1 := Advance(w);
    var (r, w2) := WaitFor(w1, pid);
    match r
    case Collected(st) => (if IsClean(st) then Clean else Unclean, w2)
    case NoChild => (Unclean, w1)
    case Running =>
      if w1.now >= deadline then (TimedOut, Reap(AwaitExit(Kill(w1, SIGKILL, pid), pid), pid))
      else WaitOneshot(Sleep(w1, POLL), pid, deadline)
  }

  ghost predicate HasFailedDependency(s: Sup, id: UnitId)
    requires Shaped(s) && id < |s.units|
  {
    exists dep :: dep in HardTargets(s.reg, id) && dep < |s.units| && s.units[dep].state == Failed
  }

  function StartTimeout(svc: ServiceSection): nat {
    DurationOr(svc.timeoutStartSec, 30 * SECOND)
  }

  function StateAfterOneshot(svc: ServiceSection, outcome: OneshotOutcome): ActiveState {
    if outcome != Clean then Failed else if svc.remainAfterExit then Active else Inactive
  }

  function WithPid(s: Sup, id: UnitId, pid: Pid): (r: Sup)
    requires id < |s.units|
    ensures Shaped(s) ==> SameUnits(s, r)
  {
    s.(units := s.units[id := s.units[id].(pid := Some(pid))], byPid := s.byPid[pid := id], journal := s.journal + [Started(id, pid)])
  }

  function WithoutPid(s: Sup, id: UnitId, pid: Pid): (r: Sup)
    requires id < |s.units|
    ensures Shaped(s) ==> SameUnits(s, r)
  {
    s.(units := s.units[id := s.units[id].(pid := None)], byPid := s.byPid - {pid})
  }

  function SpawnFailure(s: Sup, id: UnitId): (r: Sup)
    requires id < |s.units|
    ensures Shaped(s) ==> SameUnits(s, r)
  {
    SetState(s, id, Failed).(journal := s.journal + [SpawnFailed(id)])
  }

  function FinishOneshot(s: Sup, id: UnitId, pid: Pid, svc: ServiceSection, outcome: OneshotOutcome, w: World): (r: Sup)
    requires id < |s.units|
    ensures Shaped(s) ==> SameUnits(s, r)
  {
    var s1 := WithoutPid(SetState(s.(world := w), id, StateAfterOneshot(svc, outcome)), id, pid);
    s1.(journal := s1.journal + [OneshotEnded(id, outcome)])
  }

  /** Spawns the service of a unit and, if it is a oneshot, waits for it. */
  function StartService(s: Sup, id: UnitId, svc: ServiceSection): (r: Sup)
    requires Shaped(s) && id < |s.units|
    ensures SameUnits(s, r)
  {
    var (child, w) := Spawn(s.world);
    var s1 := SetState(s.(world := w), id, Activating);
    match child
    case None => SpawnFailure(s1, id)
    case Some(pid) =>
      var s2 := WithPid(s1, id, pid);
      if svc.kind.Oneshot? then
        var (outcome, w') := WaitOneshot(w, pid, w.now + StartTimeout(svc));
        FinishOneshot(s2, id, pid, svc, outcome, w')
      else SetState(s2, id, Active)
  }

  /** `start_unit_internal` */
  ghost function StartUnit(s: Sup, id: UnitId): (r: Sup)
    requires Shaped(s) && id < |s.units|
    ensures SameUnits(s, r)
  {
    if HasFailedDependency(s, id) then SetState(s, id, Failed)
    else
      match s.reg.units[id].file.service
      case None => SetState(s, id, Active)
      case Some(svc) => StartService(s, id, svc)
  }

  /** `activate_plan` */
  ghost function Activate(s: Sup, plan: seq<UnitId>): (r: Sup)
    requires Shaped(s) && ValidIds(|s.units|, plan)
    ensures SameUnits(s, r)
    decreases |plan|
  {
    if plan == [] then s else Activate(StartUnit(s, plan[0]), plan[1..])
  }

  /** `start_named` on a plan: units already Active are left alone. */
  ghost function StartInactive(s: Sup, plan: seq<UnitId>): (r: Sup)
    requires Shaped(s) && ValidIds(|s.units|, plan)
    ensures SameUnits(s, r)
    decreases |plan|
  {
    if plan == [] then s
    else if s.units[plan[0]].state == Active then StartInactive(s, plan[1..])
    else StartInactive(StartUnit(s, plan[0]), plan[1..])
  }

  ghost function StartNamed(s: Sup, name: string): (r: Sup)
    requires Shaped(s)
    ensures SameUnits(s, r)
  {
    StartPlanCorrect(s.reg, name);
    var p := StartPlan(s.reg, name);
    if p.Plan? then
      assert forall i :: 0 <= i < |p.order| ==> p.order[i] in ToSet(p.order);
      StartInactive(s, p.order)
    else s
  }

  // ---------- Child exits and restarts ----------

  function WantsRestart(policy: RestartPolicy, st: Status): bool {
    match policy
    case No => false
    case Always => true
    case OnFailure => !IsClean(st)
    case OnAbnormal => st.Signaled?
  }

  /** `retain(|t| now - t <= interval)` */
  function Recent(history: seq<nat>, now: nat, interval: nat): (r: seq<nat>) {
    if history == [] then []
    else if now - history[0] <= interval then [history[0]] + Recent(history[1..], now, interval)
    else Recent(history[1..], now, interval)
  }

  function LimitInterval(svc: ServiceSection): nat {
    DurationOr(svc.startLimitIntervalSec, 10 * SECOND)
  }

  function RestartDelay(svc: ServiceSection): nat {
    DurationOr(svc.restartSec, 5 * SECOND)
  }

  /** The start limiter: the history it keeps, and whether it lets the restart through. */
  function Consider(history: seq<nat>, now: nat, burst: nat, interval: nat): (r: (seq<nat>, bool)) {
    var recent := Recent(history, now, interval);
    if burst > 0 && |recent| >= burst then (recent, false) else (recent + [now], true)
  }

  /** `maybe_schedule_restart` */
  function MaybeSchedule(s: Sup, id: UnitId, st: Status): (r: Sup)
    requires Shaped(s) && id < |s.units|
    ensures SameUnits(s, r)
  {
    match s.reg.units[id].file.service
    case None => s
    case Some(svc) =>
      if !WantsRestart(svc.restart, st) then s
      else
        var now := s.world.now;
        var (history, allowed) := Consider(s.units[id].restartHistory, now, svc.startLimitBurst, LimitInterval(svc));
        var s1 := s.(units := s.units[id := s.units[id].(restartHistory := history)]);
        if allowed then
          var fireAt := now + RestartDelay(svc);
          s1.(pending := s1.pending + [PendingRestart(id, fireAt)], journal := s1.journal + [Scheduled(id, now, fireAt)])
        else SetState(s1.(journal := s1.journal + [Refused(id, now)]), id, Failed)
  }

  /** `on_child_exit` */
  function OnChildExit(s: Sup, pid: Pid, st: Status): (r: Sup)
    requires Shaped(s)
    ensures SameUnits(s, r) && r.world == s.world && r.shuttingDown == s.shuttingDown
  {
    if pid !in s.byPid then s
    else
      var id := s.byPid[pid];
      var s1 := SetState(WithoutPid(s, id, pid), id, if s.shuttingDown || IsClean(st) then Inactive else Failed);
      if s.shuttingDown then s1 else MaybeSchedule(s1, id, st)
  }

  /** `reap`: collects children until none is left to collect. */
  function ReapAll(s: Sup): (r: Sup)
    requires Shaped(s)
    ensures SameUnits(s, r) && r.shuttingDown == s.shuttingDown
    decreases |s.world.script|, Left(s.world)
  {
    WaitAnyShrinks(s.world);
    var (child, w) := WaitAny(s.world);
    match child
    case None => s.(world := w)
    case Some(z) => ReapAll(OnChildExit(s.(world := w), z.pid, z.status))
  }

  function DueUnits(pending: seq<PendingRestart>, now: nat): (r: seq<UnitId>) {
    if pending == [] then []
    else
      if pending[0].fireAt <= now then [pending[0].unit] + DueUnits(pending[1..], now)
      else DueUnits(pending[1..], now)
  }

  lemma {:induction false} DueUnitsValid(pending: seq<PendingRestart>, now: nat, n: nat)
    requires forall p :: p in pending ==> p.unit < n
    ensures ValidIds(n, DueUnits(pending, now))
  {
    if pending != [] {
      assert pending[0] in pending && forall p :: p in pending[1..] ==> p in pending;
      DueUnitsValid(pending[1..], now, n);
    }
  }

  function NotDue(pending: seq<PendingRestart>, now: nat): (r: seq<PendingRestart>)
    ensures forall p :: p in r <==> p in pending && p.fireAt > now
  {
    if pending == [] then []
    else
      assert pending == [pending[0]] + pending[1..];
      if pending[0].fireAt <= now then NotDue(pending[1..], now)
      else [pending[0]] + NotDue(pending[1..], now)
  }

  function FiredNotes(pending: seq<PendingRestart>, now: nat): (r: seq<Note>) {
    if pending == [] then []
    else if pending[0].fireAt <= now then [Fired(pending[0].unit, now, pending[0].fireAt)] + FiredNotes(pending[1..], now)
    else FiredNotes(pending[1..], now)
  }

  /** `fire_due_restarts`: every due entry leaves the queue, then the units are started
      in queue order. */
  ghost function FireDue(s: Sup): (r: Sup)
    requires Shaped(s)
    ensures SameUnits(s, r)
  {
    var now := s.world.now;
    var s1 := s.(pending := NotDue(s.pending, now), journal := s.journal + FiredNotes(s.pending, now));
    DueUnitsValid(s.pending, now, |s.units|);
    Activate(s1, DueUnits(s.pending, now))
  }

  // ---------- Stopping ----------

  function DropOf(pending: seq<PendingRestart>, id: UnitId): (r: seq<PendingRestart>)
    ensures forall p :: p in r <==> p in pending && p.unit != id
  {
    if pending == [] then []
    else
      assert pending == [pending[0]] + pending[1..];
      if pending[0].unit == id then DropOf(pending[1..], id)
      else [pending[0]] + DropOf(pending[1..], id)
  }

  function DroppedNotes(pending: seq<PendingRestart>, id: UnitId): (r: seq<Note>) {
    if pending == [] then []
    else if pending[0].unit == id then [Dropped(id, pending[0].fireAt)] + DroppedNotes(pending[1..], id)
    else DroppedNotes(pending[1..], id)
  }

  /** The first loop of `stop_unit`, on one unit. */
  function MarkOne(s: Sup, id: UnitId): (r: Sup)
    requires Shaped(s) && id < |s.units|
    ensures SameUnits(s, r)
  {
    var s1 := s.(pending := DropOf(s.pending, id), journal := s.journal + DroppedNotes(s.pending, id));
    match s.units[id].pid
    case Some(pid) => SetState(s1.(world := Kill(s.world, SIGTERM, pid)), id, Deactivating)
    case None => SetState(s1, id, Inactive)
  }

  function MarkAll(s: Sup, plan: seq<UnitId>): (r: Sup)
    requires Shaped(s) && ValidIds(|s.units|, plan)
    ensures SameUnits(s, r)
    decreases |plan|
  {
    if plan == [] then s else MarkAll(MarkOne(s, plan[0]), plan[1..])
  }

  /** The pids the stop waits for, in the order they are signalled. */
  function PidsOf(units: seq<UnitMeta>, plan: seq<UnitId>): (r: seq<Pid>)
    requires ValidIds(|units|, plan)
  {
    if plan == [] then []
    else
      match units[plan[0]].pid
      case Some(pid) => [pid] + PidsOf(units, plan[1..])
      case None => PidsOf(units, plan[1..])
  }

  function Longest(reg: UnitTable, plan: seq<UnitId>): (r: Option<nat>)
    requires ValidIds(|reg.units|, plan)
  {
    if plan == [] then None
    else
      var rest := Longest(reg, plan[1..]);
      match reg.units[plan[0]].file.service
      case None => rest
      case Some(svc) =>
        match ParseDuration(svc.timeoutStopSec)
        case None => rest
        case Some(d) => if rest.Some? && rest.value > d then rest else Some(d)
  }

  /** The longest parseable `timeout-stop-sec` in the plan, or ten seconds. */
  function Grace(reg: UnitTable, plan: seq<UnitId>): nat
    requires ValidIds(|reg.units|, plan)
  {
    var l := Longest(reg, plan);
    if l.Some? then l.value else 10 * SECOND
  }

  function KillAll(w: World, pids: seq<Pid>): World
    decreases |pids|
  {
    if pids == [] then w else KillAll(Kill(w, SIGKILL, pids[0]), pids[1..])
  }

  function RemovePid(expected: seq<Pid>, p: Pid): (r: seq<Pid>)
    ensures forall q :: q in r <==> q in expected && q != p
  {
    if expected == [] then []
    else
      assert expected == [expected[0]] + expected[1..];
      if expected[0] == p then RemovePid(expected[1..], p)
      else [expected[0]] + RemovePid(expected[1..], p)
  }

  /** The inner loop of the drain: collects whatever has exited. */
  function DrainReap(s: Sup, expected: seq<Pid>): (r: (Sup, seq<Pid>))
    requires Shaped(s)
    ensures SameUnits(s, r.0) && r.0.shuttingDown == s.shuttingDown
    ensures s.world.now <= r.0.world.now && |r.0.world.script| <= |s.world.script|
    ensures s.world.script != [] ==> |r.0.world.script| < |s.world.script|
    decreases |s.world.script|, Left(s.world)
  {
    WaitAnyShrinks(s.world);
    var (child, w) := WaitAny(s.world);
    match child
    case None => (s.(world := w), expected)
    case Some(z) => DrainReap(OnChildExit(s.(world := w), z.pid, z.status), RemovePid(expected, z.pid))
  }

  /** The drain: escalates to SIGKILL once the grace has elapsed, and ends when every
      expected child has been collected. */
  function Drain(s: Sup, expected: seq<Pid>, start: nat, grace: nat, escalated: bool): (r: Sup)
    requires Shaped(s)
    ensures SameUnits(s, r) && r.shuttingDown == s.shuttingDown
    decreases |s.world.script|, !escalated, if s.world.now <= start + grace then start + grace - s.world.now + 1 else 0
  {
    if expected == [] then s
    else
      var escalate := !escalated && s.world.now > start + grace;
      var s1 := if escalate then s.(world := KillAll(s.world, expected)) else s;
      KillAllKeepsTime(s.world, expected);
      var (s2, left) := DrainReap(s1, expected);
      if left == [] then s2
      else
        // Never taken in a sound state: once the script is over, an escalated drain collects
        // everyone (DrainReapEnds). It only makes the function total; the loop has no such exit.
        var stuck := s.world.script == [] && (escalated || escalate);
        if stuck then s2
        else Drain(s2.(world := Sleep(s2.world, DRAIN_PAUSE)), left, start, grace, escalated || escalate)
  }

  lemma {:induction false} KillAllKeepsTime(w: World, pids: seq<Pid>)
    ensures var w' := KillAll(w, pids); w'.now == w.now && w'.script == w.script
    decreases |pids|
  {
    if pids != [] { KillAllKeepsTime(Kill(w, SIGKILL, pids[0]), pids[1..]); }
  }

  /** `stop_unit` on a plan. */
  function StopPlanned(s: Sup, plan: seq<UnitId>): (r: Sup)
    requires Shaped(s) && ValidIds(|s.units|, plan)
    ensures SameUnits(s, r)
  {
    var s1 := MarkAll(s.(shuttingDown := true), plan);
    var s2 := Drain(s1, PidsOf(s.units, plan), s1.world.now, Grace(s.reg, plan), false);
    s2.(shuttingDown := s.shuttingDown)
  }

  ghost function StopUnit(s: Sup, name: string): (r: Sup)
    requires Shaped(s)
    ensures SameUnits(s, r)
  {
    StopPlanCorrect(s.reg, name);
    var p := StopPlan(s.reg, name);
    if p.Plan? then
      assert forall i :: 0 <= i < |p.order| ==> p.order[i] in ToSet(p.order);
      StopPlanned(s, p.order)
    else s
  }

  // ---------- Shutdown ----------

  function DropAllNotes(pending: seq<PendingRestart>): (r: seq<Note>) {
    if pending == [] then [] else [Dropped(pending[0].unit, pending[0].fireAt)] + DropAllNotes(pending[1..])
  }

  function TermAll(w: World, units: seq<UnitMeta>): World
    decreases |units|
  {
    if units == [] then w
    else TermAll(if units[0].pid.Some? then Kill(w, SIGTERM, units[0].pid.value) else w, units[1..])
  }

  /** `initiate_shutdown` */
  function InitiateShutdown(s: Sup): (r: Sup)
    requires Shaped(s)
    ensures SameUnits(s, r)
  {
    if s.shuttingDown then s
    else
      s.(shuttingDown := true, pending := [], journal := s.journal + DropAllNotes(s.pending), world := TermAll(s.world, s.units))
  }

  predicate AllQuiet(s: Sup) {
    forall u :: u in s.units ==> u.pid.None?
  }

  // ---------- Sleeping ----------

  /** `next_restart_deadline` */
  function NextDeadline(pending: seq<PendingRestart>): (r: Option<nat>) {
    if pending == [] then None
    else
      var rest := NextDeadline(pending[1..]);
      if rest.Some? && rest.value < pending[0].fireAt then rest else Some(pending[0].fireAt)
  }

  const LONGEST_SLEEP: nat := 60_000

  /** `compute_timeout`, in milliseconds; -1 sleeps until something happens. */
  function ComputeTimeout(s: Sup): int {
    match NextDeadline(s.pending)
    case None => if s.shuttingDown then 100 else -1
    case Some(when) =>
      if when <= s.world.now then 0
      else
        var dt := when - s.world.now;
        (if dt < LONGEST_SLEEP * MILLI then dt else LONGEST_SLEEP * MILLI) / MILLI
  }

  // ---------- The beginning ----------

  function Fresh(reg: UnitTable, script: seq<Round>, now: nat): (s: Sup) {
    Sup(reg, seq(|reg.units|, i => UnitMeta(Inactive, None, [])), map[], [], false,
      World(now, {}, [], [], false, script, []), [])
  }
}
