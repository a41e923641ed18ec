/** PID 1's signal loop: it adopts and collects every orphan, keeps track of its one
    placeholder child, and reboots when the grace of a shutdown has elapsed. */
module Pid1Loop {
  import opened Config
  import opened Kernel

  datatype Init = Init(child: Option<Pid>, shutdownStart: Option<nat>, grace: nat, world: World)

  /** Time spent in `epoll_wait`, and the signals read from the descriptor. */
  datatype Signalled = Asleep | Chld | Term | Hup

  // ---------- The machine ----------

  function Collected1(s: Init, pid: Pid, w: World): Init {
    s.(world := w, child := if s.child == Some(pid) then None else s.child)
  }

  /** `reap_children` */
  function ReapChildren(s: Init): (r: Init)
    ensures r.shutdownStart == s.shutdownStart && r.grace == s.grace
    decreases |s.world.script|, Left(s.world)
  {
    WaitAnyShrinks(s.world);
    var (child, w) := WaitAny(s.world);
    match child
    case None => s.(world := w)
    case Some(z) => ReapChildren(Collected1(s, z.pid, w))
  }

  /** What one turn of the machine does: sleeping, or one signal read. */
  function React(s: Init, e: Signalled): (r: Init)
    ensures r.grace == s.grace
  {
    match e
    case Asleep => s.(world := Advance(s.world))
    case Hup => s
    case Chld => if s.world.sigchld then ReapChildren(s.(world := s.world.(sigchld := false))) else s
    case Term =>
      if s.shutdownStart.Some? then s
      else
        var w := if s.child.Some? then Kill(s.world, SIGTERM, s.child.value) else s.world;
        s.(world := w, shutdownStart := Some(w.now))
  }

  function ReactAll(s: Init, es: seq<Signalled>): (r: Init)
    ensures r.grace == s.grace
    decreases |es|
  {
    if es == [] then s else ReactAll(React(s, es[0]), es[1..])
  }

  /** The test at the top of the loop: the grace has elapsed. */
  predicate IsOver(s: Init) {
    s.shutdownStart.Some? && s.world.now - s.shutdownStart.value >= s.grace
  }

  /** `finish_shutdown`, up to the reboot. */
  function Finish(s: Init): Init {
    if s.child.Some? then s.(world := Kill(s.world, SIGKILL, s.child.value)) else s
  }

  const I32_RANGE: nat := 0x1_0000_0000

  /** `as c_int` */
  function Truncated(n: nat): int {
    var m := n % I32_RANGE;
    if m < I32_RANGE / 2 then m else m - I32_RANGE
  }

  /** How long the loop sleeps, in milliseconds; -1 is without limit. */
  function SleepTime(s: Init): int
    requires !IsOver(s)
  {
    if s.shutdownStart.None? then -1
    else
      var left := s.grace - (s.world.now - s.shutdownStart.value);
      var millis := Truncated(left / MILLI);
      if millis < 1 then 1 else millis
  }

  // ---------- What every run keeps ----------

  ghost predicate Inv(s: Init) {
    && WorldInv(s.world) && NothingLost(s.world)
    && (s.child.Some? ==> IsUnreaped(s.world, s.child.value))
    && (s.shutdownStart.Some? ==> s.shutdownStart.value <= s.world.now)
  }

  ghost predicate ChildKept(s: Init) {
    WorldInv(s.world) && (s.child.Some? ==> IsUnreaped(s.world, s.child.value))
  }

  /** A reap pass leaves no zombie, and forgets the child exactly when it was collected. */
  lemma {:induction false} ReapChildrenKeeps(s: Init)
    requires ChildKept(s)
    ensures var r := ReapChildren(s);
      && ChildKept(r) && r.world.zombies == [] && s.world.now <= r.world.now
      && (r.child.Some? ==> r.child == s.child)
      && (s.child.Some? && r.child.None? ==> Reaped(s.child.value) in Calls(r.world.log))
      && Calls(s.world.log) <= Calls(r.world.log)
    decreases |s.world.script|, Left(s.world)
  {
    hide WorldInv, Calls, WaitAny, IsUnreaped;
    WaitAnyShrinks(s.world);
    WaitAnyKeeps(s.world);
    var (child, w) := WaitAny(s.world);
    if child.Some? {
      var s1 := Collected1(s, child.value.pid, w);
      ReapChildrenKeeps(s1);
      assert Reaped(child.value.pid) in Calls(w.log) by { assert Calls(w.log)[|Calls(w.log)| - 1] == Reaped(child.value.pid); }
      PrefixMember(Calls(w.log), Calls(ReapChildren(s).world.log), Reaped(child.value.pid));
    }
  }

  lemma PrefixMember(a: seq<Effect>, b: seq<Effect>, e: Effect)
    requires a <= b && e in a
    ensures e in b
  {
    var i :| 0 <= i < |a| && a[i] == e;
    assert b[i] == e;
  }

  lemma ReactKeeps(s: Init, e: Signalled)
    requires Inv(s)
    ensures Inv(React(s, e)) && s.world.now <= React(s, e).world.now
    ensures s.shutdownStart.Some? ==> React(s, e).shutdownStart == s.shutdownStart
  {
    hide WorldInv, Calls;
    match e
    case Asleep => AdvanceKeeps(s.world);
    case Hup =>
    case Chld =>
      var s1 := s.(world := s.world.(sigchld := false));
      UnflaggedKeeps(s.world);
      assert ChildKept(s1);
      ReapChildrenKeeps(s1);
    case Term =>
      if s.child.Some? { KillKeeps(s.world, SIGTERM, s.child.value); }
  }

  lemma UnflaggedKeeps(w: World)
    requires WorldInv(w)
    ensures WorldInv(w.(sigchld := false)) && forall p :: IsUnreaped(w.(sigchld := false), p) <==> IsUnreaped(w, p)
  {
    assert forall p :: IsUnreaped(w.(sigchld := false), p) <==> IsUnreaped(w, p);
  }

  /** Every run: signals reach only unreaped children, no exited child is missed, the
      placeholder is known until it is collected, and a shutdown's clock never restarts. */
  lemma {:induction false} EveryRun(s: Init, es: seq<Signalled>)
    requires Inv(s)
    ensures var r := ReactAll(s, es);
      && Inv(r) && SignalsSafe(r.world.log) && NothingLost(r.world) && s.world.now <= r.world.now
      && (s.shutdownStart.Some? ==> r.shutdownStart == s.shutdownStart)
      && (r.child.Some? ==> IsUnreaped(r.world, r.child.value))
    decreases |es|
  {
    hide React, IsUnreaped, NothingLost;
    if es != [] {
      ReactKeeps(s, es[0]);
      EveryRun(React(s, es[0]), es[1..]);
    }
  }

  /** The last SIGKILL goes to an unreaped child, and not before the grace has elapsed. */
  lemma FinishIsSafe(s: Init)
    requires Inv(s) && IsOver(s)
    ensures SignalsSafe(Finish(s).world.log)
    ensures s.child.Some? ==> Calls(Finish(s).world.log) == Calls(s.world.log) + [Sent(SIGKILL, s.child.value, s.world.now)]
    ensures s.world.now >= s.shutdownStart.value + s.grace
  {
    if s.child.Some? { KillKeeps(s.world, SIGKILL, s.child.value); }
  }

  /** The loop never sleeps past the deadline by a millisecond or more, however large the
      grace: a truncated sleep is only shorter. A grace of less than 2^31 milliseconds is
      not truncated, and slept through but for the last two of them. */
  lemma NeverOversleeps(s: Init)
    requires Inv(s) && !IsOver(s)
    ensures s.shutdownStart.None? <==> SleepTime(s) == -1
    ensures s.shutdownStart.Some? ==> SleepTime(s) >= 1 && s.world.now + SleepTime(s) * MILLI < s.shutdownStart.value + s.grace + MILLI
    ensures s.shutdownStart.Some? && s.grace < 0x8000_0000 * MILLI ==> s.shutdownStart.value + s.grace < s.world.now + (SleepTime(s) + 1) * MILLI
  {
    hide WorldInv, NothingLost, IsUnreaped;
  }

  /** So a turn that sleeps no longer than asked and finds the grace elapsed finds it within
      a millisecond of the deadline. */
  lemma EndsOnTime(s: Init)
    requires Inv(s) && !IsOver(s)
    requires SleepTime(s) >= 0 ==> Advance(s.world).now <= s.world.now + SleepTime(s) * MILLI
    ensures var r := React(s, Asleep);
      IsOver(r) ==> s.shutdownStart.Some? && s.shutdownStart.value + s.grace <= r.world.now < s.shutdownStart.value + s.grace + MILLI
  {
    hide WorldInv, NothingLost, IsUnreaped, Advance, SleepTime;
    NeverOversleeps(s);
  }

  /** A shutdown is over exactly when its own grace has passed: asking again does not
      postpone it. */
  lemma DeadlineIsFixed(s: Init, es: seq<Signalled>)
    requires Inv(s) && s.shutdownStart.None?
    ensures var r := ReactAll(React(s, Term), es);
      r.shutdownStart == Some(s.world.now) && (IsOver(r) <==> r.world.now >= s.world.now + s.grace)
  {
    hide ReactAll, Inv;
    ReactKeeps(s, Term);
    EveryRun(React(s, Term), es);
  }

  /** Past `a`, the calls only collect children. */
  ghost predicate OnlyCollects(a: seq<Effect>, b: seq<Effect>) {
    a <= b && forall i :: |a| <= i < |b| ==> b[i].Reaped?
  }

  lemma {:induction false} ReapOnlyCollects(s: Init)
    requires ChildKept(s)
    ensures OnlyCollects(Calls(s.world.log), Calls(ReapChildren(s).world.log))
    decreases |s.world.script|, Left(s.world)
  {
    hide WorldInv, Calls, WaitAny, IsUnreaped;
    WaitAnyShrinks(s.world);
    WaitAnyKeeps(s.world);
    var (child, w) := WaitAny(s.world);
    if child.Some? { ReapOnlyCollects(Collected1(s, child.value.pid, w)); }
  }

  /** The first request sends the child one SIGTERM; from then on only children are
      collected, however often shutdown is requested again. */
  lemma TermOnce(s: Init, es: seq<Signalled>)
    requires Inv(s) && s.shutdownStart.None?
    ensures var s1 := React(s, Term);
      && Calls(s1.world.log) == Calls(s.world.log) + (if s.child.Some? then [Sent(SIGTERM, s.child.value, s.world.now)] else [])
      && OnlyCollects(Calls(s1.world.log), Calls(ReactAll(s1, es).world.log))
  {
    hide WorldInv, Calls, IsUnreaped, NothingLost;
    if s.child.Some? { KillKeeps(s.world, SIGTERM, s.child.value); }
    ReactKeeps(s, Term);
    NoFurtherSignals(React(s, Term), es);
  }

  lemma {:induction false} NoFurtherSignals(s: Init, es: seq<Signalled>)
    requires Inv(s) && s.shutdownStart.Some?
    ensures OnlyCollects(Calls(s.world.log), Calls(ReactAll(s, es).world.log))
    decreases |es|
  {
    hide WorldInv, Calls, IsUnreaped, NothingLost, ReapChildren, Advance;
    if es != [] {
      ReactKeeps(s, es[0]);
      if es[0].Asleep? { AdvanceKeeps(s.world); }
      if es[0].Chld? {
        UnflaggedKeeps(s.world);
        ReapOnlyCollects(s.(world := s.world.(sigchld := false)));
      }
      NoFurtherSignals(React(s, es[0]), es[1..]);
    }
  }

  // ---------- Exits are acted on ----------

  /** The placeholder has exited and waits to be collected. */
  ghost predicate ChildIsDead(s: Init) {
    s.child.Some? && Among(s.world.zombies, s.child.value)
  }

  lemma StaysDead(w: World, later: World, p: Pid)
    requires WorldInv(w) && EnvOnly(w, later) && Among(w.zombies, p)
    ensures Among(later.zombies, p)
  {
    assert IsUnreaped(w, p) && p !in w.alive;
  }

  lemma OneCollected(s: Init)
    requires ChildKept(s) && ChildIsDead(s)
    ensures var (child, w) := WaitAny(s.world);
      child.Some? && (Collected1(s, child.value.pid, w).child.None? || ChildIsDead(Collected1(s, child.value.pid, w)))
  {
    hide WorldInv, Calls;
    var p, w1 := s.child.value, Advance(s.world);
    AdvanceKeeps(s.world);
    StaysDead(s.world, w1, p);
    var z := WaitAny(s.world).0.value;
    DistinctAre(w1);
    WithoutFacts(w1.zombies, z.pid);
  }

  lemma DistinctAre(w: World)
    requires WorldInv(w)
    ensures DistinctZombies(w.zombies)
  {
  }

  /** A reap pass forgets the placeholder when it was dead. */
  lemma {:induction false} ReapForgets(s: Init)
    requires ChildKept(s) && (s.child.None? || ChildIsDead(s))
    ensures ReapChildren(s).child.None?
    decreases |s.world.script|, Left(s.world)
  {
    hide WorldInv, Calls, WaitAny, IsUnreaped, Among;
    WaitAnyShrinks(s.world);
    WaitAnyKeeps(s.world);
    if s.child.Some? { OneCollected(s); }
    var (child, w) := WaitAny(s.world);
    if child.Some? { ReapForgets(Collected1(s, child.value.pid, w)); }
  }

  /** Reading SIGCHLD leaves nobody uncollected, and forgets the placeholder if it had
      exited. */
  lemma ChldCollects(s: Init)
    requires Inv(s)
    ensures var r := React(s, Chld); r.world.zombies == [] && (ChildIsDead(s) ==> r.child.None?)
  {
    hide WorldInv, Calls, IsUnreaped, ReapChildren;
    var s1 := s.(world := s.world.(sigchld := false));
    UnflaggedKeeps(s.world);
    assert ChildKept(s1);
    if s.world.sigchld {
      ReapChildrenKeeps(s1);
      if ChildIsDead(s) { ReapForgets(s1); }
    } else {
      assert !ChildIsDead(s);
    }
  }

  ghost predicate ForgetsDead(s: Init, r: Init) {
    s.child.None? || ChildIsDead(s) ==> r.child.None? || ChildIsDead(r)
  }

  /** A dead placeholder stays dead until it is forgotten, and none comes back. */
  lemma ReactForgets(s: Init, e: Signalled)
    requires Inv(s)
    ensures ForgetsDead(s, React(s, e))
  {
    hide WorldInv, Calls, IsUnreaped, ReapChildren, Advance;
    match e
    case Asleep =>
      AdvanceKeeps(s.world);
      if ChildIsDead(s) { StaysDead(s.world, Advance(s.world), s.child.value); }
    case Hup =>
    case Term =>
    case Chld =>
      if s.world.sigchld && (s.child.None? || ChildIsDead(s)) {
        UnflaggedKeeps(s.world);
        ReapForgets(s.(world := s.world.(sigchld := false)));
      }
  }

  lemma ReactKeepsEmpty(s: Init, e: Signalled)
    requires Inv(s) && !e.Asleep? && s.world.zombies == []
    ensures React(s, e).world.zombies == []
  {
    hide WorldInv, Calls, IsUnreaped, ReapChildren;
    if e.Chld? { ChldCollects(s); }
  }

  /** Once SIGCHLD has been among the signals read, no child that had exited is left. */
  lemma {:induction false} SignalsCollect(s: Init, signals: seq<Signalled>)
    requires Inv(s) && Asleep !in signals && (Chld in signals || s.world.zombies == [])
    ensures ReactAll(s, signals).world.zombies == [] && (s.child.None? || ChildIsDead(s) ==> ReactAll(s, signals).child.None?)
    decreases |signals|
  {
    hide React, Inv, Among;
    if signals == [] {
      DeadIsZombie(s);
    } else {
      ReactKeeps(s, signals[0]);
      ReactForgets(s, signals[0]);
      assert signals == [signals[0]] + signals[1..];
      if signals[0] == Chld { ChldCollects(s); } else if s.world.zombies == [] { ReactKeepsEmpty(s, signals[0]); }
      SignalsCollect(React(s, signals[0]), signals[1..]);
    }
  }

  lemma DeadIsZombie(s: Init)
    ensures ChildIsDead(s) ==> s.world.zombies != []
  {
  }

  /** A turn of the loop in which SIGCHLD is read: whoever had exited by the end of the
      sleep is collected, and the placeholder, if among them, forgotten. */
  lemma TurnCollects(s: Init, signals: seq<Signalled>)
    requires Inv(s) && Asleep !in signals && Chld in signals
    ensures var r := ReactAll(s, [Asleep] + signals);
      r.world.zombies == [] && (s.child.Some? && Among(Advance(s.world).zombies, s.child.value) ==> r.child.None?)
  {
    hide Inv, Among, Advance;
    assert ([Asleep] + signals)[1..] == signals;
    ReactKeeps(s, Asleep);
    SignalsCollect(React(s, Asleep), signals);
  }

  // ---------- The loop in place ----------

  class InitLoop {
    var childPid: Option<Pid>
    var shuttingDown: Option<nat>
    const grace: nat
    var world: World

    function Abs(): Init
      reads this
    {
      Init(childPid, shuttingDown, grace, world)
    }

    constructor (child: Pid, graceSeconds: nat, w: World)
      requires WorldInv(w) && NothingLost(w) && IsUnreaped(w, child)
      ensures Inv(Abs()) && Abs() == Init(Some(child), None, graceSeconds * SECOND, w)
    {
      childPid := Some(child);
      shuttingDown := None;
      grace := graceSeconds * SECOND;
      world := w;
    }

    /** `reap_children` */
    method ReapAllChildren()
      modifies this`childPid, this`world
      ensures Abs() == ReapChildren(old(Abs()))
    {
      hide WaitAny;
      while true
        invariant ReapChildren(Abs()) == ReapChildren(old(Abs()))
        decreases |world.script|, Left(world)
      {
        WaitAnyShrinks(world);
        var (child, w) := WaitAny(world);
        world := w;
        if child.None? {
          return;
        }
        if childPid == Some(child.value.pid) {
          childPid := None;
        }
      }
    }

    /** One signal read by `drain_signalfd`, or time spent asleep. */
    method Handle(e: Signalled)
      modifies this
      ensures Abs() == React(old(Abs()), e)
    {
      hide ReapChildren, Advance;
      match e {
        case Asleep =>
          world := Advance(world);
        case Hup =>
        case Chld =>
          if world.sigchld {
            world := world.(sigchld := false);
            ReapAllChildren();
          }
        case Term =>
          if shuttingDown.None? {
            if childPid.Some? {
              world := Kill(world, SIGTERM, childPid.value);
            }
            shuttingDown := Some(world.now);
          }
      }
    }

    /** One turn of the event loop: it ends with a reboot exactly when the grace of a
        shutdown has elapsed, and reads the reported signals otherwise. */
    method Turn(signals: seq<Signalled>) returns (rebooting: bool)
      requires Inv(Abs())
      modifies this
      ensures rebooting == IsOver(old(Abs()))
      ensures rebooting ==> Abs() == Finish(old(Abs()))
      ensures !rebooting ==> Inv(Abs()) && Abs() == ReactAll(old(Abs()), [Asleep] + signals)
      ensures !rebooting && Chld in signals && Asleep !in signals ==>
        world.zombies == [] && (old(childPid).Some? && Among(Advance(old(world)).zombies, old(childPid).value) ==> childPid.None?)
    {
      hide Inv, React, Among, Advance;
      if Chld in signals && Asleep !in signals { TurnCollects(Abs(), signals); }
      if shuttingDown.Some? && world.now - shuttingDown.value >= grace {
        if childPid.Some? {
          world := Kill(world, SIGKILL, childPid.value);
        }
        return true;
      }
      ghost var all := [Asleep] + signals;
      ReactKeeps(Abs(), Asleep);
      Handle(Asleep);
      assert all[1..] == signals;
      var i := 0;
      while i < |signals|
        invariant i <= |signals| && Inv(Abs())
        invariant ReactAll(Abs(), signals[i..]) == ReactAll(old(Abs()), all)
      {
        assert signals[i..][1..] == signals[i + 1..];
        ReactKeeps(Abs(), signals[i]);
        Handle(signals[i]);
        i := i + 1;
      }
      return false;
    }
  }
}
