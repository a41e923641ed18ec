/** What the supervisors see of the kernel: a clock, their children, the one pending
    SIGCHLD bit, and the system calls on them. The environment is a script of rounds,
    one consumed at each point where it can act; a script of any length is followed by
    a quiet time in which only the clock runs and killed processes die. */
module Kernel {
  import opened Config

  type Pid = p: nat | p > 0 witness 1

  /** What `waitpid` stores: an exit code, or the signal that ended the process. */
  datatype Status = Exited(code: nat) | Signaled(signal: nat)

  predicate IsClean(st: Status) {
    st == Exited(0)
  }

  datatype Signal = SIGTERM | SIGKILL

  const SIGKILL_NUMBER: nat := 9

  datatype EnvStep =
    | ChildExit(pid: Pid, status: Status)
    | Adopt(pid: Pid)

  /** One turn of the environment: what happens, how much time passes, what a `fork`
      at this point returns, and which zombie a `waitpid(-1)` at this point finds first. */
  datatype Round = Round(steps: seq<EnvStep>, delay: nat, spawn: Option<Pid>, pick: nat)

  datatype Zombie = Zombie(pid: Pid, status: Status)

  datatype Effect =
    | Spawned(pid: Pid)
    | Adopted(pid: Pid)
    | Died(pid: Pid)
    | Reaped(pid: Pid)
    | Sent(signal: Signal, pid: Pid, at: nat)

  datatype World = World(
    now: nat, alive: set<Pid>, zombies: seq<Zombie>, doomed: seq<Pid>,
    sigchld: bool, script: seq<Round>, log: seq<Effect>)

  // ---------- The environment ----------

  predicate Among(zombies: seq<Zombie>, p: Pid) {
    exists z :: z in zombies && z.pid == p
  }

  /** Spawned by us or adopted, and not yet collected by a wait. */
  predicate IsUnreaped(w: World, p: Pid) {
    p in w.alive || Among(w.zombies, p)
  }

  /** A child that exits becomes a zombie and raises SIGCHLD; an orphan may be reparented
      to us under a pid that is not in use among our children. */
  function EnvAct(w: World, e: EnvStep): World {
    match e
    case ChildExit(p, st) =>
      if p in w.alive then
        w.(alive := w.alive - {p}, zombies := w.zombies + [Zombie(p, st)], sigchld := true, log := w.log + [Died(p)])
      else w
    case Adopt(p) =>
      if IsUnreaped(w, p) then w
      else w.(alive := w.alive + {p}, log := w.log + [Adopted(p)])
  }

  function EnvActs(w: World, steps: seq<EnvStep>): World
    decreases |steps|
  {
    if steps == [] then w else EnvActs(EnvAct(w, steps[0]), steps[1..])
  }

  function Deaths(doomed: seq<Pid>): (r: seq<EnvStep>)
    ensures |r| == |doomed| && forall i :: 0 <= i < |r| ==> r[i] == ChildExit(doomed[i], Signaled(SIGKILL_NUMBER))
  {
    seq(|doomed|, i requires 0 <= i < |doomed| => ChildExit(doomed[i], Signaled(SIGKILL_NUMBER)))
  }

  const QUIET: Round := Round([], 0, None, 0)

  function NextRound(w: World): Round {
    if w.script == [] then QUIET else w.script[0]
  }

  /** Gives the environment a turn. */
  function Advance(w: World): World {
    if w.script == [] then EnvActs(w, Deaths(w.doomed))
    else
      var r := w.script[0];
      var w' := EnvActs(w.(script := w.script[1..]), r.steps);
      w'.(now := w'.now + r.delay)
  }

  function Sleep(w: World, nanos: nat): World {
    w.(now := w.now + nanos)
  }

  // ---------- System calls ----------

  function Without(zombies: seq<Zombie>, p: Pid): (r: seq<Zombie>) {
    if zombies == [] then []
    else if zombies[0].pid == p then zombies[1..]
    else [zombies[0]] + Without(zombies[1..], p)
  }

  function Survivors(doomed: seq<Pid>, p: Pid): (r: seq<Pid>) {
    if doomed == [] then []
    else if doomed[0] == p then Survivors(doomed[1..], p)
    else [doomed[0]] + Survivors(doomed[1..], p)
  }

  function Reap(w: World, p: Pid): World {
    w.(zombies := Without(w.zombies, p), doomed := Survivors(w.doomed, p), log := w.log + [Reaped(p)])
  }

  /** `fork`: fails, or yields a pid no unreaped child has. */
  function Spawn(w: World): (r: (Option<Pid>, World)) {
    var w' := Advance(w);
    match NextRound(w).spawn
    case None => (None, w')
    case Some(p) =>
      if IsUnreaped(w', p) then (None, w')
      else (Some(p), w'.(alive := w'.alive + {p}, log := w'.log + [Spawned(p)]))
  }

  /** `kill` */
  function Kill(w: World, sig: Signal, p: Pid): World {
    w.(log := w.log + [Sent(sig, p, w.now)], doomed := if sig == SIGKILL && p in w.alive then w.doomed + [p] else w.doomed)
  }

  datatype WaitResult = Running | NoChild | Collected(status: Status)

  function ZombieStatus(zombies: seq<Zombie>, p: Pid): Option<Status> {
    if zombies == [] then None
    else if zombies[0].pid == p then Some(zombies[0].status)
    else ZombieStatus(zombies[1..], p)
  }

  /** `waitpid(p, WNOHANG)` */
  function WaitFor(w: World, p: Pid): (WaitResult, World) {
    match ZombieStatus(w.zombies, p)
    case Some(st) => (Collected(st), Reap(w, p))
    case None => (if p in w.alive then Running else NoChild, w)
  }

  /** `waitpid(-1, WNOHANG)`, after a turn of the environment. */
  function WaitAny(w: World): (Option<Zombie>, World) {
    var w' := Advance(w);
    if w'.zombies == [] then (None, w')
    else
      var z := w'.zombies[NextRound(w).pick % |w'.zombies|];
      (Some(z), Reap(w', z.pid))
  }

  /** Blocks until p is no longer alive. */
  function AwaitExit(w: World, p: Pid): World
    decreases |w.script|
  {
    if p !in w.alive then w
    else if w.script == [] then Advance(w)
    else
      AdvanceShortens(w);
      AwaitExit(Advance(w), p)
  }

  lemma {:induction false} EnvActsKeepScript(w: World, steps: seq<EnvStep>)
    ensures var w' := EnvActs(w, steps); w'.script == w.script && w'.now == w.now && w'.doomed == w.doomed
    decreases |steps|
  {
    if steps != [] { EnvActsKeepScript(EnvAct(w, steps[0]), steps[1..]); }
  }

  lemma AdvanceShortens(w: World)
    ensures var w' := Advance(w);
      && |w'.script| == (if w.script == [] then 0 else |w.script| - 1)
      && w.now <= w'.now && w'.doomed == w.doomed
  {
    EnvActsKeepScript(w, Deaths(w.doomed));
    if w.script != [] { EnvActsKeepScript(w.(script := w.script[1..]), w.script[0].steps); }
  }

  // ---------- Why waiting ends ----------

  /** Children not yet collected. */
  function Left(w: World): nat {
    |w.alive| + |w.zombies|
  }

  lemma {:induction false} DeathsKeepCount(w: World, doomed: seq<Pid>)
    ensures Left(EnvActs(w, Deaths(doomed))) == Left(w)
    decreases |doomed|
  {
    if doomed != [] {
      assert Deaths(doomed)[1..] == Deaths(doomed[1..]);
      DeathsKeepCount(EnvAct(w, Deaths(doomed)[0]), doomed[1..]);
    }
  }

  lemma {:induction false} WithoutShrinks(zombies: seq<Zombie>, p: Pid)
    requires Among(zombies, p)
    ensures |Without(zombies, p)| == |zombies| - 1
  {
    assert zombies == [zombies[0]] + zombies[1..];
    if zombies[0].pid != p {
      assert forall z :: z in zombies ==> z == zombies[0] || z in zombies[1..];
      WithoutShrinks(zombies[1..], p);
    }
  }

  /** A wait that collects something uses up a round of the script or, once the script
      is over, a child. */
  lemma WaitAnyShrinks(w: World)
    ensures var (r, w') := WaitAny(w);
      && |w'.script| == (if w.script == [] then 0 else |w.script| - 1)
      && (w.script == [] && r.Some? ==> Left(w') < Left(w))
      && w.now <= w'.now
  {
    AdvanceShortens(w);
    DeathsKeepCount(w, w.doomed);
    var w' := Advance(w);
    if w'.zombies != [] {
      var z := w'.zombies[NextRound(w).pick % |w'.zombies|];
      assert z in w'.zombies && Among(w'.zombies, z.pid);
      WithoutShrinks(w'.zombies, z.pid);
    }
  }

  // ---------- What holds of every reachable kernel state ----------

  /** The children of ours that a log of effects leaves unreaped. */
  ghost function UnreapedBy(log: seq<Effect>): set<Pid> {
    if log == [] then {}
    else
      var before := UnreapedBy(log[..|log| - 1]);
      match log[|log| - 1]
      case Spawned(p) => before + {p}
      case Adopted(p) => before + {p}
      case Reaped(p) => before - {p}
      case _ => before
  }

  /** The system calls we made, without what the environment did. */
  ghost function Calls(log: seq<Effect>): seq<Effect> {
    if log == [] then []
    else
      var last := log[|log| - 1];
      Calls(log[..|log| - 1]) + if last.Died? || last.Adopted? then [] else [last]
  }

  /** Each signal went to a process that was, at that moment, an unreaped child. */
  ghost predicate SignalsSafe(log: seq<Effect>) {
    forall i :: 0 <= i < |log| && log[i].Sent? ==> log[i].pid in UnreapedBy(log[..i])
  }

  ghost predicate DistinctZombies(zombies: seq<Zombie>) {
    forall i, j :: 0 <= i < j < |zombies| ==> zombies[i].pid != zombies[j].pid
  }

  ghost predicate WorldInv(w: World) {
    && (forall p :: p in UnreapedBy(w.log) <==> IsUnreaped(w, p))
    && (forall z :: z in w.zombies ==> z.pid !in w.alive)
    && DistinctZombies(w.zombies)
    && (forall p :: p in w.doomed ==> IsUnreaped(w, p))
    && SignalsSafe(w.log)
  }

  /** No exited child goes unnoticed: SIGCHLD is pending while there are zombies. */
  ghost predicate NothingLost(w: World) {
    w.zombies != [] ==> w.sigchld
  }

  /** What any stretch of kernel activity that we do not end by reading signals keeps. */
  ghost predicate Follows(w: World, later: World) {
    && w.now <= later.now && |later.script| <= |w.script|
    && (w.sigchld ==> later.sigchld) && (NothingLost(w) ==> NothingLost(later))
  }

  lemma FollowsTrans(a: World, b: World, c: World)
    requires Follows(a, b) && Follows(b, c)
    ensures Follows(a, c)
  {
  }

  /** Only the environment acted: we made no call, and lost no child. */
  ghost predicate EnvOnly(w: World, later: World) {
    && Follows(w, later) && Calls(later.log) == Calls(w.log) && later.doomed == w.doomed
    && (forall p :: IsUnreaped(w, p) ==> IsUnreaped(later, p))
    && (forall p :: IsUnreaped(w, p) && p in later.alive ==> p in w.alive)
  }

  lemma EnvOnlyTrans(a: World, b: World, c: World)
    requires EnvOnly(a, b) && EnvOnly(b, c)
    ensures EnvOnly(a, c)
  {
  }

  lemma LogPush(log: seq<Effect>, e: Effect)
    ensures Calls(log + [e]) == Calls(log) + if e.Died? || e.Adopted? then [] else [e]
    ensures UnreapedBy(log + [e]) == if e.Spawned? || e.Adopted? then UnreapedBy(log) + {e.pid}
      else if e.Reaped? then UnreapedBy(log) - {e.pid} else UnreapedBy(log)
    ensures SignalsSafe(log) && (e.Sent? ==> e.pid in UnreapedBy(log)) ==> SignalsSafe(log + [e])
  {
    var l := log + [e];
    assert l[..|log|] == log && l[|log|] == e;
    if SignalsSafe(log) && (e.Sent? ==> e.pid in UnreapedBy(log)) {
      forall i | 0 <= i < |l| && l[i].Sent? ensures l[i].pid in UnreapedBy(l[..i]) {
        if i < |log| { assert l[..i] == log[..i]; }
      }
    }
  }

  lemma AmongPush(zombies: seq<Zombie>, z: Zombie, p: Pid)
    ensures Among(zombies + [z], p) <==> Among(zombies, p) || p == z.pid
  {
    assert forall y :: y in zombies + [z] <==> y in zombies || y == z;
  }

  lemma ExitKeeps(w: World, p: Pid, st: Status)
    requires WorldInv(w) && p in w.alive
    ensures var w' := EnvAct(w, ChildExit(p, st)); WorldInv(w') && EnvOnly(w, w')
  {
    var w' := EnvAct(w, ChildExit(p, st));
    LogPush(w.log, Died(p));
    forall q ensures IsUnreaped(w', q) <==> IsUnreaped(w, q) { AmongPush(w.zombies, Zombie(p, st), q); }
    assert forall z :: z in w.zombies ==> z.pid != p;
    assert DistinctZombies(w'.zombies);
  }

  lemma AdoptKeeps(w: World, p: Pid)
    requires WorldInv(w) && !IsUnreaped(w, p)
    ensures var w' := EnvAct(w, Adopt(p)); WorldInv(w') && EnvOnly(w, w')
  {
    var w' := EnvAct(w, Adopt(p));
    LogPush(w.log, Adopted(p));
    forall z | z in w'.zombies ensures z.pid !in w'.alive { assert Among(w.zombies, z.pid); }
  }

  lemma {:induction false} EnvActsKeep(w: World, steps: seq<EnvStep>)
    requires WorldInv(w)
    ensures WorldInv(EnvActs(w, steps)) && EnvOnly(w, EnvActs(w, steps))
    decreases |steps|
  {
    if steps != [] {
      var w' := EnvAct(w, steps[0]);
      assert WorldInv(w') && EnvOnly(w, w') by {
        match steps[0]
        case ChildExit(p, st) => if p in w.alive { ExitKeeps(w, p, st); }
        case Adopt(p) => if !IsUnreaped(w, p) { AdoptKeeps(w, p); }
      }
      EnvActsKeep(w', steps[1..]);
      EnvOnlyTrans(w, w', EnvActs(w, steps));
    }
  }

  lemma AdvanceKeeps(w: World)
    requires WorldInv(w)
    ensures WorldInv(Advance(w)) && EnvOnly(w, Advance(w))
  {
    AdvanceShortens(w);
    if w.script == [] {
      EnvActsKeep(w, Deaths(w.doomed));
    } else {
      var w0 := w.(script := w.script[1..]);
      assert WorldInv(w0);
      EnvActsKeep(w0, w.script[0].steps);
    }
  }

  /** Once the script is over, killed processes die. */
  lemma {:induction false} DeathsHappen(w: World, doomed: seq<Pid>)
    ensures var w' := EnvActs(w, Deaths(doomed)); w'.alive <= w.alive && forall p :: p in doomed ==> p !in w'.alive
    decreases |doomed|
  {
    if doomed != [] {
      var w' := EnvAct(w, ChildExit(doomed[0], Signaled(SIGKILL_NUMBER)));
      assert Deaths(doomed)[1..] == Deaths(doomed[1..]);
      DeathsHappen(w', doomed[1..]);
    }
  }

  lemma SpawnKeeps(w: World)
    requires WorldInv(w)
    ensures var (r, w') := Spawn(w);
      && WorldInv(w') && Follows(w, w')
      && (forall p :: IsUnreaped(w, p) ==> IsUnreaped(w', p))
      && (r.None? ==> Calls(w'.log) == Calls(w.log))
      && (r.Some? ==> r.value in w'.alive && !IsUnreaped(w, r.value) && Calls(w'.log) == Calls(w.log) + [Spawned(r.value)])
  {
    AdvanceKeeps(w);
    var w1, w' := Advance(w), Spawn(w).1;
    if Spawn(w).0.Some? {
      var p := Spawn(w).0.value;
      LogPush(w1.log, Spawned(p));
      forall z | z in w'.zombies ensures z.pid !in w'.alive { assert Among(w1.zombies, z.pid); }
      assert forall q :: IsUnreaped(w', q) <==> IsUnreaped(w1, q) || q == p;
    }
  }

  lemma KillKeeps(w: World, sig: Signal, p: Pid)
    requires WorldInv(w) && IsUnreaped(w, p)
    ensures var w' := Kill(w, sig, p);
      && WorldInv(w') && Follows(w, w') && Calls(w'.log) == Calls(w.log) + [Sent(sig, p, w.now)]
      && w'.alive == w.alive && w'.zombies == w.zombies
  {
    LogPush(w.log, Sent(sig, p, w.now));
  }

  lemma {:induction false} WithoutFacts(zombies: seq<Zombie>, p: Pid)
    requires DistinctZombies(zombies)
    ensures DistinctZombies(Without(zombies, p))
    ensures forall z :: z in Without(zombies, p) <==> z in zombies && z.pid != p
    ensures forall q :: Among(Without(zombies, p), q) <==> Among(zombies, q) && q != p
    ensures Among(zombies, p) ==> |Without(zombies, p)| == |zombies| - 1
  {
    if zombies != [] {
      WithoutFacts(zombies[1..], p);
      assert zombies == [zombies[0]] + zombies[1..];
      assert forall z :: z in zombies <==> z == zombies[0] || z in zombies[1..];
      assert forall z :: z in zombies[1..] ==> z.pid != zombies[0].pid;
    }
  }

  lemma {:induction false} SurvivorsFacts(doomed: seq<Pid>, p: Pid)
    ensures forall q :: q in Survivors(doomed, p) <==> q in doomed && q != p
  {
    if doomed != [] {
      SurvivorsFacts(doomed[1..], p);
      assert doomed == [doomed[0]] + doomed[1..];
    }
  }

  lemma ReapKeeps(w: World, p: Pid)
    requires WorldInv(w) && Among(w.zombies, p)
    ensures var w' := Reap(w, p);
      && WorldInv(w') && Follows(w, w') && Calls(w'.log) == Calls(w.log) + [Reaped(p)]
      && w'.alive == w.alive && !IsUnreaped(w', p) && |w'.zombies| == |w.zombies| - 1
      && (forall q :: q != p ==> (IsUnreaped(w', q) <==> IsUnreaped(w, q)))
      && (forall q :: q in w'.doomed <==> q in w.doomed && q != p)
  {
    LogPush(w.log, Reaped(p));
    WithoutFacts(w.zombies, p);
    SurvivorsFacts(w.doomed, p);
    assert p !in w.alive;
  }

  lemma {:induction false} ZombieStatusFinds(zombies: seq<Zombie>, p: Pid)
    ensures ZombieStatus(zombies, p).Some? <==> Among(zombies, p)
    ensures ZombieStatus(zombies, p).Some? ==> Zombie(p, ZombieStatus(zombies, p).value) in zombies
  {
    if zombies != [] {
      ZombieStatusFinds(zombies[1..], p);
      assert zombies == [zombies[0]] + zombies[1..];
    }
  }

  /** `p`, and no other child, was collected. */
  ghost predicate Collects(w: World, later: World, p: Pid) {
    && !IsUnreaped(later, p)
    && (forall q :: IsUnreaped(w, q) && q != p ==> IsUnreaped(later, q))
    && (forall q :: IsUnreaped(w, q) && q in later.alive ==> q in w.alive)
    && (forall q :: q in later.doomed <==> q in w.doomed && q != p)
    && Calls(later.log) == Calls(w.log) + [Reaped(p)]
  }

  /** A wait on any child collects a zombie whenever there is one, and collects nothing
      only when, at that moment, none is left. */
  lemma WaitAnyKeeps(w: World)
    requires WorldInv(w)
    ensures var (r, w') := WaitAny(w);
      && WorldInv(w') && Follows(w, w')
      && (r.None? ==> EnvOnly(w, w') && w'.zombies == [])
      && (r.Some? ==> Collects(w, w', r.value.pid))
  {
    AdvanceKeeps(w);
    var w1 := Advance(w);
    if w1.zombies != [] {
      var z := w1.zombies[NextRound(w).pick % |w1.zombies|];
      assert z in w1.zombies;
      assert Among(w1.zombies, z.pid);
      ReapKeeps(w1, z.pid);
      FollowsTrans(w, w1, Reap(w1, z.pid));
    }
  }

  lemma {:induction false} AwaitExitKeeps(w: World, p: Pid)
    requires WorldInv(w) && (p in w.doomed || p !in w.alive)
    ensures WorldInv(AwaitExit(w, p)) && EnvOnly(w, AwaitExit(w, p)) && p !in AwaitExit(w, p).alive
    decreases |w.script|
  {
    if p in w.alive {
      AdvanceKeeps(w);
      AdvanceShortens(w);
      if w.script == [] {
        DeathsHappen(w, w.doomed);
      } else {
        AwaitExitKeeps(Advance(w), p);
        EnvOnlyTrans(w, Advance(w), AwaitExit(w, p));
      }
    }
  }
}
