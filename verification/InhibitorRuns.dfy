/** Infinite runs of the inhibitor protocol, faults included: safety at every moment and,
    with a fair scheduler and a fair epoll, the eventual removal of exactly those closed
    inhibitors that no fault was about. */
module InhibitorRuns {
  import opened Sequences
  import opened Inhibitors

  type Trace = nat -> State
  type Schedule = nat -> Action

  ghost predicate StepAt(states: Trace, acts: Schedule, n: nat) {
    Enabled(states(n), acts(n)) && states(n + 1) == Do(states(n), acts(n))
  }

  /** Any run, with any pipes and epoll registrations failing. */
  ghost predicate IsRun(states: Trace, acts: Schedule) {
    states(0) == Start() && forall n: nat :: StepAt(states, acts, n)
  }

  /** The watcher can move unless it sleeps and nothing is ready. */
  ghost predicate WatcherCanMove(s: State) {
    !s.watcher.Sleeping? || SomethingReady(s)
  }

  ghost predicate MovesAfter(acts: Schedule, n: nat) {
    exists m: nat :: m >= n && IsWatcherStep(acts(m))
  }

  ghost predicate FairScheduler(states: Trace, acts: Schedule) {
    forall n: nat :: WatcherCanMove(states(n)) ==> MovesAfter(acts, n)
  }

  ghost predicate ReturnsAfter(acts: Schedule, n: nat) {
    exists m: nat :: m >= n && acts(m).Return?
  }

  ghost predicate ReportedAfter(acts: Schedule, n: nat, id: Id) {
    exists m: nat :: m >= n && acts(m).Return? && HangUp(id) in acts(m).events
  }

  ghost predicate ReadyFrom(states: Trace, n: nat, id: Id) {
    forall k: nat :: k >= n ==> IsReady(states(k), HangUp(id))
  }

  /** A descriptor that stays ready while epoll_wait keeps returning is reported sometime. */
  ghost predicate FairEpoll(states: Trace, acts: Schedule) {
    forall n: nat, id: Id :: ReadyFrom(states, n, id) && (forall k: nat :: k >= n ==> ReturnsAfter(acts, k)) ==> ReportedAfter(acts, n, id)
  }

  ghost predicate IsFairRun(states: Trace, acts: Schedule) {
    IsRun(states, acts) && FairScheduler(states, acts) && FairEpoll(states, acts)
  }

  // ---------- Safety ----------

  /** Every moment of every run satisfies the invariant. */
  lemma {:induction false} Always(states: Trace, acts: Schedule, n: nat)
    requires IsRun(states, acts)
    ensures Inv(states(n))
  {
    hide Inv;
    if n == 0 {
      StartInv();
    } else {
      Always(states, acts, n - 1);
      assert StepAt(states, acts, n - 1);
      StepKeeps(states(n - 1), acts(n - 1));
    }
  }

  /** A pipe or a registration fails, and the call it fails for is id's. */
  ghost predicate HitAt(states: Trace, acts: Schedule, n: nat, id: Id) {
    Enabled(states(n), acts(n)) && IsFault(acts(n)) && FaultId(states(n), acts(n)) == id
  }

  ghost predicate HitBefore(states: Trace, acts: Schedule, n: nat, id: Id) {
    exists k: nat :: k < n && HitAt(states, acts, k, id)
  }

  ghost predicate NeverHit(states: Trace, acts: Schedule, id: Id) {
    forall k: nat :: !HitAt(states, acts, k, id)
  }

  lemma {:induction false} UnhitIsStaged(states: Trace, acts: Schedule, n: nat, id: Id)
    requires IsRun(states, acts) && !HitBefore(states, acts, n, id)
    ensures HasRecord(states(n), id) ==> Staged(states(n), id)
  {
    hide Enabled, Do, HasRecord, Staged;
    if n == 0 {
      NothingAtStart(id);
    } else {
      assert StepAt(states, acts, n - 1) && !HitAt(states, acts, n - 1, id);
      UnhitIsStaged(states, acts, n - 1, id);
      if HasRecord(states(n), id) { StagedStays(states(n - 1), acts(n - 1), id); }
    }
  }

  lemma NothingAtStart(id: Id)
    ensures !HasRecord(Start(), id)
  {
  }

  /** The protocol's safety, spelled out: a record is in exactly one stage unless a fault
      was about it, and then in none; a queued registration is never slept through; a
      removal happens only to a closed inhibitor, and only once. */
  lemma ProtocolSafety(states: Trace, acts: Schedule, n: nat)
    requires IsRun(states, acts)
    ensures var s := states(n);
      && (forall id: Id :: Staged(s, id) <==> HasRecord(s, id) && !HitBefore(states, acts, n, id))
      && (forall id: Id, a, b :: At(s, id, a) && At(s, id, b) ==> a == b)
      && (s.queue != [] ==> s.wakeBytes > 0 || WillDrain(s.watcher) || exists id :: id in s.calls && s.calls[id] == Pushed && id in s.queue)
      && (acts(n).Remove? ==> s.watcher.Releasing? && s.watcher.id !in s.writeOpen && s.watcher.id !in s.calls && s.watcher.id !in s.removed)
      && (acts(n).ReadWake? ==> s.wakeBytes > 0 && states(n + 1).wakeBytes == if s.wakeBytes > 64 then s.wakeBytes - 64 else 0)
      && NoDup(s.removed) && (forall id: Id :: id in s.removed ==> !HasRecord(s, id))
  {
    Always(states, acts, n);
    assert StepAt(states, acts, n);
    var s := states(n);
    forall id: Id ensures Staged(s, id) <==> HasRecord(s, id) && !HitBefore(states, acts, n, id) {
      StagedUnlessHit(states, acts, n, id);
    }
    if s.queue != [] { assert s.queue[0] in s.queue; }
    if acts(n).Remove? { assert At(s, s.watcher.id, Released); }
    if acts(n).ReadWake? { assert s.watcher.events[0] in EventsOf(s.watcher); }
  }

  lemma StagedUnlessHit(states: Trace, acts: Schedule, n: nat, id: Id)
    requires IsRun(states, acts)
    ensures Staged(states(n), id) <==> HasRecord(states(n), id) && !HitBefore(states, acts, n, id)
  {
    hide Enabled, Do, Lists, Ids, CallsHold, NoLostWakeup, EventsTrue;
    Always(states, acts, n);
    if HitBefore(states, acts, n, id) {
      var k: nat :| k < n && HitAt(states, acts, k, id);
      HitStrands(states, acts, k, n, id);
    } else {
      UnhitIsStaged(states, acts, n, id);
    }
  }

  /** A call asked for just this record, when this id was the next. */
  ghost predicate AskedAt(states: Trace, acts: Schedule, k: nat, i: Inhibitor) {
    acts(k) == Record(i.what, i.who, i.why, i.mode, i.uid, i.pid) && states(k).nextId == i.id
  }

  lemma RecordsOnlyWhatIsAsked(s: State, a: Action, i: Inhibitor)
    requires Enabled(s, a) && i in Do(s, a).records && i !in s.records
    ensures a == Record(i.what, i.who, i.why, i.mode, i.uid, i.pid) && s.nextId == i.id && (i.mode == "block" || i.mode == "delay")
  {
  }

  /** Every record shows what its caller asked for, word for word, in one of the two modes. */
  lemma {:induction false} RecordsAreAsked(states: Trace, acts: Schedule, n: nat, i: Inhibitor)
    requires IsRun(states, acts) && i in states(n).records
    ensures exists k: nat :: k < n && AskedAt(states, acts, k, i)
    ensures i.mode == "block" || i.mode == "delay"
  {
    hide Enabled, Do, AskedAt;
    if n > 0 {
      assert StepAt(states, acts, n - 1);
      if i in states(n - 1).records {
        RecordsAreAsked(states, acts, n - 1, i);
        var k: nat :| k < n - 1 && AskedAt(states, acts, k, i);
      } else {
        RecordsOnlyWhatIsAsked(states(n - 1), acts(n - 1), i);
        assert AskedAt(states, acts, n - 1, i) by { Asked(states, acts, n - 1, i); }
      }
    }
  }

  lemma Asked(states: Trace, acts: Schedule, k: nat, i: Inhibitor)
    requires acts(k) == Record(i.what, i.who, i.why, i.mode, i.uid, i.pid) && states(k).nextId == i.id
    ensures AskedAt(states, acts, k, i)
  {
  }

  // ---------- While the watcher does not move ----------

  /** The call has returned and the write end is closed: nobody will open it again. */
  ghost predicate HungUp(s: State, id: Id) {
    id < s.nextId && id !in s.calls && id !in s.writeOpen
  }

  ghost predicate Passive(s: State, r: State) {
    && r.watcher == s.watcher && r.watched == s.watched && r.wakeBytes >= s.wakeBytes
    && (forall id :: id in s.queue ==> id in r.queue) && (forall id :: HungUp(s, id) ==> HungUp(r, id))
  }

  lemma OthersArePassive(s: State, a: Action)
    requires Enabled(s, a) && !IsWatcherStep(a)
    ensures Passive(s, Do(s, a))
  {
  }

  lemma {:induction false} FirstMove(acts: Schedule, n: nat, last: nat) returns (m: nat)
    requires last >= n && IsWatcherStep(acts(last))
    ensures m >= n && IsWatcherStep(acts(m)) && forall k: nat :: n <= k < m ==> !IsWatcherStep(acts(k))
    decreases last - n
  {
    if IsWatcherStep(acts(n)) { m := n; } else { m := FirstMove(acts, n + 1, last); }
  }

  lemma {:induction false} PassiveUntil(states: Trace, acts: Schedule, n: nat, m: nat)
    requires IsRun(states, acts) && n <= m && forall k: nat :: n <= k < m ==> !IsWatcherStep(acts(k))
    ensures Passive(states(n), states(m))
    decreases m - n
  {
    hide Enabled, Do;
    if n < m {
      assert StepAt(states, acts, n);
      OthersArePassive(states(n), acts(n));
      PassiveUntil(states, acts, n + 1, m);
    }
  }

  /** The next thing the watcher does, from the state it is in now. */
  lemma NextMove(states: Trace, acts: Schedule, n: nat) returns (m: nat)
    requires IsFairRun(states, acts) && WatcherCanMove(states(n))
    ensures m >= n && IsWatcherStep(acts(m)) && StepAt(states, acts, m) && Passive(states(n), states(m))
    ensures Inv(states(m)) && Inv(states(m + 1))
  {
    hide Inv, Passive, Enabled, Do, FairEpoll;
    assert MovesAfter(acts, n);
    var last: nat :| last >= n && IsWatcherStep(acts(last));
    m := FirstMove(acts, n, last);
    PassiveUntil(states, acts, n, m);
    assert StepAt(states, acts, m);
    Always(states, acts, m);
    Always(states, acts, m + 1);
  }

  // ---------- From stage to stage ----------

  /** How many moves the watcher makes at most before it takes the queue again. */
  function MovesToTop(w: Watcher): nat {
    match w
    case Top => 0
    case Handling(events) => 1 + 2 * |events|
    case Releasing(_, events) => 2 + 2 * |events|
    case Sleeping => 2 + 2 * MAX_EVENTS
    case Draining(batch) => 3 + 2 * MAX_EVENTS + |batch|
  }

  lemma MoveTowardsTop(s: State, a: Action)
    requires Enabled(s, a) && IsWatcherStep(a) && !a.Take?
    ensures a.Interrupt? || MovesToTop(Do(s, a).watcher) < MovesToTop(s.watcher)
    ensures forall id :: id in s.queue ==> id in Do(s, a).queue
    ensures forall id :: HungUp(s, id) ==> HungUp(Do(s, a), id)
  {
  }

  lemma QueuedIsNoticed(s: State, id: Id)
    requires Inv(s) && id in s.queue && HungUp(s, id)
    ensures WatcherCanMove(s) && (s.watcher.Sleeping? ==> SomethingReady(s))
  {
    if s.watcher.Sleeping? { assert IsReady(s, WakePipe); }
  }

  /** A queued registration is taken. */
  lemma {:induction false} ReachTake(states: Trace, acts: Schedule, n: nat, id: Id) returns (m: nat)
    requires IsFairRun(states, acts) && id in states(n).queue && HungUp(states(n), id)
    ensures m >= n && At(states(m), id, Drained) && HungUp(states(m), id)
    decreases MovesToTop(states(n).watcher)
  {
    hide Inv, FairEpoll, FairScheduler;
    Always(states, acts, n);
    QueuedIsNoticed(states(n), id);
    var k := NextMove(states, acts, n);
    QueuedIsNoticed(states(k), id);
    if acts(k).Take? {
      m := k + 1;
    } else {
      MoveTowardsTop(states(k), acts(k));
      m := ReachTake(states, acts, k + 1, id);
    }
  }

  /** A taken registration is watched, unless just that fails. */
  lemma {:induction false} ReachWatched(states: Trace, acts: Schedule, n: nat, id: Id) returns (m: nat)
    requires IsFairRun(states, acts) && At(states(n), id, Drained) && HungUp(states(n), id) && NeverHit(states, acts, id)
    ensures m >= n && At(states(m), id, Watched) && HungUp(states(m), id)
    decreases if states(n).watcher.Draining? then |states(n).watcher.batch| else 0
  {
    hide Inv, FairEpoll, FairScheduler;
    var k := NextMove(states, acts, n);
    var batch := states(k).watcher.batch;
    assert batch == [batch[0]] + batch[1..];
    assert !HitAt(states, acts, k, id);
    if batch[0] == id {
      m := k + 1;
    } else {
      m := ReachWatched(states, acts, k + 1, id);
    }
  }

  function Phase(w: Watcher): nat {
    match w
    case Top => 1
    case Handling(_) => 2
    case Releasing(_, _) => 2
    case Sleeping => 0
    case Draining(_) => 0
  }

  function MovesInPhase(w: Watcher): nat {
    match w
    case Top => 0
    case Handling(events) => 1 + 2 * |events|
    case Releasing(_, events) => 2 + 2 * |events|
    case Sleeping => 0
    case Draining(batch) => 1 + |batch|
  }

  /** While a hang-up stays ready, epoll_wait returns again and again. */
  lemma {:induction false} ReachReturn(states: Trace, acts: Schedule, n: nat, id: Id)
    requires IsFairRun(states, acts) && ReadyFrom(states, n, id)
    ensures ReturnsAfter(acts, n)
    decreases Phase(states(n).watcher), MovesInPhase(states(n).watcher)
  {
    hide Inv, FairEpoll, FairScheduler;
    assert IsReady(states(n), HangUp(id));
    var k := NextMove(states, acts, n);
    assert IsReady(states(k), HangUp(id));
    if !acts(k).Return? {
      ReachReturn(states, acts, k + 1, id);
      var m: nat :| m >= k + 1 && acts(m).Return?;
    }
  }

  /** A reported hang-up is acted on. */
  lemma {:induction false} ReachReleased(states: Trace, acts: Schedule, n: nat, id: Id) returns (m: nat)
    requires IsFairRun(states, acts) && HangUp(id) in EventsOf(states(n).watcher)
    ensures m >= n && At(states(m), id, Released)
    decreases MovesInPhase(states(n).watcher)
  {
    hide Inv, FairEpoll, FairScheduler;
    var k := NextMove(states, acts, n);
    var events := EventsOf(states(k).watcher);
    if acts(k).Unwatch? && events[0] == HangUp(id) {
      m := k + 1;
    } else {
      if !acts(k).Remove? { assert events == [events[0]] + events[1..]; }
      m := ReachReleased(states, acts, k + 1, id);
    }
  }

  lemma ReachRemoved(states: Trace, acts: Schedule, n: nat, id: Id) returns (m: nat)
    requires IsFairRun(states, acts) && At(states(n), id, Released)
    ensures m >= n && !HasRecord(states(m), id) && id in states(m).removed
  {
    hide Inv, FairEpoll, FairScheduler;
    var k := NextMove(states, acts, n);
    m := k + 1;
    assert acts(k).Remove?;
  }

  lemma {:induction false} FirstNotReady(states: Trace, n: nat, last: nat, id: Id) returns (m: nat)
    requires last >= n && IsReady(states(n), HangUp(id)) && !IsReady(states(last), HangUp(id))
    ensures m >= n && IsReady(states(m), HangUp(id)) && !IsReady(states(m + 1), HangUp(id))
    decreases last - n
  {
    if IsReady(states(n + 1), HangUp(id)) { m := FirstNotReady(states, n + 1, last, id); } else { m := n; }
  }

  /** A hang-up stops being ready only by being acted on. */
  lemma OnlyUnwatchEnds(s: State, a: Action, id: Id)
    requires Inv(s) && Enabled(s, a) && IsReady(s, HangUp(id)) && !IsReady(Do(s, a), HangUp(id))
    ensures At(Do(s, a), id, Released)
  {
  }

  lemma ReachReleasedFromWatched(states: Trace, acts: Schedule, n: nat, id: Id) returns (m: nat)
    requires IsFairRun(states, acts) && At(states(n), id, Watched) && HungUp(states(n), id)
    ensures m >= n && At(states(m), id, Released)
  {
    hide Inv, FairScheduler, Enabled, Do;
    if !ReadyFrom(states, n, id) {
      var last: nat :| last >= n && !IsReady(states(last), HangUp(id));
      var k := FirstNotReady(states, n, last, id);
      Always(states, acts, k);
      assert StepAt(states, acts, k);
      OnlyUnwatchEnds(states(k), acts(k), id);
      m := k + 1;
    } else {
      forall k: nat | k >= n ensures ReturnsAfter(acts, k) { ReachReturn(states, acts, k, id); }
      assert ReportedAfter(acts, n, id);
      var k: nat :| k >= n && acts(k).Return? && HangUp(id) in acts(k).events;
      assert StepAt(states, acts, k);
      ReturnedEvents(states(k), acts(k));
      m := ReachReleased(states, acts, k + 1, id);
    }
  }

  lemma ReturnedEvents(s: State, a: Action)
    requires Enabled(s, a) && a.Return?
    ensures EventsOf(Do(s, a).watcher) == a.events
  {
  }

  /** Under fair scheduling and a fair epoll, every inhibitor whose caller has closed its
      end, and for which nothing failed, is eventually removed, whatever fails for others. */
  lemma EventualRemoval(states: Trace, acts: Schedule, n: nat, id: Id) returns (m: nat)
    requires IsFairRun(states, acts) && HasRecord(states(n), id) && HungUp(states(n), id) && NeverHit(states, acts, id)
    ensures m >= n && !HasRecord(states(m), id) && id in states(m).removed
  {
    hide FairScheduler, FairEpoll, IsRun, Inv, NeverHit;
    assert IsRun(states, acts);
    NotHitBefore(states, acts, n, id);
    CallEnded(states(n), id);
    UnhitIsStaged(states, acts, n, id);
    var stage :| At(states(n), id, stage);
    m := n;
    if stage == Queued { m := ReachTake(states, acts, m, id); }
    if stage == Queued || stage == Drained { m := ReachWatched(states, acts, m, id); }
    if stage != Released { m := ReachReleasedFromWatched(states, acts, m, id); }
    m := ReachRemoved(states, acts, m, id);
  }

  // ---------- When a pipe or a registration fails ----------

  /** A record that no stage holds any more. */
  ghost predicate Stranded(s: State, id: Id) {
    && id < s.nextId && HasRecord(s, id) && (forall stage :: !At(s, id, stage)) && HangUp(id) !in EventsOf(s.watcher)
  }

  /** Nothing ever removes a stranded record, whatever its client does. */
  lemma StrandedStays(s: State, a: Action, id: Id)
    requires Stranded(s, id) && Enabled(s, a)
    ensures Stranded(Do(s, a), id)
  {
    var r := Do(s, a);
    var i :| i in s.records && i.id == id;
    assert !At(s, id, Registering) && !At(s, id, Queued) && !At(s, id, Drained) && !At(s, id, Watched) && !At(s, id, Released);
    assert i in r.records;
    forall stage ensures !At(r, id, stage) {}
  }

  /** The failure of a pipe, or of an epoll registration, strands the record of the call
      it happens to, however many others have failed. */
  lemma FaultStrands(s: State, a: Action)
    requires Inv(s) && Enabled(s, a) && IsFault(a)
    ensures Stranded(Do(s, a), FaultId(s, a))
  {
    var r, id := Do(s, a), FaultId(s, a);
    if a.AddFails? {
      assert s.watcher.batch == [id] + s.watcher.batch[1..];
      assert At(s, id, Drained);
    } else {
      assert At(s, id, Registering);
    }
    forall j: Id ensures HasRecord(r, j) <==> HasRecord(s, j) {}
    forall stage ensures !At(r, id, stage) { assert At(s, id, stage) ==> stage == if a.AddFails? then Drained else Registering; }
  }

  lemma {:induction false} StrandedForever(states: Trace, acts: Schedule, n: nat, m: nat, id: Id)
    requires forall k: nat :: n <= k < m ==> StepAt(states, acts, k)
    requires n <= m && Stranded(states(n), id)
    ensures HasRecord(states(m), id) && Stranded(states(m), id)
    decreases m - n
  {
    hide Enabled, Do, Stranded;
    if n < m {
      assert StepAt(states, acts, n);
      StrandedStays(states(n), acts(n), id);
      StrandedForever(states, acts, n + 1, m, id);
    } else {
      StrandedIsRecorded(states(n), id);
    }
  }

  lemma StrandedIsRecorded(s: State, id: Id)
    requires Stranded(s, id)
    ensures HasRecord(s, id)
  {
  }

  lemma HitStrands(states: Trace, acts: Schedule, k: nat, n: nat, id: Id)
    requires IsRun(states, acts) && k < n && HitAt(states, acts, k, id)
    ensures HasRecord(states(n), id) && Stranded(states(n), id) && !Staged(states(n), id)
  {
    hide Enabled, Do, Inv, At;
    Always(states, acts, k);
    assert StepAt(states, acts, k);
    FaultStrands(states(k), acts(k));
    forall j: nat | k + 1 <= j < n ensures StepAt(states, acts, j) {}
    StrandedForever(states, acts, k + 1, n, id);
  }

  // ---------- When exactly an inhibitor is removed ----------

  lemma NotHitBefore(states: Trace, acts: Schedule, n: nat, id: Id)
    requires NeverHit(states, acts, id)
    ensures !HitBefore(states, acts, n, id)
  {
    hide HitAt;
  }

  /** A call that has ended is past registering. */
  lemma CallEnded(s: State, id: Id)
    requires HungUp(s, id)
    ensures !At(s, id, Registering)
  {
  }

  lemma RemovedForGood(s: State, a: Action, id: Id)
    requires Enabled(s, a) && id in s.removed
    ensures id in Do(s, a).removed
  {
  }

  lemma {:induction false} StaysRemoved(states: Trace, acts: Schedule, n: nat, m: nat, id: Id)
    requires IsRun(states, acts) && n <= m && id in states(n).removed
    ensures id in states(m).removed
    decreases m - n
  {
    hide Enabled, Do;
    if n < m {
      assert StepAt(states, acts, n);
      RemovedForGood(states(n), acts(n), id);
      StaysRemoved(states, acts, n + 1, m, id);
    }
  }

  lemma {:induction false} StillHandedOut(states: Trace, acts: Schedule, n: nat, m: nat)
    requires IsRun(states, acts) && n <= m
    ensures states(n).nextId <= states(m).nextId
    decreases m - n
  {
    if n < m {
      assert StepAt(states, acts, n);
      StillHandedOut(states, acts, n + 1, m);
    }
  }

  /** A record that is gone was closed, and no fault was ever about it. */
  lemma GoneMeans(states: Trace, acts: Schedule, n: nat, m: nat, id: Id)
    requires IsRun(states, acts) && n <= m && HasRecord(states(n), id) && !HasRecord(states(m), id)
    ensures HungUp(states(m), id) && NeverHit(states, acts, id)
  {
    hide Enabled, Do, HitAt, At, OneStage, Lists, CallsHold, NoLostWakeup, EventsTrue, HasRecord;
    Always(states, acts, n);
    Always(states, acts, m);
    StillHandedOut(states, acts, n, m);
    assert id in states(m).removed;
    forall k: nat ensures !HitAt(states, acts, k, id) {
      if HitAt(states, acts, k, id) {
        var later := if k < m then m else k + 1;
        HitStrands(states, acts, k, later, id);
        StaysRemoved(states, acts, m, later, id);
        Always(states, acts, later);
        assert false;
      }
    }
  }

  ghost predicate GoneAfter(states: Trace, n: nat, id: Id) {
    exists m: nat :: m >= n && !HasRecord(states(m), id)
  }

  ghost predicate ClosedAfter(states: Trace, n: nat, id: Id) {
    exists m: nat :: m >= n && HungUp(states(m), id)
  }

  /** In a fair run a record is eventually removed if and only if its client eventually
      closes its end and neither its pipe nor its registration with epoll ever fails. */
  lemma RemovedIff(states: Trace, acts: Schedule, n: nat, id: Id)
    requires IsFairRun(states, acts) && HasRecord(states(n), id)
    ensures GoneAfter(states, n, id) <==> ClosedAfter(states, n, id) && NeverHit(states, acts, id)
  {
    hide FairScheduler, FairEpoll, HasRecord, HungUp, NeverHit;
    if GoneAfter(states, n, id) {
      var m: nat :| m >= n && !HasRecord(states(m), id);
      GoneMeans(states, acts, n, m, id);
    }
    if ClosedAfter(states, n, id) && NeverHit(states, acts, id) {
      var k: nat :| k >= n && HungUp(states(k), id);
      if HasRecord(states(k), id) {
        var m := EventualRemoval(states, acts, k, id);
      }
    }
  }

  /** So once its caller has closed its end, an inhibitor stays recorded forever exactly
      when a fault is about it. */
  lemma ClosedIsRemovedIff(states: Trace, acts: Schedule, n: nat, id: Id)
    requires IsFairRun(states, acts) && HasRecord(states(n), id) && HungUp(states(n), id)
    ensures GoneAfter(states, n, id) <==> NeverHit(states, acts, id)
  {
    hide FairScheduler, FairEpoll, HasRecord, HungUp, NeverHit;
    RemovedIff(states, acts, n, id);
    assert ClosedAfter(states, n, id);
  }
}
