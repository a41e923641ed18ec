/** When a due restart is fired: at the first timer pass after its deadline, and on the dot
    in every run that sleeps no longer than asked and otherwise takes no time. */
module Punctuality {
  import opened Config
  import opened Registry
  import opened Kernel
  import opened Supervisor
  import opened Bookkeeping
  import opened Stopping
  import opened Restarts
  import opened Failure
  import opened Runs
  import opened FireOrder

  /** A timer pass fires a queued restart, noting the time, exactly when its deadline has
      come, and otherwise leaves it in the queue. */
  lemma FiredWhenDue(s: Sup, p: PendingRestart)
    requires Sound(s) && p in s.pending
    ensures Fired(p.unit, s.world.now, p.fireAt) in NewNotes(s, FireDue(s)) <==> p.fireAt <= s.world.now
    ensures p in FireDue(s).pending <==> p.fireAt > s.world.now
  {
    hide FireDue, Sound, FiredNotes;
    SoundShaped(s);
    var more := FireDueNotes(s);
    FiredNotesAre(s.pending, s.world.now);
    assert NewNotes(s, FireDue(s)) == FiredNotes(s.pending, s.world.now) + more;
  }

  // ---------- What other events do to the queue ----------

  /** Nothing was fired, and what was queued lies ahead. */
  ghost predicate Adds(s: Sup, r: Sup) {
    && s.journal <= r.journal && NoneFired(r.journal[|s.journal|..])
    && forall p :: p in r.pending ==> p in s.pending || s.world.now <= p.fireAt
  }

  lemma AddsTrans(a: Sup, b: Sup, c: Sup)
    requires Adds(a, b) && Adds(b, c) && a.world.now <= b.world.now
    ensures Adds(a, c)
  {
    assert c.journal[|a.journal|..] == b.journal[|a.journal|..] + c.journal[|b.journal|..];
  }

  lemma QuietAdds(s: Sup, r: Sup)
    requires r.journal == s.journal && r.pending == s.pending
    ensures Adds(s, r)
  {
    assert r.journal[|s.journal|..] == [];
  }

  lemma NotesAdd(s: Sup, r: Sup, notes: seq<Note>)
    requires r.journal == s.journal + notes && NoneFired(notes) && forall p :: p in r.pending ==> p in s.pending
    ensures Adds(s, r)
  {
    assert r.journal[|s.journal|..] == notes;
  }

  lemma AccountsAdd(s: Sup, r: Sup)
    requires SameAccounts(s, r)
    ensures Adds(s, r) && s.world.now <= r.world.now
  {
  }

  lemma ExitAdds(s: Sup, pid: Pid, st: Status)
    requires Shaped(s)
    ensures Adds(s, OnChildExit(s, pid, st))
  {
    hide Consider, LimitInterval, RestartDelay, WantsRestart, WellFormed;
    ExitNotes(s, pid, st);
  }

  lemma {:induction false} ReapAllAdds(s: Sup)
    requires Shaped(s)
    ensures Adds(s, ReapAll(s)) && s.world.now <= ReapAll(s).world.now
    decreases |s.world.script|, Left(s.world)
  {
    hide OnChildExit, WaitAny, WellFormed, Adds;
    WaitAnyShrinks(s.world);
    var (child, w) := WaitAny(s.world);
    QuietAdds(s, s.(world := w));
    if child.Some? {
      var s1 := OnChildExit(s.(world := w), child.value.pid, child.value.status);
      ExitAdds(s.(world := w), child.value.pid, child.value.status);
      ReapAllAdds(s1);
      AddsTrans(s, s.(world := w), s1);
      AddsTrans(s, s1, ReapAll(s1));
    }
  }

  lemma StopAdds(s: Sup, name: string)
    requires Sound(s)
    ensures Shaped(s) && Adds(s, StopUnit(s, name)) && s.world.now <= StopUnit(s, name).world.now
  {
    hide WorldInv, PidsKnown, StopPlan, StopPlanned, DropNotes, DropPlan, DrainCalls, Calls, Terms, Forgot, WellFormed;
    QuietAdds(s, s);
    if StopPlan(s.reg, name).Plan? {
      var order := StopPlan(s.reg, name).order;
      StopOrderValid(s.reg, name);
      StopPlannedUnits(s, order);
      StopPlannedSound(s, order);
      DropPlanFacts(s.pending, order);
      DropsFireNothing(s.pending, order);
      NotesAdd(s, StopUnit(s, name), DropNotes(s.pending, order));
    }
  }

  lemma EnableAdds(s: Sup, name: string, reach: EnableReach)
    requires Invariant(s)
    ensures Shaped(s) && Adds(s, EnableUnit(s, name, reach))
  {
    hide Sound, NothingLost, Accounted, StartNamed, EnabledRegistry, WellFormed, SameAccounts, Follows;
    SoundShaped(s);
    EnabledRegistryShaped(s, name, reach);
    var r := EnabledRegistry(s.reg, name, reach);
    QuietAdds(s, s);
    if r.Some? {
      var s1 := s.(reg := r.value);
      QuietAdds(s, s1);
      OtherEdgesKeep(s, r.value);
      if reach.Complete? {
        StartNamedKeeps(s1, name);
        AccountsAdd(s1, StartNamed(s1, name));
        AddsTrans(s, s1, StartNamed(s1, name));
      }
    }
  }

  lemma TerminateAdds(s: Sup)
    requires Shaped(s)
    ensures Adds(s, InitiateShutdown(s))
  {
    hide TermAll, DropAllNotes, WellFormed;
    QuietAdds(s, s);
    DropAllFiresNothing(s.pending);
    if !s.shuttingDown { NotesAdd(s, InitiateShutdown(s), DropAllNotes(s.pending)); }
  }

  lemma StepAdds(s: Sup, e: Event)
    requires Invariant(s) && !e.Timer?
    ensures Shaped(s) && Adds(s, Step(s, e))
  {
    hide Sound, NothingLost, Accounted, StartNamed, StopUnit, EnableUnit, FireDue, ReapAll, InitiateShutdown, Advance, Adds, SameAccounts, Follows, WellFormed;
    SoundShaped(s);
    QuietAdds(s, s);
    match e
    case Wait => QuietAdds(s, s.(world := Advance(s.world)));
    case ReadSigchld =>
      var s1 := s.(world := s.world.(sigchld := false));
      QuietAdds(s, s1);
      ReapAllAdds(s1);
      AddsTrans(s, s1, ReapAll(s1));
    case Terminate => TerminateAdds(s);
    case Start(name) =>
      StartNamedKeeps(s, name);
      AccountsAdd(s, StartNamed(s, name));
    case Stop(name) => StopAdds(s, name);
    case Restart(name) =>
      StopAdds(s, name);
      if StopPlan(s.reg, name).Plan? {
        StopUnitKeeps(s, name);
        StartNamedKeeps(StopUnit(s, name), name);
        AccountsAdd(StopUnit(s, name), StartNamed(StopUnit(s, name), name));
        AddsTrans(s, StopUnit(s, name), StartNamed(StopUnit(s, name), name));
      }
    case Enable(name, reach) => EnableAdds(s, name, reach);
    case Disable(name) => StopAdds(s, name);
  }

  // ---------- Prompt runs ----------

  /** No queued deadline has passed. */
  ghost predicate Ahead(s: Sup) {
    forall p :: p in s.pending ==> s.world.now <= p.fireAt
  }

  /** The loop goes to sleep after a timer pass, so with nothing due, and sleeps no longer
      than the timeout it computed; nothing else takes time. */
  ghost predicate PromptStep(s: Sup, e: Event)
    requires Shaped(s)
  {
    if e.Wait? then
      && (forall p :: p in s.pending ==> s.world.now < p.fireAt)
      && (ComputeTimeout(s) >= 0 ==> Advance(s.world).now <= s.world.now + ComputeTimeout(s) * MILLI)
    else Step(s, e).world.now == s.world.now
  }

  ghost predicate Prompt(s: Sup, events: seq<Event>)
    requires Shaped(s)
    decreases |events|
  {
    events == [] || (PromptStep(s, events[0]) && Prompt(Step(s, events[0]), events[1..]))
  }

  ghost predicate OnTheDot(journal: seq<Note>) {
    forall n :: n in journal && n.Fired? ==> n.at == n.fireAt
  }

  lemma SleepStaysAhead(s: Sup)
    requires Shaped(s) && PromptStep(s, Wait)
    ensures Ahead(s.(world := Advance(s.world)))
  {
    hide Advance, WellFormed, ComputeTimeout;
    NeverOversleeps(s);
  }

  lemma FireOnTheDot(s: Sup)
    requires Sound(s) && Ahead(s) && OnTheDot(s.journal)
    ensures Shaped(s) && OnTheDot(FireDue(s).journal) && (FireDue(s).world.now == s.world.now ==> Ahead(FireDue(s)))
  {
    hide FireDue, Sound, FiredNotes;
    SoundShaped(s);
    var more := FireDueNotes(s);
    FiredNotesAre(s.pending, s.world.now);
  }

  lemma StepOnTheDot(s: Sup, e: Event)
    requires Invariant(s) && Ahead(s) && OnTheDot(s.journal) && Shaped(s) && PromptStep(s, e)
    ensures Ahead(Step(s, e)) && OnTheDot(Step(s, e).journal)
  {
    hide Sound, NothingLost, Accounted, Advance, ComputeTimeout, FireDue, ReadChildSignal, StartNamed, StopUnit, EnableUnit, RestartUnit, InitiateShutdown, WellFormed;
    if e.Timer? {
      FireOnTheDot(s);
    } else {
      StepAdds(s, e);
      AddedOnTheDot(s, Step(s, e));
      if e.Wait? { SleepStaysAhead(s); }
    }
  }

  lemma AddedOnTheDot(s: Sup, r: Sup)
    requires Ahead(s) && OnTheDot(s.journal) && Adds(s, r)
    ensures OnTheDot(r.journal) && (r.world.now == s.world.now ==> Ahead(r))
  {
    assert r.journal == s.journal + r.journal[|s.journal|..];
  }

  lemma {:induction false} RunOnTheDot(s: Sup, events: seq<Event>)
    requires Invariant(s) && Ahead(s) && OnTheDot(s.journal) && Shaped(s) && Prompt(s, events)
    ensures Ahead(Run(s, events)) && OnTheDot(Run(s, events).journal)
    decreases |events|
  {
    hide Sound, NothingLost, Accounted, Step, Ahead, OnTheDot, PromptStep;
    if events != [] {
      StepOnTheDot(s, events[0]);
      StepKeeps(s, events[0]);
      RunOnTheDot(Step(s, events[0]), events[1..]);
    }
  }

  /** In a run that sleeps no longer than the timeouts it computes, and in which nothing
      else takes time, every restart fires exactly at its deadline, and none is overdue. */
  lemma PromptRunsArePunctual(reg: UnitTable, target: string, script: seq<Round>, now: nat, events: seq<Event>)
    requires WellFormed(reg) && StartPlan(reg, target).Plan? && Prompt(Boot(reg, target, script, now), events)
    ensures var r := Run(Boot(reg, target, script, now), events); OnTheDot(r.journal) && Ahead(r)
  {
    hide WellFormed, StartPlan, Run, Sound, NothingLost, Accounted, Activate, Prompt, SameAccounts;
    BootInvariant(reg, target, script, now);
    var f := Fresh(reg, script, now);
    FreshInvariant(reg, script, now);
    StartOrderValid(reg, target);
    ActivateAccounts(f, StartPlan(reg, target).order);
    FreshAddsNothing(f, Boot(reg, target, script, now));
    RunOnTheDot(Boot(reg, target, script, now), events);
  }

  lemma FreshAddsNothing(f: Sup, b: Sup)
    requires f.pending == [] && f.journal == [] && SameAccounts(f, b)
    ensures Ahead(b) && OnTheDot(b.journal)
  {
    AccountsAdd(f, b);
    AddedOnTheDot(f, b);
  }
}
