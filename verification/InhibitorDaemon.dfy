/** The code of the inhibitor protocol as an object: what an `Inhibit` call and the
    watcher's loops do to the shared state when nobody interleaves. Each is proved to be a
    sequence of the protocol's atomic steps. */
module InhibitorDaemons {
  import opened Config
  import opened Sequences
  import opened Inhibitors

  /** The steps lead from s to r, each enabled where it is taken. */
  ghost predicate Leads(s: State, steps: seq<Action>, r: State)
    decreases |steps|
  {
    if steps == [] then r == s else Enabled(s, steps[0]) && Leads(Do(s, steps[0]), steps[1..], r)
  }

  lemma {:induction false} LeadsPush(s: State, steps: seq<Action>, m: State, a: Action)
    requires Leads(s, steps, m) && Enabled(m, a)
    ensures Leads(s, steps + [a], Do(m, a))
    decreases |steps|
  {
    hide Enabled, Do;
    if steps == [] {
      assert steps + [a] == [a] && [a][1..] == [];
      assert Leads(Do(m, a), [], Do(m, a));
    } else {
      assert (steps + [a])[1..] == steps[1..] + [a];
      LeadsPush(Do(s, steps[0]), steps[1..], m, a);
    }
  }

  lemma LeadsBy(s: State, a: Action, rest: seq<Action>, r: State)
    requires Enabled(s, a) && (Leads(Do(s, a), rest, r) || (rest == [] && r == Do(s, a)))
    ensures Leads(s, [a] + rest, r)
  {
    hide Enabled, Do;
    assert ([a] + rest)[1..] == rest;
  }

  /** The steps that adding a drained batch takes; some registrations may fail. */
  function Adds(batch: seq<Id>, failing: set<Id>): seq<Action> {
    if batch == [] then [] else [if batch[0] in failing then AddFails else Add] + Adds(batch[1..], failing)
  }

  /** The steps that handling reported events takes. */
  function Handlings(events: seq<Ready>): seq<Action> {
    if events == [] then []
    else (match events[0] case WakePipe => [ReadWake] case HangUp(_) => [Unwatch, Remove]) + Handlings(events[1..])
  }

  class LoginDaemon {
    var nextInhibitorId: Id
    var inhibitors: seq<Inhibitor>
    var calls: map<Id, Call>
    var writeOpen: set<Id>
    var pending: seq<Id>
    var wakeBytes: nat
    var fds: set<Id>
    var watcher: Watcher
    var removed: seq<Id>

    ghost function Abs(): State
      reads this
    {
      State(nextInhibitorId, inhibitors, calls, writeOpen, pending, wakeBytes, fds, watcher, removed)
    }

    constructor ()
      ensures Abs() == Start()
    {
      nextInhibitorId := 1;
      inhibitors := [];
      calls := map[];
      writeOpen := {};
      pending := [];
      wakeBytes := 0;
      fds := {};
      watcher := Top;
      removed := [];
    }

    /** `allocate_inhibitor_id` */
    method AllocateInhibitorId() returns (id: Id)
      modifies this`nextInhibitorId
      ensures id == old(nextInhibitorId) && nextInhibitorId == id + 1
    {
      id := nextInhibitorId;
      nextInhibitorId := nextInhibitorId + 1;
    }

    /** `inhibit`: the record comes before the pipe, so a pipe that fails leaves it. */
    method Inhibit(what: string, who: string, why: string, mode: string, uid: nat, pid: nat, pipeFails: bool) returns (id: Option<Id>)
      modifies this
      ensures mode != "block" && mode != "delay" ==> id == None && Abs() == old(Abs())
      ensures mode == "block" || mode == "delay" ==>
        var n := old(nextInhibitorId);
        var record := Record(what, who, why, mode, uid, pid);
        if pipeFails then id == None && Leads(old(Abs()), [record, PipeFails(n)], Abs())
        else id == Some(n) && Leads(old(Abs()), [record, MakePipe(n), Push(n), WriteWake(n)], Abs())
      ensures mode == "block" || mode == "delay" ==> inhibitors == old(inhibitors) + [Inhibitor(old(nextInhibitorId), what, who, why, mode, uid, pid)]
    {
      if mode != "block" && mode != "delay" {
        return None;
      }
      ghost var s0 := Abs();
      ghost var record := Record(what, who, why, mode, uid, pid);
      var n := AllocateInhibitorId();
      inhibitors := inhibitors + [Inhibitor(n, what, who, why, mode, uid, pid)];
      calls := calls[n := Recorded];
      assert Enabled(s0, record) && Abs() == Do(s0, record);
      if pipeFails {
        ghost var s1 := Abs();
        calls := calls - {n};
        LeadsBy(s1, PipeFails(n), [], Abs());
        LeadsBy(s0, record, [PipeFails(n)], Abs());
        return None;
      }
      MakePipeAndRegister(n);
      LeadsBy(s0, record, [MakePipe(n), Push(n), WriteWake(n)], Abs());
      return Some(n);
    }

    method MakePipeAndRegister(id: Id)
      requires id in calls && calls[id] == Recorded
      modifies this`calls, this`writeOpen, this`pending, this`wakeBytes
      ensures Leads(old(Abs()), [MakePipe(id), Push(id), WriteWake(id)], Abs())
    {
      hide Leads;
      ghost var s0 := Abs();
      calls := calls[id := Piped];
      writeOpen := writeOpen + {id};
      ghost var s1 := Abs();
      assert Enabled(s0, MakePipe(id)) && s1 == Do(s0, MakePipe(id));
      Register(id);
      ghost var s2 := Do(s1, Push(id));
      assert [WriteWake(id)] + [] == [WriteWake(id)] && [Push(id)] + [WriteWake(id)] == [Push(id), WriteWake(id)];
      assert [MakePipe(id)] + [Push(id), WriteWake(id)] == [MakePipe(id), Push(id), WriteWake(id)];
      LeadsBy(s2, WriteWake(id), [], Abs());
      LeadsBy(s1, Push(id), [WriteWake(id)], Abs());
      LeadsBy(s0, MakePipe(id), [Push(id), WriteWake(id)], Abs());
    }

    /** `register`: first the queue, then the wake byte. */
    method Register(id: Id)
      requires id in calls && calls[id] == Piped
      modifies this`pending, this`wakeBytes, this`calls
      ensures Enabled(old(Abs()), Push(id)) && Enabled(Do(old(Abs()), Push(id)), WriteWake(id))
      ensures Abs() == Do(Do(old(Abs()), Push(id)), WriteWake(id))
    {
      pending := pending + [id];
      calls := calls[id := Pushed];
      wakeBytes := wakeBytes + 1;
      calls := calls - {id};
    }

    /** `drain_pending`: takes the queue in one go and adds what it took. */
    method DrainPending(failing: set<Id>)
      requires watcher.Top?
      modifies this`watcher, this`pending, this`fds
      ensures pending == [] && watcher == Sleeping
      ensures Leads(old(Abs()), [Take] + Adds(old(pending), failing) + [Sleep], Abs())
    {
      hide Enabled, Do;
      ghost var s, batch := Abs(), pending;
      TakeStep(s);
      watcher := Draining(pending);
      pending := [];
      ghost var done: seq<Action> := [Take];
      LeadsPush(s, [], s, Take);
      assert [] + [Take] == [Take];
      while watcher.batch != []
        invariant watcher.Draining? && pending == [] && Leads(s, done, Abs())
        invariant done + Adds(watcher.batch, failing) == [Take] + Adds(batch, failing)
      {
        ghost var a := if watcher.batch[0] in failing then AddFails else Add;
        AddStep(Abs(), a);
        LeadsPush(s, done, Abs(), a);
        AppendOne(done, a, Adds(watcher.batch[1..], failing));
        done := done + [a];
        if watcher.batch[0] !in failing {
          fds := fds + {watcher.batch[0]};
        }
        watcher := Draining(watcher.batch[1..]);
      }
      assert done + [] == done;
      SleepStep(Abs());
      LeadsPush(s, done, Abs(), Sleep);
      watcher := Sleeping;
    }

    /** The handling of the events that one epoll_wait returned. */
    method HandleEvents()
      requires watcher.Handling?
      modifies this`watcher, this`wakeBytes, this`fds, this`inhibitors, this`removed
      ensures watcher == Top && Leads(old(Abs()), Handlings(old(watcher).events) + [Again], Abs())
    {
      hide Enabled, Do;
      ghost var s, all := Abs(), watcher.events;
      ghost var done: seq<Action> := [];
      while watcher.events != []
        invariant watcher.Handling? && Leads(s, done, Abs())
        invariant done + Handlings(watcher.events) == Handlings(all)
        decreases |watcher.events|
      {
        ghost var before, rest := Abs(), Handlings(watcher.events[1..]);
        match watcher.events[0] {
          case WakePipe =>
            DrainWakePipe();
            LeadsPush(s, done, before, ReadWake);
            AppendOne(done, ReadWake, rest);
            done := done + [ReadWake];
          case HangUp(id) =>
            Release(id);
            LeadsPush(s, done, before, Unwatch);
            LeadsPush(s, done + [Unwatch], Do(before, Unwatch), Remove);
            AppendTwo(done, Unwatch, Remove, rest);
            done := done + [Unwatch] + [Remove];
        }
      }
      assert done + [] == done;
      AgainStep(Abs());
      LeadsPush(s, done, Abs(), Again);
      watcher := Top;
    }

    /** One read of up to 64 bytes from the wake pipe. */
    method DrainWakePipe()
      requires watcher.Handling? && watcher.events != [] && watcher.events[0].WakePipe?
      modifies this`watcher, this`wakeBytes
      ensures Enabled(old(Abs()), ReadWake) && Abs() == Do(old(Abs()), ReadWake) && watcher == Handling(old(watcher).events[1..])
    {
      wakeBytes := if wakeBytes < WAKE_BUFFER then 0 else wakeBytes - WAKE_BUFFER;
      watcher := Handling(watcher.events[1..]);
    }

    /** `release`: off the descriptor map and epoll first, then off the records. */
    method Release(id: Id)
      requires watcher.Handling? && watcher.events != [] && watcher.events[0] == HangUp(id)
      modifies this`watcher, this`fds, this`inhibitors, this`removed
      ensures Enabled(old(Abs()), Unwatch) && Enabled(Do(old(Abs()), Unwatch), Remove)
      ensures Abs() == Do(Do(old(Abs()), Unwatch), Remove) && watcher == Handling(old(watcher).events[1..])
    {
      fds := fds - {id};
      watcher := Releasing(id, watcher.events[1..]);
      inhibitors := Retain(inhibitors, id);
      removed := removed + [id];
      watcher := Handling(watcher.events);
    }

    /** `list_inhibitors` */
    method ListInhibitors() returns (rows: seq<(string, string, string, string, nat, nat)>)
      ensures |rows| == |inhibitors|
      ensures forall i :: 0 <= i < |rows| ==>
        var r := inhibitors[i]; rows[i] == (r.what, r.who, r.why, r.mode, r.uid, r.pid)
    {
      rows := [];
      var k := 0;
      while k < |inhibitors|
        invariant k <= |inhibitors| && |rows| == k
        invariant forall i :: 0 <= i < k ==> var r := inhibitors[i]; rows[i] == (r.what, r.who, r.why, r.mode, r.uid, r.pid)
      {
        var r := inhibitors[k];
        rows := rows + [(r.what, r.who, r.why, r.mode, r.uid, r.pid)];
        k := k + 1;
      }
    }
  }

  lemma TakeStep(s: State)
    requires s.watcher.Top?
    ensures Enabled(s, Take) && Do(s, Take) == s.(watcher := Draining(s.queue), queue := []) && Leads(s, [], s)
  {
  }

  lemma AddStep(s: State, a: Action)
    requires s.watcher.Draining? && s.watcher.batch != [] && (a.Add? || a.AddFails?)
    ensures Enabled(s, a)
    ensures Do(s, a) == s.(watcher := Draining(s.watcher.batch[1..]), watched := if a.Add? then s.watched + {s.watcher.batch[0]} else s.watched)
  {
  }

  lemma SleepStep(s: State)
    requires s.watcher == Draining([])
    ensures Enabled(s, Sleep) && Do(s, Sleep) == s.(watcher := Sleeping)
  {
  }

  lemma AppendTwo(done: seq<Action>, a: Action, b: Action, rest: seq<Action>)
    ensures done + ([a, b] + rest) == done + [a] + [b] + rest
  {
  }

  lemma AgainStep(s: State)
    requires s.watcher == Handling([])
    ensures Enabled(s, Again) && Do(s, Again) == s.(watcher := Top)
  {
  }
}
