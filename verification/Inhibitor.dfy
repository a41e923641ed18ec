/** The inhibitor protocol of the login daemon: D-Bus calls that record an inhibitor,
    make its pipe, queue it and write a wake byte, clients that close their end at any
    time, and the watcher thread that drains the queue and sleeps in epoll. Every
    interleaving of their atomic steps is a run. */
module Inhibitors {
  import opened Sequences

  type Id = nat

  /** An inhibitor record, as `ListInhibitors` shows it. */
  datatype Inhibitor = Inhibitor(id: Id, what: string, who: string, why: string, mode: string, uid: nat, pid: nat)

  /** How far an `Inhibit` call has come: recorded, pipe made, queued but not yet woken. */
  datatype Call = Recorded | Piped | Pushed

  datatype Ready = WakePipe | HangUp(id: Id)

  /** Where the watcher is: before taking the queue, adding what it took, in epoll_wait,
      going through the reported events, or between unwatching and removing a record. */
  datatype Watcher =
    | Top
    | Draining(batch: seq<Id>)
    | Sleeping
    | Handling(events: seq<Ready>)
    | Releasing(id: Id, events: seq<Ready>)

  datatype State = State(
    nextId: Id, records: seq<Inhibitor>, calls: map<Id, Call>, writeOpen: set<Id>,
    queue: seq<Id>, wakeBytes: nat, watched: set<Id>, watcher: Watcher, removed: seq<Id>)

  const MAX_EVENTS: nat := 32
  const WAKE_BUFFER: nat := 64

  // ---------- Steps ----------

  datatype Action =
    | Record(what: string, who: string, why: string, mode: string, uid: nat, pid: nat)
    | MakePipe(id: Id)
    | PipeFails(id: Id)
    | Push(id: Id)
    | WriteWake(id: Id)
    | Close(id: Id)
    | Take
    | Add
    | AddFails
    | Sleep
    | Return(events: seq<Ready>)
    | Interrupt
    | ReadWake
    | Unwatch
    | Remove
    | Again
    | Idle

  predicate IsWatcherStep(a: Action) {
    a.Take? || a.Add? || a.AddFails? || a.Sleep? || a.Return? || a.Interrupt? || a.ReadWake? || a.Unwatch? || a.Remove? || a.Again?
  }

  predicate IsFault(a: Action) {
    a.PipeFails? || a.AddFails?
  }

  /** What epoll reports: the wake pipe while it holds bytes, and a watched read end whose
      write end is closed. */
  predicate IsReady(s: State, e: Ready) {
    match e
    case WakePipe => s.wakeBytes > 0
    case HangUp(id) => id in s.watched && id !in s.writeOpen
  }

  ghost predicate SomethingReady(s: State) {
    exists e :: IsReady(s, e)
  }

  ghost predicate Enabled(s: State, a: Action) {
    match a
    case Record(_, _, _, mode, _, _) => mode == "block" || mode == "delay"
    case MakePipe(id) => id in s.calls && s.calls[id] == Recorded
    case PipeFails(id) => id in s.calls && s.calls[id] == Recorded
    case Push(id) => id in s.calls && s.calls[id] == Piped
    case WriteWake(id) => id in s.calls && s.calls[id] == Pushed
    case Close(id) => id in s.writeOpen && id !in s.calls
    case Take => s.watcher.Top?
    case Add => s.watcher.Draining? && s.watcher.batch != []
    case AddFails => s.watcher.Draining? && s.watcher.batch != []
    case Sleep => s.watcher == Draining([])
    case Return(events) =>
      s.watcher.Sleeping? && 0 < |events| <= MAX_EVENTS && NoDup(events) && forall e :: e in events ==> IsReady(s, e)
    case Interrupt => s.watcher.Sleeping? && !SomethingReady(s)
    case ReadWake => s.watcher.Handling? && s.watcher.events != [] && s.watcher.events[0].WakePipe?
    case Unwatch => s.watcher.Handling? && s.watcher.events != [] && s.watcher.events[0].HangUp?
    case Remove => s.watcher.Releasing?
    case Again => s.watcher == Handling([])
    case Idle => true
  }

  /** `retain(|i| i.id != id)` */
  function Retain(records: seq<Inhibitor>, id: Id): (r: seq<Inhibitor>)
    ensures forall i :: i in r <==> i in records && i.id != id
  {
    if records == [] then []
    else
      assert records == [records[0]] + records[1..];
      if records[0].id == id then Retain(records[1..], id) else [records[0]] + Retain(records[1..], id)
  }

  ghost function Do(s: State, a: Action): State
    requires Enabled(s, a)
  {
    match a
    case Record(what, who, why, mode, uid, pid) =>
      s.(nextId := s.nextId + 1, records := s.records + [Inhibitor(s.nextId, what, who, why, mode, uid, pid)], calls := s.calls[s.nextId := Recorded])
    case MakePipe(id) => s.(calls := s.calls[id := Piped], writeOpen := s.writeOpen + {id})
    case PipeFails(id) => s.(calls := s.calls - {id})
    case Push(id) => s.(calls := s.calls[id := Pushed], queue := s.queue + [id])
    case WriteWake(id) => s.(calls := s.calls - {id}, wakeBytes := s.wakeBytes + 1)
    case Close(id) => s.(writeOpen := s.writeOpen - {id})
    case Take => s.(watcher := Draining(s.queue), queue := [])
    case Add => s.(watcher := Draining(s.watcher.batch[1..]), watched := s.watched + {s.watcher.batch[0]})
    case AddFails => s.(watcher := Draining(s.watcher.batch[1..]))
    case Sleep => s.(watcher := Sleeping)
    case Return(events) => s.(watcher := Handling(events))
    case Interrupt => s.(watcher := Top)
    case ReadWake =>
      s.(watcher := Handling(s.watcher.events[1..]), wakeBytes := if s.wakeBytes < WAKE_BUFFER then 0 else s.wakeBytes - WAKE_BUFFER)
    case Unwatch =>
      var id := s.watcher.events[0].id;
      s.(watcher := Releasing(id, s.watcher.events[1..]), watched := s.watched - {id})
    case Remove =>
      var id := s.watcher.id;
      s.(watcher := Handling(s.watcher.events), records := Retain(s.records, id), removed := s.removed + [id])
    case Again => s.(watcher := Top)
    case Idle => s
  }

  function Start(): State {
    State(1, [], map[], {}, [], 0, {}, Top, [])
  }

  // ---------- Stages ----------

  ghost predicate HasRecord(s: State, id: Id) {
    exists i :: i in s.records && i.id == id
  }

  datatype Stage = Registering | Queued | Drained | Watched | Released

  ghost predicate At(s: State, id: Id, stage: Stage) {
    match stage
    case Registering => id in s.calls && s.calls[id] != Pushed
    case Queued => id in s.queue
    case Drained => s.watcher.Draining? && id in s.watcher.batch
    case Watched => id in s.watched
    case Released => s.watcher.Releasing? && s.watcher.id == id
  }

  ghost predicate Staged(s: State, id: Id) {
    exists stage :: At(s, id, stage)
  }

  // ---------- What every interleaving keeps ----------

  ghost predicate DistinctIds(records: seq<Inhibitor>) {
    forall i, j :: 0 <= i < j < |records| ==> records[i].id != records[j].id
  }

  /** No id is in two stages, and a stage holds only ids of records. */
  ghost predicate OneStage(s: State) {
    && (forall id: Id, a, b :: At(s, id, a) && At(s, id, b) ==> a == b)
    && (forall id: Id, a :: At(s, id, a) ==> HasRecord(s, id))
  }

  ghost predicate Lists(s: State) {
    && NoDup(s.queue) && (s.watcher.Draining? ==> NoDup(s.watcher.batch)) && DistinctIds(s.records)
    && (s.watcher.Handling? ==> NoDup(s.watcher.events)) && (s.watcher.Releasing? ==> NoDup(s.watcher.events))
  }

  /** Ids are handed out in order; each is recorded or has been removed, and not both. */
  ghost predicate Ids(s: State) {
    && (forall id: Id :: HasRecord(s, id) ==> 1 <= id < s.nextId && id !in s.removed)
    && (forall id: Id :: id in s.removed ==> 1 <= id < s.nextId && id !in s.writeOpen && id !in s.calls)
    && (forall id: Id :: 1 <= id < s.nextId ==> HasRecord(s, id) || id in s.removed)
    && NoDup(s.removed) && s.nextId >= 1
  }

  /** A call in progress keeps its record, and its write end open once there is one. */
  ghost predicate CallsHold(s: State) {
    && (forall id: Id :: id in s.calls ==> HasRecord(s, id) && (s.calls[id] == Recorded <==> id !in s.writeOpen))
    && (forall id: Id :: id in s.writeOpen ==> HasRecord(s, id))
  }

  predicate WillDrain(w: Watcher) {
    w.Top? || w.Handling? || w.Releasing?
  }

  /** No queued registration is slept through. */
  ghost predicate NoLostWakeup(s: State) {
    forall id: Id :: id in s.queue ==> s.wakeBytes > 0 || WillDrain(s.watcher) || (id in s.calls && s.calls[id] == Pushed)
  }

  function EventsOf(w: Watcher): seq<Ready> {
    if w.Handling? || w.Releasing? then w.events else []
  }

  /** Events still to be handled are still true, and a hang-up is acted on only when the
      write end is closed. */
  ghost predicate EventsTrue(s: State) {
    && (forall e :: e in EventsOf(s.watcher) ==> IsReady(s, e))
    && (s.watcher.Releasing? ==> s.watcher.id !in s.writeOpen && s.watcher.id !in s.calls && HangUp(s.watcher.id) !in s.watcher.events)
    && (forall id: Id :: id in s.watched && id !in s.writeOpen ==> id !in s.calls)
  }

  ghost predicate Inv(s: State) {
    OneStage(s) && Lists(s) && Ids(s) && CallsHold(s) && NoLostWakeup(s) && EventsTrue(s)
  }

  lemma StartInv()
    ensures Inv(Start())
  {
  }

  lemma NewIdIsFresh(s: State)
    requires Inv(s)
    ensures !HasRecord(s, s.nextId) && s.nextId !in s.removed && s.nextId !in s.calls && s.nextId !in s.writeOpen
    ensures forall x :: !At(s, s.nextId, x)
    ensures forall i :: i in s.records ==> i.id != s.nextId
  {
    forall x ensures !At(s, s.nextId, x) {}
    forall i | i in s.records ensures i.id != s.nextId { assert HasRecord(s, i.id); }
  }

  lemma RecordKeepsStage(s: State, r: State, i: Inhibitor)
    requires Inv(s) && i.id == s.nextId
    requires r == s.(nextId := s.nextId + 1, records := s.records + [i], calls := s.calls[s.nextId := Recorded])
    ensures OneStage(r) && forall id: Id :: HasRecord(r, id) <==> HasRecord(s, id) || id == s.nextId
  {
    hide Lists, Ids, CallsHold, NoLostWakeup, EventsTrue;
    var n := s.nextId;
    NewIdIsFresh(s);
    assert forall j :: j in r.records <==> j in s.records || j == i;
    forall id: Id ensures HasRecord(r, id) <==> HasRecord(s, id) || id == n {}
    forall id: Id, x ensures At(r, id, x) <==> At(s, id, x) || (id == n && x == Registering) {}
    assert At(r, n, Registering);
  }

  lemma RecordKeeps(s: State, a: Action)
    requires Inv(s) && a.Record? && Enabled(s, a)
    ensures Inv(Do(s, a))
  {
    hide OneStage, At, HasRecord;
    var r, n := Do(s, a), s.nextId;
    NewIdIsFresh(s);
    NotWatched(s, n);
    RecordKeepsStage(s, r, r.records[|s.records|]);
    assert DistinctIds(r.records) by { assert forall j :: 0 <= j < |s.records| ==> s.records[j] in s.records; }
  }

  lemma NotWatched(s: State, id: Id)
    requires forall x :: !At(s, id, x)
    ensures id !in s.watched && id !in s.queue && (s.watcher.Releasing? ==> s.watcher.id != id)
  {
    assert !At(s, id, Watched) && !At(s, id, Queued) && !At(s, id, Released);
  }

  lemma MakePipeKeeps(s: State, id: Id)
    requires Inv(s) && Enabled(s, MakePipe(id))
    ensures Inv(Do(s, MakePipe(id)))
  {
    var r := Do(s, MakePipe(id));
    forall j: Id ensures HasRecord(r, j) <==> HasRecord(s, j) {}
    forall j: Id, x ensures At(r, j, x) <==> At(s, j, x) {}
    assert At(s, id, Registering);
  }

  lemma PushKeeps(s: State, id: Id)
    requires Inv(s) && Enabled(s, Push(id))
    ensures Inv(Do(s, Push(id)))
  {
    var r := Do(s, Push(id));
    forall j: Id ensures HasRecord(r, j) <==> HasRecord(s, j) {}
    assert At(s, id, Registering);
    assert !At(s, id, Queued);
    assert forall j :: j in r.queue <==> j in s.queue || j == id;
    forall j: Id, x ensures At(r, j, x) <==> if j == id then x == Queued else At(s, j, x) {
      if j == id { assert x != Registering ==> !At(s, id, x); }
    }
    assert NoDup(r.queue);
  }

  lemma WriteWakeKeeps(s: State, id: Id)
    requires Inv(s) && Enabled(s, WriteWake(id))
    ensures Inv(Do(s, WriteWake(id)))
  {
    var r := Do(s, WriteWake(id));
    forall j: Id ensures HasRecord(r, j) <==> HasRecord(s, j) {}
    forall j: Id, x ensures At(r, j, x) <==> At(s, j, x) {}
  }

  lemma CloseKeeps(s: State, id: Id)
    requires Inv(s) && Enabled(s, Close(id))
    ensures Inv(Do(s, Close(id)))
  {
    var r := Do(s, Close(id));
    forall j: Id ensures HasRecord(r, j) <==> HasRecord(s, j) {}
    forall j: Id, x ensures At(r, j, x) <==> At(s, j, x) {}
  }

  lemma TakeKeeps(s: State)
    requires Inv(s) && Enabled(s, Take)
    ensures Inv(Do(s, Take))
  {
    var r := Do(s, Take);
    forall j: Id ensures HasRecord(r, j) <==> HasRecord(s, j) {}
    forall j: Id, x ensures At(r, j, x) <==> if x == Queued then false else if x == Drained then At(s, j, Queued) else At(s, j, x) {}
  }

  lemma AddKeeps(s: State)
    requires Inv(s) && Enabled(s, Add)
    ensures Inv(Do(s, Add))
  {
    var r, id := Do(s, Add), s.watcher.batch[0];
    forall j: Id ensures HasRecord(r, j) <==> HasRecord(s, j) {}
    assert s.watcher.batch == [id] + s.watcher.batch[1..];
    assert At(s, id, Drained);
    assert id !in s.watcher.batch[1..];
    forall j: Id, x ensures At(r, j, x) <==> if j == id then x == Watched else At(s, j, x) {
      assert j in s.watcher.batch <==> j == id || j in s.watcher.batch[1..];
      if j == id { assert x != Drained ==> !At(s, id, x); }
    }
    assert id in s.calls ==> s.calls[id] == Pushed by { assert !At(s, id, Registering); }
  }

  lemma AddFailsKeeps(s: State)
    requires Inv(s) && Enabled(s, AddFails)
    ensures Inv(Do(s, AddFails))
  {
    var r, id := Do(s, AddFails), s.watcher.batch[0];
    forall j: Id ensures HasRecord(r, j) <==> HasRecord(s, j) {}
    assert s.watcher.batch == [id] + s.watcher.batch[1..];
    forall j: Id, x ensures At(r, j, x) ==> At(s, j, x) {}
  }

  lemma PipeFailsKeeps(s: State, id: Id)
    requires Inv(s) && Enabled(s, PipeFails(id))
    ensures Inv(Do(s, PipeFails(id)))
  {
    var r := Do(s, PipeFails(id));
    assert At(s, id, Registering) && !At(s, id, Queued);
    forall j: Id ensures HasRecord(r, j) <==> HasRecord(s, j) {}
    forall j: Id, x ensures At(r, j, x) ==> At(s, j, x) {}
  }

  lemma MoveKeeps(s: State, r: State)
    requires Inv(s) && r == s.(watcher := r.watcher) && Lists(r) && EventsTrue(r) && NoLostWakeup(r)
    requires s.watcher.Draining? ==> s.watcher.batch == []
    requires !s.watcher.Releasing? && !r.watcher.Draining? && !r.watcher.Releasing?
    ensures Inv(r)
  {
    forall j: Id ensures HasRecord(r, j) <==> HasRecord(s, j) {}
    forall j: Id, x ensures At(r, j, x) <==> At(s, j, x) {}
  }

  lemma SleepKeeps(s: State)
    requires Inv(s) && Enabled(s, Sleep)
    ensures Inv(Do(s, Sleep))
  {
    MoveKeeps(s, Do(s, Sleep));
  }

  lemma ReturnKeeps(s: State, events: seq<Ready>)
    requires Inv(s) && Enabled(s, Return(events))
    ensures Inv(Do(s, Return(events)))
  {
    MoveKeeps(s, Do(s, Return(events)));
  }

  lemma InterruptKeeps(s: State)
    requires Inv(s) && Enabled(s, Interrupt)
    ensures Inv(Do(s, Interrupt))
  {
    MoveKeeps(s, Do(s, Interrupt));
  }

  lemma AgainKeeps(s: State)
    requires Inv(s) && Enabled(s, Again)
    ensures Inv(Do(s, Again))
  {
    MoveKeeps(s, Do(s, Again));
  }

  lemma RestOfEvents(events: seq<Ready>)
    requires events != [] && NoDup(events)
    ensures NoDup(events[1..]) && events[0] !in events[1..] && forall e :: e in events[1..] ==> e in events
  {
  }

  lemma ReadWakeKeeps(s: State)
    requires Inv(s) && Enabled(s, ReadWake)
    ensures Inv(Do(s, ReadWake))
  {
    var r := Do(s, ReadWake);
    RestOfEvents(s.watcher.events);
    forall j: Id ensures HasRecord(r, j) <==> HasRecord(s, j) {}
    forall j: Id, x ensures At(r, j, x) <==> At(s, j, x) {}
    forall e | e in EventsOf(r.watcher) ensures IsReady(r, e) { assert e in EventsOf(s.watcher) && e != WakePipe; }
  }

  lemma UnwatchKeeps(s: State)
    requires Inv(s) && Enabled(s, Unwatch)
    ensures Inv(Do(s, Unwatch))
  {
    var r, id := Do(s, Unwatch), s.watcher.events[0].id;
    RestOfEvents(s.watcher.events);
    assert s.watcher.events[0] in EventsOf(s.watcher) && IsReady(s, HangUp(id));
    assert At(s, id, Watched);
    forall j: Id ensures HasRecord(r, j) <==> HasRecord(s, j) {}
    forall j: Id, x ensures At(r, j, x) <==> if j == id then x == Released else At(s, j, x) {
      if j == id { assert x != Watched ==> !At(s, id, x); }
    }
    forall e | e in EventsOf(r.watcher) ensures IsReady(r, e) { assert e in s.watcher.events && e != HangUp(id); }
  }

  lemma {:induction false} RetainDistinct(records: seq<Inhibitor>, id: Id)
    requires DistinctIds(records)
    ensures DistinctIds(Retain(records, id))
  {
    if records != [] {
      RetainDistinct(records[1..], id);
      assert forall i :: i in records[1..] ==> i.id != records[0].id;
    }
  }

  lemma RemoveKeeps(s: State)
    requires Inv(s) && Enabled(s, Remove)
    ensures Inv(Do(s, Remove))
  {
    var r, id := Do(s, Remove), s.watcher.id;
    RetainDistinct(s.records, id);
    assert At(s, id, Released);
    forall j: Id ensures HasRecord(r, j) <==> HasRecord(s, j) && j != id {
      if HasRecord(s, j) && j != id { var i :| i in s.records && i.id == j; assert i in r.records; }
    }
    forall j: Id, x ensures At(r, j, x) <==> j != id && At(s, j, x) {
      if j == id { assert x != Released ==> !At(s, id, x); }
    }
    assert forall j :: j in r.removed <==> j in s.removed || j == id;
    forall e | e in EventsOf(r.watcher) ensures IsReady(r, e) { assert e in EventsOf(s.watcher); }
  }

  lemma StepKeeps(s: State, a: Action)
    requires Inv(s) && Enabled(s, a)
    ensures Inv(Do(s, a))
  {
    hide Inv, Enabled;
    match a
    case Record(_, _, _, _, _, _) => RecordKeeps(s, a);
    case MakePipe(id) => MakePipeKeeps(s, id);
    case PipeFails(id) => PipeFailsKeeps(s, id);
    case Push(id) => PushKeeps(s, id);
    case WriteWake(id) => WriteWakeKeeps(s, id);
    case Close(id) => CloseKeeps(s, id);
    case Take => TakeKeeps(s);
    case Add => AddKeeps(s);
    case AddFails => AddFailsKeeps(s);
    case Sleep => SleepKeeps(s);
    case Return(events) => ReturnKeeps(s, events);
    case Interrupt => InterruptKeeps(s);
    case ReadWake => ReadWakeKeeps(s);
    case Unwatch => UnwatchKeeps(s);
    case Remove => RemoveKeeps(s);
    case Again => AgainKeeps(s);
    case Idle =>
  }

  // ---------- Faults ----------

  /** The id a failing step is about. */
  ghost function FaultId(s: State, a: Action): Id
    requires Enabled(s, a) && IsFault(a)
  {
    match a
    case PipeFails(id) => id
    case AddFails => s.watcher.batch[0]
  }

  /** A record leaves its stage only for another one, or by a fault about it. */
  lemma StagedStays(s: State, a: Action, id: Id)
    requires Enabled(s, a) && (IsFault(a) ==> FaultId(s, a) != id)
    requires (HasRecord(s, id) ==> Staged(s, id)) && HasRecord(Do(s, a), id)
    ensures Staged(Do(s, a), id)
  {
    var r := Do(s, a);
    if HasRecord(s, id) {
      var x :| At(s, id, x);
      var y := match a
        case Push(j) => if j == id then Queued else x
        case Take => if x == Queued then Drained else x
        case Add => if s.watcher.batch[0] == id then Watched else x
        case Unwatch => if s.watcher.events[0].id == id then Released else x
        case _ => x;
      if a.Add? || a.AddFails? { assert s.watcher.batch == [s.watcher.batch[0]] + s.watcher.batch[1..]; }
      assert At(r, id, y);
    } else {
      OnlyRecordAdds(s, a, id);
      assert At(r, id, Registering);
    }
  }

  lemma OnlyRecordAdds(s: State, a: Action, id: Id)
    requires Enabled(s, a) && !HasRecord(s, id) && HasRecord(Do(s, a), id)
    ensures a.Record? && id == s.nextId
  {
    var i :| i in Do(s, a).records && i.id == id;
    assert i !in s.records;
  }
}
