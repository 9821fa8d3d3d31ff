/**
  Theorems about descriptors over whole runs: to whom a collected record and a queued ready element are
  delivered, how often a descriptor is closed, and by whom.
 */
module Deliveries {
  import opened Protocol
  import opened Wakeups
  import opened Ledger
  import opened Registrations
  import opened Runs

  lemma {:induction false} LegalPrefix(run: seq<Action>, i: nat)
    requires Legal(run) && i <= |run|
    ensures Legal(run[..i])
    decreases |run|
  {
    if i == |run| {
      assert run[..i] == run;
    } else {
      assert run[..|run| - 1][..i] == run[..i];
      LegalPrefix(run[..|run| - 1], i);
    }
  }

  // Stale delivery

  predicate IsCollect(a: Action) {
    a.Control? && a.t.Collect?
  }

  predicate LastCollect(run: seq<Action>, i: nat) {
    i < |run| && IsCollect(run[i]) && forall j :: i < j < |run| ==> !IsCollect(run[j])
  }

  lemma SnapshotStep(s: State, a: Action)
    requires Enabled(s, a) && !IsCollect(a)
    ensures Step(s, a).h.snapshot == s.h.snapshot && Step(s, a).l.records == s.l.records
  {
  }

  lemma CollectStep(s: State, a: Action)
    requires Enabled(s, a) && IsCollect(a)
    ensures Step(s, a).h.snapshot == s.r.fdTable && Step(s, a).l.records == a.t.records
  {
  }

  lemma {:induction false} SnapshotIsTable(run: seq<Action>, i: nat)
    requires Legal(run) && LastCollect(run, i)
    ensures Legal(run[..i])
    ensures After(run).h.snapshot == After(run[..i]).r.fdTable && After(run).l.records == run[i].t.records
    decreases |run|
  {
    LegalPrefix(run, i);
    var n := |run| - 1;
    hide Enabled, Step;
    if i < n {
      assert run[..n][..i] == run[..i];
      SnapshotIsTable(run[..n], i);
      SnapshotStep(After(run[..n]), run[n]);
    } else {
      CollectStep(After(run[..n]), run[n]);
    }
  }

  // A record, when its turn comes, is handed to the event that was registered under its descriptor when
  // epoll_wait collected the batch, and to no other; it is dropped exactly when the descriptor is no longer
  // registered or that event's handler is being destroyed.
  lemma NoStaleDelivery(run: seq<Action>, i: nat)
    requires Legal(run) && LastCollect(run, i) && Enabled(After(run), Handle(ScanRecord))
    ensures Legal(run[..i]) && After(run).l.next < |run[i].t.records|
    ensures var s := After(run);
      var fd := run[i].t.records[s.l.next].fd;
      var before := After(run[..i]).r.fdTable;
      fd != PENDING_FD ==>
        fd in before
        && HandleStep(s, ScanRecord).l.running ==
          if fd in s.r.fdTable && s.o.Of(before[fd]).life == Alive then Handling(before[fd]) else Nobody
  {
    SnapshotIsTable(run, i);
    RunInvariant(run);
    var s := After(run);
    assert Fds(s.l.records)[s.l.next] == s.l.records[s.l.next].fd;
  }

  // The id comparison of ReadyFinalize never fails: if the descriptor of a queued ready element is registered,
  // it is registered for that element's event.
  lemma ReadyMeetsItsEvent(run: seq<Action>)
    requires Legal(run) && Enabled(After(run), Handle(FinalizeReady))
    ensures var s := After(run);
      var id := s.l.readyBatch[s.l.pos].id;
      s.o.Of(id).fd in s.r.fdTable ==> s.r.fdTable[s.o.Of(id).fd] == id
  {
    hide Legal, After, Booked, Tables, Inside, Batch;
    RunInvariant(run);
    var s := After(run);
    var id := s.l.readyBatch[s.l.pos].id;
    var fd := s.o.Of(id).fd;
    if fd in s.r.fdTable {
      RegisteredOwner(s, fd);
      assert FdOpen(s.o.handlers[id]);
    }
  }

  // Descriptors

  predicate ClosesFd(s: State, a: Action, id: Id) {
    s.o.Of(id).fd >= 0 &&
    ((a == Life(Destroy(id)) && s.o.Of(id).attachment == Unattached) || a == Life(DropEvent(id)))
  }

  // How often the run closes the descriptor of handler `id`.
  function Closes(run: seq<Action>, id: Id): nat
    requires Legal(run)
    decreases |run|
  {
    if run == [] then 0
    else
      var n := |run| - 1;
      Closes(run[..n], id) + if ClosesFd(After(run[..n]), run[n], id) then 1 else 0
  }

  predicate ClosesRight(s: State, t: State, closes: bool, id: Id) {
    && (closes ==> FdOpen(s.o.Of(id)))
    && (id < |s.o.handlers| ==>
      && t.o.Of(id).fd == s.o.Of(id).fd
      && (FdOpen(t.o.Of(id)) <==> FdOpen(s.o.Of(id)) && !closes))
    && (id >= |s.o.handlers| ==> (FdOpen(t.o.Of(id)) <==> t.o.Of(id).fd >= 0))
  }

  lemma LifeCloses(s: State, a: LifeAction, id: Id)
    requires LivesSound(s.o.handlers) && LifeEnabled(s, a)
    ensures ClosesRight(s, LifeStep(s, a), ClosesFd(s, Life(a), id), id)
  {
    if id < |s.o.handlers| { assert HandlerSound(s.o.handlers[id]); }
  }

  lemma CallCloses(s: State, a: CallAction, id: Id)
    requires LivesSound(s.o.handlers) && CallEnabled(s, a)
    ensures ClosesRight(s, CallStep(s, a), false, id)
  {
    if id < |s.o.handlers| { assert HandlerSound(s.o.handlers[id]); }
  }

  lemma StepCloses(s: State, a: Action, id: Id)
    requires LivesSound(s.o.handlers) && Enabled(s, a)
    ensures ClosesRight(s, Step(s, a), ClosesFd(s, a, id), id)
  {
    match a
    case Life(o) => LifeCloses(s, o, id);
    case Call(c) => CallCloses(s, c, id);
    case Control(t) => assert ControlStep(s, t).o == s.o;
    case Handle(w) => assert HandleStep(s, w).o.handlers == s.o.handlers;
  }

  // A descriptor is closed at most once.
  lemma {:induction false} ClosedOnce(run: seq<Action>, id: Id)
    requires Legal(run)
    ensures Closes(run, id) ==
      if After(run).o.Of(id).fd >= 0 && !FdOpen(After(run).o.Of(id)) then 1 else 0
    decreases |run|
  {
    if run != [] {
      var n := |run| - 1;
      var s, a := After(run[..n]), run[n];
      ClosedOnce(run[..n], id);
      RunInvariant(run[..n]);
      StepCloses(s, a, id);
    }
  }

  // When it is closed, the closer owns it and epoll no longer watches it. The event of an attached handler
  // closes it, after the event's removal has been finalized.
  lemma ClosedUnwatched(run: seq<Action>, a: Action, id: Id)
    requires Legal(run) && Enabled(After(run), a) && ClosesFd(After(run), a, id)
    ensures var s := After(run);
      && s.r.Owns(id, s.o.Of(id).fd)
      && s.o.Of(id).fd !in s.r.registered && s.o.Of(id).fd !in s.r.fdTable
      && (s.o.Of(id).attachment != Unattached ==> id in s.h.addDone && id in s.h.removeDone)
      && (s.o.Of(id).attachment == Unattached ==> id !in s.h.addLog)
  {
    RunInvariant(run);
    var s := After(run);
    assert HandlerSound(s.o.handlers[id]);
    if a == Life(DropEvent(id)) { DropFinalized(s, id); }
    CloseUnregistered(s, id);
  }
}
