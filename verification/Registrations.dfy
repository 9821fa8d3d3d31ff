/**
  Descriptors and registrations: who owns an open descriptor, what EPoll::events_ and the kernel's interest list
  hold, which handler the loop is inside of, and what a record collected by epoll_wait still means by the time
  it is looked up.
 */
module Registrations {
  import opened Protocol
  import opened Wakeups
  import opened Ledger

  // The descriptor has not been closed: by the destructor of a handler that was never attached, or by that of
  // its event.
  predicate FdOpen(x: Handler) {
    x.fd >= 0 && !(x.life == Destroyed && x.attachment == Unattached) && !x.eventGone
  }

  predicate Descriptors(hs: seq<Handler>, open: map<Fd, Id>) {
    && (forall id :: 0 <= id < |hs| && FdOpen(hs[id]) ==> hs[id].fd in open && open[hs[id].fd] == id)
    && (forall fd :: fd in open ==> fd != PENDING_FD && open[fd] < |hs| && hs[open[fd]].fd == fd && FdOpen(hs[open[fd]]))
  }

  // EPoll::events_ holds exactly the events added and not removed, and the kernel's interest list its keys.
  predicate Tables(hs: seq<Handler>, r: Registry, h: History) {
    && (forall fd :: fd in r.fdTable ==>
      var id := r.fdTable[fd];
      id < |hs| && hs[id].fd == fd >= 0 && id in h.addDone && id !in h.removeDone)
    && (forall id :: 0 <= id < |hs| && hs[id].fd >= 0 && id in h.addDone && id !in h.removeDone ==>
      hs[id].fd in r.fdTable && r.fdTable[hs[id].fd] == id)
    && (forall id :: 0 <= id < |hs| && hs[id].fd >= 0 && id in h.removeDone ==> id in h.addDone)
    && r.registered == r.fdTable.Keys
    && r.owed <= r.registered
  }

  // The handler the loop is inside of is alive, added, and if it has a descriptor, still registered.
  predicate Inside(o: Objects, r: Registry, l: Loop, h: History) {
    match l.running
    case Nobody => true
    case Handling(id) =>
      && id < |o.handlers| && o.handlers[id].life == Alive && id in h.addDone
      && (o.handlers[id].execute ==> id in o.internal)
      && (o.handlers[id].fd >= 0 ==> o.handlers[id].fd in r.fdTable && r.fdTable[o.handlers[id].fd] == id)
    case Leaving(id) => id < |o.handlers| && o.handlers[id].life == Alive && o.handlers[id].execute
  }

  // A descriptor recorded in the batch was registered when the batch was collected; if it is registered now, it
  // is for the same event.
  predicate Batch(r: Registry, l: Loop, h: History) {
    && Distinct(Fds(l.records))
    && (l.phase != AtCheck && l.phase != InWait ==>
      forall fd :: fd in Fds(l.records) ==> fd == PENDING_FD || fd in h.snapshot)
    && (forall fd :: fd in h.snapshot && fd in r.fdTable ==> r.fdTable[fd] == h.snapshot[fd])
    && (DrainAhead(l) || l.phase == Adding ==> forall fd :: fd in h.snapshot ==> fd in r.fdTable)
    && (l.phase == Draining || l.phase == Drained || l.phase == Adding || l.phase == Removing || l.phase == Readying
        ==> PENDING_FD !in Rest(Fds(l.records), l.next))
  }

  predicate Sound(s: State) {
    && LoopShape(s.l)
    && Booked(s)
    && Descriptors(s.o.handlers, s.r.open)
    && Tables(s.o.handlers, s.r, s.h)
    && Inside(s.o, s.r, s.l, s.h)
    && Batch(s.r, s.l, s.h)
  }

  // A registered descriptor is open, and owned by the event it is registered for.
  lemma RegisteredOwner(s: State, fd: Fd)
    requires Sound(s) && fd in s.r.fdTable
    ensures FdOpen(s.o.Of(s.r.fdTable[fd])) && s.r.Owns(s.r.fdTable[fd], fd)
  {
    var id := s.r.fdTable[fd];
    assert id in s.h.addLog;
  }

  // Life actions

  lemma CloseUnregistered(s: State, id: Id)
    requires Sound(s) && FdOpen(s.o.Of(id)) && !Registered(s, id)
    ensures s.r.Owns(id, s.o.Of(id).fd) && s.o.Of(id).fd !in s.r.registered
  {
    var fd := s.o.Of(id).fd;
    if fd in s.r.fdTable { RegisteredOwner(s, fd); }
  }

  // A descriptor is closed by its one owner, after it left the interest list.
  lemma LifeClosesOwn(s: State, a: LifeAction)
    requires Sound(s) && LifeEnabled(s, a)
    ensures var t := LifeStep(s, a);
      t.fault == s.fault && t.r.registered == s.r.registered && t.r.fdTable == s.r.fdTable && t.r.owed <= s.r.registered
  {
    match a
    case Destroy(id) =>
      if s.o.Of(id).attachment == Unattached && s.o.Of(id).fd >= 0 {
        assert HandlerSound(s.o.handlers[id]);
        assert id !in s.h.addLog;
        CloseUnregistered(s, id);
      }
    case DropEvent(id) =>
      if s.o.Of(id).fd >= 0 { CloseUnregistered(s, id); }
    case _ =>
  }

  lemma LifeDescriptors(s: State, a: LifeAction)
    requires LifeEnabled(s, a) && Descriptors(s.o.handlers, s.r.open) && LivesSound(s.o.handlers)
    ensures Descriptors(LifeStep(s, a).o.handlers, LifeStep(s, a).r.open)
  {
    hide LivesSound, EventHeld;
    var t := LifeStep(s, a);
    match a
    case Construct(fd, execute) =>
      DescriptorsNew(s.o.handlers, s.r.open, t.o.handlers[|s.o.handlers|]);
    case Retain(id) => DescriptorsPut(s.o.handlers, s.r.open, id, t.o.handlers[id]);
    case Release(id) => DescriptorsPut(s.o.handlers, s.r.open, id, t.o.handlers[id]);
    case Expire(id) => DescriptorsPut(s.o.handlers, s.r.open, id, t.o.handlers[id]);
    case Destroy(id) => DescriptorsPut(s.o.handlers, s.r.open, id, t.o.handlers[id]);
    case DropEvent(id) => DescriptorsPut(s.o.handlers, s.r.open, id, t.o.handlers[id]);
    case Activity(fd) =>
  }

  lemma DescriptorsNew(hs: seq<Handler>, open: map<Fd, Id>, x: Handler)
    requires Descriptors(hs, open) && FdOpen(x) == (x.fd >= 0) && (x.fd >= 0 ==> x.fd != PENDING_FD && x.fd !in open)
    ensures Descriptors(hs + [x], if x.fd < 0 then open else open[x.fd := |hs|])
  {
  }

  lemma DescriptorsPut(hs: seq<Handler>, open: map<Fd, Id>, id: Id, x: Handler)
    requires Descriptors(hs, open) && id < |hs| && x.fd == hs[id].fd && (FdOpen(x) ==> FdOpen(hs[id]))
    ensures Descriptors(hs[id := x], if FdOpen(hs[id]) && !FdOpen(x) then open - {x.fd} else open)
  {
  }

  predicate FdsKept(hs: seq<Handler>, hs': seq<Handler>) {
    |hs| <= |hs'| && forall id :: 0 <= id < |hs| ==> hs'[id].fd == hs[id].fd
  }

  lemma TablesFrame(hs: seq<Handler>, hs': seq<Handler>, r: Registry, h: History)
    requires Tables(hs, r, h) && FdsKept(hs, hs')
    requires forall id :: id in h.addDone || id in h.removeDone ==> id < |hs|
    ensures Tables(hs', r, h)
  {
  }

  lemma LoggedIds(s: State)
    requires Booked(s)
    ensures forall id :: id in s.h.addDone || id in s.h.removeDone ==> id < |s.o.handlers|
  {
    assert forall id :: id in s.h.addDone ==> id in s.h.addLog;
    assert forall id :: id in s.h.removeDone ==> id in s.h.removeLog;
  }

  lemma LifeKeepsFds(s: State, a: LifeAction)
    requires LifeEnabled(s, a)
    ensures FdsKept(s.o.handlers, LifeStep(s, a).o.handlers)
  {
  }

  lemma LifeInside(s: State, a: LifeAction)
    requires LifeEnabled(s, a) && Inside(s.o, s.r, s.l, s.h)
    ensures var t := LifeStep(s, a); t.l == s.l && t.h == s.h && Inside(t.o, t.r, t.l, t.h)
  {
  }

  lemma LifeKeeps(s: State, a: LifeAction)
    requires Sound(s) && LifeEnabled(s, a)
    ensures LifeStep(s, a).fault == s.fault && Sound(LifeStep(s, a))
  {
    hide Inside, FdsKept;
    LifeBooks(s, a);
    LifeClosesOwn(s, a);
    LifeDescriptors(s, a);
    LoggedIds(s);
    LifeKeepsFds(s, a);
    TablesFrame(s.o.handlers, LifeStep(s, a).o.handlers, s.r, s.h);
    LifeInside(s, a);
  }

  // Calls

  lemma CallOthers(s: State, a: CallAction)
    requires Sound(s) && CallEnabled(s, a)
    ensures var t := CallStep(s, a);
      && FdsKept(s.o.handlers, t.o.handlers)
      && Descriptors(t.o.handlers, t.r.open)
      && Inside(t.o, t.r, t.l, t.h)
  {
    hide Booked, Tables, Batch;
    CallInside(s, a);
  }

  lemma CallInside(s: State, a: CallAction)
    requires CallEnabled(s, a) && Inside(s.o, s.r, s.l, s.h)
    ensures var t := CallStep(s, a); Inside(t.o, t.r, t.l, t.h)
  {
  }

  lemma CallKeeps(s: State, a: CallAction)
    requires Sound(s) && CallEnabled(s, a)
    ensures CallStep(s, a).fault == s.fault && Sound(CallStep(s, a))
  {
    CallBooks(s, a);
    CallOthers(s, a);
    LoggedIds(s);
    TablesFrame(s.o.handlers, CallStep(s, a).o.handlers, s.r, s.h);
  }

  // Control actions

  lemma ControlBatch(s: State, a: ControlAction)
    requires Sound(s) && ControlEnabled(s, a)
    ensures var t := ControlStep(s, a); Batch(t.r, t.l, t.h) && LoopShape(t.l)
  {
    if a.Collect? {
      assert forall fd :: fd in Fds(a.records) ==> exists i :: 0 <= i < |a.records| && a.records[i].fd == fd;
      assert Rest(Fds(a.records), 0) == Fds(a.records);
    }
  }

  lemma ControlKeeps(s: State, a: ControlAction)
    requires Sound(s) && ControlEnabled(s, a)
    ensures ControlStep(s, a).fault == s.fault && Sound(ControlStep(s, a))
  {
    ControlBooks(s, a);
    ControlBatch(s, a);
  }

  // Finalizing an add

  // EPOLL_CTL_ADD meets an open descriptor that is not registered.
  lemma AddIsFresh(s: State)
    requires Sound(s) && HandleEnabled(s, FinalizeAdd)
    ensures var id := s.l.batch[s.l.pos];
      id < |s.o.handlers| && id !in s.h.addDone
      && (s.o.Of(id).fd >= 0 ==>
        s.r.Owns(id, s.o.Of(id).fd) && s.o.Of(id).fd !in s.r.fdTable && id !in s.h.removeDone)
  {
    FinalizeAddLogs(s);
    var id := s.l.batch[s.l.pos];
    var fd := s.o.Of(id).fd;
    if fd >= 0 {
      assert HandlerSound(s.o.handlers[id]) && FdOpen(s.o.handlers[id]);
      if fd in s.r.fdTable { RegisteredOwner(s, fd); }
    }
  }

  lemma AddKeeps(s: State)
    requires Sound(s) && HandleEnabled(s, FinalizeAdd)
    ensures var t := HandleStep(s, FinalizeAdd);
      t.fault == s.fault && Tables(t.o.handlers, t.r, t.h) && Inside(t.o, t.r, t.l, t.h) && Batch(t.r, t.l, t.h)
  {
    AddIsFresh(s);
  }

  // Finalizing a removal

  // EPoll::events_ has an entry for the descriptor exactly when the add was finalized, and then it is the
  // removed event's own.
  lemma RemoveFinds(s: State)
    requires Sound(s) && HandleEnabled(s, FinalizeRemove)
    ensures var id := s.l.batch[s.l.pos];
      id < |s.o.handlers| && id !in s.h.removeDone
      && (s.o.Of(id).fd >= 0 ==>
        && (s.o.Of(id).fd in s.r.fdTable <==> id in s.h.addDone)
        && (s.o.Of(id).fd in s.r.fdTable ==> s.r.fdTable[s.o.Of(id).fd] == id))
  {
    FinalizeRemoveLogs(s);
    var id := s.l.batch[s.l.pos];
    var fd := s.o.Of(id).fd;
    if fd >= 0 {
      assert HandlerSound(s.o.handlers[id]) && FdOpen(s.o.handlers[id]);
      if fd in s.r.fdTable { RegisteredOwner(s, fd); }
    }
  }

  lemma RemoveKeeps(s: State)
    requires Sound(s) && HandleEnabled(s, FinalizeRemove)
    ensures var t := HandleStep(s, FinalizeRemove);
      && (t.fault == s.fault || t.fault == EventNotFound)
      && Tables(t.o.handlers, t.r, t.h) && Inside(t.o, t.r, t.l, t.h) && Batch(t.r, t.l, t.h)
  {
    RemoveFinds(s);
  }

  // The other handling actions

  lemma InsideKeeps(s: State, a: HandleAction)
    requires Sound(s) && HandleEnabled(s, a) && a != FinalizeAdd && a != FinalizeRemove
    ensures var t := HandleStep(s, a);
      t.fault == s.fault && Tables(t.o.handlers, t.r, t.h) && Inside(t.o, t.r, t.l, t.h)
  {
  }

  lemma ScanKeeps(s: State, a: HandleAction)
    requires Sound(s) && HandleEnabled(s, a) && a != FinalizeAdd && a != FinalizeRemove
    ensures var t := HandleStep(s, a); Batch(t.r, t.l, t.h) && LoopShape(t.l)
  {
    if a.ScanRecord? {
      var fds := Fds(s.l.records);
      assert Rest(fds, s.l.next) == [fds[s.l.next]] + Rest(fds, s.l.next + 1);
    }
  }

  lemma HandleKeeps(s: State, a: HandleAction)
    requires Sound(s) && HandleEnabled(s, a)
    ensures var t := HandleStep(s, a); (t.fault == s.fault || t.fault == EventNotFound) && Sound(t)
  {
    hide Booked, Tables, Batch;
    if a == RemoveInternal { assert s.l.running.id in s.h.addDone; }
    HandleBooks(s, a);
    match a
    case FinalizeAdd => AddKeeps(s);
    case FinalizeRemove => RemoveKeeps(s);
    case _ => InsideKeeps(s, a); ScanKeeps(s, a);
  }
}
