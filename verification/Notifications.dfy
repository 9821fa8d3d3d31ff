/**
  Notifications: an edge owed by the kernel, a record in the batch being worked on, or a queued ready element
  stays until it is delivered to the handler it is for, as long as that handler stays registered and alive.
 */
module Notifications {
  import opened Protocol
  import opened Wakeups
  import opened Ledger
  import opened Registrations
  import opened Runs

  // The batches the loop is done with are empty.
  predicate Tidy(l: Loop) {
    && (l.phase == AtCheck || l.phase == InWait ==> l.next >= |l.records|)
    && (l.phase != Readying ==> l.readyBatch == [])
  }

  predicate InRecords(l: Loop, fd: Fd, need: Events) {
    exists i :: l.next <= i < |l.records| && l.records[i].fd == fd && need <= l.records[i].events
  }

  predicate InReady(es: seq<Ready>, pos: nat, id: Id, need: Events) {
    exists i :: pos <= i < |es| && es[i].id == id && need <= es[i].events
  }

  // Something will call the handler with at least the events `need`: an edge that epoll owes, a collected
  // record not yet looked up, or a ready element not yet finalized.
  predicate Notified(s: State, id: Id, need: Events) {
    || s.o.Of(id).fd in s.r.owed
    || InRecords(s.l, s.o.Of(id).fd, need)
    || InReady(s.q.ready, 0, id, need)
    || InReady(s.l.readyBatch, s.l.pos, id, need)
  }

  // The step calls the handler of `id` with at least the events `need`.
  predicate Delivers(s: State, a: Action, id: Id, need: Events) {
    && a.Handle? && HandleEnabled(s, a.w)
    && s.l.running == Nobody && HandleStep(s, a.w).l.running == Handling(id)
    && match a.w
       case ScanRecord => need <= s.l.records[s.l.next].events
       case FinalizeReady => need <= s.l.readyBatch[s.l.pos].events
       case _ => need == {}
  }

  // epoll_wait reports the handler's descriptor, but not with all of `need`.
  predicate ReportsLess(s: State, a: Action, id: Id, need: Events) {
    a.Control? && a.t.Collect? &&
    exists i :: 0 <= i < |a.t.records| && a.t.records[i].fd == s.o.Of(id).fd && !(need <= a.t.records[i].events)
  }

  predicate Served(s: State, id: Id) {
    Registered(s, id) && s.o.Of(id).life == Alive
  }

  lemma StepTidy(s: State, a: Action)
    requires Tidy(s.l) && LoopShape(s.l) && Enabled(s, a)
    ensures Tidy(Step(s, a).l)
  {
    match a
    case Life(o) => assert LifeStep(s, o).l == s.l;
    case Call(c) => assert CallStep(s, c).l == s.l;
    case Control(t) =>
    case Handle(w) =>
  }

  lemma LifeNotifies(s: State, a: LifeAction, id: Id, need: Events)
    requires Invariant(s) && LifeEnabled(s, a) && Notified(s, id, need) && Served(s, id)
    ensures Notified(LifeStep(s, a), id, need)
  {
    var t := LifeStep(s, a);
    var fd := s.o.Of(id).fd;
    assert LifeEnabled(s, a) && t.l == s.l && t.q == s.q && t.o.Of(id).fd == fd;
    match a
    case Destroy(other) =>
      if s.o.Of(other).attachment == Unattached && s.o.Of(other).fd >= 0 {
        assert HandlerSound(s.o.handlers[other]);
        assert other !in s.h.addLog;
        CloseUnregistered(s, other);
      }
    case DropEvent(other) =>
      if s.o.Of(other).fd >= 0 { CloseUnregistered(s, other); }
    case _ =>
  }

  lemma ReadyGrows(q: Queues, r: Ready, id: Id, need: Events)
    requires InReady(q.ready, 0, id, need)
    ensures InReady(q.PushReady(r).ready, 0, id, need)
  {
    var i :| 0 <= i < |q.ready| && q.ready[i].id == id && need <= q.ready[i].events;
    assert q.PushReady(r).ready[i] == q.ready[i];
  }

  lemma CallNotifies(s: State, a: CallAction, id: Id, need: Events)
    requires CallEnabled(s, a) && Notified(s, id, need) && id < |s.o.handlers|
    ensures Notified(CallStep(s, a), id, need)
  {
    var t := CallStep(s, a);
    assert t.r == s.r && t.l == s.l && t.o.Of(id).fd == s.o.Of(id).fd;
    if a.PushReady? && InReady(s.q.ready, 0, id, need) {
      ReadyGrows(s.q, Ready(a.id, a.events), id, need);
    }
  }

  lemma ControlNotifies(s: State, a: ControlAction, id: Id, need: Events)
    requires ControlEnabled(s, a) && Notified(s, id, need) && Tidy(s.l)
    ensures Notified(ControlStep(s, a), id, need) || ReportsLess(s, Control(a), id, need)
  {
    var fd := s.o.Of(id).fd;
    match a
    case Collect(records) =>
      if fd in s.r.owed && fd in Fds(records) {
        var i :| 0 <= i < |records| && Fds(records)[i] == fd;
        assert records[i].fd == fd;
        if need <= records[i].events { assert InRecords(ControlStep(s, a).l, fd, need); }
      }
    case SwapReady => if InReady(s.q.ready, 0, id, need) { assert InReady(ControlStep(s, a).l.readyBatch, 0, id, need); }
    case _ =>
  }

  lemma OwedKept(s: State, a: HandleAction, fd: Fd)
    requires HandleEnabled(s, a) && fd in s.r.owed && fd in HandleStep(s, a).r.fdTable
    requires s.r.registered == s.r.fdTable.Keys
    ensures fd in HandleStep(s, a).r.owed
  {
  }

  lemma RecordsKept(s: State, a: HandleAction, id: Id, need: Events)
    requires HandleEnabled(s, a) && InRecords(s.l, s.o.Of(id).fd, need) && Served(s, id)
    requires s.o.Of(id).fd != PENDING_FD
    ensures InRecords(HandleStep(s, a).l, s.o.Of(id).fd, need) || Delivers(s, Handle(a), id, need)
  {
    var fd := s.o.Of(id).fd;
    var l := HandleStep(s, a).l;
    var i :| s.l.next <= i < |s.l.records| && s.l.records[i].fd == fd && need <= s.l.records[i].events;
    if a != ScanRecord || i != s.l.next {
      assert l.records[i] == s.l.records[i] && l.next <= i;
    }
  }

  lemma ReadyBatchKept(s: State, a: HandleAction, id: Id, need: Events)
    requires HandleEnabled(s, a) && InReady(s.l.readyBatch, s.l.pos, id, need) && Served(s, id) && Tidy(s.l)
    ensures InReady(HandleStep(s, a).l.readyBatch, HandleStep(s, a).l.pos, id, need) || Delivers(s, Handle(a), id, need)
  {
    var l := HandleStep(s, a).l;
    var i :| s.l.pos <= i < |s.l.readyBatch| && s.l.readyBatch[i].id == id && need <= s.l.readyBatch[i].events;
    if a != FinalizeReady || i != s.l.pos {
      assert l.readyBatch[i] == s.l.readyBatch[i] && l.pos <= i;
    }
  }

  lemma HandleNotifies(s: State, a: HandleAction, id: Id, need: Events)
    requires Invariant(s) && Tidy(s.l) && HandleEnabled(s, a) && Notified(s, id, need) && Served(s, id)
    requires Registered(HandleStep(s, a), id)
    ensures Notified(HandleStep(s, a), id, need) || Delivers(s, Handle(a), id, need)
  {
    var fd := s.o.Of(id).fd;
    assert HandleStep(s, a).o.handlers == s.o.handlers && HandleStep(s, a).q == s.q;
    RegisteredOwner(s, fd);
    if fd in s.r.owed { OwedKept(s, a, fd); }
    if InRecords(s.l, fd, need) { RecordsKept(s, a, id, need); }
    if InReady(s.l.readyBatch, s.l.pos, id, need) { ReadyBatchKept(s, a, id, need); }
  }

  // Every step keeps the notification, unless it is the delivery itself or epoll_wait reports the descriptor
  // without the events asked for.
  lemma NotificationPersists(s: State, a: Action, id: Id, need: Events)
    requires Invariant(s) && Tidy(s.l) && Enabled(s, a) && Notified(s, id, need)
    requires Served(s, id) && Registered(Step(s, a), id)
    ensures Notified(Step(s, a), id, need) || Delivers(s, a, id, need) || ReportsLess(s, a, id, need)
  {
    match a
    case Life(o) => LifeNotifies(s, o, id, need);
    case Call(c) => CallNotifies(s, c, id, need);
    case Control(t) => ControlNotifies(s, t, id, need);
    case Handle(w) => HandleNotifies(s, w, id, need);
  }

  // Registering a descriptor makes epoll owe an edge for it.
  lemma RegistrationNotifies(s: State, a: Action, id: Id)
    requires Invariant(s) && Enabled(s, a)
    ensures Registered(Step(s, a), id) ==> Registered(s, id) || Step(s, a).o.Of(id).fd in Step(s, a).r.owed
  {
    match a
    case Life(o) => LifeClosesOwn(s, o); LifeKeepsFds(s, o);
    case Call(c) => assert CallStep(s, c).r == s.r;
    case Control(t) => assert ControlStep(s, t).r.fdTable == s.r.fdTable;
    case Handle(w) => if w == FinalizeAdd { AddIsFresh(s); }
  }

  lemma StaysAlive(s: State, a: Action, id: Id)
    requires Enabled(s, a)
    ensures id < |s.o.handlers| && Step(s, a).o.Of(id).life == Alive ==> s.o.Of(id).life == Alive
  {
    match a
    case Life(o) =>
    case Call(c) =>
    case Control(t) => assert ControlStep(s, t).o == s.o;
    case Handle(w) => assert HandleStep(s, w).o.handlers == s.o.handlers;
  }

  // A handler is served only since a step that notified it of its registration, or it was served before.
  lemma ServedBefore(s: State, a: Action, id: Id)
    requires Invariant(s) && Enabled(s, a)
    ensures Served(Step(s, a), id) ==> Served(s, id) || Step(s, a).o.Of(id).fd in Step(s, a).r.owed
  {
    RegistrationNotifies(s, a, id);
    StaysAlive(s, a, id);
  }

  lemma ClosingStep(s: State, a: Action, id: Id)
    requires Enabled(s, a)
    ensures Step(s, a).o.Of(id).closing == Unset ==> s.o.Of(id).closing == Unset
  {
    match a
    case Life(o) =>
    case Call(c) =>
    case Control(t) => assert ControlStep(s, t).o == s.o;
    case Handle(w) => assert HandleStep(s, w).o.handlers == s.o.handlers;
  }

  // Actions a handler takes itself while the loop is inside it.
  predicate OwnHandleAction(s: State, a: Action, id: Id) {
    s.l.running == Handling(id) && a.Handle? && (a.w == Modify || a.w == RemoveInternal || a.w == Return)
  }

  lemma RunningStep(s: State, a: Action, id: Id)
    requires Enabled(s, a) && !OwnHandleAction(s, a, id)
    ensures s.l.running == Handling(id) ==> Step(s, a).l.running == Handling(id)
    ensures Step(s, a).l.running == Handling(id) ==> s.l.running == Handling(id) || s.l.running == Nobody
  {
    match a
    case Life(o) => assert LifeStep(s, o).l == s.l;
    case Call(c) => assert CallStep(s, c).l == s.l;
    case Control(t) => assert ControlStep(s, t).l.running == s.l.running;
    case Handle(w) =>
  }

  // What the protocol keeps by itself.
  predicate LoopSound(s: State) {
    Invariant(s) && Tidy(s.l) && Wake(s.q, s.l)
  }

  lemma StepWakes(s: State, a: Action)
    requires Wake(s.q, s.l) && Enabled(s, a)
    ensures Wake(Step(s, a).q, Step(s, a).l)
  {
    match a
    case Life(o) => assert LifeStep(s, o).q == s.q && LifeStep(s, o).l == s.l;
    case Call(c) => CallWakes(s, c);
    case Control(t) => ControlWakes(s, t);
    case Handle(w) => HandleWakes(s, w);
  }

  lemma LoopSoundStep(s: State, a: Action)
    requires LoopSound(s) && Enabled(s, a)
    ensures LoopSound(Step(s, a))
  {
    StepKeeps(s, a);
    StepTidy(s, a);
    StepWakes(s, a);
  }

  // The loop, about to block, has a reason not to: the eventfd or this descriptor.
  predicate WillWake(s: State, id: Id) {
    s.o.Of(id).fd in s.r.owed || Enabled(s, Control(Collect([Record(PENDING_FD, {Read})])))
  }

  lemma NotifiedWakes(s: State, id: Id, need: Events)
    requires LoopSound(s) && s.fault == NoFault && s.l.phase == InWait && Notified(s, id, need)
    ensures WillWake(s, id)
  {
    if s.o.Of(id).fd !in s.r.owed {
      assert s.q.ready != [];
    }
  }
}
