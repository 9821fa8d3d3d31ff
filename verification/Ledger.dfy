/**
  The books of the protocol: which events are listed, queued and finalized, in which order, and which handlers
  are alive. Attachment and closing both happen at most once for an event, whatever threads attempt it.
 */
module Ledger {
  import opened Protocol
  import opened Wakeups

  // A queue with its history: everything ever pushed is finalized, swapped out, or still queued, in that order.
  predicate Log(log: seq<Id>, done: seq<Id>, rest: seq<Id>, queue: seq<Id>) {
    log == done + rest + queue && Distinct(log)
  }

  lemma LogPush(log: seq<Id>, done: seq<Id>, rest: seq<Id>, queue: seq<Id>, id: Id)
    requires Log(log, done, rest, queue) && id !in log
    ensures Log(log + [id], done, rest, queue + [id])
  {
    assert log + [id] == done + rest + (queue + [id]);
  }

  lemma LogSwap(log: seq<Id>, done: seq<Id>, queue: seq<Id>)
    requires Log(log, done, [], queue)
    ensures Log(log, done, Rest(queue, 0), [])
  {
    assert done + [] + queue == done + queue[0..] + [];
  }

  lemma LogAdvance(log: seq<Id>, done: seq<Id>, batch: seq<Id>, pos: nat, queue: seq<Id>)
    requires Log(log, done, Rest(batch, pos), queue) && pos < |batch|
    ensures Log(log, done + [batch[pos]], Rest(batch, pos + 1), queue)
    ensures batch[pos] in log && batch[pos] !in done
  {
    assert Rest(batch, pos) == [batch[pos]] + Rest(batch, pos + 1);
    assert log == done + [batch[pos]] + Rest(batch, pos + 1) + queue;
    assert log[|done|] == batch[pos];
    assert forall i :: 0 <= i < |done| ==> log[i] == done[i];
  }

  function AddRest(l: Loop): seq<Id> {
    if l.phase == Adding then Rest(l.batch, l.pos) else []
  }

  function RemoveRest(l: Loop): seq<Id> {
    if l.phase == Removing then Rest(l.batch, l.pos) else []
  }

  predicate AddsLogged(hs: seq<Handler>, log: seq<Id>) {
    && (forall id :: id in log ==> id < |hs|)
    && (forall id :: 0 <= id < |hs| ==> (hs[id].attachment == Added <==> id in log))
  }

  predicate RemovesLogged(hs: seq<Handler>, log: seq<Id>) {
    && (forall id :: id in log ==> id < |hs|)
    && (forall id :: 0 <= id < |hs| ==> (hs[id].closing == Done <==> id in log))
  }

  predicate AddsBooked(hs: seq<Handler>, q: Queues, l: Loop, h: History) {
    Log(h.addLog, h.addDone, AddRest(l), q.add) && AddsLogged(hs, h.addLog)
  }

  predicate RemovesBooked(hs: seq<Handler>, q: Queues, l: Loop, h: History) {
    Log(h.removeLog, h.removeDone, RemoveRest(l), q.remove) && RemovesLogged(hs, h.removeLog)
  }

  // EventLoop::events_ lists exactly the attached events that nobody has begun to close.
  predicate Listed(o: Objects) {
    && (forall id :: id in o.eventTable ==> id < |o.handlers|)
    && (forall id :: 0 <= id < |o.handlers| ==>
      (id in o.eventTable <==> o.handlers[id].attachment != Unattached && o.handlers[id].closing == Unset))
  }

  // A task that has been submitted and not yet finalized is kept alive by internal_event_handlers_.
  predicate TasksKept(o: Objects, addDone: seq<Id>) {
    && (forall id :: id in o.internal ==> id < |o.handlers| && o.handlers[id].life == Alive)
    && (forall id :: 0 <= id < |o.handlers| ==>
      o.handlers[id].execute && o.handlers[id].attachment != Unattached && id !in addDone ==> id in o.internal)
  }

  predicate HandlerSound(x: Handler) {
    && x.fd >= -1
    && (x.execute ==> x.fd == -1)
    && (x.closing != Unset ==> x.attachment != Unattached)
    && (x.attachment == Created ==> x.life == Alive && x.held)
    && (x.life == Destroyed && x.attachment != Unattached ==> x.closing == Done)
    && (x.eventGone ==> x.life == Destroyed && x.attachment == Added && x.closing == Done)
  }

  predicate LivesSound(hs: seq<Handler>) {
    forall id :: 0 <= id < |hs| ==> HandlerSound(hs[id])
  }

  predicate GoneFinalized(hs: seq<Handler>, h: History) {
    forall id :: 0 <= id < |hs| && hs[id].eventGone ==> id in h.addDone && id in h.removeDone
  }

  predicate Booked(s: State) {
    && AddsBooked(s.o.handlers, s.q, s.l, s.h)
    && RemovesBooked(s.o.handlers, s.q, s.l, s.h)
    && Listed(s.o)
    && TasksKept(s.o, s.h.addDone)
    && LivesSound(s.o.handlers)
    && GoneFinalized(s.o.handlers, s.h)
  }

  // Construction and destruction

  lemma LifeBooks(s: State, a: LifeAction)
    requires LifeEnabled(s, a) && Booked(s)
    ensures Booked(LifeStep(s, a))
  {
    LifeLists(s, a);
    LifeKeepsTasks(s, a);
    LifeKeepsSound(s, a);
  }

  lemma LifeLists(s: State, a: LifeAction)
    requires LifeEnabled(s, a) && Booked(s)
    ensures var t := LifeStep(s, a);
      && AddsLogged(t.o.handlers, t.h.addLog) && RemovesLogged(t.o.handlers, t.h.removeLog) && Listed(t.o)
  {
    LifeKeepsCalls(s, a);
    var hs, hs' := s.o.handlers, LifeStep(s, a).o.handlers;
    assert forall id :: |hs| <= id < |hs'| ==> id !in s.h.addLog && id !in s.h.removeLog && id !in s.o.eventTable;
  }

  // What calls have recorded in a handler stays, and a new handler has nothing recorded.
  lemma LifeKeepsCalls(s: State, a: LifeAction)
    requires LifeEnabled(s, a)
    ensures var hs, hs' := s.o.handlers, LifeStep(s, a).o.handlers;
      && |hs| <= |hs'|
      && (forall id :: 0 <= id < |hs| ==> hs'[id].attachment == hs[id].attachment && hs'[id].closing == hs[id].closing)
      && (forall id :: |hs| <= id < |hs'| ==> hs'[id].attachment == Unattached && hs'[id].closing == Unset)
    ensures LifeStep(s, a).h == s.h && LifeStep(s, a).o.eventTable == s.o.eventTable
  {
  }

  lemma LifeKeepsTasks(s: State, a: LifeAction)
    requires LifeEnabled(s, a) && TasksKept(s.o, s.h.addDone)
    ensures TasksKept(LifeStep(s, a).o, s.h.addDone)
  {
  }

  lemma LifeKeepsSound(s: State, a: LifeAction)
    requires LifeEnabled(s, a) && Booked(s)
    ensures var t := LifeStep(s, a); LivesSound(t.o.handlers) && GoneFinalized(t.o.handlers, t.h)
  {
    if a.DropEvent? { DropFinalized(s, a.id); }
  }

  // The last pointer to an event is dropped only after its add and its removal have been finalized.
  lemma DropFinalized(s: State, id: Id)
    requires LifeEnabled(s, DropEvent(id)) && Booked(s)
    ensures id in s.h.addDone && id in s.h.removeDone
    ensures s.o.handlers[id].life == Destroyed && s.o.handlers[id].attachment == Added
    ensures s.o.handlers[id].closing == Done
  {
    assert HandlerSound(s.o.handlers[id]);
    assert id in s.h.addLog && id in s.h.removeLog;
  }

  // Calls into the loop

  lemma CallBooks(s: State, a: CallAction)
    requires CallEnabled(s, a) && Booked(s)
    ensures CallStep(s, a).fault == s.fault && Booked(CallStep(s, a))
  {
    CallLogs(s, a);
    CallLists(s, a);
  }

  lemma CallLogs(s: State, a: CallAction)
    requires CallEnabled(s, a) && Booked(s)
    ensures var t := CallStep(s, a);
      AddsBooked(t.o.handlers, t.q, t.l, t.h) && RemovesBooked(t.o.handlers, t.q, t.l, t.h)
  {
    match a
    case PushAdd(id) => LogPush(s.h.addLog, s.h.addDone, AddRest(s.l), s.q.add, id);
    case EndClose(id) => LogPush(s.h.removeLog, s.h.removeDone, RemoveRest(s.l), s.q.remove, id);
    case _ =>
  }

  lemma CallLists(s: State, a: CallAction)
    requires CallEnabled(s, a) && Booked(s)
    ensures var t := CallStep(s, a); Listed(t.o) && TasksKept(t.o, t.h.addDone)
  {
  }

  // The loop between elements

  lemma ControlBooks(s: State, a: ControlAction)
    requires ControlEnabled(s, a) && Booked(s) && LoopShape(s.l)
    ensures Booked(ControlStep(s, a))
  {
    assert s.l.pos >= |s.l.batch| ==> Rest(s.l.batch, s.l.pos) == [];
    match a
    case SwapAdd => LogSwap(s.h.addLog, s.h.addDone, s.q.add);
    case SwapRemove => LogSwap(s.h.removeLog, s.h.removeDone, s.q.remove);
    case _ =>
  }

  // The loop on one element

  lemma FinalizeAddLogs(s: State)
    requires HandleEnabled(s, FinalizeAdd) && AddsBooked(s.o.handlers, s.q, s.l, s.h)
    ensures var t := HandleStep(s, FinalizeAdd); AddsBooked(t.o.handlers, t.q, t.l, t.h)
    ensures s.l.batch[s.l.pos] in s.h.addLog && s.l.batch[s.l.pos] !in s.h.addDone
  {
    LogAdvance(s.h.addLog, s.h.addDone, s.l.batch, s.l.pos, s.q.add);
  }

  lemma FinalizeRemoveLogs(s: State)
    requires HandleEnabled(s, FinalizeRemove) && RemovesBooked(s.o.handlers, s.q, s.l, s.h)
    ensures var t := HandleStep(s, FinalizeRemove); RemovesBooked(t.o.handlers, t.q, t.l, t.h)
    ensures s.l.batch[s.l.pos] in s.h.removeLog && s.l.batch[s.l.pos] !in s.h.removeDone
  {
    LogAdvance(s.h.removeLog, s.h.removeDone, s.l.batch, s.l.pos, s.q.remove);
  }

  lemma HandleLogs(s: State, a: HandleAction)
    requires HandleEnabled(s, a)
    requires AddsBooked(s.o.handlers, s.q, s.l, s.h) && RemovesBooked(s.o.handlers, s.q, s.l, s.h)
    ensures var t := HandleStep(s, a);
      AddsBooked(t.o.handlers, t.q, t.l, t.h) && RemovesBooked(t.o.handlers, t.q, t.l, t.h)
  {
    hide Log, AddsLogged, RemovesLogged;
    match a
    case FinalizeAdd => FinalizeAddLogs(s);
    case FinalizeRemove => FinalizeRemoveLogs(s);
    case _ =>
  }

  lemma HandleKeepsTasks(s: State, a: HandleAction)
    requires HandleEnabled(s, a)
    requires TasksKept(s.o, s.h.addDone) && GoneFinalized(s.o.handlers, s.h)
    requires a.RemoveInternal? ==> s.l.running.id in s.h.addDone
    ensures var t := HandleStep(s, a); TasksKept(t.o, t.h.addDone) && GoneFinalized(t.o.handlers, t.h)
  {
  }

  lemma HandleBooks(s: State, a: HandleAction)
    requires HandleEnabled(s, a) && Booked(s)
    requires a.RemoveInternal? ==> s.l.running.id in s.h.addDone
    ensures Booked(HandleStep(s, a))
  {
    HandleLogs(s, a);
    HandleKeepsTasks(s, a);
  }
}
