/**
  Exactly-once theorems about whole runs: every event is attached, closed and removed at most once, and tasks
  submitted with ExecuteOnce run in the order of their submission, each once.
 */
module Tasks {
  import opened Protocol
  import opened Wakeups
  import opened Ledger
  import opened Registrations
  import opened Runs

  function Count(run: seq<Action>, a: Action): nat {
    if run == [] then 0
    else
      var n := |run| - 1;
      Count(run[..n], a) + if run[n] == a then 1 else 0
  }

  function Once(b: bool): nat {
    if b then 1 else 0
  }

  // The marks an event bears say how often each of the four calls was made for it.
  predicate Marked(run: seq<Action>, x: Handler, id: Id) {
    && Count(run, Call(CreateEvent(id))) == Once(x.attachment != Unattached)
    && Count(run, Call(PushAdd(id))) == Once(x.attachment == Added)
    && Count(run, Call(BeginClose(id))) == Once(x.closing != Unset)
    && Count(run, Call(EndClose(id))) == Once(x.closing == Done)
  }

  lemma LifeUnmarks(s: State, a: LifeAction, id: Id)
    requires LifeEnabled(s, a)
    ensures var x, y := s.o.Of(id), LifeStep(s, a).o.Of(id); x.attachment == y.attachment && x.closing == y.closing
  {
  }

  lemma CallMarks(s: State, a: CallAction, id: Id)
    requires CallEnabled(s, a) && Listed(s.o)
    ensures var x, y := s.o.Of(id), CallStep(s, a).o.Of(id);
      && (a == CreateEvent(id) ==> x.attachment == Unattached)
      && (a == PushAdd(id) ==> x.attachment == Created)
      && (a == BeginClose(id) ==> x.closing == Unset)
      && (a == EndClose(id) ==> x.closing == Taken)
      && y.attachment == (if a == CreateEvent(id) then Created else if a == PushAdd(id) then Added else x.attachment)
      && y.closing == (if a == BeginClose(id) then Taken else if a == EndClose(id) then Done else x.closing)
  {
  }

  lemma StepMarks(run: seq<Action>, s: State, a: Action, id: Id)
    requires Enabled(s, a) && Listed(s.o) && Marked(run, s.o.Of(id), id)
    ensures Marked(run + [a], Step(s, a).o.Of(id), id)
  {
    assert (run + [a])[..|run|] == run;
    match a
    case Life(o) => LifeUnmarks(s, o, id);
    case Call(c) => CallMarks(s, c, id);
    case Control(t) => assert ControlStep(s, t).o == s.o;
    case Handle(w) => assert HandleStep(s, w).o.handlers == s.o.handlers;
  }

  // Whatever closes an event, in whatever order (its handler, the handler's destructor, the sweep when the loop
  // stops), it is erased from the event loop's table once and queued for removal once.
  lemma {:induction false} ClosedAndRemovedOnce(run: seq<Action>, id: Id)
    requires Legal(run)
    ensures Marked(run, After(run).o.Of(id), id)
    decreases |run|
  {
    if run != [] {
      var n := |run| - 1;
      assert run == run[..n] + [run[n]];
      ClosedAndRemovedOnce(run[..n], id);
      RunInvariant(run[..n]);
      StepMarks(run[..n], After(run[..n]), run[n], id);
    }
  }

  // EventLoop::Remove finds every event it is called for.
  lemma CloseFindsItsEvent(run: seq<Action>, id: Id)
    requires Legal(run) && Enabled(After(run), Call(BeginClose(id)))
    ensures id in After(run).o.eventTable
  {
    hide Legal, After;
    RunInvariant(run);
    ListedIfOpen(After(run), id);
  }

  lemma ListedIfOpen(s: State, id: Id)
    requires Invariant(s) && CallEnabled(s, BeginClose(id))
    ensures id in s.o.eventTable
  {
    hide AddsBooked, RemovesBooked, TasksKept, LivesSound, GoneFinalized, Descriptors, Tables, Inside, Batch;
    hide EventHeld, ReadyHeld;
  }

  // Order of tasks

  // The tasks handed to the poller by the run, in the order of the pushes.
  function Submitted(run: seq<Action>): seq<Id>
    requires Legal(run)
    decreases |run|
  {
    if run == [] then []
    else
      var n := |run| - 1;
      Submitted(run[..n]) + Submits(After(run[..n]), run[n])
  }

  function Submits(s: State, a: Action): seq<Id> {
    match a
    case Call(PushAdd(id)) => if s.o.Of(id).execute then [id] else []
    case _ => []
  }

  // The tasks whose handlers the run calls, in the order of the calls, whichever way it comes to call them.
  function Executed(run: seq<Action>): seq<Id>
    requires Legal(run)
    decreases |run|
  {
    if run == [] then []
    else
      var n := |run| - 1;
      Executed(run[..n]) + Executes(After(run[..n]), After(run))
  }

  function Executes(s: State, t: State): seq<Id> {
    if s.l.running == Nobody && t.l.running.Handling? && t.o.Of(t.l.running.id).execute
    then [t.l.running.id] else []
  }

  function TasksOf(ids: seq<Id>, o: Objects): seq<Id> {
    if ids == [] then []
    else
      var n := |ids| - 1;
      TasksOf(ids[..n], o) + if o.Of(ids[n]).execute then [ids[n]] else []
  }

  lemma {:induction false} TasksAppend(xs: seq<Id>, ys: seq<Id>, o: Objects)
    ensures TasksOf(xs + ys, o) == TasksOf(xs, o) + TasksOf(ys, o)
    decreases |ys|
  {
    if ys == [] {
      assert xs + ys == xs;
    } else {
      var n := |ys| - 1;
      assert (xs + ys)[..|xs| + n] == xs + ys[..n];
      TasksAppend(xs, ys[..n], o);
    }
  }

  lemma {:induction false} TasksFrame(ids: seq<Id>, o: Objects, o': Objects)
    requires forall id :: id in ids ==> o.Of(id).execute == o'.Of(id).execute
    ensures TasksOf(ids, o) == TasksOf(ids, o')
    decreases |ids|
  {
    if ids != [] { TasksFrame(ids[..|ids| - 1], o, o'); }
  }

  lemma {:induction false} TasksDistinct(ids: seq<Id>, o: Objects)
    requires Distinct(ids)
    ensures Distinct(TasksOf(ids, o)) && forall id :: id in TasksOf(ids, o) ==> id in ids
    decreases |ids|
  {
    if ids != [] {
      var n := |ids| - 1;
      TasksDistinct(ids[..n], o);
      assert ids[n] !in ids[..n];
    }
  }

  predicate ExecuteKept(hs: seq<Handler>, hs': seq<Handler>) {
    |hs| <= |hs'| && forall id :: 0 <= id < |hs| ==> hs'[id].execute == hs[id].execute
  }

  lemma LifeExecuteKept(s: State, a: LifeAction)
    requires LifeEnabled(s, a)
    ensures ExecuteKept(s.o.handlers, LifeStep(s, a).o.handlers)
  {
  }

  lemma CallExecuteKept(s: State, a: CallAction)
    requires CallEnabled(s, a)
    ensures ExecuteKept(s.o.handlers, CallStep(s, a).o.handlers)
  {
  }

  lemma StepExecuteKept(s: State, a: Action)
    requires Enabled(s, a)
    ensures ExecuteKept(s.o.handlers, Step(s, a).o.handlers)
  {
    match a
    case Life(o) => LifeExecuteKept(s, o);
    case Call(c) => CallExecuteKept(s, c);
    case Control(t) => assert ControlStep(s, t).o == s.o;
    case Handle(w) => assert HandleStep(s, w).o.handlers == s.o.handlers;
  }

  predicate IdsKnown(ids: seq<Id>, o: Objects) {
    forall id :: id in ids ==> id < |o.handlers|
  }

  function PushedBy(a: Action): seq<Id> {
    if a.Call? && a.c.PushAdd? then [a.c.id] else []
  }

  function FinalizedBy(s: State, a: Action): seq<Id> {
    if a == Handle(FinalizeAdd) && s.l.pos < |s.l.batch| then [s.l.batch[s.l.pos]] else []
  }

  lemma StepHistory(s: State, a: Action)
    requires Enabled(s, a)
    ensures Step(s, a).h.addLog == s.h.addLog + PushedBy(a)
    ensures Step(s, a).h.addDone == s.h.addDone + FinalizedBy(s, a)
  {
  }

  lemma TasksGrow(ids: seq<Id>, o: Objects, o': Objects, more: seq<Id>)
    requires IdsKnown(ids + more, o)
    requires forall id :: 0 <= id < |o.handlers| ==> o'.Of(id).execute == o.Of(id).execute
    ensures TasksOf(ids + more, o') == TasksOf(ids, o) + TasksOf(more, o)
  {
    TasksFrame(ids + more, o, o');
    TasksAppend(ids, more, o);
  }

  lemma StepSubmits(s: State, a: Action)
    requires IdsKnown(s.h.addLog, s.o) && Enabled(s, a)
    ensures TasksOf(Step(s, a).h.addLog, Step(s, a).o) == TasksOf(s.h.addLog, s.o) + Submits(s, a)
  {
    StepExecuteKept(s, a);
    StepHistory(s, a);
    TasksGrow(s.h.addLog, s.o, Step(s, a).o, PushedBy(a));
  }

  // Only finalizing its add calls a task, and it always does: the task is alive then.
  lemma HandleExecutes(s: State, a: HandleAction)
    requires Invariant(s) && HandleEnabled(s, a) && s.fault == NoFault
    ensures Executes(s, HandleStep(s, a)) ==
      if a == FinalizeAdd && s.o.Of(s.l.batch[s.l.pos]).execute then [s.l.batch[s.l.pos]] else []
  {
    match a
    case FinalizeAdd => AddIsFresh(s); assert s.l.batch[s.l.pos] in s.h.addLog by { FinalizeAddLogs(s); }
    case ScanRecord =>
      var fd := s.l.records[s.l.next].fd;
      if fd in s.r.fdTable { assert HandlerSound(s.o.handlers[s.r.fdTable[fd]]); }
    case FinalizeReady =>
      var id := s.l.readyBatch[s.l.pos].id;
      if Registered(s, id) { assert HandlerSound(s.o.handlers[id]); }
    case _ =>
  }

  lemma StepExecutes(s: State, a: Action)
    requires Invariant(s) && Enabled(s, a)
    ensures TasksOf(Step(s, a).h.addDone, Step(s, a).o) == TasksOf(s.h.addDone, s.o) + Executes(s, Step(s, a))
  {
    StepExecuteKept(s, a);
    StepHistory(s, a);
    LoggedIds(s);
    if a == Handle(FinalizeAdd) { AddIsFresh(s); }
    TasksGrow(s.h.addDone, s.o, Step(s, a).o, FinalizedBy(s, a));
    StepCalls(s, a);
  }

  lemma StepCalls(s: State, a: Action)
    requires Invariant(s) && Enabled(s, a)
    ensures Executes(s, Step(s, a)) == TasksOf(FinalizedBy(s, a), s.o)
  {
    match a
    case Life(o) => assert LifeStep(s, o).l == s.l;
    case Call(c) => assert CallStep(s, c).l == s.l;
    case Control(t) => assert ControlStep(s, t).l.running == s.l.running;
    case Handle(w) => HandleExecutes(s, w);
  }

  lemma {:induction false} TasksLogged(run: seq<Action>)
    requires Legal(run)
    ensures Submitted(run) == TasksOf(After(run).h.addLog, After(run).o)
    ensures Executed(run) == TasksOf(After(run).h.addDone, After(run).o)
    decreases |run|
  {
    if run != [] {
      var n := |run| - 1;
      var s, a := After(run[..n]), run[n];
      TasksLogged(run[..n]);
      RunInvariant(run[..n]);
      StepSubmits(s, a);
      StepExecutes(s, a);
    }
  }

  // ExecuteOnce runs tasks in the order of their submission, none twice: what has run, followed by what waits
  // in the swapped-out batch and then in the queue, is what was submitted. This includes tasks submitted by
  // running tasks.
  lemma TasksRunInOrder(run: seq<Action>)
    requires Legal(run)
    ensures var s := After(run);
      Submitted(run) == Executed(run) + TasksOf(AddRest(s.l), s.o) + TasksOf(s.q.add, s.o)
    ensures Distinct(Submitted(run))
  {
    RunInvariant(run);
    TasksLogged(run);
    var s := After(run);
    TasksAppend(s.h.addDone + AddRest(s.l), s.q.add, s.o);
    TasksAppend(s.h.addDone, AddRest(s.l), s.o);
    TasksDistinct(s.h.addLog, s.o);
  }

  // RemoveInternal finds the task it was called by.
  lemma TaskIsInternal(run: seq<Action>)
    requires Legal(run) && Enabled(After(run), Handle(RemoveInternal))
    ensures After(run).l.running.id in After(run).o.internal
  {
    hide Legal, After, Booked, Descriptors, Tables, Batch, ReadyHeld;
    RunInvariant(run);
  }
}
