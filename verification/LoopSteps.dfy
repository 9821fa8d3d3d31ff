/**
  What the methods of module EventLoops need of the protocol: how each section looks as a change of fields, what
  other threads can change between two of them, and what lasts over a whole run.
 */
module LoopSteps {
  import opened Wrappers
  import opened Protocol
  import opened Wakeups
  import opened Ledger
  import opened Registrations
  import opened Runs
  import Tasks

  // How a method of the loop thread ends. `Blocked`: it waits, and no other thread is going to act.
  datatype Outcome = Returned | Threw | Blocked

  // How often the loop thread has looked at the stop flag.
  function Checks(run: seq<Action>): nat {
    Tasks.Count(run, Control(CheckStop))
  }

  // The run has been extended, without a look at the stop flag.
  predicate Ran(before: seq<Action>, run: seq<Action>) {
    before <= run && Checks(run) == Checks(before)
  }

  lemma LastStep(run: seq<Action>)
    requires Legal(run) && run != []
    ensures var n := |run| - 1;
      Legal(run[..n]) && Enabled(After(run[..n]), run[n]) && After(run) == Step(After(run[..n]), run[n])
  {
  }

  // The stop flag is never reset.
  lemma {:induction false} StopStays(before: seq<Action>, run: seq<Action>)
    requires Legal(run) && before <= run
    ensures Legal(before) && (After(before).q.stop ==> After(run).q.stop)
    decreases |run|
  {
    hide Legal, After, Enabled, Step;
    if before != run {
      var n := |run| - 1;
      LastStep(run);
      StopStays(before, run[..n]);
      StepKeepsStop(After(run[..n]), run[n]);
    }
  }

  lemma StepKeepsStop(s: State, a: Action)
    requires Enabled(s, a)
    ensures s.q.stop ==> Step(s, a).q.stop
    ensures Step(s, a).l.stage == Looping ==> s.l.stage == Looping && (a == Control(CheckStop) ==> !s.q.stop)
    ensures Step(s, a).l.stage != Looping ==> s.l.stage != Looping || s.q.stop
  {
  }

  // No look at the stop flag has found it set.
  predicate StopUnseen(run: seq<Action>) {
    forall i :: 0 <= i < |run| && run[i] == Control(CheckStop) ==> Legal(run[..i]) && !After(run[..i]).q.stop
  }

  lemma UnseenLonger(run: seq<Action>)
    requires run != [] && var n := |run| - 1;
      StopUnseen(run[..n]) && Legal(run[..n]) && (run[n] == Control(CheckStop) ==> !After(run[..n]).q.stop)
    ensures StopUnseen(run)
  {
    hide Legal, After;
    var n := |run| - 1;
    forall i | 0 <= i < |run| && run[i] == Control(CheckStop)
      ensures Legal(run[..i]) && !After(run[..i]).q.stop
    {
      if i < n { assert run[..n][i] == run[i] && run[..n][..i] == run[..i]; }
    }
  }

  // The loop goes on exactly as long as no look has found the flag set, and has left it only for the flag.
  lemma {:induction false} LoopingUnseen(run: seq<Action>)
    requires Legal(run)
    ensures After(run).l.stage == Looping ==> StopUnseen(run)
    ensures After(run).l.stage != Looping ==> After(run).q.stop
    decreases |run|
  {
    if run != [] {
      hide Legal, After, Enabled, Step, StopUnseen;
      var n := |run| - 1;
      LastStep(run);
      LoopingUnseen(run[..n]);
      StepKeepsStop(After(run[..n]), run[n]);
      if After(run).l.stage == Looping { UnseenLonger(run); }
    }
  }

  // A handler has been called, unless its weak pointer could not be locked.
  predicate Called(x: Loop, y: Loop) {
    y == x || (y.running.Handling? && y == x.(running := y.running))
  }

  // The actions of other threads, and ModifyEvent called by the running handler.
  predicate Outside(a: Action) {
    a.Life? || a.Call? || a == Handle(Modify)
  }

  predicate Foreign(a: Action, mine: Option<CallAction>) {
    mine.Some? ==>
      && a != Call(mine.value)
      && (mine.value.InsertInternal? || mine.value.CreateEvent? ==> a != Life(Release(mine.value.id)))
  }

  // Second halves of calls: once enabled, they stay so until their thread takes them.
  predicate Lasting(c: CallAction) {
    c.InsertInternal? || c.CreateEvent? || c.PushAdd? || c.EndClose? || c.SignalStop?
  }

  predicate HandlerLater(x: Handler, y: Handler) {
    && y.fd == x.fd && y.execute == x.execute
    && (x.attachment != Unattached ==> y.attachment != Unattached)
    && (x.attachment == Added ==> y.attachment == Added)
    && (x.closing != Unset ==> y.closing != Unset)
    && (x.closing == Done ==> y.closing == Done)
  }

  predicate HandlersLater(hs: seq<Handler>, hs': seq<Handler>) {
    |hs| <= |hs'| && forall id :: 0 <= id < |hs| ==> HandlerLater(hs[id], hs'[id])
  }

  // What can have changed when only other threads have acted.
  predicate Later(x: State, y: State) {
    y.l == x.l && y.fault == x.fault && HandlersLater(x.o.handlers, y.o.handlers)
  }

  lemma LaterSelf(x: State)
    ensures Later(x, x)
  {
  }

  lemma LaterTwice(x: State, y: State, z: State)
    requires Later(x, y) && Later(y, z)
    ensures Later(x, z)
  {
  }

  lemma LifeLater(x: State, a: LifeAction)
    requires LifeEnabled(x, a)
    ensures LifeStep(x, a).l == x.l && HandlersLater(x.o.handlers, LifeStep(x, a).o.handlers)
  {
  }

  lemma CallLater(x: State, a: CallAction)
    requires CallEnabled(x, a)
    ensures CallStep(x, a).l == x.l && HandlersLater(x.o.handlers, CallStep(x, a).o.handlers)
  {
  }

  lemma OutsideLater(run: seq<Action>, a: Action)
    requires Legal(run) && Enabled(After(run), a) && Outside(a)
    ensures Later(After(run), Step(After(run), a)) && Step(After(run), a).fault == NoFault
  {
    hide Invariant, LifeEnabled, LifeStep, CallEnabled, CallStep, HandlersLater, EarlyRemoval;
    var x := After(run);
    RunInvariant(run);
    StepKeeps(x, a);
    match a
    case Life(o) => LifeLater(x, o);
    case Call(c) => CallLater(x, c);
    case Handle(w) => ModifyLater(x);
  }

  lemma ModifyLater(x: State)
    requires HandleEnabled(x, Modify)
    ensures HandleStep(x, Modify).l == x.l && HandlersLater(x.o.handlers, HandleStep(x, Modify).o.handlers)
  {
  }

  lemma LifeLasts(x: State, a: LifeAction, mine: CallAction)
    requires LifeEnabled(x, a) && Foreign(Life(a), Some(mine)) && Lasting(mine) && CallEnabled(x, mine)
    requires LivesSound(x.o.handlers)
    ensures CallEnabled(LifeStep(x, a), mine)
  {
  }

  lemma CallLasts(x: State, a: CallAction, mine: CallAction)
    requires CallEnabled(x, a) && Foreign(Call(a), Some(mine)) && Lasting(mine) && CallEnabled(x, mine)
    requires LivesSound(x.o.handlers)
    ensures CallEnabled(CallStep(x, a), mine)
  {
  }

  lemma Lasts(run: seq<Action>, a: Action, mine: CallAction)
    requires Legal(run) && Enabled(After(run), a) && Outside(a) && Foreign(a, Some(mine)) && Lasting(mine)
    requires Enabled(After(run), Call(mine))
    ensures Enabled(Step(After(run), a), Call(mine))
  {
    hide LifeEnabled, LifeStep, CallEnabled, CallStep, HandlersLater, EarlyRemoval, Lasting, Foreign;
    hide LivesSound, Sound, Later;
    var x := After(run);
    RunInvariant(run);
    SoundLives(x);
    OutsideLater(run, a);
    match a
    case Life(o) => LifeLasts(x, o, mine);
    case Call(c) => CallLasts(x, c, mine);
    case Handle(w) => ModifyLasts(x, mine);
  }

  lemma SoundLives(x: State)
    requires Invariant(x)
    ensures LivesSound(x.o.handlers)
  {
  }

  lemma ModifyLasts(x: State, mine: CallAction)
    requires HandleEnabled(x, Modify) && CallEnabled(x, mine)
    ensures CallEnabled(HandleStep(x, Modify), mine)
  {
  }

  lemma EnabledRuns(s: State, a: Action)
    requires Enabled(s, a)
    ensures s.fault == NoFault
  {
  }

  // Whether an action is enabled depends on nothing but real state.
  lemma EnabledView(x: State, y: State, a: Action)
    requires x.o == y.o && x.r == y.r && x.l == y.l && x.fault == y.fault
    requires x.q == y.q.(stopSignalled := x.q.stopSignalled)
    ensures Enabled(x, a) == Enabled(y, a)
  {
  }

  lemma EraseLater(x: State, id: Id)
    requires Enabled(x, Call(BeginClose(id))) && id in x.o.eventTable
    ensures var y := Step(x, Call(BeginClose(id))); Later(x, y) && Enabled(y, Call(EndClose(id)))
  {
  }

  lemma ClosedLater(x: State, id: Id)
    requires Enabled(x, Call(EndClose(id)))
    ensures var y := Step(x, Call(EndClose(id)));
      Later(x, y) && id < |y.o.handlers| && y.o.handlers[id].closing == Done
  {
  }

  // The caller holds a pointer to the event of `id`.
  predicate Closable(s: State, id: Id) {
    s.o.Of(id).attachment != Unattached && (s.o.Of(id).life != Destroyed || id in s.l.sweep)
  }

  // The thread waits, and nobody else is going to act: either epoll has nothing to report, or an event is being
  // closed by another thread.
  ghost predicate Stuck(s: State, patience: nat) {
    && patience == 0 && s.fault == NoFault
    && ((s.l.Free(InWait) && forall records :: !Reportable(s.q, s.r, records))
        || exists id :: 0 <= id < |s.o.handlers| && s.o.handlers[id].closing == Taken)
  }

  ghost predicate Ended(outcome: Outcome, s: State, patience: nat) {
    match outcome
    case Returned => s.fault == NoFault
    case Threw => s.fault == EventNotFound
    case Blocked => Stuck(s, patience)
  }

  // The loop is still handling the same record.
  predicate SamePass(x: Loop, y: Loop) {
    y.records == x.records && y.next == x.next && y.stage == x.stage
  }

  // The handler being called is alive and attached.
  lemma HandlingFacts(run: seq<Action>)
    requires Legal(run) && After(run).l.running.Handling?
    ensures var s := After(run);
      && s.l.running.id < |s.o.handlers| && s.o.Of(s.l.running.id).life == Alive
      && Closable(s, s.l.running.id)
  {
    RunInvariant(run);
    var s := After(run);
    assert s.l.running.id in s.h.addLog;
  }

  // epoll_wait has something to report exactly if the eventfd or a registered descriptor is owed an edge.
  lemma Reports(q: Queues, r: Registry)
    ensures (exists records :: Reportable(q, r, records))
      <==> (q.edge && q.counter > 0) || exists fd :: fd in r.registered && fd in r.owed && fd != PENDING_FD
  {
    if q.edge && q.counter > 0 { assert Reportable(q, r, [Record(PENDING_FD, {})]); }
    forall records: seq<Record> | Reportable(q, r, records)
      ensures (q.edge && q.counter > 0) || exists fd :: fd in r.registered && fd in r.owed && fd != PENDING_FD
    {
      assert records[0].fd == PENDING_FD || records[0].fd in r.registered;
    }
    forall fd | fd in r.registered && fd in r.owed && fd != PENDING_FD ensures Reportable(q, r, [Record(fd, {})]) {
    }
  }

  lemma ReportableView(q: Queues, v: Queues, r: Registry)
    requires q == v.(stopSignalled := q.stopSignalled)
    ensures forall records :: Reportable(q, r, records) == Reportable(v, r, records)
  {
  }

  lemma NothingToDo(run: seq<Action>)
    requires Legal(run) && After(run).fault == NoFault && After(run).l.phase == InWait
    requires var s := After(run); forall records :: !Reportable(s.q, s.r, records)
    ensures var s := After(run);
      s.q.add == [] && s.q.remove == [] && s.q.ready == [] && !s.q.stopSignalled && s.l.stage != LastPass
  {
    hide Legal, After, Reportable;
    NeverSleepsOnWork(run);
  }

  // Where the stopping thread is, and what the table it copies lists.
  lemma SweepFacts(run: seq<Action>)
    requires Legal(run) && After(run).l.stage == Stopping
    ensures var s := After(run);
      && s.l.phase == AtCheck && s.l.running == Nobody
      && forall id :: id in s.o.eventTable ==> id < |s.o.handlers| && s.o.handlers[id].attachment != Unattached
  {
    RunInvariant(run);
  }

  // The events of the copied table are attached, and those no longer in `todo` have been closed.
  predicate Swept(sweep: set<Id>, todo: set<Id>, hs: seq<Handler>) {
    && todo <= sweep
    && (forall id :: id in sweep ==> id < |hs| && hs[id].attachment != Unattached)
    && (forall id :: id in sweep && id !in todo ==> hs[id].closing == Done)
  }

  // Every event attached before has begun to be closed.
  predicate AttachedClosing(hs: seq<Handler>, hs': seq<Handler>) {
    |hs| <= |hs'| && forall id :: 0 <= id < |hs| && hs[id].attachment != Unattached ==> hs'[id].closing != Unset
  }

  lemma ClosingLater(a: seq<Handler>, b: seq<Handler>, c: seq<Handler>, d: seq<Handler>)
    requires HandlersLater(a, b) && AttachedClosing(b, c) && HandlersLater(c, d)
    ensures AttachedClosing(a, d)
  {
  }

  lemma FinishedClosing(a: seq<Handler>, b: seq<Handler>, c: seq<Handler>)
    requires HandlersLater(a, b) && AttachedClosing(b, c)
    ensures AttachedClosing(a, c)
  {
  }

  lemma StepLater(x: State, a: Action)
    requires Enabled(x, a)
    ensures HandlersLater(x.o.handlers, Step(x, a).o.handlers)
  {
    match a
    case Life(o) => LifeLater(x, o);
    case Call(c) => CallLater(x, c);
    case Control(t) => assert ControlStep(x, t).o == x.o;
    case Handle(w) => assert HandleStep(x, w).o.handlers == x.o.handlers;
  }

  lemma {:induction false} RunLater(before: seq<Action>, run: seq<Action>)
    requires Legal(run) && before <= run
    ensures Legal(before) && HandlersLater(After(before).o.handlers, After(run).o.handlers)
    decreases |run|
  {
    hide Legal, After, Enabled, Step, HandlersLater;
    if before == run {
      SameHandlers(After(run).o.handlers);
    } else {
      var n := |run| - 1;
      LastStep(run);
      RunLater(before, run[..n]);
      StepLater(After(run[..n]), run[n]);
      AllLater(After(before).o.handlers, After(run[..n]).o.handlers, After(run).o.handlers);
    }
  }

  // An attached event that is not in the table has begun to be closed before; the others are swept.
  lemma SweptAttached(before: seq<Action>, run: seq<Action>, sweep: set<Id>)
    requires Legal(run) && before <= run && Legal(before) && sweep == After(before).o.eventTable
    requires Swept(sweep, {}, After(run).o.handlers)
    ensures AttachedClosing(After(before).o.handlers, After(run).o.handlers)
  {
    RunLater(before, run);
    RunInvariant(before);
    ListedBefore(After(before));
    hide Legal, After, Invariant;
  }

  lemma ListedBefore(s: State)
    requires Invariant(s)
    ensures forall id :: 0 <= id < |s.o.handlers| && s.o.handlers[id].attachment != Unattached ==>
      id in s.o.eventTable || s.o.handlers[id].closing != Unset
  {
    assert Listed(s.o);
  }

  lemma SweptStart(sweep: set<Id>, hs: seq<Handler>)
    requires forall id :: id in sweep ==> id < |hs| && hs[id].attachment != Unattached
    ensures Swept(sweep, sweep, hs)
  {
  }

  lemma SweptOne(sweep: set<Id>, todo: set<Id>, hs: seq<Handler>, id: Id)
    requires Swept(sweep, todo, hs) && id in todo
    ensures id in sweep && id < |hs| && hs[id].attachment != Unattached
  {
  }

  lemma SweptMore(sweep: set<Id>, todo: set<Id>, hs: seq<Handler>, hs': seq<Handler>, id: Id)
    requires Swept(sweep, todo, hs) && HandlersLater(hs, hs') && id < |hs'| && hs'[id].closing == Done
    ensures Swept(sweep, todo - {id}, hs')
  {
  }

  // The run has been extended, first by listing the event of `id`.
  predicate CreateEventTaken(before: seq<Action>, run: seq<Action>, id: Id) {
    before + [Call(CreateEvent(id))] <= run
  }

  // The run has been extended, first by setting the stop flag and last by signalling it.
  predicate StopTaken(before: seq<Action>, run: seq<Action>) {
    before + [Call(SetStop)] < run && run[|run| - 1] == Call(SignalStop)
  }

  lemma SameHandlers(hs: seq<Handler>)
    ensures HandlersLater(hs, hs)
  {
  }

  lemma AllLater(hs: seq<Handler>, hs': seq<Handler>, hs'': seq<Handler>)
    requires HandlersLater(hs, hs') && HandlersLater(hs', hs'')
    ensures HandlersLater(hs, hs'')
  {
  }

  // The loop thread takes no other thread's second half from it, either.
  lemma LoopLasts(x: State, a: Action, mine: CallAction)
    requires Enabled(x, a) && (a.Control? || a.Handle?) && Lasting(mine) && CallEnabled(x, mine) && Sound(x)
    ensures var t := Step(x, a); HandlersLater(x.o.handlers, t.o.handlers) && CallEnabled(t, mine)
  {
    hide Booked, Descriptors, Tables, Batch;
    if a == Handle(RemoveInternal) { assert x.l.running.id in x.h.addDone; RunningAttached(x); }
  }

  lemma RunningAttached(x: State)
    requires Sound(x) && x.l.running.Handling?
    ensures x.o.Of(x.l.running.id).attachment == Added
  {
    assert x.l.running.id in x.h.addLog;
  }

  lemma AnyLasts(run: seq<Action>, a: Action, mine: CallAction)
    requires Legal(run) && Enabled(After(run), a) && Foreign(a, Some(mine)) && Lasting(mine)
    requires Enabled(After(run), Call(mine))
    ensures var x, t := After(run), Step(After(run), a);
      && HandlersLater(x.o.handlers, t.o.handlers)
      && (t.fault == NoFault ==> Enabled(t, Call(mine)))
      && (!a.Handle? ==> t.fault == NoFault)
  {
    hide LifeEnabled, LifeStep, CallEnabled, CallStep, ControlEnabled, ControlStep, HandleEnabled, HandleStep;
    hide HandlersLater, EarlyRemoval, Lasting, Foreign, LivesSound, Sound;
    var x := After(run);
    RunInvariant(run);
    StepKeeps(x, a);
    if Outside(a) {
      OutsideLater(run, a);
      Lasts(run, a, mine);
    } else {
      LoopLasts(x, a, mine);
    }
  }

  lemma HandleFault(run: seq<Action>, a: HandleAction)
    requires Legal(run) && Enabled(After(run), Handle(a))
    ensures a != FinalizeRemove ==> Step(After(run), Handle(a)).fault == NoFault
  {
    RunInvariant(run);
    StepKeeps(After(run), Handle(a));
  }

  lemma CreatedPending(x: State, id: Id)
    requires Enabled(x, Call(CreateEvent(id)))
    ensures var y := Step(x, Call(CreateEvent(id)));
      Enabled(y, Call(PushAdd(id))) && HandlersLater(x.o.handlers, y.o.handlers)
  {
  }

  lemma PushedLogged(x: State, id: Id)
    requires Enabled(x, Call(PushAdd(id)))
    ensures var y := Step(x, Call(PushAdd(id)));
      id in y.h.addLog && id < |y.o.handlers| && y.o.handlers[id].attachment == Added
      && HandlersLater(x.o.handlers, y.o.handlers)
  {
  }

  lemma FreshTask(run: seq<Action>)
    requires Legal(run)
    ensures |After(run).o.handlers| !in After(run).o.internal
  {
    RunInvariant(run);
  }

  lemma ConstructedFree(x: State)
    requires Enabled(x, Life(Construct(-1, true))) && |x.o.handlers| !in x.o.internal
    ensures var y := Step(x, Life(Construct(-1, true)));
      && Enabled(y, Call(InsertInternal(|x.o.handlers|)))
      && |y.o.handlers| == |x.o.handlers| + 1 && y.o.handlers[|x.o.handlers|].execute
  {
  }

  lemma InsertedFree(x: State, id: Id)
    requires Enabled(x, Call(InsertInternal(id)))
    ensures var y := Step(x, Call(InsertInternal(id)));
      Enabled(y, Call(CreateEvent(id))) && y.o.handlers == x.o.handlers
  {
  }

  lemma StopLasts(x: State)
    requires x.fault == NoFault
    ensures Enabled(Step(x, Call(SetStop)), Call(SignalStop))
  {
  }

  lemma StopHeeded(x: State)
    requires Enabled(x, Call(SignalStop))
    ensures var y := Step(x, Call(SignalStop)); y.q.stop && y.q.stopSignalled
  {
  }

  // The descriptor a destructor closes is open and the object's own.
  lemma ClosesOwn(run: seq<Action>, a: LifeAction)
    requires Legal(run) && Enabled(After(run), Life(a))
    ensures var s := After(run);
      match a
      case Destroy(id) => s.o.Of(id).attachment == Unattached && s.o.Of(id).fd >= 0 ==> s.r.Owns(id, s.o.Of(id).fd)
      case DropEvent(id) => s.o.Of(id).fd >= 0 ==> s.r.Owns(id, s.o.Of(id).fd)
      case _ => true
  {
    RunInvariant(run);
    var s := After(run);
    LifeClosesOwn(s, a);
  }

  lemma AddOutcome(s: State)
    requires Invariant(s) && Enabled(s, Handle(FinalizeAdd))
    ensures AddedBy(s, Step(s, Handle(FinalizeAdd)))
  {
    hide Booked, Descriptors, Inside, Batch, ReadyHeld;
    StepKeeps(s, Handle(FinalizeAdd));
    AddIsFresh(s);
  }

  // What finalizing an add does: no system call fails.
  predicate AddedBy(s: State, t: State) {
    && s.l.pos < |s.l.batch| && s.l.batch[s.l.pos] < |s.o.handlers|
    && var id := s.l.batch[s.l.pos];
    && var fd, l := s.o.Of(id).fd, s.l.(pos := s.l.pos + 1);
    && t.fault == NoFault && t.o == s.o && t.q == s.q
    && t.l == (if fd < 0 then l.Call(id, s.o) else l)
    && t.r == (if fd < 0 then s.r else s.r.Add(fd, id))
    && (fd >= 0 ==> fd in s.r.open && fd !in s.r.registered)
  }

  lemma AddSucceeds(run: seq<Action>)
    requires Legal(run) && Enabled(After(run), Handle(FinalizeAdd))
    ensures AddedBy(After(run), Step(After(run), Handle(FinalizeAdd)))
  {
    hide Invariant, AddedBy, Step;
    RunInvariant(run);
    AddOutcome(After(run));
  }

  lemma RemoveOutcome(s: State)
    requires Invariant(s) && Enabled(s, Handle(FinalizeRemove))
    ensures RemovedBy(s, Step(s, Handle(FinalizeRemove)))
  {
    hide Booked, Descriptors, Inside, Batch, EarlyRemoval;
    StepKeeps(s, Handle(FinalizeRemove));
    RemoveFinds(s);
    EarlyRemovalMisses(s);
  }

  // What finalizing a removal does: the entry is missing exactly on an early removal, and DEL does not fail.
  predicate RemovedBy(s: State, t: State) {
    && s.l.pos < |s.l.batch| && s.l.batch[s.l.pos] < |s.o.handlers|
    && var fd := s.o.Of(s.l.batch[s.l.pos]).fd;
    && (EarlyRemoval(s) <==> fd >= 0 && fd !in s.r.fdTable)
    && (fd in s.r.fdTable ==> fd in s.r.registered)
    && t.fault == (if EarlyRemoval(s) then EventNotFound else NoFault) && t.o == s.o && t.q == s.q
    && t.l == (if EarlyRemoval(s) then s.l else s.l.(pos := s.l.pos + 1))
    && t.r == (if EarlyRemoval(s) || fd < 0 then s.r else s.r.Delete(fd))
  }

  lemma RemoveSucceeds(run: seq<Action>)
    requires Legal(run) && Enabled(After(run), Handle(FinalizeRemove))
    ensures RemovedBy(After(run), Step(After(run), Handle(FinalizeRemove)))
  {
    hide Invariant, RemovedBy, Step;
    RunInvariant(run);
    RemoveOutcome(After(run));
  }

  // The calls of other threads, as changes of the real fields

  lemma PushAddStep(s: State, id: Id)
    requires Enabled(s, Call(PushAdd(id)))
    ensures var t := Step(s, Call(PushAdd(id)));
      && id < |s.o.handlers|
      && t.o == s.o.(handlers := s.o.handlers[id := s.o.handlers[id].(attachment := Added)])
      && t.q == s.q.PushAdd(id) && t.r == s.r && t.l == s.l
  {
  }

  lemma EndCloseStep(s: State, id: Id)
    requires Enabled(s, Call(EndClose(id)))
    ensures var t := Step(s, Call(EndClose(id)));
      && id < |s.o.handlers|
      && t.o == s.o.(handlers := s.o.handlers[id := s.o.handlers[id].(closing := Done)])
      && t.q == s.q.PushRemove(id) && t.r == s.r && t.l == s.l
  {
  }

  lemma ModifySucceeds(run: seq<Action>)
    requires Legal(run)
    ensures var s := After(run);
      && (Enabled(s, Handle(Modify)) ==>
        s.l.running.id < |s.o.handlers| && s.o.Of(s.l.running.id).fd in s.r.registered)
      && (Enabled(s, Handle(RemoveInternal)) ==> s.l.running.id in s.o.internal)
  {
    hide Legal, After, Booked, Descriptors, Batch, ReadyHeld;
    RunInvariant(run);
  }
}
