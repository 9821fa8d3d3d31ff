/**
  EPoll, EventLoop, Event and EventHandler (lib/epoll.cc, lib/event_loop.cc, lib/event.cc) as one object that is
  updated in place. Each critical section is proved to be a step of module Protocol, and each longer method to
  make a run of such steps, whatever the other threads do between any two of them.
 */
module EventLoops {
  import opened Wrappers
  import opened Protocol
  import opened Wakeups
  import opened Ledger
  import opened Registrations
  import opened Runs
  import opened LoopSteps

  // What other threads can still do.
  class Others {
    var patience: nat

    constructor (patience: nat)
      ensures this.patience == patience
    {
      this.patience := patience;
    }
  }

  class EventLoop {
    // EPoll
    var pendingAdd: seq<Id>
    var pendingRemove: seq<Id>
    var pendingReady: seq<Ready>
    var fdEvents: map<Fd, Id>
    // EventLoop
    var events: set<Id>
    var internalHandlers: set<Id>
    var stop: bool
    // Event and EventHandler
    var handlers: seq<Handler>
    // The kernel
    var counter: nat
    var edge: bool
    var open: map<Fd, Id>
    var registered: set<Fd>
    var owed: set<Fd>
    // Where the loop thread is, and the locals of Run and Process
    var l: Loop

    const others: Others

    // The run of the protocol so far, and the state it leads to
    ghost var trace: seq<Action>
    ghost var s: State

    ghost predicate Tied()
      reads this
    {
      && s.o == Objects(handlers, events, internalHandlers)
      && s.q == Queues(pendingAdd, pendingRemove, pendingReady, counter, edge, stop, s.q.stopSignalled)
      && s.r == Registry(fdEvents, open, registered, owed)
      && s.l == l
    }

    ghost predicate Valid()
      reads this
    {
      Tied() && Legal(trace) && s == After(trace)
    }

    // The last step taken was `a`.
    ghost predicate Stepped(before: seq<Action>, x: State, a: Action)
      reads `trace, `s
    {
      trace == before + [a] && Enabled(x, a) && s == Step(x, a)
    }

    ghost method Take(a: Action)
      requires Legal(trace) && s == After(trace) && Enabled(s, a)
      modifies `trace, `s
      ensures Legal(trace) && s == After(trace) && Stepped(old(trace), old(s), a)
      ensures if a == Control(ControlAction.CheckStop) then Checks(trace) == Checks(old(trace)) + 1
              else Ran(old(trace), trace)
    {
      assert (trace + [a])[..|trace|] == trace;
      trace := trace + [a];
      s := Step(s, a);
    }

    constructor (others: Others)
      ensures Valid() && s == START && trace == [] && this.others == others
    {
      this.others := others;
      pendingAdd, pendingRemove, pendingReady, fdEvents := [], [], [], map[];
      events, internalHandlers, stop, handlers := {}, {}, false, [];
      counter, edge, open, registered, owed := 0, false, map[], {}, {};
      l := START.l;
      trace, s := [], START;
    }

    // Critical sections of EPoll

    method Wakeup()
      modifies `counter, `edge
      ensures counter == old(counter) + 1 && edge
    {
      counter, edge := counter + 1, true;
    }

    // Pushes, and wakes the loop up if the container was empty.
    method AddElement<T>(element: T, elements: seq<T>) returns (container: seq<T>)
      modifies `counter, `edge
      ensures container == elements + [element]
      ensures counter == old(counter) + (if elements == [] then 1 else 0) && edge == (old(edge) || elements == [])
    {
      container := elements + [element];
      if |container| == 1 { Wakeup(); }
    }

    method Add(id: Id)
      requires Valid() && Enabled(s, Call(PushAdd(id)))
      modifies this
      ensures Valid() && Stepped(old(trace), old(s), Call(PushAdd(id))) && Ran(old(trace), trace)
    {
      hide Legal, After, Ran, Checks, Enabled, Step;
      PushAddStep(s, id);
      pendingAdd := AddElement(id, pendingAdd);
      handlers := handlers[id := handlers[id].(attachment := Added)];
      Take(Call(PushAdd(id)));
    }

    method Remove(id: Id)
      requires Valid() && Enabled(s, Call(EndClose(id)))
      modifies this
      ensures Valid() && Stepped(old(trace), old(s), Call(EndClose(id))) && Ran(old(trace), trace)
    {
      hide Legal, After, Ran, Checks, Enabled, Step;
      EndCloseStep(s, id);
      pendingRemove := AddElement(id, pendingRemove);
      handlers := handlers[id := handlers[id].(closing := Done)];
      Take(Call(EndClose(id)));
    }

    method Ready(id: Id, events: Events)
      requires Valid() && Enabled(s, Call(PushReady(id, events)))
      modifies this
      ensures Valid() && Stepped(old(trace), old(s), Call(PushReady(id, events))) && Ran(old(trace), trace)
    {
      hide Legal, After, Ran, Checks;
      pendingReady := AddElement(Protocol.Ready(id, events), pendingReady);
      Take(Call(PushReady(id, events)));
    }

    // Critical sections of EventLoop

    method InsertInternal(id: Id)
      requires Valid() && Enabled(s, Call(CallAction.InsertInternal(id)))
      modifies this
      ensures Valid() && Stepped(old(trace), old(s), Call(CallAction.InsertInternal(id))) && Ran(old(trace), trace)
    {
      hide Legal, After, Ran, Checks;
      internalHandlers := internalHandlers + {id};
      Take(Call(CallAction.InsertInternal(id)));
    }

    method CreateEvent(id: Id)
      requires Valid() && Enabled(s, Call(CallAction.CreateEvent(id)))
      modifies this
      ensures Valid() && Stepped(old(trace), old(s), Call(CallAction.CreateEvent(id))) && Ran(old(trace), trace)
    {
      hide Legal, After, Ran, Checks;
      events := events + {id};
      handlers := handlers[id := handlers[id].(attachment := Created)];
      Take(Call(CallAction.CreateEvent(id)));
    }

    // The locked part of EventLoop::Remove, inside call_once. It would throw if the event were not listed.
    method Erase(id: Id)
      requires Valid() && Enabled(s, Call(BeginClose(id)))
      modifies this
      ensures Valid() && Stepped(old(trace), old(s), Call(BeginClose(id))) && Ran(old(trace), trace)
      ensures id in old(events)
    {
      hide Legal, After, Ran, Checks;
      RunInvariant(trace);
      assert id in events by { assert Listed(s.o); }
      events := events - {id};
      handlers := handlers[id := handlers[id].(closing := Taken)];
      Take(Call(BeginClose(id)));
    }

    method SetStop()
      requires Valid() && s.fault == NoFault
      modifies this
      ensures Valid() && Stepped(old(trace), old(s), Call(CallAction.SetStop)) && Ran(old(trace), trace)
    {
      hide Legal, After, Ran, Checks;
      stop := true;
      Take(Call(CallAction.SetStop));
    }

    method SignalStop()
      requires Valid() && Enabled(s, Call(CallAction.SignalStop))
      modifies this
      ensures Valid() && Stepped(old(trace), old(s), Call(CallAction.SignalStop)) && Ran(old(trace), trace)
    {
      hide Legal, After, Ran, Checks;
      Wakeup();
      Take(Call(CallAction.SignalStop));
    }

    // Event and EventHandler

    method Construct(fd: Fd, execute: bool)
      requires Valid() && Enabled(s, Life(LifeAction.Construct(fd, execute)))
      modifies this
      ensures Valid() && Stepped(old(trace), old(s), Life(LifeAction.Construct(fd, execute))) && Ran(old(trace), trace)
    {
      hide Legal, After, Ran, Checks;
      if fd >= 0 { open := open[fd := |handlers|]; }
      handlers := handlers + [Handler(fd, execute, Alive, true, Unattached, Unset, false)];
      Take(Life(LifeAction.Construct(fd, execute)));
    }

    method SetHandler(id: Id, h: Handler, a: LifeAction)
      requires Valid() && Enabled(s, Life(a)) && id < |handlers| && LifeStep(s, a) == s.(o := s.o.Put(id, h))
      modifies this
      ensures Valid() && Stepped(old(trace), old(s), Life(a)) && Ran(old(trace), trace)
    {
      hide Legal, After, Ran, Checks, LifeStep;
      handlers := handlers[id := h];
      Take(Life(a));
    }

    // Handle::Close.
    method CloseFd(fd: Fd)
      requires fd in open
      modifies `open, `registered, `owed
      ensures Registry(fdEvents, open, registered, owed) == old(Registry(fdEvents, open, registered, owed)).CloseFd(fd)
    {
      open, registered, owed := open - {fd}, registered - {fd}, owed - {fd};
    }

    // ~EventHandler, of a handler that was never attached or whose Event::Close has returned.
    method DestroyHandler(id: Id)
      requires Valid() && Enabled(s, Life(Destroy(id)))
      modifies this
      ensures Valid() && Stepped(old(trace), old(s), Life(Destroy(id))) && Ran(old(trace), trace)
      ensures var h := old(s.o.Of(id));
        h.attachment == Unattached && h.fd >= 0 ==> h.fd in old(open) && old(open)[h.fd] == id && h.fd !in open
    {
      hide Legal, After, Ran, Checks;
      ClosesOwn(trace, Destroy(id));
      var h := handlers[id];
      if h.attachment == Unattached && h.fd >= 0 { CloseFd(h.fd); }
      handlers := handlers[id := h.(life := Destroyed)];
      Take(Life(Destroy(id)));
    }

    // ~Event.
    method DestroyEvent(id: Id)
      requires Valid() && Enabled(s, Life(DropEvent(id)))
      modifies this
      ensures Valid() && Stepped(old(trace), old(s), Life(DropEvent(id))) && Ran(old(trace), trace)
      ensures var fd := old(s.o.Of(id)).fd; fd >= 0 ==> fd in old(open) && old(open)[fd] == id && fd !in open
    {
      hide Legal, After, Ran, Checks;
      ClosesOwn(trace, DropEvent(id));
      var h := handlers[id];
      if h.fd >= 0 { CloseFd(h.fd); }
      handlers := handlers[id := h.(eventGone := true)];
      Take(Life(DropEvent(id)));
    }

    method Activity(fd: Fd)
      requires Valid() && Enabled(s, Life(LifeAction.Activity(fd)))
      modifies this
      ensures Valid() && Stepped(old(trace), old(s), Life(LifeAction.Activity(fd))) && Ran(old(trace), trace)
    {
      hide Legal, After, Ran, Checks;
      if fd in registered { owed := owed + {fd}; }
      Take(Life(LifeAction.Activity(fd)));
    }

    // Critical sections of the loop thread

    method CheckStop()
      requires Valid() && Enabled(s, Control(ControlAction.CheckStop))
      modifies this
      ensures Valid() && Stepped(old(trace), old(s), Control(ControlAction.CheckStop))
      ensures s.fault == NoFault && l == if stop then old(l).(stage := Stopping) else old(l).(phase := InWait)
      ensures Checks(trace) == Checks(old(trace)) + 1
      ensures stop == old(stop)
    {
      hide Legal, After, Ran, Checks, LifeStep, CallStep, LifeEnabled, CallEnabled;
      l := if stop then l.(stage := Stopping) else l.(phase := InWait);
      Take(Control(ControlAction.CheckStop));
    }

    method CopyTable()
      requires Valid() && Enabled(s, Control(ControlAction.CopyTable))
      modifies this
      ensures Valid() && Stepped(old(trace), old(s), Control(ControlAction.CopyTable)) && Ran(old(trace), trace)
      ensures s.fault == NoFault && l == old(l).(stage := Sweeping, sweep := old(events), sweepTodo := old(events))
      ensures handlers == old(handlers)
    {
      hide Legal, After, Ran, Checks, LifeStep, CallStep, LifeEnabled, CallEnabled;
      l := l.(stage := Sweeping, sweep := events, sweepTodo := events);
      Take(Control(ControlAction.CopyTable));
    }

    method SweepClosed(id: Id)
      requires Valid() && Enabled(s, Control(ControlAction.SweepClosed(id)))
      modifies this
      ensures Valid() && Stepped(old(trace), old(s), Control(ControlAction.SweepClosed(id))) && Ran(old(trace), trace)
      ensures s.fault == NoFault && l == old(l).(sweepTodo := old(l).sweepTodo - {id}) && handlers == old(handlers)
    {
      hide Legal, After, Ran, Checks, LifeStep, CallStep, LifeEnabled, CallEnabled;
      l := l.(sweepTodo := l.sweepTodo - {id});
      Take(Control(ControlAction.SweepClosed(id)));
    }

    method SweepDone()
      requires Valid() && Enabled(s, Control(ControlAction.SweepDone))
      modifies this
      ensures Valid() && Stepped(old(trace), old(s), Control(ControlAction.SweepDone)) && Ran(old(trace), trace)
      ensures s.fault == NoFault && l == old(l).(stage := LastPass, phase := InWait) && handlers == old(handlers)
      ensures edge && counter > 0
    {
      hide Legal, After, Ran, Checks, LifeStep, CallStep, LifeEnabled, CallEnabled;
      Wakeup();
      l := l.(stage := LastPass, phase := InWait);
      Take(Control(ControlAction.SweepDone));
    }

    method Collect(records: seq<Record>)
      requires Valid() && Enabled(s, Control(ControlAction.Collect(records)))
      modifies this
      ensures Valid() && Stepped(old(trace), old(s), Control(ControlAction.Collect(records))) && Ran(old(trace), trace)
      ensures s.fault == NoFault && l == old(l).(phase := Scanning, records := records, next := 0)
    {
      hide Legal, After, Ran, Checks, LifeStep, CallStep, LifeEnabled, CallEnabled;
      if PENDING_FD in Fds(records) { edge := false; }
      owed := set fd | fd in owed && fd !in Fds(records);
      l := l.(phase := Scanning, records := records, next := 0);
      Take(Control(ControlAction.Collect(records)));
    }

    method ScanDone()
      requires Valid() && Enabled(s, Control(ControlAction.ScanDone))
      modifies this
      ensures Valid() && Stepped(old(trace), old(s), Control(ControlAction.ScanDone)) && Ran(old(trace), trace)
      ensures s.fault == NoFault && l.phase == AtCheck && l.running == Nobody
      ensures l.stage == if old(l).stage == LastPass then Finished else old(l).stage
    {
      hide Legal, After, Ran, Checks, LifeStep, CallStep, LifeEnabled, CallEnabled;
      l := if l.stage == LastPass then l.(stage := Finished, phase := AtCheck, sweep := {}) else l.(phase := AtCheck);
      Take(Control(ControlAction.ScanDone));
    }

    // eventfd_read: reads and zeroes the counter, or fails with EAGAIN if it is zero.
    method ReadCounter() returns (ok: bool)
      requires Valid() && s.fault == NoFault && s.l.Free(Draining)
      modifies this
      ensures Valid() && ok == (old(counter) > 0)
      ensures Stepped(old(trace), old(s), Control(if ok then ControlAction.ReadCounter else CounterEmpty))
      ensures Ran(old(trace), trace)
      ensures s.fault == NoFault && l == (if ok then old(l) else old(l).(phase := Drained)) && counter == 0
    {
      hide Legal, After, Ran, Checks, LifeStep, CallStep, LifeEnabled, CallEnabled;
      ok := counter > 0;
      if ok {
        counter := 0;
        Take(Control(ControlAction.ReadCounter));
      } else {
        l := l.(phase := Drained);
        Take(Control(CounterEmpty));
      }
    }

    method SwapAdd()
      requires Valid() && Enabled(s, Control(ControlAction.SwapAdd))
      modifies this
      ensures Valid() && Stepped(old(trace), old(s), Control(ControlAction.SwapAdd)) && Ran(old(trace), trace)
      ensures s.fault == NoFault && l == old(l).(phase := Adding, batch := old(pendingAdd), pos := 0)
    {
      hide Legal, After, Ran, Checks, LifeStep, CallStep, LifeEnabled, CallEnabled;
      l := l.(phase := Adding, batch := pendingAdd, pos := 0);
      pendingAdd := [];
      Take(Control(ControlAction.SwapAdd));
    }

    method SwapRemove()
      requires Valid() && Enabled(s, Control(ControlAction.SwapRemove))
      modifies this
      ensures Valid() && Stepped(old(trace), old(s), Control(ControlAction.SwapRemove)) && Ran(old(trace), trace)
      ensures s.fault == NoFault && l == old(l).(phase := Removing, batch := old(pendingRemove), pos := 0)
    {
      hide Legal, After, Ran, Checks, LifeStep, CallStep, LifeEnabled, CallEnabled;
      l := l.(phase := Removing, batch := pendingRemove, pos := 0);
      pendingRemove := [];
      Take(Control(ControlAction.SwapRemove));
    }

    method SwapReady()
      requires Valid() && Enabled(s, Control(ControlAction.SwapReady))
      modifies this
      ensures Valid() && Stepped(old(trace), old(s), Control(ControlAction.SwapReady)) && Ran(old(trace), trace)
      ensures s.fault == NoFault
      ensures l == old(l).(phase := Readying, batch := [], readyBatch := old(pendingReady), pos := 0)
    {
      hide Legal, After, Ran, Checks, LifeStep, CallStep, LifeEnabled, CallEnabled;
      l := l.(phase := Readying, batch := [], readyBatch := pendingReady, pos := 0);
      pendingReady := [];
      Take(Control(ControlAction.SwapReady));
    }

    method ReadyDone()
      requires Valid() && Enabled(s, Control(ControlAction.ReadyDone))
      modifies this
      ensures Valid() && Stepped(old(trace), old(s), Control(ControlAction.ReadyDone)) && Ran(old(trace), trace)
      ensures s.fault == NoFault && l == old(l).(phase := Scanning, readyBatch := [], pos := 0)
    {
      hide Legal, After, Ran, Checks, LifeStep, CallStep, LifeEnabled, CallEnabled;
      l := l.(phase := Scanning, readyBatch := [], pos := 0);
      Take(Control(ControlAction.ReadyDone));
    }

    // Locks the weak pointer to the handler, to call it.
    method Lock(id: Id)
      modifies `l
      ensures l == old(l).Call(id, Objects(handlers, events, internalHandlers))
    {
      if id < |handlers| && handlers[id].life == Alive { l := l.(running := Handling(id)); }
    }

    method ScanRecord()
      requires Valid() && Enabled(s, Handle(HandleAction.ScanRecord))
      modifies this
      ensures Valid() && Stepped(old(trace), old(s), Handle(HandleAction.ScanRecord)) && Ran(old(trace), trace)
      ensures s.fault == NoFault
      ensures if old(l.records[l.next]).fd == PENDING_FD then l == old(l).(phase := Draining, next := old(l).next + 1)
              else Called(old(l).(next := old(l).next + 1), l)
    {
      hide Legal, After, Ran, Checks, LifeStep, CallStep, LifeEnabled, CallEnabled;
      var fd := l.records[l.next].fd;
      l := l.(next := l.next + 1);
      if fd == PENDING_FD {
        l := l.(phase := Draining);
      } else if fd in fdEvents {
        Lock(fdEvents[fd]);
      }
      Take(Handle(HandleAction.ScanRecord));
    }

    method AddFinalize()
      requires Valid() && Enabled(s, Handle(FinalizeAdd))
      modifies this
      ensures Valid() && Stepped(old(trace), old(s), Handle(FinalizeAdd)) && Ran(old(trace), trace)
      // EPOLL_CTL_ADD finds the descriptor open and not registered.
      ensures s.fault == NoFault && Called(old(l).(pos := old(l).pos + 1), l)
      ensures var fd := old(s.o.Of(l.batch[l.pos]).fd); fd >= 0 ==> fd in old(open) && fd !in old(registered)
    {
      hide Legal, After, Ran, Checks, Enabled, Step;
      AddSucceeds(trace);
      var id := l.batch[l.pos];
      var fd := handlers[id].fd;
      l := l.(pos := l.pos + 1);
      if fd < 0 {
        Lock(id);
      } else {
        fdEvents := fdEvents[fd := id];
        registered, owed := registered + {fd}, owed + {fd};
      }
      Take(Handle(FinalizeAdd));
    }

    method RemoveFinalize() returns (found: bool)
      requires Valid() && Enabled(s, Handle(FinalizeRemove))
      modifies this
      ensures Valid() && Stepped(old(trace), old(s), Handle(FinalizeRemove)) && Ran(old(trace), trace)
      ensures s.fault == if found then NoFault else EventNotFound
      ensures found ==> l == old(l).(pos := old(l).pos + 1)
      ensures !found <==> old(EarlyRemoval(s))
    {
      hide Legal, After, Ran, Checks, Enabled, Step, EarlyRemoval;
      RemoveSucceeds(trace);
      var id := l.batch[l.pos];
      var fd := handlers[id].fd;
      if fd >= 0 && fd !in fdEvents {
        Take(Handle(FinalizeRemove));
        return false;
      }
      l := l.(pos := l.pos + 1);
      if fd >= 0 {
        fdEvents := fdEvents - {fd};
        registered, owed := registered - {fd}, owed - {fd};
      }
      Take(Handle(FinalizeRemove));
      return true;
    }

    method ReadyFinalize()
      requires Valid() && Enabled(s, Handle(FinalizeReady))
      modifies this
      ensures Valid() && Stepped(old(trace), old(s), Handle(FinalizeReady)) && Ran(old(trace), trace)
      ensures s.fault == NoFault && Called(old(l).(pos := old(l).pos + 1), l)
    {
      hide Legal, After, Ran, Checks, LifeStep, CallStep, LifeEnabled, CallEnabled;
      var id := l.readyBatch[l.pos].id;
      var fd := if id < |handlers| then handlers[id].fd else -1;
      l := l.(pos := l.pos + 1);
      if fd in fdEvents && fdEvents[fd] == id { Lock(id); }
      Take(Handle(FinalizeReady));
    }

    method Modify()
      requires Valid() && Enabled(s, Handle(HandleAction.Modify))
      modifies this
      ensures Valid() && Stepped(old(trace), old(s), Handle(HandleAction.Modify)) && Ran(old(trace), trace)
      // EPOLL_CTL_MOD finds the descriptor registered.
      ensures s.fault == NoFault && old(s.o.Of(l.running.id).fd in registered)
    {
      hide Legal, After, Ran, Checks, LifeStep, CallStep, LifeEnabled, CallEnabled;
      ModifySucceeds(trace);
      var fd := handlers[l.running.id].fd;
      owed := owed + {fd};
      Take(Handle(HandleAction.Modify));
    }

    method RemoveInternal()
      requires Valid() && Enabled(s, Handle(HandleAction.RemoveInternal))
      modifies this
      ensures Valid() && Stepped(old(trace), old(s), Handle(HandleAction.RemoveInternal)) && Ran(old(trace), trace)
      ensures s.fault == NoFault && old(l.running.id in internalHandlers)
      ensures l == old(l).(running := Leaving(old(l).running.id))
      ensures internalHandlers == old(internalHandlers) - {old(l).running.id} && handlers == old(handlers)
    {
      hide Legal, After, Ran, Checks, LifeStep, CallStep, LifeEnabled, CallEnabled;
      ModifySucceeds(trace);
      var id := l.running.id;
      internalHandlers := internalHandlers - {id};
      l := l.(running := Leaving(id));
      Take(Handle(HandleAction.RemoveInternal));
    }

    method Return()
      requires Valid() && Enabled(s, Handle(HandleAction.Return))
      modifies this
      ensures Valid() && Stepped(old(trace), old(s), Handle(HandleAction.Return)) && Ran(old(trace), trace)
      ensures s.fault == NoFault && l == old(l).(running := Nobody)
      ensures internalHandlers == old(internalHandlers) && handlers == old(handlers)
    {
      hide Legal, After, Ran, Checks, LifeStep, CallStep, LifeEnabled, CallEnabled;
      l := l.(running := Nobody);
      Take(Handle(HandleAction.Return));
    }

    // The other threads

    function View(): State
      reads this
    {
      State(Objects(handlers, events, internalHandlers),
            Queues(pendingAdd, pendingRemove, pendingReady, counter, edge, stop, false),
            Registry(fdEvents, open, registered, owed), l, START.h, NoFault)
    }

    method Live(a: LifeAction)
      requires Valid() && Enabled(s, Life(a))
      modifies this
      ensures Valid() && Stepped(old(trace), old(s), Life(a)) && Ran(old(trace), trace)
    {
      hide Legal, After;
      match a
      case Construct(fd, execute) => Construct(fd, execute);
      case Retain(id) => SetHandler(id, handlers[id].(held := true), a);
      case Release(id) => SetHandler(id, handlers[id].(held := false), a);
      case Expire(id) => SetHandler(id, handlers[id].(life := Expired), a);
      case Destroy(id) => DestroyHandler(id);
      case DropEvent(id) => DestroyEvent(id);
      case Activity(fd) => Activity(fd);
    }

    method Perform(a: CallAction)
      requires Valid() && Enabled(s, Call(a))
      modifies this
      ensures Valid() && Stepped(old(trace), old(s), Call(a)) && Ran(old(trace), trace)
    {
      hide *;
      match a
      case InsertInternal(id) => InsertInternal(id);
      case CreateEvent(id) => CreateEvent(id);
      case PushAdd(id) => Add(id);
      case PushReady(id, events) => Ready(id, events);
      case BeginClose(id) => Erase(id);
      case EndClose(id) => Remove(id);
      case SetStop => EnabledRuns(s, Call(a)); SetStop();
      case SignalStop => SignalStop();
    }

    // One action of another thread, or the running handler calling ModifyEvent.
    method Act(a: Action)
      requires Valid() && Enabled(s, a) && Outside(a)
      modifies this
      ensures Valid() && Stepped(old(trace), old(s), a) && Ran(old(trace), trace)
    {
      hide Legal, After, Step, LifeEnabled, CallEnabled, HandleEnabled, ControlEnabled;
      match a
      case Life(o) => Live(o);
      case Call(c) => Perform(c);
      case Handle(w) => Modify();
    }

    // What other threads do before the next step of this one. `mine` is the next section of a call this thread
    // is in the middle of; others do not take it.
    method Interfere(mine: Option<CallAction>)
      requires Valid() && s.fault == NoFault
      modifies this, others
      ensures Valid() && Ran(old(trace), trace) && Later(old(s), s)
      ensures old(others.patience) > 0 ==> others.patience < old(others.patience)
      ensures old(others.patience) == 0 ==> others.patience == 0 && s == old(s)
      ensures mine.Some? && Lasting(mine.value) && old(Enabled(s, Call(mine.value))) ==> Enabled(s, Call(mine.value))
    {
      hide Legal, After, Step, Enabled, Later;
      LaterSelf(s);
      while others.patience > 0
        invariant Valid() && Ran(old(trace), trace) && Later(old(s), s) && s.fault == NoFault
        invariant others.patience <= old(others.patience) && (old(others.patience) == 0 ==> s == old(s))
        invariant mine.Some? && Lasting(mine.value) && old(Enabled(s, Call(mine.value))) ==> Enabled(s, Call(mine.value))
        decreases others.patience
      {
        var a: Action := *;
        others.patience := others.patience - 1;
        EnabledView(s, View(), a);
        if Outside(a) && Foreign(a, mine) && Enabled(View(), a) {
          OutsideLater(trace, a);
          if mine.Some? && Lasting(mine.value) && Enabled(s, Call(mine.value)) { Lasts(trace, a, mine.value); }
          LaterTwice(old(s), s, Step(s, a));
          Act(a);
        }
        var more: bool := *;
        if !more { return; }
      }
    }

    // Waits for the one call of EventLoop::Remove to return.
    method AwaitClosed(id: Id) returns (outcome: Outcome)
      requires Valid() && s.fault == NoFault && id < |handlers| && handlers[id].closing != Unset
      modifies this, others
      ensures Valid() && Ran(old(trace), trace) && Later(old(s), s) && others.patience <= old(others.patience)
      ensures outcome == Returned ==> id < |handlers| && handlers[id].closing == Done
      ensures outcome != Returned ==> outcome == Blocked && Stuck(s, others.patience)
    {
      hide Legal, After, Step, Enabled, Reportable;
      while handlers[id].closing == Taken
        invariant Valid() && Ran(old(trace), trace) && Later(old(s), s) && others.patience <= old(others.patience)
        invariant id < |handlers| && handlers[id].closing != Unset
        decreases others.patience
      {
        if others.patience == 0 { return Blocked; }
        Interfere(None);
      }
      return Returned;
    }

    // Event::Close: the first call removes the event, others wait for that call to return.
    method CloseEvent(id: Id) returns (outcome: Outcome)
      requires Valid() && s.fault == NoFault && Closable(s, id)
      modifies this, others
      ensures Valid() && Ran(old(trace), trace) && Later(old(s), s) && others.patience <= old(others.patience)
      ensures outcome == Returned ==> id < |handlers| && handlers[id].closing == Done
      ensures outcome != Returned ==> outcome == Blocked && Stuck(s, others.patience)
    {
      hide Legal, After, Step, LifeEnabled, EventHeld, Reportable, Later;
      if handlers[id].closing == Unset {
        ghost var x := s;
        Erase(id);
        EraseLater(x, id);
        Interfere(Some(EndClose(id)));
        ghost var y := s;
        LaterTwice(old(s), Step(x, Call(BeginClose(id))), y);
        Remove(id);
        ClosedLater(y, id);
        LaterTwice(old(s), y, s);
        return Returned;
      }
      outcome := AwaitClosed(id);
    }

    // HandleEvents of the handler whose pointer was locked, if one was. An ExecuteHandler runs its function once,
    // closes its event and lets go of itself.
    method CallHandler() returns (outcome: Outcome)
      requires Valid() && s.fault == NoFault && !s.l.running.Leaving?
      modifies this, others
      ensures Valid() && Ran(old(trace), trace) && others.patience <= old(others.patience)
      ensures Ended(outcome, s, others.patience)
      ensures outcome == Returned ==> l == old(l).(running := Nobody)
      ensures outcome == Blocked ==> l == old(l)
      ensures outcome == Returned && old(l).running.Handling? && s.o.Of(old(l).running.id).execute ==>
        s.o.Of(old(l).running.id).closing == Done && old(l).running.id !in internalHandlers
    {
      hide Legal, After, Step, Reportable, LifeEnabled, CallEnabled;
      if l.running == Nobody { return Returned; }
      var id := l.running.id;
      HandlingFacts(trace);
      ghost var x := s;
      Interfere(None);
      if handlers[id].execute {
        ghost var y := s;
        HandlingFacts(trace);
        outcome := CloseEvent(id);
        if outcome == Blocked { return; }
        RemoveInternal();
      }
      Return();
      return Returned;
    }

    method HandleAdds() returns (outcome: Outcome)
      requires Valid() && s.fault == NoFault && s.l.Free(Drained)
      modifies this, others
      ensures Valid() && Ran(old(trace), trace) && others.patience <= old(others.patience)
      ensures Ended(outcome, s, others.patience)
      ensures outcome == Returned ==> l.Free(Adding) && l.pos >= |l.batch| && SamePass(old(l), l)
      ensures outcome == Blocked ==> l.phase != InWait
    {
      hide Legal, After, Step, Reportable, LifeEnabled, CallEnabled, Stuck;
      SwapAdd();
      while l.pos < |l.batch|
        invariant Valid() && s.fault == NoFault && Ran(old(trace), trace) && others.patience <= old(others.patience)
        invariant l.Free(Adding) && SamePass(old(l), l)
        decreases |l.batch| - l.pos
      {
        Interfere(None);
        AddFinalize();
        outcome := CallHandler();
        if outcome != Returned { return; }
      }
      return Returned;
    }

    // Throws if the removal of an event overtook its addition.
    method HandleRemoves() returns (outcome: Outcome)
      requires Valid() && s.fault == NoFault && s.l.Free(Adding) && s.l.pos >= |s.l.batch|
      modifies this, others
      ensures Valid() && Ran(old(trace), trace) && others.patience <= old(others.patience)
      ensures Ended(outcome, s, others.patience)
      ensures outcome == Returned ==> l.Free(Removing) && l.pos >= |l.batch| && SamePass(old(l), l)
      ensures outcome == Blocked ==> l.phase != InWait
    {
      hide Legal, After, Step, Reportable, LifeEnabled, CallEnabled, EarlyRemoval, Stuck;
      SwapRemove();
      while l.pos < |l.batch|
        invariant Valid() && s.fault == NoFault && Ran(old(trace), trace) && others.patience <= old(others.patience)
        invariant l.Free(Removing) && SamePass(old(l), l)
        decreases |l.batch| - l.pos
      {
        Interfere(None);
        var found := RemoveFinalize();
        if !found { return Threw; }
      }
      return Returned;
    }

    method HandleReadies() returns (outcome: Outcome)
      requires Valid() && s.fault == NoFault && s.l.Free(Removing) && s.l.pos >= |s.l.batch|
      modifies this, others
      ensures Valid() && Ran(old(trace), trace) && others.patience <= old(others.patience)
      ensures Ended(outcome, s, others.patience)
      ensures outcome == Returned ==> l.Free(Scanning) && SamePass(old(l), l)
      ensures outcome == Blocked ==> l.phase != InWait
    {
      hide Legal, After, Step, Reportable, LifeEnabled, CallEnabled, Stuck;
      SwapReady();
      while l.pos < |l.readyBatch|
        invariant Valid() && s.fault == NoFault && Ran(old(trace), trace) && others.patience <= old(others.patience)
        invariant l.Free(Readying) && SamePass(old(l), l)
        decreases |l.readyBatch| - l.pos
      {
        Interfere(None);
        ReadyFinalize();
        outcome := CallHandler();
        if outcome != Returned { return; }
      }
      ReadyDone();
      return Returned;
    }

    // Reads the eventfd until its counter is found to be zero.
    method Drain()
      requires Valid() && s.fault == NoFault && s.l.Free(Draining)
      modifies this, others
      ensures Valid() && Ran(old(trace), trace) && others.patience <= old(others.patience)
      ensures s.fault == NoFault && l == old(l).(phase := Drained) && counter == 0
    {
      hide Legal, After, Step, Reportable, LifeEnabled, CallEnabled, Stuck;
      var more := true;
      while more
        invariant Valid() && s.fault == NoFault && Ran(old(trace), trace) && others.patience <= old(others.patience)
        invariant if more then l == old(l) else l == old(l).(phase := Drained) && counter == 0
        decreases others.patience, counter, more
      {
        more := ReadCounter();
        if more { Interfere(None); }
      }
    }

    // The eventfd's record: zero the counter, then take the three queues one after the other.
    method HandlePending() returns (outcome: Outcome)
      requires Valid() && s.fault == NoFault && s.l.Free(Draining)
      modifies this, others
      ensures Valid() && Ran(old(trace), trace) && others.patience <= old(others.patience)
      ensures Ended(outcome, s, others.patience)
      ensures outcome == Returned ==> l.Free(Scanning) && SamePass(old(l), l)
      ensures outcome == Blocked ==> l.phase != InWait
    {
      hide Legal, After, Step, Reportable, LifeEnabled, CallEnabled, Stuck;
      Drain();
      Interfere(None);
      outcome := HandleAdds();
      if outcome != Returned { return; }
      Interfere(None);
      outcome := HandleRemoves();
      if outcome != Returned { return; }
      Interfere(None);
      outcome := HandleReadies();
    }

    // Returns when epoll has something to report.
    method EpollWait() returns (outcome: Outcome)
      requires Valid() && s.fault == NoFault && s.l.Free(InWait)
      modifies this, others
      ensures Valid() && Ran(old(trace), trace) && others.patience <= old(others.patience)
      ensures Ended(outcome, s, others.patience)
      ensures outcome != Threw
      ensures outcome == Returned ==> l.Free(Scanning) && l.stage == old(l.stage)
      ensures outcome == Blocked ==> s.fault == NoFault && l == old(l)
      ensures outcome == Blocked ==> forall records :: !Reportable(s.q, s.r, records)
    {
      hide Legal, After, Step, LifeEnabled, CallEnabled, Reportable;
      while true
        invariant Valid() && s.fault == NoFault && Ran(old(trace), trace) && others.patience <= old(others.patience)
        invariant l == old(l)
        decreases others.patience
      {
        Reports(s.q, s.r);
        ReportableView(s.q, View().q, s.r);
        if (edge && counter > 0) || exists fd :: fd in registered && fd in owed && fd != PENDING_FD {
          var records: seq<Record> :| Reportable(View().q, View().r, records);
          Collect(records);
          return Returned;
        }
        if others.patience == 0 { return Blocked; }
        Interfere(None);
      }
    }

    // One record: the eventfd's, or that of a descriptor, which is dropped if it is no longer registered.
    method HandleRecord() returns (outcome: Outcome)
      requires Valid() && s.fault == NoFault && s.l.Free(Scanning) && s.l.next < |s.l.records|
      modifies this, others
      ensures Valid() && Ran(old(trace), trace) && others.patience <= old(others.patience)
      ensures Ended(outcome, s, others.patience)
      ensures outcome == Returned ==>
        l.Free(Scanning) && l.stage == old(l.stage) && l.records == old(l.records) && l.next == old(l.next) + 1
      ensures outcome == Blocked ==> l.phase != InWait
    {
      hide Legal, After, Step, Reportable, LifeEnabled, CallEnabled, Stuck;
      var fd := l.records[l.next].fd;
      ScanRecord();
      if fd == PENDING_FD {
        outcome := HandlePending();
      } else {
        outcome := CallHandler();
      }
    }

    // Blocked in epoll_wait, it has nothing to do: the queues are empty and no stop has been signalled.
    method Process() returns (outcome: Outcome)
      requires Valid() && s.fault == NoFault && s.l.Free(InWait)
      modifies this, others
      ensures Valid() && Ran(old(trace), trace) && others.patience <= old(others.patience)
      ensures Ended(outcome, s, others.patience)
      ensures outcome == Returned ==> l.phase == AtCheck && l.running == Nobody
      ensures outcome == Returned ==> l.stage == if old(l.stage) == LastPass then Finished else Looping
      ensures outcome == Blocked && l.phase == InWait ==>
        pendingAdd == [] && pendingRemove == [] && pendingReady == [] && !s.q.stopSignalled && l.stage == Looping
    {
      hide Legal, After, Step, Reportable, LifeEnabled, CallEnabled, Stuck;
      outcome := EpollWait();
      if outcome != Returned {
        NothingToDo(trace);
        return;
      }
      while l.next < |l.records|
        invariant Valid() && s.fault == NoFault && Ran(old(trace), trace) && others.patience <= old(others.patience)
        invariant l.Free(Scanning) && l.stage == old(l.stage)
        decreases |l.records| - l.next
      {
        Interfere(None);
        outcome := HandleRecord();
        if outcome != Returned { return; }
      }
      ScanDone();
      return Returned;
    }

    method SweepOne(id: Id) returns (outcome: Outcome)
      requires Valid() && s.fault == NoFault && l.stage == Sweeping && id in l.sweepTodo && id in l.sweep
      requires s.o.Of(id).attachment != Unattached
      modifies this, others
      ensures Valid() && Ran(old(trace), trace) && others.patience <= old(others.patience)
      ensures Ended(outcome, s, others.patience)
      ensures outcome == Returned ==> l == old(l).(sweepTodo := old(l.sweepTodo) - {id})
      ensures outcome == Returned ==> HandlersLater(old(handlers), handlers) && id < |handlers| && handlers[id].closing == Done
    {
      hide Legal, After, Step, Reportable, LifeEnabled, CallEnabled, Stuck;
      Interfere(None);
      outcome := CloseEvent(id);
      if outcome != Returned { return; }
      SweepClosed(id);
    }

    // Closes the events listed when the loop stops.
    method Sweep() returns (outcome: Outcome)
      requires Valid() && s.fault == NoFault && s.l.stage == Stopping
      modifies this, others
      ensures Valid() && Ran(old(trace), trace) && others.patience <= old(others.patience)
      ensures Ended(outcome, s, others.patience)
      ensures outcome == Returned ==> l.Free(InWait) && l.stage == LastPass && Swept(l.sweep, l.sweepTodo, handlers)
      ensures outcome == Returned ==> old(events) == l.sweep && l.sweepTodo == {}
      ensures outcome == Returned ==> AttachedClosing(old(s.o.handlers), s.o.handlers)
      ensures outcome == Returned ==> edge && counter > 0
    {
      hide Legal, After, Step, LifeEnabled, CallEnabled, HandleEnabled, Stuck, HandlersLater, Swept, AttachedClosing;
      SweepFacts(trace);
      CopyTable();
      SweptStart(l.sweep, handlers);
      while l.sweepTodo != {}
        invariant Valid() && s.fault == NoFault && Ran(old(trace), trace) && others.patience <= old(others.patience)
        invariant l.stage == Sweeping && l.phase == AtCheck && l.running == Nobody && l.sweep == old(events)
        invariant Swept(l.sweep, l.sweepTodo, handlers)
        decreases |l.sweepTodo|
      {
        var id :| id in l.sweepTodo;
        SweptOne(l.sweep, l.sweepTodo, handlers, id);
        ghost var before, todo := handlers, l.sweepTodo;
        outcome := SweepOne(id);
        if outcome != Returned { return; }
        SweptMore(l.sweep, todo, before, handlers, id);
      }
      SweepDone();
      SweptAttached(old(trace), trace, l.sweep);
      return Returned;
    }

    // One iteration of the loop of Run, or what follows it once the stop flag is set: whichever, it takes one look
    // at the flag.
    method Pass() returns (outcome: Outcome)
      requires Valid() && s.fault == NoFault && s.l.Free(AtCheck) && s.l.stage == Looping
      modifies this, others
      ensures Valid() && old(trace) <= trace && others.patience <= old(others.patience)
      ensures Ended(outcome, s, others.patience)
      ensures Checks(trace) == Checks(old(trace)) + 1
      ensures outcome == Returned ==> l.phase == AtCheck && l.running == Nobody
      ensures outcome == Returned ==> l.stage == Finished || (l.stage == Looping && !old(stop))
      ensures outcome == Returned && l.stage == Finished ==> AttachedClosing(old(s.o.handlers), s.o.handlers)
    {
      hide Legal, After, Step, Reportable, LifeEnabled, CallEnabled, Stuck, Checks, AttachedClosing, HandlersLater;
      Interfere(None);
      StopStays(old(trace), trace);
      CheckStop();
      ghost var looked := trace;
      RunLater(old(trace), looked);
      if l.stage == Stopping {
        outcome := Sweep();
        if outcome != Returned { return; }
        ghost var swept := trace;
        outcome := Process();
        RunLater(swept, trace);
        ClosingLater(old(s.o.handlers), After(looked).o.handlers, After(swept).o.handlers, s.o.handlers);
      } else {
        outcome := Process();
      }
    }

    // The thread's function, with a bound on the number of passes. It returns early only when it has seen the stop
    // flag, closed the listed events and made the last pass.
    method Run(passes: nat) returns (outcome: Outcome)
      requires Valid() && s.fault == NoFault && s.l.Free(AtCheck) && s.l.stage == Looping
      modifies this, others
      ensures Valid() && old(trace) <= trace && others.patience <= old(others.patience)
      ensures Ended(outcome, s, others.patience)
      ensures outcome == Returned ==> (l.stage == Finished && stop) || l.stage == Looping
      ensures outcome == Returned && passes > 0 && old(stop) ==> l.stage == Finished
      ensures outcome == Returned && l.stage == Finished ==> AttachedClosing(old(s.o.handlers), s.o.handlers)
      ensures outcome == Returned && l.stage == Looping ==>
        Checks(trace) == Checks(old(trace)) + passes && StopUnseen(trace)
    {
      hide Legal, After, Step, Reportable, Stuck, Checks, StopUnseen, AttachedClosing, HandlersLater;
      var i := 0;
      while i < passes && l.stage == Looping
        invariant i <= passes && Valid() && s.fault == NoFault && old(trace) <= trace
        invariant others.patience <= old(others.patience) && s.l == l
        invariant l.phase == AtCheck && l.running == Nobody && (l.stage == Looping || l.stage == Finished)
        invariant Checks(trace) == Checks(old(trace)) + i
        invariant l.stage == Finished ==> AttachedClosing(old(s.o.handlers), s.o.handlers)
        invariant if i == 0 then stop == old(stop) else old(stop) ==> l.stage == Finished
      {
        ghost var before := trace;
        RunLater(old(trace), before);
        outcome := Pass();
        if outcome != Returned { return; }
        if l.stage == Finished { FinishedClosing(old(s.o.handlers), After(before).o.handlers, s.o.handlers); }
        i := i + 1;
      }
      LoopingUnseen(trace);
      return Returned;
    }

    // Calls by other threads, while the loop thread runs as well

    method Continue(a: ControlAction)
      requires Valid() && Enabled(s, Control(a))
      modifies this
      ensures Valid() && Stepped(old(trace), old(s), Control(a))
    {
      hide Legal, After, Step, LifeEnabled, CallEnabled, HandleEnabled, Tied;
      match a
      case CheckStop => CheckStop();
      case CopyTable => CopyTable();
      case SweepClosed(id) => SweepClosed(id);
      case SweepDone => SweepDone();
      case Collect(records) => Collect(records);
      case ScanDone => ScanDone();
      case ReadCounter => var ok := ReadCounter();
      case CounterEmpty => var ok := ReadCounter();
      case SwapAdd => SwapAdd();
      case SwapRemove => SwapRemove();
      case SwapReady => SwapReady();
      case ReadyDone => ReadyDone();
    }

    method Proceed(a: HandleAction) returns (ok: bool)
      requires Valid() && Enabled(s, Handle(a))
      modifies this
      ensures Valid() && Stepped(old(trace), old(s), Handle(a)) && ok == (s.fault == NoFault)
    {
      hide Legal, After, Step, Enabled, HandleEnabled, Tied;
      ok := true;
      HandleFault(trace, a);
      match a
      case ScanRecord => ScanRecord();
      case FinalizeAdd => AddFinalize();
      case FinalizeRemove => ok := RemoveFinalize();
      case FinalizeReady => ReadyFinalize();
      case Modify => Modify();
      case RemoveInternal => RemoveInternal();
      case Return => Return();
    }

    // Actions of any other thread, the loop's included. If the loop thread dies of an exception the rest of the
    // program is not followed.
    method Elsewhere(mine: CallAction) returns (ok: bool)
      requires Valid() && s.fault == NoFault && Lasting(mine) && Enabled(s, Call(mine))
      modifies this
      ensures Valid() && old(trace) <= trace && HandlersLater(old(s.o.handlers), s.o.handlers)
      ensures ok <==> s.fault == NoFault
      ensures ok ==> Enabled(s, Call(mine))
    {
      hide Legal, After, Step, Enabled, Lasting, Foreign;
      var steps: int := *;
      ghost var start := s.o.handlers;
      SameHandlers(start);
      ok := true;
      while steps > 0
        invariant Valid() && old(trace) <= trace && HandlersLater(start, s.o.handlers)
        invariant ok && s.fault == NoFault && Enabled(s, Call(mine))
      {
        steps := steps - 1;
        var a: Action := *;
        EnabledView(s, View(), a);
        if Foreign(a, Some(mine)) && Enabled(View(), a) {
          AnyLasts(trace, a, mine);
          ghost var x := s;
          match a
          case Life(o) => Live(o);
          case Call(c) => Perform(c);
          case Control(t) => Continue(t);
          case Handle(w) => ok := Proceed(w);
          AllLater(start, x.o.handlers, s.o.handlers);
          if !ok { return; }
        }
      }
    }

    // Returns false where the source throws because the handler already has an event.
    method Attach(id: Id) returns (attached: bool)
      requires Valid() && s.fault == NoFault && id < |handlers|
      requires handlers[id].life == Alive && handlers[id].held && (handlers[id].execute ==> id in internalHandlers)
      modifies this
      ensures Valid() && old(trace) <= trace
      ensures attached <==> old(handlers[id].attachment) == Unattached
      ensures !attached ==> s == old(s)
      ensures HandlersLater(old(s.o.handlers), s.o.handlers)
      ensures attached && s.fault == NoFault ==> id in s.h.addLog && id < |handlers| && handlers[id].attachment == Added
      ensures attached ==> CreateEventTaken(old(trace), trace, id)
    {
      hide Legal, After, Step, CallStep, EventHeld, HandlersLater;
      SameHandlers(s.o.handlers);
      if handlers[id].attachment != Unattached { return false; }
      CreateEvent(id);
      CreatedPending(old(s), id);
      ghost var y := s;
      var ok := Elsewhere(PushAdd(id));
      ghost var x := s;
      AllLater(old(s.o.handlers), y.o.handlers, x.o.handlers);
      if ok {
        Add(id);
        PushedLogged(x, id);
        AllLater(old(s.o.handlers), x.o.handlers, s.o.handlers);
      }
      return true;
    }

    // ExecuteOnce: a new ExecuteHandler, which the loop itself keeps alive until it has run.
    method ExecuteOnce() returns (id: Id)
      requires Valid() && s.fault == NoFault
      modifies this
      ensures Valid() && old(trace) <= trace && id == old(|handlers|)
      ensures s.fault == NoFault ==>
        && id in s.h.addLog && id < |handlers| && handlers[id].execute && handlers[id].attachment == Added
    {
      hide Legal, After, Step, CallStep, EventHeld;
      id := |handlers|;
      FreshTask(trace);
      Construct(-1, true);
      ConstructedFree(old(s));
      var ok := Elsewhere(CallAction.InsertInternal(id));
      if !ok { return; }
      ghost var x := s;
      InsertInternal(id);
      InsertedFree(x, id);
      ok := Elsewhere(CallAction.CreateEvent(id));
      if !ok { return; }
      var attached := Attach(id);
    }

    method Stop()
      requires Valid() && s.fault == NoFault
      modifies this
      ensures Valid() && old(trace) <= trace
      ensures s.fault == NoFault ==> stop && s.q.stopSignalled
      ensures s.fault == NoFault ==> StopTaken(old(trace), trace)
    {
      hide Legal, After, Step, CallStep, EventHeld;
      SetStop();
      StopLasts(old(s));
      var ok := Elsewhere(CallAction.SignalStop);
      if ok {
        ghost var x := s;
        SignalStop();
        StopHeeded(x);
      }
    }
  }
}
