/**
  The protocol between the threads that use an event loop and the loop's own thread, as a labelled
  transition system. One action is one lock-protected section, one system call or one atomic access of
  lib/epoll.cc, lib/event_loop.cc and lib/event.cc; actions of different threads interleave freely.

  Handlers are numbered in the order of their construction (`id_counter`, lib/event.cc:16), so a handler's
  id is its index in `handlers`. An event is named by the id of its handler, whose id it copies.
 */
module Protocol {

  type Id = nat
  type Fd = int

  // The descriptor number of the loop's eventfd.
  const PENDING_FD: Fd := 0
  const MAX_EVENTS: nat := 32

  datatype Flag = Read | Write | Close | Error
  type Events = set<Flag>

  // An element of the ready queue, and a record filled in by epoll_wait: the latter names a descriptor only.
  datatype Ready = Ready(id: Id, events: Events)
  datatype Record = Record(fd: Fd, events: Events)

  // `Expired`: the last shared pointer to the handler is gone, its destructor is running.
  datatype Life = Alive | Expired | Destroyed
  // `Created`: listed by the event loop, not yet handed to the poller.
  datatype Attachment = Unattached | Created | Added
  // The once-flag of Event::Close: not called, the one call is running, the one call has returned.
  datatype CloseFlag = Unset | Taken | Done

  datatype Handler = Handler(
    fd: Fd,
    execute: bool,          // an ExecuteHandler, submitted by ExecuteOnce
    life: Life,
    held: bool,             // some application code holds a shared pointer to it
    attachment: Attachment,
    closing: CloseFlag,
    eventGone: bool)        // the Event object has been destroyed

  const NO_HANDLER: Handler := Handler(-1, false, Destroyed, false, Unattached, Unset, false)

  // The handlers and events, and EventLoop's two tables of them.
  datatype Objects = Objects(handlers: seq<Handler>, eventTable: set<Id>, internal: set<Id>) {
    function Of(id: Id): Handler {
      if id < |handlers| then handlers[id] else NO_HANDLER
    }

    function Put(id: Id, h: Handler): Objects
      requires id < |handlers|
    {
      this.(handlers := handlers[id := h])
    }
  }

  // EPoll's three pending queues, the eventfd's counter, whether epoll owes an edge for the eventfd, and the
  // stop request.
  datatype Queues = Queues(
    add: seq<Id>, remove: seq<Id>, ready: seq<Ready>, counter: nat, edge: bool, stop: bool, stopSignalled: bool)
  {
    function Signal(): Queues {
      this.(counter := counter + 1, edge := true)
    }

    // AddElement: push under the lock, and signal when the queue was empty (lib/epoll.cc:123-131).
    function PushAdd(id: Id): Queues {
      var q := this.(add := add + [id]);
      if |q.add| == 1 then q.Signal() else q
    }

    function PushRemove(id: Id): Queues {
      var q := this.(remove := remove + [id]);
      if |q.remove| == 1 then q.Signal() else q
    }

    function PushReady(r: Ready): Queues {
      var q := this.(ready := ready + [r]);
      if |q.ready| == 1 then q.Signal() else q
    }
  }

  // EPoll::events_, the open descriptors and who opened them, the descriptors registered with epoll, and those
  // for which epoll owes an edge.
  datatype Registry = Registry(fdTable: map<Fd, Id>, open: map<Fd, Id>, registered: set<Fd>, owed: set<Fd>) {
    predicate Owns(id: Id, fd: Fd) {
      fd in open && open[fd] == id
    }

    // close(2): the number becomes free and epoll forgets it.
    function CloseFd(fd: Fd): Registry {
      this.(open := open - {fd}, registered := registered - {fd}, owed := owed - {fd})
    }

    function Activity(fd: Fd): Registry {
      if fd in registered then this.(owed := owed + {fd}) else this
    }

    function Add(fd: Fd, id: Id): Registry {
      this.(fdTable := fdTable[fd := id], registered := registered + {fd}, owed := owed + {fd})
    }

    function Delete(fd: Fd): Registry {
      this.(fdTable := fdTable - {fd}, registered := registered - {fd}, owed := owed - {fd})
    }
  }

  datatype Stage = Looping | Stopping | Sweeping | LastPass | Finished
  // Where the loop thread is inside Process.
  datatype Phase = AtCheck | InWait | Scanning | Draining | Drained | Adding | Removing | Readying
  datatype Running = Nobody | Handling(id: Id) | Leaving(id: Id)

  // The loop thread's locals in Run and Process: the records of the current batch, the swapped-out queue being
  // finalized, the handler being called, and the copy of the event table made when stopping.
  datatype Loop = Loop(
    stage: Stage, phase: Phase,
    records: seq<Record>, next: nat,
    batch: seq<Id>, readyBatch: seq<Ready>, pos: nat,
    running: Running,
    sweep: set<Id>, sweepTodo: set<Id>)
  {
    predicate Free(p: Phase) {
      phase == p && running == Nobody && (stage == Looping || stage == LastPass)
    }

    function Call(id: Id, o: Objects): Loop {
      if o.Of(id).life == Alive then this.(running := Handling(id)) else this
    }
  }

  // What was queued and what was finalized, in order, and EPoll::events_ as it was when the current batch of
  // records was collected.
  datatype History = History(
    addLog: seq<Id>, addDone: seq<Id>, removeLog: seq<Id>, removeDone: seq<Id>, snapshot: map<Fd, Id>)

  // What the loop throws; the thread ends there.
  datatype Fault = NoFault | AddFailed | ModifyFailed | DeleteFailed | EventNotFound
    | NotListed | NotInternal | CloseFailed

  datatype State = State(o: Objects, q: Queues, r: Registry, l: Loop, h: History, fault: Fault)

  const START: State := State(
    Objects([], {}, {}),
    Queues([], [], [], 0, false, false, false),
    Registry(map[], map[], {}, {}),
    Loop(Looping, AtCheck, [], 0, [], [], 0, Nobody, {}, {}),
    History([], [], [], [], map[]),
    NoFault)

  datatype Action = Life(o: LifeAction) | Call(c: CallAction) | Control(t: ControlAction) | Handle(w: HandleAction)

  // Construction and destruction of handlers and events, by any thread, and readiness changes in the kernel.
  datatype LifeAction =
    | Construct(fd: Fd, execute: bool)
    | Retain(id: Id)
    | Release(id: Id)
    | Expire(id: Id)
    | Destroy(id: Id)
    | DropEvent(id: Id)
    | Activity(fd: Fd)

  // Calls into the event loop, by any thread.
  datatype CallAction =
    | InsertInternal(id: Id)
    | CreateEvent(id: Id)
    | PushAdd(id: Id)
    | PushReady(id: Id, events: Events)
    | BeginClose(id: Id)
    | EndClose(id: Id)
    | SetStop
    | SignalStop

  // The loop thread between elements.
  datatype ControlAction =
    | CheckStop
    | CopyTable
    | SweepClosed(id: Id)
    | SweepDone
    | Collect(records: seq<Record>)
    | ScanDone
    | ReadCounter
    | CounterEmpty
    | SwapAdd
    | SwapRemove
    | SwapReady
    | ReadyDone

  // The loop thread on one element, and inside the handler it called.
  datatype HandleAction =
    | ScanRecord
    | FinalizeAdd
    | FinalizeRemove
    | FinalizeReady
    | Modify
    | RemoveInternal
    | Return

  predicate Distinct<T(==)>(xs: seq<T>) {
    forall i, j :: 0 <= i < j < |xs| ==> xs[i] != xs[j]
  }

  function Rest<T>(xs: seq<T>, pos: nat): seq<T> {
    if pos <= |xs| then xs[pos..] else []
  }

  function Fds(records: seq<Record>): (fds: seq<Fd>)
    ensures |fds| == |records|
  {
    seq(|records|, i requires 0 <= i < |records| => records[i].fd)
  }

  // Every descriptor epoll_wait reports is registered and owed an edge, it reports each once and at most
  // MAX_EVENTS of them; the eventfd is reported only while its counter is positive.
  predicate Reportable(q: Queues, r: Registry, records: seq<Record>) {
    && 0 < |records| <= MAX_EVENTS
    && Distinct(Fds(records))
    && forall i :: 0 <= i < |records| ==>
      var fd := records[i].fd;
      if fd == PENDING_FD then q.edge && q.counter > 0 else fd in r.registered && fd in r.owed
  }

  // The event of `id` is the one the poller delivers this descriptor's records to.
  predicate Registered(s: State, id: Id) {
    var fd := s.o.Of(id).fd;
    fd in s.r.fdTable && s.r.fdTable[fd] == id
  }

  // A shared pointer to the event of `id` exists somewhere.
  predicate EventHeld(s: State, id: Id) {
    || s.o.Of(id).life != Destroyed
    || id in s.o.eventTable
    || s.o.Of(id).closing == Taken
    || id in s.q.add
    || id in s.q.remove
    || (exists e :: e in s.q.ready && e.id == id)
    || (exists fd :: fd in s.r.fdTable && s.r.fdTable[fd] == id)
    || (id in s.l.batch && (s.l.pos < |s.l.batch| || s.l.running != Nobody))
    || (exists e :: e in s.l.readyBatch && e.id == id)
    || s.l.running == Handling(id)
    || s.l.running == Leaving(id)
    || id in s.l.sweep
  }

  predicate LifeEnabled(s: State, a: LifeAction) {
    match a
    case Construct(fd, execute) =>
      fd == -1 || (!execute && 0 <= fd && fd != PENDING_FD && fd !in s.r.open)
    case Retain(id) => s.o.Of(id).life == Alive && (s.o.Of(id).held || s.l.running == Handling(id))
    case Release(id) => s.o.Of(id).life == Alive && s.o.Of(id).held && s.o.Of(id).attachment != Created
    case Expire(id) =>
      var h := s.o.Of(id);
      && h.life == Alive && !h.held && h.attachment != Created && id !in s.o.internal
      && s.l.running != Handling(id) && s.l.running != Leaving(id)
    case Destroy(id) =>
      var h := s.o.Of(id);
      h.life == Expired && (h.attachment != Unattached ==> h.closing == Done)
    case DropEvent(id) =>
      var h := s.o.Of(id);
      h.attachment != Unattached && !h.eventGone && !EventHeld(s, id)
    case Activity(fd) => fd in s.r.open
  }

  predicate CallEnabled(s: State, a: CallAction) {
    match a
    case InsertInternal(id) =>
      var h := s.o.Of(id);
      h.execute && h.life == Alive && h.held && h.attachment == Unattached && id !in s.o.internal
    case CreateEvent(id) =>
      var h := s.o.Of(id);
      h.life == Alive && h.held && h.attachment == Unattached && (h.execute ==> id in s.o.internal)
    case PushAdd(id) => s.o.Of(id).attachment == Created
    case PushReady(id, events) => s.o.Of(id).life == Alive && s.o.Of(id).attachment != Unattached
    case BeginClose(id) =>
      var h := s.o.Of(id);
      h.attachment != Unattached && h.closing == Unset && (h.life != Destroyed || id in s.l.sweep)
    case EndClose(id) => s.o.Of(id).closing == Taken
    case SetStop => true
    case SignalStop => s.q.stop
  }

  predicate ControlEnabled(s: State, a: ControlAction) {
    match a
    case CheckStop => s.l.Free(AtCheck) && s.l.stage == Looping
    case CopyTable => s.l.stage == Stopping
    case SweepClosed(id) => s.l.stage == Sweeping && id in s.l.sweepTodo && s.o.Of(id).closing == Done
    case SweepDone => s.l.stage == Sweeping && s.l.sweepTodo == {}
    case Collect(records) => s.l.Free(InWait) && Reportable(s.q, s.r, records)
    case ScanDone => s.l.Free(Scanning) && s.l.next >= |s.l.records|
    case ReadCounter => s.l.Free(Draining) && s.q.counter > 0
    case CounterEmpty => s.l.Free(Draining) && s.q.counter == 0
    case SwapAdd => s.l.Free(Drained)
    case SwapRemove => s.l.Free(Adding) && s.l.pos >= |s.l.batch|
    case SwapReady => s.l.Free(Removing) && s.l.pos >= |s.l.batch|
    case ReadyDone => s.l.Free(Readying) && s.l.pos >= |s.l.readyBatch|
  }

  predicate HandleEnabled(s: State, a: HandleAction) {
    match a
    case ScanRecord => s.l.Free(Scanning) && s.l.next < |s.l.records|
    case FinalizeAdd => s.l.Free(Adding) && s.l.pos < |s.l.batch|
    case FinalizeRemove => s.l.Free(Removing) && s.l.pos < |s.l.batch|
    case FinalizeReady => s.l.Free(Readying) && s.l.pos < |s.l.readyBatch|
    case Modify => s.l.running.Handling? && s.o.Of(s.l.running.id).fd >= 0
    case RemoveInternal =>
      && s.l.running.Handling?
      && s.o.Of(s.l.running.id).execute && s.o.Of(s.l.running.id).closing == Done
    case Return => s.l.running.Leaving? || (s.l.running.Handling? && !s.o.Of(s.l.running.id).execute)
  }

  function LifeStep(s: State, a: LifeAction): State
    requires LifeEnabled(s, a)
  {
    match a
    case Construct(fd, execute) =>
      var id := |s.o.handlers|;
      var h := Handler(fd, execute, Alive, true, Unattached, Unset, false);
      s.(o := s.o.(handlers := s.o.handlers + [h]),
         r := if fd < 0 then s.r else s.r.(open := s.r.open[fd := id]))
    case Retain(id) => s.(o := s.o.Put(id, s.o.Of(id).(held := true)))
    case Release(id) => s.(o := s.o.Put(id, s.o.Of(id).(held := false)))
    case Expire(id) => s.(o := s.o.Put(id, s.o.Of(id).(life := Expired)))
    case Destroy(id) =>
      // An event, once made, owns the descriptor; a handler never attached closes it itself.
      var h := s.o.Of(id);
      var t := s.(o := s.o.Put(id, h.(life := Destroyed)));
      if h.attachment != Unattached || h.fd < 0 then t
      else if s.r.Owns(id, h.fd) then t.(r := s.r.CloseFd(h.fd))
      else t.(fault := CloseFailed)
    case DropEvent(id) =>
      var h := s.o.Of(id);
      var t := s.(o := s.o.Put(id, h.(eventGone := true)));
      if h.fd < 0 then t
      else if s.r.Owns(id, h.fd) then t.(r := s.r.CloseFd(h.fd))
      else t.(fault := CloseFailed)
    case Activity(fd) => s.(r := s.r.Activity(fd))
  }

  function CallStep(s: State, a: CallAction): State
    requires CallEnabled(s, a)
  {
    match a
    case InsertInternal(id) => s.(o := s.o.(internal := s.o.internal + {id}))
    case CreateEvent(id) =>
      s.(o := s.o.Put(id, s.o.Of(id).(attachment := Created)).(eventTable := s.o.eventTable + {id}))
    case PushAdd(id) =>
      s.(o := s.o.Put(id, s.o.Of(id).(attachment := Added)), q := s.q.PushAdd(id),
         h := s.h.(addLog := s.h.addLog + [id]))
    case PushReady(id, events) => s.(q := s.q.PushReady(Ready(id, events)))
    case BeginClose(id) =>
      if id !in s.o.eventTable then s.(fault := NotListed)
      else s.(o := s.o.Put(id, s.o.Of(id).(closing := Taken)).(eventTable := s.o.eventTable - {id}))
    case EndClose(id) =>
      s.(o := s.o.Put(id, s.o.Of(id).(closing := Done)), q := s.q.PushRemove(id),
         h := s.h.(removeLog := s.h.removeLog + [id]))
    case SetStop => s.(q := s.q.(stop := true))
    case SignalStop => s.(q := s.q.Signal().(stopSignalled := true))
  }

  function ControlStep(s: State, a: ControlAction): State
    requires ControlEnabled(s, a)
  {
    match a
    case CheckStop => s.(l := if s.q.stop then s.l.(stage := Stopping) else s.l.(phase := InWait))
    case CopyTable => s.(l := s.l.(stage := Sweeping, sweep := s.o.eventTable, sweepTodo := s.o.eventTable))
    case SweepClosed(id) => s.(l := s.l.(sweepTodo := s.l.sweepTodo - {id}))
    case SweepDone => s.(q := s.q.Signal(), l := s.l.(stage := LastPass, phase := InWait))
    case Collect(records) =>
      s.(l := s.l.(phase := Scanning, records := records, next := 0),
         q := s.q.(edge := s.q.edge && PENDING_FD !in Fds(records)),
         r := s.r.(owed := set fd | fd in s.r.owed && fd !in Fds(records)),
         h := s.h.(snapshot := s.r.fdTable))
    case ScanDone =>
      s.(l := if s.l.stage == LastPass then s.l.(stage := Finished, phase := AtCheck, sweep := {})
              else s.l.(phase := AtCheck))
    case ReadCounter => s.(q := s.q.(counter := 0))
    case CounterEmpty => s.(l := s.l.(phase := Drained))
    case SwapAdd => s.(l := s.l.(phase := Adding, batch := s.q.add, pos := 0), q := s.q.(add := []))
    case SwapRemove => s.(l := s.l.(phase := Removing, batch := s.q.remove, pos := 0), q := s.q.(remove := []))
    case SwapReady =>
      s.(l := s.l.(phase := Readying, batch := [], readyBatch := s.q.ready, pos := 0), q := s.q.(ready := []))
    case ReadyDone => s.(l := s.l.(phase := Scanning, readyBatch := [], pos := 0))
  }

  // Call the handler if its weak pointer can still be locked (lib/epoll.cc:170-176, 226-230, 282-287).
  function HandleStep(s: State, a: HandleAction): State
    requires HandleEnabled(s, a)
  {
    match a
    case ScanRecord =>
      var fd := s.l.records[s.l.next].fd;
      var l := s.l.(next := s.l.next + 1);
      s.(l := if fd == PENDING_FD then l.(phase := Draining)
              else if fd in s.r.fdTable then l.Call(s.r.fdTable[fd], s.o)
              else l)
    case FinalizeAdd =>
      var id := s.l.batch[s.l.pos];
      var fd := s.o.Of(id).fd;
      var l := s.l.(pos := s.l.pos + 1);
      var t := s.(l := l, h := s.h.(addDone := s.h.addDone + [id]));
      if fd < 0 then t.(l := l.Call(id, s.o))
      else if fd in s.r.open && fd !in s.r.registered then t.(r := s.r.Add(fd, id))
      else t.(fault := AddFailed)
    case FinalizeRemove =>
      var id := s.l.batch[s.l.pos];
      var fd := s.o.Of(id).fd;
      var t := s.(l := s.l.(pos := s.l.pos + 1), h := s.h.(removeDone := s.h.removeDone + [id]));
      if fd < 0 then t
      else if fd !in s.r.fdTable then s.(fault := EventNotFound)
      else if fd in s.r.registered then t.(r := s.r.Delete(fd))
      else t.(fault := DeleteFailed)
    case FinalizeReady =>
      var id := s.l.readyBatch[s.l.pos].id;
      var l := s.l.(pos := s.l.pos + 1);
      s.(l := if Registered(s, id) then l.Call(id, s.o) else l)
    case Modify =>
      var fd := s.o.Of(s.l.running.id).fd;
      if fd in s.r.registered then s.(r := s.r.Activity(fd)) else s.(fault := ModifyFailed)
    case RemoveInternal =>
      var id := s.l.running.id;
      if id !in s.o.internal then s.(fault := NotInternal)
      else s.(o := s.o.(internal := s.o.internal - {id}), l := s.l.(running := Leaving(id)))
    case Return => s.(l := s.l.(running := Nobody))
  }

  predicate Enabled(s: State, a: Action) {
    && s.fault == NoFault
    && match a
    case Life(o) => LifeEnabled(s, o)
    case Call(c) => CallEnabled(s, c)
    case Control(t) => ControlEnabled(s, t)
    case Handle(w) => HandleEnabled(s, w)
  }

  function Step(s: State, a: Action): State
    requires Enabled(s, a)
  {
    match a
    case Life(o) => LifeStep(s, o)
    case Call(c) => CallStep(s, c)
    case Control(t) => ControlStep(s, t)
    case Handle(w) => HandleStep(s, w)
  }

  // A run from the start of the loop: every action is enabled when it is taken.
  predicate Legal(run: seq<Action>)
    decreases |run|, 0
  {
    run == [] ||
    var n := |run| - 1;
    Legal(run[..n]) && Enabled(After(run[..n]), run[n])
  }

  function After(run: seq<Action>): State
    requires Legal(run)
    decreases |run|, 1
  {
    if run == [] then START
    else
      var n := |run| - 1;
      Step(After(run[..n]), run[n])
  }
}
