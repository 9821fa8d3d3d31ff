/**
  A stream buffer on the loop. The protocol runs together with one of its handlers, a StreamBuffer, whose
  HandleEvents (lib/stream_buffer.cc:78-98) is taken apart at the points where other threads can interleave.
  Readiness is edge-triggered and writers signal only when the queue of pending writes was empty; still nothing
  written and nothing received is ever left behind without something on its way that will call the handler, and
  neither is a requested close or a connection still to be made.
 */
module StreamService {
  import opened Protocol
  import opened Wakeups
  import opened Ledger
  import opened Registrations
  import opened Runs
  import opened Notifications

  // Where HandleEvents is. `Upgrading`: the top filter has connected, HandleConnected is being called, and
  // ModifyEvent is still to come. `Departing`: DoFinalize is next.
  datatype Place = Outside | Entered | Abandoning | Connecting | Upgrading | Reading | Writing | Closing | Departing

  datatype Stream = Stream(
    connected: bool,         // of the top filter, like the next two
    readClosed: bool,
    writeClosed: bool,
    layered: bool,           // a filter has been added above the TCP filter
    shouldClose: bool,
    handlerGone: bool,       // the StreamBufferHandler has been destroyed
    pendingWrites: nat,      // length of pending_writes_
    signals: nat,            // writers that found it empty and have not called ReadyEvent yet
    closeSignals: nat,       // closers that have set should_close_ and not called ReadyEvent yet
    delayed: bool,           // the last DoClose left a filter open: the socket is full, or a shutdown incomplete
    unconnectable: bool,     // the last attempt of an added filter to connect was pending
    ended: bool,             // HandleEOF has been called
    unread: nat,             // bytes received by the socket and not read
    place: Place)

  const NEW_STREAM: Stream := Stream(false, false, false, false, false, false, 0, 0, 0, false, false, false, 0, Outside)

  datatype Joint = Joint(s: State, e: Stream)

  // What happens to the stream alone.
  datatype StreamMove =
    // Other threads
    | PushWrite
    | RequestClose
    | LoseHandler
    // The handler, on the loop thread
    | Dispatch
    | Abandon
    | ConnectFails
    | ConnectPends
    | ConnectSucceeds
    | AddFilter
    | ReadSome(n: nat)
    | ReadBlocks
    | ReadCloses
    | SwapWrites(failed: bool)
    | CloseEnds(flushed: bool)
    | CloseDelays(flushed: bool)
    | CloseOwn

  datatype Move =
    | Protocol(a: Action)
    | Local(m: StreamMove)
    // ReadyEvent, by other threads
    | SignalWrite
    | SignalClose
    // The kernel
    | Receive(n: nat)
    | Drain
    // The handler, on the loop thread: ModifyEvent, and its return
    | Rearm
    | Leave

  // `alive`: the stream's owner still points to it; `closed`: its event has been closed.
  predicate LocalEnabled(e: Stream, m: StreamMove, alive: bool, closed: bool)
  {
    match m
    case PushWrite => alive
    case RequestClose => alive
    case LoseHandler => true
    case Dispatch => e.place == Entered
    case Abandon => e.place == Abandoning && closed
    case ConnectFails => e.place == Connecting
    case ConnectPends => e.place == Connecting && e.layered
    case ConnectSucceeds => e.place == Connecting
    case AddFilter => e.place == Upgrading && e.connected
    case ReadSome(n) => e.place == Reading && 0 < n <= e.unread
    case ReadBlocks => e.place == Reading && (e.unread == 0 || e.layered)
    case ReadCloses => e.place == Reading
    case SwapWrites(failed) => e.place == Writing
    case CloseEnds(flushed) => e.place == Closing
    case CloseDelays(flushed) => e.place == Closing && !e.ended
    case CloseOwn => e.place == Departing && e.readClosed && !e.shouldClose
  }

  predicate MoveEnabled(j: Joint, m: Move, id: Id) {
    var s, e, h := j.s, j.e, j.s.o.Of(id);
    && s.fault == NoFault
    && match m
    case Protocol(a) => Enabled(s, a) && !OwnHandleAction(s, a, id)
    case SignalWrite => e.signals > 0 && h.life == Alive
    case SignalClose => e.closeSignals > 0 && h.life == Alive
    case Receive(n) => n > 0 && s.r.Owns(id, h.fd)
    case Drain => s.r.Owns(id, h.fd)
    case Rearm => e.place == Upgrading && HandleEnabled(s, Modify)
    case Leave =>
      && e.place == Departing && HandleEnabled(s, Return) && (e.readClosed ==> e.shouldClose)
      && (e.ended ==> h.closing == Done)
    case Local(l) => LocalEnabled(e, l, h.life == Alive, h.closing == Done)
  }

  // The branches of HandleEvents (lib/stream_buffer.cc:81-95).
  function Branch(e: Stream): Place {
    if e.handlerGone then Abandoning
    else if e.shouldClose then Closing
    else if !e.connected then Connecting
    else if e.readClosed then Writing
    else Reading
  }

  function LocalStep(e: Stream, m: StreamMove, alive: bool, closed: bool): Stream
    requires LocalEnabled(e, m, alive, closed)
  {
    match m
    case PushWrite =>
      e.(pendingWrites := e.pendingWrites + 1, signals := e.signals + if e.pendingWrites == 0 then 1 else 0)
    case RequestClose => e.(shouldClose := true, closeSignals := e.closeSignals + 1)
    case LoseHandler => e.(handlerGone := true)
    case Dispatch => e.(place := Branch(e), delayed := false, unconnectable := false)
    case Abandon => e.(place := Departing)
    case ConnectFails => e.(readClosed := true, writeClosed := true, place := Departing)
    case ConnectPends => e.(unconnectable := true, place := Departing)
    case ConnectSucceeds => e.(connected := true, place := Upgrading)
    case AddFilter => e.(connected := false, readClosed := false, writeClosed := false, layered := true)
    case ReadSome(n) => e.(unread := e.unread - n)
    case ReadBlocks => e.(place := Writing)
    case ReadCloses => e.(readClosed := true, place := Writing)
    case SwapWrites(failed) =>
      if e.writeClosed then e.(place := Departing)
      else e.(pendingWrites := 0, writeClosed := failed && e.pendingWrites > 0, place := Departing)
    // Every filter is closed: HandleEOF, then CloseEvent.
    case CloseEnds(flushed) =>
      e.(readClosed := true, writeClosed := true, ended := true, place := Departing,
         pendingWrites := if flushed then 0 else e.pendingWrites)
    case CloseDelays(flushed) =>
      e.(delayed := true, place := Departing, pendingWrites := if flushed then 0 else e.pendingWrites)
    case CloseOwn => e.(shouldClose := true, place := Closing)
  }

  function MoveStep(j: Joint, m: Move, id: Id): Joint
    requires MoveEnabled(j, m, id)
  {
    var s, e, h := j.s, j.e, j.s.o.Of(id);
    match m
    case Protocol(a) =>
      var t := Step(s, a);
      var called := s.l.running == Nobody && t.l.running == Handling(id);
      Joint(t, if called then e.(place := Entered) else e)
    case SignalWrite =>
      // Without an event, ReadyEvent does nothing (lib/event.cc:100-105).
      Joint(if h.attachment == Unattached then s else CallStep(s, CallAction.PushReady(id, {Write})),
            e.(signals := e.signals - 1))
    case SignalClose =>
      Joint(if h.attachment == Unattached then s else CallStep(s, CallAction.PushReady(id, {Close})),
            e.(closeSignals := e.closeSignals - 1))
    case Receive(n) =>
      Joint(LifeStep(s, Activity(h.fd)), e.(unread := e.unread + n, delayed := false, unconnectable := false))
    case Drain => Joint(LifeStep(s, Activity(h.fd)), e.(delayed := false, unconnectable := false))
    case Rearm => Joint(HandleStep(s, Modify), e.(place := Departing))
    case Leave => Joint(HandleStep(s, Return), e.(place := Outside))
    case Local(l) => j.(e := LocalStep(e, l, h.life == Alive, h.closing == Done))
  }

  // The stream is registered, its handler is alive and its event has not been closed.
  predicate Attached(s: State, id: Id) {
    Served(s, id) && s.o.Of(id).closing == Unset
  }

  predicate Open(j: Joint, id: Id) {
    Attached(j.s, id) && j.e.connected && !j.e.shouldClose
  }

  // Pending writes have a notification on its way, a writer about to send one, or the handler running and yet
  // to swap the queue.
  predicate WritesServed(e: Stream, attached: bool, notified: bool) {
    attached && e.connected && !e.shouldClose && !e.writeClosed && e.pendingWrites > 0 ==>
      || notified
      || e.signals > 0
      || (e.place != Outside && e.place != Connecting && e.place != Closing && e.place != Departing)
  }

  // Unread bytes have a notification on its way, or the handler running and yet to see the socket empty.
  predicate BytesServed(e: Stream, attached: bool, notified: bool) {
    attached && e.connected && !e.shouldClose && !e.readClosed && !e.layered && e.unread > 0 ==>
      || notified
      || e.place == Entered || e.place == Abandoning || e.place == Upgrading || e.place == Reading
  }

  // A requested close has a notification on its way, a closer about to send one, or the handler yet to act on it;
  // or it has been acted on, and waits for the socket or an added filter.
  predicate CloseServed(e: Stream, attached: bool, notified: bool) {
    attached && e.shouldClose && !e.ended ==>
      || notified
      || e.closeSignals > 0
      || e.delayed
      || e.place == Entered || e.place == Abandoning || e.place == Closing
  }

  // A connection still to be made, also of an added filter, has a notification on its way, or the handler running
  // and yet to finish with it; or it waits for its peer.
  predicate ConnectServed(e: Stream, attached: bool, notified: bool) {
    attached && !e.connected && !e.shouldClose ==>
      || notified
      || (e.layered && e.unconnectable)
      || e.place == Entered || e.place == Abandoning || e.place == Connecting || e.place == Upgrading
      || (e.place == Departing && e.readClosed)
  }

  // Where HandleEvents can be.
  predicate PlaceSound(e: Stream) {
    && (e.place == Connecting ==> !e.connected)
    && (e.place == Closing ==> e.shouldClose)
    && (e.unconnectable ==> e.layered)
  }

  predicate StreamSound(e: Stream, attached: bool, notified: bool) {
    && PlaceSound(e)
    && WritesServed(e, attached, notified)
    && BytesServed(e, attached, notified)
    && CloseServed(e, attached, notified)
    && ConnectServed(e, attached, notified)
  }

  predicate JointSound(j: Joint, id: Id) {
    && LoopSound(j.s)
    && (j.e.place != Outside <==> j.s.l.running == Handling(id))
    && StreamSound(j.e, Attached(j.s, id), Notified(j.s, id, {}))
  }

  // Protocol actions

  // A stream that is attached after the step either was attached before, with the same notification unless it was
  // just delivered, or has just been notified of its registration.
  lemma AttachedStep(s: State, a: Action, id: Id)
    requires LoopSound(s) && Enabled(s, a) && Attached(Step(s, a), id)
    ensures Notified(Step(s, a), id, {})
      || (Attached(s, id) && (Notified(s, id, {}) ==> Delivers(s, a, id, {})))
  {
    ServedBefore(s, a, id);
    ClosingStep(s, a, id);
    if Served(s, id) && Notified(s, id, {}) { NotificationPersists(s, a, id, {}); }
  }

  lemma CalledServes(e: Stream, called: bool, a: bool, n: bool, a': bool, n': bool)
    requires StreamSound(e, a, n) && (a' ==> n' || (a && (n ==> called))) && (called ==> e.place == Outside)
    ensures StreamSound(if called then e.(place := Entered) else e, a', n')
  {
  }

  lemma ProtocolServes(j: Joint, a: Action, id: Id)
    requires JointSound(j, id) && MoveEnabled(j, Protocol(a), id)
    ensures JointSound(MoveStep(j, Protocol(a), id), id)
  {
    hide Invariant, Tidy, Wake, StreamSound, Notified, Attached;
    LoopSoundStep(j.s, a);
    RunningStep(j.s, a, id);
    var t := Step(j.s, a);
    var called := j.s.l.running == Nobody && t.l.running == Handling(id);
    if Attached(t, id) { AttachedStep(j.s, a, id); }
    CalledServes(j.e, called, Attached(j.s, id), Notified(j.s, id, {}), Attached(t, id), Notified(t, id, {}));
  }

  // Moves that also take a step of the protocol

  // ReadyEvent notifies an attached handler.
  lemma PushNotifies(s: State, id: Id, events: Events)
    requires LoopSound(s) && s.fault == NoFault && s.o.Of(id).life == Alive && s.o.Of(id).attachment != Unattached
    ensures var t := CallStep(s, CallAction.PushReady(id, events));
      LoopSound(t) && t.fault == NoFault && t.o == s.o && t.l == s.l && Notified(t, id, {})
  {
    LoopSoundStep(s, Call(CallAction.PushReady(id, events)));
    var t := CallStep(s, CallAction.PushReady(id, events));
    assert t.q.ready[|s.q.ready|] == Ready(id, events);
    assert InReady(t.q.ready, 0, id, {});
  }

  lemma UnattachedNotServed(s: State, id: Id)
    requires LoopSound(s) && s.o.Of(id).attachment == Unattached
    ensures !Attached(s, id)
  {
    assert Registered(s, id) ==> id in s.h.addLog;
  }

  lemma SignalServes(j: Joint, m: Move, id: Id)
    requires JointSound(j, id) && MoveEnabled(j, m, id) && (m == SignalWrite || m == SignalClose)
    ensures JointSound(MoveStep(j, m, id), id)
  {
    if j.s.o.Of(id).attachment != Unattached {
      PushNotifies(j.s, id, {Write});
      PushNotifies(j.s, id, {Close});
    } else {
      UnattachedNotServed(j.s, id);
    }
  }

  lemma ActivityServes(j: Joint, m: Move, id: Id)
    requires JointSound(j, id) && MoveEnabled(j, m, id) && (m.Receive? || m.Drain?)
    ensures JointSound(MoveStep(j, m, id), id)
  {
    LoopSoundStep(j.s, Life(Activity(j.s.o.Of(id).fd)));
  }

  lemma RearmServes(j: Joint, id: Id)
    requires JointSound(j, id) && MoveEnabled(j, Rearm, id)
    ensures JointSound(MoveStep(j, Rearm, id), id)
  {
    LoopSoundStep(j.s, Handle(Modify));
  }

  lemma LeaveServes(j: Joint, id: Id)
    requires JointSound(j, id) && MoveEnabled(j, Leave, id)
    ensures JointSound(MoveStep(j, Leave, id), id)
  {
    LoopSoundStep(j.s, Handle(Return));
    var k := MoveStep(j, Leave, id);
    assert k.s.r == j.s.r && k.s.q == j.s.q && k.s.l == j.s.l.(running := Nobody) && k.s.o == j.s.o;
  }

  lemma LocalPlaces(e: Stream, m: StreamMove, alive: bool, closed: bool)
    requires LocalEnabled(e, m, alive, closed) && PlaceSound(e)
    ensures var f := LocalStep(e, m, alive, closed); PlaceSound(f) && (f.place == Outside <==> e.place == Outside)
  {
  }

  lemma LocalWrites(e: Stream, m: StreamMove, alive: bool, closed: bool, attached: bool, notified: bool)
    requires LocalEnabled(e, m, alive, closed) && (closed ==> !attached) && PlaceSound(e)
    requires WritesServed(e, attached, notified)
    ensures WritesServed(LocalStep(e, m, alive, closed), attached, notified)
  {
  }

  lemma LocalBytes(e: Stream, m: StreamMove, alive: bool, closed: bool, attached: bool, notified: bool)
    requires LocalEnabled(e, m, alive, closed) && (closed ==> !attached) && PlaceSound(e)
    requires BytesServed(e, attached, notified)
    ensures BytesServed(LocalStep(e, m, alive, closed), attached, notified)
  {
  }

  lemma LocalCloses(e: Stream, m: StreamMove, alive: bool, closed: bool, attached: bool, notified: bool)
    requires LocalEnabled(e, m, alive, closed) && (closed ==> !attached) && PlaceSound(e)
    requires CloseServed(e, attached, notified)
    ensures CloseServed(LocalStep(e, m, alive, closed), attached, notified)
  {
  }

  lemma LocalConnects(e: Stream, m: StreamMove, alive: bool, closed: bool, attached: bool, notified: bool)
    requires LocalEnabled(e, m, alive, closed) && (closed ==> !attached) && PlaceSound(e)
    requires ConnectServed(e, attached, notified)
    ensures ConnectServed(LocalStep(e, m, alive, closed), attached, notified)
  {
  }

  lemma LocalServes(e: Stream, m: StreamMove, alive: bool, closed: bool, attached: bool, notified: bool)
    requires LocalEnabled(e, m, alive, closed) && (closed ==> !attached)
    requires StreamSound(e, attached, notified)
    ensures var f := LocalStep(e, m, alive, closed);
      (f.place == Outside <==> e.place == Outside) && StreamSound(f, attached, notified)
  {
    hide LocalEnabled, LocalStep, PlaceSound, WritesServed, BytesServed, CloseServed, ConnectServed;
    LocalPlaces(e, m, alive, closed);
    LocalWrites(e, m, alive, closed, attached, notified);
    LocalBytes(e, m, alive, closed, attached, notified);
    LocalCloses(e, m, alive, closed, attached, notified);
    LocalConnects(e, m, alive, closed, attached, notified);
  }

  lemma MoveServes(j: Joint, m: Move, id: Id)
    requires JointSound(j, id) && MoveEnabled(j, m, id)
    ensures JointSound(MoveStep(j, m, id), id)
  {
    hide LoopSound, StreamSound, Served, Notified, Enabled, Step, HandleStep, LifeStep, CallStep, LocalStep, LocalEnabled;
    match m
    case Protocol(a) => ProtocolServes(j, a, id);
    case SignalWrite => SignalServes(j, m, id);
    case SignalClose => SignalServes(j, m, id);
    case Receive(n) => ActivityServes(j, m, id);
    case Drain => ActivityServes(j, m, id);
    case Rearm => RearmServes(j, id);
    case Leave => LeaveServes(j, id);
    case Local(l) =>
      var h := j.s.o.Of(id);
      LocalServes(j.e, l, h.life == Alive, h.closing == Done, Attached(j.s, id), Notified(j.s, id, {}));
  }

  predicate LegalMoves(moves: seq<Move>, id: Id)
    decreases |moves|, 0
  {
    moves == [] ||
    var n := |moves| - 1;
    LegalMoves(moves[..n], id) && MoveEnabled(AfterMoves(moves[..n], id), moves[n], id)
  }

  function AfterMoves(moves: seq<Move>, id: Id): Joint
    requires LegalMoves(moves, id)
    decreases |moves|, 1
  {
    if moves == [] then Joint(START, NEW_STREAM)
    else
      var n := |moves| - 1;
      MoveStep(AfterMoves(moves[..n], id), moves[n], id)
  }

  lemma StartServes(id: Id)
    ensures JointSound(Joint(START, NEW_STREAM), id)
  {
    StartInvariant();
  }

  lemma {:induction false} MovesServe(moves: seq<Move>, id: Id)
    requires LegalMoves(moves, id)
    ensures JointSound(AfterMoves(moves, id), id)
    decreases |moves|
  {
    if moves == [] {
      StartServes(id);
    } else {
      var n := |moves| - 1;
      MovesServe(moves[..n], id);
      MoveServes(AfterMoves(moves[..n], id), moves[n], id);
    }
  }

  // No accepted write is stranded: at every moment of every run it is served as said above, and when the loop
  // blocks in epoll_wait with no writer in between, epoll owes the socket an edge or the eventfd is readable.
  lemma NoWriteStranded(moves: seq<Move>, id: Id)
    requires LegalMoves(moves, id)
    ensures var j := AfterMoves(moves, id);
      && WritesServed(j.e, Attached(j.s, id), Notified(j.s, id, {}))
      && (Open(j, id) && !j.e.writeClosed && j.e.pendingWrites > 0 && j.e.signals == 0
          && j.s.l.phase == InWait && j.s.fault == NoFault
          ==> WillWake(j.s, id))
  {
    MovesServe(moves, id);
    var j := AfterMoves(moves, id);
    if j.s.fault == NoFault && j.s.l.phase == InWait && Notified(j.s, id, {}) { NotifiedWakes(j.s, id, {}); }
  }

  // No received byte is stranded, on a stream without added filters. The edges spent before the connection was
  // completed do not matter, because ModifyEvent makes epoll owe another.
  lemma NoByteStranded(moves: seq<Move>, id: Id)
    requires LegalMoves(moves, id)
    ensures var j := AfterMoves(moves, id);
      && BytesServed(j.e, Attached(j.s, id), Notified(j.s, id, {}))
      && (Open(j, id) && !j.e.readClosed && !j.e.layered && j.e.unread > 0
          && j.s.l.phase == InWait && j.s.fault == NoFault
          ==> WillWake(j.s, id))
  {
    MovesServe(moves, id);
    var j := AfterMoves(moves, id);
    if j.s.fault == NoFault && j.s.l.phase == InWait && Notified(j.s, id, {}) { NotifiedWakes(j.s, id, {}); }
  }

  // No requested close is stranded: until HandleEOF, the stream will be called again, or its last attempt to close
  // has stalled and the kernel will report the socket when it drains.
  lemma NoCloseStranded(moves: seq<Move>, id: Id)
    requires LegalMoves(moves, id)
    ensures var j := AfterMoves(moves, id);
      && CloseServed(j.e, Attached(j.s, id), Notified(j.s, id, {}))
      && (Attached(j.s, id) && j.e.shouldClose && !j.e.ended && !j.e.delayed && j.e.closeSignals == 0
          && j.s.l.phase == InWait && j.s.fault == NoFault
          ==> WillWake(j.s, id))
  {
    MovesServe(moves, id);
    var j := AfterMoves(moves, id);
    if j.s.fault == NoFault && j.s.l.phase == InWait && Notified(j.s, id, {}) { NotifiedWakes(j.s, id, {}); }
  }

  // No connection is left unmade: over TCP alone the stream will always be called again until it has connected or
  // is closing; an added filter may be waiting for its peer.
  lemma NoConnectStranded(moves: seq<Move>, id: Id)
    requires LegalMoves(moves, id)
    ensures var j := AfterMoves(moves, id);
      && ConnectServed(j.e, Attached(j.s, id), Notified(j.s, id, {}))
      && (Attached(j.s, id) && !j.e.connected && !j.e.shouldClose && !(j.e.layered && j.e.unconnectable)
          && j.s.l.phase == InWait && j.s.fault == NoFault
          ==> WillWake(j.s, id))
  {
    MovesServe(moves, id);
    var j := AfterMoves(moves, id);
    if j.s.fault == NoFault && j.s.l.phase == InWait && Notified(j.s, id, {}) { NotifiedWakes(j.s, id, {}); }
  }
}
