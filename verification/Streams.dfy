/**
  The state of a stream as a value, what holds of it at every moment, and what each step of lib/stream_buffer.cc
  keeps. The classes of module StreamBuffers take these steps.
 */
module Streams {
  import opened DataViews
  import opened TcpFilter

  // A filter's fields, and what its own Read, Write and Close have done over its life: the bytes Out has taken
  // and In has reported when called by them, whether Read or Write was ever called, whether an Out has asked to
  // close (`failed`) or an In has (`ended`), how often Out left something of its view (`shorts`), how often it took
  // nothing without asking to close or Shutdown was not complete (`stalls`), and how often Shutdown was complete.
  // For the TCP filter a stall is an EAGAIN of send. `broken`: every send fails.
  datatype Layer = Layer(
    tcp: bool, broken: bool,
    connected: bool, readClosed: bool, writeClosed: bool, pendingOut: seq<DataView>,
    consumed: seq<byte>, received: seq<byte>, used: bool, failed: bool, ended: bool,
    shorts: nat, stalls: nat, shutdowns: nat)
  {
    predicate Closed() {
      readClosed && writeClosed
    }

    // Everything Out has taken or is still to take.
    function Stream(): seq<byte> {
      consumed + Bytes(pendingOut)
    }

    predicate Untouched() {
      !readClosed && !writeClosed && pendingOut == [] && consumed == [] && received == [] && !used
      && !failed && !ended && shutdowns == 0
    }
  }

  datatype Callback = OnConnected | OnData(bytes: seq<byte>) | OnEof

  // Calls of ReadyEvent.
  datatype Signal = WriteReady | CloseReady

  // The part of a stream that other threads share with the loop: pending_writes_ and all bytes ever pushed to
  // it, should_close_, whether a write was pushed when it was already set, the ready events posted, and how often
  // others have acted on the stream.
  datatype Inbox = Inbox(
    pendingWrites: seq<DataView>, accepted: seq<byte>, shouldClose: bool, late: bool,
    signals: seq<Signal>, calls: nat)

  // `inFlight`: writes past their test of should_close_ and not yet pushed. `transit`: the list taken from
  // pending_writes_ and not yet given to the top filter.
  datatype Stream = Stream(
    layers: seq<Layer>,
    inbox: Inbox,
    inFlight: seq<DataView>,
    transit: seq<DataView>,
    addFilterAllowed: bool,
    eofCalled: bool,
    connectFailed: bool,
    callbacks: seq<Callback>)
  {
    function Top(): Layer
      requires layers != []
    {
      layers[|layers| - 1]
    }

    function WithTop(l: Layer): Stream
      requires layers != []
    {
      this.(layers := layers[|layers| - 1 := l])
    }
  }

  // The bytes handed to HandleData, in order.
  function DataOf(callbacks: seq<Callback>): seq<byte> {
    if callbacks == [] then []
    else
      var n := |callbacks| - 1;
      DataOf(callbacks[..n]) + if callbacks[n].OnData? then callbacks[n].bytes else []
  }

  lemma DataOfAppend(callbacks: seq<Callback>, c: Callback)
    ensures DataOf(callbacks + [c]) == DataOf(callbacks) + if c.OnData? then c.bytes else []
  {
    assert (callbacks + [c])[..|callbacks|] == callbacks;
  }

  // How often HandleConnected has been called.
  function Connects(callbacks: seq<Callback>): nat {
    if callbacks == [] then 0
    else
      var n := |callbacks| - 1;
      Connects(callbacks[..n]) + if callbacks[n].OnConnected? then 1 else 0
  }

  lemma ConnectsAppend(callbacks: seq<Callback>, c: Callback)
    ensures Connects(callbacks + [c]) == Connects(callbacks) + if c.OnConnected? then 1 else 0
  {
    assert (callbacks + [c])[..|callbacks|] == callbacks;
  }

  // Invariants

  // A filter with another above it has connected, and no data has gone through it but by that other's own calls:
  // neither Read nor Write was ever called on it.
  predicate NoBypass(ls: seq<Layer>) {
    forall i :: 0 <= i < |ls| - 1 ==> ls[i].connected && !ls[i].used && ls[i].pendingOut == [] && !ls[i].failed
  }

  // Filters close from the top down.
  predicate TopDown(ls: seq<Layer>) {
    forall i, j :: 0 <= i < j < |ls| && (ls[i].readClosed || ls[i].writeClosed) ==> ls[j].Closed()
  }

  predicate AllClosed(ls: seq<Layer>) {
    forall i :: 0 <= i < |ls| ==> ls[i].Closed()
  }

  predicate NoneClosed(ls: seq<Layer>) {
    forall i :: 0 <= i < |ls| ==> !ls[i].readClosed && !ls[i].writeClosed
  }

  // Every byte accepted has been taken by the top filter's Out or waits for it, in order. After an Out has
  // failed, what has been taken is still a prefix of what was accepted.
  predicate Conserved(top: Layer, transit: seq<DataView>, inbox: Inbox) {
    && Filled(top.pendingOut) && Filled(transit) && Filled(inbox.pendingWrites)
    && (top.failed ==> top.writeClosed)
    && top.consumed <= inbox.accepted
    && (!top.failed ==> top.Stream() + Bytes(transit) + Bytes(inbox.pendingWrites) == inbox.accepted)
  }

  // Once the top filter has been closed in order, nothing is left to send, except writes pushed after
  // should_close_ was set.
  predicate Drained(s: Stream)
    requires s.layers != []
  {
    s.Top().writeClosed && !s.Top().failed && !s.connectFailed ==>
      && s.Top().pendingOut == [] && s.transit == [] && s.inbox.shouldClose
      && (s.inbox.late || s.inbox.pendingWrites == [])
  }

  // HandleData has been called with exactly the bytes the top filter received; HandleConnected once for each
  // filter that has connected; HandleEOF at most once, and last, with every filter closed.
  predicate Called(s: Stream)
    requires s.layers != []
  {
    && DataOf(s.callbacks) == s.Top().received
    && Connects(s.callbacks) + (if s.Top().connected then 0 else 1) == |s.layers|
    && (forall i :: 0 <= i < |s.callbacks| ==> (s.callbacks[i].OnEof? <==> s.eofCalled && i == |s.callbacks| - 1))
    && (s.eofCalled ==> s.callbacks != [] && AllClosed(s.layers) && s.inbox.shouldClose)
  }

  // A filter is closed for reading exactly if an In has asked to close or a Shutdown was complete, for writing
  // exactly if an Out has asked to close or a Shutdown was complete, and both ways if it failed to connect.
  predicate ClosedBy(l: Layer, connectFailed: bool) {
    && (l.readClosed <==> l.ended || l.shutdowns > 0 || connectFailed)
    && (l.writeClosed <==> l.failed || l.shutdowns > 0 || connectFailed)
  }

  predicate Accounted(s: Stream) {
    forall i :: 0 <= i < |s.layers| ==> ClosedBy(s.layers[i], s.connectFailed && i == |s.layers| - 1)
  }

  predicate Sound(s: Stream) {
    && s.layers != []
    && Accounted(s)
    && NoBypass(s.layers)
    && TopDown(s.layers)
    && Conserved(s.Top(), s.transit, s.inbox) && Filled(s.inFlight)
    && Drained(s)
    && Called(s)
    && (s.addFilterAllowed ==> NoneClosed(s.layers) && s.Top().connected && s.Top().Untouched() && s.transit == [])
  }

  // Between calls of HandleEvents.
  predicate Settled(s: Stream) {
    && Sound(s) && s.transit == [] && !s.addFilterAllowed
    && (!s.inbox.shouldClose ==> !s.Top().readClosed && (s.Top().connected || s.Top().Untouched()))
  }

  // Inside HandleEvents, between its steps, before the end of file.
  predicate Quiet(s: Stream) {
    Sound(s) && s.transit == [] && !s.addFilterAllowed && !s.eofCalled
  }

  // A top filter takes back no byte, loses none unless it fails, and takes no more once it is write closed.
  predicate TopKept(l: Layer, m: Layer) {
    && l.consumed <= m.consumed
    && (l.failed ==> m.failed)
    && (m.failed || l.Stream() <= m.Stream())
    && (l.writeClosed ==> m.consumed == l.consumed)
  }

  // Flags never reset, filters are only added, and after HandleEOF nothing is called any more. While closing, a
  // write gets in only if it was past its test of should_close_.
  predicate Onward(x: Stream, y: Stream) {
    && |x.layers| <= |y.layers|
    && (forall i :: 0 <= i < |x.layers| ==>
      && (x.layers[i].readClosed ==> y.layers[i].readClosed)
      && (x.layers[i].writeClosed ==> y.layers[i].writeClosed)
      && x.layers[i].stalls <= y.layers[i].stalls
      && (x.layers[i].Closed() ==> y.layers[i].shutdowns == x.layers[i].shutdowns))
    && (|x.layers| < |y.layers| ==> NoneClosed(x.layers))
    && (x.layers != [] ==> TopKept(x.Top(), y.Top()))
    && x.inbox.accepted <= y.inbox.accepted
    && (x.inbox.shouldClose ==> y.inbox.shouldClose)
    && (x.inbox.late ==> y.inbox.late)
    && (x.inbox.shouldClose && y.inbox.accepted != x.inbox.accepted ==> y.inbox.late)
    && (x.connectFailed ==> y.connectFailed)
    && x.inbox.signals <= y.inbox.signals
    && x.inbox.calls <= y.inbox.calls
    && (x.inbox.calls == y.inbox.calls ==>
      y.inbox.accepted == x.inbox.accepted && y.inbox.late == x.inbox.late && y.inbox.signals == x.inbox.signals
      && y.inFlight == x.inFlight)
    && x.callbacks <= y.callbacks
    && (x.eofCalled ==> y.eofCalled && y.callbacks == x.callbacks && |y.layers| == |x.layers|)
  }

  // Between `x` and `y` an Out took nothing, or a Shutdown was not complete.
  predicate Stalled(x: Stream, y: Stream) {
    exists i :: 0 <= i < |x.layers| && i < |y.layers| && x.layers[i].stalls < y.layers[i].stalls
  }

  // Other threads

  predicate NewSignal(x: seq<Signal>, y: seq<Signal>, s: Signal) {
    exists i :: |x| <= i < |y| && y[i] == s
  }

  // StreamBuffer::Close has been called.
  predicate Asked(x: Stream, y: Stream) {
    NewSignal(x.inbox.signals, y.inbox.signals, CloseReady)
  }

  // Nobody but callers of StreamBuffer::Close has requested a close.
  predicate OnlyAsked(x: Stream, y: Stream) {
    y.inbox.shouldClose && !x.inbox.shouldClose ==> Asked(x, y)
  }

  // What other threads and the user's callbacks can do. A queue that was empty is never filled, and a close never
  // requested, without a ready event.
  predicate Meddled(x: Inbox, y: Inbox) {
    && x.pendingWrites <= y.pendingWrites
    && y.accepted == x.accepted + Bytes(y.pendingWrites[|x.pendingWrites|..])
    && (x.shouldClose ==> y.shouldClose)
    && (x.late ==> y.late)
    && (x.shouldClose && y.pendingWrites != x.pendingWrites ==> y.late)
    && (x.shouldClose && y.accepted != x.accepted ==> y.late)
    && x.signals <= y.signals
    && (y.shouldClose && !x.shouldClose ==> NewSignal(x.signals, y.signals, CloseReady))
    && (x.pendingWrites == [] && y.pendingWrites != [] ==> NewSignal(x.signals, y.signals, WriteReady))
    && x.calls <= y.calls && (x.calls == y.calls ==> y == x)
    && Filled(y.pendingWrites)
  }

  lemma MeddledSelf(x: Inbox)
    requires Filled(x.pendingWrites)
    ensures Meddled(x, x)
  {
    assert x.accepted + [] == x.accepted;
  }

  lemma MeddledFilled(x: Inbox, y: Inbox)
    requires Meddled(x, y)
    ensures Filled(y.pendingWrites)
  {
  }

  lemma MeddledTwice(x: Inbox, y: Inbox, z: Inbox)
    requires Meddled(x, y) && Meddled(y, z)
    ensures Meddled(x, z)
  {
    hide Bytes, Filled;
    var a, b := y.pendingWrites[|x.pendingWrites|..], z.pendingWrites[|y.pendingWrites|..];
    assert z.pendingWrites[|x.pendingWrites|..] == a + b;
    BytesAppend(a, b);
    assert x.accepted + (Bytes(a) + Bytes(b)) == (x.accepted + Bytes(a)) + Bytes(b);
  }

  predicate Interfered(x: Stream, y: Stream) {
    && y == x.(inbox := y.inbox, inFlight := y.inFlight) && Meddled(x.inbox, y.inbox) && Filled(y.inFlight)
    && (x.inbox.calls == y.inbox.calls ==> y == x)
  }

  lemma MeddledConserves(top: Layer, transit: seq<DataView>, x: Inbox, y: Inbox)
    requires Conserved(top, transit, x) && Meddled(x, y)
    ensures Conserved(top, transit, y)
  {
    hide Bytes, Filled;
    var more := y.pendingWrites[|x.pendingWrites|..];
    assert y.pendingWrites == x.pendingWrites + more;
    BytesAppend(x.pendingWrites, more);
    assert top.Stream() + Bytes(transit) + (Bytes(x.pendingWrites) + Bytes(more))
      == (top.Stream() + Bytes(transit) + Bytes(x.pendingWrites)) + Bytes(more);
  }

  lemma InterferedKeeps(x: Stream, y: Stream)
    requires Sound(x) && Interfered(x, y)
    ensures Sound(y) && Onward(x, y) && OnlyAsked(x, y)
  {
    MeddledConserves(x.Top(), x.transit, x.inbox, y.inbox);
  }

  // Reading: HandleData is called with exactly the bytes by which `received` grows.

  predicate HeardData(calls: seq<Callback>, calls': seq<Callback>, before: seq<byte>, now: seq<byte>) {
    && calls <= calls'
    && before <= now
    && DataOf(calls') == DataOf(calls) + now[|before|..]
    && Connects(calls') == Connects(calls)
    && (forall i :: |calls| <= i < |calls'| ==> calls'[i].OnData?)
  }

  lemma HeardNothing(calls: seq<Callback>, now: seq<byte>)
    ensures HeardData(calls, calls, now, now)
  {
    assert DataOf(calls) + [] == DataOf(calls);
  }

  lemma HeardMore(calls: seq<Callback>, calls': seq<Callback>, before: seq<byte>, now: seq<byte>, bytes: seq<byte>)
    requires HeardData(calls, calls', before, now)
    ensures HeardData(calls, calls' + [OnData(bytes)], before, now + bytes)
  {
    hide DataOf, Connects;
    DataOfAppend(calls', OnData(bytes));
    ConnectsAppend(calls', OnData(bytes));
    assert DataOf(calls) + (now[|before|..] + bytes) == (DataOf(calls) + now[|before|..]) + bytes;
    assert (now + bytes)[|before|..] == now[|before|..] + bytes;
  }

  // Only the top filter differs.
  predicate SameBelow(ls: seq<Layer>, ms: seq<Layer>) {
    |ls| == |ms| && forall i :: 0 <= i < |ls| - 1 ==> ms[i] == ls[i]
  }

  predicate SameFlags(x: Stream, y: Stream) {
    x.addFilterAllowed == y.addFilterAllowed && x.eofCalled == y.eofCalled && x.connectFailed == y.connectFailed
  }

  // What Read does with the reports of In: `calls` are the calls of HandleData, one for each report up to the first
  // without data, in order; that one ends the reading, and closes the filter exactly if it asks to.
  predicate ReadOff(reports: seq<InResult>, calls: seq<Callback>, closed: bool, left: seq<InResult>) {
    var k := |calls|;
    && k <= |reports|
    && (forall i :: 0 <= i < k ==> reports[i].HasData() && calls[i] == OnData(reports[i].view.bytes))
    && if k == |reports| then left == [] && !closed
       else !reports[k].HasData() && left == reports[k + 1..] && (closed <==> reports[k].CloseRead?)
  }

  // Before the reading is over.
  predicate ReadSoFar(reports: seq<InResult>, calls: seq<Callback>, left: seq<InResult>) {
    && |calls| <= |reports| && left == reports[|calls|..]
    && (forall i :: 0 <= i < |calls| ==> reports[i].HasData() && calls[i] == OnData(reports[i].view.bytes))
  }

  lemma ReadBegins(reports: seq<InResult>)
    ensures ReadSoFar(reports, [], reports)
  {
  }

  lemma ReadEnd(reports: seq<InResult>, calls: seq<Callback>, left: seq<InResult>)
    requires ReadSoFar(reports, calls, left)
    ensures left == [] ==> ReadOff(reports, calls, false, [])
    ensures left != [] && !left[0].HasData() ==> ReadOff(reports, calls, left[0].CloseRead?, left[1..])
  {
  }

  lemma ReadOne(reports: seq<InResult>, calls: seq<Callback>, left: seq<InResult>)
    requires ReadSoFar(reports, calls, left) && left != [] && left[0].HasData()
    ensures ReadSoFar(reports, calls + [OnData(left[0].view.bytes)], left[1..])
  {
  }

  // The reports end with one that asks to close.
  predicate InputEnds(reports: seq<InResult>) {
    exists k :: 0 <= k < |reports| && reports[k].CloseRead? && forall i :: 0 <= i < k ==> reports[i].HasData()
  }

  lemma InputEndCloses(reports: seq<InResult>, calls: seq<Callback>, closed: bool, left: seq<InResult>)
    requires ReadOff(reports, calls, closed, left) && InputEnds(reports)
    ensures closed
  {
    var k :| 0 <= k < |reports| && reports[k].CloseRead? && forall i :: 0 <= i < k ==> reports[i].HasData();
    var n := |calls|;
    assert n < |reports| && !reports[n].HasData() ==> n >= k;
  }

  // StreamBufferFilter::Read on the top filter, to which In is going to report `arrivals`; `left` stay unread.
  predicate ReadBy(x: Stream, y: Stream, arrivals: seq<InResult>, left: seq<InResult>)
    requires x.layers != []
  {
    && SameBelow(x.layers, y.layers)
    && var l, m := x.Top(), y.Top();
    && m == l.(readClosed := m.readClosed, ended := m.readClosed, received := m.received, used := true)
    && SameFlags(x, y) && y.transit == x.transit
    && Meddled(x.inbox, y.inbox) && Filled(y.inFlight) && (x.inbox.calls == y.inbox.calls ==> y.inFlight == x.inFlight)
    && HeardData(x.callbacks, y.callbacks, l.received, m.received)
    && ReadOff(arrivals, y.callbacks[|x.callbacks|..], m.readClosed, left)
  }

  lemma ReadIntoTop(x: Stream, y: Stream, arrivals: seq<InResult>, left: seq<InResult>)
    requires x.layers != [] && |y.layers| == |x.layers|
    requires y == x.(layers := x.layers[|x.layers| - 1 := y.Top()],
                     inbox := y.inbox, inFlight := y.inFlight, callbacks := y.callbacks)
    requires y.Top() == x.Top().(readClosed := y.Top().readClosed, ended := y.Top().readClosed,
                                 received := y.Top().received, used := true)
    requires Meddled(x.inbox, y.inbox) && Filled(y.inFlight)
    requires x.inbox.calls == y.inbox.calls ==> y.inFlight == x.inFlight
    requires HeardData(x.callbacks, y.callbacks, x.Top().received, y.Top().received)
    requires |x.callbacks| <= |y.callbacks|
    requires ReadOff(arrivals, y.callbacks[|x.callbacks|..], y.Top().readClosed, left)
    ensures ReadBy(x, y, arrivals, left)
  {
  }

  // What DoRead leaves behind.
  predicate ReadLeft(x: Stream, y: Stream, arrivals: seq<InResult>, left: seq<InResult>)
    requires x.layers != []
  {
    && Quiet(y) && Onward(x, y) && OnlyAsked(x, y)
    && if x.Top().readClosed then y == x else ReadBy(x, y, arrivals, left)
  }

  lemma ReadKeeps(x: Stream, y: Stream, arrivals: seq<InResult>, left: seq<InResult>)
    requires Quiet(x) && !x.Top().readClosed && ReadBy(x, y, arrivals, left)
    ensures Quiet(y) && Onward(x, y) && OnlyAsked(x, y)
  {
    MeddledConserves(y.Top(), x.transit, x.inbox, y.inbox);
  }

  lemma QuietTop(x: Stream)
    requires Quiet(x)
    ensures x.layers != [] && Filled(x.inbox.pendingWrites) && Filled(x.inFlight)
    ensures !x.Top().readClosed ==> !x.Top().ended
    ensures x.Top().readClosed ==> forall arrivals, left :: ReadLeft(x, x, arrivals, left)
  {
  }

  // Writing

  // The swap of DoWrite.
  function Swapped(x: Stream): Stream {
    x.(transit := x.inbox.pendingWrites, inbox := x.inbox.(pendingWrites := []))
  }

  lemma SwapKeeps(x: Stream)
    requires Sound(x) && x.transit == [] && !x.addFilterAllowed && !x.Top().writeClosed
    ensures Sound(Swapped(x)) && Onward(x, Swapped(x))
  {
    var y := Swapped(x);
    assert x.Top().Stream() + Bytes(x.transit) == x.Top().Stream();
    assert x.Top().Stream() + Bytes(y.transit) + [] == x.Top().Stream() + Bytes(y.transit);
  }

  // StreamBufferFilter::Write: everything is kept in order, unless Out asks to close; then what it took is still
  // a prefix. It stops only when all is taken, Out has left something, or Out has asked to close.
  predicate Written(l: Layer, m: Layer, list: seq<DataView>) {
    && m == l.(pendingOut := m.pendingOut, consumed := m.consumed, writeClosed := m.failed, failed := m.failed,
               used := true, shorts := m.shorts, stalls := m.stalls)
    && l.stalls <= m.stalls
    && (m.pendingOut == [] || m.failed || m.shorts > l.shorts)
    && (l.tcp && l.broken && list != [] ==> m.failed)
    && Filled(m.pendingOut)
    && (!m.failed ==> m.Stream() == l.Stream() + Bytes(list))
    && l.consumed <= m.consumed <= l.Stream() + Bytes(list)
  }

  predicate WrittenBy(x: Stream, y: Stream)
    requires x.layers != []
  {
    && SameBelow(x.layers, y.layers) && SameFlags(x, y)
    && y.transit == [] && y.inbox == x.inbox && y.inFlight == x.inFlight && y.callbacks == x.callbacks
    && Written(x.Top(), y.Top(), x.transit)
  }

  lemma WriteKeeps(x: Stream, y: Stream)
    requires Sound(x) && !x.addFilterAllowed && !x.eofCalled && !x.Top().writeClosed && WrittenBy(x, y)
    ensures Sound(y) && Onward(x, y)
  {
    var l, m := x.Top(), y.Top();
    if !m.failed {
      assert m.Stream() + Bytes([]) == m.Stream();
    } else {
      assert m.consumed <= l.Stream() + Bytes(x.transit) <= x.inbox.accepted;
    }
  }

  // One pass of DoWrite on an open top filter: other threads may come in before the swap and before the write.
  predicate WriteRun(x: Stream, y: Stream, z: Stream, w: Stream)
    requires x.layers != []
  {
    && Interfered(x, y) && Interfered(Swapped(y), z)
    && (if y.inbox.pendingWrites == [] then w == z else WrittenBy(z, w))
  }

  // The top filter has been given every byte accepted before, if it could still write, unless it has failed.
  predicate HandedOver(x: Stream, y: Stream)
    requires x.layers != []
  {
    y.layers != [] && (x.Top().writeClosed || y.Top().failed || x.inbox.accepted <= y.Top().Stream())
  }

  // What DoWrite leaves behind: while closing, nothing stays in pending_writes_ but writes that were late.
  predicate WriteLeft(x: Stream, w: Stream)
    requires x.layers != []
  {
    && Sound(w) && Onward(x, w) && SameBelow(x.layers, w.layers) && SameFlags(x, w)
    && w.transit == [] && w.callbacks == x.callbacks
    && w.Top().readClosed == x.Top().readClosed && w.Top().connected == x.Top().connected
    && w.Top().ended == x.Top().ended && w.Top().shutdowns == x.Top().shutdowns
    && HandedOver(x, w) && OnlyAsked(x, w)
    && (x.Top().tcp && x.Top().broken && !x.Top().writeClosed && x.inbox.pendingWrites != [] ==> w.Top().failed)
    && (x.inbox.shouldClose ==> w.Top().writeClosed || w.inbox.late || w.inbox.pendingWrites == [])
  }

  lemma WriteRunOnward(x: Stream, y: Stream, z: Stream, w: Stream)
    requires Quiet(x) && !x.Top().writeClosed && WriteRun(x, y, z, w)
    ensures Sound(y) && Sound(z) && Sound(w) && Onward(x, w) && OnlyAsked(x, w)
  {
    hide NoBypass, TopDown, Called, Drained, Accounted, Conserved;
    InterferedKeeps(x, y);
    SwapKeeps(y);
    InterferedKeeps(Swapped(y), z);
    OnwardTwice(x, y, Swapped(y));
    OnwardTwice(x, Swapped(y), z);
    AskedBetween(x, y, z);
    if y.inbox.pendingWrites != [] {
      WriteKeeps(z, w);
      OnwardTwice(x, z, w);
    }
  }

  lemma WriteRunHands(x: Stream, y: Stream, z: Stream, w: Stream)
    requires Quiet(x) && !x.Top().writeClosed && WriteRun(x, y, z, w) && Sound(y) && Sound(z) && Sound(w)
    ensures HandedOver(x, w) && w.transit == []
    ensures x.inbox.shouldClose ==> w.Top().writeClosed || w.inbox.late || w.inbox.pendingWrites == []
  {
    hide NoBypass, TopDown, Called, Drained, Accounted;
    assert y.Top().Stream() + Bytes([]) + Bytes(y.inbox.pendingWrites) == y.inbox.accepted;
    assert y.Top().Stream() + Bytes(y.inbox.pendingWrites) == y.inbox.accepted;
  }

  lemma WriteRunKeeps(x: Stream, y: Stream, z: Stream, w: Stream)
    requires Quiet(x) && !x.Top().writeClosed
    requires WriteRun(x, y, z, w)
    ensures WriteLeft(x, w)
  {
    WriteRunOnward(x, y, z, w);
    WriteRunHands(x, y, z, w);
    hide Sound, Onward, HandedOver, OnlyAsked;
  }

  lemma PassFilled(x: Stream)
    requires Quiet(x) && !x.Top().writeClosed
    ensures Filled(x.inbox.pendingWrites) && Filled(x.inFlight) && Filled(x.Top().pendingOut) && !x.Top().failed
    ensures x.inbox.pendingWrites == [] ==> Swapped(x) == x
  {
  }

  lemma SwappedFilled(y: Stream)
    requires Filled(y.inbox.pendingWrites) && Filled(y.inFlight)
    ensures var z := Swapped(y); Filled(z.inbox.pendingWrites) && Filled(z.inFlight) && Filled(z.transit)
  {
  }

  // Closing

  // StreamBufferFilter::Close: flush what is pending, then shut down. A filter that stays open has stalled, or Out
  // has left something after bytes were taken. It becomes closed by nothing but a complete Shutdown, or for writing
  // by a failure. The TCP filter with nothing to send closes at once.
  predicate Shut(l: Layer, m: Layer) {
    && m == l.(pendingOut := m.pendingOut, consumed := m.consumed, readClosed := m.readClosed,
               writeClosed := m.writeClosed, failed := m.failed, shorts := m.shorts, stalls := m.stalls,
               shutdowns := m.shutdowns)
    && Filled(m.pendingOut)
    && l.shutdowns <= m.shutdowns
    && (m.readClosed <==> l.readClosed || m.shutdowns > l.shutdowns)
    && (m.writeClosed <==> l.writeClosed || m.failed || m.shutdowns > l.shutdowns)
    && (l.writeClosed ==> m.writeClosed && m.pendingOut == l.pendingOut && m.consumed == l.consumed && m.failed == l.failed)
    && (m.writeClosed && !l.writeClosed && !m.failed ==> m.readClosed && m.pendingOut == [])
    && (!m.failed ==> m.Stream() == l.Stream())
    && (l.failed ==> m.failed)
    && l.consumed <= m.consumed <= l.Stream()
    && (l.pendingOut == [] ==> m.pendingOut == [] && m.consumed == l.consumed && m.failed == l.failed)
    && l.stalls <= m.stalls
    && (m.Closed() || m.stalls > l.stalls || (m.shorts > l.shorts && |m.consumed| > |l.consumed|))
    && (l.tcp && l.pendingOut == [] ==>
      m == l.(readClosed := true, writeClosed := true, shutdowns := l.shutdowns + 1))
  }

  // Before DoClose.
  predicate Closable(s: Stream) {
    Sound(s) && s.inbox.shouldClose && s.transit == [] && !s.addFilterAllowed
  }

  // The stream is closing and everything pushed in time has been handed to the top filter.
  predicate Flushed(x: Stream)
    requires x.layers != []
  {
    && x.inbox.shouldClose && x.transit == [] && !x.addFilterAllowed
    && (x.Top().writeClosed || x.inbox.late || x.inbox.pendingWrites == [])
  }

  // Filter `i` is shut, the others are as they were.
  predicate ShutBy(x: Stream, y: Stream, i: nat) {
    && i < |x.layers| == |y.layers|
    && (forall j :: 0 <= j < |x.layers| && j != i ==> y.layers[j] == x.layers[j])
    && SameFlags(x, y)
    && y.transit == x.transit && y.inbox == x.inbox && y.inFlight == x.inFlight && y.callbacks == x.callbacks
    && Shut(x.layers[i], y.layers[i])
  }

  lemma ShutKeeps(x: Stream, y: Stream, i: nat)
    requires Sound(x) && Flushed(x) && ShutBy(x, y, i) && !x.layers[i].Closed()
    requires forall j :: i < j < |x.layers| ==> x.layers[j].Closed()
    ensures Sound(y) && Onward(x, y) && Flushed(y)
    ensures y.layers[i].Closed() || Stalled(x, y) || (i == |x.layers| - 1 && |y.Top().consumed| > |x.Top().consumed|)
  {
    var l, m := x.layers[i], y.layers[i];
    if i == |x.layers| - 1 {
      assert l == x.Top() && m == y.Top();
      if !m.failed { assert !l.failed; }
      assert m.consumed <= x.inbox.accepted by {
        if l.writeClosed {
        } else {
          assert l.Stream() + Bytes([]) + Bytes(x.inbox.pendingWrites) == x.inbox.accepted;
          assert l.Stream() + Bytes([]) == l.Stream();
        }
      }
    }
  }

  // What DoClose leaves behind: everything closed, unless it stalled or moved bytes.
  predicate CloseLeft(x: Stream, y: Stream)
    requires x.layers != []
  {
    && Sound(y) && Onward(x, y) && |y.layers| == |x.layers| && SameFlags(x, y)
    && y.transit == [] && y.callbacks == x.callbacks && y.inbox.shouldClose
    && (AllClosed(y.layers) || Stalled(x, y) || |y.Top().consumed| > |x.Top().consumed|)
  }

  // Only the TCP filter, and nothing to send.
  predicate Idle(x: Stream) {
    |x.layers| == 1 && x.layers[0].tcp && x.layers[0].pendingOut == [] && x.inbox.pendingWrites == []
  }

  // Such a stream after DoClose.
  function ShutDown(x: Stream): Stream
    requires x.layers != []
  {
    var top := x.Top();
    if top.Closed() then x
    else x.WithTop(top.(readClosed := true, writeClosed := true, shutdowns := top.shutdowns + 1))
  }

  lemma IdleShutDown(x: Stream)
    ensures Idle(x) ==>
      && x.layers != [] && AllClosed(ShutDown(x).layers)
      && ShutDown(x).inbox == x.inbox && ShutDown(x).eofCalled == x.eofCalled
  {
  }

  // A pass of DoClose over `x` that has reached `y`, having closed the filters from `i` up.
  predicate ClosePass(x: Stream, y: Stream, i: nat)
    requires x.layers != []
  {
    && Sound(y) && Flushed(y) && Onward(x, y) && |y.layers| == |x.layers| && SameFlags(x, y)
    && y.callbacks == x.callbacks
    && i <= |y.layers| && (forall j :: i <= j < |y.layers| ==> y.layers[j].Closed())
    && (Idle(x) ==> y == if i == 0 then ShutDown(x) else x)
  }

  lemma ClosePassStart(x: Stream)
    requires Sound(x) && Flushed(x)
    ensures ClosePass(x, x, |x.layers|)
  {
  }

  lemma ClosePassDone(x: Stream, y: Stream)
    requires x.layers != [] && ClosePass(x, y, 0)
    ensures CloseLeft(x, y) && (Idle(x) ==> y == ShutDown(x))
  {
  }

  lemma ClosePassFacts(x: Stream, y: Stream, i: nat)
    requires x.layers != [] && ClosePass(x, y, i + 1)
    ensures i < |y.layers| && Filled(y.layers[i].pendingOut) && (y.layers[i].failed ==> y.layers[i].writeClosed)
  {
  }

  // A filter that is closed already is passed over.
  lemma ClosePassSkip(x: Stream, y: Stream, i: nat)
    requires x.layers != [] && ClosePass(x, y, i + 1) && y.layers[i].Closed()
    ensures ClosePass(x, y, i)
  {
    if Idle(x) { assert y.layers == ShutDown(x).layers; }
  }

  lemma ClosePassStep(x: Stream, y: Stream, z: Stream, i: nat)
    requires x.layers != [] && ClosePass(x, y, i + 1)
    requires ShutBy(y, z, i) && !y.layers[i].Closed()
    ensures if z.layers[i].Closed() then ClosePass(x, z, i) else CloseLeft(x, z) && !Idle(x)
  {
    ShutKeeps(y, z, i);
    OnwardTwice(x, y, z);
    if Idle(x) {
      assert i == 0 && y == x;
      assert z.layers == ShutDown(x).layers;
    }
  }

  // DoClose: the pending writes are flushed first, if every filter can still write.
  lemma FlushedBeforeClosing(x: Stream, y: Stream, anyWriteClosed: bool)
    requires Closable(x)
    requires anyWriteClosed <==> exists i :: 0 <= i < |x.layers| && x.layers[i].writeClosed
    requires if anyWriteClosed then y == x else WriteLeft(x, y)
    ensures Sound(y) && Flushed(y) && (anyWriteClosed <==> x.Top().writeClosed)
  {
    if anyWriteClosed {
      var i :| 0 <= i < |x.layers| && x.layers[i].writeClosed;
      assert i < |x.layers| - 1 ==> x.Top().Closed();
    }
  }

  lemma ClosableOpen(x: Stream, anyWriteClosed: bool)
    requires Closable(x)
    requires anyWriteClosed <==> exists i :: 0 <= i < |x.layers| && x.layers[i].writeClosed
    ensures x.layers != [] && Sound(x) && x.inbox.shouldClose && x.transit == []
    ensures !anyWriteClosed ==> Quiet(x)
    ensures Idle(x) ==> x.inbox.pendingWrites == []
  {
    if x.eofCalled { assert x.Top().Closed(); }
  }

  lemma CloseAfterWrite(x: Stream, y: Stream, z: Stream)
    requires Sound(x) && x.inbox.shouldClose && x.transit == []
    requires if x.Top().writeClosed then y == x else WriteLeft(x, y)
    requires y.layers != [] && CloseLeft(y, z)
    ensures CloseLeft(x, z) && HandedOver(x, z)
  {
    if !x.Top().writeClosed { OnwardTwice(x, y, z); }
  }

  // Connecting

  function Connected(x: Stream): Stream
    requires x.layers != []
  {
    x.WithTop(x.Top().(connected := true)).(addFilterAllowed := true, callbacks := x.callbacks + [OnConnected])
  }

  lemma ConnectKeeps(x: Stream)
    requires Sound(x) && x.transit == [] && !x.eofCalled && !x.Top().connected && x.Top().Untouched()
    ensures Sound(Connected(x)) && Onward(x, Connected(x))
  {
    DataOfAppend(x.callbacks, OnConnected);
    ConnectsAppend(x.callbacks, OnConnected);
    assert NoneClosed(x.layers);
  }

  const NEW_LAYER: Layer := Layer(false, false, false, false, false, [], [], [], false, false, false, 0, 0, 0)

  // AddStreamBufferFilter, from inside HandleConnected.
  function Added(x: Stream): Stream {
    x.(layers := x.layers + [NEW_LAYER], addFilterAllowed := false)
  }

  // Bytes written before the filter was added have not left through the filter below: they are still to go
  // through the new one.
  lemma AddKeeps(x: Stream)
    requires Sound(x) && x.addFilterAllowed && !x.eofCalled
    ensures Sound(Added(x)) && Onward(x, Added(x))
    ensures Added(x).Top().consumed == [] && Bytes(x.inbox.pendingWrites) == x.inbox.accepted
  {
    var y := Added(x);
    assert x.Top().Stream() == [];
    assert [] + Bytes([]) + Bytes(x.inbox.pendingWrites) == Bytes(x.inbox.pendingWrites);
    assert y.Top() == NEW_LAYER && NEW_LAYER.Stream() == [];
  }

  function ConnectFailed(x: Stream): Stream
    requires x.layers != []
  {
    x.WithTop(x.Top().(readClosed := true, writeClosed := true)).(connectFailed := true)
  }

  lemma ConnectFailKeeps(x: Stream)
    requires Sound(x) && !x.eofCalled && !x.addFilterAllowed && !x.Top().failed
    ensures Sound(ConnectFailed(x)) && Onward(x, ConnectFailed(x))
  {
  }

  // Before DoFinalize: the top filter may just have been read closed.
  predicate Handled(s: Stream) {
    && Sound(s) && s.transit == [] && !s.addFilterAllowed
    && (!s.inbox.shouldClose ==> s.Top().readClosed || s.Top().connected || s.Top().Untouched())
  }

  // Before DoConnect: nothing has gone through the top filter, and it has not connected.
  predicate Connectable(s: Stream) {
    Handled(s) && !s.eofCalled && !s.Top().connected && s.Top().Untouched()
  }

  lemma ConnectableFacts(x: Stream)
    requires Connectable(x)
    ensures x.layers != [] && Handled(x) && Onward(x, x)
    ensures Handled(ConnectFailed(x)) && Onward(x, ConnectFailed(x)) && ConnectFailed(x).inbox == x.inbox
  {
    ConnectFailKeeps(x);
  }

  // DoConnect when the top filter has connected: HandleConnected is called, the user possibly adds a filter, and
  // other threads may come in before and after.
  predicate ConnectRun(x: Stream, y: Stream, add: bool, z: Stream, w: Stream)
    requires x.layers != []
  {
    && Interfered(Connected(x), y)
    && Interfered(if add then Added(y) else y, z)
    && w == z.(addFilterAllowed := false)
  }

  // What that leaves behind: the filter is open and connected, or the new top filter is still to connect.
  predicate ConnectLeft(x: Stream, w: Stream, add: bool)
    requires x.layers != []
  {
    && Onward(x, w) && OnlyAsked(x, w) && w.callbacks == x.callbacks + [OnConnected]
    && w.connectFailed == x.connectFailed
    && w.layers == x.layers[|x.layers| - 1 := x.Top().(connected := true)] + if add then [NEW_LAYER] else []
  }

  lemma ConnectRunKeeps(x: Stream, y: Stream, add: bool, z: Stream, w: Stream)
    requires Connectable(x) && ConnectRun(x, y, add, z, w)
    ensures Handled(w) && ConnectLeft(x, w, add) && Onward(x, w)
  {
    ConnectKeeps(x);
    InterferedKeeps(Connected(x), y);
    OnwardTwice(x, Connected(x), y);
    if add {
      AddKeeps(y);
      OnwardTwice(x, y, Added(y));
      InterferedKeeps(Added(y), z);
      OnwardTwice(x, Added(y), z);
    } else {
      InterferedKeeps(y, z);
      OnwardTwice(x, y, z);
    }
  }

  lemma ConnectMoves(x: Stream, z: Stream, r: ConnectResult, g: Given, left: seq<InResult>)
    requires Connectable(x) && Onward(x, z)
    requires x.Top().tcp ==> r == if g.reachable then Success else Failed
    requires r == Pending ==> z == x
    requires r == Failed ==> z == ConnectFailed(x)
    requires r == Success ==> ConnectLeft(x, z, g.add)
    ensures x.layers != [] && Moved(x, z, g, left) && ServedOpen(x, z)
  {
    ConnectsAppend(x.callbacks, OnConnected);
  }

  // What the methods need of these predicates between two steps.
  lemma ConnectedFilled(x: Stream)
    requires Connectable(x)
    ensures x.layers != [] && Filled(Connected(x).inbox.pendingWrites) && Filled(Connected(x).inFlight)
    ensures Connected(x).addFilterAllowed && Connected(x).inbox == x.inbox
  {
  }

  lemma InterferedFilled(x: Stream, y: Stream)
    requires Interfered(x, y)
    ensures Filled(y.inbox.pendingWrites) && Filled(y.inFlight) && y.addFilterAllowed == x.addFilterAllowed
    ensures y.layers == x.layers && y.transit == x.transit
  {
  }

  lemma AddedFilled(y: Stream)
    ensures Added(y).inbox == y.inbox && Added(y).inFlight == y.inFlight
  {
  }

  // Between the steps of HandleEvents

  // What the world holds ready for a call: what In will report, whether connecting over TCP will succeed, and
  // whether the user adds a filter when it has.
  datatype Given = Given(arrivals: seq<InResult>, reachable: bool, add: bool)

  // What DoRead and then DoWrite leave behind on a connected top filter.
  lemma ReadWriteKeeps(x: Stream, y: Stream, z: Stream, g: Given, left: seq<InResult>)
    requires Serving(x) && ReadLeft(x, y, g.arrivals, left)
    requires y.layers != [] && WriteLeft(y, z)
    ensures Handled(z) && ServedOpen(x, z) && Moved(x, z, g, left)
    ensures Idle(x) && x.inbox.calls == y.inbox.calls && z == y ==> Idle(z)
  {
    OnwardTwice(x, y, z);
  }

  // After a connected top filter has been read, or an unconnected TCP filter has been asked to connect: a filter
  // whose input has ended, or that failed to connect, is read closed.
  predicate Moved(x: Stream, z: Stream, g: Given, left: seq<InResult>)
    requires x.layers != []
  {
    z.layers != [] && |x.callbacks| <= |z.callbacks| &&
    if x.Top().connected then
      |z.layers| == |x.layers| && ReadOff(g.arrivals, z.callbacks[|x.callbacks|..], z.Top().readClosed, left)
    else
      x.Top().tcp ==>
        if g.reachable then Joined(x, z, g.add) && !z.Top().readClosed
        else z.connectFailed && z.Top().readClosed && z.callbacks == x.callbacks
  }

  // The top filter has connected; `add`: and a filter has been put on top of it.
  predicate Joined(x: Stream, z: Stream, add: bool)
    requires x.layers != []
  {
    && z.layers == x.layers[|x.layers| - 1 := x.Top().(connected := true)] + (if add then [NEW_LAYER] else [])
    && z.connectFailed == x.connectFailed
    && z.callbacks == x.callbacks + [OnConnected]
  }

  // The callbacks between `x` and `z`, HandleEOF aside.
  function NewCalls(x: Stream, z: Stream): seq<Callback> {
    var made := if |x.callbacks| <= |z.callbacks| then z.callbacks[|x.callbacks|..] else [];
    if made != [] && made[|made| - 1].OnEof? then made[..|made| - 1] else made
  }

  // What a call of HandleEvents achieves on a stream that nobody closes: it reads until there is no more data, and
  // ends up closing exactly if its input has ended; over TCP it connects, or ends up closing, exactly as the
  // kernel reports.
  predicate Advanced(x: Stream, z: Stream, g: Given, left: seq<InResult>)
    requires x.layers != []
  {
    !x.inbox.shouldClose && !Asked(x, z) ==>
      if x.Top().connected then
        |z.layers| == |x.layers| && ReadOff(g.arrivals, NewCalls(x, z), z.inbox.shouldClose, left)
      else
        x.Top().tcp ==>
          if g.reachable then !z.inbox.shouldClose && Joined(x, z, g.add)
          else z.inbox.shouldClose && z.connectFailed && NewCalls(x, z) == []
  }

  lemma MovedAdvances(x: Stream, y: Stream, z: Stream, g: Given, left: seq<InResult>)
    requires Settled(x) && Dispatched(x, y) && (y.inbox.shouldClose || Moved(x, y, g, left))
    requires y.layers != [] && Handled(y) && HandledOn(y, z) && Settled(z)
    ensures Advanced(x, z, g, left)
  {
    if !x.inbox.shouldClose && !Asked(x, z) {
      AskedBetween(x, y, z);
      assert !y.inbox.shouldClose && Moved(x, y, g, left);
      NewCallsAre(x, y, z);
    }
  }

  lemma AskedBetween(x: Stream, y: Stream, z: Stream)
    requires Onward(x, y) && Onward(y, z)
    ensures Asked(x, y) || Asked(y, z) ==> Asked(x, z)
  {
  }

  lemma NewCallsAre(x: Stream, y: Stream, z: Stream)
    requires Sound(x) && Sound(y) && !y.eofCalled && x.callbacks <= y.callbacks
    requires y.layers != [] && z.layers != [] && HandledOn(y, z)
    ensures NewCalls(x, z) == y.callbacks[|x.callbacks|..]
  {
    var made := y.callbacks[|x.callbacks|..];
    if made != [] { assert !y.callbacks[|y.callbacks| - 1].OnEof?; }
    if z.eofCalled { assert z.callbacks[|x.callbacks|..] == made + [OnEof]; }
  }

  // Before DoRead.
  predicate Serving(s: Stream) {
    Quiet(s) && s.Top().connected && !s.Top().readClosed
  }

  predicate ServedOpen(x: Stream, z: Stream)
    requires x.layers != []
  {
    && Onward(x, z) && OnlyAsked(x, z)
    && |z.layers| <= |x.layers| + 1 && Connects(z.callbacks) <= Connects(x.callbacks) + 1
    && (z.layers != [] && z.Top().readClosed ==> |z.layers| == |x.layers|)
    && if x.Top().connected then
         HandedOver(x, z) && |z.layers| == |x.layers| && Connects(z.callbacks) == Connects(x.callbacks)
       else Unclosed(z)
  }

  // The top filter is open in both directions, unless it failed to connect.
  predicate Unclosed(s: Stream) {
    s.layers != [] && (s.connectFailed || (!s.Top().readClosed && !s.Top().writeClosed))
  }

  // A step within HandleEvents that adds no filter.
  predicate HandledOn(x: Stream, y: Stream)
    requires x.layers != []
  {
    && Onward(x, y) && |y.layers| == |x.layers| && y.connectFailed == x.connectFailed
    && (Unclosed(x) ==> Unclosed(y))
    && (x.inbox.shouldClose || !y.inbox.shouldClose ==> y.layers == x.layers)
    && (y.inbox.shouldClose && !x.inbox.shouldClose ==> Asked(x, y) || x.Top().readClosed)
    && (if y.eofCalled && !x.eofCalled then y.callbacks == x.callbacks + [OnEof] else y.callbacks == x.callbacks)
  }

  lemma HandledOnTwice(x: Stream, y: Stream, z: Stream)
    requires x.layers != [] && HandledOn(x, y) && y.layers != [] && HandledOn(y, z)
    ensures HandledOn(x, z) && z.layers != []
  {
    OnwardTwice(x, y, z);
    AskedBetween(x, y, z);
  }

  // What DoFinalize does when the input of the top filter has ended, or it failed to connect, and nobody has asked
  // for a close: it closes the stream, unless that stalls or bytes remain to be sent.
  predicate Finished(x: Stream, z: Stream)
    requires x.layers != []
  {
    !x.inbox.shouldClose && x.Top().readClosed ==>
      || Asked(x, z)
      || AllClosed(z.layers) || Stalled(x, z) || (z.layers != [] && |z.Top().consumed| > |x.Top().consumed|)
  }

  lemma FinishedAround(x: Stream, y: Stream, z: Stream, w: Stream)
    requires Settled(z) && Settled(w) && x.layers != [] && Interfered(x, y) && HandledOn(x, y)
    requires HandledOn(y, z) && Finished(y, z) && z.layers != [] && HandledOn(z, w) && w.layers == z.layers
    ensures Finished(x, w)
  {
    hide NoBypass, TopDown, Conserved, Drained, Called, Accounted;
    AskedBetween(x, y, w);
    AskedBetween(y, z, w);
    OnwardTwice(y, z, w);
  }

  // Finding the top filter read closed, DoFinalize requests the close itself.
  lemma CloseRequested(x: Stream)
    requires Handled(x) && !x.inbox.shouldClose
    ensures x.layers != [] && Closable(x.(inbox := x.inbox.(shouldClose := true)))
  {
    var y := x.(inbox := x.inbox.(shouldClose := true));
    assert Conserved(y.Top(), y.transit, y.inbox) && Drained(y);
  }

  lemma CloseRequestServed(x: Stream, z: Stream)
    requires Handled(x) && !x.inbox.shouldClose && x.Top().readClosed
    requires CloseLeft(x.(inbox := x.inbox.(shouldClose := true)), z)
    ensures Settled(z) && HandledOn(x, z) && Finished(x, z)
  {
    var y := x.(inbox := x.inbox.(shouldClose := true));
    assert Onward(x, y);
    OnwardTwice(x, y, z);
  }

  lemma HandledSettled(x: Stream)
    requires Handled(x) && (x.inbox.shouldClose || !x.Top().readClosed)
    ensures Settled(x) && HandledOn(x, x) && Finished(x, x)
  {
  }

  lemma HandledFilled(x: Stream)
    requires Handled(x)
    ensures Filled(x.inbox.pendingWrites) && Filled(x.inFlight)
  {
  }

  lemma HandledMeddled(x: Stream, y: Stream)
    requires Handled(x) && Interfered(x, y)
    ensures x.layers != [] && y.layers != [] && Handled(y) && HandledOn(x, y)
  {
    InterferedKeeps(x, y);
  }

  // End of file

  // HandleEOF has been called exactly if every filter is closed.
  predicate EndCalled(s: Stream) {
    s.eofCalled <==> AllClosed(s.layers)
  }

  function Ended(x: Stream): Stream {
    x.(eofCalled := true, callbacks := x.callbacks + [OnEof])
  }

  lemma EndKeeps(x: Stream)
    requires Sound(x) && !x.eofCalled && AllClosed(x.layers) && x.inbox.shouldClose
    ensures Sound(Ended(x)) && Onward(x, Ended(x))
  {
    DataOfAppend(x.callbacks, OnEof);
    ConnectsAppend(x.callbacks, OnEof);
  }

  lemma SettledStays(x: Stream)
    requires Settled(x)
    ensures x.layers != [] && HandledOn(x, x)
    ensures !AllClosed(x.layers) || x.eofCalled ==> EndCalled(x)
    ensures AllClosed(x.layers) <==> forall i :: 0 <= i < |x.layers| ==> x.layers[i].readClosed && x.layers[i].writeClosed
  {
  }

  lemma EndIsCalled(x: Stream)
    requires EndCalled(x)
    ensures x.eofCalled <==> AllClosed(x.layers)
  {
  }

  // An open stream whose input ends, undisturbed, is read closed and not yet closing when DoFinalize begins.
  lemma InputEnded(x: Stream, y: Stream, g: Given, left: seq<InResult>)
    requires Settled(x) && x.layers != [] && Dispatched(x, y) && (y.inbox.shouldClose || Moved(x, y, g, left))
    ensures y.layers != []
    ensures !x.inbox.shouldClose && y.inbox.calls == x.inbox.calls && x.Top().connected && InputEnds(g.arrivals) ==>
      !y.inbox.shouldClose && y.Top().readClosed
  {
    if !x.inbox.shouldClose && y.inbox.calls == x.inbox.calls && x.Top().connected && InputEnds(g.arrivals) {
      assert !Asked(x, y);
      InputEndCloses(g.arrivals, y.callbacks[|x.callbacks|..], y.Top().readClosed, left);
    }
  }

  lemma EndedFilled(x: Stream)
    requires Settled(x)
    ensures Filled(Ended(x).inbox.pendingWrites) && Filled(Ended(x).inFlight)
  {
  }

  lemma EndRunKeeps(x: Stream, y: Stream)
    requires Settled(x) && AllClosed(x.layers) && !x.eofCalled && Interfered(Ended(x), y)
    ensures x.layers != [] && Settled(y) && HandledOn(x, y) && EndCalled(y)
  {
    EndKeeps(x);
    InterferedKeeps(Ended(x), y);
    OnwardTwice(x, Ended(x), y);
  }

  // A call of HandleEvents

  // Filters are added and HandleConnected is called only on a stream whose top filter has not connected, and one
  // at a time.
  predicate Grown(x: Stream, y: Stream)
    requires x.layers != []
  {
    && |y.layers| <= |x.layers| + 1
    && Connects(y.callbacks) <= Connects(x.callbacks) + 1
    && (x.Top().connected || x.inbox.shouldClose ==>
      |y.layers| == |x.layers| && Connects(y.callbacks) == Connects(x.callbacks))
  }

  // After DoClose, DoConnect, or DoRead and DoWrite.
  predicate Dispatched(x: Stream, y: Stream)
    requires x.layers != []
  {
    && Onward(x, y) && Grown(x, y) && OnlyAsked(x, y)
    && (!y.inbox.shouldClose && y.layers != [] && y.Top().readClosed ==> |y.layers| == |x.layers|)
    && (HandedOver(x, y) || (!x.Top().connected && !x.inbox.shouldClose && Unclosed(y)))
    && (x.inbox.shouldClose ==>
      AllClosed(y.layers) || Stalled(x, y) || |y.Top().consumed| > |x.Top().consumed|)
  }

  // After the whole call: HandleEOF has been called exactly if every filter is closed; a top filter that could
  // write, and was connected, closing, or has just been closed, has been given every byte accepted before the
  // call; a closing stream has come closer to its end, unless it stalled, and so has one that the call itself
  // found to be at the end of its input.
  predicate ServedBy(x: Stream, z: Stream)
    requires x.layers != []
  {
    && Settled(z) && Onward(x, z) && EndCalled(z) && Grown(x, z)
    && (x.Top().connected || x.inbox.shouldClose || !Unclosed(z) ==> HandedOver(x, z))
    && (x.inbox.shouldClose ==> Stalled(x, z) || Progressed(x, z))
    && (z.inbox.shouldClose && !x.inbox.shouldClose && !Asked(x, z) ==> Stalled(x, z) || Progressed(x, z))
  }

  lemma SettledMeddled(x: Stream, y: Stream)
    requires Settled(x) && Interfered(x, y)
    ensures x.layers != [] && y.layers == x.layers && Settled(y) && Handled(y) && Onward(x, y) && Filled(y.inFlight)
    ensures y.inbox.shouldClose ==> Closable(y)
  {
    InterferedKeeps(x, y);
  }

  lemma SettledFilled(x: Stream)
    requires Settled(x)
    ensures x.layers != [] && Filled(x.inbox.pendingWrites) && Filled(x.inFlight)
  {
  }

  lemma SettledOpen(x: Stream, y: Stream)
    requires Settled(x) && !x.inbox.shouldClose && Interfered(x, y)
    ensures y.layers != [] && if y.Top().connected then Serving(y) else Connectable(y)
  {
    InterferedKeeps(x, y);
  }

  lemma OpenServed(x: Stream, y: Stream, z: Stream, g: Given, left: seq<InResult>)
    requires Settled(x) && Interfered(x, y) && !x.inbox.shouldClose
    requires y.layers != [] && ServedOpen(y, z)
    requires Moved(y, z, g, left)
    ensures x.layers != [] && ServedOpen(x, z) && Moved(x, z, g, left)
  {
    hide NoBypass, TopDown, Conserved, Drained, Called;
    InterferedKeeps(x, y);
    OnwardTwice(x, y, z);
  }

  lemma IdleReading(x: Stream, y: Stream, arrivals: seq<InResult>, left: seq<InResult>)
    requires x.layers != [] && ReadLeft(x, y, arrivals, left)
    ensures Idle(x) && y.inbox.calls == x.inbox.calls ==> Idle(y) && y.inbox == x.inbox && y.inbox.pendingWrites == []
  {
  }

  lemma ServingQuiet(x: Stream)
    requires Serving(x)
    ensures Quiet(x) && x.layers != []
  {
  }

  lemma ReadLeftQuiet(x: Stream, y: Stream, arrivals: seq<InResult>, left: seq<InResult>)
    requires x.layers != [] && ReadLeft(x, y, arrivals, left)
    ensures Quiet(y) && y.layers != []
  {
  }

  lemma CloseDispatched(x: Stream, y: Stream, z: Stream)
    requires Settled(x) && Interfered(x, y) && y.inbox.shouldClose && CloseLeft(y, z) && HandedOver(y, z)
    ensures x.layers != [] && z.layers != [] && Handled(z) && Dispatched(x, z) && z.inbox.shouldClose
  {
    InterferedKeeps(x, y);
    OnwardTwice(x, y, z);
    AskedBetween(x, y, z);
  }

  lemma OpenDispatched(x: Stream, y: Stream, z: Stream, g: Given, left: seq<InResult>)
    requires Settled(x) && Interfered(x, y) && !y.inbox.shouldClose && ServedOpen(y, z) && Moved(y, z, g, left)
    ensures x.layers != [] && z.layers != [] && Dispatched(x, z) && Moved(x, z, g, left)
  {
    InterferedKeeps(x, y);
    OnwardTwice(x, y, z);
  }

  lemma FinalizeServes(x: Stream, y: Stream, z: Stream)
    requires x.layers != [] && y.layers != [] && Dispatched(x, y)
    requires Settled(z) && HandledOn(y, z) && EndCalled(z) && Finished(y, z)
    ensures ServedBy(x, z)
  {
    OnwardTwice(x, y, z);
    AskedBetween(x, y, z);
    ConnectsAppend(y.callbacks, OnEof);
  }

  lemma OnwardTwice(x: Stream, y: Stream, z: Stream)
    requires Onward(x, y) && Onward(y, z)
    ensures Onward(x, z)
  {
  }

  // What a call of HandleEvents on a closing stream achieves, unless it stalled.
  predicate Progressed(x: Stream, y: Stream) {
    x.layers != [] && y.layers != [] && (y.eofCalled || |y.Top().consumed| > |x.Top().consumed|)
  }

  // A new stream over its TCP filter.
  function NewStream(broken: bool): Stream {
    Stream([NEW_LAYER.(tcp := true, broken := broken)], Inbox([], [], false, false, [], 0), [], [],
           false, false, false, [])
  }

  lemma NewStreamSettled(broken: bool)
    ensures Settled(NewStream(broken))
  {
    assert NewStream(broken).Top().Stream() + Bytes([]) + Bytes([]) == [];
    assert DataOf([]) == [] && Connects([]) == 0;
  }
}
