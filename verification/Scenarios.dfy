/**
  The stream classes driven through the cases the theorems make exceptions of, and through the simplest end of a
  connection.
 */
module Scenarios {
  import opened DataViews
  import opened Streams
  import opened StreamLives
  import opened StreamBuffers
  import opened TcpFilter

  // A new stream that is closed while a write is past its test of should_close_.
  function ClosedEarly(view: DataView): Stream {
    NewStream(false).(inbox := Inbox([], [], true, false, [CloseReady], 2), inFlight := [view])
  }

  lemma ClosedEarlyEnds(view: DataView)
    requires view.bytes != []
    ensures var s := ClosedEarly(view); Settled(s) && Idle(s) && EndedWell(Ended(ShutDown(s)))
    ensures Ended(ShutDown(ClosedEarly(view))).Top().consumed == []
  {
    var s := ClosedEarly(view);
    NewStreamSettled(false);
    assert s.inbox.signals[0] == CloseReady;
    assert Interfered(NewStream(false), s);
    InterferedKeeps(NewStream(false), s);
  }

  // A server's stream after its first, undisturbed call.
  predicate Untried(z: Stream, broken: bool) {
    && z.layers == [NEW_LAYER.(tcp := true, broken := broken, connected := true)] && Settled(z)
    && !z.inbox.shouldClose && z.inbox.pendingWrites == [] && z.inFlight == [] && !z.connectFailed
  }

  lemma AfterAccept(broken: bool, z: Stream, g: Given, left: seq<InResult>)
    requires ServedBy(NewStream(broken), z) && Advanced(NewStream(broken), z, g, left)
    requires g.reachable && !g.add && z.inbox.calls == 0
    ensures Untried(z, broken)
  {
    var x := NewStream(broken);
    assert Onward(x, z) && !Asked(x, z);
    assert z.layers == [x.Top().(connected := true)];
    assert z.Top().Stream() == [] && [] + Bytes([]) + Bytes(z.inbox.pendingWrites) == Bytes(z.inbox.pendingWrites);
  }

  lemma UntriedFacts(z: Stream, broken: bool)
    requires Untried(z, broken)
    ensures Settled(z) && Idle(z) && !z.inbox.shouldClose && z.layers != [] && z.Top().connected && !z.eofCalled
    ensures z.inbox.pendingWrites == []
  {
  }

  // A write pushed to an open, connected stream between calls.
  lemma Pushed(x: Stream, y: Stream, view: DataView)
    requires Settled(x) && !x.inbox.shouldClose && x.Top().connected && x.inbox.pendingWrites == [] && view.bytes != []
    requires y == x.(inbox := Inbox([view], x.inbox.accepted + view.bytes, false, x.inbox.late,
                                    x.inbox.signals + [WriteReady], x.inbox.calls + 2))
    ensures Serving(y) && Quiet(y)
  {
    assert Bytes([view]) == view.bytes + [] == view.bytes;
    assert y.inbox.pendingWrites[|x.inbox.pendingWrites|..] == [view];
    assert y.inbox.signals[|x.inbox.signals|] == WriteReady;
    assert Interfered(x, y);
    SettledOpen(x, y);
  }

  lemma EndsAtOnce(reports: seq<InResult>)
    requires reports != [] && reports[0].CloseRead?
    ensures InputEnds(reports)
  {
  }

  // A connected stream, at the end of its input and with something to send that cannot be sent.
  predicate Doomed(x: Stream) {
    && Serving(x) && |x.layers| == 1 && x.Top().tcp && x.Top().broken && !x.inbox.shouldClose
    && !x.Top().writeClosed && x.Top().shutdowns == 0 && x.inbox.pendingWrites != []
  }

  lemma WrittenIsDoomed(x: Stream, y: Stream, view: DataView)
    requires Untried(x, true) && view.bytes != []
    requires y == x.(inbox := Inbox([view], x.inbox.accepted + view.bytes, false, x.inbox.late,
                                    x.inbox.signals + [WriteReady], x.inbox.calls + 2))
    ensures Doomed(y)
  {
    Pushed(x, y, view);
  }

  lemma DoomedQuiet(x: Stream)
    requires Doomed(x)
    ensures Quiet(x) && x.layers != []
  {
  }

  // Read and written, it is closed both ways, and DoFinalize ends it without a Shutdown.
  lemma UnshutHandled(x: Stream, y: Stream, z: Stream, arrivals: seq<InResult>, left: seq<InResult>)
    requires Doomed(x) && ReadLeft(x, y, arrivals, left) && InputEnds(arrivals) && y.layers != [] && WriteLeft(y, z)
    ensures Handled(z) && z.layers != [] && |z.layers| == 1
    ensures z.Top().ended && z.Top().failed && z.Top().shutdowns == 0 && z.Top().Closed()
  {
    InputEndCloses(arrivals, y.callbacks[|x.callbacks|..], y.Top().readClosed, left);
  }

  lemma EndsUnshut(x: Stream, y: Stream, z: Stream, w: Stream, arrivals: seq<InResult>, left: seq<InResult>)
    requires Doomed(x) && ReadLeft(x, y, arrivals, left) && InputEnds(arrivals) && y.layers != [] && WriteLeft(y, z)
    requires z.layers != [] && HandledOn(z, w)
    ensures AllClosed(w.layers) && w.layers != [] && w.Top().shutdowns == 0
  {
    UnshutHandled(x, y, z, arrivals, left);
  }

  // A server's stream, closed by another thread while a write is past its test of should_close_.
  method CloseWhileWriting(view: DataView) returns (stream: StreamBuffer)
    requires view.bytes != []
    ensures fresh(stream) && fresh(stream.filters)
    ensures stream.Tied() && stream.Linked() && stream.script == [] && stream.State() == ClosedEarly(view.Save())
  {
    hide Settled, Filter.State;
    var tcp := new Filter(true, true, false, 0, []);
    stream := new StreamBuffer(false, tcp);
    stream.StartWrite(view);
    stream.Close();
    assert [] + [view.Save()] == [view.Save()];
  }

  // The write is pushed after the loop has handled the close: it is accepted and never sent, though nothing has
  // failed.
  method LateWriteIsLost(view: DataView) returns (stream: StreamBuffer)
    requires view.bytes != []
    ensures stream.Tied() && EndedWell(stream.State())
    ensures stream.State().inbox.accepted == view.bytes && stream.State().Top().consumed == []
  {
    hide Idle, Settled, Filter.State, Sound, ServedBy, Advanced, StreamBuffer.Linked;
    stream := CloseWhileWriting(view);
    var unused := new Filter(false, false, false, 0, []);
    ClosedEarlyEnds(view.Save());
    stream.HandleEvents(true, unused, false);
    assert stream.inFlight == [view.Save()];
    stream.FinishWrite(0);
  }

  // A server's stream, connected and otherwise untouched.
  method Accepted(broken: bool) returns (stream: StreamBuffer)
    ensures fresh(stream) && fresh(stream.filters) && stream.filters != []
    ensures stream.Tied() && stream.Linked() && stream.script == [] && stream.closeEvents == 0
    ensures Untried(stream.State(), broken)
  {
    var tcp := new Filter(true, true, broken, 0, []);
    stream := new StreamBuffer(false, tcp);
    var unused := new Filter(false, false, false, 0, []);
    ghost var g := stream.Situation(false);
    assert g.reachable;
    hide Settled, Idle, ServedBy, Advanced, Filter.State, Untried;
    stream.HandleEvents(true, unused, false);
    AfterAccept(broken, stream.State(), g, stream.Arrivals());
  }

  // The peer of an idle stream closes the connection: HandleEOF and CloseEvent follow in the same call.
  method PeerCloses() returns (stream: StreamBuffer)
    ensures stream.State().eofCalled && stream.closeEvents == 1
  {
    stream := Accepted(false);
    hide Settled, Idle, ServedBy, Advanced, Filter.State, InputEnds;
    UntriedFacts(stream.State(), false);
    stream.Deliver([TcpFilter.In(EndOfFile)]);
    EndsAtOnce(stream.Arrivals());
    var unused := new Filter(false, false, false, 0, []);
    stream.HandleEvents(true, unused, false);
  }

  // A broken connection, written to, whose peer closes.
  method Broken(view: DataView) returns (stream: StreamBuffer)
    requires view.bytes != []
    ensures fresh(stream) && fresh(stream.filters) && stream.Tied() && stream.Linked()
    ensures Doomed(stream.State()) && InputEnds(stream.Arrivals()) && stream.script == []
  {
    hide Settled, Serving, Idle, InputEnds, Untried, Doomed, Filter.State, StreamBuffer.Tied, StreamBuffer.Linked;
    stream := Accepted(true);
    ghost var start := stream.State();
    UntriedFacts(start, true);
    stream.Write(view);
    WrittenIsDoomed(start, stream.State(), view.Save());
    stream.Deliver([TcpFilter.In(EndOfFile)]);
    EndsAtOnce(stream.Arrivals());
  }

  // The exception in ShutDownAtEof, with the steps HandleEvents takes on a connected stream: the peer has closed
  // the connection, and the write fails. The TCP filter is never shut down.
  method EndedAndBroken(view: DataView) returns (stream: StreamBuffer)
    requires view.bytes != []
    ensures stream.State().eofCalled && stream.State().layers != [] && stream.State().Top().shutdowns == 0
  {
    stream := Broken(view);
    hide *;
    ghost var x, arrivals := stream.State(), stream.Arrivals();
    DoomedQuiet(x);
    stream.DoRead();
    ghost var y, left := stream.State(), stream.Arrivals();
    ReadLeftQuiet(x, y, arrivals, left);
    stream.DoWrite();
    ghost var z := stream.State();
    UnshutHandled(x, y, z, arrivals, left);
    stream.DoFinalize();
    EndsUnshut(x, y, z, stream.State(), arrivals, left);
    EndIsCalled(stream.State());
  }
}
