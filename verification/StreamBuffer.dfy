/**
  StreamBuffer and StreamBufferFilter (lib/stream_buffer.cc, include/stream_buffer.h) as classes. Each method is
  proved to take the steps of module Streams, which keep its invariants.

  What other threads do to a stream, and what its user does inside callbacks, is left open: at every point where
  they can interleave with the loop thread, the stream performs the next list of actions of `script`.
 */
module StreamBuffers {
  import opened DataViews
  import opened Wrappers
  import opened Streams
  import opened TcpFilter

  // A call of StreamBuffer::Write is two actions, because its test of should_close_ and its push are not one
  // locked section (lib/stream_buffer.cc:106-118).
  datatype Meddling =
    | StartWrite(view: DataView)
    | FinishWrite(i: nat)
    | RequestClose

  // What calls of a filter's In, Out and Shutdown have done (see Streams.Layer), and how often it has been asked to
  // connect and to accept.
  datatype Receiving = Receiving(received: seq<byte>, ended: bool)
  datatype Sending = Sending(consumed: seq<byte>, failed: bool, shorts: nat, stalls: nat, shutdowns: nat)
  datatype Handshakes = Handshakes(connects: nat, accepts: nat)

  // Where a call of Read begins.
  datatype ReadStart = ReadStart(
    callbacks: seq<Callback>, received: seq<byte>, inbox: Inbox, inFlight: seq<DataView>, arrivals: seq<InResult>)

  // The bytes ever pushed to a stream, whether a write was pushed when should_close_ was set, and how often others
  // have acted on the stream.
  datatype Entry = Entry(accepted: seq<byte>, late: bool, calls: nat)

  /**
    One layer of a stream. What the virtual In, Out, Shutdown and Connect of an added filter do is left open;
    Out takes a prefix of the view it is given and leaves the rest.
   */
  class Filter {
    const tcp: bool
    const pendingConnect: bool
    // Every send fails.
    const broken: bool
    // SO_ERROR.
    var socketError: int
    var connected: bool
    var readClosed: bool
    var writeClosed: bool
    var prev: Filter?
    var next: Filter?
    var order: nat
    var pendingOut: seq<DataView>
    // What In is going to report.
    var arrivals: seq<InResult>

    ghost var sent: Sending
    ghost var got: Receiving
    ghost var used: bool
    ghost var handshakes: Handshakes

    ghost function State(): Layer
      reads this
    {
      Layer(tcp, tcp && broken, connected, readClosed, writeClosed, pendingOut, sent.consumed, got.received, used,
            sent.failed, got.ended, sent.shorts, sent.stalls, sent.shutdowns)
    }

    ghost predicate IsNew()
      reads this
    {
      State() == NEW_LAYER.(tcp := tcp, broken := tcp && broken) && prev == null && next == null
    }

    constructor (tcp: bool, pendingConnect: bool, broken: bool, socketError: int, arrivals: seq<InResult>)
      ensures this.tcp == tcp && this.pendingConnect == pendingConnect && this.broken == broken
      ensures this.socketError == socketError && this.arrivals == arrivals
      ensures IsNew()
    {
      this.tcp, this.pendingConnect, this.broken := tcp, pendingConnect, broken;
      this.socketError, this.arrivals := socketError, arrivals;
      connected, readClosed, writeClosed := false, false, false;
      prev, next := null, null;
      order := 0xFFFF_FFFE;
      pendingOut, sent, got, used := [], Sending([], false, 0, 0, 0), Receiving([], false), false;
      handshakes := Handshakes(0, 0);
    }

    method In() returns (r: InResult)
      modifies `arrivals, `got
      ensures if old(arrivals) == [] then r == NoData && arrivals == []
              else r == old(arrivals)[0] && arrivals == old(arrivals)[1..]
      ensures got.received == old(got.received) + if r.Data? then r.view.bytes else []
      ensures got.ended == (old(got.ended) || r.CloseRead?)
    {
      if arrivals == [] {
        r := NoData;
      } else {
        r, arrivals := arrivals[0], arrivals[1..];
      }
      got := Receiving(got.received + (if r.Data? then r.view.bytes else []), got.ended || r.CloseRead?);
    }

    // `rest` is what the view reference holds after the call.
    method Out(view: DataView) returns (close: bool, rest: Option<DataView>)
      requires view.bytes != []
      modifies `sent
      ensures sent.failed == (old(sent.failed) || close)
      ensures sent.shorts == old(sent.shorts) + if !close && rest.Some? then 1 else 0
      ensures sent.stalls == old(sent.stalls) + if !close && sent.consumed == old(sent.consumed) then 1 else 0
      ensures old(sent.consumed) <= sent.consumed
      ensures close ==> sent.consumed <= old(sent.consumed) + view.bytes
      ensures tcp && broken ==> close
      ensures sent.shutdowns == old(sent.shutdowns)
      ensures !close ==>
        && sent.consumed + (match rest case None => [] case Some(v) => v.bytes) == old(sent.consumed) + view.bytes
        && (rest.Some? ==> rest.value.bytes != [])
    {
      ghost var taken;
      if tcp {
        ghost var answer;
        close, rest, taken, answer := TcpFilter.Out(view, broken);
      } else {
        // An added filter: any outcome that consumes a prefix of the view.
        var n: nat :| n <= |view.bytes|;
        close := *;
        rest := if n < |view.bytes| then Some(DataView(view.bytes[n..], true)) else None;
        taken := view.bytes[..n];
      }
      sent := Sending(sent.consumed + taken, sent.failed || close,
                      sent.shorts + (if !close && rest.Some? then 1 else 0),
                      sent.stalls + (if !close && taken == [] then 1 else 0), sent.shutdowns);
    }

    method Shutdown() returns (complete: bool)
      modifies `sent
      ensures tcp ==> complete
      ensures sent == if complete then old(sent).(shutdowns := old(sent.shutdowns) + 1)
                      else old(sent).(stalls := old(sent.stalls) + 1)
    {
      if tcp { complete := SHUTDOWN_COMPLETE; } else { complete := *; }
      sent := if complete then sent.(shutdowns := sent.shutdowns + 1) else sent.(stalls := sent.stalls + 1);
    }

    method Connect() returns (r: ConnectResult)
      modifies `handshakes
      ensures tcp ==> r == if pendingConnect || socketError == 0 then Success else Failed
      ensures handshakes == old(handshakes).(connects := old(handshakes.connects) + 1)
    {
      handshakes := handshakes.(connects := handshakes.connects + 1);
      if tcp { r := TcpFilter.Connect(pendingConnect, socketError); } else { r := *; }
    }

    method Accept() returns (r: ConnectResult)
      requires tcp ==> pendingConnect
      modifies `handshakes
      ensures tcp ==> r == Success
      ensures handshakes == old(handshakes).(accepts := old(handshakes.accepts) + 1)
    {
      handshakes := handshakes.(accepts := handshakes.accepts + 1);
      if tcp { r := TcpFilter.Accept(pendingConnect); } else { r := *; }
    }

    // The loop of Write and Close: send pending_out_ until it is empty, Out leaves something, or Out asks to
    // close. A view that was being sent when Out asked to close is dropped.
    method Flush()
      requires Filled(pendingOut) && !writeClosed && !sent.failed
      modifies `pendingOut, `writeClosed, `sent
      ensures Filled(pendingOut)
      ensures writeClosed == sent.failed
      ensures !sent.failed ==> State().Stream() == old(State().Stream())
      ensures old(sent.consumed) <= sent.consumed <= old(State().Stream())
      ensures sent.stalls >= old(sent.stalls) && sent.shutdowns == old(sent.shutdowns)
      ensures tcp && broken && old(pendingOut) != [] ==> sent.failed
      ensures pendingOut == [] || sent.failed || sent.shorts > old(sent.shorts)
      ensures pendingOut == [] || sent.failed || sent.stalls > old(sent.stalls)
        || |sent.consumed| > |old(sent.consumed)|
      ensures old(pendingOut) == [] ==> pendingOut == [] && sent == old(sent)
    {
      while pendingOut != []
        invariant Filled(pendingOut) && !writeClosed && !sent.failed
        invariant State().Stream() == old(State().Stream())
        invariant old(sent.consumed) <= sent.consumed && sent.stalls >= old(sent.stalls)
        invariant sent.shorts >= old(sent.shorts) && sent.shutdowns == old(sent.shutdowns)
        invariant tcp && broken && old(pendingOut) != [] ==> pendingOut != []
        invariant old(pendingOut) == [] ==> pendingOut == [] && sent == old(sent)
        decreases |pendingOut|
      {
        var view, tail := pendingOut[0], pendingOut[1..];
        assert view in pendingOut;
        ghost var before := sent.consumed;
        pendingOut := tail;
        var close, rest := Out(view);
        assert before + (view.bytes + Bytes(tail)) == (before + view.bytes) + Bytes(tail);
        if close {
          writeClosed := true;
          return;
        }
        if rest.Some? {
          pendingOut := [rest.value] + tail;
          assert pendingOut[1..] == tail;
          assert sent.consumed + (rest.value.bytes + Bytes(tail)) == (sent.consumed + rest.value.bytes) + Bytes(tail);
          return;
        }
        assert sent.consumed + [] == sent.consumed;
      }
    }

    method Write(list: seq<DataView>)
      requires Filled(pendingOut) && Filled(list) && !writeClosed && !sent.failed
      modifies `pendingOut, `writeClosed, `sent, `used
      ensures Written(old(State()), State(), list)
    {
      used := true;
      BytesAppend(pendingOut, list);
      assert sent.consumed + (Bytes(pendingOut) + Bytes(list)) == State().Stream() + Bytes(list);
      pendingOut := pendingOut + list;
      Flush();
    }

    // Since the reading began, In has reported data only, and HandleData has been called with it.
    ghost predicate Reading(owner: StreamBuffer, start: ReadStart, calls: seq<Callback>)
      reads this, owner
    {
      && ReadSoFar(start.arrivals, calls, arrivals)
      && Heard(owner, start, calls)
    }

    ghost predicate Heard(owner: StreamBuffer, start: ReadStart, calls: seq<Callback>)
      reads `got, owner
    {
      && owner.callbacks == start.callbacks + calls
      && HeardData(start.callbacks, owner.callbacks, start.received, got.received)
      && Filled(owner.inFlight) && Meddled(start.inbox, owner.Inbox())
      && (owner.entry.calls == start.inbox.calls ==> owner.inFlight == start.inFlight)
    }

    // One report of In. `more`: it had data.
    method ReadNext(owner: StreamBuffer, ghost start: ReadStart, ghost calls: seq<Callback>)
      returns (more: bool, closed: bool, ghost calls': seq<Callback>)
      requires Reading(owner, start, calls)
      modifies `arrivals, `got
      modifies owner`callbacks, owner`pendingWrites, owner`inFlight, owner`entry, owner`shouldClose
      modifies owner`readyEvents, owner`script
      ensures more ==> Reading(owner, start, calls') && |arrivals| < |old(arrivals)| && !closed
      ensures !more ==> Heard(owner, start, calls) && ReadOff(start.arrivals, calls, closed, arrivals)
      ensures got.ended == (old(got.ended) || closed)
      ensures old(owner.script) == [] ==> owner.script == [] && owner.entry.calls == old(owner.entry.calls)
    {
      hide ReadOff, Filled;
      ghost var before, now, left := owner.Inbox(), got.received, arrivals;
      ReadEnd(start.arrivals, calls, left);
      var r := In();
      more, closed, calls' := r.HasData(), r.CloseRead?, calls;
      if !more {
        assert got.received == now;
        return;
      }
      MeddledFilled(start.inbox, before);
      owner.HandleData(r.view);
      MeddledTwice(start.inbox, before, owner.Inbox());
      HeardMore(start.callbacks, start.callbacks + calls, start.received, now, r.view.bytes);
      ReadOne(start.arrivals, calls, left);
      calls' := calls + [OnData(r.view.bytes)];
    }

    // Reads until In has no more data or asks to close.
    method Read(owner: StreamBuffer) returns (ghost closed: bool)
      requires Filled(owner.pendingWrites) && Filled(owner.inFlight)
      modifies `arrivals, `got, `readClosed, `used
      modifies owner`callbacks, owner`pendingWrites, owner`inFlight, owner`entry, owner`shouldClose
      modifies owner`readyEvents, owner`script
      ensures used && readClosed == (old(readClosed) || closed) && got.ended == (old(got.ended) || closed)
      ensures |old(owner.callbacks)| <= |owner.callbacks|
      ensures HeardData(old(owner.callbacks), owner.callbacks, old(got.received), got.received)
      ensures ReadOff(old(arrivals), owner.callbacks[|old(owner.callbacks)|..], closed, arrivals)
      ensures Filled(owner.inFlight) && Meddled(old(owner.Inbox()), owner.Inbox())
      ensures owner.Inbox().calls == old(owner.Inbox()).calls ==> owner.inFlight == old(owner.inFlight)
      ensures old(owner.script) == [] ==> owner.script == [] && owner.Inbox().calls == old(owner.Inbox()).calls
    {
      ghost var start := ReadStart(owner.callbacks, got.received, owner.Inbox(), owner.inFlight, arrivals);
      ghost var calls: seq<Callback> := [];
      MeddledSelf(start.inbox);
      HeardNothing(start.callbacks, start.received);
      ReadBegins(arrivals);
      assert Reading(owner, start, calls);
      hide Reading, ReadOff, Meddled, HeardData, Filled;
      used, closed := true, false;
      var more := true;
      while more
        invariant used && readClosed == (old(readClosed) || closed) && got.ended == (old(got.ended) || closed)
        invariant if more then Reading(owner, start, calls) && !closed
                  else Heard(owner, start, calls) && ReadOff(start.arrivals, calls, closed, arrivals)
        invariant old(owner.script) == [] ==> owner.script == [] && owner.entry.calls == old(owner.entry.calls)
        decreases more, |arrivals|
      {
        var close;
        ghost var calls';
        more, close, calls' := ReadNext(owner, start, calls);
        if close { readClosed := true; }
        closed, calls := close, if more then calls' else calls;
      }
      assert owner.callbacks[|start.callbacks|..] == calls;
    }

    method ShutdownBoth()
      modifies `writeClosed, `readClosed, `sent
      ensures sent.(shutdowns := 0, stalls := 0) == old(sent).(shutdowns := 0, stalls := 0)
      ensures sent.shutdowns == old(sent.shutdowns) + 1 ==>
        readClosed && writeClosed && sent.stalls == old(sent.stalls)
      ensures sent.shutdowns != old(sent.shutdowns) + 1 ==>
        && sent.shutdowns == old(sent.shutdowns) && sent.stalls == old(sent.stalls) + 1
        && readClosed == old(readClosed) && writeClosed == old(writeClosed)
      ensures tcp ==> sent.shutdowns == old(sent.shutdowns) + 1
    {
      var complete := Shutdown();
      if complete { writeClosed, readClosed := true, true; }
    }

    // Shut down once nothing is left to send, or nothing more can be sent.
    method Close()
      requires Filled(pendingOut) && (sent.failed ==> writeClosed)
      modifies `pendingOut, `writeClosed, `readClosed, `sent
      ensures Shut(old(State()), State())
    {
      if pendingOut == [] || writeClosed {
        ShutdownBoth();
        return;
      }
      Flush();
      if pendingOut == [] || writeClosed { ShutdownBoth(); }
    }
  }

  class StreamBuffer {
    const clientMode: bool
    var filters: seq<Filter>
    var pendingWrites: seq<DataView>
    var shouldClose: bool
    var eofCalled: bool
    var addFilterAllowed: bool
    // Calls of ReadyEvent, ModifyEvent and CloseEvent.
    var readyEvents: seq<Signal>
    var modifyEvents: nat
    var closeEvents: nat
    // Writes past their test of should_close_ and not yet pushed, and what other threads will do.
    var inFlight: seq<DataView>
    var script: seq<seq<Meddling>>

    // The filters' states, and the history the class cannot tell from its fields (see module Streams).
    ghost var layers: seq<Layer>
    ghost var entry: Entry
    ghost var transit: seq<DataView>
    ghost var connectFailed: bool
    ghost var callbacks: seq<Callback>

    ghost function Inbox(): Streams.Inbox
      reads `pendingWrites, `entry, `shouldClose, `readyEvents
    {
      Streams.Inbox(pendingWrites, entry.accepted, shouldClose, entry.late, readyEvents, entry.calls)
    }

    ghost function State(): Stream
      reads this
    {
      Stream(layers, Inbox(), inFlight, transit, addFilterAllowed, eofCalled, connectFailed, callbacks)
    }

    ghost function Top(): Filter
      requires filters != []
      reads `filters
    {
      filters[|filters| - 1]
    }

    // What In of the top filter is going to report.
    ghost function Arrivals(): seq<InResult>
      reads `filters, filters`arrivals
    {
      if filters == [] then [] else Top().arrivals
    }

    // Whether the top filter, if it is the TCP filter, will connect.
    ghost predicate Reachable()
      reads `filters, filters`socketError
    {
      filters != [] && (!clientMode || Top().pendingConnect || Top().socketError == 0)
    }

    // What a call of HandleEvents finds.
    ghost function Situation(add: bool): (g: Given)
      ensures g.arrivals == Arrivals() && g.reachable == Reachable() && g.add == add
      reads `filters, filters`arrivals, filters`socketError
    {
      Given(Arrivals(), Reachable(), add)
    }

    // `layers` is the state of the filters, and order_ is a filter's position in the list.
    ghost predicate Tied()
      reads `filters, `layers, filters
    {
      && |layers| == |filters| > 0
      && (forall i {:trigger filters[i]} {:trigger layers[i]} :: 0 <= i < |filters| ==>
        layers[i] == filters[i].State() && filters[i].order == i)
    }

    // The filters form a chain through prev_ and next_, with the TCP filter at the bottom.
    ghost predicate Linked()
      requires filters != []
      reads `filters, filters`prev, filters`next
    {
      && (forall i {:trigger filters[i].next} :: 0 <= i < |filters| - 1 ==> filters[i].next == filters[i + 1])
      && (forall i {:trigger filters[i].prev} :: 0 < i < |filters| ==> filters[i].prev == filters[i - 1])
      && filters[0].prev == null && Top().next == null
      && (forall i {:trigger filters[i].tcp} :: 0 <= i < |filters| ==> (filters[i].tcp <==> i == 0))
      && (!clientMode ==> filters[0].pendingConnect)
    }

    constructor (clientMode: bool, tcp: Filter)
      requires tcp.IsNew() && tcp.tcp && (!clientMode ==> tcp.pendingConnect)
      modifies tcp
      ensures Tied() && Linked() && filters == [tcp] && this.clientMode == clientMode
      ensures State() == NewStream(tcp.broken)
      ensures readyEvents == [] && modifyEvents == 0 && closeEvents == 0
      ensures Settled(State())
      ensures script == []
    {
      this.clientMode := clientMode;
      pendingWrites, inFlight, transit, callbacks := [], [], [], [];
      shouldClose, eofCalled, connectFailed, entry := false, false, false, Entry([], false, 0);
      readyEvents, modifyEvents, closeEvents, script := [], 0, 0, [];
      // Create adds the TCP filter as the first.
      addFilterAllowed := false;
      filters, layers := [tcp], [NEW_LAYER.(tcp := true, broken := tcp.broken)];
      new;
      tcp.order := 0;
      NewStreamSettled(tcp.broken);
    }

    // What other threads do

    method StartWrite(view: DataView)
      modifies `inFlight, `entry
      ensures inFlight == old(inFlight) + if view.bytes == [] || shouldClose then [] else [view.Save()]
      ensures Inbox() == old(Inbox()).(calls := old(entry.calls) + 1)
    {
      entry := entry.(calls := entry.calls + 1);
      if |view.bytes| == 0 { return; }
      if shouldClose { return; }
      inFlight := inFlight + [view.Save()];
    }

    // A ready event is posted exactly when the queue was empty.
    method FinishWrite(i: nat)
      requires i < |inFlight|
      modifies `inFlight, `pendingWrites, `entry, `readyEvents
      ensures inFlight == old(inFlight[..i] + inFlight[i + 1..])
      ensures Inbox() == old(Streams.Inbox(
        pendingWrites + [inFlight[i]], entry.accepted + inFlight[i].bytes, shouldClose, entry.late || shouldClose,
        readyEvents + (if pendingWrites == [] then [WriteReady] else []), entry.calls + 1))
    {
      var sendWriteReady := pendingWrites == [];
      pendingWrites := pendingWrites + [inFlight[i]];
      entry := Entry(entry.accepted + inFlight[i].bytes, entry.late || shouldClose, entry.calls + 1);
      inFlight := inFlight[..i] + inFlight[i + 1..];
      if sendWriteReady { readyEvents := readyEvents + [WriteReady]; }
    }

    // Write, when nothing comes between its test of should_close_ and its push.
    method Write(view: DataView)
      modifies `inFlight, `pendingWrites, `entry, `readyEvents
      ensures inFlight == old(inFlight)
      ensures view.bytes == [] || shouldClose ==> Inbox() == old(Inbox()).(calls := old(entry.calls) + 1)
      ensures view.bytes != [] && !shouldClose ==>
        Inbox() == Streams.Inbox(
          old(pendingWrites) + [view.Save()], old(entry.accepted) + view.bytes, false, old(entry.late),
          old(readyEvents) + (if old(pendingWrites) == [] then [WriteReady] else []), old(entry.calls) + 2)
    {
      var before := |inFlight|;
      StartWrite(view);
      if |inFlight| > before { FinishWrite(before); }
    }

    method Close()
      modifies `shouldClose, `readyEvents, `entry
      ensures Inbox() == old(Inbox()).(shouldClose := true, signals := old(readyEvents) + [CloseReady],
                                       calls := old(entry.calls) + 1)
    {
      shouldClose := true;
      readyEvents := readyEvents + [CloseReady];
      entry := entry.(calls := entry.calls + 1);
    }

    method Meddle(a: Meddling)
      requires Filled(pendingWrites) && Filled(inFlight)
      modifies `pendingWrites, `inFlight, `entry, `shouldClose, `readyEvents
      ensures Filled(inFlight) && Meddled(old(Inbox()), Inbox())
      ensures entry.calls == old(entry.calls) ==> inFlight == old(inFlight)
    {
      assert pendingWrites[|pendingWrites|..] == [] && entry.accepted + [] == entry.accepted;
      match a
      case StartWrite(view) => StartWrite(view);
      case FinishWrite(i) =>
        if i < |inFlight| {
          assert inFlight[i] in inFlight;
          FinishWrite(i);
          assert old(pendingWrites) == [] ==> readyEvents[|old(readyEvents)|] == WriteReady;
          assert pendingWrites[|old(pendingWrites)|..] == [old(inFlight[i])];
        }
      case RequestClose =>
        Close();
        assert readyEvents[|old(readyEvents)|] == CloseReady;
    }

    // The next list of the script.
    method Interfere()
      requires Filled(pendingWrites) && Filled(inFlight)
      modifies `pendingWrites, `inFlight, `entry, `shouldClose, `readyEvents, `script
      ensures Filled(inFlight) && Meddled(old(Inbox()), Inbox())
      ensures entry.calls == old(entry.calls) ==> inFlight == old(inFlight)
      ensures old(script) == [] ==> script == [] && entry.calls == old(entry.calls)
    {
      MeddledSelf(Inbox());
      if script == [] { return; }
      var actions := script[0];
      script := script[1..];
      for i := 0 to |actions|
        invariant Filled(inFlight) && Filled(pendingWrites) && Meddled(old(Inbox()), Inbox())
        invariant entry.calls >= old(entry.calls)
        invariant entry.calls == old(entry.calls) ==> inFlight == old(inFlight)
      {
        ghost var before := Inbox();
        Meddle(actions[i]);
        MeddledTwice(old(Inbox()), before, Inbox());
      }
    }

    // The callback into the user, who may do with the stream what other threads may.
    method HandleData(view: DataView)
      requires Filled(pendingWrites) && Filled(inFlight)
      modifies `callbacks, `pendingWrites, `inFlight, `entry, `shouldClose, `readyEvents, `script
      ensures callbacks == old(callbacks) + [OnData(view.bytes)]
      ensures Filled(inFlight) && Meddled(old(Inbox()), Inbox()) && entry.calls >= old(entry.calls)
      ensures entry.calls == old(entry.calls) ==> inFlight == old(inFlight)
      ensures old(script) == [] ==> script == [] && entry.calls == old(entry.calls)
    {
      callbacks := callbacks + [OnData(view.bytes)];
      Interfere();
    }

    // What the world does

    // The kernel has news for the top filter.
    method Deliver(arrivals: seq<InResult>)
      requires Tied()
      modifies filters`arrivals
      ensures Tied() && State() == old(State()) && Arrivals() == arrivals
    {
      filters[|filters| - 1].arrivals := arrivals;
    }

    // Steps of HandleEvents

    method CloseEvent()
      modifies `closeEvents
      ensures closeEvents == old(closeEvents) + 1 && State() == old(State())
    {
      closeEvents := closeEvents + 1;
    }

    method ShouldClose() returns (b: bool)
      ensures b == State().inbox.shouldClose
    {
      return shouldClose;
    }

    // A point where other threads can interleave.
    method Yield()
      requires Filled(State().inbox.pendingWrites) && Filled(State().inFlight)
      modifies `pendingWrites, `inFlight, `entry, `shouldClose, `readyEvents, `script
      ensures Interfered(old(State()), State())
      ensures old(script) == [] ==> script == [] && State() == old(State())
    {
      Interfere();
    }

    method ReadTop()
      requires Tied() && Filled(pendingWrites) && Filled(inFlight) && !Top().readClosed && !Top().got.ended
      modifies `callbacks, `pendingWrites, `inFlight, `entry, `shouldClose, `readyEvents, `script
      modifies `layers, Top()`arrivals, Top()`got, Top()`readClosed, Top()`used
      ensures Tied() && ReadBy(old(State()), State(), old(Top().arrivals), Top().arrivals)
      ensures old(script) == [] ==> script == [] && State().inbox.calls == old(State()).inbox.calls
    {
      hide Meddled, HeardData, Filled, ReadOff, ReadBy, Inbox;
      ghost var x := State();
      var filter := filters[|filters| - 1];
      ghost var arrivals := filter.arrivals;
      ghost var closed := filter.Read(this);
      layers := layers[|filters| - 1 := filter.State()];
      ReadIntoTop(x, State(), arrivals, filter.arrivals);
    }

    method DoRead()
      requires Tied() && Quiet(State())
      modifies `callbacks, `pendingWrites, `inFlight, `entry, `shouldClose, `readyEvents, `script
      modifies `layers, filters`arrivals, filters`got, filters`readClosed, filters`used
      ensures Tied() && ReadLeft(old(State()), State(), old(Arrivals()), Arrivals())
      ensures old(script) == [] ==> script == [] && State().inbox.calls == old(State()).inbox.calls
    {
      hide ReadBy, ReadOff, Meddled, Onward, OnlyAsked, Quiet;
      QuietTop(State());
      if filters[|filters| - 1].readClosed { return; }
      ReadTop();
      ReadKeeps(old(State()), State(), old(Arrivals()), Arrivals());
    }

    method WriteTop(list: seq<DataView>)
      requires Tied() && Filled(list) && transit == list
      requires Filled(Top().pendingOut) && !Top().writeClosed && !Top().sent.failed
      modifies `layers, `transit, Top()`pendingOut, Top()`writeClosed, Top()`sent, Top()`used
      ensures Tied() && WrittenBy(old(State()), State())
    {
      hide Filled, Bytes, Layer.Stream;
      var filter := filters[|filters| - 1];
      transit := [];
      filter.Write(list);
      layers := layers[|filters| - 1 := filter.State()];
    }

    // The swap of pending_writes_ under its lock.
    method TakeWrites() returns (list: seq<DataView>)
      modifies `pendingWrites, `transit
      ensures State() == Swapped(old(State())) && list == transit
    {
      list := pendingWrites;
      transit := list;
      pendingWrites := [];
    }

    method WritePass()
      requires Tied() && Quiet(State()) && !Top().writeClosed
      modifies `pendingWrites, `inFlight, `entry, `shouldClose, `readyEvents, `script, `transit
      modifies `layers, filters`pendingOut, filters`writeClosed, filters`sent, filters`used
      ensures Tied() && WriteLeft(old(State()), State())
      ensures old(script) == [] ==> script == [] && State().inbox.calls == old(State()).inbox.calls
      ensures old(script) == [] && old(State()).inbox.pendingWrites == [] ==> script == [] && State() == old(State())
    {
      hide Sound, Onward, Quiet, WriteLeft, Interfered, WrittenBy, Filled;
      ghost var x := State();
      PassFilled(x);
      Yield();
      ghost var y := State();
      InterferedFilled(x, y);
      var list := TakeWrites();
      SwappedFilled(y);
      Yield();
      ghost var z := State();
      InterferedFilled(Swapped(y), z);
      if list != [] { WriteTop(list); }
      WriteRunKeeps(x, y, z, State());
    }

    method DoWrite()
      requires Tied() && Quiet(State())
      modifies `pendingWrites, `inFlight, `entry, `shouldClose, `readyEvents, `script, `transit
      modifies `layers, filters`pendingOut, filters`writeClosed, filters`sent, filters`used
      ensures Tied() && WriteLeft(old(State()), State())
      ensures old(script) == [] ==> script == [] && State().inbox.calls == old(State()).inbox.calls
      ensures old(Top().writeClosed) ==> State() == old(State()) && script == old(script)
      ensures old(script) == [] && old(State()).inbox.pendingWrites == [] ==> script == [] && State() == old(State())
    {
      if filters[|filters| - 1].writeClosed { return; }
      WritePass();
    }

    method CloseOne(filter: Filter, i: nat)
      requires Tied() && i < |filters| && filter == filters[i]
      requires Filled(filter.pendingOut) && (filter.sent.failed ==> filter.writeClosed)
      modifies `layers, filter`pendingOut, filter`writeClosed, filter`readClosed, filter`sent
      ensures Tied() && ShutBy(old(State()), State(), i)
    {
      filter.Close();
      layers := layers[i := filter.State()];
    }

    // One filter of the pass: closed if it was not; `open` if it stays so.
    method CloseUnlessClosed(filter: Filter, i: nat, ghost x: Stream) returns (open: bool)
      requires Tied() && i < |filters| && filter == filters[i] && x.layers != [] && ClosePass(x, State(), i + 1)
      modifies `layers, filter`pendingOut, filter`writeClosed, filter`readClosed, filter`sent
      ensures Tied()
      ensures if open then CloseLeft(x, State()) && !Idle(x) else ClosePass(x, State(), i)
    {
      hide ClosePass, CloseLeft, ShutBy, Idle;
      ghost var y := State();
      ClosePassFacts(x, y, i);
      assert layers[i] == filter.State();
      if !filter.readClosed || !filter.writeClosed {
        CloseOne(filter, i);
        ClosePassStep(x, y, State(), i);
        assert layers[i] == filter.State();
      } else {
        ClosePassSkip(x, y, i);
      }
      open := !filter.readClosed || !filter.writeClosed;
    }

    // From the top down, until a filter stays open.
    method CloseFilters()
      requires Tied() && Sound(State()) && Flushed(State())
      modifies `layers, filters`pendingOut, filters`writeClosed, filters`readClosed, filters`sent
      ensures Tied() && CloseLeft(old(State()), State())
      ensures Idle(old(State())) ==> State() == ShutDown(old(State()))
    {
      hide ClosePass, CloseLeft, Idle, ShutDown, Sound, Flushed;
      ghost var x := State();
      ClosePassStart(x);
      var i: nat := |filters|;
      while i > 0
        invariant i <= |filters| && Tied() && ClosePass(x, State(), i)
      {
        var open := CloseUnlessClosed(filters[i - 1], i - 1, x);
        if open { return; }
        i := i - 1;
      }
      ClosePassDone(x, State());
    }

    method AnyWriteClosed() returns (b: bool)
      requires Tied()
      ensures b <==> exists i :: 0 <= i < |layers| && layers[i].writeClosed
    {
      for i := 0 to |filters|
        invariant forall j :: 0 <= j < i ==> !layers[j].writeClosed
      {
        assert layers[i] == filters[i].State();
        if filters[i].writeClosed { return true; }
      }
      return false;
    }

    method IsReadClosed() returns (b: bool)
      requires Tied()
      ensures b <==> forall i :: 0 <= i < |layers| ==> layers[i].readClosed
    {
      var i: nat := |filters|;
      while i > 0
        invariant i <= |filters|
        invariant forall j :: i <= j < |layers| ==> layers[j].readClosed
      {
        i := i - 1;
        assert layers[i] == filters[i].State();
        if !filters[i].readClosed { return false; }
      }
      return true;
    }

    method IsWriteClosed() returns (b: bool)
      requires Tied()
      ensures b <==> forall i :: 0 <= i < |layers| ==> layers[i].writeClosed
    {
      for i := 0 to |filters|
        invariant forall j :: 0 <= j < i ==> layers[j].writeClosed
      {
        assert layers[i] == filters[i].State();
        if !filters[i].writeClosed { return false; }
      }
      return true;
    }

    method DoClose()
      requires Tied() && Closable(State())
      modifies `pendingWrites, `inFlight, `entry, `shouldClose, `readyEvents, `script, `transit
      modifies `layers, filters`pendingOut, filters`writeClosed, filters`readClosed, filters`sent, filters`used
      ensures Tied() && CloseLeft(old(State()), State()) && HandedOver(old(State()), State())
      ensures old(script) == [] ==> script == [] && State().inbox.calls == old(State()).inbox.calls
      ensures old(script) == [] && Idle(old(State())) ==> script == [] && State() == ShutDown(old(State()))
    {
      hide Sound, Closable, CloseLeft, HandedOver, WriteLeft, Quiet, Idle, ShutDown, Flushed;
      ghost var x := State();
      var noFlush := AnyWriteClosed();
      ClosableOpen(x, noFlush);
      if !noFlush { DoWrite(); }
      ghost var y := State();
      FlushedBeforeClosing(x, y, noFlush);
      CloseFilters();
      CloseAfterWrite(x, y, State());
    }

    // The list is never empty here: Create has added the TCP filter.
    method PushBack(filter: Filter)
      requires Tied() && filter !in filters
      modifies `filters, `layers, Top()`next, filter`prev, filter`order
      ensures Tied() && filters == old(filters) + [filter] && layers == old(layers) + [filter.State()]
      ensures filter.State() == old(filter.State()) && filter.next == old(filter.next)
      ensures old(Top()).next == filter && filter.prev == old(Top())
      ensures forall i {:trigger filters[i].next} :: 0 <= i < |filters| - 2 ==> filters[i].next == old(filters[i].next)
      ensures forall i {:trigger filters[i].prev} :: 0 <= i < |filters| - 1 ==> filters[i].prev == old(filters[i].prev)
    {
      var prev := filters[|filters| - 1];
      prev.next := filter;
      filter.prev := prev;
      filter.order := prev.order + 1;
      filters := filters + [filter];
      layers := layers + [filter.State()];
    }

    method Append(filter: Filter)
      requires Tied() && Linked() && filter.next == null && !filter.tcp && filter !in filters
      modifies `filters, `layers, Top()`next, filter`prev, filter`order
      ensures Tied() && Linked() && filters == old(filters) + [filter] && layers == old(layers) + [old(filter.State())]
    {
      hide Filter.State;
      PushBack(filter);
    }

    // The source throws where this returns false.
    method AddStreamBufferFilter(filter: Filter) returns (allowed: bool)
      requires Tied() && Linked() && filter.IsNew() && !filter.tcp && filter !in filters
      modifies `filters, `layers, `addFilterAllowed, Top()`next, filter`prev, filter`order
      ensures Tied() && Linked() && allowed == old(State().addFilterAllowed)
      ensures if allowed then filters == old(filters) + [filter] && State() == Added(old(State()))
              else filters == old(filters) && State() == old(State())
    {
      if !addFilterAllowed { return false; }
      hide Tied, Linked;
      addFilterAllowed := false;
      Append(filter);
      return true;
    }

    method MarkConnected()
      requires Tied()
      modifies `layers, `addFilterAllowed, `callbacks, filters`connected
      ensures Tied() && State() == Connected(old(State()))
    {
      var filter := filters[|filters| - 1];
      filter.connected := true;
      layers := layers[|filters| - 1 := filter.State()];
      addFilterAllowed := true;
      callbacks := callbacks + [OnConnected];
    }

    method MarkFailed()
      requires Tied()
      modifies `layers, `connectFailed, filters`readClosed, filters`writeClosed
      ensures Tied() && State() == ConnectFailed(old(State()))
    {
      var filter := filters[|filters| - 1];
      filter.readClosed := true;
      filter.writeClosed := true;
      layers := layers[|filters| - 1 := filter.State()];
      connectFailed := true;
    }

    method Attempt() returns (r: ConnectResult)
      requires Tied() && Linked()
      modifies filters`handshakes
      ensures Tied() && State() == old(State()) && State().layers != []
      ensures State().Top().tcp ==> r == if Reachable() then Success else Failed
      ensures Top().handshakes == HandshakeAfter(old(Top().handshakes))
    {
      var filter := filters[|filters| - 1];
      if clientMode { r := filter.Connect(); } else { r := filter.Accept(); }
    }

    // Clients connect, servers accept.
    ghost function HandshakeAfter(h: Handshakes): Handshakes {
      if clientMode then h.(connects := h.connects + 1) else h.(accepts := h.accepts + 1)
    }

    method FinishConnect()
      modifies `addFilterAllowed, `modifyEvents
      ensures State() == old(State()).(addFilterAllowed := false) && modifyEvents == old(modifyEvents) + 1
    {
      addFilterAllowed := false;
      modifyEvents := modifyEvents + 1;
    }

    // The success branch of DoConnect. If `add`, the user adds the filter `upgrade` in HandleConnected.
    method Establish(upgrade: Filter, add: bool)
      requires Tied() && Linked() && Connectable(State())
      requires upgrade.IsNew() && !upgrade.tcp && upgrade !in filters
      modifies `pendingWrites, `inFlight, `entry, `shouldClose, `readyEvents, `script
      modifies `layers, `addFilterAllowed, `callbacks, `filters, `modifyEvents
      modifies filters`connected, filters`next, upgrade`prev, upgrade`order
      ensures Tied() && Linked() && filters == old(filters) + if add then [upgrade] else []
      ensures Handled(State()) && ConnectLeft(old(State()), State(), add) && Onward(old(State()), State())
      ensures modifyEvents == old(modifyEvents) + 1
      ensures old(script) == [] ==> script == [] && State().inbox.calls == old(State()).inbox.calls
    {
      hide Sound, Onward, Interfered, Filled, Connected, Added, State, Tied, Linked, Handled, Connectable;
      hide ConnectLeft, ConnectRun, Filter.State, Filter.IsNew, Inbox;
      ghost var x := State();
      MarkConnected();
      ConnectedFilled(x);
      Yield();
      ghost var y := State();
      InterferedFilled(Connected(x), y);
      if add {
        var allowed := AddStreamBufferFilter(upgrade);
        AddedFilled(y);
      }
      Yield();
      ghost var z := State();
      FinishConnect();
      ConnectRunKeeps(x, y, add, z, State());
    }

    method DoConnect(upgrade: Filter, add: bool) returns (r: ConnectResult)
      requires Tied() && Linked() && Connectable(State())
      requires upgrade.IsNew() && !upgrade.tcp && upgrade !in filters
      modifies this, filters, upgrade
      ensures Tied() && Linked() && Handled(State()) && Onward(old(State()), State())
      ensures filters == old(filters) + if r == Success && add then [upgrade] else []
      ensures old(State()).layers != []
      ensures old(State()).Top().tcp ==> r == if old(Reachable()) then Success else Failed
      ensures old(filters) != [] && old(Top()).handshakes == HandshakeAfter(old(Top().handshakes))
      ensures old(script) == [] ==> script == [] && State().inbox.calls == old(State()).inbox.calls
      ensures r == Pending ==> State() == old(State())
      ensures r == Failed ==> State() == ConnectFailed(old(State()))
      ensures r == Success ==> ConnectLeft(old(State()), State(), add)
      ensures modifyEvents == old(modifyEvents) + if r == Success then 1 else 0
      ensures closeEvents == old(closeEvents) && eofCalled == old(eofCalled)
    {
      hide Sound, Onward, Tied, Connected, Handled, ConnectLeft, ConnectFailed, State, Connectable;
      hide Filter.State, Filter.IsNew, Inbox;
      ghost var x := State();
      ConnectableFacts(x);
      r := Attempt();
      match r
      case Failed => MarkFailed();
      case Success => Establish(upgrade, add);
      case Pending =>
    }

    method CloseOnReadClosed()
      requires Tied() && Handled(State())
      modifies `pendingWrites, `inFlight, `entry, `shouldClose, `readyEvents, `script, `transit
      modifies `layers, filters`pendingOut, filters`writeClosed, filters`readClosed, filters`sent, filters`used
      ensures Tied() && Settled(State()) && HandledOn(old(State()), State()) && Finished(old(State()), State())
      ensures old(script) == [] ==> script == [] && State().inbox.calls == old(State()).inbox.calls
      ensures old(script) == [] && Idle(old(State())) && !old(State()).inbox.shouldClose ==>
        (old(State()).Top().readClosed ==> AllClosed(State().layers))
      ensures old(State()).inbox.shouldClose ==> State() == old(State()) && script == old(script)
    {
      hide Sound, Onward, HandledOn, Settled, Handled, Closable, CloseLeft, HandedOver, Finished;
      ghost var x := State();
      if !shouldClose && filters[|filters| - 1].readClosed {
        shouldClose := true;
        CloseRequested(x);
        DoClose();
        CloseRequestServed(x, State());
      } else {
        assert layers[|layers| - 1] == filters[|filters| - 1].State();
        HandledSettled(x);
      }
    }

    method CallEof()
      requires Tied() && Settled(State()) && AllClosed(State().layers) && !State().eofCalled
      modifies `pendingWrites, `inFlight, `entry, `shouldClose, `readyEvents, `script
      modifies `eofCalled, `callbacks, `closeEvents
      ensures Tied() && Settled(State()) && HandledOn(old(State()), State()) && EndCalled(State())
      ensures State().layers == old(State()).layers
      ensures old(script) == [] ==> script == [] && State().inbox.calls == old(State()).inbox.calls
      ensures closeEvents == old(closeEvents) + 1 && eofCalled
      ensures old(script) == [] ==> script == [] && State() == Ended(old(State()))
    {
      hide Sound, Onward, Interfered, Filled, Tied, AllClosed, Settled, HandledOn, EndCalled;
      ghost var x := State();
      eofCalled := true;
      callbacks := callbacks + [OnEof];
      EndedFilled(x);
      assert State() == Ended(x);
      Yield();
      EndRunKeeps(x, State());
      closeEvents := closeEvents + 1;
    }

    method CallEofIfClosed()
      requires Tied() && Settled(State())
      modifies `pendingWrites, `inFlight, `entry, `shouldClose, `readyEvents, `script
      modifies `eofCalled, `callbacks, `closeEvents
      ensures Tied() && Settled(State()) && HandledOn(old(State()), State()) && EndCalled(State())
      ensures State().layers == old(State()).layers
      ensures old(script) == [] ==> script == [] && State().inbox.calls == old(State()).inbox.calls
      ensures closeEvents == old(closeEvents) + if eofCalled && !old(eofCalled) then 1 else 0
      ensures old(script) == [] && AllClosed(old(State()).layers) && !old(State()).eofCalled ==>
        script == [] && State() == Ended(old(State()))
    {
      hide Settled, HandledOn, EndCalled, Ended;
      SettledStays(State());
      var readClosed := IsReadClosed();
      var writeClosed := IsWriteClosed();
      if readClosed && writeClosed && !eofCalled {
        CallEof();
      }
    }

    method DoFinalize()
      requires Tied() && Handled(State())
      modifies `pendingWrites, `inFlight, `entry, `shouldClose, `readyEvents, `script, `transit
      modifies `layers, filters`pendingOut, filters`writeClosed, filters`readClosed, filters`sent, filters`used, `eofCalled, `callbacks, `closeEvents
      ensures Tied() && Settled(State()) && HandledOn(old(State()), State()) && EndCalled(State())
      ensures Finished(old(State()), State())
      ensures old(script) == [] ==> script == [] && State().inbox.calls == old(State()).inbox.calls
      ensures old(script) == [] && Idle(old(State())) && !old(State()).inbox.shouldClose ==>
        (old(State()).Top().readClosed ==> AllClosed(State().layers))
      ensures closeEvents == old(closeEvents) + if eofCalled && !old(eofCalled) then 1 else 0
      ensures old(script) == [] && old(State()).inbox.shouldClose ==>
        (AllClosed(old(State()).layers) && !old(State()).eofCalled ==> script == [] && State() == Ended(old(State())))
    {
      hide *;
      ghost var x := State();
      HandledFilled(x);
      Yield();
      ghost var y := State();
      HandledMeddled(x, y);
      CloseOnReadClosed();
      ghost var z := State();
      HandledOnTwice(x, y, z);
      CallEofIfClosed();
      HandledOnTwice(x, z, State());
      FinishedAround(x, y, z, State());
    }

    method IsConnected() returns (b: bool)
      requires Tied()
      ensures State().layers != [] && b == State().Top().connected
    {
      return filters[|filters| - 1].connected;
    }

    method ReadAndWrite(ghost g: Given)
      requires Tied() && Serving(State()) && g.arrivals == Arrivals()
      modifies `callbacks, `pendingWrites, `inFlight, `entry, `shouldClose, `readyEvents, `script, `transit
      modifies `layers, filters`arrivals, filters`got, filters`readClosed, filters`used
      modifies filters`pendingOut, filters`writeClosed, filters`sent
      ensures Tied() && Handled(State()) && ServedOpen(old(State()), State())
      ensures Moved(old(State()), State(), g, Arrivals())
      ensures old(script) == [] ==> script == [] && State().inbox.calls == old(State()).inbox.calls
      ensures old(script) == [] && Idle(old(State())) ==> Idle(State())
    {
      hide *;
      ghost var x := State();
      ServingQuiet(x);
      DoRead();
      ghost var y := State();
      ReadLeftQuiet(x, y, g.arrivals, Arrivals());
      IdleReading(x, y, g.arrivals, Arrivals());
      DoWrite();
      ReadWriteKeeps(x, y, State(), g, Arrivals());
    }

    // The stream is connecting or connected, and not closing.
    method Serve(upgrade: Filter, add: bool)
      requires Tied() && Linked() && Settled(State()) && !State().inbox.shouldClose
      requires upgrade.IsNew() && !upgrade.tcp && upgrade !in filters
      modifies this, filters, upgrade
      ensures Tied() && Linked() && Handled(State()) && ServedOpen(old(State()), State())
      ensures Moved(old(State()), State(), old(Situation(add)), Arrivals())
      ensures old(script) == [] ==> script == [] && State().inbox.calls == old(State()).inbox.calls
      ensures old(script) == [] && Idle(old(State())) && old(State()).Top().connected ==> Idle(State())
      ensures filters == old(filters) || filters == old(filters) + [upgrade]
      ensures closeEvents == old(closeEvents) && eofCalled == old(eofCalled)
    {
      hide *;
      ghost var x, g := State(), Situation(add);
      SettledFilled(x);
      Yield();
      ghost var y := State();
      SettledOpen(x, y);
      SettledMeddled(x, y);
      var connected := IsConnected();
      if connected {
        ReadAndWrite(g);
      } else {
        var r := DoConnect(upgrade, add);
        ConnectMoves(y, State(), r, g, Arrivals());
      }
      OpenServed(x, y, State(), g, Arrivals());
    }

    method Dispatch(upgrade: Filter, add: bool)
      requires Tied() && Linked() && Settled(State())
      requires upgrade.IsNew() && !upgrade.tcp && upgrade !in filters
      modifies this, filters, upgrade
      ensures Tied() && Linked() && Handled(State()) && State().layers != []
      ensures old(State()).layers != [] && Dispatched(old(State()), State())
      ensures State().inbox.shouldClose || Moved(old(State()), State(), old(Situation(add)), Arrivals())
      ensures old(script) == [] ==> script == [] && State().inbox.calls == old(State()).inbox.calls
      ensures old(script) == [] && Idle(old(State())) && old(State()).Top().connected && !old(State()).inbox.shouldClose ==>
        Idle(State())
      ensures filters == old(filters) || filters == old(filters) + [upgrade]
      ensures old(script) == [] && Idle(old(State())) && old(State()).inbox.shouldClose ==>
        script == [] && State() == ShutDown(old(State()))
      ensures closeEvents == old(closeEvents) && eofCalled == old(eofCalled)
    {
      hide *;
      ghost var x, g := State(), Situation(add);
      SettledFilled(x);
      Yield();
      ghost var y := State();
      SettledMeddled(x, y);
      var closing := ShouldClose();
      if closing {
        DoClose();
        CloseDispatched(x, y, State());
      } else {
        Serve(upgrade, add);
        OpenDispatched(x, y, State(), g, Arrivals());
      }
    }

    // `alive`: the weak pointer to the user's handler can still be locked.
    method HandleEvents(alive: bool, upgrade: Filter, add: bool)
      requires Tied() && Linked() && Settled(State())
      requires upgrade.IsNew() && !upgrade.tcp && upgrade !in filters
      modifies this, filters, upgrade
      ensures Tied() && Linked()
      ensures !alive ==> State() == old(State()) && closeEvents == old(closeEvents) + 1
      ensures old(State()).layers != [] && (alive ==> ServedBy(old(State()), State()))
      ensures alive ==> Advanced(old(State()), State(), old(Situation(add)), Arrivals())
      ensures old(script) == [] ==> script == [] && State().inbox.calls == old(State()).inbox.calls
      ensures filters == old(filters) || filters == old(filters) + [upgrade]
      // A closing stream over TCP alone with nothing to send ends in one undisturbed call.
      ensures alive && old(script) == [] && Idle(old(State())) && old(State()).inbox.shouldClose ==>
        (!old(State()).eofCalled ==> State() == Ended(ShutDown(old(State()))))
      // And so does an open one whose input ends.
      ensures alive && old(script) == [] && Idle(old(State())) && !old(State()).inbox.shouldClose ==>
        (old(State()).Top().connected && InputEnds(old(Arrivals())) ==> State().eofCalled)
      ensures alive ==> closeEvents == old(closeEvents) + if eofCalled && !old(eofCalled) then 1 else 0
    {
      hide *;
      ghost var x, g := State(), Situation(add);
      SettledFilled(x);
      IdleShutDown(x);
      if !alive {
        CloseEvent();
        return;
      }
      Dispatch(upgrade, add);
      ghost var y := State();
      InputEnded(x, y, g, Arrivals());
      DoFinalize();
      EndIsCalled(State());
      FinalizeServes(x, y, State());
      MovedAdvances(x, y, State(), g, Arrivals());
    }
  }
}
