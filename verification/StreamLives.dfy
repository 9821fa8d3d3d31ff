/**
  Whole lives of a stream: what its calls of HandleEvents, with other threads acting between them and inside them,
  add up to.
 */
module StreamLives {
  import opened DataViews
  import opened Streams

  datatype Turn = Others | Served

  // Either other threads (and calls of HandleEvents without a handler) have acted, or HandleEvents has run.
  predicate Turned(x: Stream, y: Stream, t: Turn) {
    match t
    case Others => Interfered(x, y)
    case Served => x.layers != [] && ServedBy(x, y)
  }

  predicate Runs(states: seq<Stream>, turns: seq<Turn>) {
    && |states| == |turns| + 1
    && forall i :: 0 <= i < |turns| ==> Turned(states[i], states[i + 1], turns[i])
  }

  // What holds of a new stream holds at every point of its life, and between any two points flags are only set,
  // bytes only accepted and sent, and callbacks only added; none is added after HandleEOF.
  lemma {:induction false} RunKeeps(states: seq<Stream>, turns: seq<Turn>)
    requires Runs(states, turns) && Settled(states[0])
    ensures Settled(states[|turns|]) && Onward(states[0], states[|turns|])
    decreases |turns|
  {
    if turns != [] {
      var n := |turns| - 1;
      RunKeeps(states[..n + 1], turns[..n]);
      TurnKeeps(states[n], states[n + 1], turns[n]);
      OnwardTwice(states[0], states[n], states[n + 1]);
    }
  }

  lemma TurnKeeps(x: Stream, y: Stream, t: Turn)
    requires Settled(x) && Turned(x, y, t)
    ensures Settled(y) && Onward(x, y)
  {
    if t.Others? { SettledMeddled(x, y); }
  }

  // The same between any two points of a life.
  lemma RunBetween(states: seq<Stream>, turns: seq<Turn>, i: nat)
    requires Runs(states, turns) && Settled(states[0]) && i <= |turns|
    ensures Runs(states[i..], turns[i..]) && Settled(states[i]) && states[i].layers != []
    ensures Onward(states[i], states[|turns|])
  {
    hide Turned, Onward, Settled;
    RunKeeps(states[..i + 1], turns[..i]);
    RunKeeps(states[i..], turns[i..]);
    SettledFilled(states[i]);
  }

  // The close measure

  // The calls of HandleEvents in which nothing stalled.
  function Moving(states: seq<Stream>, turns: seq<Turn>): nat
    requires |states| == |turns| + 1
  {
    if turns == [] then 0
    else
      var n := |turns| - 1;
      Moving(states[..n + 1], turns[..n]) + if turns[n].Served? && !Stalled(states[n], states[n + 1]) then 1 else 0
  }

  // All calls of HandleEvents.
  function Calls(turns: seq<Turn>): nat {
    if turns == [] then 0 else Calls(turns[..|turns| - 1]) + if turns[|turns| - 1].Served? then 1 else 0
  }

  lemma TurnProgress(x: Stream, y: Stream, t: Turn)
    requires Settled(x) && x.inbox.shouldClose && Turned(x, y, t)
    ensures Settled(y) && y.inbox.shouldClose && x.layers != [] && y.layers != []
    ensures (x.eofCalled ==> y.eofCalled) && |x.Top().consumed| <= |y.Top().consumed|
    ensures y.eofCalled || |y.Top().consumed| >= |x.Top().consumed| + if t.Served? && !Stalled(x, y) then 1 else 0
  {
    hide NoBypass, TopDown, Conserved, Drained, Called;
    TurnKeeps(x, y, t);
  }

  lemma {:induction false} MovingProgress(states: seq<Stream>, turns: seq<Turn>)
    requires Runs(states, turns) && Settled(states[0]) && states[0].inbox.shouldClose
    ensures Settled(states[|turns|]) && states[|turns|].inbox.shouldClose
    ensures states[|turns|].eofCalled
      || |states[|turns|].Top().consumed| >= |states[0].Top().consumed| + Moving(states, turns)
    decreases |turns|
  {
    hide Turned, Stalled, Sound;
    if turns != [] {
      var n := |turns| - 1;
      MovingProgress(states[..n + 1], turns[..n]);
      TurnProgress(states[n], states[n + 1], turns[n]);
    }
  }

  // A closing stream reaches its end of file: with n bytes to send, more than n calls of HandleEvents in which
  // nothing stalls are enough, whatever the number of filters, however many other calls stall, and whatever
  // other threads do in between.
  lemma ReachesEof(states: seq<Stream>, turns: seq<Turn>)
    requires Runs(states, turns) && Settled(states[0]) && states[0].inbox.shouldClose
    ensures var s := states[|turns|];
      Settled(s) && (|states[0].Top().consumed| + Moving(states, turns) > |s.inbox.accepted| ==> s.eofCalled)
  {
    RunKeeps(states, turns);
    MovingProgress(states, turns);
  }

  lemma TurnStalls(x: Stream, y: Stream, t: Turn)
    requires Settled(x) && x.inbox.shouldClose && |x.layers| == 1 && Turned(x, y, t)
    ensures Settled(y) && y.inbox.shouldClose && |y.layers| == 1
    ensures x.Top().stalls + (if t.Served? && Stalled(x, y) then 1 else 0) <= y.Top().stalls
  {
    hide NoBypass, TopDown, Conserved, Drained, Called, Accounted;
    TurnKeeps(x, y, t);
  }

  lemma {:induction false} StallsCounted(states: seq<Stream>, turns: seq<Turn>)
    requires Runs(states, turns) && Settled(states[0]) && states[0].inbox.shouldClose && |states[0].layers| == 1
    ensures |states[|turns|].layers| == 1 && states[|turns|].inbox.shouldClose && Settled(states[|turns|])
    ensures Calls(turns) + states[0].Top().stalls <= Moving(states, turns) + states[|turns|].Top().stalls
    decreases |turns|
  {
    hide Turned, Stalled, Settled;
    if turns != [] {
      var n := |turns| - 1;
      StallsCounted(states[..n + 1], turns[..n]);
      TurnStalls(states[n], states[n + 1], turns[n]);
    }
  }

  // Over TCP alone every call either moves bytes towards the end or meets an EAGAIN: the end of file is reached
  // as soon as there have been more calls than bytes to send and EAGAINs together.
  lemma TcpReachesEof(states: seq<Stream>, turns: seq<Turn>)
    requires Runs(states, turns) && Settled(states[0]) && states[0].inbox.shouldClose
    requires |states[0].layers| == 1 && states[0].Top().tcp
    ensures var s := states[|turns|];
      && Settled(s) && s.Top().stalls >= states[0].Top().stalls
      && var stalls := s.Top().stalls - states[0].Top().stalls;
      (|states[0].Top().consumed| + Calls(turns) > |s.inbox.accepted| + stalls ==> s.eofCalled)
  {
    RunKeeps(states, turns);
    StallsCounted(states, turns);
    ReachesEof(states, turns);
  }

  // Which writes are sent

  // A life that ended with HandleEOF and without failures.
  predicate EndedWell(s: Stream) {
    s.eofCalled && s.layers != [] && !s.Top().failed && !s.connectFailed
  }

  // The call that closes the top filter hands over what had been accepted before it.
  lemma ClosingHandsOver(x: Stream, y: Stream, t: Turn, s: Stream)
    requires Settled(x) && Turned(x, y, t) && Settled(y) && Onward(y, s) && EndedWell(s)
    requires !x.Top().writeClosed && y.Top().writeClosed
    ensures x.inbox.accepted <= s.Top().Stream()
  {
    hide Sound;
    assert t.Served? && !Unclosed(y);
    assert HandedOver(x, y);
  }

  lemma EndSends(s: Stream)
    requires Settled(s) && EndedWell(s)
    ensures s.Top().writeClosed && s.Top().Stream() == s.Top().consumed
  {
    GracefulClose(s);
  }

  lemma TurnAccepts(x: Stream, y: Stream, t: Turn)
    requires Settled(x) && Turned(x, y, t)
    ensures x.layers != [] && y.layers != [] && x.inbox.accepted <= y.inbox.accepted
  {
    TurnKeeps(x, y, t);
  }

  // What had been accepted when the top filter could still write has been sent in the end.
  lemma {:induction false} SentBeforeClosed(states: seq<Stream>, turns: seq<Turn>)
    requires Runs(states, turns) && Settled(states[0]) && !states[0].Top().writeClosed && EndedWell(states[|turns|])
    ensures states[|turns|].layers != [] && states[0].inbox.accepted <= states[|turns|].Top().consumed
    decreases |turns|
  {
    hide Turned, Sound, Interfered, Settled, Onward;
    var s := states[|turns|];
    RunKeeps(states, turns);
    EndSends(s);
    assert Turned(states[0], states[1], turns[0]);
    TurnAccepts(states[0], states[1], turns[0]);
    RunBetween(states, turns, 1);
    if states[1].Top().writeClosed {
      ClosingHandsOver(states[0], states[1], turns[0], s);
    } else {
      SentBeforeClosed(states[1..], turns[1..]);
    }
  }

  // A write pushed between two calls of HandleEvents is sent if and only if the top filter is not yet write
  // closed when it is pushed: then all of it is, otherwise not a byte.
  lemma SentIffOpen(states: seq<Stream>, turns: seq<Turn>, i: nat)
    requires Runs(states, turns) && Settled(states[0]) && EndedWell(states[|turns|])
    requires i < |turns| && turns[i].Others?
    ensures states[i].layers != [] && states[i].inbox.accepted <= states[i + 1].inbox.accepted
    ensures var sent := states[|turns|].Top().consumed;
      if states[i].Top().writeClosed then sent <= states[i].inbox.accepted
      else states[i + 1].inbox.accepted <= sent
    ensures states[i + 1].inbox.accepted != states[i].inbox.accepted ==>
      (states[i + 1].inbox.accepted <= states[|turns|].Top().consumed <==> !states[i].Top().writeClosed)
  {
    hide Settled, Sound, Interfered, Turned, Onward, Meddled, ServedBy;
    RunBetween(states, turns, i);
    RunBetween(states, turns, i + 1);
    PushedBetween(states[i], states[i + 1]);
    if states[i].Top().writeClosed {
      NothingMore(states[i], states[|turns|]);
    } else {
      SentBeforeClosed(states[i + 1..], turns[i + 1..]);
    }
  }

  lemma PushedBetween(x: Stream, y: Stream)
    requires Settled(x) && Turned(x, y, Others)
    ensures x.layers != [] && y.layers == x.layers && x.inbox.accepted <= y.inbox.accepted
  {
    SettledMeddled(x, y);
  }

  lemma NothingMore(x: Stream, y: Stream)
    requires Settled(x) && Onward(x, y) && x.Top().writeClosed
    ensures y.layers != [] && y.Top().consumed == x.Top().consumed <= x.inbox.accepted
  {
  }

  // A write pushed during a call of HandleEvents: sent if that call leaves the top filter open for writing, not
  // sent if it found it closed. Of the one call that closes it, what had been pushed before the call is sent, and
  // missing is exactly what lies in pending_writes_ after it: what was pushed after its swap.
  lemma SentDuringCall(states: seq<Stream>, turns: seq<Turn>, i: nat)
    requires Runs(states, turns) && Settled(states[0]) && EndedWell(states[|turns|])
    requires i < |turns| && turns[i].Served?
    ensures states[i].layers != [] && states[i + 1].layers != []
    ensures var x, y, sent := states[i], states[i + 1], states[|turns|].Top().consumed;
      && (x.Top().writeClosed ==> sent <= x.inbox.accepted)
      && (!x.Top().writeClosed ==> x.inbox.accepted <= sent)
      && (!y.Top().writeClosed ==> y.inbox.accepted <= sent)
      && (y.Top().writeClosed ==> sent + Bytes(y.inbox.pendingWrites) == y.inbox.accepted)
  {
    hide Settled, Sound, Turned, Onward;
    RunBetween(states, turns, i);
    RunBetween(states, turns, i + 1);
    if states[i].Top().writeClosed {
      NothingMore(states[i], states[|turns|]);
    } else {
      SentBeforeClosed(states[i..], turns[i..]);
    }
    if states[i + 1].Top().writeClosed {
      RestLost(states[i + 1], states[|turns|]);
    } else {
      SentBeforeClosed(states[i + 1..], turns[i + 1..]);
    }
  }

  lemma RestLost(x: Stream, s: Stream)
    requires Settled(x) && Onward(x, s) && x.Top().writeClosed && EndedWell(s)
    ensures s.Top().consumed + Bytes(x.inbox.pendingWrites) == x.inbox.accepted
  {
    assert !x.Top().failed && !x.connectFailed;
    assert x.Top().Stream() == x.Top().consumed + [];
    assert x.Top().Stream() + Bytes([]) + Bytes(x.inbox.pendingWrites) == x.Top().consumed + Bytes(x.inbox.pendingWrites);
  }

  // Graceful close, over the whole life of a stream.
  lemma RunGracefulClose(states: seq<Stream>, turns: seq<Turn>)
    requires Runs(states, turns) && Settled(states[0]) && EndedWell(states[|turns|])
    ensures var s := states[|turns|]; s.Top().consumed + Bytes(s.inbox.pendingWrites) == s.inbox.accepted
    ensures var s := states[|turns|]; !s.inbox.late ==> s.Top().consumed == s.inbox.accepted
  {
    RunKeeps(states, turns);
    GracefulClose(states[|turns|]);
  }

  // Graceful close: when HandleEOF has been called, no Out asked to close and connecting did not fail, what the
  // top filter has taken, followed by what still lies in pending_writes_, is what was accepted, in order. Nothing
  // lies there unless a write was pushed after should_close_ was set.
  lemma GracefulClose(s: Stream)
    requires Sound(s) && s.eofCalled && !s.Top().failed && !s.connectFailed
    ensures s.Top().consumed + Bytes(s.inbox.pendingWrites) == s.inbox.accepted
    ensures !s.inbox.late ==> s.Top().consumed == s.inbox.accepted
    ensures s.Top().consumed == s.inbox.accepted <==> s.inbox.pendingWrites == []
    ensures s.Top().Stream() == s.Top().consumed
  {
    var top := s.Top();
    assert top.Closed();
    assert top.Stream() == top.consumed + [];
    assert top.Stream() + Bytes([]) + Bytes(s.inbox.pendingWrites) == top.consumed + Bytes(s.inbox.pendingWrites);
    if s.inbox.pendingWrites != [] {
      assert s.inbox.pendingWrites[0] in s.inbox.pendingWrites;
    }
  }

  // How filters are closed

  // When HandleEOF has been called, every filter has had a complete Shutdown, except one that failed to connect,
  // and one that both an In and an Out have asked to close.
  lemma ShutDownAtEof(s: Stream, i: nat)
    requires Sound(s) && s.eofCalled && i < |s.layers| && s.layers[i].shutdowns == 0
    ensures (s.layers[i].ended && s.layers[i].failed) || (s.connectFailed && i == |s.layers| - 1)
  {
    assert ClosedBy(s.layers[i], s.connectFailed && i == |s.layers| - 1);
    assert s.layers[i].Closed();
  }

  // The exception is real: once an In and an Out have asked to close, before any Shutdown, none will follow, as
  // DoClose passes over the filter.
  lemma StaysWithoutShutdown(x: Stream, s: Stream, i: nat)
    requires Sound(x) && Onward(x, s) && i < |x.layers|
    requires x.layers[i].ended && x.layers[i].failed && x.layers[i].shutdowns == 0
    ensures s.layers[i].shutdowns == 0
  {
    assert ClosedBy(x.layers[i], x.connectFailed && i == |x.layers| - 1);
    assert x.layers[i].Closed();
  }
}
