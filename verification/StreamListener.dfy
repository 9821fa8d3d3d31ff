/**
  StreamListener::HandleEvents (lib/stream_listener.cc:45-93). Connections may arrive and the user's handler may
  be destroyed while it runs: before each accept the next element of `script` happens. The errors of accept for
  which the source throws do not occur.
 */
module StreamListeners {
  import opened Protocol

  // What the kernel has waiting for accept: a connection, or one that has been aborted, which accept reports once
  // as an error the source skips.
  datatype Waiting = Connection(fd: Fd) | Aborted

  // `Fails`: the next accept fails with an error the source skips, and takes nothing.
  datatype Meanwhile = Arrives(w: Waiting) | HandlerDies | Fails | Nothing

  datatype Accepted = Took(w: Waiting) | Failed | Empty

  function Connections(ws: seq<Waiting>): seq<Fd> {
    if ws == [] then []
    else
      var n := |ws| - 1;
      Connections(ws[..n]) + if ws[n].Connection? then [ws[n].fd] else []
  }

  lemma {:induction false} ConnectionsAppend(xs: seq<Waiting>, ys: seq<Waiting>)
    ensures Connections(xs + ys) == Connections(xs) + Connections(ys)
  {
    if ys == [] {
      assert xs + ys == xs;
    } else {
      var n := |ys| - 1;
      assert (xs + ys)[..|xs + ys| - 1] == xs + ys[..n];
      ConnectionsAppend(xs, ys[..n]);
    }
  }

  lemma ConnectionsOne(xs: seq<Waiting>, w: Waiting)
    ensures Connections(xs + [w]) == Connections(xs) + if w.Connection? then [w.fd] else []
  {
    assert (xs + [w])[..|xs|] == xs;
  }

  class StreamListener {
    const limit: int                 // listen_starvation_limit_
    var handlerAlive: bool
    var script: seq<Meanwhile>
    var failing: bool
    var backlog: seq<Waiting>
    var handled: seq<Fd>             // calls of HandleNewConnection
    var readyEvents: nat             // calls of ReadyEvent(Events::Read)

    ghost var queued: seq<Waiting>   // everything that ever arrived
    ghost var taken: seq<Waiting>    // what accept has returned
    ghost var missed: seq<Fd>        // accepted when the user's handler was gone
    ghost var accepts: nat           // calls of accept that did not find the backlog empty

    ghost predicate Valid()
      reads this
    {
      && queued == taken + backlog
      && Connections(taken) == handled + missed
      && (handlerAlive ==> missed == [])
    }

    // What a listener has done since.
    ghost predicate Since(queued0: seq<Waiting>, taken0: seq<Waiting>, handled0: seq<Fd>)
      reads this
    {
      && queued0 <= queued && taken0 <= taken && handled0 <= handled
      && (handlerAlive ==> handled == handled0 + Connections(taken[|taken0|..]))
    }

    constructor (limit: int)
      ensures Valid() && this.limit == limit && backlog == [] && handled == [] && readyEvents == 0 && handlerAlive
    {
      this.limit := limit;
      handlerAlive, script, failing, backlog, handled, readyEvents := true, [], false, [], [], 0;
      queued, taken, missed, accepts := [], [], [], 0;
    }

    method Interfere()
      requires Valid()
      modifies `script, `backlog, `queued, `handlerAlive, `failing
      ensures Valid() && old(queued) <= queued && old(backlog) <= backlog
      ensures handlerAlive ==> old(handlerAlive)
    {
      if script == [] { return; }
      match script[0]
      case Arrives(w) =>
        backlog, queued := backlog + [w], queued + [w];
        assert queued == taken + backlog;
      case HandlerDies => handlerAlive := false;
      case Fails => failing := true;
      case Nothing =>
      script := script[1..];
    }

    // accept4; `Empty` is EAGAIN.
    method Accept() returns (r: Accepted)
      requires Valid()
      modifies `backlog, `taken, `failing, `accepts
      ensures old(failing) ==> r == Failed
      ensures !old(failing) ==> r == if old(backlog) == [] then Empty else Took(old(backlog)[0])
      ensures !failing && queued == taken + backlog
      ensures if r.Took? then taken == old(taken) + [r.w] else taken == old(taken)
      ensures accepts == old(accepts) + if r.Empty? then 0 else 1
      ensures r.Empty? ==> backlog == []
    {
      if failing {
        failing, accepts := false, accepts + 1;
        return Failed;
      }
      if backlog == [] { return Empty; }
      r := Took(backlog[0]);
      assert taken + [backlog[0]] + backlog[1..] == queued;
      taken, backlog, accepts := taken + [backlog[0]], backlog[1..], accepts + 1;
    }

    // One iteration of the loop: an accepted connection goes to the user's handler, if that still lives.
    method AcceptOne(ghost queued0: seq<Waiting>, ghost taken0: seq<Waiting>, ghost handled0: seq<Fd>)
      returns (empty: bool)
      requires Valid() && Since(queued0, taken0, handled0)
      modifies `script, `backlog, `queued, `handlerAlive, `failing, `taken, `accepts, `handled, `missed
      ensures Valid() && Since(queued0, taken0, handled0)
      ensures accepts == old(accepts) + if empty then 0 else 1
      ensures empty ==> backlog == [] && taken == old(taken)
    {
      hide Connections;
      Interfere();
      ghost var before := taken;
      var r := Accept();
      if r.Took? {
        ConnectionsOne(before, r.w);
        ConnectionsOne(before[|taken0|..], r.w);
        assert taken[|taken0|..] == before[|taken0|..] + [r.w];
        if r.w.Connection? {
          ghost var h, m, c := handled, missed, Connections(before[|taken0|..]);
          if handlerAlive { handled := handled + [r.w.fd]; } else { missed := missed + [r.w.fd]; }
          assert h + m + [r.w.fd] == if handlerAlive then h + [r.w.fd] + m else h + (m + [r.w.fd]);
          assert handled0 + (c + [r.w.fd]) == handled0 + c + [r.w.fd];
        } else {
          assert handled + missed + [] == handled + missed;
          assert Connections(before[|taken0|..]) + [] == Connections(before[|taken0|..]);
        }
      }
      empty := r.Empty?;
    }

    // Accepts in the order of arrival. Either the backlog has been seen empty, or the limit is reached and the
    // listener has posted itself a read event.
    method HandleEvents(events: Events)
      requires Valid()
      modifies this
      ensures Valid() && Since(old(queued), old(taken), old(handled))
      ensures Read !in events ==>
        taken == old(taken) && backlog == old(backlog) && handled == old(handled) && readyEvents == old(readyEvents)
      ensures Read in events ==>
        if accepts - old(accepts) < limit then backlog == [] && readyEvents == old(readyEvents)
        else accepts - old(accepts) == (if limit < 0 then 0 else limit) && readyEvents == old(readyEvents) + 1
    {
      assert handled + Connections(taken[|taken|..]) == handled;
      if Read !in events { return; }
      hide Valid, Since;
      var i := 0;
      while i < limit
        invariant Valid() && Since(old(queued), old(taken), old(handled))
        invariant 0 <= i && (0 < limit ==> i <= limit) && (limit <= 0 ==> i == 0)
        invariant accepts == old(accepts) + i && readyEvents == old(readyEvents)
      {
        var empty := AcceptOne(old(queued), old(taken), old(handled));
        if empty { return; }
        i := i + 1;
      }
      PostRead();
    }

    method PostRead()
      modifies `readyEvents
      ensures readyEvents == old(readyEvents) + 1 && (old(Valid()) ==> Valid())
      ensures forall q, t, h :: old(Since(q, t, h)) ==> Since(q, t, h)
    {
      readyEvents := readyEvents + 1;
    }
  }

  // Over any number of calls no connection is accepted twice or skipped: those given to the user's handler, those
  // accepted after it was destroyed, and those still waiting are the ones that arrived, in order.
  lemma NothingLost(l: StreamListener)
    requires l.Valid()
    ensures Connections(l.queued) == l.handled + l.missed + Connections(l.backlog)
    ensures l.handlerAlive ==> Connections(l.queued) == l.handled + Connections(l.backlog)
  {
    ConnectionsAppend(l.taken, l.backlog);
  }
}
