/**
  The one exception the loop thread can end with. The add queue is swapped before the remove queue, in two
  separate locked sections (lib/epoll.cc:154-155), so an event attached and closed between the two swaps is
  removed before it was added, and RemoveFinalize throws "event not found".
 */
module EarlyRemovals {
  import opened Protocol
  import opened Runs

  // In every run, the next step of any thread throws exactly when it finalizes the removal of an event with a
  // descriptor whose add is still queued or about to be queued.
  lemma ThrowsExactlyOnEarlyRemoval(run: seq<Action>, a: Action)
    requires Legal(run) && Enabled(After(run), a)
    ensures Step(After(run), a).fault != NoFault <==> a == Handle(FinalizeRemove) && EarlyRemoval(After(run))
    ensures Step(After(run), a).fault != NoFault ==> Step(After(run), a).fault == EventNotFound
  {
    RunInvariant(run);
    StepKeeps(After(run), a);
  }

  lemma Take(run: seq<Action>, a: Action) returns (longer: seq<Action>)
    requires Legal(run) && Enabled(After(run), a)
    ensures Legal(longer) && After(longer) == Step(After(run), a)
  {
    longer := run + [a];
    assert longer[..|run|] == run;
  }

  const PLAIN: Handler := Handler(-1, false, Alive, true, Added, Unset, false)

  // A handler without a descriptor is attached while the loop waits.
  lemma OneAttached() returns (run: seq<Action>)
    ensures Legal(run)
    ensures After(run).o == Objects([PLAIN], {0}, {}) && After(run).r == START.r && After(run).fault == NoFault
    ensures After(run).q == Queues([0], [], [], 1, true, false, false)
    ensures After(run).l == START.l.(phase := InWait)
  {
    run := Take([], Life(Construct(-1, false)));
    run := Take(run, Call(CreateEvent(0)));
    run := Take(run, Call(PushAdd(0)));
    assert After(run).o.handlers == [PLAIN];
    run := Take(run, Control(CheckStop));
  }

  lemma WokenUp() returns (run: seq<Action>)
    ensures Legal(run)
    ensures After(run).o == Objects([PLAIN], {0}, {}) && After(run).r == START.r && After(run).fault == NoFault
    ensures After(run).q == Queues([0], [], [], 1, false, false, false)
    ensures After(run).l.Free(Draining)
  {
    run := OneAttached();
    var records := [Record(PENDING_FD, {Read})];
    assert Fds(records) == [PENDING_FD];
    run := Take(run, Control(Collect(records)));
    run := Take(run, Handle(ScanRecord));
  }

  // The loop has called the handler and is about to swap the remove queue.
  lemma BetweenSwaps() returns (run: seq<Action>)
    ensures Legal(run) && After(run).fault == NoFault
    ensures After(run).o == Objects([PLAIN], {0}, {}) && After(run).r == START.r
    ensures After(run).q == Queues([], [], [], 0, false, false, false)
    ensures After(run).l.Free(Adding) && After(run).l.pos == |After(run).l.batch|
  {
    run := WokenUp();
    run := Take(run, Control(ReadCounter));
    run := Take(run, Control(CounterEmpty));
    run := Take(run, Control(SwapAdd));
    run := Take(run, Handle(FinalizeAdd));
    run := Take(run, Handle(Return));
  }

  // Then another thread attaches a handler with a descriptor, and closes it at once.
  lemma AttachedAndClosed() returns (run: seq<Action>)
    ensures Legal(run) && After(run).fault == NoFault
    ensures After(run).o.handlers == [PLAIN, Handler(7, false, Alive, true, Added, Done, false)]
    ensures After(run).q.remove == [1] && After(run).r.fdTable == map[]
    ensures After(run).l.Free(Adding) && After(run).l.pos == |After(run).l.batch|
  {
    run := BetweenSwaps();
    run := Take(run, Life(Construct(7, false)));
    run := Take(run, Call(CreateEvent(1)));
    run := Take(run, Call(PushAdd(1)));
    run := Take(run, Call(BeginClose(1)));
    run := Take(run, Call(EndClose(1)));
  }

  // A run in which attaching a handler and closing it at once makes the loop thread throw.
  lemma AttachAndCloseCanThrow() returns (run: seq<Action>)
    ensures Legal(run) && After(run).fault == EventNotFound
  {
    run := AttachedAndClosed();
    run := Take(run, Control(SwapRemove));
    run := Take(run, Handle(FinalizeRemove));
  }
}
