/**
  Wakeups: a producer signals the eventfd only when the queue it pushed to was empty, and the loop zeroes the
  eventfd's counter before it swaps the three queues one by one. No interleaving strands a queued element.
 */
module Wakeups {
  import opened Protocol

  // epoll_wait would report the eventfd.
  predicate Signalled(q: Queues) {
    q.edge && q.counter > 0
  }

  // The loop has yet to swap the add queue in this pass: the eventfd's record lies ahead in the batch, or is
  // being handled.
  predicate DrainAhead(l: Loop) {
    || (l.phase == Scanning && PENDING_FD in Rest(Fds(l.records), l.next))
    || l.phase == Draining
    || l.phase == Drained
  }

  predicate LoopShape(l: Loop) {
    && l.next <= |l.records|
    && (l.running != Nobody ==> l.phase == Scanning || l.phase == Adding || l.phase == Readying)
    && (l.stage == Stopping || l.stage == Sweeping || l.stage == Finished ==>
      l.phase == AtCheck && l.running == Nobody)
  }

  predicate NoQueueStranded(q: Queues, l: Loop) {
    && (q.add != [] ==> Signalled(q) || DrainAhead(l))
    && (q.remove != [] ==> Signalled(q) || DrainAhead(l) || l.phase == Adding)
    && (q.ready != [] ==> Signalled(q) || DrainAhead(l) || l.phase == Adding || l.phase == Removing)
  }

  predicate StopHeard(q: Queues, l: Loop) {
    && (q.stopSignalled ==> q.stop)
    && (l.phase == InWait && (l.stage == LastPass || q.stopSignalled) ==> Signalled(q))
  }

  predicate Wake(q: Queues, l: Loop) {
    LoopShape(l) && NoQueueStranded(q, l) && StopHeard(q, l)
  }

  lemma CallWakes(s: State, a: CallAction)
    requires CallEnabled(s, a) && Wake(s.q, s.l)
    ensures var t := CallStep(s, a); Wake(t.q, t.l)
  {
  }

  lemma ControlWakes(s: State, a: ControlAction)
    requires ControlEnabled(s, a) && Wake(s.q, s.l)
    ensures var t := ControlStep(s, a); Wake(t.q, t.l)
  {
    if a.Collect? {
      assert Rest(Fds(a.records), 0) == Fds(a.records);
    }
  }

  lemma HandleWakes(s: State, a: HandleAction)
    requires HandleEnabled(s, a) && Wake(s.q, s.l)
    ensures var t := HandleStep(s, a); Wake(t.q, t.l)
  {
    if a.ScanRecord? {
      var fds := Fds(s.l.records);
      assert Rest(fds, s.l.next) == [fds[s.l.next]] + Rest(fds, s.l.next + 1);
    }
  }

  // In every run: whatever is queued, the loop does not sleep on it, nor on a stop request that has been
  // signalled; and the last pass after the sweep does not sleep at all.
  lemma {:induction false} RunWakes(run: seq<Action>)
    requires Legal(run)
    ensures var s := After(run); Wake(s.q, s.l)
    decreases |run|
  {
    if run != [] {
      var n := |run| - 1;
      RunWakes(run[..n]);
      match run[n]
      case Life(o) =>
      case Call(c) => CallWakes(After(run[..n]), c);
      case Control(t) => ControlWakes(After(run[..n]), t);
      case Handle(w) => HandleWakes(After(run[..n]), w);
    }
  }

  lemma NeverSleepsOnWork(run: seq<Action>)
    requires Legal(run)
    ensures var s := After(run);
      s.fault == NoFault && s.l.phase == InWait
      && (s.q.add != [] || s.q.remove != [] || s.q.ready != [] || s.q.stopSignalled || s.l.stage == LastPass)
      ==> Enabled(s, Control(Collect([Record(PENDING_FD, {Read})])))
  {
    RunWakes(run);
  }
}
