/**
  The invariant of the protocol, kept by every step of every thread, and the one fault that can happen.
 */
module Runs {
  import opened Protocol
  import opened Wakeups
  import opened Ledger
  import opened Registrations

  // Ready elements name attached events, and keep them from being destroyed.
  predicate ReadyHeld(hs: seq<Handler>, es: seq<Ready>) {
    forall e :: e in es ==> e.id < |hs| && hs[e.id].attachment != Unattached && !hs[e.id].eventGone
  }

  predicate Invariant(s: State) {
    Sound(s) && ReadyHeld(s.o.handlers, s.q.ready) && ReadyHeld(s.o.handlers, s.l.readyBatch)
  }

  lemma LifeHoldsReady(s: State, a: LifeAction)
    requires Invariant(s) && LifeEnabled(s, a)
    ensures var t := LifeStep(s, a); ReadyHeld(t.o.handlers, t.q.ready) && ReadyHeld(t.o.handlers, t.l.readyBatch)
  {
    hide Sound;
    LifeKeepsEvents(s, a);
  }

  lemma LifeKeepsEvents(s: State, a: LifeAction)
    requires LifeEnabled(s, a)
    ensures LifeStep(s, a).q == s.q && LifeStep(s, a).l == s.l
    ensures var hs, hs' := s.o.handlers, LifeStep(s, a).o.handlers;
      && |hs| <= |hs'|
      && forall id :: 0 <= id < |hs| ==>
        && hs'[id].attachment == hs[id].attachment
        && (hs'[id].eventGone ==> hs[id].eventGone || !EventHeld(s, id))
  {
  }

  lemma CallHoldsReady(s: State, a: CallAction)
    requires Invariant(s) && CallEnabled(s, a)
    ensures var t := CallStep(s, a); ReadyHeld(t.o.handlers, t.q.ready) && ReadyHeld(t.o.handlers, t.l.readyBatch)
  {
    hide AddsBooked, RemovesBooked, Listed, TasksKept, GoneFinalized, Descriptors, Tables, Inside, Batch, EventHeld;
    if a.PushReady? { assert HandlerSound(s.o.handlers[a.id]); }
  }

  // The removal about to be finalized overtook its add: the add is still queued, or not even that.
  predicate EarlyRemoval(s: State) {
    s.l.pos < |s.l.batch| &&
    var id := s.l.batch[s.l.pos];
    s.o.Of(id).fd >= 0 && (id in s.q.add || s.o.Of(id).attachment == Created)
  }

  lemma EarlyRemovalMisses(s: State)
    requires Sound(s) && HandleEnabled(s, FinalizeRemove) && s.fault == NoFault
    ensures HandleStep(s, FinalizeRemove).fault == EventNotFound <==> EarlyRemoval(s)
  {
    RemoveFinds(s);
    FinalizeRemoveLogs(s);
    var id := s.l.batch[s.l.pos];
    assert HandlerSound(s.o.handlers[id]);
    QueuedNotDone(s, id);
  }

  // Between swaps of the add queue, an add is finalized, queued, or about to be queued.
  lemma QueuedNotDone(s: State, id: Id)
    requires Booked(s) && AddRest(s.l) == [] && id < |s.o.handlers| && s.o.Of(id).attachment != Unattached
    ensures id in s.h.addDone <==> !(id in s.q.add || s.o.Of(id).attachment == Created)
  {
    assert s.h.addLog == s.h.addDone + s.q.add;
    assert forall i, j :: 0 <= i < |s.h.addDone| && 0 <= j < |s.q.add| ==> s.h.addDone[i] != s.q.add[j] by {
      assert forall i :: 0 <= i < |s.h.addDone| ==> s.h.addLog[i] == s.h.addDone[i];
      assert forall j :: 0 <= j < |s.q.add| ==> s.h.addLog[|s.h.addDone| + j] == s.q.add[j];
    }
  }

  lemma LifeInvariant(s: State, a: LifeAction)
    requires Invariant(s) && LifeEnabled(s, a)
    ensures Invariant(LifeStep(s, a)) && LifeStep(s, a).fault == s.fault
  {
    LifeKeeps(s, a);
    LifeHoldsReady(s, a);
  }

  lemma CallInvariant(s: State, a: CallAction)
    requires Invariant(s) && CallEnabled(s, a)
    ensures Invariant(CallStep(s, a)) && CallStep(s, a).fault == s.fault
  {
    CallKeeps(s, a);
    CallHoldsReady(s, a);
  }

  lemma ControlInvariant(s: State, a: ControlAction)
    requires Invariant(s) && ControlEnabled(s, a)
    ensures Invariant(ControlStep(s, a)) && ControlStep(s, a).fault == s.fault
  {
    ControlKeeps(s, a);
  }

  lemma HandleInvariant(s: State, a: HandleAction)
    requires Invariant(s) && HandleEnabled(s, a) && s.fault == NoFault
    ensures Invariant(HandleStep(s, a))
    ensures HandleStep(s, a).fault == if a == FinalizeRemove && EarlyRemoval(s) then EventNotFound else NoFault
  {
    HandleKeeps(s, a);
    if a == FinalizeRemove { EarlyRemovalMisses(s); }
  }

  // The one-step theorem: the only thing that can go wrong is finalizing the removal of an event with a
  // descriptor whose add has not been finalized.
  lemma StepKeeps(s: State, a: Action)
    requires Invariant(s) && Enabled(s, a)
    ensures Invariant(Step(s, a))
    ensures Step(s, a).fault == if a == Handle(FinalizeRemove) && EarlyRemoval(s) then EventNotFound else NoFault
  {
    match a
    case Life(o) => LifeInvariant(s, o);
    case Call(c) => CallInvariant(s, c);
    case Control(t) => ControlInvariant(s, t);
    case Handle(w) => HandleInvariant(s, w);
  }

  lemma StartInvariant()
    ensures Invariant(START)
  {
    StartBooked();
    assert Descriptors(START.o.handlers, START.r.open);
    assert Tables(START.o.handlers, START.r, START.h);
    assert Batch(START.r, START.l, START.h);
    hide Booked, Descriptors, Tables, Batch;
  }

  lemma StartBooked()
    ensures Booked(START)
  {
    assert AddsBooked(START.o.handlers, START.q, START.l, START.h);
    assert RemovesBooked(START.o.handlers, START.q, START.l, START.h);
  }

  lemma {:induction false} RunInvariant(run: seq<Action>)
    requires Legal(run)
    ensures Invariant(After(run)) && (After(run).fault == NoFault || After(run).fault == EventNotFound)
    decreases |run|
  {
    if run == [] {
      StartInvariant();
    } else {
      var n := |run| - 1;
      var s, a := After(run[..n]), run[n];
      RunInvariant(run[..n]);
      StepKeeps(s, a);
    }
  }
}
