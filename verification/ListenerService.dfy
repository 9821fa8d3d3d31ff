/**
  A listener on the loop. StreamListener::HandleEvents (lib/stream_listener.cc:45-93) accepts at most `limit`
  connections per call, and is called on edges only; no connection is left in the backlog with nothing on its
  way that will make the listener accept it.
 */
module ListenerService {
  import opened Protocol
  import opened Wakeups
  import opened Ledger
  import opened Registrations
  import opened Runs
  import opened Notifications

  // Where HandleEvents is; `Accepting(i)` at the i-th iteration of the accept loop, `Reposting` past its end.
  datatype Place = Outside | Entered(events: Events) | Accepting(i: nat) | Reposting | Departing

  datatype Listener = Listener(backlog: nat, place: Place)

  datatype Joint = Joint(s: State, e: Listener)

  datatype Move =
    | Protocol(a: Action)
    | Arrive(n: nat)
    | Dispatch
    | Accept
    | AcceptFails(lost: bool)
    | AcceptBlocks
    | LimitReached
    | Repost
    | Leave

  // epoll_wait reports a listening socket readable exactly when a connection is waiting.
  predicate ReportsBacklog(s: State, e: Listener, a: Action, id: Id) {
    a.Control? && a.t.Collect? ==>
      forall i :: 0 <= i < |a.t.records| && a.t.records[i].fd == s.o.Of(id).fd ==>
        (Read in a.t.records[i].events <==> e.backlog > 0)
  }

  predicate MoveEnabled(j: Joint, m: Move, id: Id, limit: nat) {
    && j.s.fault == NoFault
    && match m
    case Protocol(a) => Enabled(j.s, a) && !OwnHandleAction(j.s, a, id) && ReportsBacklog(j.s, j.e, a, id)
    case Arrive(n) => n > 0 && j.s.r.Owns(id, j.s.o.Of(id).fd)
    case Dispatch => j.e.place.Entered?
    case Accept => j.e.place.Accepting? && j.e.place.i < limit && j.e.backlog > 0
    case AcceptFails(lost) => j.e.place.Accepting? && j.e.place.i < limit && (lost ==> j.e.backlog > 0)
    case AcceptBlocks => j.e.place.Accepting? && j.e.place.i < limit && j.e.backlog == 0
    case LimitReached => j.e.place.Accepting? && j.e.place.i >= limit
    case Repost => j.e.place == Reposting && CallEnabled(j.s, CallAction.PushReady(id, {Read}))
    case Leave => j.e.place == Departing && HandleEnabled(j.s, Return)
  }

  // The events the step passes to the handler it calls.
  function Passed(s: State, a: Action): Events
    requires Enabled(s, a)
  {
    match a
    case Handle(w) =>
      (match w
       case ScanRecord => s.l.records[s.l.next].events
       case FinalizeReady => s.l.readyBatch[s.l.pos].events
       case _ => {})
    case _ => {}
  }

  function MoveStep(j: Joint, m: Move, id: Id, limit: nat): Joint
    requires MoveEnabled(j, m, id, limit)
  {
    var s, e := j.s, j.e;
    match m
    case Protocol(a) =>
      var t := Step(s, a);
      var called := s.l.running == Nobody && t.l.running == Handling(id);
      Joint(t, if called then e.(place := Entered(Passed(s, a))) else e)
    case Arrive(n) => Joint(LifeStep(s, Activity(s.o.Of(id).fd)), e.(backlog := e.backlog + n))
    case Dispatch => j.(e := e.(place := if Read in e.place.events then Accepting(0) else Departing))
    case Accept => j.(e := e.(backlog := e.backlog - 1, place := Accepting(e.place.i + 1)))
    case AcceptFails(lost) =>
      j.(e := e.(backlog := if lost then e.backlog - 1 else e.backlog, place := Accepting(e.place.i + 1)))
    case AcceptBlocks => j.(e := e.(place := Departing))
    case LimitReached => j.(e := e.(place := Reposting))
    case Repost => Joint(CallStep(s, CallAction.PushReady(id, {Read})), e.(place := Departing))
    case Leave => Joint(HandleStep(s, Return), e.(place := Outside))
  }

  // Waiting connections have a notification on its way, or the accept loop running.
  predicate BacklogServed(e: Listener, served: bool, notified: bool) {
    served && e.backlog > 0 ==>
      || notified
      || (e.place.Entered? && Read in e.place.events)
      || e.place.Accepting?
      || e.place.Reposting?
  }

  predicate JointSound(j: Joint, id: Id) {
    && LoopSound(j.s)
    && (j.e.place != Outside <==> j.s.l.running == Handling(id))
    && BacklogServed(j.e, Served(j.s, id), Notified(j.s, id, {Read}))
  }

  lemma ProtocolServes(j: Joint, a: Action, id: Id, limit: nat)
    requires JointSound(j, id) && MoveEnabled(j, Protocol(a), id, limit)
    ensures JointSound(MoveStep(j, Protocol(a), id, limit), id)
  {
    hide Invariant, Tidy, Wake;
    LoopSoundStep(j.s, a);
    RunningStep(j.s, a, id);
    ServedBefore(j.s, a, id);
    if Served(j.s, id) && Notified(j.s, id, {Read}) && Registered(Step(j.s, a), id) {
      NotificationPersists(j.s, a, id, {Read});
    }
  }

  lemma ArriveServes(j: Joint, n: nat, id: Id, limit: nat)
    requires JointSound(j, id) && MoveEnabled(j, Arrive(n), id, limit)
    ensures JointSound(MoveStep(j, Arrive(n), id, limit), id)
  {
    LoopSoundStep(j.s, Life(Activity(j.s.o.Of(id).fd)));
  }

  lemma RepostServes(j: Joint, id: Id, limit: nat)
    requires JointSound(j, id) && MoveEnabled(j, Repost, id, limit)
    ensures JointSound(MoveStep(j, Repost, id, limit), id)
  {
    var k := MoveStep(j, Repost, id, limit);
    LoopSoundStep(j.s, Call(CallAction.PushReady(id, {Read})));
    assert k.s.q.ready[|j.s.q.ready|] == Ready(id, {Read});
    assert InReady(k.s.q.ready, 0, id, {Read});
  }

  lemma LeaveServes(j: Joint, id: Id, limit: nat)
    requires JointSound(j, id) && MoveEnabled(j, Leave, id, limit)
    ensures JointSound(MoveStep(j, Leave, id, limit), id)
  {
    LoopSoundStep(j.s, Handle(Return));
    var k := MoveStep(j, Leave, id, limit);
    assert k.s.r == j.s.r && k.s.q == j.s.q && k.s.l == j.s.l.(running := Nobody) && k.s.o == j.s.o;
  }

  lemma MoveServes(j: Joint, m: Move, id: Id, limit: nat)
    requires JointSound(j, id) && MoveEnabled(j, m, id, limit)
    ensures JointSound(MoveStep(j, m, id, limit), id)
  {
    match m
    case Protocol(a) => ProtocolServes(j, a, id, limit);
    case Arrive(n) => ArriveServes(j, n, id, limit);
    case Repost => RepostServes(j, id, limit);
    case Leave => LeaveServes(j, id, limit);
    case _ =>
  }

  predicate LegalMoves(moves: seq<Move>, id: Id, limit: nat)
    decreases |moves|, 0
  {
    moves == [] ||
    var n := |moves| - 1;
    LegalMoves(moves[..n], id, limit) && MoveEnabled(AfterMoves(moves[..n], id, limit), moves[n], id, limit)
  }

  function AfterMoves(moves: seq<Move>, id: Id, limit: nat): Joint
    requires LegalMoves(moves, id, limit)
    decreases |moves|, 1
  {
    if moves == [] then Joint(START, Listener(0, Outside))
    else
      var n := |moves| - 1;
      MoveStep(AfterMoves(moves[..n], id, limit), moves[n], id, limit)
  }

  lemma StartServes(id: Id)
    ensures JointSound(Joint(START, Listener(0, Outside)), id)
  {
    StartInvariant();
  }

  lemma {:induction false} MovesServe(moves: seq<Move>, id: Id, limit: nat)
    requires LegalMoves(moves, id, limit)
    ensures JointSound(AfterMoves(moves, id, limit), id)
    decreases |moves|
  {
    if moves == [] {
      StartServes(id);
    } else {
      var n := |moves| - 1;
      MovesServe(moves[..n], id, limit);
      MoveServes(AfterMoves(moves[..n], id, limit), moves[n], id, limit);
    }
  }

  // No connection is stranded: in every run, with any limit on the accepts per call, waiting connections of a
  // registered listener are served, and the loop does not block on them unless epoll owes an edge or the
  // eventfd is readable.
  lemma NoConnectionStranded(moves: seq<Move>, id: Id, limit: nat)
    requires LegalMoves(moves, id, limit)
    ensures var j := AfterMoves(moves, id, limit);
      && BacklogServed(j.e, Served(j.s, id), Notified(j.s, id, {Read}))
      && (Served(j.s, id) && j.e.backlog > 0 && j.s.l.phase == InWait && j.s.fault == NoFault
          ==> WillWake(j.s, id))
  {
    MovesServe(moves, id, limit);
    var j := AfterMoves(moves, id, limit);
    if j.s.fault == NoFault && j.s.l.phase == InWait && Notified(j.s, id, {Read}) { NotifiedWakes(j.s, id, {Read}); }
  }
}
