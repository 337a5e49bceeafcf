/**
 * The sending side of a Peer as a state machine: senders, the scheduler goroutine and fail interleave freely,
 * one step per locked section (peer.go, send, schedule and fail).
 */
module Sender {
  import opened Common
  import opened Frames
  import opened PeerLimits
  import opened Outbound
  import opened Scheduler

  /** Where the scheduler goroutine is. Failing: it saw a write error and is about to call fail and return. */
  datatype Phase = Idle | Sending(request: Request) | Failing | Stopped

  /** Logs: requests admitted, selected, answered by the scheduler, and answered by fail. */
  datatype State = State(
    queues: Queues,
    sched: Sched,
    closed: bool,
    phase: Phase,
    accepted: seq<Request>,
    selected: seq<Request>,
    completed: seq<Request>,
    dropped: seq<Request>)

  const INIT := State(EMPTY, START, false, Idle, [], [], [], [])

  datatype Event =
    | Send(frame: Frame, kind: TrafficClass)
    | Pass                // the scheduler's locked pass
    | Sent(ok: bool)      // the connection answered the scheduler, which answers the request
    | Fail                // fail called by anybody
    | Return              // the scheduler calls fail after an error and returns
    | Done                // the parked scheduler sees the closed done channel

  function Flatten(streams: map<U64, Stream>, order: seq<U64>): seq<Request> {
    if |order| == 0 then []
    else (if order[0] in streams then streams[order[0]].queue else []) + Flatten(streams, order[1..])
  }

  function FailNow(s: State): State {
    if s.closed then s
    else s.(queues := EMPTY, closed := true, dropped := s.dropped + Flatten(s.queues.streams, s.queues.order))
  }

  function Admitted(c: Limits, s: State, r: Request): bool {
    Admit(c, s.queues, s.closed, r).Admitted?
  }

  function Step(c: Limits, s: State, e: Event): State {
    match e
    case Send(frame, kind) =>
      var r := Request(|s.accepted|, frame, kind);
      if Admitted(c, s, r) then s.(queues := Push(s.queues, r), accepted := s.accepted + [r]) else s
    case Pass =>
      if !s.phase.Idle? then s
      else
        var r := Select(c, s.queues, s.sched);
        if r.request.Some? then
          s.(queues := r.queues, sched := r.sched,
             phase := Sending(r.request.value), selected := s.selected + [r.request.value])
        else s.(queues := r.queues, sched := r.sched, phase := if s.closed then Stopped else Idle)
    case Sent(ok) =>
      if !s.phase.Sending? then s
      else s.(phase := if ok then Idle else Failing, completed := s.completed + [s.phase.request])
    case Fail => FailNow(s)
    case Return => if s.phase.Failing? then FailNow(s).(phase := Stopped) else s
    case Done => if s.phase.Idle? && s.closed then s.(phase := Stopped) else s
  }

  function Run(c: Limits, events: seq<Event>): State {
    if |events| == 0 then INIT else Step(c, Run(c, events[..|events| - 1]), events[|events| - 1])
  }

  // ----- What every step keeps ---------------------------------------------------

  function InFlight(s: State): seq<Request> {
    if s.phase.Sending? then [s.phase.request] else []
  }

  /** On every stream: what was admitted is what was selected, then what is queued, then what fail dropped. */
  ghost predicate Ordered(s: State) {
    forall id :: OnStream(s.accepted, id)
              == OnStream(s.selected, id) + QueueOf(s.queues, id) + OnStream(s.dropped, id)
  }

  ghost predicate Ticketed(s: State) {
    forall i :: 0 <= i < |s.accepted| ==> s.accepted[i].ticket == i
  }

  ghost predicate Inv(c: Limits, s: State) {
    && Valid(c, s.queues)
    && SchedOk(c, s.sched)
    && (!s.closed ==> CursorOk(s.queues, s.sched.cursor))
    && (s.closed ==> s.queues == EMPTY)
    && (!s.closed ==> s.dropped == [])
    && s.selected == s.completed + InFlight(s)
    && Ordered(s)
    && Ticketed(s)
  }

  lemma {:induction false} FlattenOnStream(c: Limits, streams: map<U64, Stream>, order: seq<U64>, id: U64)
    requires NoDup(order) && forall x :: x in order ==> x in streams && StreamOk(c, x, streams[x])
    ensures OnStream(Flatten(streams, order), id) == if id in order then streams[id].queue else []
  {
    if |order| > 0 {
      FlattenOnStream(c, streams, order[1..], id);
      assert order[0] in order;
      OnStreamConcat(streams[order[0]].queue, Flatten(streams, order[1..]), id);
      OnStreamUniform(streams[order[0]].queue, order[0], id);
      assert id in order <==> id == order[0] || id in order[1..];
    }
  }

  lemma PushOrdered(s: State, r: Request)
    requires Ordered(s) && s.dropped == []
    ensures Ordered(s.(queues := Push(s.queues, r), accepted := s.accepted + [r]))
  {
    var t := s.(queues := Push(s.queues, r), accepted := s.accepted + [r]);
    forall id
      ensures OnStream(t.accepted, id) == OnStream(t.selected, id) + QueueOf(t.queues, id) + OnStream(t.dropped, id)
    {
      OnStreamAppend(s.accepted, r, id);
      PushAppends(s.queues, r, id);
      assert OnStream(s.dropped, id) == [];
      assert OnStream(s.accepted, id) == OnStream(s.selected, id) + QueueOf(s.queues, id);
    }
  }

  lemma SendKeeps(c: Limits, s: State, r: Request)
    requires c.Ok() && Inv(c, s) && r.ticket == |s.accepted| && Admitted(c, s, r)
    ensures Inv(c, s.(queues := Push(s.queues, r), accepted := s.accepted + [r]))
  {
    PushValid(c, s.queues, r);
    PushOrdered(s, r);
  }

  lemma TakeOrdered(s: State, i: nat)
    requires Ordered(s) && i < |s.queues.order|
    requires s.queues.order[i] in s.queues.streams && |s.queues.streams[s.queues.order[i]].queue| > 0
    requires Head(s.queues, i).Id() == s.queues.order[i]
    ensures Ordered(s.(queues := TakeAt(s.queues, i), selected := s.selected + [Head(s.queues, i)]))
  {
    hide OnStream, QueueOf, TakeAt;
    var r, q := Head(s.queues, i), TakeAt(s.queues, i);
    var t := s.(queues := q, selected := s.selected + [r]);
    forall id
      ensures OnStream(t.accepted, id) == OnStream(t.selected, id) + QueueOf(t.queues, id) + OnStream(t.dropped, id)
    {
      OnStreamAppend(s.selected, r, id);
      TakeAtPops(s.queues, i, id);
      var h := if id == r.Id() then [r] else [];
      assert OnStream(s.selected, id) + (h + QueueOf(q, id)) == (OnStream(s.selected, id) + h) + QueueOf(q, id);
    }
  }

  lemma PassKeeps(c: Limits, s: State)
    requires c.Ok() && Inv(c, s) && s.phase.Idle?
    ensures Inv(c, Step(c, s, Pass))
  {
    var r := Select(c, s.queues, s.sched);
    var i := SelectionOk(c, s.queues, s.sched);
    if !s.closed {
      ScanCursorOk(c, s.queues, s.sched, 0);
    }
    if r.request.Some? {
      HeadOnOwnStream(c, s.queues, i);
      TakeOrdered(s, i);
    }
  }

  lemma FailKeeps(c: Limits, s: State)
    requires c.Ok() && Inv(c, s)
    ensures Inv(c, FailNow(s))
  {
    hide OnStream, Flatten;
    if !s.closed {
      EmptyValid(c);
      OnNoStream();
      var t := FailNow(s);
      assert t.dropped == Flatten(s.queues.streams, s.queues.order);
      forall id
        ensures OnStream(t.accepted, id) == OnStream(t.selected, id) + QueueOf(t.queues, id) + OnStream(t.dropped, id)
      {
        FlattenOnStream(c, s.queues.streams, s.queues.order, id);
        assert OnStream(s.dropped, id) == [];
      }
    }
  }

  /** What one step does to the scheduler's phase and to its log of selections. */
  lemma StepSelects(c: Limits, s: State, e: Event)
    ensures
      var t := Step(c, s, e);
      if t.phase.Sending? && s.phase.Idle? then t.selected == s.selected + [t.phase.request]
      else
        && t.selected == s.selected
        && (t.phase == s.phase || t.phase.Stopped?
            || (s.phase.Sending? && e.Sent? && t.phase == if e.ok then Idle else Failing))
    ensures Step(c, s, e).phase.Stopped? ==> s.phase.Stopped? || s.phase.Failing? || s.phase.Idle?
    ensures Step(c, s, e).phase.Sending? && s.phase.Idle? ==> e.Pass?
  {
  }

  lemma StepKeeps(c: Limits, s: State, e: Event)
    requires c.Ok() && Inv(c, s)
    ensures Inv(c, Step(c, s, e))
  {
    match e
    case Send(frame, kind) =>
      var r := Request(|s.accepted|, frame, kind);
      if Admitted(c, s, r) {
        SendKeeps(c, s, r);
      }
    case Pass =>
      if s.phase.Idle? {
        PassKeeps(c, s);
      }
    case Fail => FailKeeps(c, s);
    case Return => FailKeeps(c, s);
    case Sent(ok) =>
    case Done =>
  }

  lemma {:induction false} RunKeeps(c: Limits, events: seq<Event>)
    requires c.Ok()
    ensures Inv(c, Run(c, events))
  {
    if |events| == 0 {
      EmptyValid(c);
    } else {
      RunKeeps(c, events[..|events| - 1]);
      StepKeeps(c, Run(c, events[..|events| - 1]), events[|events| - 1]);
    }
  }

  /** In every run and on every stream, the scheduler serves a prefix of what was admitted, in order. */
  lemma SelectionIsFifo(c: Limits, events: seq<Event>, id: U64)
    requires c.Ok()
    ensures OnStream(Run(c, events).selected, id) <= OnStream(Run(c, events).accepted, id)
  {
    RunKeeps(c, events);
    var s := Run(c, events);
    assert OnStream(s.accepted, id) == OnStream(s.selected, id) + (QueueOf(s.queues, id) + OnStream(s.dropped, id));
  }

  /** In every run before fail the rotating cursor is in range, through every in-place removal. */
  lemma CursorInRange(c: Limits, events: seq<Event>)
    requires c.Ok() && !Run(c, events).closed
    ensures
      var s := Run(c, events);
      if s.queues.order == [] then s.sched.cursor == 0 else s.sched.cursor < |s.queues.order|
  {
    RunKeeps(c, events);
  }

  // ----- Exactly one outcome --------------------------------------------------------

  lemma {:induction false} OnStreamCounts(s: seq<Request>, r: Request)
    ensures multiset(OnStream(s, r.Id()))[r] == multiset(s)[r]
  {
    if |s| > 0 {
      OnStreamCounts(s[..|s| - 1], r);
      assert s == s[..|s| - 1] + [s[|s| - 1]];
    }
  }

  lemma {:induction false} TicketedCounts(s: seq<Request>, r: Request)
    requires forall i :: 0 <= i < |s| ==> s[i].ticket == i
    ensures multiset(s)[r] == if r in s then 1 else 0
  {
    if |s| > 0 {
      TicketedCounts(s[..|s| - 1], r);
      assert s == s[..|s| - 1] + [s[|s| - 1]];
      assert r in s <==> r in s[..|s| - 1] || r == s[|s| - 1];
    }
  }

  /** How many values have been put in the request's result slot so far. */
  function Outcomes(s: State, r: Request): nat {
    multiset(s.completed)[r] + multiset(s.dropped)[r]
  }

  /** The places an admitted request can still be waiting in. */
  function Waiting(s: State, r: Request): nat {
    multiset(InFlight(s))[r] + multiset(QueueOf(s.queues, r.Id()))[r]
  }

  /**
   * Over all interleavings: a request that was admitted is in exactly one place, waiting or answered; one that
   * was not admitted is nowhere. So a capacity-one result slot never gets a second value.
   */
  lemma OutcomeAccounting(c: Limits, events: seq<Event>, r: Request)
    requires c.Ok()
    ensures
      var s := Run(c, events);
      Outcomes(s, r) + Waiting(s, r) == if r in s.accepted then 1 else 0
  {
    RunKeeps(c, events);
    var s := Run(c, events);
    TicketedCounts(s.accepted, r);
    OnStreamCounts(s.accepted, r);
    OnStreamCounts(s.selected, r);
    OnStreamCounts(s.dropped, r);
    assert OnStream(s.accepted, r.Id())
        == OnStream(s.selected, r.Id()) + QueueOf(s.queues, r.Id()) + OnStream(s.dropped, r.Id());
    assert multiset(s.selected)[r] == multiset(s.completed)[r] + multiset(InFlight(s))[r];
  }

  /** Once fail has run and the scheduler has stopped, every admitted request has exactly one outcome. */
  lemma EveryRequestIsAnswered(c: Limits, events: seq<Event>, r: Request)
    requires c.Ok()
    requires Run(c, events).closed && Run(c, events).phase.Stopped? && r in Run(c, events).accepted
    ensures Outcomes(Run(c, events), r) == 1
  {
    RunKeeps(c, events);
    OutcomeAccounting(c, events, r);
  }

  /** The scheduler stops only after fail, so stopping alone already means everything is answered. */
  lemma {:induction false} StoppedMeansClosed(c: Limits, events: seq<Event>)
    requires c.Ok()
    ensures Run(c, events).phase.Stopped? ==> Run(c, events).closed
  {
    if |events| > 0 {
      StoppedMeansClosed(c, events[..|events| - 1]);
    }
  }
}
