/**
 * The Peer's single `changed` channel as an epoch counter: signalLocked closes the current channel and installs a
 * new one, so a goroutine parked on an older epoch is awake. Nobody sleeps on the current epoch with its condition
 * already true (peer.go, send, dispatch, runInbound, schedule and signalLocked).
 */
module Wakeups {
  import opened Common
  import opened Frames
  import opened PeerLimits
  import opened Outbound
  import opened Scheduler
  import Inbound

  datatype Waiter =
    | Sending(request: Request)   // send, blocked on full queues
    | Reading(frame: Frame)       // dispatch, blocked by backpressure
    | Scheduling                  // schedule, with nothing to do

  datatype Parked = Parked(waiter: Waiter, epoch: nat)

  datatype State = State(
    queues: Queues,
    sched: Sched,
    inbound: Inbound.State,
    closed: bool,
    epoch: nat,
    parked: map<nat, Parked>)

  const INIT := State(EMPTY, START, Inbound.INIT, false, 0, map[])

  /** Running the waiter's locked section now would not make it wait. */
  predicate Enabled(c: Limits, s: State, w: Waiter) {
    match w
    case Sending(r) => !Admit(c, s.queues, s.closed, r).Full?
    case Reading(f) => Inbound.Verdicts(c, s.inbound, f) != Inbound.Wait
    case Scheduling => Select(c, s.queues, s.sched).request.Some? || s.closed
  }

  datatype Event =
    | Park(name: nat, waiter: Waiter)
    | Wake(name: nat)                        // for any reason, including a canceled context
    | Offer(request: Request)
    | Take
    | Arrive(frame: Frame)                   // by the one reader, so not while it is parked
    | Work(cell: nat)
    | HandlerReturns(cell: nat, ok: bool)
    | Register(types: set<U16>)
    | Fail

  predicate ReaderParked(s: State) {
    exists n :: n in s.parked && s.parked[n].waiter.Reading?
  }

  function Signal(s: State): State {
    s.(epoch := s.epoch + 1)
  }

  function Step(c: Limits, s: State, e: Event): State {
    match e
    case Park(n, w) =>
      if Enabled(c, s, w) then s else s.(parked := s.parked[n := Parked(w, s.epoch)])
    case Wake(n) => s.(parked := s.parked - {n})
    case Offer(r) =>
      if Admit(c, s.queues, s.closed, r).Admitted? then Signal(s.(queues := Push(s.queues, r))) else s
    case Take =>
      var p := Select(c, s.queues, s.sched);
      if p.request.Some? then Signal(s.(queues := p.queues, sched := p.sched))
      else s.(sched := p.sched)
    case Arrive(f) => if ReaderParked(s) then s else s.(inbound := Inbound.Dispatch(c, s.inbound, f))
    case Work(i) =>
      var t := s.(inbound := Inbound.Work(s.inbound, i));
      if i < |s.inbound.cells| && s.inbound.cells[i].phase.Free? && |s.inbound.cells[i].frames| > 0
      then Signal(t) else t
    case HandlerReturns(i, ok) => s.(inbound := Inbound.Step(c, s.inbound, Inbound.HandlerReturns(i, ok)))
    case Register(types) => s.(inbound := Inbound.Step(c, s.inbound, Inbound.Register(types)))
    case Fail =>
      if s.closed then s
      else Signal(s.(queues := EMPTY, closed := true, inbound := s.inbound.(closed := true)))
  }

  function Run(c: Limits, events: seq<Event>): State {
    if |events| == 0 then INIT else Step(c, Run(c, events[..|events| - 1]), events[|events| - 1])
  }

  // ----- What every step keeps -------------------------------------------------------

  ghost predicate Asleep(s: State, n: nat) {
    n in s.parked && s.parked[n].epoch == s.epoch
  }

  ghost predicate NoneMissed(c: Limits, s: State) {
    && (forall n :: n in s.parked ==> s.parked[n].epoch <= s.epoch)
    && (forall n :: Asleep(s, n) ==> !Enabled(c, s, s.parked[n].waiter))
  }

  ghost predicate Inv(c: Limits, s: State) {
    && Valid(c, s.queues) && Inbound.Inv(c, s.inbound) && s.inbound.closed == s.closed
    && NoneMissed(c, s)
  }

  /** A retiring worker frees no room a reader waits for: a waiting reader's stream has a non-empty backlog. */
  lemma RetireWakesNobody(c: Limits, s: Inbound.State, i: nat, f: Frame)
    requires c.Ok() && Inbound.Inv(c, s) && Inbound.Verdicts(c, s, f) == Inbound.Wait
    requires i < |s.cells| && s.cells[i].phase.Free? && |s.cells[i].frames| == 0
    ensures Inbound.Verdicts(c, Inbound.Work(s, i), f) == Inbound.Wait
  {
    Inbound.WaitingHasAWorker(c, s, f);
    assert Inbound.CellOk(c, s, i);
  }

  lemma QuietWorkKeeps(c: Limits, s: State, i: nat)
    requires c.Ok() && Inv(c, s) && i < |s.inbound.cells|
    requires s.inbound.cells[i].phase.Free? && |s.inbound.cells[i].frames| == 0
    ensures NoneMissed(c, s.(inbound := Inbound.Work(s.inbound, i)))
  {
    hide Admit, Select, Inbound.Work, Inbound.Verdicts, Inbound.Inv, Valid;
    var t := s.(inbound := Inbound.Work(s.inbound, i));
    forall n | Asleep(t, n)
      ensures !Enabled(c, t, t.parked[n].waiter)
    {
      assert Asleep(s, n);
      var w := s.parked[n].waiter;
      if w.Reading? {
        RetireWakesNobody(c, s.inbound, i, w.frame);
      }
    }
  }

  /** Steps that do not touch what the waiters look at. */
  lemma UnrelatedKeeps(c: Limits, s: State, t: State)
    requires NoneMissed(c, s)
    requires t.queues == s.queues && t.closed == s.closed && t.epoch == s.epoch && t.parked == s.parked
    requires forall f :: Inbound.Verdicts(c, s.inbound, f) == Inbound.Wait ==>
                           Inbound.Verdicts(c, t.inbound, f) == Inbound.Wait
    requires t.sched == s.sched || s.closed || !Enabled(c, t, Scheduling)
    ensures NoneMissed(c, t)
  {
    hide Admit, Select, Inbound.Verdicts;
    forall n | Asleep(t, n)
      ensures !Enabled(c, t, t.parked[n].waiter)
    {
      assert Asleep(s, n);
    }
  }

  lemma ArriveKeeps(c: Limits, s: State, f: Frame)
    requires c.Ok() && Inv(c, s) && !ReaderParked(s)
    ensures Inv(c, s.(inbound := Inbound.Dispatch(c, s.inbound, f)))
  {
    hide Admit, Select, Inbound.Dispatch, Inbound.Verdicts, Inbound.Inv, Valid;
    Inbound.DispatchKeeps(c, s.inbound, f);
    Inbound.DispatchNeverCloses(c, s.inbound, f);
    var t := s.(inbound := Inbound.Dispatch(c, s.inbound, f));
    forall n | Asleep(t, n)
      ensures !Enabled(c, t, t.parked[n].waiter)
    {
      assert Asleep(s, n);
    }
  }

  lemma WorkIdle(s: Inbound.State, i: nat)
    ensures Inbound.Work(s, i).closed == s.closed
    ensures !(i < |s.cells| && s.cells[i].phase.Free?) ==> Inbound.Work(s, i) == s
  {
  }

  lemma WorkKeeps(c: Limits, s: State, i: nat)
    requires c.Ok() && Inv(c, s)
    ensures Inv(c, Step(c, s, Work(i)))
  {
    hide Enabled, Inbound.Work, Inbound.Inv, Valid;
    Inbound.StepKeeps(c, s.inbound, Inbound.Pass(i));
    WorkIdle(s.inbound, i);
    if i < |s.inbound.cells| && s.inbound.cells[i].phase.Free? && |s.inbound.cells[i].frames| == 0 {
      QuietWorkKeeps(c, s, i);
    }
  }

  lemma PhaseOrHandlersKeep(c: Limits, s: State, e: Inbound.Event)
    requires c.Ok() && Inv(c, s) && (e.HandlerReturns? || e.Register?)
    ensures Inv(c, s.(inbound := Inbound.Step(c, s.inbound, e)))
  {
    hide Select, Inbound.Inv, Valid;
    Inbound.StepKeeps(c, s.inbound, e);
    UnrelatedKeeps(c, s, s.(inbound := Inbound.Step(c, s.inbound, e)));
  }

  lemma TakeKeeps(c: Limits, s: State)
    requires c.Ok() && Inv(c, s)
    ensures Inv(c, Step(c, s, Take))
  {
    hide Scan, Inbound.Inv, Inbound.Verdicts, Valid;
    var i := SelectionOk(c, s.queues, s.sched);
    var p := Select(c, s.queues, s.sched);
    if p.request.None? {
      var j := SelectionOk(c, s.queues, p.sched);
      UnrelatedKeeps(c, s, s.(sched := p.sched));
    }
  }

  lemma StepKeeps(c: Limits, s: State, e: Event)
    requires c.Ok() && Inv(c, s)
    ensures Inv(c, Step(c, s, e))
  {
    hide Admit, Select, Inbound.Verdicts, Inbound.Inv, Inbound.Work, Inbound.Dispatch, Inbound.Step, Valid;
    match e
    case Park(n, w) => ParkKeeps(c, s, n, w);
    case Wake(n) => WakeKeeps(c, s, n);
    case Offer(r) => OfferKeeps(c, s, r);
    case Take => TakeKeeps(c, s);
    case Arrive(f) =>
      if !ReaderParked(s) {
        ArriveKeeps(c, s, f);
      }
    case Work(i) => WorkKeeps(c, s, i);
    case HandlerReturns(i, ok) => PhaseOrHandlersKeep(c, s, Inbound.HandlerReturns(i, ok));
    case Register(types) => PhaseOrHandlersKeep(c, s, Inbound.Register(types));
    case Fail => FailKeeps(c, s);
  }

  lemma OfferKeeps(c: Limits, s: State, r: Request)
    requires c.Ok() && Inv(c, s)
    ensures Inv(c, Step(c, s, Event.Offer(r)))
  {
    hide Select, Inbound.Verdicts, Inbound.Inv, Valid, Push;
    if Admit(c, s.queues, s.closed, r).Admitted? {
      PushValid(c, s.queues, r);
    }
  }

  lemma ParkKeeps(c: Limits, s: State, n: nat, w: Waiter)
    requires Inv(c, s)
    ensures Inv(c, Step(c, s, Park(n, w)))
  {
    hide Admit, Select, Inbound.Verdicts, Inbound.Inv, Valid;
    var t := Step(c, s, Park(n, w));
    forall m | Asleep(t, m)
      ensures !Enabled(c, t, t.parked[m].waiter)
    {
      if m != n {
        assert Asleep(s, m);
      }
    }
  }

  lemma WakeKeeps(c: Limits, s: State, n: nat)
    requires Inv(c, s)
    ensures Inv(c, Step(c, s, Wake(n)))
  {
    hide Admit, Select, Inbound.Verdicts, Inbound.Inv, Valid;
    var t := Step(c, s, Wake(n));
    forall m | Asleep(t, m)
      ensures !Enabled(c, t, t.parked[m].waiter)
    {
      assert Asleep(s, m);
    }
  }

  lemma FailKeeps(c: Limits, s: State)
    requires c.Ok() && Inv(c, s)
    ensures Inv(c, Step(c, s, Fail))
  {
    hide Admit, Select, Inbound.Verdicts, Inbound.Inv, Valid;
    EmptyValid(c);
    Inbound.RegisterKeeps(c, s.inbound, {});
  }

  lemma {:induction false} RunKeeps(c: Limits, events: seq<Event>)
    requires c.Ok()
    ensures Inv(c, Run(c, events))
  {
    if |events| == 0 {
      EmptyValid(c);
      Inbound.RunKeeps(c, []);
    } else {
      RunKeeps(c, events[..|events| - 1]);
      StepKeeps(c, Run(c, events[..|events| - 1]), events[|events| - 1]);
    }
  }

  /**
   * No lost wakeup: in every reachable state, a sender, the reader or the scheduler parked on the current
   * channel still has a false condition; whoever could proceed is parked on a channel already closed.
   */
  lemma NoLostWakeup(c: Limits, events: seq<Event>, n: nat)
    requires c.Ok() && n in Run(c, events).parked
    ensures
      var s := Run(c, events);
      var awake := s.parked[n].epoch < s.epoch;
      && s.parked[n].epoch <= s.epoch
      && match s.parked[n].waiter
         case Sending(r) => Admit(c, s.queues, s.closed, r) != Full ==> awake
         case Reading(f) => Inbound.Verdicts(c, s.inbound, f) != Inbound.Wait ==> awake
         case Scheduling => s.queues.frames > 0 || s.closed ==> awake
  {
    hide Run, Admit, Select, Inbound.Verdicts, Inbound.Inv, Valid;
    RunKeeps(c, events);
    var s := Run(c, events);
    assert Asleep(s, n) ==> !Enabled(c, s, s.parked[n].waiter);
    WorkConserving(c, s.queues, s.sched);
  }
}
