/** The weighted scheduler: six scans over three classes with credits and a rotating cursor (peer.go, schedule). */
module Scheduler {
  import opened Common
  import opened PeerLimits
  import opened Outbound

  /** The loop variables schedule() carries from one selection to the next; `turn` is classes[classIndex]. */
  datatype Sched = Sched(turn: TrafficClass, credit: int, cursor: nat)

  const START := Sched(Control, 0, 0)
  const SCANS := 6

  /** The next entry of the class list, wrapping at its end. */
  function After(kind: TrafficClass): TrafficClass {
    match kind
    case Control => Interactive
    case Interactive => Bulk
    case Bulk => Control
  }

  function Weight(c: Limits, kind: TrafficClass): int {
    match kind
    case Control => c.controlWeight
    case Interactive => c.interactiveWeight
    case Bulk => c.bulkWeight
  }

  function TotalWeight(c: Limits): int {
    c.controlWeight + c.interactiveWeight + c.bulkWeight
  }

  predicate SchedOk(c: Limits, s: Sched) {
    0 <= s.credit <= Weight(c, s.turn)
  }

  datatype Selection = Selection(request: Option<Request>, queues: Queues, sched: Sched)

  /** The credit a scan of the current class starts with. */
  function Credit(c: Limits, s: Sched): int {
    if s.credit == 0 then Weight(c, s.turn) else s.credit
  }

  /** The bookkeeping after one scan. */
  function AfterScan(c: Limits, s: Sched, p: Pick): Sched {
    var left := if p.request.Some? then Credit(c, s) - 1 else Credit(c, s);
    if p.request.None? || left == 0 then Sched(After(s.turn), 0, p.cursor)
    else Sched(s.turn, left, p.cursor)
  }

  function Scan(c: Limits, q: Queues, s: Sched, scans: nat): Selection
    decreases SCANS - scans
  {
    if scans >= SCANS then Selection(None, q, s)
    else
      var p := Take(q, s.turn, s.cursor);
      var s' := AfterScan(c, s, p);
      if p.request.Some? then Selection(p.request, p.queues, s') else Scan(c, p.queues, s', scans + 1)
  }

  function Select(c: Limits, q: Queues, s: Sched): Selection {
    Scan(c, q, s, 0)
  }

  /** The class a selection serves: the first with a ready head, starting from the one whose turn it is. */
  ghost function Winner(q: Queues, turn: TrafficClass): TrafficClass {
    if HasReady(q, turn) then turn else if HasReady(q, After(turn)) then After(turn) else After(After(turn))
  }

  /** The credits after serving `winner`. */
  function Spend(c: Limits, s: Sched, winner: TrafficClass): (TrafficClass, int) {
    var credit := if winner == s.turn then Credit(c, s) else Weight(c, winner);
    if credit == 1 then (After(winner), 0) else (winner, credit - 1)
  }

  /** A scan that finds nothing moves on to the next class. */
  lemma ScanMisses(c: Limits, q: Queues, s: Sched, scans: nat)
    requires !HasReady(q, s.turn) && scans < SCANS
    ensures Scan(c, q, s, scans) == Scan(c, q, Sched(After(s.turn), 0, Take(q, s.turn, s.cursor).cursor), scans + 1)
  {
    TakeFailsExactly(q, s.turn, s.cursor);
  }

  /** A scan that finds something serves the head of some stream. */
  lemma ScanHits(c: Limits, q: Queues, s: Sched, scans: nat) returns (i: nat)
    requires HasReady(q, s.turn) && scans < SCANS
    ensures i < |q.order| && Ready(q, s.turn, i)
    ensures Scan(c, q, s, scans).request == Some(Head(q, i)) && Scan(c, q, s, scans).queues == TakeAt(q, i)
    ensures Scan(c, q, s, scans).sched.turn == Spend(c, s, s.turn).0
    ensures Scan(c, q, s, scans).sched.credit == Spend(c, s, s.turn).1
  {
    TakeFailsExactly(q, s.turn, s.cursor);
    i := TakeServesAHead(q, s.turn, s.cursor);
  }

  /** What a class is charged when its turn has not begun does not depend on the turn before it. */
  lemma SpendOther(c: Limits, s: Sched)
    ensures forall kind, cursor :: kind != s.turn ==> Spend(c, Sched(kind, 0, cursor), kind) == Spend(c, s, kind)
  {
  }

  /** Exactly which class a selection serves, and what it does to the credits. */
  lemma SelectServes(c: Limits, q: Queues, s: Sched, kind: TrafficClass) returns (i: nat)
    requires HasReady(q, kind)
    ensures i < |q.order| && Ready(q, Winner(q, s.turn), i)
    ensures Select(c, q, s).request == Some(Head(q, i)) && Select(c, q, s).queues == TakeAt(q, i)
    ensures Select(c, q, s).sched.turn == Spend(c, s, Winner(q, s.turn)).0
    ensures Select(c, q, s).sched.credit == Spend(c, s, Winner(q, s.turn)).1
  {
    hide Scan, Take, HasReady, Ready, TakeAt, Spend;
    SpendOther(c, s);
    var at, scans := s, 0;
    if !HasReady(q, at.turn) {
      ScanMisses(c, q, at, 0);
      at, scans := Sched(After(at.turn), 0, Take(q, at.turn, at.cursor).cursor), 1;
      if !HasReady(q, at.turn) {
        ScanMisses(c, q, at, 1);
        at, scans := Sched(After(at.turn), 0, Take(q, at.turn, at.cursor).cursor), 2;
        assert kind in {s.turn, After(s.turn), After(After(s.turn))};
      }
    }
    i := ScanHits(c, q, at, scans);
  }

  lemma {:induction false} ScanNothing(c: Limits, q: Queues, s: Sched, scans: nat)
    requires scans <= SCANS && forall kind :: !HasReady(q, kind)
    ensures Scan(c, q, s, scans).request == None && Scan(c, q, s, scans).queues == q
    ensures scans < SCANS ==> Scan(c, q, s, scans).sched.credit == 0
    ensures scans == SCANS ==> Scan(c, q, s, scans).sched == s
    decreases SCANS - scans
  {
    if scans < SCANS {
      ScanMisses(c, q, s, scans);
      ScanNothing(c, q, Sched(After(s.turn), 0, Take(q, s.turn, s.cursor).cursor), scans + 1);
    }
  }

  /** A queue that is not empty has a ready head of some class. */
  lemma SomethingReady(c: Limits, q: Queues) returns (kind: TrafficClass)
    requires Valid(c, q) && |q.order| > 0
    ensures HasReady(q, kind)
  {
    assert q.order[0] in q.order;
    assert StreamOk(c, q.order[0], q.streams[q.order[0]]);
    kind := Head(q, 0).kind;
    assert Ready(q, kind, 0);
  }

  lemma NothingReady(q: Queues)
    ensures q.order == [] ==> forall kind :: !HasReady(q, kind)
  {
  }

  lemma NothingQueued(c: Limits, q: Queues)
    requires Valid(c, q)
    ensures q.frames == 0 <==> q == EMPTY
    ensures q.frames == 0 <==> q.order == []
  {
    SumFramesPositive(c, q.streams, q.order);
    if |q.order| == 0 {
      assert forall id :: id !in q.streams;
      assert q.streams == map[];
    }
  }

  /** Work conservation: the six scans come back empty-handed exactly when nothing at all is queued. */
  lemma WorkConserving(c: Limits, q: Queues, s: Sched)
    requires Valid(c, q)
    ensures Select(c, q, s).request == None <==> q.frames == 0
  {
    var i := SelectionOk(c, q, s);
  }

  /** A selection serves the head of stream `i`, or nothing when nothing is queued. */
  lemma SelectionOk(c: Limits, q: Queues, s: Sched) returns (i: nat)
    requires Valid(c, q)
    ensures Select(c, q, s).request == None <==> q.frames == 0
    ensures Select(c, q, s).request == None ==> Select(c, q, s).queues == q
    ensures Select(c, q, s).request.Some? ==>
      && i < |q.order| && q.order[i] in q.streams && |q.streams[q.order[i]].queue| > 0
      && Select(c, q, s).request.value == Head(q, i)
      && Select(c, q, s).queues == TakeAt(q, i)
    ensures Valid(c, Select(c, q, s).queues)
    ensures c.Ok() && SchedOk(c, s) ==> SchedOk(c, Select(c, q, s).sched)
  {
    hide Scan, HasReady, Take, TakeAt, Valid;
    NothingQueued(c, q);
    if |q.order| == 0 {
      i := 0;
      NothingReady(q);
      ScanNothing(c, q, s, 0);
    } else {
      var kind := SomethingReady(c, q);
      i := SelectServes(c, q, s, kind);
      TakeAtValid(c, q, i);
    }
  }

  /** Every selection leaves the cursor in range. */
  lemma {:induction false} ScanCursorOk(c: Limits, q: Queues, s: Sched, scans: nat)
    requires CursorOk(q, s.cursor)
    ensures CursorOk(Scan(c, q, s, scans).queues, Scan(c, q, s, scans).sched.cursor)
    decreases SCANS - scans
  {
    hide Take;
    if scans < SCANS {
      TakeCursorOk(q, s.turn, s.cursor);
      var p := Take(q, s.turn, s.cursor);
      if p.request.None? {
        ScanCursorOk(c, p.queues, AfterScan(c, s, p), scans + 1);
      }
    }
  }

  // ----- Weighted share ---------------------------------------------------------

  datatype Line = Line(queues: Queues, sched: Sched)
  datatype Move = Offer(request: Request) | Serve

  /** Senders offering requests and the scheduler serving them, in any interleaving. */
  function Apply(c: Limits, l: Line, m: Move): Line {
    match m
    case Offer(r) => if Admit(c, l.queues, false, r).Admitted? then l.(queues := Push(l.queues, r)) else l
    case Serve => var r := Select(c, l.queues, l.sched); Line(r.queues, r.sched)
  }

  function Selections(moves: seq<Move>): nat {
    if |moves| == 0 then 0 else (if moves[0].Serve? then 1 else 0) + Selections(moves[1..])
  }

  function Served(c: Limits, l: Line, m: Move, kind: TrafficClass): nat {
    if m.Serve? && Select(c, l.queues, l.sched).request.Some?
       && Select(c, l.queues, l.sched).request.value.kind == kind then 1 else 0
  }

  function ServedCount(c: Limits, l: Line, moves: seq<Move>, kind: TrafficClass): nat
    decreases |moves|
  {
    if |moves| == 0 then 0
    else Served(c, l, moves[0], kind) + ServedCount(c, Apply(c, l, moves[0]), moves[1..], kind)
  }

  /** Before every selection of the window some stream has a frame of this class at its head. */
  ghost predicate AlwaysReady(c: Limits, l: Line, moves: seq<Move>, kind: TrafficClass)
    decreases |moves|
  {
    |moves| > 0 ==>
      && (moves[0].Serve? ==> HasReady(l.queues, kind))
      && AlwaysReady(c, Apply(c, l, moves[0]), moves[1..], kind)
  }

  /** The most selections other classes can get before this class's turn begins. */
  function Ahead(c: Limits, s: Sched, kind: TrafficClass): int {
    if s.turn == kind then 0
    else if After(s.turn) == kind then Credit(c, s)
    else Credit(c, s) + Weight(c, After(s.turn))
  }

  /** The credit this class has when its turn begins (or has left, when it is its turn now). */
  function Turn(c: Limits, s: Sched, kind: TrafficClass): int {
    if s.turn == kind then Credit(c, s) else Weight(c, kind)
  }

  /**
   * What `n` selections must contain of a class with weight `w` when `others` is everybody else's weight:
   * the others ahead, this turn, everybody else, and the next turn.
   */
  function Promise(w: int, others: int, ahead: int, turn: int, n: int): int {
    if n <= ahead then 0
    else if n <= ahead + turn then n - ahead
    else if n <= ahead + turn + others then turn
    else if n <= ahead + turn + others + w then n - ahead - others
    else turn + w
  }

  function Promised(c: Limits, s: Sched, kind: TrafficClass, n: int): int {
    Promise(Weight(c, kind), TotalWeight(c) - Weight(c, kind), Ahead(c, s, kind), Turn(c, s, kind), n)
  }

  /** A selection of another class uses up one of the selections ahead. */
  lemma PromiseAfterOther(w: int, others: int, ahead: int, ahead': int, n: int)
    requires w > 0 && others > 0 && n > 0 && 0 <= ahead' < ahead
    ensures Promise(w, others, ahead', w, n - 1) >= Promise(w, others, ahead, w, n)
  {
  }

  /** A selection of the class itself either shortens its turn or ends it. */
  lemma PromiseAfterOwn(w: int, others: int, ahead: int, turn: int, n: int)
    requires w > 0 && others > 0 && n > 0 && 0 <= ahead && 0 < turn <= w
    ensures turn > 1 ==> 1 + Promise(w, others, 0, turn - 1, n - 1) >= Promise(w, others, ahead, turn, n)
    ensures turn == 1 ==> 1 + Promise(w, others, others, w, n - 1) >= Promise(w, others, ahead, turn, n)
  {
  }

  /** Serving any class that is not behind `kind` in turn order honours what `kind` is owed. */
  lemma SpendKeepsPromise(c: Limits, s: Sched, winner: TrafficClass, kind: TrafficClass, s': Sched, n: nat)
    requires c.Ok() && SchedOk(c, s) && n > 0
    requires winner == s.turn || (kind != s.turn && (winner == kind || winner == After(s.turn)))
    requires (s'.turn, s'.credit) == Spend(c, s, winner)
    ensures SchedOk(c, s')
    ensures (if winner == kind then 1 else 0) + Promised(c, s', kind, n - 1) >= Promised(c, s, kind, n)
  {
    hide Promise;
    var w, others := Weight(c, kind), TotalWeight(c) - Weight(c, kind);
    if winner == kind {
      PromiseAfterOwn(w, others, Ahead(c, s, kind), Turn(c, s, kind), n);
    } else {
      PromiseAfterOther(w, others, Ahead(c, s, kind), Ahead(c, s', kind), n);
    }
  }

  lemma {:induction false} ShareHolds(c: Limits, l: Line, moves: seq<Move>, kind: TrafficClass)
    requires c.Ok() && Valid(c, l.queues) && SchedOk(c, l.sched) && AlwaysReady(c, l, moves, kind)
    ensures ServedCount(c, l, moves, kind) >= Promised(c, l.sched, kind, Selections(moves))
    decreases |moves|
  {
    hide Scan, Valid, HasReady, TakeAt, Push, Promised, Spend;
    if |moves| > 0 {
      var l' := Apply(c, l, moves[0]);
      match moves[0] {
        case Offer(r) =>
          if Admit(c, l.queues, false, r).Admitted? {
            PushValid(c, l.queues, r);
          }
        case Serve =>
          var i := SelectServes(c, l.queues, l.sched, kind);
          TakeAtValid(c, l.queues, i);
          SpendKeepsPromise(c, l.sched, Winner(l.queues, l.sched.turn), kind, l'.sched, Selections(moves));
      }
      ShareHolds(c, l', moves[1..], kind);
    } else {
      PromisedNothing(c, l.sched, kind);
    }
  }

  lemma PromisedNothing(c: Limits, s: Sched, kind: TrafficClass)
    requires c.Ok() && SchedOk(c, s)
    ensures Promised(c, s, kind, 0) == 0
  {
  }

  /** Over a whole round of credits the promise is the class's weight. */
  lemma PromiseOfARound(c: Limits, s: Sched, kind: TrafficClass, n: int)
    requires c.Ok() && SchedOk(c, s) && n >= TotalWeight(c)
    ensures Promised(c, s, kind, n) >= Weight(c, kind)
  {
    assert Ahead(c, s, kind) <= TotalWeight(c) - Weight(c, kind);
  }

  /**
   * In any window of ControlWeight + InteractiveWeight + BulkWeight consecutive selections before each of
   * which a class has a ready stream head, that class gets at least its weight, whatever is offered meanwhile.
   */
  lemma WeightedShare(c: Limits, l: Line, moves: seq<Move>, kind: TrafficClass)
    requires c.Ok() && Valid(c, l.queues) && SchedOk(c, l.sched)
    requires AlwaysReady(c, l, moves, kind)
    requires Selections(moves) >= c.controlWeight + c.interactiveWeight + c.bulkWeight
    ensures kind == Control ==> ServedCount(c, l, moves, kind) >= c.controlWeight
    ensures kind == Interactive ==> ServedCount(c, l, moves, kind) >= c.interactiveWeight
    ensures kind == Bulk ==> ServedCount(c, l, moves, kind) >= c.bulkWeight
  {
    ShareHolds(c, l, moves, kind);
    PromiseOfARound(c, l.sched, kind, Selections(moves));
  }

  /** Every selection of a window in which some class is always ready serves exactly one request of one class. */
  lemma {:induction false} ServedAddUp(c: Limits, l: Line, moves: seq<Move>, kind: TrafficClass)
    requires AlwaysReady(c, l, moves, kind)
    ensures ServedCount(c, l, moves, Control) + ServedCount(c, l, moves, Interactive) + ServedCount(c, l, moves, Bulk)
         == Selections(moves)
    decreases |moves|
  {
    hide Scan, HasReady, TakeAt, Push, Spend;
    if |moves| > 0 {
      if moves[0].Serve? {
        var i := SelectServes(c, l.queues, l.sched, kind);
      }
      ServedAddUp(c, Apply(c, l, moves[0]), moves[1..], kind);
    }
  }

  /** When all classes are always ready, one round gives each exactly its weight. */
  lemma ExactShare(c: Limits, l: Line, moves: seq<Move>)
    requires c.Ok() && Valid(c, l.queues) && SchedOk(c, l.sched)
    requires forall kind :: AlwaysReady(c, l, moves, kind)
    requires Selections(moves) == c.controlWeight + c.interactiveWeight + c.bulkWeight
    ensures ServedCount(c, l, moves, Control) == c.controlWeight
    ensures ServedCount(c, l, moves, Interactive) == c.interactiveWeight
    ensures ServedCount(c, l, moves, Bulk) == c.bulkWeight
  {
    hide ServedCount, AlwaysReady, Valid;
    WeightedShare(c, l, moves, Control);
    WeightedShare(c, l, moves, Interactive);
    WeightedShare(c, l, moves, Bulk);
    ServedAddUp(c, l, moves, Control);
  }

  /**
   * What one selection does, from the turn, the credit and the configured weights: the classes are tried in the order
   * Control, Interactive, Bulk from the one whose turn it is; the class served goes on while it has credit and then
   * passes the turn on.
   */
  lemma SelectsInTurn(c: Limits, q: Queues, s: Sched)
    requires c.Ok() && Valid(c, q) && q.frames > 0
    ensures
      var p := Select(c, q, s);
      var control, interactive, bulk := HasReady(q, Control), HasReady(q, Interactive), HasReady(q, Bulk);
      && p.request.Some?
      && var kind := p.request.value.kind;
         && (s.turn == Control ==> kind == if control then Control else if interactive then Interactive else Bulk)
         && (s.turn == Interactive ==> kind == if interactive then Interactive else if bulk then Bulk else Control)
         && (s.turn == Bulk ==> kind == if bulk then Bulk else if control then Control else Interactive)
         && var full := if kind == Control then c.controlWeight
                        else if kind == Interactive then c.interactiveWeight else c.bulkWeight;
            var credit := if kind == s.turn && s.credit != 0 then s.credit else full;
            if credit == 1 then
              && p.sched.credit == 0
              && p.sched.turn == if kind == Control then Interactive else if kind == Interactive then Bulk else Control
            else p.sched.credit == credit - 1 && p.sched.turn == kind
  {
    hide Scan, Take, TakeAt, HasReady, Valid;
    NothingQueued(c, q);
    var some := SomethingReady(c, q);
    var i := SelectServes(c, q, s, some);
    assert Ready(q, Winner(q, s.turn), i);
  }

  // ----- The Peer's outbound half ---------------------------------------------------

  class Outbox {
    const c: Limits
    var streams: map<U64, Stream>
    var order: seq<U64>
    var bytes: int
    var frames: int
    var closed: bool
    var sched: Sched

    ghost function View(): Queues
      reads this
    {
      Queues(streams, order, bytes, frames)
    }

    constructor (c: Limits)
      ensures this.c == c && View() == EMPTY && sched == START && !closed
    {
      this.c := c;
      streams, order, bytes, frames := map[], [], 0, 0;
      closed, sched := false, START;
    }

    /** One locked pass of send: the caller parks when the answer is Full. */
    method Offer(r: Request) returns (a: Admission)
      modifies this`streams, this`order, this`bytes, this`frames
      ensures a == Admit(c, old(View()), closed, r)
      ensures View() == if a.Admitted? then Push(old(View()), r) else old(View())
    {
      if r.Bytes() > c.perStreamQueueBytes || r.Bytes() > c.outboundQueueBytes {
        return Oversized;
      }
      if closed {
        return Closed;
      }
      var id := r.Id();
      var fits := id in streams || |streams| < c.maxActiveStreams;
      if id in streams
         && (streams[id].bytes + r.Bytes() > c.perStreamQueueBytes
             || |streams[id].queue| + 1 > c.perStreamQueueFrames) {
        fits := false;
      }
      if bytes + r.Bytes() > c.outboundQueueBytes || frames + 1 > c.outboundQueueFrames {
        fits := false;
      }
      if !fits {
        return Full;
      }
      if id !in streams {
        streams := streams[id := Stream([], 0)];
        order := order + [id];
      }
      streams := streams[id := Stream(streams[id].queue + [r], streams[id].bytes + r.Bytes())];
      bytes := bytes + r.Bytes();
      frames := frames + 1;
      assert streams == Push(old(View()), r).streams;
      return Admitted;
    }

    /** takeLocked once its search has found the stream at `index`: in-place removal and the next cursor. */
    method RemoveHead(index: nat) returns (r: Request, next: nat)
      requires index < |order| && order[index] in streams && |streams[order[index]].queue| > 0
      modifies this`streams, this`order, this`bytes, this`frames
      ensures r == Head(old(View()), index) && View() == TakeAt(old(View()), index)
      ensures next == NextCursor(old(|order|), index, old(|streams[order[index]].queue| == 1))
    {
      var id := order[index];
      ghost var was := streams;
      r := streams[id].queue[0];
      next := (index + 1) % |order|;
      streams := streams[id := Stream(streams[id].queue[1..], streams[id].bytes - r.Bytes())];
      bytes := bytes - r.Bytes();
      frames := frames - 1;
      if |streams[id].queue| == 0 {
        streams := streams - {id};
        order := Without(order, index);
        if |order| == 0 {
          next := 0;
        } else if index < next {
          next := next - 1;
        }
        assert streams == was - {id};
      }
    }

    method TakeLocked(kind: TrafficClass, cursor: nat) returns (request: Option<Request>, next: nat)
      modifies this`streams, this`order, this`bytes, this`frames
      ensures Pick(request, View(), next) == Take(old(View()), kind, cursor)
    {
      hide TakeAt, NextCursor;
      if |order| == 0 {
        return None, 0;
      }
      ghost var q := View();
      for checked := 0 to |order|
        invariant View() == q
        invariant FirstReady(q, kind, cursor, 0) == FirstReady(q, kind, cursor, checked)
      {
        var index := (cursor + checked) % |order|;
        var id := order[index];
        if id in streams && |streams[id].queue| > 0 && streams[id].queue[0].kind == kind {
          var r;
          r, next := RemoveHead(index);
          return Some(r), next;
        }
      }
      return None, cursor;
    }

    /** One locked pass of schedule. */
    method SelectNext() returns (request: Option<Request>)
      modifies this`streams, this`order, this`bytes, this`frames, this`sched
      ensures Selection(request, View(), sched) == Select(c, old(View()), old(sched))
    {
      ghost var q, s := View(), sched;
      request := None;
      var scans := 0;
      while scans < SCANS && request == None
        invariant scans <= SCANS
        invariant request == None ==> View() == q && Select(c, q, s) == Scan(c, q, sched, scans)
        invariant request.Some? ==> Selection(request, View(), sched) == Select(c, q, s)
        decreases SCANS - scans
      {
        ghost var before := sched;
        var kind := sched.turn;
        if sched.credit == 0 {
          sched := sched.(credit := Weight(c, kind));
        }
        TakeFailsExactly(q, kind, before.cursor);
        var cursor;
        request, cursor := TakeLocked(kind, sched.cursor);
        sched := sched.(cursor := cursor);
        if request.Some? {
          sched := sched.(credit := sched.credit - 1);
        }
        if request == None || sched.credit == 0 {
          sched := Sched(After(sched.turn), 0, sched.cursor);
        }
        assert sched == AfterScan(c, before, Pick(request, View(), cursor));
        scans := scans + 1;
      }
    }

    /** The outbound part of fail: every queued request gets the error, stream by stream in no fixed order. */
    method Drain() returns (failed: seq<Request>)
      requires forall id, r :: id in streams && r in streams[id].queue ==> r.Id() == id
      modifies this`streams, this`order, this`bytes, this`frames, this`closed
      ensures closed && View() == EMPTY
      ensures forall id :: OnStream(failed, id) == QueueOf(old(View()), id)
    {
      hide OnStream;
      failed := [];
      ghost var q := View();
      OnNoStream();
      var left := streams.Keys;
      while left != {}
        invariant left <= streams.Keys
        invariant forall id :: OnStream(failed, id) == if id in left then [] else QueueOf(q, id)
        invariant View() == q
      {
        var id :| id in left;
        var queue := streams[id].queue;
        forall x
          ensures OnStream(failed + queue, x) == OnStream(failed, x) + if x == id then queue else []
        {
          OnStreamConcat(failed, queue, x);
          OnStreamUniform(queue, id, x);
        }
        failed := failed + queue;
        left := left - {id};
      }
      streams, order, bytes, frames := map[], [], 0, 0;
      closed := true;
    }
  }

  // ----- Projections on one stream ------------------------------------------------

  /** The requests of `s` that belong to stream `id`, in order. */
  function OnStream(s: seq<Request>, id: U64): seq<Request> {
    if |s| == 0 then []
    else OnStream(s[..|s| - 1], id) + if s[|s| - 1].Id() == id then [s[|s| - 1]] else []
  }

  lemma OnNoStream()
    ensures forall id :: OnStream([], id) == []
  {
  }

  lemma OnStreamAppend(s: seq<Request>, r: Request, id: U64)
    ensures OnStream(s + [r], id) == OnStream(s, id) + if r.Id() == id then [r] else []
  {
    DropLast(s, r);
  }

  lemma {:induction false} OnStreamConcat(s: seq<Request>, t: seq<Request>, id: U64)
    ensures OnStream(s + t, id) == OnStream(s, id) + OnStream(t, id)
  {
    if |t| == 0 {
      assert s + t == s;
    } else {
      OnStreamConcat(s, t[..|t| - 1], id);
      assert (s + t)[..|s + t| - 1] == s + t[..|t| - 1];
    }
  }

  lemma {:induction false} OnStreamUniform(s: seq<Request>, own: U64, id: U64)
    requires forall r :: r in s ==> r.Id() == own
    ensures OnStream(s, id) == if id == own then s else []
  {
    if |s| > 0 {
      OnStreamUniform(s[..|s| - 1], own, id);
      assert s[|s| - 1] in s;
    }
  }
}
