/** The inbound dispatcher: one worker goroutine per active stream (peer.go, dispatch and runInbound). */
module Inbound {
  import opened Common
  import opened Frames
  import opened PeerLimits

  /** Where a worker goroutine is. Broken: it saw an error and is about to call fail and return. */
  datatype Phase = Free | Handling(frame: Frame) | Broken | Gone

  /** One inboundStream object together with the goroutine that was started for it. */
  datatype Cell = Cell(stream: U64, frames: seq<Frame>, bytes: int, phase: Phase)

  /** `inbound` maps a stream to its current cell; `accepted` and `started` are logs. */
  datatype State = State(
    cells: seq<Cell>,
    inbound: map<U64, nat>,
    handlers: set<U16>,
    closed: bool,
    accepted: seq<Frame>,
    started: seq<Frame>)

  const INIT := State([], map[], {}, false, [], [])

  datatype Verdict = Queued | PeerClosed | NoHandler | TooManyStreams | Overflow | Wait

  function Size(f: Frame): nat {
    |f.payload| + HEADER_SIZE
  }

  // ----- The locked sections ------------------------------------------------------

  /** Looks the stream's cell up, starting a worker for it when there is none. */
  function WithCell(s: State, id: U64): State {
    if id in s.inbound then s
    else s.(cells := s.cells + [Cell(id, [], 0, Free)], inbound := s.inbound[id := |s.cells|])
  }

  function Verdicts(c: Limits, s: State, f: Frame): Verdict {
    var id := f.header.streamId;
    if s.closed then PeerClosed
    else if f.header.messageType !in s.handlers then NoHandler
    else if id !in s.inbound && |s.inbound| >= c.maxActiveStreams then TooManyStreams
    else if Size(f) > c.perStreamQueueBytes then Overflow
    else if RoomFor(c, s, f) then Queued
    else if !c.backpressure then Overflow
    else Wait
  }

  predicate RoomFor(c: Limits, s: State, f: Frame) {
    var id := f.header.streamId;
    var known := id in s.inbound && s.inbound[id] < |s.cells|;
    var bytes := if known then s.cells[s.inbound[id]].bytes else 0;
    var frames := if known then |s.cells[s.inbound[id]].frames| else 0;
    bytes + Size(f) <= c.perStreamQueueBytes && frames + 1 <= c.perStreamQueueFrames
  }

  /** One locked pass of dispatch. */
  function Dispatch(c: Limits, s: State, f: Frame): State {
    var v, id := Verdicts(c, s, f), f.header.streamId;
    if v in {PeerClosed, NoHandler, TooManyStreams} then s
    else
      var t := WithCell(s, id);
      if v != Queued || id !in t.inbound || t.inbound[id] >= |t.cells| then t
      else
        var i := t.inbound[id];
        var cell := t.cells[i];
        t.(cells := t.cells[i := cell.(frames := cell.frames + [f], bytes := cell.bytes + Size(f))],
           accepted := t.accepted + [f])
  }

  /** One locked pass of runInbound: start the next frame, or retire. */
  function Work(s: State, i: nat): State {
    if i >= |s.cells| || !s.cells[i].phase.Free? then s
    else
      var cell := s.cells[i];
      if |cell.frames| > 0 then
        var f := cell.frames[0];
        var next := cell.(frames := cell.frames[1..], bytes := cell.bytes - Size(f));
        if f.header.messageType in s.handlers then
          s.(cells := s.cells[i := next.(phase := Handling(f))], started := s.started + [f])
        else
          s.(cells := s.cells[i := next.(phase := Broken)])
      else
        s.(cells := s.cells[i := cell.(phase := Gone)],
           inbound := if cell.stream in s.inbound && s.inbound[cell.stream] == i
                      then s.inbound - {cell.stream} else s.inbound)
  }

  datatype Event =
    | Register(types: set<U16>)
    | Arrive(frame: Frame)
    | Pass(cell: nat)
    | HandlerReturns(cell: nat, ok: bool)
    | WorkerFails(cell: nat)
    | Close

  function SetPhase(s: State, i: nat, p: Phase): State
    requires i < |s.cells|
  {
    s.(cells := s.cells[i := s.cells[i].(phase := p)])
  }

  function Step(c: Limits, s: State, e: Event): State {
    match e
    case Register(types) => if s.closed then s else s.(handlers := s.handlers + types)
    case Arrive(f) => Dispatch(c, s, f)
    case Pass(i) => Work(s, i)
    case HandlerReturns(i, ok) =>
      if i < |s.cells| && s.cells[i].phase.Handling? then SetPhase(s, i, if ok then Free else Broken) else s
    case WorkerFails(i) =>
      if i < |s.cells| && s.cells[i].phase.Broken? then SetPhase(s, i, Gone).(closed := true) else s
    case Close => s.(closed := true)
  }

  function Run(c: Limits, events: seq<Event>): State {
    if |events| == 0 then INIT else Step(c, Run(c, events[..|events| - 1]), events[|events| - 1])
  }

  // ----- Projections --------------------------------------------------------------

  function FramesOn(s: seq<Frame>, id: U64): seq<Frame> {
    if |s| == 0 then []
    else FramesOn(s[..|s| - 1], id) + if s[|s| - 1].header.streamId == id then [s[|s| - 1]] else []
  }

  lemma FramesOnAppend(s: seq<Frame>, f: Frame, id: U64)
    ensures FramesOn(s + [f], id) == FramesOn(s, id) + if f.header.streamId == id then [f] else []
  {
    DropLast(s, f);
  }

  function TotalSize(s: seq<Frame>): nat {
    if |s| == 0 then 0 else Size(s[0]) + TotalSize(s[1..])
  }

  lemma {:induction false} TotalSizeAppend(s: seq<Frame>, f: Frame)
    ensures TotalSize(s + [f]) == TotalSize(s) + Size(f)
  {
    if |s| > 0 {
      assert (s + [f])[1..] == s[1..] + [f];
      TotalSizeAppend(s[1..], f);
    }
  }

  // ----- What every step keeps ------------------------------------------------------

  ghost predicate Live(cell: Cell) {
    !cell.phase.Gone?
  }

  ghost predicate CellOk(c: Limits, s: State, i: nat)
    requires i < |s.cells|
  {
    var cell := s.cells[i];
    && cell.bytes == TotalSize(cell.frames) <= c.perStreamQueueBytes
    && |cell.frames| <= c.perStreamQueueFrames
    && (forall f :: f in cell.frames ==> f.header.streamId == cell.stream && f.header.messageType in s.handlers)
    && (cell.phase.Handling? ==> cell.phase.frame.header.streamId == cell.stream)
    && (Live(cell) ==> cell.stream in s.inbound && s.inbound[cell.stream] == i)
  }

  function Backlog(s: State, id: U64): seq<Frame> {
    if id in s.inbound && s.inbound[id] < |s.cells| then s.cells[s.inbound[id]].frames else []
  }

  ghost predicate Tabled(s: State) {
    forall id :: id in s.inbound ==> s.inbound[id] < |s.cells| && s.cells[s.inbound[id]].stream == id
  }

  /** On every stream: what was queued is what was started, then what waits. */
  ghost predicate Ordered(s: State) {
    forall id :: FramesOn(s.accepted, id) == FramesOn(s.started, id) + Backlog(s, id)
  }

  ghost predicate Inv(c: Limits, s: State) {
    && Tabled(s)
    && (forall i :: 0 <= i < |s.cells| ==> CellOk(c, s, i))
    && |s.inbound| <= c.maxActiveStreams
    && Ordered(s)
  }

  lemma WithCellKeeps(c: Limits, s: State, id: U64)
    requires c.Ok() && Inv(c, s) && (id in s.inbound || |s.inbound| < c.maxActiveStreams)
    ensures Inv(c, WithCell(s, id)) && id in WithCell(s, id).inbound
    ensures Backlog(WithCell(s, id), id) == Backlog(s, id)
  {
    if id !in s.inbound {
      var t := WithCell(s, id);
      forall x
        ensures Backlog(t, x) == Backlog(s, x)
      {
        assert x in s.inbound ==> s.inbound[x] < |s.cells|;
      }
      forall i | 0 <= i < |t.cells|
        ensures CellOk(c, t, i)
      {
        if i < |s.cells| {
          assert CellOk(c, s, i);
        }
      }
    }
  }

  lemma EnqueueKeeps(c: Limits, s: State, f: Frame)
    requires Inv(c, s) && f.header.streamId in s.inbound && RoomFor(c, s, f) && f.header.messageType in s.handlers
    ensures
      var i := s.inbound[f.header.streamId];
      && i < |s.cells|
      && Inv(c, s.(cells := s.cells[i := s.cells[i].(frames := s.cells[i].frames + [f],
                                                     bytes := s.cells[i].bytes + Size(f))],
                   accepted := s.accepted + [f]))
  {
    hide FramesOn, TotalSize;
    var id := f.header.streamId;
    var i := s.inbound[id];
    var t := s.(cells := s.cells[i := s.cells[i].(frames := s.cells[i].frames + [f],
                                                  bytes := s.cells[i].bytes + Size(f))],
                accepted := s.accepted + [f]);
    TotalSizeAppend(s.cells[i].frames, f);
    forall j | 0 <= j < |t.cells|
      ensures CellOk(c, t, j)
    {
      assert CellOk(c, s, j);
    }
    forall x
      ensures FramesOn(t.accepted, x) == FramesOn(t.started, x) + Backlog(t, x)
    {
      FramesOnAppend(s.accepted, f, x);
      assert Backlog(t, x) == Backlog(s, x) + if x == id then [f] else [];
    }
  }

  lemma DispatchKeeps(c: Limits, s: State, f: Frame)
    requires c.Ok() && Inv(c, s)
    ensures Inv(c, Dispatch(c, s, f))
    ensures Dispatch(c, s, f).accepted == s.accepted + (if Verdicts(c, s, f) == Queued then [f] else [])
  {
    hide Inv;
    var v, id := Verdicts(c, s, f), f.header.streamId;
    if v !in {PeerClosed, NoHandler, TooManyStreams} {
      WithCellKeeps(c, s, id);
      if v == Queued {
        EnqueueKeeps(c, WithCell(s, id), f);
      }
    }
  }

  lemma DispatchNeverCloses(c: Limits, s: State, f: Frame)
    ensures Dispatch(c, s, f).closed == s.closed
  {
  }

  lemma TotalSizeHead(s: seq<Frame>)
    requires |s| > 0
    ensures TotalSize(s) == Size(s[0]) + TotalSize(s[1..])
  {
  }

  lemma StartKeeps(c: Limits, s: State, i: nat)
    requires Inv(c, s) && i < |s.cells| && s.cells[i].phase.Free? && |s.cells[i].frames| > 0
    ensures Inv(c, Work(s, i)) && Work(s, i).started == s.started + [s.cells[i].frames[0]]
  {
    hide FramesOn, TotalSize;
    var cell, t := s.cells[i], Work(s, i);
    TotalSizeHead(cell.frames);
    assert CellOk(c, s, i);
    var f := cell.frames[0];
    assert f in cell.frames;
    assert cell.frames == [f] + cell.frames[1..];
    forall j | 0 <= j < |t.cells|
      ensures CellOk(c, t, j)
    {
      assert CellOk(c, s, j);
    }
    forall x
      ensures FramesOn(t.accepted, x) == FramesOn(t.started, x) + Backlog(t, x)
    {
      FramesOnAppend(s.started, f, x);
      var h := if x == cell.stream then [f] else [];
      assert Backlog(s, x) == h + Backlog(t, x);
      assert FramesOn(s.started, x) + (h + Backlog(t, x)) == (FramesOn(s.started, x) + h) + Backlog(t, x);
    }
  }

  lemma RetireKeeps(c: Limits, s: State, i: nat)
    requires Inv(c, s) && i < |s.cells| && s.cells[i].phase.Free? && |s.cells[i].frames| == 0
    ensures Inv(c, Work(s, i))
  {
    var t := Work(s, i);
    assert CellOk(c, s, i);
    forall j | 0 <= j < |t.cells|
      ensures CellOk(c, t, j)
    {
      assert CellOk(c, s, j);
    }
    forall x
      ensures Backlog(t, x) == Backlog(s, x)
    {
    }
    assert |t.inbound| <= |s.inbound| by {
      assert t.inbound.Keys == s.inbound.Keys - {s.cells[i].stream};
    }
  }

  lemma PhaseKeeps(c: Limits, s: State, i: nat, p: Phase)
    requires Inv(c, s) && i < |s.cells| && (p.Free? || p.Broken? || p.Gone?) && Live(s.cells[i])
    ensures Inv(c, SetPhase(s, i, p))
  {
    var t := SetPhase(s, i, p);
    forall j | 0 <= j < |t.cells|
      ensures CellOk(c, t, j)
    {
      assert CellOk(c, s, j);
    }
    forall x
      ensures Backlog(t, x) == Backlog(s, x)
    {
    }
  }

  lemma RegisterKeeps(c: Limits, s: State, types: set<U16>)
    requires Inv(c, s)
    ensures Inv(c, s.(handlers := s.handlers + types)) && Inv(c, s.(closed := true))
  {
    var t, u := s.(handlers := s.handlers + types), s.(closed := true);
    forall j | 0 <= j < |s.cells|
      ensures CellOk(c, t, j) && CellOk(c, u, j)
    {
      assert CellOk(c, s, j);
    }
    forall x
      ensures Backlog(t, x) == Backlog(s, x) && Backlog(u, x) == Backlog(s, x)
    {
    }
  }

  lemma StepKeeps(c: Limits, s: State, e: Event)
    requires c.Ok() && Inv(c, s)
    ensures Inv(c, Step(c, s, e))
  {
    match e
    case Register(types) => RegisterKeeps(c, s, types);
    case Arrive(f) => DispatchKeeps(c, s, f);
    case Pass(i) =>
      if i < |s.cells| && s.cells[i].phase.Free? {
        if |s.cells[i].frames| > 0 {
          StartKeeps(c, s, i);
        } else {
          RetireKeeps(c, s, i);
        }
      }
    case HandlerReturns(i, ok) =>
      if i < |s.cells| && s.cells[i].phase.Handling? {
        PhaseKeeps(c, s, i, if ok then Free else Broken);
      }
    case WorkerFails(i) =>
      if i < |s.cells| && s.cells[i].phase.Broken? {
        PhaseKeeps(c, s, i, Gone);
        RegisterKeeps(c, SetPhase(s, i, Gone), {});
      }
    case Close => RegisterKeeps(c, s, {});
  }

  lemma OnlyArrivalsQueue(c: Limits, s: State, e: Event)
    requires !e.Arrive?
    ensures Step(c, s, e).accepted == s.accepted
  {
  }

  lemma {:induction false} RunKeeps(c: Limits, events: seq<Event>)
    requires c.Ok()
    ensures Inv(c, Run(c, events))
  {
    if |events| > 0 {
      RunKeeps(c, events[..|events| - 1]);
      StepKeeps(c, Run(c, events[..|events| - 1]), events[|events| - 1]);
    }
  }

  // ----- What the invariant gives ---------------------------------------------------

  /** At most one worker serves a stream, so two handlers of one stream never overlap. */
  lemma OneWorkerPerStream(c: Limits, events: seq<Event>, i: nat, j: nat)
    requires c.Ok() && i < |Run(c, events).cells| && j < |Run(c, events).cells|
    requires Live(Run(c, events).cells[i]) && Live(Run(c, events).cells[j])
    requires Run(c, events).cells[i].stream == Run(c, events).cells[j].stream
    ensures i == j
  {
    RunKeeps(c, events);
    assert CellOk(c, Run(c, events), i) && CellOk(c, Run(c, events), j);
  }

  /** Handlers of a stream are started on a prefix of what was queued for it, in order. */
  lemma HandlersStartInOrder(c: Limits, events: seq<Event>, id: U64)
    requires c.Ok()
    ensures FramesOn(Run(c, events).started, id) <= FramesOn(Run(c, events).accepted, id)
  {
    RunKeeps(c, events);
    var s := Run(c, events);
    assert FramesOn(s.accepted, id) == FramesOn(s.started, id) + Backlog(s, id);
  }

  /** The byte, frame and stream limits hold in every state, under either queue policy. */
  lemma InboundLimits(c: Limits, events: seq<Event>, i: nat)
    requires c.Ok() && i < |Run(c, events).cells|
    ensures
      var s := Run(c, events);
      && s.cells[i].bytes == TotalSize(s.cells[i].frames) <= c.perStreamQueueBytes
      && |s.cells[i].frames| <= c.perStreamQueueFrames
      && |s.inbound| <= c.maxActiveStreams
  {
    RunKeeps(c, events);
    assert CellOk(c, Run(c, events), i);
  }

  /** A worker never meets a frame without a handler: the nil-handler branch of runInbound cannot be taken. */
  lemma WorkerAlwaysHasAHandler(c: Limits, events: seq<Event>, i: nat)
    requires c.Ok() && i < |Run(c, events).cells| && |Run(c, events).cells[i].frames| > 0
    ensures Run(c, events).cells[i].frames[0].header.messageType in Run(c, events).handlers
  {
    RunKeeps(c, events);
    assert CellOk(c, Run(c, events), i);
    assert Run(c, events).cells[i].frames[0] in Run(c, events).cells[i].frames;
  }

  /** A dispatch that waits does so behind a non-empty backlog of its own stream, whose worker is still there. */
  lemma WaitingHasAWorker(c: Limits, s: State, f: Frame)
    requires c.Ok() && Inv(c, s) && Verdicts(c, s, f) == Wait
    ensures f.header.streamId in s.inbound && Backlog(s, f.header.streamId) != []
  {
    if f.header.streamId in s.inbound {
      assert CellOk(c, s, s.inbound[f.header.streamId]);
      assert TotalSize([]) == 0;
    }
  }

  // ----- The Peer's inbound half ------------------------------------------------------

  class Dispatcher {
    const c: Limits
    var cells: seq<Cell>
    var inbound: map<U64, nat>
    var handlers: set<U16>
    var closed: bool
    ghost var accepted: seq<Frame>
    ghost var started: seq<Frame>

    ghost function View(): State
      reads this
    {
      State(cells, inbound, handlers, closed, accepted, started)
    }

    constructor (c: Limits)
      ensures this.c == c && View() == INIT
    {
      this.c := c;
      cells, inbound, handlers, closed := [], map[], {}, false;
      accepted, started := [], [];
    }

    /** One locked pass of dispatch; the reader parks and retries when the verdict is Wait. */
    method DispatchPass(f: Frame) returns (v: Verdict)
      requires Tabled(View())
      modifies this
      ensures v == Verdicts(c, old(View()), f)
      ensures View() == Dispatch(c, old(View()), f)
    {
      var bytes := |f.payload| + HEADER_SIZE;
      var id := f.header.streamId;
      if closed {
        return PeerClosed;
      }
      if f.header.messageType !in handlers {
        return NoHandler;
      }
      if id !in inbound {
        if |inbound| >= c.maxActiveStreams {
          return TooManyStreams;
        }
        inbound := inbound[id := |cells|];
        cells := cells + [Cell(id, [], 0, Free)];
      }
      if bytes > c.perStreamQueueBytes {
        return Overflow;
      }
      var i := inbound[id];
      var cell := cells[i];
      if cell.bytes + bytes <= c.perStreamQueueBytes && |cell.frames| + 1 <= c.perStreamQueueFrames {
        cells := cells[i := cell.(frames := cell.frames + [f], bytes := cell.bytes + bytes)];
        accepted := accepted + [f];
        return Queued;
      }
      return if c.backpressure then Wait else Overflow;
    }

    /** One locked pass of runInbound for the worker of cell `i`; Some when a handler must now be called. */
    method WorkerPass(i: nat) returns (next: Option<Frame>)
      requires i < |cells| && cells[i].phase.Free?
      modifies this
      ensures View() == Work(old(View()), i)
      ensures next.Some? <==> cells[i].phase.Handling?
      ensures next.Some? ==> cells[i].phase.frame == next.value
    {
      var cell := cells[i];
      if |cell.frames| > 0 {
        var f := cell.frames[0];
        cell := cell.(frames := cell.frames[1..], bytes := cell.bytes - (|f.payload| + HEADER_SIZE));
        if f.header.messageType !in handlers {
          cells := cells[i := cell.(phase := Broken)];
          return None;
        }
        cells := cells[i := cell.(phase := Handling(f))];
        started := started + [f];
        return Some(f);
      }
      if cell.stream in inbound && inbound[cell.stream] == i {
        inbound := inbound - {cell.stream};
      }
      cells := cells[i := cell.(phase := Gone)];
      return None;
    }
  }

  // ----- What each section decides ------------------------------------------------------

  /** The bytes a frame takes in a queue. */
  function Weigh(f: Frame): nat {
    |f.payload| + 28
  }

  function Weights(s: seq<Frame>): nat {
    if |s| == 0 then 0 else Weigh(s[0]) + Weights(s[1..])
  }

  lemma {:induction false} TotalSizeIs(s: seq<Frame>)
    ensures TotalSize(s) == Weights(s)
  {
    if |s| > 0 {
      TotalSizeIs(s[1..]);
    }
  }

  /** The tests of dispatch in their order, from the tables, the backlog and the limits alone. */
  lemma VerdictExactly(c: Limits, s: State, f: Frame)
    requires c.Ok() && Inv(c, s)
    ensures
      var v, id := Verdicts(c, s, f), f.header.streamId;
      var known := f.header.messageType in s.handlers;
      var placed := id in s.inbound || |s.inbound| < c.maxActiveStreams;
      var small := Weigh(f) <= c.perStreamQueueBytes;
      var room := && Weights(Backlog(s, id)) + Weigh(f) <= c.perStreamQueueBytes
                  && |Backlog(s, id)| + 1 <= c.perStreamQueueFrames;
      && (v == PeerClosed <==> s.closed)
      && (v == NoHandler <==> !s.closed && !known)
      && (v == TooManyStreams <==> !s.closed && known && !placed)
      && (v == Queued <==> !s.closed && known && placed && small && room)
      && (v == Wait <==> !s.closed && known && placed && small && !room && c.backpressure)
      && (v == Overflow <==> !s.closed && known && placed && (!small || (!room && !c.backpressure)))
  {
    var id := f.header.streamId;
    TotalSizeIs(Backlog(s, id));
    if id in s.inbound {
      assert CellOk(c, s, s.inbound[id]);
    }
  }

  /**
   * What dispatch leaves: a queued frame is last in its stream's backlog, and the stream has a worker even if the frame
   * was refused for its size or for want of room; otherwise nothing changed.
   */
  lemma DispatchExactly(c: Limits, s: State, f: Frame)
    requires c.Ok() && Inv(c, s)
    ensures
      var v, id, t := Verdicts(c, s, f), f.header.streamId, Dispatch(c, s, f);
      && (v in {PeerClosed, NoHandler, TooManyStreams} ==> t == s)
      && (v !in {PeerClosed, NoHandler, TooManyStreams} ==>
            && t.inbound.Keys == s.inbound.Keys + {id} && t.inbound[id] < |t.cells|
            && (id !in s.inbound ==> |t.cells| == |s.cells| + 1 && t.cells[t.inbound[id]].phase == Free)
            && (id in s.inbound ==> |t.cells| == |s.cells| && t.inbound == s.inbound))
      && Backlog(t, id) == Backlog(s, id) + (if v == Queued then [f] else [])
      && t.accepted == s.accepted + (if v == Queued then [f] else []) && t.started == s.started
  {
    hide Verdicts, Inv;
    InvTabled(c, s);
    var id := f.header.streamId;
    assert Backlog(s, id) + [] == Backlog(s, id) && s.accepted + [] == s.accepted;
    var t := WithCell(s, id);
    assert t.inbound.Keys == s.inbound.Keys + {id} && t.inbound[id] < |t.cells| && Backlog(t, id) == Backlog(s, id);
    hide WithCell;
  }

  lemma InvTabled(c: Limits, s: State)
    requires Inv(c, s)
    ensures Tabled(s)
  {
  }

  /** What a worker's pass does: start the oldest waiting frame of its stream, or retire and free the stream. */
  lemma WorkExactly(c: Limits, s: State, i: nat)
    requires Inv(c, s) && i < |s.cells| && s.cells[i].phase == Free
    ensures
      var cell, t := s.cells[i], Work(s, i);
      if cell.frames != [] then
        && t.started == s.started + [cell.frames[0]] && t.cells[i].phase == Handling(cell.frames[0])
        && Backlog(t, cell.stream) == cell.frames[1..] && t.inbound == s.inbound
      else
        && t.cells[i].phase == Gone && t.started == s.started && t.inbound == s.inbound - {cell.stream}
  {
    assert CellOk(c, s, i);
    if s.cells[i].frames != [] {
      assert s.cells[i].frames[0] in s.cells[i].frames;
    }
  }

  /** A handler's error breaks its worker, a broken worker closes the peer, and a returned one goes on. */
  lemma HandlerEndsExactly(c: Limits, s: State, i: nat, ok: bool)
    requires i < |s.cells|
    ensures
      var t := Step(c, s, HandlerReturns(i, ok));
      s.cells[i].phase.Handling? ==>
        i < |t.cells| && t.cells[i].frames == s.cells[i].frames && t.cells[i].phase == if ok then Free else Broken
    ensures
      var t := Step(c, s, WorkerFails(i));
      s.cells[i].phase == Broken ==> t.closed && i < |t.cells| && t.cells[i].phase == Gone
  {
  }

  /** Handlers are added while the peer is open, and never taken away. */
  lemma RegistersExactly(c: Limits, s: State, types: set<U16>)
    ensures Step(c, s, Register(types)) == if s.closed then s else s.(handlers := s.handlers + types)
    ensures Step(c, s, Close) == s.(closed := true)
  {
  }
}
