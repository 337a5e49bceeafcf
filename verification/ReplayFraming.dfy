/**
 * The frames one attach request puts on its stream: the response, the replay between its two marks, live output and
 * the exit, while the manager runs on (pty/protocol.go, handleAttach and protocolOutputSink.Send).
 */
module ReplayFraming {
  import opened Common
  import opened History
  import opened Attachments
  import Replay

  datatype Wire =
    | AttachResponse(result: Result)
    | ReplayBegin(result: Result)
    | ReplayEnd
    | OutputFrame(data: seq<Byte>)
    | ExitFrame(status: int)

  /** How far handleAttach has come; Failed after its cleanup. */
  datatype Stage = Idle | Attached | Responded | Begun | Ready | Activated | Failed

  /**
   * The handler's and the sink's state: the attach result, the sink's flag, the event its worker is sending, whether
   * it still owes the end mark behind the last one, how many events it has sent, whether a send failed, and all
   * frames queued by the peer.
   */
  datatype Handler = Handler(
    stage: Stage,
    result: Result,
    replayEnded: bool,
    held: Option<Delivery>,
    ending: bool,
    sent: nat,
    stopped: bool,
    frames: seq<Wire>)

  datatype State = State(manager: Replay.State, handler: Handler)

  const INIT := State(Replay.INIT, Handler(Idle, Result(0, 0, 1, false), false, None, false, 0, false, []))

  /** How a send ends: without an error, or with one before or after the peer queued the frame. */
  datatype Outcome = Sent | Refused | Late

  datatype Event =
    | Other(event: Replay.Event)                               // anything else the manager does
    | Begin(id: U64, replayAll: bool, resumeAfter: nat)        // Session.Attach, paused
    | Reply(outcome: Outcome)
    | Mark(outcome: Outcome)                                   // ReplayBegin
    | EmptyEnd(outcome: Outcome)                               // ReplayEnd when nothing is replayed
    | Activate
    | Take                                                     // the attachment worker picks an event
    | Send(outcome: Outcome)                                   // and sends it
    | End(outcome: Outcome)                                    // ReplayEnd behind the last replayed output

  /** Steps on attachment `n` that only its handler and worker take. */
  predicate Own(n: nat, e: Replay.Event) {
    (e.Attach? && e.feed == n) || (e.Resume? && e.feed == n) || (e.Work? && e.feed == n)
  }

  // ----- The sink -------------------------------------------------------------------------------

  function Queued(o: Outcome, frame: Wire): seq<Wire> {
    if o == Refused then [] else [frame]
  }

  function FrameOf(d: Delivery): Wire {
    match d
    case Output(_, data) => OutputFrame(data)
    case Exit(status) => ExitFrame(status)
  }

  /** The delivery that ends a replay up to sequence `last` (0 for no replay). */
  predicate EndsReplay(d: Delivery, last: nat) {
    d.Output? && last != 0 && d.sequence == last
  }

  /** The frames of one delivery: its own, and the end mark behind the delivery that ends the replay. */
  function FramesOf(d: Delivery, last: nat): seq<Wire> {
    [FrameOf(d)] + if EndsReplay(d, last) then [ReplayEnd] else []
  }

  /** protocolOutputSink.Send: the frames it gets out, its flag afterwards, and whether it succeeded. */
  function SinkSend(d: Delivery, last: nat, ended: bool, first: Outcome, second: Outcome): (seq<Wire>, bool, bool) {
    if first != Sent then (Queued(first, FrameOf(d)), ended, false)
    else if !ended && EndsReplay(d, last) then ([FrameOf(d)] + Queued(second, ReplayEnd), true, second == Sent)
    else ([FrameOf(d)], ended, true)
  }

  class Sink {
    var replayLast: nat
    var replayEnded: bool
    var frames: seq<Wire>

    constructor ()
      ensures replayLast == 0 && !replayEnded && frames == []
    {
      replayLast, replayEnded, frames := 0, false, [];
    }

    method Send(d: Delivery, first: Outcome, second: Outcome) returns (sent: bool)
      modifies this`replayEnded, this`frames
      ensures
        var (out, ended, r) := SinkSend(d, replayLast, old(replayEnded), first, second);
        frames == old(frames) + out && replayEnded == ended && sent == r
    {
      match d
      case Output(sequence, data) =>
        frames := frames + Queued(first, OutputFrame(data));
        if first != Sent {
          return false;
        }
        if !replayEnded && replayLast != 0 && sequence == replayLast {
          replayEnded := true;
          frames := frames + Queued(second, ReplayEnd);
          return second == Sent;
        }
        return true;
      case Exit(status) =>
        frames := frames + Queued(first, ExitFrame(status));
        return first == Sent;
    }
  }

  // ----- Steps ----------------------------------------------------------------------------------

  function Manage(u: Replay.Setup, s: State, e: Replay.Event): State {
    s.(manager := Replay.Step(u, s.manager, e))
  }

  /** One frame of the handler's own, and its cleanup after an error. */
  function HandlerSend(u: Replay.Setup, n: nat, s: State, o: Outcome, frame: Wire, next: Stage): State {
    var frames := s.handler.frames + Queued(o, frame);
    if o == Sent then s.(handler := s.handler.(stage := next, frames := frames))
    else Manage(u, s, Replay.Detach(n)).(handler := s.handler.(stage := Failed, frames := frames))
  }

  /** The sink's first send, of the event its worker holds. */
  function SendHeld(h: Handler, o: Outcome): Handler
    requires h.held.Some?
  {
    var d := h.held.value;
    var last := o == Sent && !h.replayEnded && EndsReplay(d, h.result.replayLast);
    h.(frames := h.frames + Queued(o, FrameOf(d)), held := None, sent := h.sent + 1, stopped := o != Sent,
       ending := last, replayEnded := h.replayEnded || last)
  }

  /** The sink's second send, of the end mark. */
  function SendMark(h: Handler, o: Outcome): Handler {
    h.(frames := h.frames + Queued(o, ReplayEnd), ending := false, stopped := o != Sent)
  }

  /** The two together are one call of the sink. */
  lemma SinkInTwoSteps(h: Handler, first: Outcome, second: Outcome)
    requires h.held.Some? && !h.stopped && !h.ending
    ensures
      var (out, ended, ok) := SinkSend(h.held.value, h.result.replayLast, h.replayEnded, first, second);
      var sent := SendHeld(h, first);
      var done := if sent.ending then SendMark(sent, second) else sent;
      done.frames == h.frames + out && done.replayEnded == ended && done.stopped == !ok
  {
    var sent := SendHeld(h, first);
    assert h.frames + [FrameOf(h.held.value)] + Queued(second, ReplayEnd)
        == h.frames + ([FrameOf(h.held.value)] + Queued(second, ReplayEnd));
  }

  function Stopping(u: Replay.Setup, n: nat, s: State): State {
    if s.handler.stopped then Manage(u, s, Replay.Detach(n)) else s
  }

  function Step(u: Replay.Setup, n: nat, s: State, e: Event): State {
    var h := s.handler;
    match e
    case Other(event) => if Own(n, event) then s else Manage(u, s, event)
    case Begin(id, replayAll, resumeAfter) =>
      if h.stage != Idle || !Replay.CanAttach(s.manager, n, id, resumeAfter) then s
      else
        var captured := Capture(Of(s.manager.flat.log, id), |s.manager.outputs[id]|, replayAll, resumeAfter);
        Manage(u, s, Replay.Attach(n, id, replayAll, resumeAfter, true))
          .(handler := h.(stage := Attached, result := captured.0))
    case Reply(o) => if h.stage == Attached then HandlerSend(u, n, s, o, AttachResponse(h.result), Responded) else s
    case Mark(o) => if h.stage == Responded then HandlerSend(u, n, s, o, ReplayBegin(h.result), Begun) else s
    case EmptyEnd(o) =>
      if h.stage != Begun then s
      else if h.result.replayLast != 0 then s.(handler := h.(stage := Ready))
      else
        var t := HandlerSend(u, n, s, o, ReplayEnd, Ready);
        if o == Sent then t.(handler := t.handler.(replayEnded := true)) else t
    case Activate =>
      if h.stage != Ready || n !in s.manager.feeds then s
      else if s.manager.feeds[n].closed then s.(handler := h.(stage := Failed))
      else Manage(u, s, Replay.Resume(n)).(handler := h.(stage := Activated))
    case Take =>
      if h.held.Some? || h.ending || h.stopped || n !in s.manager.feeds then s
      else
        var t := Manage(u, s, Replay.Work(n));
        t.(handler := h.(held := Fresh(s.manager.feeds[n].delivered, t.manager.feeds[n].delivered)))
    case Send(o) => if h.held.None? || h.stopped then s else Stopping(u, n, s.(handler := SendHeld(h, o)))
    case End(o) => if !h.ending || h.stopped then s else Stopping(u, n, s.(handler := SendMark(h, o)))
  }

  /** The event a worker's pass handed over, if any. */
  function Fresh(before: seq<Delivery>, after: seq<Delivery>): Option<Delivery> {
    if |before| < |after| then Some(after[|before|]) else None
  }

  function Run(u: Replay.Setup, n: nat, events: seq<Event>): State {
    if |events| == 0 then INIT else Step(u, n, Run(u, n, events[..|events| - 1]), events[|events| - 1])
  }

  // ----- The transcript ------------------------------------------------------------------------------

  function Data(ds: seq<Delivery>): seq<Wire> {
    if |ds| == 0 then [] else Data(ds[..|ds| - 1]) + [FrameOf(ds[|ds| - 1])]
  }

  /**
   * AttachResponse ReplayBegin Output^k ReplayEnd Output* Exit, with the k replayed chunks before the end mark and
   * every output the session published from NextLive on after it.
   */
  function Transcript(a: Feed, r: Result, outputs: seq<seq<Byte>>, exit: Option<int>): seq<Wire>
    requires a.nextLive >= 1
  {
    [AttachResponse(r), ReplayBegin(r)] + Data(a.replayed) + [ReplayEnd] + Data(Live(outputs, a.nextLive, |outputs|))
    + if exit.Some? then [ExitFrame(exit.value)] else []
  }

  /** The frames of a list of deliveries. */
  function Render(ds: seq<Delivery>, last: nat): seq<Wire> {
    if |ds| == 0 then [] else Render(ds[..|ds| - 1], last) + FramesOf(ds[|ds| - 1], last)
  }

  lemma {:induction false} RenderAppend(a: seq<Delivery>, b: seq<Delivery>, last: nat)
    ensures Render(a + b, last) == Render(a, last) + Render(b, last)
  {
    hide FramesOf;
    if |b| == 0 {
      assert a + b == a;
    } else {
      var m := |b| - 1;
      assert (a + b)[..|a + b| - 1] == a + b[..m];
      RenderAppend(a, b[..m], last);
    }
  }

  /** Away from the replay's last sequence there is one frame to a delivery. */
  lemma {:induction false} RenderPlain(ds: seq<Delivery>, last: nat)
    requires forall i :: 0 <= i < |ds| ==> !EndsReplay(ds[i], last)
    ensures Render(ds, last) == Data(ds)
  {
    if |ds| > 0 {
      RenderPlain(ds[..|ds| - 1], last);
    }
  }

  /** The handler's result is the attachment's answer, which fits the replay captured with it. */
  ghost predicate Matches(a: Feed, r: Result) {
    r == a.answer.result && Answered(a.answer, a.replayed, a.nextLive)
  }

  lemma RenderReplay(a: Feed, r: Result, outputs: seq<seq<Byte>>)
    requires Matches(a, r) && Joined(a.replayed, a.nextLive, outputs) && a.replayed != []
    ensures Render(a.replayed, r.replayLast) == Data(a.replayed) + [ReplayEnd]
  {
    hide SuffixOf;
    var k := |a.replayed| - 1;
    RenderPlain(a.replayed[..k], r.replayLast);
  }

  lemma RenderFull(a: Feed, r: Result, outputs: seq<seq<Byte>>, exit: Option<int>)
    requires Matches(a, r) && AttachmentOk(a, outputs, exit)
    ensures [AttachResponse(r), ReplayBegin(r)] + (if r.replayLast == 0 then [ReplayEnd] else [])
            + Render(Full(a, outputs, exit), r.replayLast) == Transcript(a, r, outputs, exit)
  {
    hide SuffixOf, OnScript, Render, Live, Data;
    var live := Live(outputs, a.nextLive, |outputs|);
    var end := if exit.Some? then [Exit(exit.value)] else [];
    var last := r.replayLast;
    forall i | 0 <= i < |live|
      ensures live[i].Output? && live[i].sequence != last
    {
      LiveAt(outputs, a.nextLive, |outputs|, i);
    }
    RenderPlain(live, last);
    RenderEnd(exit, last);
    RenderAppend(a.replayed + live, end, last);
    RenderAppend(a.replayed, live, last);
    if a.replayed == [] {
      NoFrames(last);
    } else {
      RenderReplay(a, r, outputs);
    }
  }

  lemma NoFrames(last: nat)
    ensures Render([], last) == [] && Data([]) == []
  {
  }

  lemma RenderEnd(exit: Option<int>, last: nat)
    ensures Render(if exit.Some? then [Exit(exit.value)] else [], last)
         == if exit.Some? then [ExitFrame(exit.value)] else []
  {
    if exit.Some? {
      var ds := [Exit(exit.value)];
      assert ds[..0] == [];
    }
  }

  // ----- The transcript, frame by frame --------------------------------------------------------------

  lemma {:induction false} DataAt(ds: seq<Delivery>)
    ensures |Data(ds)| == |ds|
    ensures forall i :: 0 <= i < |ds| ==>
              Data(ds)[i] == match ds[i] case Output(_, data) => OutputFrame(data) case Exit(x) => ExitFrame(x)
  {
    if |ds| > 0 {
      DataAt(ds[..|ds| - 1]);
    }
  }

  /** Output frames with exactly these payloads. */
  function OutputFrames(payloads: seq<seq<Byte>>): (r: seq<Wire>)
    ensures |r| == |payloads| && forall i :: 0 <= i < |r| ==> r[i] == OutputFrame(payloads[i])
  {
    seq(|payloads|, i requires 0 <= i < |payloads| => OutputFrame(payloads[i]))
  }

  /** The data of captured chunks. */
  function Payloads(ds: seq<Delivery>): (r: seq<seq<Byte>>)
    requires forall i :: 0 <= i < |ds| ==> ds[i].Output?
    ensures |r| == |ds| && forall i :: 0 <= i < |r| ==> r[i] == ds[i].data
  {
    seq(|ds|, i requires 0 <= i < |ds| => ds[i].data)
  }

  /**
   * The transcript spelled out: two frames, the data of each captured chunk, the end mark, all of each output published
   * from NextLive on, and the exit.
   */
  lemma TranscriptExactly(a: Feed, r: Result, outputs: seq<seq<Byte>>, exit: Option<int>)
    requires AttachmentOk(a, outputs, exit)
    ensures 1 <= a.nextLive <= |outputs| + 1 && forall i :: 0 <= i < |a.replayed| ==> a.replayed[i].Output?
    ensures Transcript(a, r, outputs, exit)
         == [AttachResponse(r), ReplayBegin(r)] + OutputFrames(Payloads(a.replayed)) + [ReplayEnd]
            + OutputFrames(outputs[a.nextLive - 1..]) + (if exit.Some? then [ExitFrame(exit.value)] else [])
  {
    hide Data, Live, OnScript, SuffixOf, Answered;
    DataAt(a.replayed);
    assert Data(a.replayed) == OutputFrames(Payloads(a.replayed));
    LiveFrames(a.nextLive, outputs);
  }

  lemma LiveFrames(nextLive: nat, outputs: seq<seq<Byte>>)
    requires 1 <= nextLive <= |outputs| + 1
    ensures Data(Live(outputs, nextLive, |outputs|)) == OutputFrames(outputs[nextLive - 1..])
  {
    hide Data, Live;
    var live := Live(outputs, nextLive, |outputs|);
    DataAt(live);
    forall j | 0 <= j < |live|
      ensures Data(live)[j] == OutputFrame(outputs[nextLive - 1..][j])
    {
      LiveAt(outputs, nextLive, |outputs|, j);
    }
  }

  /** The same for one position behind the response. */
  lemma TranscriptFrame(a: Feed, r: Result, outputs: seq<seq<Byte>>, exit: Option<int>, i: nat)
    requires AttachmentOk(a, outputs, exit) && i + 1 < |Transcript(a, r, outputs, exit)|
    ensures
      var w, k, n := Transcript(a, r, outputs, exit)[i + 1], |a.replayed|, a.nextLive + i - |a.replayed| - 2;
      if i == 0 then w == ReplayBegin(r)
      else if i <= k then a.replayed[i - 1].Output? && w == OutputFrame(a.replayed[i - 1].data)
      else if i == k + 1 then w == ReplayEnd
      else if n <= |outputs| then n >= 1 && w == OutputFrame(outputs[n - 1])
      else n == |outputs| + 1 && exit.Some? && w == ExitFrame(exit.value)
  {
    hide Transcript, AttachmentOk;
    TranscriptExactly(a, r, outputs, exit);
    AtOfFive([AttachResponse(r), ReplayBegin(r)], OutputFrames(Payloads(a.replayed)), [ReplayEnd],
             OutputFrames(outputs[a.nextLive - 1..]), if exit.Some? then [ExitFrame(exit.value)] else [], i + 1);
  }

  lemma AtOfFive<T>(a: seq<T>, b: seq<T>, c: seq<T>, d: seq<T>, e: seq<T>, i: nat)
    requires i < |a + b + c + d + e|
    ensures
      var ab, abc, abcd := |a| + |b|, |a| + |b| + |c|, |a| + |b| + |c| + |d|;
      (a + b + c + d + e)[i]
      == if i < |a| then a[i] else if i < ab then b[i - |a|] else if i < abc then c[i - ab]
         else if i < abcd then d[i - abc] else e[i - abcd]
  {
  }

  /** What one call of the sink puts on the stream, for every outcome of its one or two sends. */
  lemma SinkSendsExactly(d: Delivery, last: nat, ended: bool, first: Outcome, second: Outcome)
    ensures
      var (out, after, ok) := SinkSend(d, last, ended, first, second);
      var own := match d case Output(_, data) => OutputFrame(data) case Exit(status) => ExitFrame(status);
      var ends := first == Sent && !ended && last != 0 && d.Output? && d.sequence == last;
      && out == (if first == Refused then []
                 else if ends && second != Refused then [own, ReplayEnd] else [own])
      && after == (ended || ends)
      && ok == (first == Sent && (ends ==> second == Sent))
  {
  }

  // ----- What every step keeps -------------------------------------------------------------------------

  function Preamble(stage: Stage, r: Result): seq<Wire> {
    match stage
    case Responded => [AttachResponse(r)]
    case Begun => [AttachResponse(r), ReplayBegin(r)]
    case Ready => [AttachResponse(r), ReplayBegin(r)] + if r.replayLast == 0 then [ReplayEnd] else []
    case Activated => [AttachResponse(r), ReplayBegin(r)] + if r.replayLast == 0 then [ReplayEnd] else []
    case _ => []
  }

  /** Until the handler activates it, the attachment has delivered nothing. */
  ghost predicate Quiet(a: Feed, h: Handler) {
    && !a.active && a.delivered == []
    && h.held == None && h.sent == 0 && !h.stopped && !h.ending
    && (h.stage != Failed ==> h.replayEnded == (h.stage == Ready && h.result.replayLast == 0))
    && (if h.stage == Failed then h.frames <= Preamble(Activated, h.result)
        else h.frames == Preamble(h.stage, h.result))
  }

  /** Afterwards the frames are the preamble and exactly the events sent; a failed send cuts them short. */
  ghost predicate Flowing(a: Feed, h: Handler) {
    if h.stopped then h.frames <= Preamble(Activated, h.result) + Render(a.delivered, h.result.replayLast)
    else
      && h.sent <= |a.delivered|
      && h.held == Fresh(a.delivered[..h.sent], a.delivered) && |a.delivered| <= h.sent + 1
      && (h.ending ==> |a.delivered| == h.sent)
      && h.replayEnded == (h.sent >= |a.replayed|)
      && h.frames + (if h.ending then [ReplayEnd] else [])
         == Preamble(Activated, h.result) + Render(a.delivered[..h.sent], h.result.replayLast)
  }

  ghost predicate HandlerOk(a: Feed, h: Handler) {
    && Matches(a, h.result)
    && (if h.stage == Activated then Flowing(a, h) else Quiet(a, h))
  }

  ghost predicate Inv(u: Replay.Setup, n: nat, s: State) {
    && Replay.Inv(u, s.manager)
    && if s.handler.stage == Idle then s.handler == INIT.handler && n !in s.manager.feeds
       else n in s.manager.feeds && HandlerOk(s.manager.feeds[n], s.handler)
  }

  /** What the handler's invariant looks at in its attachment. */
  ghost predicate SameFeed(a: Feed, b: Feed) {
    && b.active == a.active && b.delivered == a.delivered && b.replayed == a.replayed && b.nextLive == a.nextLive
    && b.answer == a.answer
  }

  lemma SameHandler(a: Feed, b: Feed, h: Handler)
    requires HandlerOk(a, h) && SameFeed(a, b)
    ensures HandlerOk(b, h)
  {
    hide Render, Preamble;
  }

  lemma SameAfter(a: Feed, sequence: nat, data: seq<Byte>, status: int)
    ensures SameFeed(a, Offer(a, sequence, data)) && SameFeed(a, OfferExit(a, status))
    ensures SameFeed(a, a.(joined := false)) && SameFeed(a, Finish(a))
  {
  }

  /** The rest of the manager never delivers for, activates or recaptures somebody's attachment. */
  lemma OtherKeepsFeed(u: Replay.Setup, s: Replay.State, n: nat, e: Replay.Event)
    requires !Own(n, e)
    ensures n in Replay.Step(u, s, e).feeds <==> n in s.feeds
    ensures n in s.feeds ==> SameFeed(s.feeds[n], Replay.Step(u, s, e).feeds[n])
  {
    hide Append, Of, Forget, Replay.NewFeed, Attachments.Take, Attachments.Activate, Bytes, Offer, OfferExit, Finish;
    if n in s.feeds {
      SameAfter(s.feeds[n], if e.Publish? && e.id in s.outputs then |s.outputs[e.id]| + 1 else 0,
                if e.Publish? then e.data else [], if e.ExitSession? then e.status else 0);
    }
  }

  lemma OtherKeeps(u: Replay.Setup, n: nat, s: State, e: Replay.Event)
    requires Inv(u, n, s) && !Own(n, e)
    ensures Inv(u, n, Manage(u, s, e))
  {
    hide Replay.Step, Replay.Inv, HandlerOk;
    Replay.StepKeeps(u, s.manager, e);
    OtherKeepsFeed(u, s.manager, n, e);
    if s.handler.stage != Idle {
      SameHandler(s.manager.feeds[n], Manage(u, s, e).manager.feeds[n], s.handler);
    }
  }

  lemma CaptureMatches(u: Replay.Setup, s: Replay.State, id: U64, replayAll: bool, resumeAfter: nat)
    requires Replay.Inv(u, s) && id in s.registered && id in s.outputs && resumeAfter <= |s.outputs[id]|
    ensures
      var a := Replay.NewFeed(u, s, id, replayAll, resumeAfter, true);
      var r := Capture(Of(s.flat.log, id), |s.outputs[id]|, replayAll, resumeAfter).0;
      Matches(a, r) && !a.active && a.delivered == []
  {
    hide Of, Replay.Accounted, Replay.FeedsOk, Capture, Shaped, Joined;
    CaptureAnswers(Of(s.flat.log, id), s.outputs[id], replayAll, resumeAfter);
  }

  lemma BeginKeeps(u: Replay.Setup, n: nat, s: State, id: U64, replayAll: bool, resumeAfter: nat)
    requires Inv(u, n, s)
    ensures Inv(u, n, Step(u, n, s, Begin(id, replayAll, resumeAfter)))
  {
    hide Replay.Inv, Replay.NewFeed, Capture, Of, Render;
    if s.handler.stage == Idle && Replay.CanAttach(s.manager, n, id, resumeAfter) {
      var e := Replay.Attach(n, id, replayAll, resumeAfter, true);
      Replay.StepKeeps(u, s.manager, e);
      CaptureMatches(u, s.manager, id, replayAll, resumeAfter);
    }
  }

  lemma CleanupKeeps(u: Replay.Setup, n: nat, s: State, frames: seq<Wire>)
    requires Inv(u, n, s) && s.handler.stage in {Attached, Responded, Begun, Ready}
    requires frames <= Preamble(Activated, s.handler.result)
    ensures Inv(u, n, Manage(u, s, Replay.Detach(n)).(handler := s.handler.(stage := Failed, frames := frames)))
    ensures Inv(u, n, s.(handler := s.handler.(stage := Failed, frames := frames)))
  {
    hide Replay.Inv, Replay.Step, Render;
    OtherKeeps(u, n, s, Replay.Detach(n));
    var t := Manage(u, s, Replay.Detach(n)).(handler := s.handler.(stage := Failed, frames := frames));
    assert Quiet(t.manager.feeds[n], t.handler);
  }

  lemma AdvanceKeeps(u: Replay.Setup, n: nat, s: State, next: Stage)
    requires Inv(u, n, s) && s.handler.stage in {Attached, Responded, Begun} && next in {Responded, Begun, Ready}
    ensures
      var h := s.handler;
      Inv(u, n, s.(handler := h.(stage := next, frames := Preamble(next, h.result),
                                 replayEnded := next == Ready && h.result.replayLast == 0)))
  {
    hide Replay.Inv, Render;
  }

  lemma PreambleGrows(r: Result)
    ensures Preamble(Attached, r) + [AttachResponse(r)] == Preamble(Responded, r)
    ensures Preamble(Responded, r) + [ReplayBegin(r)] == Preamble(Begun, r)
    ensures if r.replayLast == 0 then Preamble(Begun, r) + [ReplayEnd] == Preamble(Ready, r)
            else Preamble(Begun, r) == Preamble(Ready, r)
    ensures Preamble(Attached, r) <= Preamble(Responded, r) <= Preamble(Begun, r)
    ensures Preamble(Begun, r) <= Preamble(Ready, r) == Preamble(Activated, r)
  {
  }

  /** One frame of the handler: sent it completes the preamble of the next stage, otherwise the handler cleans up. */
  lemma HandlerSendKeeps(u: Replay.Setup, n: nat, s: State, o: Outcome, frame: Wire, next: Stage)
    requires Inv(u, n, s) && s.handler.stage in {Attached, Responded, Begun} && next in {Responded, Begun, Ready}
    requires s.handler.frames + [frame] == Preamble(next, s.handler.result)
    ensures
      var t, ended := HandlerSend(u, n, s, o, frame, next), next == Ready && s.handler.result.replayLast == 0;
      Inv(u, n, if o == Sent then t.(handler := t.handler.(replayEnded := ended)) else t)
  {
    hide Inv, Preamble, Replay.Step;
    var h := s.handler;
    PreambleGrows(h.result);
    assert h.frames + [] == h.frames <= h.frames + [frame];
    if o == Sent {
      AdvanceKeeps(u, n, s, next);
    } else {
      assert Preamble(next, h.result) <= Preamble(Activated, h.result);
      CleanupKeeps(u, n, s, h.frames + Queued(o, frame));
    }
  }

  lemma HandlerKeeps(u: Replay.Setup, n: nat, s: State, e: Event)
    requires Inv(u, n, s) && (e.Reply? || e.Mark? || e.EmptyEnd?)
    ensures Inv(u, n, Step(u, n, s, e))
  {
    hide Inv, Preamble, Replay.Step;
    var h := s.handler;
    if h.stage in {Attached, Responded, Begun} {
      PreambleNow(u, n, s);
      PreambleGrows(h.result);
      if h.stage == Attached {
        HandlerSendKeeps(u, n, s, e.outcome, AttachResponse(h.result), Responded);
      } else if h.stage == Responded {
        HandlerSendKeeps(u, n, s, e.outcome, ReplayBegin(h.result), Begun);
      } else if h.result.replayLast == 0 {
        HandlerSendKeeps(u, n, s, e.outcome, ReplayEnd, Ready);
      } else {
        AdvanceKeeps(u, n, s, Ready);
      }
    }
  }

  lemma PreambleNow(u: Replay.Setup, n: nat, s: State)
    requires Inv(u, n, s) && s.handler.stage in {Attached, Responded, Begun}
    ensures s.handler.frames == Preamble(s.handler.stage, s.handler.result) && !s.handler.replayEnded
  {
  }

  lemma ActivatedFlows(a: Feed, h: Handler)
    requires HandlerOk(a, h) && h.stage == Ready
    ensures HandlerOk(Attachments.Activate(a), h.(stage := Activated))
  {
    hide Render;
    NoFrames(h.result.replayLast);
    assert a.delivered[..0] == [];
    assert h.frames + [] == h.frames;
  }

  lemma ActivateKeeps(u: Replay.Setup, n: nat, s: State)
    requires Inv(u, n, s)
    ensures Inv(u, n, Step(u, n, s, Activate))
  {
    hide Replay.Inv, Attachments.Activate;
    if s.handler.stage == Ready && n in s.manager.feeds {
      CleanupKeeps(u, n, s, s.handler.frames);
      ActivatedFlows(s.manager.feeds[n], s.handler);
      Replay.StepKeeps(u, s.manager, Replay.Resume(n));
    }
  }

  lemma TakeDelivers(a: Feed)
    ensures
      var t := Attachments.Take(a);
      && t.active == a.active && t.replayed == a.replayed && t.nextLive == a.nextLive && t.answer == a.answer
      && a.delivered <= t.delivered && |t.delivered| <= |a.delivered| + 1
      && (!a.active ==> t.delivered == a.delivered)
  {
  }

  lemma TakeKeepsHandler(a: Feed, h: Handler)
    requires HandlerOk(a, h) && h.held == None && !h.ending && !h.stopped
    ensures
      var t := Attachments.Take(a);
      HandlerOk(t, h.(held := Fresh(a.delivered, t.delivered)))
  {
    hide Render, Preamble, Attachments.Take;
    TakeDelivers(a);
    var t := Attachments.Take(a);
    if h.stage == Activated {
      assert h.sent == |a.delivered|;
      assert a.delivered[..h.sent] == a.delivered && t.delivered[..h.sent] == a.delivered;
    }
  }

  lemma TakeKeeps(u: Replay.Setup, n: nat, s: State)
    requires Inv(u, n, s)
    ensures Inv(u, n, Step(u, n, s, Take))
  {
    hide Replay.Inv, HandlerOk, Attachments.Take;
    if s.handler.held.None? && !s.handler.ending && !s.handler.stopped && n in s.manager.feeds {
      Replay.StepKeeps(u, s.manager, Replay.Work(n));
      TakeKeepsHandler(s.manager.feeds[n], s.handler);
    }
  }

  /** Sequence numbers identify the delivery that ends the replay: it is the last of the captured ones. */
  lemma EndsReplayExactly(a: Feed, outputs: seq<seq<Byte>>, exit: Option<int>, r: Result, k: nat)
    requires AttachmentOk(a, outputs, exit) && Matches(a, r) && k < |a.delivered|
    ensures EndsReplay(a.delivered[k], r.replayLast) <==> k + 1 == |a.replayed|
  {
    hide AttachmentOk, Full, SuffixOf;
    DeliveredIsPrefix(a, outputs, exit);
    Positive(a, outputs, exit);
    FullAt(a, outputs, exit, k);
  }

  /** The sink's flag changes nothing: the end mark is owed exactly behind the delivery that ends the replay. */
  lemma SendIsRender(a: Feed, outputs: seq<seq<Byte>>, exit: Option<int>, h: Handler, o: Outcome)
    requires AttachmentOk(a, outputs, exit) && Matches(a, h.result) && Flowing(a, h) && h.held.Some? && !h.stopped
    ensures
      var t, frames := SendHeld(h, o), FramesOf(h.held.value, h.result.replayLast);
      && h.sent < |a.delivered| && h.held.value == a.delivered[h.sent] && !h.ending
      && (o == Sent ==> Queued(o, FrameOf(h.held.value)) + (if t.ending then [ReplayEnd] else []) == frames)
      && (o == Sent ==> t.replayEnded == (h.sent + 1 >= |a.replayed|))
      && Queued(o, FrameOf(h.held.value)) <= frames
  {
    hide AttachmentOk, Matches, Render, Preamble;
    EndsReplayExactly(a, outputs, exit, h.result, h.sent);
  }

  lemma SendKeepsHandler(a: Feed, outputs: seq<seq<Byte>>, exit: Option<int>, h: Handler, o: Outcome)
    requires AttachmentOk(a, outputs, exit) && Matches(a, h.result) && Flowing(a, h) && h.held.Some? && !h.stopped
    ensures Flowing(a, SendHeld(h, o))
  {
    hide Preamble, AttachmentOk, Matches, FramesOf, FrameOf, EndsReplay, Queued;
    SendIsRender(a, outputs, exit, h, o);
    var d, last := h.held.value, h.result.replayLast;
    var out := Queued(o, FrameOf(d));
    assert a.delivered == a.delivered[..h.sent] + [d];
    assert Render(a.delivered, last) == Render(a.delivered[..h.sent], last) + FramesOf(d, last);
    assert a.delivered[..h.sent + 1] == a.delivered;
    assert h.frames + [] == h.frames;
    var t := SendHeld(h, o);
    if o == Sent {
      var mark := if t.ending then [ReplayEnd] else [];
      assert h.frames + out + mark == h.frames + (out + mark);
    }
  }

  lemma MarkKeepsHandler(a: Feed, h: Handler, o: Outcome)
    requires Flowing(a, h) && h.ending && !h.stopped
    ensures Flowing(a, SendMark(h, o))
  {
    hide Preamble, Render;
    assert a.delivered[..h.sent] == a.delivered;
    assert h.frames + [] == h.frames;
    assert h.frames + [ReplayEnd] + [] == h.frames + [ReplayEnd];
  }

  lemma SinkKeeps(u: Replay.Setup, n: nat, s: State, o: Outcome)
    requires Inv(u, n, s)
    ensures Inv(u, n, Step(u, n, s, Send(o))) && Inv(u, n, Step(u, n, s, End(o)))
  {
    hide Replay.Step, AttachmentOk, Flowing, Replay.Histories, Replay.Accounted, SendHeld, SendMark, Matches;
    var h := s.handler;
    if h.held.Some? && !h.stopped {
      var a := s.manager.feeds[n];
      assert Replay.FeedOk(a, s.manager.outputs, s.manager.exits);
      SendKeepsHandler(a, s.manager.outputs[a.session], Replay.ExitOf(s.manager, a.session), h, o);
      SentOnly(h, o);
      StoppingKeeps(u, n, s.(handler := SendHeld(h, o)));
    }
    if h.ending && !h.stopped {
      MarkKeepsHandler(s.manager.feeds[n], h, o);
      SentOnly(h, o);
      StoppingKeeps(u, n, s.(handler := SendMark(h, o)));
    }
  }

  lemma SentOnly(h: Handler, o: Outcome)
    ensures h.held.Some? ==> SendHeld(h, o).stage == h.stage && SendHeld(h, o).result == h.result
    ensures SendMark(h, o).stage == h.stage && SendMark(h, o).result == h.result
  {
  }

  lemma StoppingKeeps(u: Replay.Setup, n: nat, s: State)
    requires Inv(u, n, s)
    ensures Inv(u, n, Stopping(u, n, s))
  {
    hide Inv, Replay.Step, Own;
    DetachIsNotOwn(n);
    OtherKeeps(u, n, s, Replay.Detach(n));
  }

  lemma DetachIsNotOwn(n: nat)
    ensures !Own(n, Replay.Detach(n))
  {
  }

  lemma StepKeeps(u: Replay.Setup, n: nat, s: State, e: Event)
    requires Inv(u, n, s)
    ensures Inv(u, n, Step(u, n, s, e))
  {
    hide Inv, Replay.Step, HandlerSend, Manage, Own, SendHeld, SendMark, Stopping;
    match e
    case Other(event) =>
      if !Own(n, event) {
        OtherKeeps(u, n, s, event);
      }
    case Begin(id, replayAll, resumeAfter) => BeginKeeps(u, n, s, id, replayAll, resumeAfter);
    case Activate => ActivateKeeps(u, n, s);
    case Take => TakeKeeps(u, n, s);
    case Send(o) => SinkKeeps(u, n, s, o);
    case End(o) => SinkKeeps(u, n, s, o);
    case _ => HandlerKeeps(u, n, s, e);
  }

  lemma {:induction false} RunKeeps(u: Replay.Setup, n: nat, events: seq<Event>)
    ensures Inv(u, n, Run(u, n, events))
  {
    hide Step, HandlerOk;
    if |events| == 0 {
      Replay.RunKeeps(u, []);
    } else {
      RunKeeps(u, n, events[..|events| - 1]);
      StepKeeps(u, n, Run(u, n, events[..|events| - 1]), events[|events| - 1]);
    }
  }

  /** A send with an error detaches: by the handler in its cleanup, by the sink through its worker. */
  lemma ErrorsDetach(u: Replay.Setup, n: nat, s: State, o: Outcome, frame: Wire, next: Stage)
    requires n in s.manager.feeds && o != Sent
    ensures
      var t := HandlerSend(u, n, s, o, frame, next);
      n in t.manager.feeds && t.manager.feeds[n].closed && t.handler.stage == Failed
    ensures s.handler.held.Some? && !s.handler.stopped ==>
      var t := Step(u, n, s, Send(o));
      n in t.manager.feeds && t.manager.feeds[n].closed && t.handler.stopped
    ensures s.handler.ending && !s.handler.stopped ==>
      var t := Step(u, n, s, End(o));
      n in t.manager.feeds && t.manager.feeds[n].closed && t.handler.stopped
  {
    hide HandlerOk, Capture, Of, Append, Replay.NewFeed, Forget;
  }

  // ----- What the client of one attach sees -----------------------------------------------------------------

  lemma FramesAreRendered(a: Feed, outputs: seq<seq<Byte>>, exit: Option<int>, h: Handler)
    requires AttachmentOk(a, outputs, exit) && HandlerOk(a, h)
    ensures h.frames <= Preamble(Activated, h.result) + Render(a.delivered, h.result.replayLast)
  {
    if h.stage == Activated && !h.stopped {
      hide FramesOf;
      assert h.frames <= h.frames + if h.ending then [ReplayEnd] else [];
      assert a.delivered == a.delivered[..h.sent] + a.delivered[h.sent..];
      RenderAppend(a.delivered[..h.sent], a.delivered[h.sent..], h.result.replayLast);
    }
  }

  lemma FramesAreTranscript(a: Feed, outputs: seq<seq<Byte>>, exit: Option<int>, h: Handler)
    requires AttachmentOk(a, outputs, exit) && HandlerOk(a, h)
    ensures h.frames <= Transcript(a, h.result, outputs, exit)
  {
    hide Transcript, Render, AttachmentOk, Flowing, Quiet;
    FramesAreRendered(a, outputs, exit, h);
    DeliveredIsPrefix(a, outputs, exit);
    Positive(a, outputs, exit);
    var full, m, last := Full(a, outputs, exit), |a.delivered|, h.result.replayLast;
    assert full == a.delivered + full[m..];
    RenderAppend(a.delivered, full[m..], last);
    RenderFull(a, h.result, outputs, exit);
    PrefixTransitive(h.frames, Preamble(Activated, h.result) + Render(a.delivered, last),
                     Preamble(Activated, h.result) + Render(full, last));
  }

  lemma Positive(a: Feed, outputs: seq<seq<Byte>>, exit: Option<int>)
    requires AttachmentOk(a, outputs, exit)
    ensures 1 <= a.nextLive <= |outputs| + 1
  {
  }

  /** No step gets out more than one frame. */
  lemma StepAddsOne(u: Replay.Setup, n: nat, s: State, e: Event)
    ensures
      var t := Step(u, n, s, e);
      s.handler.frames <= t.handler.frames && |t.handler.frames| <= |s.handler.frames| + 1
  {
    hide Replay.Step, Capture, Of;
  }

  /** The frames so far, against the transcript of the attachment and its session as they stand. */
  ghost predicate OnTranscript(n: nat, s: State) {
    if s.handler.stage == Idle then s.handler.frames == []
    else
      && n in s.manager.feeds && s.manager.feeds[n].session in s.manager.outputs
      && s.manager.feeds[n].nextLive == s.handler.result.nextLive >= 1
      && (s.handler.result.replayLast == 0 <==> s.manager.feeds[n].replayed == [])
      && s.handler.frames <= WholeTranscript(n, s)
  }

  function WholeTranscript(n: nat, s: State): seq<Wire>
    requires n in s.manager.feeds && s.manager.feeds[n].session in s.manager.outputs
    requires s.manager.feeds[n].nextLive >= 1
  {
    var a := s.manager.feeds[n];
    Transcript(a, s.handler.result, s.manager.outputs[a.session], Replay.ExitOf(s.manager, a.session))
  }

  lemma InvOnTranscript(u: Replay.Setup, n: nat, s: State)
    requires Inv(u, n, s)
    ensures OnTranscript(n, s)
  {
    hide Transcript, Replay.Histories, Replay.Accounted, AttachmentOk, Flowing, Quiet;
    if s.handler.stage != Idle {
      var a := s.manager.feeds[n];
      assert Replay.FeedOk(a, s.manager.outputs, s.manager.exits);
      FramesAreTranscript(a, s.manager.outputs[a.session], Replay.ExitOf(s.manager, a.session), s.handler);
      Positive(a, s.manager.outputs[a.session], Replay.ExitOf(s.manager, a.session));
    }
  }

  /**
   * In every run the frames of one attach are a prefix of AttachResponse ReplayBegin Output^k ReplayEnd Output*
   * Exit: the k chunks captured, then everything the session published from NextLive on, then its exit.
   */
  lemma AttachFramesInOrder(u: Replay.Setup, n: nat, events: seq<Event>)
    ensures OnTranscript(n, Run(u, n, events))
  {
    hide Run, OnTranscript, Inv;
    RunKeeps(u, n, events);
    InvOnTranscript(u, n, Run(u, n, events));
  }

  /** The sink saw no error and has sent all it was given; the attachment drained, or is listed and caught up. */
  ghost predicate Finished(n: nat, s: State) {
    && s.handler.stage == Activated && n in s.manager.feeds
    && !s.handler.stopped && s.handler.held == None && !s.handler.ending
    && var a := s.manager.feeds[n];
       a.drained || (a.joined && !a.closed && a.replayNext <= |a.replay| && Pending(a) == [])
  }

  lemma FinishedIsComplete(u: Replay.Setup, n: nat, s: State)
    requires Inv(u, n, s) && Finished(n, s)
    ensures OnTranscript(n, s) && s.handler.frames == WholeTranscript(n, s)
  {
    hide Transcript, Replay.Histories, Replay.Accounted, Render, Joined, Answered, Live, OnTranscript;
    InvOnTranscript(u, n, s);
    var a, h := s.manager.feeds[n], s.handler;
    assert Replay.FeedOk(a, s.manager.outputs, s.manager.exits);
    var outputs, exit := s.manager.outputs[a.session], Replay.ExitOf(s.manager, a.session);
    assert a.delivered[..h.sent] == a.delivered;
    assert a.delivered + [] == a.delivered && h.frames + [] == h.frames;
    if a.drained {
      DrainedIsFull(a, outputs, exit);
    }
    assert a.delivered == Full(a, outputs, exit);
    RenderFull(a, h.result, outputs, exit);
  }

  /**
   * An attachment that has drained, or is still in its session's table and has caught up, has put the whole
   * transcript on its stream, if its sink saw no error.
   */
  lemma AttachFramesComplete(u: Replay.Setup, n: nat, events: seq<Event>)
    requires Finished(n, Run(u, n, events))
    ensures
      var s := Run(u, n, events);
      OnTranscript(n, s) && s.handler.frames == WholeTranscript(n, s)
  {
    hide Run, OnTranscript, Inv, Finished;
    RunKeeps(u, n, events);
    FinishedIsComplete(u, n, Run(u, n, events));
  }
}
