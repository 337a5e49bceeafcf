/**
 * One attach as its client sees it: the frames of the attach handler and its sink go through the server's scheduler,
 * output as bulk and everything else as control traffic, over the byte stream and through the client's reader and
 * dispatcher (pty/protocol.go over peer.go, conn.go and codec.go).
 */
module ClientView {
  import opened Common
  import opened Frames
  import opened Outbound
  import opened ReplayFraming
  import Replay
  import Sender
  import Inbound
  import EndToEnd

  /** Protocol version, the message types used, and the JSON text of the frames that carry one. */
  datatype Protocol = Protocol(
    version: U16,
    attach: U16,
    replayBegin: U16,
    replayEnd: U16,
    output: U16,
    exit: U16,
    json: Wire -> seq<Byte>)

  /** The attachment's number, its stream (which is its session's id) and the correlation of the attach request. */
  datatype Setup = Setup(
    manager: Replay.Setup,
    net: EndToEnd.Setup,
    protocol: Protocol,
    feed: nat,
    stream: U64,
    correlation: U64)
  {
    predicate Ok() { net.sending.Ok() && net.receiving.Ok() }
  }

  datatype State = Joint(framing: ReplayFraming.State, net: EndToEnd.State)

  const INIT := Joint(ReplayFraming.INIT, EndToEnd.INIT)

  datatype Event = Serve(step: ReplayFraming.Event) | Network(move: EndToEnd.Event)

  function TypeOf(p: Protocol, w: Wire): U16 {
    match w
    case AttachResponse(_) => p.attach
    case ReplayBegin(_) => p.replayBegin
    case ReplayEnd => p.replayEnd
    case OutputFrame(_) => p.output
    case ExitFrame(_) => p.exit
  }

  function PayloadOf(p: Protocol, w: Wire): seq<Byte> {
    match w
    case OutputFrame(data) => data
    case ReplayEnd => []
    case _ => p.json(w)
  }

  function ClassOf(w: Wire): TrafficClass {
    if w.OutputFrame? then Bulk else Control
  }

  function Encoded(u: Setup, w: Wire): Frame {
    var payload, response := PayloadOf(u.protocol, w), w.AttachResponse?;
    Frame(Header(|payload| % 0x1_0000_0000, u.protocol.version, TypeOf(u.protocol, w),
                 if response then FLAG_RESPONSE else FLAG_EVENT, if response then u.correlation else 0, u.stream),
          payload)
  }

  function EncodedAll(u: Setup, ws: seq<Wire>): (r: seq<Frame>)
    ensures |r| == |ws| && forall i :: 0 <= i < |ws| ==> r[i] == Encoded(u, ws[i])
  {
    seq(|ws|, i requires 0 <= i < |ws| => Encoded(u, ws[i]))
  }

  /** The response to another request on this stream: a resize, an inspection, a kill, a detach. */
  predicate Theirs(u: Setup, f: Frame) {
    f.header.flags == FLAG_RESPONSE && f.header.correlationId != u.correlation
  }

  /** A list of frames without those. */
  function Ours(u: Setup, s: seq<Frame>): seq<Frame> {
    if |s| == 0 then []
    else Ours(u, s[..|s| - 1]) + if Theirs(u, s[|s| - 1]) then [] else [s[|s| - 1]]
  }

  /** Anything else sent on this stream by somebody else, which this run does not have. */
  predicate Speaks(u: Setup, e: EndToEnd.Event) {
    && e.Local? && e.sent.Send? && e.sent.frame.header.streamId == u.stream
    && !Theirs(u, e.sent.frame)
  }

  /** A step that gets a frame out happens when the peer admits that frame; until then its sender waits. */
  function Step(u: Setup, s: State, e: Event): State {
    match e
    case Serve(step) =>
      if step.Begin? && step.id != u.stream then s
      else
        var t, sent := ReplayFraming.Step(u.manager, u.feed, s.framing, step), |s.framing.handler.frames|;
        if |t.handler.frames| <= sent then s.(framing := t)
        else
          var w := t.handler.frames[sent];
          if Admitted(u, s.net, w) then Joint(t, EndToEnd.Step(u.net, s.net, Sending(u, w))) else s
    case Network(move) => if Speaks(u, move) then s else s.(net := EndToEnd.Step(u.net, s.net, move))
  }

  function Sending(u: Setup, w: Wire): EndToEnd.Event {
    EndToEnd.Local(Sender.Send(Encoded(u, w), ClassOf(w)))
  }

  predicate Admitted(u: Setup, net: EndToEnd.State, w: Wire) {
    Sender.Admitted(u.net.sending, net.sender, Request(|net.sender.accepted|, Encoded(u, w), ClassOf(w)))
  }

  function Run(u: Setup, events: seq<Event>): State {
    if |events| == 0 then INIT else Step(u, Run(u, events[..|events| - 1]), events[|events| - 1])
  }

  // ----- What every step keeps -----------------------------------------------------------------------

  function AcceptedOn(net: EndToEnd.State, id: U64): seq<Frame> {
    Inbound.FramesOn(EndToEnd.FramesOf(net.sender.accepted), id)
  }

  /** Other responses aside, the peer has accepted on this stream exactly the frames of the attach, in order. */
  ghost predicate Inv(u: Setup, s: State) {
    && ReplayFraming.Inv(u.manager, u.feed, s.framing)
    && EndToEnd.Inv(u.net, s.net)
    && Ours(u, AcceptedOn(s.net, u.stream)) == EncodedAll(u, s.framing.handler.frames)
  }

  lemma OursAppend(u: Setup, s: seq<Frame>, f: Frame)
    ensures Ours(u, s + [f]) == Ours(u, s) + if Theirs(u, f) then [] else [f]
  {
    DropLast(s, f);
  }

  lemma {:induction false} OursPrefix(u: Setup, a: seq<Frame>, b: seq<Frame>)
    requires a <= b
    ensures Ours(u, a) <= Ours(u, b)
  {
    if |a| < |b| {
      OursPrefix(u, a, b[..|b| - 1]);
    } else {
      assert a == b;
    }
  }

  /** Handlers get none of the other responses anyway. */
  lemma {:induction false} OursForHandlers(u: Setup, s: seq<Frame>)
    ensures EndToEnd.ForHandlers(Ours(u, s)) == EndToEnd.ForHandlers(s)
  {
    if |s| > 0 {
      var init, f := s[..|s| - 1], s[|s| - 1];
      OursForHandlers(u, init);
      EndToEnd.ForHandlersAppend(Ours(u, init), f);
      assert Ours(u, init) + [] == Ours(u, init);
    }
  }

  lemma AcceptedAppend(accepted: seq<Request>, r: Request, id: U64)
    ensures Inbound.FramesOn(EndToEnd.FramesOf(accepted + [r]), id)
         == Inbound.FramesOn(EndToEnd.FramesOf(accepted), id) + if r.Id() == id then [r.frame] else []
  {
    hide Inbound.FramesOn;
    assert EndToEnd.FramesOf(accepted + [r]) == EndToEnd.FramesOf(accepted) + [r.frame];
    Inbound.FramesOnAppend(EndToEnd.FramesOf(accepted), r.frame, id);
  }

  lemma NetworkKeeps(u: Setup, s: State, move: EndToEnd.Event)
    requires u.Ok()
    ensures Inv(u, s) && !Speaks(u, move) ==> Inv(u, s.(net := EndToEnd.Step(u.net, s.net, move)))
  {
    hide EndToEnd.Step, EndToEnd.Inv, ReplayFraming.Inv, Inbound.FramesOn, Sender.Admitted;
    if Inv(u, s) {
      EndToEnd.StepKeeps(u.net, s.net, move);
      EndToEnd.StepAccepts(u.net, s.net, move);
      if move.Local? && move.sent.Send? && !Speaks(u, move) {
        var r := Request(|s.net.sender.accepted|, move.sent.frame, move.sent.kind);
        AcceptedAppend(s.net.sender.accepted, r, u.stream);
        OursAppend(u, AcceptedOn(s.net, u.stream), move.sent.frame);
        assert AcceptedOn(s.net, u.stream) + [] == AcceptedOn(s.net, u.stream);
        assert Ours(u, AcceptedOn(s.net, u.stream)) + [] == Ours(u, AcceptedOn(s.net, u.stream));
      }
    }
  }

  lemma ServeKeeps(u: Setup, s: State, step: ReplayFraming.Event)
    requires u.Ok() && Inv(u, s)
    ensures Inv(u, Step(u, s, Serve(step)))
  {
    hide EndToEnd.Step, EndToEnd.Inv, ReplayFraming.Inv, ReplayFraming.Step, Inbound.FramesOn, Sender.Admitted;
    var t, frames := ReplayFraming.Step(u.manager, u.feed, s.framing, step), s.framing.handler.frames;
    ReplayFraming.StepKeeps(u.manager, u.feed, s.framing, step);
    StepAddsOne(u.manager, u.feed, s.framing, step);
    if |t.handler.frames| > |frames| {
      var w := t.handler.frames[|frames|];
      assert t.handler.frames == frames + [w];
      EndToEnd.StepKeeps(u.net, s.net, Sending(u, w));
      EndToEnd.StepAccepts(u.net, s.net, Sending(u, w));
      AcceptedAppend(s.net.sender.accepted, Request(|s.net.sender.accepted|, Encoded(u, w), ClassOf(w)), u.stream);
      OursAppend(u, AcceptedOn(s.net, u.stream), Encoded(u, w));
      assert EncodedAll(u, frames + [w]) == EncodedAll(u, frames) + [Encoded(u, w)];
    } else {
      assert t.handler.frames == frames;
    }
  }

  lemma {:induction false} RunKeeps(u: Setup, events: seq<Event>)
    requires u.Ok()
    ensures Inv(u, Run(u, events))
  {
    hide Step, EndToEnd.Inv, ReplayFraming.Inv;
    if |events| == 0 {
      NothingYet(u);
    } else {
      var s, e := Run(u, events[..|events| - 1]), events[|events| - 1];
      RunKeeps(u, events[..|events| - 1]);
      StepKeeps(u, s, e);
    }
  }

  lemma StepKeeps(u: Setup, s: State, e: Event)
    requires u.Ok()
    ensures Inv(u, s) ==> Inv(u, Step(u, s, e))
  {
    hide Inv, EndToEnd.Step, Speaks;
    if Inv(u, s) {
      match e
      case Serve(step) => ServeKeeps(u, s, step);
      case Network(move) => NetworkKeeps(u, s, move);
    }
  }

  lemma NothingYet(u: Setup)
    requires u.Ok()
    ensures Inv(u, INIT)
  {
    hide EndToEnd.Inv, ReplayFraming.Inv;
    ReplayFraming.RunKeeps(u.manager, u.feed, []);
    EndToEnd.RunKeeps(u.net, []);
    assert EndToEnd.FramesOf([]) == [] && EncodedAll(u, []) == [] && Ours(u, []) == [];
  }

  // ----- What the client gets ----------------------------------------------------------------------------

  lemma OnlyResponse(u: Setup, w: Wire)
    ensures Encoded(u, w).header.flags == FLAG_RESPONSE <==> w.AttachResponse?
  {
  }

  /** Of a transcript only the response, its first frame, does not go to a handler. */
  lemma {:induction false} HandledFrames(u: Setup, ws: seq<Wire>)
    requires forall i :: 0 <= i < |ws| ==> (ws[i].AttachResponse? <==> i == 0)
    ensures EndToEnd.ForHandlers(EncodedAll(u, ws)) == EncodedAll(u, if ws == [] then [] else ws[1..])
  {
    hide Encoded, EndToEnd.ForHandlers;
    if |ws| > 0 {
      var n := |ws| - 1;
      OnlyResponse(u, ws[n]);
      assert EncodedAll(u, ws) == EncodedAll(u, ws[..n]) + [Encoded(u, ws[n])];
      EndToEnd.ForHandlersAppend(EncodedAll(u, ws[..n]), Encoded(u, ws[n]));
      HandledFrames(u, ws[..n]);
      if n == 0 {
        assert ws[..0] == [] && EncodedAll(u, ws[1..]) == EncodedAll(u, []) == [];
      } else {
        assert ws[1..] == ws[..n][1..] + [ws[n]];
        assert EncodedAll(u, ws[1..]) == EncodedAll(u, ws[..n][1..]) + [Encoded(u, ws[n])];
      }
    } else {
      assert EncodedAll(u, ws) == [];
      NothingHandled();
    }
  }

  lemma NothingHandled()
    ensures EndToEnd.ForHandlers([]) == []
  {
  }

  lemma ResponseIsFirst(n: nat, s: ReplayFraming.State)
    requires OnTranscript(n, s) && s.handler.stage != Idle
    ensures
      var ws := WholeTranscript(n, s);
      |ws| > 0 && forall i :: 0 <= i < |ws| ==> (ws[i].AttachResponse? <==> i == 0)
  {
    hide Data, Attachments.Live;
    var a := s.manager.feeds[n];
    NoResponse(a.replayed);
    NoResponse(Attachments.Live(s.manager.outputs[a.session], a.nextLive, |s.manager.outputs[a.session]|));
  }

  lemma {:induction false} NoResponse(ds: seq<Attachments.Delivery>)
    ensures forall i :: 0 <= i < |Data(ds)| ==> !Data(ds)[i].AttachResponse?
  {
    if |ds| > 0 {
      NoResponse(ds[..|ds| - 1]);
    }
  }

  lemma EncodedPrefix(u: Setup, a: seq<Wire>, b: seq<Wire>)
    requires a <= b
    ensures EncodedAll(u, a) <= EncodedAll(u, b)
  {
  }

  /**
   * The client of one attach, in every run of manager, protocol and both peers: it has read, on that stream and other
   * responses aside, a prefix of AttachResponse ReplayBegin Output^k ReplayEnd Output* Exit, and its handlers have
   * started on a prefix of the same without the response. Bulk output never overtakes a control mark nor falls behind
   * one.
   */
  lemma ClientSeesAttach(u: Setup, events: seq<Event>)
    requires u.Ok()
    ensures
      var s := Run(u, events);
      var read := Ours(u, Inbound.FramesOn(s.net.read, u.stream));
      var handled := Inbound.FramesOn(s.net.receiver.started, u.stream);
      && OnTranscript(u.feed, s.framing)
      && if s.framing.handler.stage == Idle then read == [] && handled == []
         else
           var ws := WholeTranscript(u.feed, s.framing);
           |ws| > 0 && read <= EncodedAll(u, ws) && handled <= EncodedAll(u, ws[1..])
  {
    hide Run, Inbound.FramesOn, ReplayFraming.Inv, EndToEnd.Inv, OnTranscript, WholeTranscript, EndToEnd.ForHandlers;
    RunKeeps(u, events);
    var s := Run(u, events);
    InvOnTranscript(u.manager, u.feed, s.framing);
    EndToEnd.OrderOnStream(u.net, s.net, u.stream);
    ClientOrder(u, s);
  }

  lemma ClientOrder(u: Setup, s: State)
    requires OnTranscript(u.feed, s.framing)
    requires Ours(u, AcceptedOn(s.net, u.stream)) == EncodedAll(u, s.framing.handler.frames)
    requires Inbound.FramesOn(s.net.read, u.stream) <= AcceptedOn(s.net, u.stream)
    requires Inbound.FramesOn(s.net.receiver.started, u.stream) <= EndToEnd.ForHandlers(AcceptedOn(s.net, u.stream))
    ensures
      var read := Ours(u, Inbound.FramesOn(s.net.read, u.stream));
      var handled := Inbound.FramesOn(s.net.receiver.started, u.stream);
      if s.framing.handler.stage == Idle then read == [] && handled == []
      else
        var ws := WholeTranscript(u.feed, s.framing);
        |ws| > 0 && read <= EncodedAll(u, ws) && handled <= EncodedAll(u, ws[1..])
  {
    hide Inbound.FramesOn, WholeTranscript, EndToEnd.ForHandlers, EndToEnd.FramesOf;
    var frames := s.framing.handler.frames;
    OursPrefix(u, Inbound.FramesOn(s.net.read, u.stream), AcceptedOn(s.net, u.stream));
    OursForHandlers(u, AcceptedOn(s.net, u.stream));
    if s.framing.handler.stage == Idle {
      HandledFrames(u, []);
      assert EncodedAll(u, []) == [];
    } else {
      var ws := WholeTranscript(u.feed, s.framing);
      ResponseIsFirst(u.feed, s.framing);
      EncodedPrefix(u, frames, ws);
      EndToEnd.ForHandlersPrefix(EncodedAll(u, frames), EncodedAll(u, ws));
      HandledFrames(u, ws);
    }
  }

  /** How each frame travels: its type, its flag, its stream, its payload and its class. */
  lemma EncodedExactly(u: Setup, w: Wire)
    ensures
      var f, p := Encoded(u, w), u.protocol;
      && f.header.streamId == u.stream && f.header.version == p.version
      && (w.AttachResponse? ==> f.header.flags == 2 && f.header.correlationId == u.correlation)
      && (!w.AttachResponse? ==> f.header.flags == 4 && f.header.correlationId == 0)
      && match w
         case AttachResponse(_) => f.header.messageType == p.attach && f.payload == p.json(w)
         case ReplayBegin(_) => f.header.messageType == p.replayBegin && f.payload == p.json(w)
         case ReplayEnd => f.header.messageType == p.replayEnd && f.payload == []
         case OutputFrame(data) => f.header.messageType == p.output && f.payload == data
         case ExitFrame(_) => f.header.messageType == p.exit && f.payload == p.json(w)
    ensures ClassOf(w) == if w.OutputFrame? then Bulk else Control
  {
  }

  /**
   * The payloads a client's handlers start on, one by one: the begin mark, then each captured chunk, the end mark, and
   * then each output the session published from NextLive on, whole.
   */
  lemma ClientGetsTheData(u: Setup, events: seq<Event>, i: nat)
    requires u.Ok() && i < |Inbound.FramesOn(Run(u, events).net.receiver.started, u.stream)|
    ensures
      var s := Run(u, events);
      var m, h := s.framing.manager, s.framing.handler;
      && h.stage != Idle && u.feed in m.feeds && m.feeds[u.feed].session in m.outputs
      && var a := m.feeds[u.feed];
         var f := Inbound.FramesOn(s.net.receiver.started, u.stream)[i];
         var outputs, k, n := m.outputs[a.session], |a.replayed|, a.nextLive + i - |a.replayed| - 2;
         if i == 0 then f.header.messageType == u.protocol.replayBegin
         else if i <= k then
           f.header.messageType == u.protocol.output && a.replayed[i - 1].Output? && f.payload == a.replayed[i - 1].data
         else if i == k + 1 then f.header.messageType == u.protocol.replayEnd
         else if n <= |outputs| then
           n >= 1 && f.header.messageType == u.protocol.output && f.payload == outputs[n - 1]
         else f.header.messageType == u.protocol.exit && n == |outputs| + 1
  {
    hide Run, Inbound.FramesOn, EndToEnd.Inv, Encoded, Transcript, Attachments.AttachmentOk;
    hide Replay.Histories, Replay.Accounted, Flowing, Quiet;
    ClientSeesAttach(u, events);
    RunKeeps(u, events);
    var s := Run(u, events);
    var m := s.framing.manager;
    var a := m.feeds[u.feed];
    assert Replay.FeedOk(a, m.outputs, m.exits);
    TranscriptFrame(a, s.framing.handler.result, m.outputs[a.session], Replay.ExitOf(m, a.session), i);
    var ws := WholeTranscript(u.feed, s.framing);
    assert Inbound.FramesOn(s.net.receiver.started, u.stream)[i] == EncodedAll(u, ws[1..])[i] == Encoded(u, ws[i + 1]);
    EncodedExactly(u, ws[i + 1]);
  }

  /** Once the attach has finished its work and its stream is quiet, the client's handlers have started on all of it. */
  lemma ClientSeesAll(u: Setup, events: seq<Event>)
    requires u.Ok() && Finished(u.feed, Run(u, events).framing) && EndToEnd.Quiet(Run(u, events).net, u.stream)
    ensures
      var s := Run(u, events);
      && OnTranscript(u.feed, s.framing)
      && var ws := WholeTranscript(u.feed, s.framing);
         |ws| > 0 && Inbound.FramesOn(s.net.receiver.started, u.stream) == EncodedAll(u, ws[1..])
  {
    hide Run, Inbound.FramesOn, ReplayFraming.Inv, EndToEnd.Inv, WholeTranscript, EndToEnd.ForHandlers, EndToEnd.Quiet;
    RunKeeps(u, events);
    var s := Run(u, events);
    FinishedIsComplete(u.manager, u.feed, s.framing);
    EndToEnd.CompleteOnStream(u.net, s.net, u.stream);
    OursForHandlers(u, AcceptedOn(s.net, u.stream));
    ResponseIsFirst(u.feed, s.framing);
    HandledFrames(u, WholeTranscript(u.feed, s.framing));
  }
}
