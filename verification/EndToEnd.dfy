/**
 * Two peers over one byte stream, in one direction: the sending side with its scheduler, the connection's write
 * loop with arbitrarily split writes, the bytes in transit, the single reader and the receiving dispatcher
 * (peer.go, conn.go and codec.go composed).
 */
module EndToEnd {
  import opened Common
  import opened Frames
  import opened PeerLimits
  import opened Outbound
  import opened Scheduler
  import opened Codec
  import Sender
  import Inbound

  /** Limits of both peers and the frame configuration of both connections. */
  datatype Setup = Setup(sending: Limits, receiving: Limits, local: Config, remote: Config)

  /**
   * `handed` is the frame the write loop holds, `out` how many of its bytes it has written, `offered` whether
   * the scheduler's current request has reached the write loop; `parked` is a frame the reader has not yet
   * been able to dispatch.
   */
  datatype State = State(
    sender: Sender.State,
    offered: bool,
    handed: Option<Frame>,
    out: nat,
    broken: bool,
    written: seq<Frame>,
    transit: seq<Byte>,
    read: seq<Frame>,
    parked: Option<Frame>,
    serving: bool,
    receiver: Inbound.State)

  const INIT := State(Sender.INIT, false, None, 0, false, [], [], [], None, true, Inbound.INIT)

  datatype Event =
    | Local(sent: Sender.Event)    // the sending peer; a successful Sent needs the frame to be fully written
    | Hand                         // Conn.send validates the frame and passes it to the write loop
    | Write(n: nat)                // the transport takes n more bytes
    | Break(n: nat)                // the transport takes n more bytes and then fails
    | Read                         // Conn.ReadFrame returns a frame
    | Dispatch                     // the reader passes its frame to the dispatcher
    | StopServing                  // any terminal condition of Serve
    | Remote(seen: Inbound.Event)  // the receiving peer's workers and registrations

  predicate CanWrite(s: State, n: nat) {
    s.handed.Some? && !s.broken && s.out + n <= |Encode(s.handed.value)|
  }

  function WriteSome(s: State, n: nat): State
    requires CanWrite(s, n)
  {
    s.(out := s.out + n, transit := s.transit + Encode(s.handed.value)[s.out..s.out + n])
  }

  function Step(u: Setup, s: State, e: Event): State {
    match e
    case Local(Sent(true)) =>
      if s.offered && s.handed.None? then s.(sender := Sender.Step(u.sending, s.sender, Sender.Sent(true))) else s
    case Local(x) =>
      s.(sender := Sender.Step(u.sending, s.sender, x),
         offered := if x.Pass? && s.sender.phase.Idle? then false else s.offered)
    case Hand =>
      if s.sender.phase.Sending? && !s.offered && s.handed.None? && !s.broken
         && Check(s.sender.phase.request.frame, u.local) == None
      then s.(handed := Some(s.sender.phase.request.frame), out := 0, offered := true)
      else s
    case Write(n) =>
      if n > 0 && CanWrite(s, n) then
        var t := WriteSome(s, n);
        if t.out == |Encode(t.handed.value)|
        then t.(written := t.written + [t.handed.value], handed := None, out := 0)
        else t
      else s
    case Break(n) => if CanWrite(s, n) then WriteSome(s, n).(broken := true) else s
    case Read =>
      if s.serving && s.parked.None? && ReadFrom(u.remote, s.transit).Got? then
        var r := ReadFrom(u.remote, s.transit);
        s.(read := s.read + [r.frame], transit := r.rest,
           parked := if r.frame.header.flags == FLAG_RESPONSE then None else Some(r.frame))
      else s
    case Dispatch =>
      if s.serving && s.parked.Some? then
        var v := Inbound.Verdicts(u.receiving, s.receiver, s.parked.value);
        s.(receiver := Inbound.Dispatch(u.receiving, s.receiver, s.parked.value),
           parked := if v == Inbound.Wait then s.parked else None,
           serving := v == Inbound.Wait || v == Inbound.Queued)
      else s
    case StopServing => s.(serving := false, parked := None)
    case Remote(x) => if x.Arrive? then s else s.(receiver := Inbound.Step(u.receiving, s.receiver, x))
  }

  function Run(u: Setup, events: seq<Event>): State {
    if |events| == 0 then INIT else Step(u, Run(u, events[..|events| - 1]), events[|events| - 1])
  }

  // ----- Projections ------------------------------------------------------------

  function FramesOf(s: seq<Request>): (r: seq<Frame>)
    ensures |r| == |s|
  {
    seq(|s|, i requires 0 <= i < |s| => s[i].frame)
  }

  /** The frames that go to handlers: requests and events. */
  function ForHandlers(s: seq<Frame>): seq<Frame> {
    if |s| == 0 then []
    else ForHandlers(s[..|s| - 1]) + if s[|s| - 1].header.flags == FLAG_RESPONSE then [] else [s[|s| - 1]]
  }

  lemma ForHandlersAppend(s: seq<Frame>, f: Frame)
    ensures ForHandlers(s + [f]) == ForHandlers(s) + if f.header.flags == FLAG_RESPONSE then [] else [f]
  {
    DropLast(s, f);
  }

  lemma {:induction false} ForHandlersPrefix(a: seq<Frame>, b: seq<Frame>)
    requires a <= b
    ensures ForHandlers(a) <= ForHandlers(b)
  {
    if |a| < |b| {
      ForHandlersPrefix(a, b[..|b| - 1]);
    } else {
      assert a == b;
    }
  }

  lemma {:induction false} FramesOnPrefix(a: seq<Frame>, b: seq<Frame>, id: U64)
    requires a <= b
    ensures Inbound.FramesOn(a, id) <= Inbound.FramesOn(b, id)
  {
    if |a| < |b| {
      FramesOnPrefix(a, b[..|b| - 1], id);
    } else {
      assert a == b;
    }
  }

  lemma {:induction false} ProjectionsCommute(s: seq<Frame>, id: U64)
    ensures Inbound.FramesOn(ForHandlers(s), id) == ForHandlers(Inbound.FramesOn(s, id))
  {
    if |s| > 0 {
      var t, f := s[..|s| - 1], s[|s| - 1];
      ProjectionsCommute(t, id);
      Inbound.FramesOnAppend(ForHandlers(t), f, id);
      ForHandlersAppend(Inbound.FramesOn(t, id), f);
      assert ForHandlers(t) + [] == ForHandlers(t);
      assert Inbound.FramesOn(t, id) + [] == Inbound.FramesOn(t, id);
    }
  }

  lemma {:induction false} StreamOfRequests(s: seq<Request>, id: U64)
    ensures Inbound.FramesOn(FramesOf(s), id) == FramesOf(OnStream(s, id))
  {
    if |s| > 0 {
      StreamOfRequests(s[..|s| - 1], id);
      assert FramesOf(s)[..|s| - 1] == FramesOf(s[..|s| - 1]);
    } else {
      assert FramesOf(s) == [];
    }
  }

  // ----- What every step keeps -----------------------------------------------------

  function Held(s: State): seq<Frame> {
    if s.handed.Some? then [s.handed.value] else []
  }

  /** The write loop gets exactly what the scheduler selects, in that order. */
  ghost predicate Handover(s: State) {
    var selected := FramesOf(s.sender.selected);
    match s.sender.phase
    case Idle => s.handed.None? && selected == s.written
    case Sending(r) =>
      if s.offered then selected == s.written + Held(s)
      else s.handed.None? && selected == s.written + [r.frame]
    case _ => s.written + Held(s) <= selected
  }

  /** Bytes already read as frames, then bytes in transit, are exactly the bytes written. */
  ghost predicate Wire(s: State) {
    && (s.handed.None? ==> s.out == 0)
    && (s.handed.Some? ==> Sized(s.handed.value) && s.out <= |Encode(s.handed.value)|)
    && (forall f :: f in s.written ==> Sized(f))
    && (forall f :: f in s.read ==> Sized(f))
    && EncodeAll(s.read) + s.transit
       == EncodeAll(s.written) + if s.handed.Some? then Encode(s.handed.value)[..s.out] else []
  }

  /** The dispatcher has queued what the reader read for handlers, up to the frame the reader holds. */
  ghost predicate Reader(s: State) {
    if s.serving then
      s.receiver.accepted + (if s.parked.Some? then [s.parked.value] else []) == ForHandlers(s.read)
    else s.receiver.accepted <= ForHandlers(s.read)
  }

  ghost predicate Inv(u: Setup, s: State) {
    && Sender.Inv(u.sending, s.sender)
    && Inbound.Inv(u.receiving, s.receiver)
    && Handover(s) && Wire(s) && Reader(s)
  }

  lemma LocalHandover(u: Setup, s: State, x: Sender.Event)
    requires Handover(s)
    ensures Handover(Step(u, s, Local(x)))
  {
    hide Sender.Step;
    Sender.StepSelects(u.sending, s.sender, x);
    var t := Step(u, s, Local(x));
    LocalOnly(u, s, x);
    if s.sender.phase.Idle? && t.sender.phase.Sending? {
      assert FramesOf(t.sender.selected) == FramesOf(s.sender.selected) + [t.sender.phase.request.frame];
    }
  }

  /** A step of the sending peer touches nothing else. */
  lemma LocalOnly(u: Setup, s: State, x: Sender.Event)
    ensures
      var t := Step(u, s, Local(x));
      t == s || t == s.(sender := Sender.Step(u.sending, s.sender, x), offered := t.offered)
  {
  }

  lemma LocalKeeps(u: Setup, s: State, x: Sender.Event)
    requires u.sending.Ok() && Inv(u, s)
    ensures Inv(u, Step(u, s, Local(x)))
  {
    hide Sender.Step, Sender.Inv, Inbound.Inv, ForHandlers, EncodeAll;
    Sender.StepKeeps(u.sending, s.sender, x);
    LocalHandover(u, s, x);
    LocalOnly(u, s, x);
  }

  lemma HandKeeps(u: Setup, s: State)
    requires Handover(s) && Wire(s) && Reader(s)
    ensures Handover(Step(u, s, Hand)) && Wire(Step(u, s, Hand)) && Reader(Step(u, s, Hand))
  {
    hide Encode, EncodeAll, Check;
    if s.sender.phase.Sending? {
      AcceptedExactly(s.sender.phase.request.frame, u.local);
    }
  }

  lemma WriteSomeKeeps(s: State, n: nat)
    requires Handover(s) && Wire(s) && Reader(s) && CanWrite(s, n)
    ensures Handover(WriteSome(s, n)) && Wire(WriteSome(s, n)) && Reader(WriteSome(s, n))
  {
    hide Encode, EncodeAll, ForHandlers;
    var e, r, w := Encode(s.handed.value), EncodeAll(s.read), EncodeAll(s.written);
    var chunk := e[s.out..s.out + n];
    assert e[..s.out] + chunk == e[..s.out + n];
    assert r + (s.transit + chunk) == (r + s.transit) + chunk;
    assert (w + e[..s.out]) + chunk == w + (e[..s.out] + chunk);
  }

  /** The last byte of a frame moves it from the write loop to the frames written. */
  lemma FrameDoneKeeps(s: State)
    requires Handover(s) && Wire(s) && Reader(s) && s.handed.Some? && s.out == |Encode(s.handed.value)|
    ensures
      var t := s.(written := s.written + [s.handed.value], handed := None, out := 0);
      Handover(t) && Wire(t) && Reader(t)
  {
    hide Encode, EncodeAll, ForHandlers;
    var f := s.handed.value;
    EncodeAllAppend(s.written, f);
    assert Encode(f)[..s.out] == Encode(f);
    assert EncodeAll(s.written + [f]) + [] == EncodeAll(s.written) + Encode(f);
    assert (s.written + [f]) + [] == s.written + [f];
  }

  lemma WriteKeeps(u: Setup, s: State, n: nat)
    requires Handover(s) && Wire(s) && Reader(s)
    ensures
      var t := Step(u, s, Write(n));
      Handover(t) && Wire(t) && Reader(t)
  {
    hide Handover, Wire, Reader;
    if CanWrite(s, n) {
      WriteSomeKeeps(s, n);
      if WriteSome(s, n).out == |Encode(s.handed.value)| {
        FrameDoneKeeps(WriteSome(s, n));
      }
    }
  }

  lemma BreakKeeps(u: Setup, s: State, n: nat)
    requires Handover(s) && Wire(s) && Reader(s)
    ensures
      var t := Step(u, s, Break(n));
      Handover(t) && Wire(t) && Reader(t)
  {
    hide Encode, EncodeAll, ForHandlers;
    if CanWrite(s, n) {
      WriteSomeKeeps(s, n);
    }
  }

  lemma ReadKeeps(u: Setup, s: State)
    requires Handover(s) && Wire(s) && Reader(s)
    ensures Handover(Step(u, s, Read)) && Wire(Step(u, s, Read)) && Reader(Step(u, s, Read))
  {
    hide ReadFrom, Encode, EncodeAll, ForHandlers;
    var r := ReadFrom(u.remote, s.transit);
    if s.serving && s.parked.None? && r.Got? {
      ReadOneKeeps(u, s, r.frame, r.rest);
    }
  }

  lemma ReadOneKeeps(u: Setup, s: State, f: Frame, rest: seq<Byte>)
    requires Wire(s) && Reader(s) && s.serving && s.parked.None? && ReadFrom(u.remote, s.transit) == Got(f, rest)
    ensures
      var t := s.(read := s.read + [f], transit := rest,
                  parked := if f.header.flags == FLAG_RESPONSE then None else Some(f));
      Wire(t) && Reader(t)
  {
    hide ReadFrom, Encode, EncodeAll, ForHandlers;
    ReadInvertsEncode(u.remote, s.transit, f, rest);
    EncodeAllAppend(s.read, f);
    assert EncodeAll(s.read) + (Encode(f) + rest) == (EncodeAll(s.read) + Encode(f)) + rest;
    ForHandlersAppend(s.read, f);
    assert s.receiver.accepted + [] == s.receiver.accepted;
  }

  lemma DispatchKeeps(u: Setup, s: State)
    requires u.receiving.Ok() && Inbound.Inv(u.receiving, s.receiver) && Handover(s) && Wire(s) && Reader(s)
    ensures
      var t := Step(u, s, Dispatch);
      Inbound.Inv(u.receiving, t.receiver) && Handover(t) && Wire(t) && Reader(t)
  {
    hide ForHandlers, Encode, EncodeAll, Inbound.Inv, Inbound.Dispatch, Inbound.Verdicts;
    if s.serving && s.parked.Some? {
      Inbound.DispatchKeeps(u.receiving, s.receiver, s.parked.value);
    }
  }

  lemma RemoteKeeps(u: Setup, s: State, x: Inbound.Event)
    requires u.receiving.Ok() && Inbound.Inv(u.receiving, s.receiver) && !x.Arrive?
    requires Handover(s) && Wire(s) && Reader(s)
    ensures
      var t := Step(u, s, Remote(x));
      Inbound.Inv(u.receiving, t.receiver) && Handover(t) && Wire(t) && Reader(t)
  {
    hide ForHandlers, Encode, EncodeAll, Inbound.Inv, Inbound.Step;
    Inbound.StepKeeps(u.receiving, s.receiver, x);
    Inbound.OnlyArrivalsQueue(u.receiving, s.receiver, x);
  }

  lemma StopKeeps(u: Setup, s: State)
    requires Handover(s) && Wire(s) && Reader(s)
    ensures
      var t := Step(u, s, StopServing);
      Handover(t) && Wire(t) && Reader(t)
  {
    hide Encode, EncodeAll, ForHandlers;
  }

  lemma StepKeeps(u: Setup, s: State, e: Event)
    requires u.sending.Ok() && u.receiving.Ok() && Inv(u, s)
    ensures Inv(u, Step(u, s, e))
  {
    hide Sender.Inv, Inbound.Inv, Handover, Wire, Reader;
    match e
    case Local(x) => LocalKeeps(u, s, x);
    case Hand => HandKeeps(u, s);
    case Write(n) => WriteKeeps(u, s, n);
    case Break(n) => BreakKeeps(u, s, n);
    case Read => ReadKeeps(u, s);
    case Dispatch => DispatchKeeps(u, s);
    case StopServing => StopKeeps(u, s);
    case Remote(x) =>
      if !x.Arrive? {
        RemoteKeeps(u, s, x);
      }
  }

  lemma {:induction false} RunKeeps(u: Setup, events: seq<Event>)
    requires u.sending.Ok() && u.receiving.Ok()
    ensures Inv(u, Run(u, events))
  {
    if |events| == 0 {
      Sender.RunKeeps(u.sending, []);
      Inbound.RunKeeps(u.receiving, []);
      assert FramesOf([]) == [];
    } else {
      RunKeeps(u, events[..|events| - 1]);
      StepKeeps(u, Run(u, events[..|events| - 1]), events[|events| - 1]);
    }
  }

  // ----- End-to-end order ------------------------------------------------------------

  /** The frames read are a prefix of the frames the scheduler selected, however the writes were split. */
  lemma ReadIsPrefixOfSelected(u: Setup, s: State)
    requires Inv(u, s)
    ensures s.read <= FramesOf(s.sender.selected)
  {
    hide Encode, EncodeAll, Sender.Inv, Inbound.Inv;
    var selected := FramesOf(s.sender.selected);
    assert s.written + Held(s) <= selected;
    if s.handed.Some? {
      ReadIsPrefixOfWritten(s.read, s.transit, s.written, s.handed.value, s.out);
      PrefixTransitive(s.read, s.written + [s.handed.value], selected);
    } else if |s.read| > 0 {
      var any := s.read[0];
      assert any in s.read;
      assert EncodeAll(s.written) + Encode(any)[..0] == EncodeAll(s.written) + [];
      ReadIsPrefixOfWritten(s.read, s.transit, s.written, any, 0);
      PrefixTransitive(s.read, s.written, selected);
    }
  }

  /** On one stream: what was read, and what handlers started on, against what was accepted. */
  lemma OrderOnStream(u: Setup, s: State, id: U64)
    requires Inv(u, s)
    ensures Inbound.FramesOn(s.read, id) <= Inbound.FramesOn(FramesOf(s.sender.accepted), id)
    ensures Inbound.FramesOn(s.receiver.started, id)
         <= ForHandlers(Inbound.FramesOn(FramesOf(s.sender.accepted), id))
  {
    hide Encode, EncodeAll, ForHandlers, Inbound.FramesOn, Handover, Wire, Valid;
    var handled := Inbound.FramesOn(s.receiver.started, id);
    assert Inbound.FramesOn(s.receiver.accepted, id) == handled + Inbound.Backlog(s.receiver, id);
    assert s.receiver.accepted <= ForHandlers(s.read);
    FramesOnPrefix(s.receiver.accepted, ForHandlers(s.read), id);
    ProjectionsCommute(s.read, id);
    ReadIsPrefixOfSelected(u, s);
    SentOrder(u.sending, s.sender, id);
    var selected := Inbound.FramesOn(FramesOf(s.sender.selected), id);
    FramesOnPrefix(s.read, FramesOf(s.sender.selected), id);
    ForHandlersPrefix(Inbound.FramesOn(s.read, id), selected);
    ForHandlersPrefix(selected, Inbound.FramesOn(FramesOf(s.sender.accepted), id));
  }

  /**
   * End-to-end order: in every run of two peers over one byte stream and on every stream, the requests and
   * events handed to the receiver's handlers are a prefix of the frames the sender accepted on that stream,
   * whatever their traffic classes and however the writes are split.
   */
  lemma EndToEndOrder(u: Setup, events: seq<Event>, id: U64)
    requires u.sending.Ok() && u.receiving.Ok()
    ensures
      var s := Run(u, events);
      Inbound.FramesOn(s.receiver.started, id)
      <= ForHandlers(Inbound.FramesOn(FramesOf(s.sender.accepted), id))
  {
    RunKeeps(u, events);
    OrderOnStream(u, Run(u, events), id);
  }

  /** Everything that was sent has come all the way through: nothing queued, in transit, held or waiting. */
  ghost predicate Quiet(s: State, id: U64) {
    && !s.sender.closed && s.sender.phase.Idle? && QueueOf(s.sender.queues, id) == []
    && s.transit == []
    && s.serving && s.parked.None? && Inbound.Backlog(s.receiver, id) == []
  }

  lemma CompleteOnStream(u: Setup, s: State, id: U64)
    requires Inv(u, s) && Quiet(s, id)
    ensures Inbound.FramesOn(s.receiver.started, id)
         == ForHandlers(Inbound.FramesOn(FramesOf(s.sender.accepted), id))
  {
    hide Encode, EncodeAll, ForHandlers, Inbound.FramesOn, Handover, Wire, Reader, Valid;
    QuietSender(u.sending, s.sender, id);
    QuietWire(s);
    ProjectionsCommute(s.read, id);
    assert Inbound.FramesOn(s.receiver.accepted, id) == Inbound.FramesOn(s.receiver.started, id) + [];
  }

  /** No loss: whenever a stream is quiet, its handlers have been given exactly what was accepted on it. */
  lemma EndToEndComplete(u: Setup, events: seq<Event>, id: U64)
    requires u.sending.Ok() && u.receiving.Ok() && Quiet(Run(u, events), id)
    ensures
      var s := Run(u, events);
      Inbound.FramesOn(s.receiver.started, id)
      == ForHandlers(Inbound.FramesOn(FramesOf(s.sender.accepted), id))
  {
    hide Run;
    RunKeeps(u, events);
    CompleteOnStream(u, Run(u, events), id);
  }

  lemma QuietSender(c: Limits, s: Sender.State, id: U64)
    requires Sender.Inv(c, s) && !s.closed && QueueOf(s.queues, id) == []
    ensures Inbound.FramesOn(FramesOf(s.selected), id) == Inbound.FramesOn(FramesOf(s.accepted), id)
  {
    hide OnStream, Inbound.FramesOn;
    StreamOfRequests(s.selected, id);
    StreamOfRequests(s.accepted, id);
    OnNoStream();
    assert OnStream(s.accepted, id) == OnStream(s.selected, id) + [] + [];
  }

  lemma QuietWire(s: State)
    requires Handover(s) && Wire(s) && Reader(s) && s.sender.phase.Idle? && s.transit == []
    requires s.serving && s.parked.None?
    ensures FramesOf(s.sender.selected) == s.read && s.receiver.accepted == ForHandlers(s.read)
  {
    hide Encode, EncodeAll, ForHandlers;
    AllRead(s.read, s.written);
  }

  lemma AllRead(read: seq<Frame>, written: seq<Frame>)
    requires (forall f :: f in read ==> Sized(f)) && (forall f :: f in written ==> Sized(f))
    requires EncodeAll(read) + [] == EncodeAll(written) + []
    ensures read == written
  {
    hide Encode, EncodeAll;
    if |read + written| > 0 {
      var any := (read + written)[0];
      assert Encode(any)[..0] == [];
      ReadIsPrefixOfWritten(read, [], written, any, 0);
      ReadIsPrefixOfWritten(written, [], read, any, 0);
    }
  }

  lemma SentOrder(c: Limits, s: Sender.State, id: U64)
    requires Sender.Inv(c, s)
    ensures Inbound.FramesOn(FramesOf(s.selected), id) <= Inbound.FramesOn(FramesOf(s.accepted), id)
  {
    hide OnStream, Inbound.FramesOn;
    StreamOfRequests(s.selected, id);
    StreamOfRequests(s.accepted, id);
    assert OnStream(s.accepted, id)
        == OnStream(s.selected, id) + (QueueOf(s.queues, id) + OnStream(s.dropped, id));
  }

  // ----- A broken link -------------------------------------------------------------------

  /** A failed write is the last: the bytes it got out stay in the stream, and no others follow. */
  lemma BrokenWritesNoMore(u: Setup, s: State, n: nat, e: Event)
    requires CanWrite(s, n)
    ensures
      var t := Step(u, s, Break(n));
      t.broken && t.transit == s.transit + Encode(s.handed.value)[s.out..s.out + n]
    ensures s.broken ==> Step(u, s, e).broken && |Step(u, s, e).transit| <= |s.transit|
  {
    hide Encode, Sender.Step, Inbound.Step, Inbound.Dispatch, Inbound.Verdicts, Check;
    ReadShortens(u.remote, s.transit);
  }

  lemma ReadShortens(config: Config, input: seq<Byte>)
    ensures ReadFrom(config, input).Got? ==> |ReadFrom(config, input).rest| <= |input|
  {
    hide DecodeHeader, CheckHeader, Check;
  }

  // ----- Where frames come from ---------------------------------------------------------

  /** Only a send adds to what was accepted, and only the frame sent, if it is admitted. */
  lemma StepAccepts(u: Setup, s: State, e: Event)
    ensures
      var accepted := Step(u, s, e).sender.accepted;
      if e.Local? && e.sent.Send?
         && Sender.Admitted(u.sending, s.sender, Request(|s.sender.accepted|, e.sent.frame, e.sent.kind))
      then accepted == s.sender.accepted + [Request(|s.sender.accepted|, e.sent.frame, e.sent.kind)]
      else accepted == s.sender.accepted
  {
    hide Select, ReadFrom, Encode, Inbound.Dispatch, Inbound.Step, Push, Check, Admit;
  }

  /** What was read stays read, and what was started stays started. */
  lemma StepLogs(u: Setup, s: State, e: Event)
    ensures s.read <= Step(u, s, e).read && |Step(u, s, e).read| <= |s.read| + 1
    ensures !e.Read? ==> Step(u, s, e).read == s.read
    ensures s.receiver.started <= Step(u, s, e).receiver.started
  {
    hide ReadFrom, Encode, Check, Sender.Step, Inbound.Verdicts;
  }

  lemma {:induction false} FramesOnMember(s: seq<Frame>, f: Frame, id: U64)
    ensures f in Inbound.FramesOn(s, id) <==> f in s && f.header.streamId == id
  {
    if |s| > 0 {
      FramesOnMember(s[..|s| - 1], f, id);
      assert s == s[..|s| - 1] + [s[|s| - 1]];
    }
  }

  lemma {:induction false} ForHandlersMember(s: seq<Frame>, f: Frame)
    ensures f in ForHandlers(s) ==> f in s
  {
    if |s| > 0 {
      ForHandlersMember(s[..|s| - 1], f);
      assert s == s[..|s| - 1] + [s[|s| - 1]];
    }
  }

  /** A frame read, or started on, was accepted from the sender. */
  lemma FrameWasAccepted(u: Setup, s: State, f: Frame)
    requires Inv(u, s) && (f in s.read || f in s.receiver.started)
    ensures f in FramesOf(s.sender.accepted)
  {
    hide Inv, Inbound.FramesOn, ForHandlers;
    var id := f.header.streamId;
    var accepted := FramesOf(s.sender.accepted);
    OrderOnStream(u, s, id);
    FramesOnMember(s.read, f, id);
    FramesOnMember(s.receiver.started, f, id);
    ForHandlersMember(Inbound.FramesOn(accepted, id), f);
    FramesOnMember(accepted, f, id);
  }
}
