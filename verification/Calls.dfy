/**
 * Calls between two peers, both directions of the connection and the caller's correlation table at once: a request
 * goes out under a reserved id, the remote handler it starts may respond, and what comes back is matched by that id
 * (peer.go, Call, Respond, Serve and resolve).
 */
module Calls {
  import opened Common
  import opened Frames
  import opened Outbound
  import opened EndToEnd
  import Sender
  import Inbound
  import Correlation

  /** `there` carries the caller's frames, `back` the remote peer's. */
  datatype Links = Links(there: EndToEnd.Setup, back: EndToEnd.Setup)
  {
    predicate Ok() {
      there.sending.Ok() && there.receiving.Ok() && back.sending.Ok() && back.receiving.Ok()
    }
  }

  /** A response the remote peer accepted for sending, and the request its handler was started on. */
  datatype Answer = Answer(request: Frame, response: Frame)

  /**
   * Both directions, the caller's table and id counter, and the response its reader has in hand. Logs: the id and the
   * request of every call, by slot; all answers; and the frames that calls got.
   */
  datatype World = World(
    there: EndToEnd.State,
    back: EndToEnd.State,
    table: Correlation.State,
    next: U64,
    arrived: Option<Frame>,
    ids: seq<U64>,
    requests: seq<Frame>,
    answers: seq<Answer>,
    results: map<nat, Frame>)

  const START := World(EndToEnd.INIT, EndToEnd.INIT, Correlation.INIT, 0, None, [], [], [], map[])

  datatype Act =
    | Reserve(attempts: nat, frame: Frame)         // reservePending, after so many increments of the counter
    | SetLabel(slot: nat)
    | SendRequest(slot: nat)
    | Abandon(slot: nat)
    | Respond(started: nat, response: Frame)       // by the handler of the so-manieth started frame
    | ReadBack                                     // the caller's reader reads a frame
    | Resolve                                      // and resolves it if it is a response
    | Fill(slot: nat)
    | FailCaller
    | There(move: EndToEnd.Event)                  // anything else on the way there, other frames included
    | Back(move: EndToEnd.Event)                   // and on the way back

  predicate Requests(e: EndToEnd.Event) {
    e.Local? && e.sent.Send? && e.sent.frame.header.flags == FLAG_REQUEST
  }

  predicate Responds(e: EndToEnd.Event) {
    e.Local? && e.sent.Send? && e.sent.frame.header.flags == FLAG_RESPONSE
  }

  /** reservePending takes the first id after the counter that is neither 0 nor in use. */
  ghost predicate Reserves(s: World, attempts: nat) {
    && attempts > 0 && !s.table.closed
    && !Correlation.Taken(s.table.pending, s.table.canceled, Correlation.Nth(s.next, attempts))
    && forall k :: 0 < k < attempts ==>
         Correlation.Taken(s.table.pending, s.table.canceled, Correlation.Nth(s.next, k))
  }

  function WithId(f: Frame, id: U64): Frame {
    f.(header := f.header.(correlationId := id))
  }

  /** The header fields Respond sets. */
  function ResponseTo(request: Frame, response: Frame): Frame {
    var h := response.header;
    response.(header := h.(flags := FLAG_RESPONSE, correlationId := request.header.correlationId,
                           streamId := request.header.streamId,
                           messageType := if h.messageType == 0 then request.header.messageType else h.messageType))
  }

  function Sending(f: Frame): EndToEnd.Event {
    EndToEnd.Local(Sender.Send(f, Control))
  }

  ghost function Table(u: Links, s: World, e: Correlation.Event): World {
    s.(table := Correlation.Step(u.there.sending, s.table, e))
  }

  ghost function Step(u: Links, s: World, a: Act): World {
    match a
    case Reserve(n, f) =>
      if f.header.flags != FLAG_REQUEST || !Reserves(s, n) then s
      else
        var id := Correlation.Nth(s.next, n);
        Table(u, s, Correlation.Reserve(id)).(next := id, ids := s.ids + [id], requests := s.requests + [WithId(f, id)])
    case SetLabel(k) =>
      if k < |s.ids| && k < |s.requests|
      then Table(u, s, Correlation.SetLabel(s.ids[k], Correlation.LabelOf(s.requests[k]))) else s
    case SendRequest(k) =>
      if k < |s.ids| && k < |s.requests| && s.ids[k] !in s.table.unlabelled
      then s.(there := EndToEnd.Step(u.there, s.there, Sending(s.requests[k]))) else s
    case Abandon(k) => if k < |s.ids| then Table(u, s, Correlation.Abandon(s.ids[k])) else s
    case Respond(i, response) =>
      if i >= |s.there.receiver.started| || s.there.receiver.started[i].header.flags != FLAG_REQUEST then s
      else
        var request := s.there.receiver.started[i];
        var f := ResponseTo(request, response);
        var t := EndToEnd.Step(u.back, s.back, Sending(f));
        s.(back := t, answers := if |t.sender.accepted| > |s.back.sender.accepted|
                                 then s.answers + [Answer(request, f)] else s.answers)
    case ReadBack =>
      if s.arrived.Some? then s
      else
        var t := EndToEnd.Step(u.back, s.back, EndToEnd.Read);
        s.(back := t, arrived := if |t.read| > |s.back.read| && t.read[|s.back.read|].header.flags == FLAG_RESPONSE
                                 then Some(t.read[|s.back.read|]) else None)
    case Resolve =>
      if s.arrived.None? then s
      else
        var f := s.arrived.value;
        var verdict := Correlation.Classify(s.table, f);
        var t := Table(u, s, Correlation.Resolve(f)).(arrived := None);
        if verdict.Matched? then t.(results := s.results[s.table.pending[f.header.correlationId].slot := f])
        else if verdict.Unexpected? then t.(back := EndToEnd.Step(u.back, s.back, EndToEnd.StopServing))
        else t
    case Fill(slot) => Table(u, s, Correlation.Fill(slot))
    case FailCaller =>
      Table(u, s, Correlation.Fail).(there := EndToEnd.Step(u.there, s.there, EndToEnd.Local(Sender.Fail)))
    case There(move) => if Requests(move) then s else s.(there := EndToEnd.Step(u.there, s.there, move))
    case Back(move) =>
      if Responds(move) || move.Read? then s else s.(back := EndToEnd.Step(u.back, s.back, move))
  }

  ghost function Run(u: Links, acts: seq<Act>): World {
    if |acts| == 0 then START else Step(u, Run(u, acts[..|acts| - 1]), acts[|acts| - 1])
  }

  // ----- What every step keeps --------------------------------------------------------------------

  ghost predicate Answered(answers: seq<Answer>, f: Frame) {
    exists a :: a in answers && a.response == f
  }

  /** Every record's slot has its id in the log, and every id in use was issued. */
  ghost predicate Issued(table: Correlation.State, ids: seq<U64>) {
    && |ids| == table.calls
    && (forall id :: id in table.pending ==> table.pending[id].slot < |ids| && ids[table.pending[id].slot] == id)
    && (forall id :: id in table.canceled ==> id in ids)
  }

  ghost predicate Labelled(ids: seq<U64>, requests: seq<Frame>) {
    && |requests| == |ids|
    && forall k :: 0 <= k < |ids| ==> requests[k].header.correlationId == ids[k]
  }

  /** Every request the caller's peer accepted is the request of some call. */
  ghost predicate OnlyCalls(accepted: seq<Frame>, requests: seq<Frame>) {
    forall f :: f in accepted && f.header.flags == FLAG_REQUEST ==> f in requests
  }

  /** Every response the remote peer accepted is the answer to a request. */
  ghost predicate OnlyAnswers(accepted: seq<Frame>, answers: seq<Answer>) {
    forall f :: f in accepted && f.header.flags == FLAG_RESPONSE ==> Answered(answers, f)
  }

  ghost predicate AnswersOk(answers: seq<Answer>, started: seq<Frame>) {
    forall a :: a in answers ==>
      && a.request in started && a.request.header.flags == FLAG_REQUEST
      && a.response.header.correlationId == a.request.header.correlationId
  }

  ghost predicate ResultsOk(results: map<nat, Frame>, ids: seq<U64>, answers: seq<Answer>) {
    forall k :: k in results ==> ResultOk(k, results[k], ids, answers)
  }

  ghost predicate ResultOk(k: nat, f: Frame, ids: seq<U64>, answers: seq<Answer>) {
    k < |ids| && f.header.correlationId == ids[k] && Answered(answers, f)
  }

  /** Until 2^64 calls have been made the k-th call has id k + 1, and the counter counts them. */
  ghost predicate Counting(next: U64, ids: seq<U64>) {
    |ids| < TWO64 ==> next == |ids| && forall k :: 0 <= k < |ids| ==> ids[k] == k + 1
  }

  ghost predicate Inv(u: Links, s: World) {
    && EndToEnd.Inv(u.there, s.there) && EndToEnd.Inv(u.back, s.back)
    && Issued(s.table, s.ids) && Labelled(s.ids, s.requests) && Counting(s.next, s.ids)
    && OnlyCalls(FramesOf(s.there.sender.accepted), s.requests)
    && OnlyAnswers(FramesOf(s.back.sender.accepted), s.answers)
    && AnswersOk(s.answers, s.there.receiver.started)
    && (s.arrived.Some? ==> Answered(s.answers, s.arrived.value))
    && ResultsOk(s.results, s.ids, s.answers)
  }

  // ----- The table -----------------------------------------------------------------------------------

  lemma TableKeeps(u: Links, table: Correlation.State, ids: seq<U64>, e: Correlation.Event)
    requires Issued(table, ids) && !e.Reserve?
    ensures Issued(Correlation.Step(u.there.sending, table, e), ids)
  {
    hide IndexOf, Correlation.Slots;
    if e.Abandon? && e.id in table.pending {
      assert ids[table.pending[e.id].slot] in ids;
    }
  }

  lemma ReserveKeeps(u: Links, s: World, attempts: nat)
    requires Issued(s.table, s.ids) && Counting(s.next, s.ids) && Reserves(s, attempts)
    ensures
      var id := Correlation.Nth(s.next, attempts);
      && Issued(Correlation.Step(u.there.sending, s.table, Correlation.Reserve(id)), s.ids + [id])
      && Counting(id, s.ids + [id])
  {
    var id := Correlation.Nth(s.next, attempts);
    if |s.ids| + 1 < TWO64 {
      FirstAttempt(s, attempts);
    }
  }

  /** Before the counter wraps its next value is unused, so the first attempt succeeds. */
  lemma FirstAttempt(s: World, attempts: nat)
    requires Issued(s.table, s.ids) && Counting(s.next, s.ids) && Reserves(s, attempts) && |s.ids| + 1 < TWO64
    ensures attempts == 1 && Correlation.Nth(s.next, attempts) == |s.ids| + 1
  {
    var id: U64 := |s.ids| + 1;
    assert Correlation.Nth(s.next, 1) == id;
    assert id !in s.ids;
    assert id !in s.table.pending && id !in s.table.canceled;
  }

  // ----- The links -----------------------------------------------------------------------------------

  lemma AcceptedMember(accepted: seq<Request>, r: Request, f: Frame)
    ensures f in FramesOf(accepted + [r]) <==> f in FramesOf(accepted) || f == r.frame
  {
    assert FramesOf(accepted + [r]) == FramesOf(accepted) + [r.frame];
  }

  lemma ThereKeeps(u: Links, s: World, move: EndToEnd.Event)
    requires u.Ok() && EndToEnd.Inv(u.there, s.there) && OnlyCalls(FramesOf(s.there.sender.accepted), s.requests)
    requires AnswersOk(s.answers, s.there.receiver.started)
    requires Requests(move) ==> move.sent.frame in s.requests
    ensures
      var t := EndToEnd.Step(u.there, s.there, move);
      && EndToEnd.Inv(u.there, t) && OnlyCalls(FramesOf(t.sender.accepted), s.requests)
      && AnswersOk(s.answers, t.receiver.started)
  {
    hide EndToEnd.Step, EndToEnd.Inv, Sender.Admitted, FramesOf;
    EndToEnd.StepKeeps(u.there, s.there, move);
    StepAccepts(u.there, s.there, move);
    StepLogs(u.there, s.there, move);
    if move.Local? && move.sent.Send? {
      forall f
        ensures f in FramesOf(s.there.sender.accepted
                              + [Request(|s.there.sender.accepted|, move.sent.frame, move.sent.kind)])
           <==> f in FramesOf(s.there.sender.accepted) || f == move.sent.frame
      {
        AcceptedMember(s.there.sender.accepted, Request(|s.there.sender.accepted|, move.sent.frame, move.sent.kind), f);
      }
    }
  }

  lemma BackKeeps(u: Links, back: EndToEnd.State, move: EndToEnd.Event, answers: seq<Answer>)
    requires u.Ok() && EndToEnd.Inv(u.back, back) && OnlyAnswers(FramesOf(back.sender.accepted), answers)
    requires !Responds(move)
    ensures
      var t := EndToEnd.Step(u.back, back, move);
      EndToEnd.Inv(u.back, t) && OnlyAnswers(FramesOf(t.sender.accepted), answers)
  {
    hide EndToEnd.Step, EndToEnd.Inv, Sender.Admitted, FramesOf, Answered;
    EndToEnd.StepKeeps(u.back, back, move);
    StepAccepts(u.back, back, move);
    if move.Local? && move.sent.Send? {
      forall f
        ensures f in FramesOf(back.sender.accepted + [Request(|back.sender.accepted|, move.sent.frame, move.sent.kind)])
           <==> f in FramesOf(back.sender.accepted) || f == move.sent.frame
      {
        AcceptedMember(back.sender.accepted, Request(|back.sender.accepted|, move.sent.frame, move.sent.kind), f);
      }
    }
  }

  lemma AnswerMore(answers: seq<Answer>, a: Answer, f: Frame)
    ensures Answered(answers, f) ==> Answered(answers + [a], f)
    ensures Answered(answers + [a], a.response)
  {
    assert a in answers + [a];
    if Answered(answers, f) {
      var b :| b in answers && b.response == f;
      assert b in answers + [a];
    }
  }

  /** A response is sent, and logged as the answer to the request its handler was started on. */
  lemma RespondLinks(u: Links, back: EndToEnd.State, answers: seq<Answer>, a: Answer)
    requires u.Ok() && EndToEnd.Inv(u.back, back) && OnlyAnswers(FramesOf(back.sender.accepted), answers)
    ensures
      var t := EndToEnd.Step(u.back, back, Sending(a.response));
      && EndToEnd.Inv(u.back, t)
      && OnlyAnswers(FramesOf(t.sender.accepted),
                     if |t.sender.accepted| > |back.sender.accepted| then answers + [a] else answers)
  {
    hide EndToEnd.Step, EndToEnd.Inv, Sender.Admitted, FramesOf, Answered;
    EndToEnd.StepKeeps(u.back, back, Sending(a.response));
    StepAccepts(u.back, back, Sending(a.response));
    var r := Request(|back.sender.accepted|, a.response, Control);
    forall f
      ensures f in FramesOf(back.sender.accepted + [r]) <==> f in FramesOf(back.sender.accepted) || f == a.response
      ensures Answered(answers, f) ==> Answered(answers + [a], f)
      ensures Answered(answers + [a], a.response)
    {
      AcceptedMember(back.sender.accepted, r, f);
      AnswerMore(answers, a, f);
    }
  }

  lemma RespondKeeps(u: Links, s: World, i: nat, response: Frame)
    requires u.Ok()
    ensures Inv(u, s) ==> Inv(u, Step(u, s, Respond(i, response)))
  {
    hide EndToEnd.Step, EndToEnd.Inv, FramesOf, Answered, Issued, Labelled, Counting, OnlyCalls, OnlyAnswers,
      Correlation.Step;
    if Inv(u, s) {
      if i < |s.there.receiver.started| && s.there.receiver.started[i].header.flags == FLAG_REQUEST {
        var request := s.there.receiver.started[i];
        var a := Answer(request, ResponseTo(request, response));
        RespondLinks(u, s.back, s.answers, a);
        AnswersGrow(s, a);
      }
    }
  }

  lemma AnswersGrow(s: World, a: Answer)
    requires AnswersOk(s.answers, s.there.receiver.started) && ResultsOk(s.results, s.ids, s.answers)
    requires a.request in s.there.receiver.started && a.request.header.flags == FLAG_REQUEST
    requires a.response.header.correlationId == a.request.header.correlationId
    ensures AnswersOk(s.answers + [a], s.there.receiver.started) && ResultsOk(s.results, s.ids, s.answers + [a])
    ensures s.arrived.Some? && Answered(s.answers, s.arrived.value) ==> Answered(s.answers + [a], s.arrived.value)
  {
    hide Answered;
    if s.arrived.Some? {
      AnswerMore(s.answers, a, s.arrived.value);
    }
    forall k | k in s.results
      ensures ResultOk(k, s.results[k], s.ids, s.answers + [a])
    {
      assert ResultOk(k, s.results[k], s.ids, s.answers);
      AnswerMore(s.answers, a, s.results[k]);
    }
  }

  lemma ReadBackKeeps(u: Links, s: World)
    requires u.Ok()
    ensures Inv(u, s) ==> Inv(u, Step(u, s, ReadBack))
  {
    hide EndToEnd.Step, EndToEnd.Inv, FramesOf, Answered, Issued, Labelled, Counting, OnlyCalls, AnswersOk, ResultsOk,
      Correlation.Step;
    if Inv(u, s) {
      if s.arrived.None? {
        BackKeeps(u, s.back, EndToEnd.Read, s.answers);
        StepLogs(u.back, s.back, EndToEnd.Read);
        var t := EndToEnd.Step(u.back, s.back, EndToEnd.Read);
        if |t.read| > |s.back.read| {
          FrameWasAccepted(u.back, t, t.read[|s.back.read|]);
        }
      }
    }
  }

  lemma ResolveKeeps(u: Links, s: World)
    requires u.Ok()
    ensures Inv(u, s) ==> Inv(u, Step(u, s, Resolve))
  {
    hide EndToEnd.Step, EndToEnd.Inv, FramesOf, Answered, Labelled, Counting, OnlyCalls, OnlyAnswers, AnswersOk,
      Correlation.Step, Correlation.Classify;
    if Inv(u, s) {
      if s.arrived.Some? {
        var f := s.arrived.value;
        TableKeeps(u, s.table, s.ids, Correlation.Resolve(f));
        BackKeeps(u, s.back, EndToEnd.StopServing, s.answers);
        MatchedIsPending(s.table, f);
      }
    }
  }

  lemma MatchedIsPending(table: Correlation.State, f: Frame)
    ensures Correlation.Classify(table, f).Matched? ==> f.header.correlationId in table.pending
  {
  }

  lemma CallKeeps(u: Links, s: World, n: nat, f: Frame)
    requires u.Ok()
    ensures Inv(u, s) ==> Inv(u, Step(u, s, Reserve(n, f)))
  {
    hide EndToEnd.Inv, FramesOf, Answered, Issued, Counting, OnlyAnswers, AnswersOk, Correlation.Step, Reserves,
      Correlation.Nth;
    if Inv(u, s) {
      if f.header.flags == FLAG_REQUEST && Reserves(s, n) {
        ReserveKeeps(u, s, n);
      }
    }
  }

  lemma StepKeeps(u: Links, s: World, a: Act)
    requires u.Ok()
    ensures Inv(u, s) ==> Inv(u, Step(u, s, a))
  {
    hide EndToEnd.Step, EndToEnd.Inv, FramesOf, Answered, Issued, Counting, OnlyCalls, OnlyAnswers, AnswersOk,
      ResultsOk, Correlation.Step, Reserves;
    if Inv(u, s) {
      match a
      case Reserve(n, f) => CallKeeps(u, s, n, f);
      case SetLabel(k) =>
        if k < |s.ids| {
          TableKeeps(u, s.table, s.ids, Correlation.SetLabel(s.ids[k], Correlation.LabelOf(s.requests[k])));
        }
      case SendRequest(k) =>
        if k < |s.ids| {
          ThereKeeps(u, s, Sending(s.requests[k]));
        }
      case Abandon(k) =>
        if k < |s.ids| {
          TableKeeps(u, s.table, s.ids, Correlation.Abandon(s.ids[k]));
        }
      case Respond(i, response) => RespondKeeps(u, s, i, response);
      case ReadBack => ReadBackKeeps(u, s);
      case Resolve => ResolveKeeps(u, s);
      case Fill(slot) => TableKeeps(u, s.table, s.ids, Correlation.Fill(slot));
      case FailCaller =>
        TableKeeps(u, s.table, s.ids, Correlation.Fail);
        ThereKeeps(u, s, EndToEnd.Local(Sender.Fail));
      case There(move) =>
        if !Requests(move) {
          ThereKeeps(u, s, move);
        }
      case Back(move) =>
        if !Responds(move) && !move.Read? {
          BackKeeps(u, s.back, move, s.answers);
        }
    }
  }

  lemma {:induction false} RunKeeps(u: Links, acts: seq<Act>)
    requires u.Ok()
    ensures Inv(u, Run(u, acts))
  {
    hide Step, EndToEnd.Inv;
    if |acts| == 0 {
      EndToEnd.RunKeeps(u.there, []);
      EndToEnd.RunKeeps(u.back, []);
    } else {
      RunKeeps(u, acts[..|acts| - 1]);
      StepKeeps(u, Run(u, acts[..|acts| - 1]), acts[|acts| - 1]);
    }
  }

  // ----- What a call gets ----------------------------------------------------------------------------

  /** `request` was handed to a remote handler, which answered it with `response`. */
  ghost predicate AnsweredBy(s: World, request: Frame, response: Frame) {
    request in s.there.receiver.started && Answer(request, response) in s.answers
  }

  /**
   * In every run the frame a call got is a response that the remote peer sent from a handler it had started on the
   * request of a call with the same id; and as long as fewer than 2^64 calls were made, on the very request of this
   * call, however calls, abandons, duplicate responses and other traffic interleave.
   */
  lemma CallGetsItsOwnResponse(u: Links, acts: seq<Act>, k: nat)
    requires u.Ok() && k in Run(u, acts).results
    ensures
      var s := Run(u, acts);
      && k < |s.ids| == |s.requests|
      && (exists j :: 0 <= j < |s.requests| && s.ids[j] == s.ids[k] && AnsweredBy(s, s.requests[j], s.results[k]))
      && (|s.ids| < TWO64 ==> AnsweredBy(s, s.requests[k], s.results[k]))
  {
    hide Run, Step, EndToEnd.Inv, Correlation.Step, Issued, FramesOf;
    RunKeeps(u, acts);
    var s := Run(u, acts);
    assert ResultOk(k, s.results[k], s.ids, s.answers);
    var a :| a in s.answers && a.response == s.results[k];
    FrameWasAccepted(u.there, s.there, a.request);
    var j :| 0 <= j < |s.requests| && s.requests[j] == a.request;
    assert Answer(s.requests[j], s.results[k]) == a;
    assert AnsweredBy(s, s.requests[j], s.results[k]);
  }

  /** The header of a response: correlation, stream and, if none is given, type are those of the request. */
  lemma RespondsUnderTheRequest(request: Frame, response: Frame)
    ensures
      var h := ResponseTo(request, response).header;
      && h.flags == 2 && h.correlationId == request.header.correlationId && h.streamId == request.header.streamId
      && h.messageType == (if response.header.messageType == 0 then request.header.messageType
                           else response.header.messageType)
      && ResponseTo(request, response).payload == response.payload
  {
  }
}
