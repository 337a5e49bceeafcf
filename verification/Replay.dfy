/**
 * Sessions publishing into the shared history while attachments come, replay, follow live output and go: every run
 * of the manager's locked sections (pty/manager.go, publish, Attach, Session.run, removal and the attachment worker).
 */
module Replay {
  import opened Common
  import opened History
  import opened Attachments

  datatype Setup = Setup(quota: Quota, queueBytes: nat)

  /**
   * `outputs` and `exits` are what each session ever published and its exit status; `running`, `retained` and
   * `registered` are its state; `published` and `released` count bytes published and bytes dropped with a session.
   */
  datatype State = State(
    flat: Flat,
    outputs: map<U64, seq<seq<Byte>>>,
    exits: map<U64, int>,
    running: set<U64>,
    retained: set<U64>,
    registered: set<U64>,
    feeds: map<nat, Feed>,
    published: nat,
    released: nat)

  const INIT := State(Flat([], 0, 0, 0), map[], map[], {}, {}, {}, map[], 0, 0)

  datatype Event =
    | Open(id: U64)
    | Publish(id: U64, data: seq<Byte>)
    | Stop(id: U64)                              // Kill or Close: no new attachments from here on
    | ExitSession(id: U64, status: int)          // the first locked section after the process ended
    | Retain(id: U64)
    | Unretain(id: U64)                          // eviction or Remove has begun
    | Remove(id: U64)
    | Attach(feed: nat, id: U64, replayAll: bool, resumeAfter: nat, paused: bool)
    | Resume(feed: nat)
    | Work(feed: nat)                            // one pass of the attachment's worker
    | Detach(feed: nat)                          // finish, for any reason

  function ExitOf(s: State, id: U64): Option<int> {
    if id in s.exits then Some(s.exits[id]) else None
  }

  /** Every attachment in one session's table, offered the same thing. */
  function OfferAll(s: State, id: U64, sequence: nat, data: seq<Byte>): map<nat, Feed> {
    map n | n in s.feeds ::
      if s.feeds[n].session == id && s.feeds[n].joined then Offer(s.feeds[n], sequence, data) else s.feeds[n]
  }

  function ExitAll(s: State, id: U64, status: int): map<nat, Feed> {
    map n | n in s.feeds ::
      if s.feeds[n].session == id && s.feeds[n].joined then OfferExit(s.feeds[n], status) else s.feeds[n]
  }

  /** clear(s.attachments). */
  function LeaveAll(s: State, id: U64): map<nat, Feed> {
    map n | n in s.feeds :: if s.feeds[n].session == id then s.feeds[n].(joined := false) else s.feeds[n]
  }

  predicate CanAttach(s: State, n: nat, id: U64, resumeAfter: nat) {
    && n !in s.feeds && id in s.registered && id in s.outputs && resumeAfter <= |s.outputs[id]|
    && ((id in s.running && id !in s.exits) || (id in s.exits && id in s.retained))
  }

  function NewFeed(u: Setup, s: State, id: U64, replayAll: bool, resumeAfter: nat, paused: bool): Feed
    requires id in s.outputs
  {
    var last := |s.outputs[id]|;
    var (result, replay) := Capture(Of(s.flat.log, id), last, replayAll, resumeAfter);
    var feed := Start(id, u.queueBytes, Answer(replayAll, resumeAfter, result), replay, paused);
    if id in s.exits then OfferExit(feed, s.exits[id]) else feed
  }

  function Step(u: Setup, s: State, e: Event): State {
    match e
    case Open(id) =>
      if id in s.outputs then s
      else s.(outputs := s.outputs[id := []], running := s.running + {id}, registered := s.registered + {id})
    case Publish(id, data) =>
      if id !in s.registered || id !in s.outputs || id in s.exits || data == [] then s
      else
        var sequence := |s.outputs[id]| + 1;
        s.(flat := Append(u.quota, s.flat, id, sequence, data),
           outputs := s.outputs[id := s.outputs[id] + [data]],
           feeds := OfferAll(s, id, sequence, data),
           published := s.published + |data|)
    case Stop(id) => s.(running := s.running - {id})
    case ExitSession(id, status) =>
      if id !in s.registered || id in s.exits then s
      else s.(exits := s.exits[id := status], running := s.running - {id}, feeds := ExitAll(s, id, status))
    case Retain(id) =>
      if id !in s.registered || id !in s.exits then s
      else s.(retained := s.retained + {id}, feeds := LeaveAll(s, id))
    case Unretain(id) => s.(retained := s.retained - {id}, feeds := LeaveAll(s, id))
    case Remove(id) =>
      if id !in s.registered || id !in s.exits then s
      else s.(registered := s.registered - {id}, retained := s.retained - {id},
              released := s.released + Bytes(Of(s.flat.log, id)),
              flat := s.flat.(log := Forget(s.flat.log, id)), feeds := LeaveAll(s, id))
    case Attach(n, id, replayAll, resumeAfter, paused) =>
      if CanAttach(s, n, id, resumeAfter)
      then s.(feeds := s.feeds[n := NewFeed(u, s, id, replayAll, resumeAfter, paused)]) else s
    case Resume(n) => if n in s.feeds then s.(feeds := s.feeds[n := Activate(s.feeds[n])]) else s
    case Work(n) => if n in s.feeds then s.(feeds := s.feeds[n := Take(s.feeds[n])]) else s
    case Detach(n) => if n in s.feeds then s.(feeds := s.feeds[n := Finish(s.feeds[n])]) else s
  }

  function Run(u: Setup, events: seq<Event>): State {
    if |events| == 0 then INIT else Step(u, Run(u, events[..|events| - 1]), events[|events| - 1])
  }

  // ----- What every step keeps ---------------------------------------------------------------

  /** Every registered session's history is contiguous and faithful; nobody else has any. */
  ghost predicate Histories(log: seq<Chunk>, outputs: map<U64, seq<seq<Byte>>>, registered: set<U64>) {
    && registered <= outputs.Keys
    && (forall id :: id in registered ==> Shaped(Of(log, id), outputs[id]))
    && (forall id :: id !in registered ==> Of(log, id) == [])
  }

  /** Bytes published are retained, counted as truncated, or released with their session; both quotas hold. */
  ghost predicate Accounted(q: Quota, flat: Flat, published: nat, released: nat) {
    if q.Enabled() then
      && published == Bytes(flat.log) + flat.truncatedBytes + released
      && Bytes(flat.log) <= q.total
      && forall id :: Bytes(Of(flat.log, id)) <= q.perSession
    else flat == Flat([], 0, 0, 0)
  }

  ghost predicate FeedsOk(feeds: map<nat, Feed>, outputs: map<U64, seq<seq<Byte>>>, exits: map<U64, int>) {
    forall n :: n in feeds ==> FeedOk(feeds[n], outputs, exits)
  }

  ghost predicate FeedOk(a: Feed, outputs: map<U64, seq<seq<Byte>>>, exits: map<U64, int>) {
    && a.session in outputs
    && AttachmentOk(a, outputs[a.session], if a.session in exits then Some(exits[a.session]) else None)
  }

  ghost predicate Inv(u: Setup, s: State) {
    && Histories(s.flat.log, s.outputs, s.registered)
    && Accounted(u.quota, s.flat, s.published, s.released)
    && FeedsOk(s.feeds, s.outputs, s.exits)
    && s.exits.Keys <= s.outputs.Keys
    && s.running !! s.exits.Keys
  }

  // ----- Histories -----------------------------------------------------------------------------

  lemma ShapedSuffix(a: seq<Chunk>, h: seq<Chunk>, outputs: seq<seq<Byte>>)
    requires Shaped(h, outputs) && SuffixOf(a, h)
    ensures Shaped(a, outputs)
  {
    forall k | 0 <= k < |a|
      ensures Faithful(a[k], |outputs| - |a| + 1 + k, outputs)
    {
      assert a[k] == h[|h| - |a| + k];
      assert Faithful(h[|h| - |a| + k], |outputs| - |h| + 1 + (|h| - |a| + k), outputs);
    }
  }

  lemma ShapedAppend(h: seq<Chunk>, outputs: seq<seq<Byte>>, c: Chunk, data: seq<Byte>)
    requires Shaped(h, outputs)
    requires c.sequence == |outputs| + 1 && c.data != [] && SuffixOf(c.data, data)
    ensures Shaped(h + [c], outputs + [data])
  {
    forall k | 0 <= k < |h| + 1
      ensures Faithful((h + [c])[k], |outputs| - |h| + 1 + k, outputs + [data])
    {
      if k < |h| {
        assert Faithful(h[k], |outputs| - |h| + 1 + k, outputs);
      }
    }
  }

  lemma AppendShapesOwn(q: Quota, f: Flat, id: U64, outputs: seq<seq<Byte>>, data: seq<Byte>)
    requires (q.Enabled() || f.log == []) && Shaped(Of(f.log, id), outputs) && data != []
    ensures Shaped(Of(Append(q, f, id, |outputs| + 1, data).log, id), outputs + [data])
  {
    if q.Enabled() {
      hide Append, Shaped, Of;
      var c := Chunk(id, |outputs| + 1, Kept(q, data), f.next + 1);
      ShapedAppend(Of(f.log, id), outputs, c, data);
      AppendIsSuffix(q, f, id, |outputs| + 1, data, id);
      ShapedSuffix(Of(Append(q, f, id, |outputs| + 1, data).log, id), Of(f.log, id) + [c], outputs + [data]);
    }
  }

  lemma AppendShapesOther(q: Quota, f: Flat, id: U64, sequence: nat, data: seq<Byte>, x: U64, outputs: seq<seq<Byte>>)
    requires (q.Enabled() || f.log == []) && x != id
    ensures Shaped(Of(f.log, x), outputs) ==> Shaped(Of(Append(q, f, id, sequence, data).log, x), outputs)
    ensures Of(f.log, x) == [] ==> Of(Append(q, f, id, sequence, data).log, x) == []
  {
    if q.Enabled() {
      hide Append, Shaped, Of;
      AppendIsSuffix(q, f, id, sequence, data, x);
      assert Of(f.log, x) + [] == Of(f.log, x);
      if Shaped(Of(f.log, x), outputs) {
        ShapedSuffix(Of(Append(q, f, id, sequence, data).log, x), Of(f.log, x), outputs);
      }
    }
  }

  lemma PublishHistories(q: Quota, s: State, id: U64, data: seq<Byte>)
    requires Histories(s.flat.log, s.outputs, s.registered) && (q.Enabled() || s.flat.log == [])
    requires id in s.registered && data != []
    ensures Histories(Append(q, s.flat, id, |s.outputs[id]| + 1, data).log,
                      s.outputs[id := s.outputs[id] + [data]], s.registered)
  {
    hide Append, Shaped, Of;
    forall x
      ensures
        var log := Append(q, s.flat, id, |s.outputs[id]| + 1, data).log;
        if x in s.registered then Shaped(Of(log, x), s.outputs[id := s.outputs[id] + [data]][x])
        else Of(log, x) == []
    {
      if x == id {
        AppendShapesOwn(q, s.flat, id, s.outputs[id], data);
      } else {
        AppendShapesOther(q, s.flat, id, |s.outputs[id]| + 1, data, x, if x in s.registered then s.outputs[x] else []);
      }
    }
  }

  lemma PublishAccounted(q: Quota, f: Flat, published: nat, released: nat, id: U64, sequence: nat, data: seq<Byte>)
    requires Accounted(q, f, published, released)
    ensures Accounted(q, Append(q, f, id, sequence, data), published + |data|, released)
  {
    hide Append, Of, Bytes, SuffixOf, Kept;
    if !q.Enabled() {
      AppendOff(q, f, id, sequence, data);
    }
    if q.Enabled() {
      AppendConserves(q, f, id, sequence, data);
      forall x
        ensures Bytes(Of(Append(q, f, id, sequence, data).log, x)) <= q.perSession
      {
        AppendIsSuffix(q, f, id, sequence, data, x);
      }
      AppendIsSuffix(q, f, id, sequence, data, id);
    }
  }

  lemma RemoveHistories(q: Quota, s: State, id: U64)
    requires Histories(s.flat.log, s.outputs, s.registered) && Accounted(q, s.flat, s.published, s.released)
    ensures Histories(Forget(s.flat.log, id), s.outputs, s.registered - {id})
    ensures Accounted(q, s.flat.(log := Forget(s.flat.log, id)), s.published,
                      s.released + Bytes(Of(s.flat.log, id)))
  {
    hide Of, Bytes, Shaped;
    forall x
      ensures Of(Forget(s.flat.log, id), x) == if x == id then [] else Of(s.flat.log, x)
    {
      OfForget(s.flat.log, id, x);
    }
    OfForget(s.flat.log, id, id);
    NoBytes();
  }

  lemma NoBytes()
    ensures Bytes([]) == 0
    ensures forall id :: Of([], id) == []
    ensures forall id :: Forget([], id) == []
  {
  }

  lemma OpenHistories(log: seq<Chunk>, outputs: map<U64, seq<seq<Byte>>>, registered: set<U64>, id: U64)
    requires Histories(log, outputs, registered) && id !in outputs
    ensures Histories(log, outputs[id := []], registered + {id})
  {
    hide Of;
  }

  // ----- Attachments --------------------------------------------------------------------------------

  lemma PublishFeeds(s: State, id: U64, data: seq<Byte>)
    requires FeedsOk(s.feeds, s.outputs, s.exits) && id in s.outputs && id !in s.exits
    ensures FeedsOk(OfferAll(s, id, |s.outputs[id]| + 1, data), s.outputs[id := s.outputs[id] + [data]], s.exits)
  {
    hide AttachmentOk, Offer;
    var feeds, outputs := OfferAll(s, id, |s.outputs[id]| + 1, data), s.outputs[id := s.outputs[id] + [data]];
    forall n | n in feeds
      ensures FeedOk(feeds[n], outputs, s.exits)
    {
      assert FeedOk(s.feeds[n], s.outputs, s.exits);
      OfferSession(s.feeds[n], id, |s.outputs[id]| + 1, data);
      if s.feeds[n].session == id {
        if s.feeds[n].joined {
          OfferOk(s.feeds[n], s.outputs[id], data);
        } else {
          MissOk(s.feeds[n], s.outputs[id], data);
          assert s.feeds[n].(joined := false) == s.feeds[n];
        }
      }
    }
  }

  lemma OfferSession(a: Feed, id: U64, sequence: nat, data: seq<Byte>)
    ensures Offer(a, sequence, data).session == a.session && Activate(a).session == a.session
    ensures Take(a).session == a.session && Finish(a).session == a.session
    ensures forall status :: OfferExit(a, status).session == a.session
  {
  }

  lemma ExitFeeds(s: State, id: U64, status: int)
    requires FeedsOk(s.feeds, s.outputs, s.exits) && id !in s.exits
    ensures FeedsOk(ExitAll(s, id, status), s.outputs, s.exits[id := status])
  {
    hide AttachmentOk, OfferExit;
    var feeds, exits := ExitAll(s, id, status), s.exits[id := status];
    forall n | n in feeds
      ensures FeedOk(feeds[n], s.outputs, exits)
    {
      assert FeedOk(s.feeds[n], s.outputs, s.exits);
      OfferSession(s.feeds[n], id, 0, []);
      if s.feeds[n].session == id {
        if s.feeds[n].joined {
          OfferExitOk(s.feeds[n], s.outputs[id], status);
        } else {
          MissExitOk(s.feeds[n], s.outputs[id], status);
        }
      }
    }
  }

  lemma LeaveFeeds(s: State, id: U64)
    requires FeedsOk(s.feeds, s.outputs, s.exits)
    ensures FeedsOk(LeaveAll(s, id), s.outputs, s.exits)
  {
    hide AttachmentOk;
    forall n | n in s.feeds
      ensures FeedOk(LeaveAll(s, id)[n], s.outputs, s.exits)
    {
      var a := s.feeds[n];
      assert FeedOk(a, s.outputs, s.exits);
      LeaveOk(a, s.outputs[a.session], if a.session in s.exits then Some(s.exits[a.session]) else None);
    }
  }

  lemma OneFeed(s: State, n: nat)
    requires FeedsOk(s.feeds, s.outputs, s.exits) && n in s.feeds
    ensures FeedsOk(s.feeds[n := Activate(s.feeds[n])], s.outputs, s.exits)
    ensures FeedsOk(s.feeds[n := Take(s.feeds[n])], s.outputs, s.exits)
    ensures FeedsOk(s.feeds[n := Finish(s.feeds[n])], s.outputs, s.exits)
  {
    hide AttachmentOk, Activate, Take, Finish;
    var a := s.feeds[n];
    assert FeedOk(a, s.outputs, s.exits);
    OfferSession(a, 0, 0, []);
    var exit := if a.session in s.exits then Some(s.exits[a.session]) else None;
    LeaveOk(a, s.outputs[a.session], exit);
    TakeOk(a, s.outputs[a.session], exit);
    FinishOk(a, s.outputs[a.session], exit);
  }

  lemma AttachFeeds(u: Setup, s: State, n: nat, id: U64, replayAll: bool, resumeAfter: nat, paused: bool)
    requires Histories(s.flat.log, s.outputs, s.registered) && FeedsOk(s.feeds, s.outputs, s.exits)
    requires CanAttach(s, n, id, resumeAfter)
    ensures FeedsOk(s.feeds[n := NewFeed(u, s, id, replayAll, resumeAfter, paused)], s.outputs, s.exits)
  {
    hide AttachmentOk, Of, Shaped, Joined, Capture, Answered;
    var outputs := s.outputs[id];
    CaptureJoinsLive(Of(s.flat.log, id), outputs, replayAll, resumeAfter);
    CaptureAnswers(Of(s.flat.log, id), outputs, replayAll, resumeAfter);
    var (result, replay) := Capture(Of(s.flat.log, id), |outputs|, replayAll, resumeAfter);
    var answer := Answer(replayAll, resumeAfter, result);
    if id in s.exits {
      StartExitedOk(id, u.queueBytes, outputs, answer, replay, paused, s.exits[id]);
    } else {
      StartOk(id, u.queueBytes, outputs, answer, replay, paused);
    }
  }

  // ----- Steps and runs --------------------------------------------------------------------------

  lemma PublishKeeps(u: Setup, s: State, id: U64, data: seq<Byte>)
    requires Inv(u, s) && id in s.registered && id !in s.exits && data != []
    ensures Inv(u, Step(u, s, Publish(id, data)))
  {
    hide Append, Histories, Accounted, FeedsOk, OfferAll;
    HistoryOff(u.quota, s.flat, s.published, s.released);
    RegisteredHasOutputs(s.flat.log, s.outputs, s.registered, id);
    PublishHistories(u.quota, s, id, data);
    PublishAccounted(u.quota, s.flat, s.published, s.released, id, |s.outputs[id]| + 1, data);
    PublishFeeds(s, id, data);
  }

  lemma HistoryOff(q: Quota, f: Flat, published: nat, released: nat)
    requires Accounted(q, f, published, released)
    ensures q.Enabled() || f.log == []
  {
  }

  lemma RegisteredHasOutputs(log: seq<Chunk>, outputs: map<U64, seq<seq<Byte>>>, registered: set<U64>, id: U64)
    requires Histories(log, outputs, registered) && id in registered
    ensures id in outputs
  {
  }

  lemma OpenKeeps(u: Setup, s: State, id: U64)
    requires Inv(u, s) && id !in s.outputs
    ensures Inv(u, Step(u, s, Open(id)))
  {
    hide AttachmentOk, Accounted;
    OpenHistories(s.flat.log, s.outputs, s.registered, id);
    forall n | n in s.feeds
      ensures FeedOk(s.feeds[n], s.outputs[id := []], s.exits)
    {
      assert FeedOk(s.feeds[n], s.outputs, s.exits);
    }
  }

  lemma StepKeeps(u: Setup, s: State, e: Event)
    requires Inv(u, s)
    ensures Inv(u, Step(u, s, e))
  {
    hide Append, Histories, Accounted, FeedsOk, OfferAll, ExitAll, LeaveAll, NewFeed, Forget, Take, Finish, Activate;
    match e
    case Open(id) =>
      if id !in s.outputs {
        OpenKeeps(u, s, id);
      }
    case Publish(id, data) =>
      if id in s.registered && id in s.outputs && id !in s.exits && data != [] {
        PublishKeeps(u, s, id, data);
      }
    case Stop(id) =>
    case ExitSession(id, status) =>
      if id in s.registered && id !in s.exits {
        RegisteredHasOutputs(s.flat.log, s.outputs, s.registered, id);
        ExitFeeds(s, id, status);
      }
    case Retain(id) => LeaveFeeds(s, id);
    case Unretain(id) => LeaveFeeds(s, id);
    case Remove(id) =>
      LeaveFeeds(s, id);
      RemoveHistories(u.quota, s, id);
    case Attach(n, id, replayAll, resumeAfter, paused) =>
      if CanAttach(s, n, id, resumeAfter) {
        AttachFeeds(u, s, n, id, replayAll, resumeAfter, paused);
      }
    case Resume(n) =>
      if n in s.feeds {
        OneFeed(s, n);
      }
    case Work(n) =>
      if n in s.feeds {
        OneFeed(s, n);
      }
    case Detach(n) =>
      if n in s.feeds {
        OneFeed(s, n);
      }
  }

  lemma {:induction false} RunKeeps(u: Setup, events: seq<Event>)
    ensures Inv(u, Run(u, events))
  {
    if |events| == 0 {
      NoBytes();
    } else {
      RunKeeps(u, events[..|events| - 1]);
      StepKeeps(u, Run(u, events[..|events| - 1]), events[|events| - 1]);
    }
  }

  // ----- What every run guarantees ------------------------------------------------------------------

  /**
   * Replay joins live exactly once. In every run, whatever an attachment's sink has been given is a prefix of
   * one stream: sequence numbers consecutive from the ReplayFirst it was answered (or from NextLive when that is 0),
   * replayed data a suffix of and live data equal to what was published, and at most one exit, after every output.
   */
  lemma ReplayJoinsLive(u: Setup, events: seq<Event>, n: nat, k: nat)
    requires n in Run(u, events).feeds && k < |Run(u, events).feeds[n].delivered|
    ensures
      var s := Run(u, events);
      var a := s.feeds[n];
      && a.session in s.outputs
      && var outputs, d, r := s.outputs[a.session], a.delivered[k], a.answer.result;
         var at := k + if r.replayFirst == 0 then r.nextLive else r.replayFirst;
         match d
         case Output(sequence, data) =>
           && 1 <= sequence == at <= |outputs| && SuffixOf(data, outputs[at - 1])
           && (at >= r.nextLive ==> data == outputs[at - 1])
         case Exit(status) =>
           && k == |a.delivered| - 1 && at == |outputs| + 1
           && a.session in s.exits && status == s.exits[a.session]
  {
    hide Run, Full, OnScript, Histories, Accounted, SuffixOf, Positions;
    RunKeeps(u, events);
    var s := Run(u, events);
    var a := s.feeds[n];
    assert FeedOk(a, s.outputs, s.exits);
    var outputs, exit := s.outputs[a.session], ExitOf(s, a.session);
    DeliveredIsPrefix(a, outputs, exit);
    FullAt(a, outputs, exit, k);
  }

  /**
   * What every attachment of a run was answered: an interval that ends right before NextLive and starts after the
   * resume point, or no interval; and Truncated tells exactly whether output after the resume point was not replayed,
   * if and only if something was replayed or nothing was left to replay.
   */
  lemma AttachAnswersExactly(u: Setup, events: seq<Event>, n: nat)
    requires n in Run(u, events).feeds
    ensures
      var a := Run(u, events).feeds[n];
      var r, resumeAfter := a.answer.result, a.answer.resumeAfter;
      && r.nextLive == a.nextLive > resumeAfter
      && (if a.replayed == [] then r.replayFirst == r.replayLast == 0
          else resumeAfter < r.replayFirst == r.nextLive - |a.replayed| && r.replayLast + 1 == r.nextLive)
      && (a.answer.replayAll ==>
            ((r.truncated <==> Lossy(a.replayed, r.nextLive - 1, resumeAfter))
             <==> (a.replayed != [] || resumeAfter + 1 == r.nextLive)))
  {
    hide Run, OnScript, Histories, Accounted, Positions, Lossy;
    RunKeeps(u, events);
    var s := Run(u, events);
    var a := s.feeds[n];
    assert FeedOk(a, s.outputs, s.exits);
    LossyExactly(a.replayed, a.nextLive, s.outputs[a.session], a.answer.resumeAfter);
  }

  /** Once an attachment's worker has returned with nothing left, its sink was given everything, exit included. */
  lemma DrainedMeansComplete(u: Setup, events: seq<Event>, n: nat)
    requires n in Run(u, events).feeds && Run(u, events).feeds[n].drained
    ensures
      var s := Run(u, events);
      var a := s.feeds[n];
      && a.session in s.outputs && a.session in s.exits && a.nextLive >= 1
      && a.delivered == Full(a, s.outputs[a.session], Some(s.exits[a.session]))
  {
    hide Run, Full, OnScript, Histories, Accounted, Joined, Answered;
    RunKeeps(u, events);
    var s := Run(u, events);
    assert FeedOk(s.feeds[n], s.outputs, s.exits);
    DrainedIsFull(s.feeds[n], s.outputs[s.feeds[n].session], ExitOf(s, s.feeds[n].session));
  }

  /** An attachment that stayed in its session's table and caught up has been given everything. */
  lemma NothingIsSkipped(u: Setup, events: seq<Event>, n: nat)
    requires n in Run(u, events).feeds
    requires
      var a := Run(u, events).feeds[n];
      a.joined && !a.closed && a.replayNext <= |a.replay| && Pending(a) == []
    ensures
      var s := Run(u, events);
      var a := s.feeds[n];
      a.session in s.outputs && a.nextLive >= 1
      && a.delivered == Full(a, s.outputs[a.session], ExitOf(s, a.session))
  {
    hide Live;
    RunKeeps(u, events);
    var s := Run(u, events);
    assert FeedOk(s.feeds[n], s.outputs, s.exits);
  }

  /** Every registered session's history is always a contiguous faithful run ending at its last output. */
  lemma HistoryIsContiguous(u: Setup, events: seq<Event>, id: U64)
    requires id in Run(u, events).registered
    ensures id in Run(u, events).outputs
         && Shaped(Of(Run(u, events).flat.log, id), Run(u, events).outputs[id])
  {
    RunKeeps(u, events);
  }

  /** Conservation, the total over the registered sessions and both quotas, in every run with history on. */
  lemma HistoryIsConserved(u: Setup, events: seq<Event>, id: U64)
    requires u.quota.Enabled()
    ensures
      var s := Run(u, events);
      && s.published == Bytes(s.flat.log) + s.flat.truncatedBytes + s.released
      && Bytes(s.flat.log) == SumBytes(Lists(s.flat.log, s.registered))
      && Bytes(s.flat.log) <= u.quota.total
      && Bytes(Of(s.flat.log, id)) <= u.quota.perSession
  {
    hide Run, SumBytes, Of, Bytes;
    RunKeeps(u, events);
    ListsRepresent(Run(u, events).flat.log, Run(u, events).registered);
  }

  // ----- A loss that goes unreported ------------------------------------------------------------------

  lemma RunAppend(u: Setup, events: seq<Event>, e: Event)
    ensures Run(u, events + [e]) == Step(u, Run(u, events), e)
  {
    DropLast(events, e);
  }

  /** The quota holds one byte: a byte of the second session drives out the byte of the first. */
  lemma OneByteEvicts(x: Byte, y: Byte)
    ensures
      var q := Quota(1, 1);
      var one := Append(q, Flat([], 0, 0, 0), 1, 1, [x]);
      && one == Flat([Chunk(1, 1, [x], 1)], 1, 0, 0)
      && Append(q, one, 2, 1, [y]) == Flat([Chunk(2, 1, [y], 2)], 2, 1, 1)
  {
    var q, a, b := Quota(1, 1), Chunk(1, 1, [x], 1), Chunk(2, 1, [y], 2);
    var one := Flat([a], 1, 0, 0);
    assert Add(q, Flat([], 0, 0, 0), 1, 1, [x]).log == [a];
    assert Of([a], 1) == [a] && Bytes([a]) == 1;
    assert TrimTotal(TrimSession(one, 1, 1), 1) == one;
    var two := Add(q, one, 2, 1, [y]);
    assert two.log == [a, b];
    assert [a, b][1..] == [b] && Bytes([b]) == 1 && Bytes([a, b]) == 2;
    assert Of([b], 2) == [b] && Of([a, b], 2) == [b];
    assert TrimSession(two, 2, 1) == two;
    assert DropHead(two) == Flat([b], 2, 1, 1);
    TrimTotalStep(two, 1);
    TrimTotalStep(DropHead(two), 1);
  }

  /** A run that reaches it: the attachment is answered an untruncated empty replay although output was lost. */
  lemma RunCanMissALoss(queueBytes: nat, x: Byte, y: Byte)
    ensures
      var u := Setup(Quota(1, 1), queueBytes);
      var events := [Open(1), Open(2), Publish(1, [x]), Publish(2, [y]), Attach(0, 1, true, 0, false)];
      var s := Run(u, events);
      && 0 in s.feeds && s.feeds[0].answer.replayAll && s.feeds[0].answer.resumeAfter == 0
      && s.feeds[0].replayed == [] && s.feeds[0].nextLive == 2
      && !s.feeds[0].answer.result.truncated && Lossy(s.feeds[0].replayed, 1, 0)
  {
    hide Run, Append;
    var u := Setup(Quota(1, 1), queueBytes);
    var events := [Open(1), Open(2), Publish(1, [x]), Publish(2, [y]), Attach(0, 1, true, 0, false)];
    TwoPublished(queueBytes, x, y);
    assert events[..4] == [Open(1), Open(2), Publish(1, [x]), Publish(2, [y])];
    RunAppend(u, events[..4], events[4]);
    assert events == events[..4] + [events[4]];
    assert Of([Chunk(2, 1, [y], 2)], 1) == [];
    TruncatedCanMissALoss(1, 0);
  }

  lemma TwoPublished(queueBytes: nat, x: Byte, y: Byte)
    ensures
      var s := Run(Setup(Quota(1, 1), queueBytes), [Open(1), Open(2), Publish(1, [x]), Publish(2, [y])]);
      && s.flat == Flat([Chunk(2, 1, [y], 2)], 2, 1, 1) && s.feeds == map[] && s.exits == map[]
      && 1 in s.registered && 1 in s.running && 1 in s.outputs && s.outputs[1] == [[x]]
  {
    hide Run, Append;
    var u := Setup(Quota(1, 1), queueBytes);
    var events := [Open(1), Open(2), Publish(1, [x]), Publish(2, [y])];
    OneByteEvicts(x, y);
    NothingRun(u);
    RunAppend(u, [], Open(1));
    assert [] + [Open(1)] == events[..1];
    RunAppend(u, events[..1], Open(2));
    assert events[..1] + [Open(2)] == events[..2];
    RunAppend(u, events[..2], Publish(1, [x]));
    assert events[..2] + [Publish(1, [x])] == events[..3];
    RunAppend(u, events[..3], Publish(2, [y]));
    assert events[..3] + [Publish(2, [y])] == events;
  }

  lemma NothingRun(u: Setup)
    ensures Run(u, []) == INIT
  {
  }

  // ----- The attachment worker is never left asleep ----------------------------------------------------

  /** From `a` to `b` the epoch has not gone back, and while it stands a parked worker has nothing to do. */
  ghost predicate StillParked(a: Feed, b: Feed) {
    a.epoch <= b.epoch && (a.epoch == b.epoch && !Runnable(a) ==> !Runnable(b))
  }

  lemma FeedParked(a: Feed, sequence: nat, data: seq<Byte>, status: int)
    ensures StillParked(a, a) && StillParked(a, Offer(a, sequence, data)) && StillParked(a, OfferExit(a, status))
    ensures StillParked(a, a.(joined := false)) && StillParked(a, Activate(a))
    ensures StillParked(a, Take(a)) && StillParked(a, Finish(a))
  {
  }

  lemma StepParked(u: Setup, s: State, e: Event, n: nat)
    requires n in s.feeds
    ensures n in Step(u, s, e).feeds && StillParked(s.feeds[n], Step(u, s, e).feeds[n])
  {
    hide Append, Of, Forget, Bytes, NewFeed, Offer, OfferExit, Activate, Take, Finish, StillParked;
    FeedParked(s.feeds[n], if e.Publish? && e.id in s.outputs then |s.outputs[e.id]| + 1 else 0,
               if e.Publish? then e.data else [], if e.ExitSession? then e.status else 0);
  }

  /**
   * No lost wakeup for an attachment worker: one that parked at some moment of a run with nothing to do, and has
   * not been signalled since, still has nothing to do, whatever happened in between.
   */
  lemma {:induction false} ParkedWorkerHasNothingToDo(u: Setup, events: seq<Event>, later: seq<Event>, n: nat)
    requires n in Run(u, events).feeds
    ensures n in Run(u, events + later).feeds
    ensures StillParked(Run(u, events).feeds[n], Run(u, events + later).feeds[n])
    decreases |later|
  {
    hide Step, Runnable;
    if |later| == 0 {
      assert events + later == events;
    } else {
      var m := |later| - 1;
      assert events + later == events + later[..m] + [later[m]];
      DropLast(events + later[..m], later[m]);
      ParkedWorkerHasNothingToDo(u, events, later[..m], n);
      StepParked(u, Run(u, events + later[..m]), later[m], n);
    }
  }

  // ----- What each step does --------------------------------------------------------------------------

  /**
   * An attach in any run: it is accepted exactly when the session is registered, its resume point is not in the future
   * and it runs or is retained after its exit; then the replay is exactly the part of the session's history at that
   * moment that is above the resume point, in order and whole.
   */
  lemma AttachReplaysHistory(u: Setup, events: seq<Event>, n: nat, id: U64, replayAll: bool, resumeAfter: nat,
                             paused: bool) returns (at: seq<nat>)
    requires n !in Run(u, events).feeds
    ensures
      var s, t := Run(u, events), Run(u, events + [Attach(n, id, replayAll, resumeAfter, paused)]);
      var history := Of(s.flat.log, id);
      && (n in t.feeds <==>
            && id in s.registered && id in s.outputs && resumeAfter <= |s.outputs[id]|
            && (if id in s.exits then id in s.retained else id in s.running))
      && (n in t.feeds ==>
            var a := t.feeds[n];
            && a.session == id && a.active == !paused && a.joined && a.maxBytes == u.queueBytes
            && Replayed(history, a.replayed, at) && a.replay == a.replayed && a.replayNext == 0
            && (forall i :: 0 <= i < |history| ==> (i in at <==> replayAll && history[i].sequence > resumeAfter))
            && a.queue == (if id in s.exits then [Exit(s.exits[id])] else [])
            && a.answer.result.nextLive == |s.outputs[id]| + 1
            && (a.answer.result.truncated <==> replayAll && history != [] && history[0].sequence > resumeAfter + 1))
  {
    hide Run, Of, Capture;
    RunAppend(u, events, Attach(n, id, replayAll, resumeAfter, paused));
    RunKeeps(u, events);
    var s := Run(u, events);
    assert s.running !! s.exits.Keys;
    at := CaptureExactly(Of(s.flat.log, id), if id in s.outputs then |s.outputs[id]| else 0, replayAll, resumeAfter);
  }

  /** What the other steps do to the manager's tables. */
  lemma SessionStepsExactly(u: Setup, s: State, id: U64, status: int)
    ensures
      var t := Step(u, s, Open(id));
      if id in s.outputs then t == s
      else && t.registered == s.registered + {id} && t.running == s.running + {id} && t.outputs == s.outputs[id := []]
           && t.feeds == s.feeds && t.flat == s.flat
    ensures Step(u, s, Stop(id)) == s.(running := s.running - {id})
    ensures
      var t := Step(u, s, ExitSession(id, status));
      if id !in s.registered || id in s.exits then t == s
      else t.exits == s.exits[id := status] && t.running == s.running - {id} && t.flat == s.flat
  {
    hide Append, Forget, Of, Bytes, NewFeed, OfferAll, ExitAll, LeaveAll;
  }

  lemma RetentionStepsExactly(u: Setup, s: State, id: U64)
    ensures
      var t := Step(u, s, Retain(id));
      t.retained == (if id in s.registered && id in s.exits then s.retained + {id} else s.retained) && t.flat == s.flat
    ensures Step(u, s, Unretain(id)).retained == s.retained - {id}
    ensures
      var t := Step(u, s, Remove(id));
      if id !in s.registered || id !in s.exits then t == s
      else && t.registered == s.registered - {id} && t.retained == s.retained - {id}
           && t.flat == s.flat.(log := Forget(s.flat.log, id)) && t.outputs == s.outputs
  {
    hide Append, Forget, Of, Bytes, NewFeed, OfferAll, ExitAll, LeaveAll;
  }

  /** An exit reaches every attachment in the session's table and no other; leaving the table leaves its queue. */
  lemma ExitReachesAll(u: Setup, s: State, id: U64, status: int, n: nat)
    requires id in s.registered && id !in s.exits && n in s.feeds
    ensures
      var t, a := Step(u, s, ExitSession(id, status)), s.feeds[n];
      n in t.feeds && t.feeds[n] == if a.session == id && a.joined then OfferExit(a, status) else a
    ensures
      var t, a := Step(u, s, Unretain(id)), s.feeds[n];
      n in t.feeds && t.feeds[n] == if a.session == id then a.(joined := false) else a
  {
    hide OfferExit, Append, Of, NewFeed, Forget, Bytes;
  }

  /** A publication is numbered, kept and offered to every attachment in the session's table, and to no other. */
  lemma PublishReachesAll(u: Setup, s: State, id: U64, data: seq<Byte>, n: nat)
    requires Inv(u, s) && id in s.registered && id !in s.exits && data != [] && n in s.feeds
    ensures id in s.outputs
    ensures
      var t := Step(u, s, Publish(id, data));
      && n in t.feeds && id in t.outputs && t.outputs[id] == s.outputs[id] + [data]
      && t.flat == Append(u.quota, s.flat, id, |s.outputs[id]| + 1, data)
      && (if s.feeds[n].session == id && s.feeds[n].joined
          then t.feeds[n] == Offer(s.feeds[n], |s.outputs[id]| + 1, data) else t.feeds[n] == s.feeds[n])
  {
    hide Append, Offer;
    RegisteredHasOutputs(s.flat.log, s.outputs, s.registered, id);
  }

  /** Every chunk of the log holds the most that both quotas allow of what was published under its number. */
  ghost predicate Fullest(q: Quota, c: Chunk, outputs: map<U64, seq<seq<Byte>>>) {
    && c.session in outputs && 1 <= c.sequence <= |outputs[c.session]|
    && Newest(q, c, c.session, c.sequence, outputs[c.session][c.sequence - 1])
  }

  lemma FullestStays(q: Quota, c: Chunk, outputs: map<U64, seq<seq<Byte>>>, more: map<U64, seq<seq<Byte>>>)
    requires Fullest(q, c, outputs) && c.session in more && outputs[c.session] <= more[c.session]
    ensures Fullest(q, c, more)
  {
    hide Newest;
  }

  lemma OutputsGrow(u: Setup, s: State, e: Event, id: U64)
    requires id in s.outputs
    ensures id in Step(u, s, e).outputs && s.outputs[id] <= Step(u, s, e).outputs[id]
  {
    hide Append, OfferAll, ExitAll, LeaveAll, NewFeed, Forget, Of;
  }

  /** A chunk in the log was there before the step or is what it published. */
  lemma StepLog(u: Setup, s: State, e: Event, c: Chunk)
    requires u.quota.perSession != 0 && u.quota.total != 0 && c in Step(u, s, e).flat.log
    ensures c in s.flat.log || Fullest(u.quota, c, Step(u, s, e).outputs)
  {
    hide Append, OfferAll, ExitAll, LeaveAll, NewFeed, Forget, Of, Newest;
    if e.Publish? && e.id in s.registered && e.id in s.outputs && e.id !in s.exits && e.data != [] {
      AppendExactly(u.quota, s.flat, e.id, |s.outputs[e.id]| + 1, e.data, c);
      if c !in s.flat.log {
        NewestNames(u.quota, c, e.id, |s.outputs[e.id]| + 1, e.data);
      }
    } else if e.Remove? {
      ForgetMembers(s.flat.log, e.id, c);
    }
  }

  lemma NewestNames(q: Quota, c: Chunk, id: U64, sequence: nat, data: seq<Byte>)
    requires Newest(q, c, id, sequence, data)
    ensures c.session == id && c.sequence == sequence
  {
  }

  /** In every run with history on, no chunk was cut more than the quotas demand. */
  lemma {:induction false} HistoryIsFullest(u: Setup, events: seq<Event>, c: Chunk)
    requires u.quota.perSession != 0 && u.quota.total != 0 && c in Run(u, events).flat.log
    ensures Fullest(u.quota, c, Run(u, events).outputs)
  {
    hide Run, Step, Newest;
    if |events| == 0 {
      assert events == [];
      NothingRun(u);
    } else {
      var before, e := events[..|events| - 1], events[|events| - 1];
      assert events == before + [e];
      RunAppend(u, before, e);
      StepLog(u, Run(u, before), e, c);
      if c in Run(u, before).flat.log {
        HistoryIsFullest(u, before, c);
        OutputsGrow(u, Run(u, before), e, c.session);
        FullestStays(u.quota, c, Run(u, before).outputs, Run(u, events).outputs);
      }
    }
  }
}
