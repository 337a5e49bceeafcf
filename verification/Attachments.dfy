/**
 * One attachment: a replay captured atomically, then a bounded live queue, then one exit event
 * (pty/manager.go, Session.Attach and Attachment).
 */
module Attachments {
  import opened Common
  import opened History

  datatype Delivery = Output(sequence: nat, data: seq<Byte>) | Exit(status: int)

  /** AttachResult. */
  datatype Result = Result(replayFirst: nat, replayLast: nat, nextLive: nat, truncated: bool)

  /** What was asked of Attach and what it answered. */
  datatype Answer = Answer(replayAll: bool, resumeAfter: nat, result: Result)

  /**
   * An attachment's fields, then logs: `joined` while it is in its session's table, `answer`, `nextLive` and
   * `replayed` as captured, `upto` the last sequence enqueued live, `delivered` what the sink was given, and
   * `drained` once its worker has returned because nothing was left to deliver.
   */
  datatype Feed = Feed(
    session: U64,
    maxBytes: nat,
    replay: seq<Delivery>,
    replayNext: nat,
    queue: seq<Delivery>,
    bytes: int,
    active: bool,
    closing: bool,
    closed: bool,
    epoch: nat,
    joined: bool,
    answer: Answer,
    nextLive: nat,
    replayed: seq<Delivery>,
    upto: nat,
    delivered: seq<Delivery>,
    drained: bool)

  function Size(d: Delivery): nat {
    if d.Output? then |d.data| else 0
  }

  function Sizes(queue: seq<Delivery>): nat {
    if |queue| == 0 then 0 else Size(queue[0]) + Sizes(queue[1..])
  }

  // ----- Capturing the replay ------------------------------------------------------------

  /** The chunks a resume point has not seen, as deliveries. */
  function Unseen(history: seq<Chunk>, resumeAfter: nat): (r: seq<Delivery>)
    ensures forall k :: 0 <= k < |r| ==> r[k].Output?
  {
    if |history| == 0 then []
    else (if history[0].sequence <= resumeAfter then [] else [Output(history[0].sequence, history[0].data)])
         + Unseen(history[1..], resumeAfter)
  }

  /** What Attach answers, `replayAll` telling history replay from none. */
  function Capture(history: seq<Chunk>, last: nat, replayAll: bool, resumeAfter: nat): (Result, seq<Delivery>) {
    var replay := if replayAll then Unseen(history, resumeAfter) else [];
    (Result(if replay == [] then 0 else replay[0].sequence,
            if replay == [] then 0 else replay[|replay| - 1].sequence,
            last + 1,
            replayAll && history != [] && resumeAfter + 1 < history[0].sequence),
     replay)
  }

  /** Every chunk of a history has a positive sequence number, so 0 can mean "nothing replayed". */
  predicate Numbered(history: seq<Chunk>) {
    forall k :: 0 <= k < |history| ==> history[k].sequence > 0
  }

  lemma UnseenStep(history: seq<Chunk>, i: nat, resumeAfter: nat)
    requires i < |history|
    ensures Unseen(history[i..], resumeAfter)
         == (if history[i].sequence <= resumeAfter then [] else [Output(history[i].sequence, history[i].data)])
            + Unseen(history[i + 1..], resumeAfter)
  {
    assert history[i..][1..] == history[i + 1..];
  }

  lemma NothingUnseen(resumeAfter: nat)
    ensures Unseen([], resumeAfter) == []
  {
  }

  /** The interval a captured replay spans, 0 standing for none. */
  ghost predicate Spans(result: Result, replay: seq<Delivery>) {
    && (forall k :: 0 <= k < |replay| ==> replay[k].Output? && replay[k].sequence > 0)
    && result.replayFirst == (if replay == [] then 0 else replay[0].sequence)
    && result.replayLast == (if replay == [] then 0 else replay[|replay| - 1].sequence)
  }

  /** The capture loop of Session.Attach. */
  method CaptureReplay(history: seq<Chunk>, last: nat, replayAll: bool, resumeAfter: nat)
    returns (result: Result, replay: seq<Delivery>)
    requires Numbered(history)
    ensures (result, replay) == Capture(history, last, replayAll, resumeAfter)
  {
    hide Unseen;
    result, replay := Result(0, 0, last + 1, false), [];
    if replayAll {
      var truncated := |history| > 0 && resumeAfter + 1 < history[0].sequence;
      if truncated {
        result := result.(truncated := true);
      }
      assert history[0..] == history;
      for i := 0 to |history|
        invariant replay + Unseen(history[i..], resumeAfter) == Unseen(history, resumeAfter)
        invariant result.truncated == truncated && result.nextLive == last + 1
        invariant Spans(result, replay)
      {
        UnseenStep(history, i, resumeAfter);
        var rest := Unseen(history[i + 1..], resumeAfter);
        var chunk := history[i];
        if chunk.sequence > resumeAfter {
          var d := Output(chunk.sequence, chunk.data);
          assert replay + ([d] + rest) == (replay + [d]) + rest;
          if result.replayFirst == 0 {
            result := result.(replayFirst := chunk.sequence);
          }
          result := result.(replayLast := chunk.sequence);
          replay := replay + [d];
        } else {
          assert [] + rest == rest;
        }
      }
      assert history[|history|..] == [];
      NothingUnseen(resumeAfter);
      assert replay + [] == replay;
    }
  }

  /** `at` are the positions, in order, of the chunks of `history` that `replay` hands out. */
  ghost predicate Replayed(history: seq<Chunk>, replay: seq<Delivery>, at: seq<nat>) {
    && |at| == |replay|
    && (forall j, k :: 0 <= j < k < |at| ==> at[j] < at[k])
    && forall k :: 0 <= k < |at| ==>
         at[k] < |history| && replay[k] == Output(history[at[k]].sequence, history[at[k]].data)
  }

  lemma {:induction false} UnseenExactly(history: seq<Chunk>, resumeAfter: nat) returns (at: seq<nat>)
    ensures Replayed(history, Unseen(history, resumeAfter), at)
    ensures forall i :: 0 <= i < |history| ==> (i in at <==> history[i].sequence > resumeAfter)
  {
    if |history| == 0 {
      at := [];
    } else {
      hide Replayed;
      var rest := UnseenExactly(history[1..], resumeAfter);
      var replay := Unseen(history[1..], resumeAfter);
      at := Shift(history, replay, rest);
      if history[0].sequence > resumeAfter {
        ReplayedPrepend(history, replay, at);
        assert forall i :: i in [0] + at <==> i == 0 || i in at;
        at := [0] + at;
      } else {
        assert [] + replay == replay;
      }
      forall i | 0 <= i < |history|
        ensures i in at <==> history[i].sequence > resumeAfter
      {
        assert i > 0 ==> history[1..][i - 1] == history[i];
      }
    }
  }

  /** Positions in a tail as positions in the whole. */
  lemma Shift(history: seq<Chunk>, replay: seq<Delivery>, rest: seq<nat>) returns (at: seq<nat>)
    requires |history| > 0 && Replayed(history[1..], replay, rest)
    ensures Replayed(history, replay, at)
    ensures forall i :: i in at <==> i > 0 && i - 1 in rest
  {
    at := seq(|rest|, k requires 0 <= k < |rest| => rest[k] + 1);
    forall i | i > 0 && i - 1 in rest
      ensures i in at
    {
      var k :| 0 <= k < |rest| && rest[k] == i - 1;
      assert at[k] == i;
    }
  }

  lemma ReplayedPrepend(history: seq<Chunk>, replay: seq<Delivery>, at: seq<nat>)
    requires |history| > 0 && Replayed(history, replay, at) && forall i :: i in at ==> i > 0
    ensures Replayed(history, [Output(history[0].sequence, history[0].data)] + replay, [0] + at)
  {
    assert forall k :: 0 <= k < |at| ==> at[k] in at;
    assert forall k :: 0 < k < |at| + 1 ==> ([0] + at)[k] == at[k - 1];
  }

  /**
   * What Attach captures of any history: with history replay exactly the chunks above the resume point, in order and
   * whole, otherwise nothing; and Truncated exactly when the oldest chunk kept is above the one after the resume point.
   */
  lemma CaptureExactly(history: seq<Chunk>, last: nat, replayAll: bool, resumeAfter: nat) returns (at: seq<nat>)
    ensures
      var (result, replay) := Capture(history, last, replayAll, resumeAfter);
      && Replayed(history, replay, at)
      && (forall i :: 0 <= i < |history| ==> (i in at <==> replayAll && history[i].sequence > resumeAfter))
      && result.nextLive == last + 1
      && (result.truncated <==> replayAll && history != [] && history[0].sequence > resumeAfter + 1)
  {
    if replayAll {
      at := UnseenExactly(history, resumeAfter);
    } else {
      at := [];
    }
  }

  // ----- The shape of a history ------------------------------------------------------------

  /** A session's history is a contiguous run of sequences ending at the last one published. */
  ghost predicate Shaped(history: seq<Chunk>, outputs: seq<seq<Byte>>) {
    && |history| <= |outputs|
    && forall k :: 0 <= k < |history| ==> Faithful(history[k], |outputs| - |history| + 1 + k, outputs)
  }

  /** Chunk number `sequence`, holding a non-empty suffix of what was published under that number. */
  ghost predicate Faithful(c: Chunk, sequence: nat, outputs: seq<seq<Byte>>) {
    && c.sequence == sequence && 1 <= sequence <= |outputs|
    && c.data != [] && SuffixOf(c.data, outputs[sequence - 1])
  }

  /** A replay is such a run too, ending right before the first live sequence. */
  ghost predicate Joined(replayed: seq<Delivery>, nextLive: nat, outputs: seq<seq<Byte>>) {
    && |replayed| < nextLive <= |outputs| + 1
    && forall k :: 0 <= k < |replayed| ==>
         && replayed[k].Output? && replayed[k].sequence == nextLive - |replayed| + k
         && replayed[k].data != [] && SuffixOf(replayed[k].data, outputs[replayed[k].sequence - 1])
  }

  /** On a contiguous history the unseen chunks are its last `|outputs| - resumeAfter`, or all of it. */
  lemma {:induction false} UnseenIsSuffix(history: seq<Chunk>, outputs: seq<seq<Byte>>, resumeAfter: nat)
    requires Shaped(history, outputs) && resumeAfter <= |outputs|
    ensures
      var n := if |outputs| - resumeAfter < |history| then |outputs| - resumeAfter else |history|;
      |Unseen(history, resumeAfter)| == n
      && Joined(Unseen(history, resumeAfter), |outputs| + 1, outputs)
  {
    if |history| > 0 {
      assert Faithful(history[0], |outputs| - |history| + 1, outputs);
      forall k | 0 <= k < |history[1..]|
        ensures Faithful(history[1..][k], |outputs| - |history[1..]| + 1 + k, outputs)
      {
        assert Faithful(history[k + 1], |outputs| - |history| + 1 + (k + 1), outputs);
      }
      UnseenIsSuffix(history[1..], outputs, resumeAfter);
    }
  }

  /**
   * The captured interval joins the live output without gap or overlap: the replay ends at the sequence before
   * NextLive and begins right after the resume point or at the oldest chunk kept.
   */
  lemma CaptureJoinsLive(history: seq<Chunk>, outputs: seq<seq<Byte>>, replayAll: bool, resumeAfter: nat)
    requires Shaped(history, outputs) && resumeAfter <= |outputs|
    ensures
      var (result, replay) := Capture(history, |outputs|, replayAll, resumeAfter);
      && Joined(replay, result.nextLive, outputs) && result.nextLive == |outputs| + 1
      && (replay != [] ==> result.replayLast + 1 == result.nextLive)
      && (replay != [] ==> result.replayFirst == result.nextLive - |replay| && result.replayFirst > resumeAfter)
      && (replay == [] ==> result.replayFirst == 0 && result.replayLast == 0)
  {
    if replayAll {
      UnseenIsSuffix(history, outputs, resumeAfter);
    }
  }

  /**
   * What the answer says of the replay captured with it: the interval, 0 for none, and that Truncated means the
   * replay starts later than right after the resume point.
   */
  ghost predicate Answered(answer: Answer, replayed: seq<Delivery>, nextLive: nat) {
    var r := answer.result;
    && r.nextLive == nextLive && answer.resumeAfter < nextLive && |replayed| < nextLive
    && r.replayFirst == (if replayed == [] then 0 else nextLive - |replayed|)
    && r.replayLast == (if replayed == [] then 0 else nextLive - 1)
    && (replayed != [] ==> answer.replayAll && r.replayFirst > answer.resumeAfter)
    && (r.truncated <==> replayed != [] && answer.resumeAfter + 1 < r.replayFirst)
  }

  lemma CaptureAnswers(history: seq<Chunk>, outputs: seq<seq<Byte>>, replayAll: bool, resumeAfter: nat)
    requires Shaped(history, outputs) && resumeAfter <= |outputs|
    ensures
      var (result, replay) := Capture(history, |outputs|, replayAll, resumeAfter);
      Answered(Answer(replayAll, resumeAfter, result), replay, |outputs| + 1)
  {
    hide Unseen, SuffixOf;
    CaptureJoinsLive(history, outputs, replayAll, resumeAfter);
    if replayAll {
      UnseenIsSuffix(history, outputs, resumeAfter);
      if history != [] {
        assert Faithful(history[0], |outputs| - |history| + 1, outputs);
      }
    }
  }

  /** Some sequence after the resume point was published but is not replayed. */
  ghost predicate Lossy(replay: seq<Delivery>, last: nat, resumeAfter: nat) {
    exists n :: resumeAfter < n <= last && !Replays(replay, n)
  }

  ghost predicate Replays(replay: seq<Delivery>, n: nat) {
    exists k :: 0 <= k < |replay| && replay[k].Output? && replay[k].sequence == n
  }

  /** A contiguous replay up to NextLive misses something exactly when it starts later than after the resume point. */
  lemma LossyExactly(replayed: seq<Delivery>, nextLive: nat, outputs: seq<seq<Byte>>, resumeAfter: nat)
    requires Joined(replayed, nextLive, outputs) && resumeAfter < nextLive
    ensures Lossy(replayed, nextLive - 1, resumeAfter) <==> resumeAfter + 1 < nextLive - |replayed|
  {
    var first := nextLive - |replayed|;
    if resumeAfter + 1 < first {
      assert !Replays(replayed, resumeAfter + 1);
    } else {
      forall n | resumeAfter < n <= nextLive - 1
        ensures Replays(replayed, n)
      {
        assert replayed[n - first].sequence == n;
      }
    }
  }

  /**
   * Truncated says exactly whether a history replay lost something, if and only if there is some history or
   * nothing to replay. (With an empty history it stays false even when output is missing.)
   */
  lemma TruncatedExactly(history: seq<Chunk>, outputs: seq<seq<Byte>>, resumeAfter: nat)
    requires Shaped(history, outputs) && resumeAfter <= |outputs|
    ensures
      var (result, replay) := Capture(history, |outputs|, true, resumeAfter);
      (result.truncated <==> Lossy(replay, |outputs|, resumeAfter))
      <==> (history != [] || resumeAfter == |outputs|)
  {
    var (result, replay) := Capture(history, |outputs|, true, resumeAfter);
    UnseenIsSuffix(history, outputs, resumeAfter);
    if history != [] {
      assert Faithful(history[0], |outputs| - |history| + 1, outputs);
    }
    if result.truncated || (history == [] && resumeAfter < |outputs|) {
      assert !Replays(replay, resumeAfter + 1);
    } else {
      forall n | resumeAfter < n <= |outputs|
        ensures Replays(replay, n)
      {
        var k := n - (|outputs| + 1 - |replay|);
        assert 0 <= k < |replay| && replay[k].sequence == n;
      }
    }
  }

  /** The losses that Truncated misses: every one, if nothing is kept. */
  lemma TruncatedCanMissALoss(last: nat, resumeAfter: nat)
    requires resumeAfter < last
    ensures
      var (result, replay) := Capture([], last, true, resumeAfter);
      !result.truncated && Lossy(replay, last, resumeAfter)
  {
    var (result, replay) := Capture([], last, true, resumeAfter);
    assert !Replays(replay, resumeAfter + 1);
  }

  // ----- The locked sections of an attachment --------------------------------------------------

  function Signal(a: Feed): Feed {
    a.(epoch := a.epoch + 1)
  }

  function Start(session: U64, maxBytes: nat, answer: Answer, replay: seq<Delivery>, paused: bool): Feed
    requires answer.result.nextLive > 0
  {
    var next := answer.result.nextLive;
    Feed(session, maxBytes, replay, 0, [], 0, !paused, false, false, 0, true,
         answer, next, replay, next - 1, [], false)
  }

  /** enqueueLocked as publish uses it: a refused attachment leaves the session's table. */
  function Offer(a: Feed, sequence: nat, data: seq<Byte>): Feed {
    if a.closed || a.closing || |data| > a.maxBytes || a.bytes + |data| > a.maxBytes then a.(joined := false)
    else Signal(a.(queue := a.queue + [Output(sequence, data)], bytes := a.bytes + |data|, upto := sequence))
  }

  function OfferExit(a: Feed, status: int): Feed {
    if a.closed || a.closing then a else Signal(a.(queue := a.queue + [Exit(status)], closing := true))
  }

  function Activate(a: Feed): Feed {
    if a.closed || a.active then a else Signal(a.(active := true))
  }

  function Finish(a: Feed): Feed {
    if a.closed then a else Signal(a.(closed := true, replay := [], replayNext := 0, queue := [], bytes := 0))
  }

  /** The worker's pass would not park. */
  predicate Runnable(a: Feed) {
    var pending := a.replayNext < |a.replay|;
    a.closed || (a.closing && !pending && a.queue == []) || (a.active && (pending || a.queue != []))
  }

  /** One locked pass of the worker: stop, park, or hand the next event to the sink. */
  function Take(a: Feed): Feed {
    var pending := a.replayNext < |a.replay|;
    if a.closed then a
    else if a.closing && !pending && a.queue == [] then Finish(a).(drained := true)
    else if !Runnable(a) then a
    else if pending then
      var d := a.replay[a.replayNext];
      var last := a.replayNext + 1 == |a.replay|;
      Signal(a.(replay := if last then [] else a.replay, replayNext := if last then 0 else a.replayNext + 1,
                delivered := a.delivered + [d]))
    else
      var d := a.queue[0];
      Signal(a.(queue := a.queue[1..], bytes := a.bytes - Size(d), delivered := a.delivered + [d]))
  }

  // ----- What every locked section does ------------------------------------------------------------

  /** The bytes of a queue that count against its limit. */
  function Load(queue: seq<Delivery>): nat {
    if |queue| == 0 then 0
    else (match queue[0] case Output(_, data) => |data| case Exit(_) => 0) + Load(queue[1..])
  }

  lemma {:induction false} SizesAre(queue: seq<Delivery>)
    ensures Sizes(queue) == Load(queue)
  {
    if |queue| > 0 {
      SizesAre(queue[1..]);
    }
  }

  /** An output is queued exactly when the attachment is open and it has room; a refusal only ends the membership. */
  lemma OfferExactly(a: Feed, sequence: nat, data: seq<Byte>)
    requires a.bytes == Sizes(a.queue)
    ensures
      var t := Offer(a, sequence, data);
      if !a.closed && !a.closing && Load(a.queue) + |data| <= a.maxBytes
      then t == a.(queue := a.queue + [Output(sequence, data)], bytes := a.bytes + |data|, upto := sequence,
                   epoch := a.epoch + 1)
      else t == a.(joined := false)
  {
    SizesAre(a.queue);
  }

  /** The exit is queued once, behind everything, whatever its queue holds, and nothing can follow it. */
  lemma OfferExitExactly(a: Feed, status: int, sequence: nat, data: seq<Byte>)
    ensures
      var t := OfferExit(a, status);
      && (if a.closed || a.closing then t == a
          else t.queue == a.queue + [Exit(status)] && t.closing && t.bytes == a.bytes && t.epoch > a.epoch)
      && Offer(t, sequence, data).queue == t.queue && OfferExit(t, status) == t
  {
  }

  /** Activation starts delivery of an open attachment, once; finishing discards what is left of any. */
  lemma EndsExactly(a: Feed)
    ensures !a.closed ==> Activate(a).active && Activate(a).queue == a.queue && Activate(a).replay == a.replay
    ensures a.closed ==> Activate(a) == a && Finish(a) == a
    ensures Finish(a).closed && Finish(a).delivered == a.delivered
    ensures !a.closed ==> Finish(a).queue == [] && Finish(a).replay == []
  {
  }

  /**
   * A worker's pass: an active attachment hands over the next of its replay and then of its queue; a paused one hands
   * over nothing; one that has its exit behind it and nothing left ends.
   */
  lemma TakeExactly(a: Feed)
    requires a.replayNext <= |a.replay| && !a.closed
    ensures
      var t, next := Take(a), a.replay[a.replayNext..] + a.queue;
      if next != [] then
        if a.active then t.delivered == a.delivered + [next[0]] && t.replay[t.replayNext..] + t.queue == next[1..]
                         && !t.closed
        else t == a
      else if a.closing then t.closed && t.drained && t.delivered == a.delivered
      else t == a
  {
    if a.replay[a.replayNext..] + a.queue == [] {
      assert a.replayNext == |a.replay| && a.queue == [];
    } else {
      assert a.replayNext < |a.replay| || a.queue != [];
      if a.active {
        TakeMoves(a);
      }
    }
  }

  // ----- What every locked section keeps ----------------------------------------------------------

  /** The live outputs numbered from..to. */
  function Live(outputs: seq<seq<Byte>>, from: nat, to: nat): (r: seq<Delivery>)
    requires 1 <= from && to <= |outputs|
    ensures |r| == if from <= to then to - from + 1 else 0
  {
    if from > to then [] else Live(outputs, from, to - 1) + [Output(to, outputs[to - 1])]
  }

  /** Everything this attachment has been promised so far. */
  function Script(a: Feed, outputs: seq<seq<Byte>>, status: int): seq<Delivery>
    requires 1 <= a.nextLive && a.upto <= |outputs|
  {
    a.replayed + Live(outputs, a.nextLive, a.upto) + if a.closing then [Exit(status)] else []
  }

  function Pending(a: Feed): seq<Delivery>
    requires a.replayNext <= |a.replay|
  {
    a.replay[a.replayNext..] + a.queue
  }

  ghost predicate Positions(a: Feed, outputs: seq<seq<Byte>>, exit: Option<int>) {
    && a.replayNext <= |a.replay|
    && 1 <= a.nextLive <= a.upto + 1 && a.upto <= |outputs|
    && (a.joined && !a.closed ==> a.upto == |outputs|)
    && (a.closing ==> exit.Some? && a.upto == |outputs|)
    && (exit.Some? && a.joined && !a.closed ==> a.closing)
  }

  /**
   * Delivered and pending together are the script; a closed attachment has delivered a prefix of it, and all of it,
   * exit included, if it closed because it had drained.
   */
  ghost predicate OnScript(a: Feed, outputs: seq<seq<Byte>>, status: int)
    requires a.replayNext <= |a.replay| && 1 <= a.nextLive && a.upto <= |outputs|
  {
    if a.closed then
      && a.delivered <= Script(a, outputs, status)
      && (a.drained ==> a.closing && a.delivered == Script(a, outputs, status))
    else !a.drained && a.delivered + Pending(a) == Script(a, outputs, status)
  }

  function StatusOf(exit: Option<int>): int {
    if exit.Some? then exit.value else 0
  }

  ghost predicate AttachmentOk(a: Feed, outputs: seq<seq<Byte>>, exit: Option<int>) {
    && Positions(a, outputs, exit)
    && Joined(a.replayed, a.nextLive, outputs)
    && Answered(a.answer, a.replayed, a.nextLive)
    && OnScript(a, outputs, StatusOf(exit))
    && a.bytes == Sizes(a.queue) <= a.maxBytes
  }

  lemma {:induction false} SizesAppend(queue: seq<Delivery>, d: Delivery)
    ensures Sizes(queue + [d]) == Sizes(queue) + Size(d)
  {
    if |queue| > 0 {
      assert (queue + [d])[1..] == queue[1..] + [d];
      SizesAppend(queue[1..], d);
    }
  }

  lemma {:induction false} LiveStable(outputs: seq<seq<Byte>>, data: seq<Byte>, from: nat, to: nat)
    requires 1 <= from && to <= |outputs|
    ensures Live(outputs + [data], from, to) == Live(outputs, from, to)
  {
    if from <= to {
      LiveStable(outputs, data, from, to - 1);
    }
  }

  lemma LiveNext(outputs: seq<seq<Byte>>, data: seq<Byte>, from: nat)
    requires 1 <= from <= |outputs| + 1
    ensures Live(outputs + [data], from, |outputs| + 1)
         == Live(outputs + [data], from, |outputs|) + [Output(|outputs| + 1, data)]
  {
  }

  lemma StartOk(session: U64, maxBytes: nat, outputs: seq<seq<Byte>>, answer: Answer, replay: seq<Delivery>,
                paused: bool)
    requires Joined(replay, |outputs| + 1, outputs) && Answered(answer, replay, |outputs| + 1)
    ensures AttachmentOk(Start(session, maxBytes, answer, replay, paused), outputs, None)
  {
    assert replay[0..] + [] == replay;
  }

  /** A session that has already exited puts the exit right behind the replay. */
  lemma StartExitedOk(session: U64, maxBytes: nat, outputs: seq<seq<Byte>>, answer: Answer, replay: seq<Delivery>,
                      paused: bool, status: int)
    requires Joined(replay, |outputs| + 1, outputs) && Answered(answer, replay, |outputs| + 1)
    ensures AttachmentOk(OfferExit(Start(session, maxBytes, answer, replay, paused), status),
                         outputs, Some(status))
  {
    assert replay[0..] + [Exit(status)] == replay + [] + [Exit(status)];
    assert Sizes([Exit(status)]) == 0;
  }

  lemma JoinedStable(replayed: seq<Delivery>, nextLive: nat, outputs: seq<seq<Byte>>, data: seq<Byte>)
    requires Joined(replayed, nextLive, outputs)
    ensures Joined(replayed, nextLive, outputs + [data])
  {
  }

  /** A publication the attachment does not get changes nothing it was promised. */
  lemma MissOk(a: Feed, outputs: seq<seq<Byte>>, data: seq<Byte>)
    requires AttachmentOk(a, outputs, None)
    ensures AttachmentOk(a.(joined := false), outputs + [data], None)
  {
    hide Joined, SuffixOf;
    LiveStable(outputs, data, a.nextLive, a.upto);
    JoinedStable(a.replayed, a.nextLive, outputs, data);
  }

  lemma OfferOk(a: Feed, outputs: seq<seq<Byte>>, data: seq<Byte>)
    requires AttachmentOk(a, outputs, None) && a.joined
    ensures AttachmentOk(Offer(a, |outputs| + 1, data), outputs + [data], None)
  {
    hide Joined, SuffixOf, Answered, Live, Sizes;
    MissOk(a, outputs, data);
    var t := Offer(a, |outputs| + 1, data);
    if t.joined {
      var d := Output(|outputs| + 1, data);
      LiveStable(outputs, data, a.nextLive, a.upto);
      SizesAppend(a.queue, d);
      LiveNext(outputs, data, a.nextLive);
      assert a.replay[a.replayNext..] + (a.queue + [d]) == Pending(a) + [d];
      assert a.delivered + (Pending(a) + [d]) == (a.delivered + Pending(a)) + [d];
      assert a.replayed + (Live(outputs, a.nextLive, a.upto) + [d]) + []
          == a.replayed + Live(outputs, a.nextLive, a.upto) + [] + [d];
    }
  }

  lemma OfferExitOk(a: Feed, outputs: seq<seq<Byte>>, status: int)
    requires AttachmentOk(a, outputs, None) && a.joined
    ensures AttachmentOk(OfferExit(a, status), outputs, Some(status))
  {
    hide Joined, Live, Answered;
    if !a.closed && !a.closing {
      var d := Exit(status);
      SizesAppend(a.queue, d);
      assert a.replay[a.replayNext..] + (a.queue + [d]) == Pending(a) + [d];
      assert a.delivered + (Pending(a) + [d]) == (a.delivered + Pending(a)) + [d];
    }
  }

  /** An attachment outside the table does not hear of the exit. */
  lemma MissExitOk(a: Feed, outputs: seq<seq<Byte>>, status: int)
    requires AttachmentOk(a, outputs, None) && !a.joined
    ensures AttachmentOk(a, outputs, Some(status))
  {
    hide Joined, Live, Answered;
  }

  lemma LeaveOk(a: Feed, outputs: seq<seq<Byte>>, exit: Option<int>)
    requires AttachmentOk(a, outputs, exit)
    ensures AttachmentOk(a.(joined := false), outputs, exit) && AttachmentOk(Activate(a), outputs, exit)
  {
    hide Joined, Live, Answered;
  }

  lemma FinishOk(a: Feed, outputs: seq<seq<Byte>>, exit: Option<int>)
    requires AttachmentOk(a, outputs, exit)
    ensures AttachmentOk(Finish(a), outputs, exit)
    ensures a.closing && !a.closed && Pending(a) == [] ==> AttachmentOk(Finish(a).(drained := true), outputs, exit)
  {
    hide Joined, Live, Answered;
    assert Sizes([]) == 0;
    assert a.delivered + [] == a.delivered;
  }

  /** Handing over the next pending event keeps delivered and pending together what they were. */
  lemma TakeMoves(a: Feed)
    requires a.replayNext <= |a.replay| && !a.closed && Runnable(a) && Pending(a) != []
    ensures
      var t := Take(a);
      && t == a.(replay := t.replay, replayNext := t.replayNext, queue := t.queue, bytes := t.bytes,
                 delivered := t.delivered, epoch := t.epoch)
      && t.replayNext <= |t.replay|
      && t.delivered == a.delivered + [Pending(a)[0]] && Pending(t) == Pending(a)[1..]
      && (a.bytes == Sizes(a.queue) ==> t.bytes == Sizes(t.queue) <= a.bytes)
  {
    var t := Take(a);
    if a.replayNext < |a.replay| {
      assert Pending(a)[1..] == a.replay[a.replayNext + 1..] + a.queue;
    } else {
      assert Pending(a) == a.queue && Pending(t) == t.queue;
    }
  }

  lemma TakeStops(a: Feed)
    requires a.replayNext <= |a.replay| && (a.closed || !Runnable(a) || Pending(a) == [])
    ensures Take(a) == a || (!a.closed && a.closing && Pending(a) == [] && Take(a) == Finish(a).(drained := true))
  {
  }

  lemma TakeOk(a: Feed, outputs: seq<seq<Byte>>, exit: Option<int>)
    requires AttachmentOk(a, outputs, exit)
    ensures AttachmentOk(Take(a), outputs, exit)
  {
    hide Joined, Live, Answered, Take, Runnable, Sizes;
    if a.closed || !Runnable(a) || Pending(a) == [] {
      TakeStops(a);
      FinishOk(a, outputs, exit);
    } else {
      TakeMoves(a);
      var p := Pending(a);
      assert (a.delivered + [p[0]]) + p[1..] == a.delivered + p;
    }
  }

  // ----- What the sink sees ---------------------------------------------------------------------

  /** The whole stream an attachment can ever be given, for a session's outputs and exit as they stand. */
  function Full(a: Feed, outputs: seq<seq<Byte>>, exit: Option<int>): seq<Delivery>
    requires 1 <= a.nextLive
  {
    a.replayed + Live(outputs, a.nextLive, |outputs|) + if exit.Some? then [Exit(exit.value)] else []
  }

  /** An attachment that drained was given its whole stream. */
  lemma DrainedIsFull(a: Feed, outputs: seq<seq<Byte>>, exit: Option<int>)
    requires AttachmentOk(a, outputs, exit) && a.drained
    ensures exit.Some? && a.delivered == Full(a, outputs, exit)
  {
    hide Joined, Live;
  }

  lemma {:induction false} LivePrefix(outputs: seq<seq<Byte>>, from: nat, to: nat)
    requires 1 <= from && to <= |outputs|
    ensures Live(outputs, from, to) <= Live(outputs, from, |outputs|)
    decreases |outputs| - to
  {
    if to < |outputs| {
      LivePrefix(outputs, from, to + 1);
    }
  }

  lemma DeliveredIsPrefix(a: Feed, outputs: seq<seq<Byte>>, exit: Option<int>)
    requires AttachmentOk(a, outputs, exit)
    ensures a.delivered <= Full(a, outputs, exit)
  {
    hide Joined, Live;
    LivePrefix(outputs, a.nextLive, a.upto);
    var script := Script(a, outputs, StatusOf(exit));
    assert a.delivered <= script;
    if !a.closing {
      assert script == a.replayed + Live(outputs, a.nextLive, a.upto);
    }
    PrefixTransitive(a.delivered, script, Full(a, outputs, exit));
  }

  lemma {:induction false} LiveAt(outputs: seq<seq<Byte>>, from: nat, to: nat, k: nat)
    requires 1 <= from && to <= |outputs| && k < |Live(outputs, from, to)|
    ensures Live(outputs, from, to)[k] == Output(from + k, outputs[from + k - 1])
  {
    if k < |Live(outputs, from, to)| - 1 {
      LiveAt(outputs, from, to - 1, k);
    }
  }

  /** The k-th item of the full stream: consecutive numbers from the first one, then the exit. */
  lemma FullAt(a: Feed, outputs: seq<seq<Byte>>, exit: Option<int>, k: nat)
    requires AttachmentOk(a, outputs, exit) && k < |Full(a, outputs, exit)|
    ensures
      var d, n := Full(a, outputs, exit)[k], a.nextLive - |a.replayed| + k;
      if n <= |outputs| then
        && d.Output? && d.sequence == n >= 1 && SuffixOf(d.data, outputs[n - 1])
        && (n >= a.nextLive ==> d.data == outputs[n - 1])
      else n == |outputs| + 1 && exit.Some? && d == Exit(exit.value)
    ensures |Full(a, outputs, exit)| == |a.replayed| + (|outputs| + 1 - a.nextLive) + if exit.Some? then 1 else 0
  {
    if |a.replayed| <= k < |a.replayed| + |Live(outputs, a.nextLive, |outputs|)| {
      LiveAt(outputs, a.nextLive, |outputs|, k - |a.replayed|);
    }
  }

  // ----- The attachment object ---------------------------------------------------------------------

  class Attachment {
    const session: U64
    const maxBytes: nat
    var replay: seq<Delivery>
    var replayNext: nat
    var queue: seq<Delivery>
    var bytes: int
    var active: bool
    var closing: bool
    var closed: bool
    var epoch: nat
    var joined: bool
    ghost const answer: Answer
    ghost const nextLive: nat
    ghost const replayed: seq<Delivery>
    ghost var upto: nat
    ghost var delivered: seq<Delivery>
    ghost var drained: bool

    ghost function View(): Feed
      reads this
    {
      Feed(session, maxBytes, replay, replayNext, queue, bytes, active, closing, closed, epoch, joined,
           answer, nextLive, replayed, upto, delivered, drained)
    }

    constructor (session: U64, maxBytes: nat, replay: seq<Delivery>, paused: bool, ghost answer: Answer)
      requires answer.result.nextLive > 0
      ensures View() == Start(session, maxBytes, answer, replay, paused)
    {
      ghost var next := answer.result.nextLive;
      this.session, this.maxBytes, this.replay, this.replayNext := session, maxBytes, replay, 0;
      queue, bytes, active, closing, closed, epoch, joined := [], 0, !paused, false, false, 0, true;
      this.answer, this.nextLive, this.replayed := answer, next, replay;
      this.upto, this.delivered, this.drained := next - 1, [], false;
    }

    method SignalLocked()
      modifies this`epoch
      ensures epoch == old(epoch) + 1
    {
      epoch := epoch + 1;
    }

    /** enqueueLocked for one output, and its removal from the session's table when that fails. */
    method Enqueue(sequence: nat, data: seq<Byte>) returns (ok: bool)
      modifies this
      ensures View() == Offer(old(View()), sequence, data)
      ensures !ok ==> !joined && queue == old(queue)
    {
      if closed || closing {
        joined := false;
        return false;
      }
      if |data| > maxBytes || bytes + |data| > maxBytes {
        joined := false;
        return false;
      }
      queue := queue + [Output(sequence, data)];
      bytes := bytes + |data|;
      upto := sequence;
      SignalLocked();
      return true;
    }

    method EnqueueExit(status: int) returns (ok: bool)
      modifies this
      ensures View() == OfferExit(old(View()), status)
      ensures ok <==> !old(closed) && !old(closing)
    {
      if closed || closing {
        return false;
      }
      queue := queue + [Exit(status)];
      closing := true;
      SignalLocked();
      return true;
    }

    /** Activate. */
    method Resume() returns (ok: bool)
      modifies this
      ensures View() == Activate(old(View())) && ok == !old(closed)
    {
      if closed {
        return false;
      }
      if !active {
        active := true;
        SignalLocked();
      }
      return true;
    }

    /** finish, run once. */
    method Close()
      modifies this
      ensures View() == Finish(old(View())) && closed
    {
      if !closed {
        closed, replay, replayNext, queue, bytes := true, [], 0, [], 0;
        SignalLocked();
      }
    }

    /** One locked pass of the worker; Some is the event the sink must now be sent. */
    method Next() returns (event: Option<Delivery>)
      requires replayNext <= |replay|
      modifies this
      ensures View() == Take(old(View()))
      ensures delivered == old(delivered) + if event.Some? then [event.value] else []
    {
      event := None;
      if closed {
        return;
      }
      var pending := replayNext < |replay|;
      if closing && !pending && |queue| == 0 {
        Close();
        drained := true;
        return;
      }
      if !active || (!pending && |queue| == 0) {
        return;
      }
      var d := TakeEvent();
      event := Some(d);
    }

    /** The part of the pass that takes the event: the next of the replay, then the head of the queue. */
    method TakeEvent() returns (d: Delivery)
      requires !closed && active && replayNext <= |replay| && (replayNext < |replay| || |queue| > 0)
      modifies this`replay, this`replayNext, this`queue, this`bytes, this`epoch, this`delivered
      ensures View() == Take(old(View())) && delivered == old(delivered) + [d]
    {
      hide Finish, Size;
      if replayNext < |replay| {
        d := replay[replayNext];
        replayNext := replayNext + 1;
        if replayNext == |replay| {
          replay, replayNext := [], 0;
        }
      } else {
        d := queue[0];
        bytes := bytes - Size(queue[0]);
        queue := queue[1..];
      }
      delivered := delivered + [d];
      SignalLocked();
    }
  }
}
