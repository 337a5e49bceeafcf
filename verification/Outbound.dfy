/** The outbound queues of a Peer: admission, per-stream FIFO and the take scan (peer.go, send and takeLocked). */
module Outbound {
  import opened Common
  import opened Frames
  import opened PeerLimits

  datatype TrafficClass = Control | Interactive | Bulk

  /** `ticket` names the request's own result slot. */
  datatype Request = Request(ticket: nat, frame: Frame, kind: TrafficClass)
  {
    function Bytes(): nat { |frame.payload| + HEADER_SIZE }
    function Id(): U64 { frame.header.streamId }
  }

  datatype Stream = Stream(queue: seq<Request>, bytes: int)

  datatype Queues = Queues(streams: map<U64, Stream>, order: seq<U64>, bytes: int, frames: int)

  const EMPTY := Queues(map[], [], 0, 0)

  function QueueOf(q: Queues, id: U64): seq<Request> {
    if id in q.streams then q.streams[id].queue else []
  }

  function QueueBytes(queue: seq<Request>): nat {
    if |queue| == 0 then 0 else queue[0].Bytes() + QueueBytes(queue[1..])
  }

  // ----- The structural invariant ---------------------------------------------

  datatype Measure = InBytes | InFrames

  function Load(streams: map<U64, Stream>, id: U64, m: Measure): int {
    if id !in streams then 0 else if m.InBytes? then streams[id].bytes else |streams[id].queue|
  }

  function Sum(streams: map<U64, Stream>, order: seq<U64>, m: Measure): int {
    if |order| == 0 then 0 else Load(streams, order[0], m) + Sum(streams, order[1..], m)
  }

  ghost predicate StreamOk(c: Limits, id: U64, s: Stream) {
    && 0 < |s.queue| <= c.perStreamQueueFrames
    && s.bytes == QueueBytes(s.queue) <= c.perStreamQueueBytes
    && forall r :: r in s.queue ==> r.Id() == id
  }

  /** The order list enumerates the live streams once each. */
  ghost predicate Enumerated(q: Queues) {
    && NoDup(q.order)
    && forall id :: id in q.order <==> id in q.streams
  }

  ghost predicate StreamsOk(c: Limits, q: Queues) {
    forall id :: id in q.streams ==> StreamOk(c, id, q.streams[id])
  }

  /** The counters are the sums they stand for. */
  ghost predicate Counted(q: Queues) {
    && q.bytes == Sum(q.streams, q.order, InBytes)
    && q.frames == Sum(q.streams, q.order, InFrames)
  }

  ghost predicate Valid(c: Limits, q: Queues) {
    && Enumerated(q)
    && StreamsOk(c, q)
    && Counted(q)
    && q.bytes <= c.outboundQueueBytes
    && q.frames <= c.outboundQueueFrames
    && |q.order| <= c.maxActiveStreams
  }

  // ----- Admission (one locked pass of send) -----------------------------------

  datatype Admission = Oversized | Closed | Full | Admitted

  predicate Fits(c: Limits, q: Queues, r: Request) {
    && r.Bytes() <= c.perStreamQueueBytes && r.Bytes() <= c.outboundQueueBytes
    && (r.Id() !in q.streams ==> |q.streams| < c.maxActiveStreams)
    && (r.Id() in q.streams ==>
          && q.streams[r.Id()].bytes + r.Bytes() <= c.perStreamQueueBytes
          && |q.streams[r.Id()].queue| + 1 <= c.perStreamQueueFrames)
    && q.bytes + r.Bytes() <= c.outboundQueueBytes
    && q.frames + 1 <= c.outboundQueueFrames
  }

  function Admit(c: Limits, q: Queues, closed: bool, r: Request): Admission {
    if r.Bytes() > c.perStreamQueueBytes || r.Bytes() > c.outboundQueueBytes then Oversized
    else if closed then Closed
    else if Fits(c, q, r) then Admitted
    else Full
  }

  function Push(q: Queues, r: Request): Queues {
    var s := if r.Id() in q.streams then q.streams[r.Id()] else Stream([], 0);
    Queues(q.streams[r.Id() := Stream(s.queue + [r], s.bytes + r.Bytes())],
           if r.Id() in q.streams then q.order else q.order + [r.Id()],
           q.bytes + r.Bytes(),
           q.frames + 1)
  }

  // ----- Taking one request ------------------------------------------------------

  predicate Ready(q: Queues, kind: TrafficClass, index: nat)
    requires index < |q.order|
  {
    && q.order[index] in q.streams
    && |q.streams[q.order[index]].queue| > 0
    && q.streams[q.order[index]].queue[0].kind == kind
  }

  /** Some stream has a frame of this class at its head. */
  ghost predicate HasReady(q: Queues, kind: TrafficClass) {
    exists i :: 0 <= i < |q.order| && Ready(q, kind, i)
  }

  /** The first ready stream at or after the cursor, in cyclic order, `checked` positions having been refused. */
  function FirstReady(q: Queues, kind: TrafficClass, cursor: nat, checked: nat): (r: Option<nat>)
    requires checked <= |q.order|
    ensures r.Some? ==> r.value < |q.order| && Ready(q, kind, r.value)
    decreases |q.order| - checked
  {
    if checked == |q.order| then None
    else
      var index := (cursor + checked) % |q.order|;
      if Ready(q, kind, index) then Some(index) else FirstReady(q, kind, cursor, checked + 1)
  }

  function Head(q: Queues, index: nat): Request
    requires index < |q.order| && q.order[index] in q.streams && |q.streams[q.order[index]].queue| > 0
  {
    q.streams[q.order[index]].queue[0]
  }

  function TakeAt(q: Queues, index: nat): Queues
    requires index < |q.order| && q.order[index] in q.streams && |q.streams[q.order[index]].queue| > 0
  {
    var id, r := q.order[index], Head(q, index);
    var s := Stream(q.streams[id].queue[1..], q.streams[id].bytes - r.Bytes());
    if s.queue == [] then
      Queues(q.streams - {id}, Without(q.order, index), q.bytes - r.Bytes(), q.frames - 1)
    else
      Queues(q.streams[id := s], q.order, q.bytes - r.Bytes(), q.frames - 1)
  }

  /** Where the cursor goes after serving `index` of `n` streams. */
  function NextCursor(n: nat, index: nat, emptied: bool): nat
    requires index < n
  {
    var next := (index + 1) % n;
    if !emptied then next
    else if n == 1 then 0
    else if index < next then next - 1
    else next
  }

  /** The cursor is a position of the order list, or 0 when that is empty. */
  predicate CursorOk(q: Queues, cursor: nat) {
    if q.order == [] then cursor == 0 else cursor < |q.order|
  }

  datatype Pick = Pick(request: Option<Request>, queues: Queues, cursor: nat)

  function Take(q: Queues, kind: TrafficClass, cursor: nat): Pick {
    if |q.order| == 0 then Pick(None, q, 0)
    else
      match FirstReady(q, kind, cursor, 0)
      case None => Pick(None, q, cursor)
      case Some(i) =>
        Pick(Some(Head(q, i)), TakeAt(q, i), NextCursor(|q.order|, i, |q.streams[q.order[i]].queue| == 1))
  }

  // ----- Sums over the order list --------------------------------------------------

  lemma {:induction false} SumConcat(streams: map<U64, Stream>, a: seq<U64>, b: seq<U64>, m: Measure)
    ensures Sum(streams, a + b, m) == Sum(streams, a, m) + Sum(streams, b, m)
  {
    if |a| == 0 {
      assert a + b == b;
    } else {
      assert (a + b)[1..] == a[1..] + b;
      SumConcat(streams, a[1..], b, m);
    }
  }

  lemma {:induction false} SumSame(s: map<U64, Stream>, t: map<U64, Stream>, order: seq<U64>, m: Measure)
    requires forall id :: id in order ==> Load(s, id, m) == Load(t, id, m)
    ensures Sum(s, order, m) == Sum(t, order, m)
  {
    if |order| > 0 {
      SumSame(s, t, order[1..], m);
    }
  }

  /** Changing one enumerated stream changes the sum by that stream's change. */
  lemma SumUpdate(s: map<U64, Stream>, t: map<U64, Stream>, order: seq<U64>, i: nat, m: Measure)
    requires NoDup(order) && i < |order|
    requires forall id :: id in order && id != order[i] ==> Load(s, id, m) == Load(t, id, m)
    ensures Sum(t, order, m) == Sum(s, order, m) - Load(s, order[i], m) + Load(t, order[i], m)
    ensures Sum(t, Without(order, i), m) == Sum(s, order, m) - Load(s, order[i], m)
  {
    var a, b := order[..i], order[i + 1..];
    assert order == a + ([order[i]] + b);
    SumConcat(s, a, [order[i]] + b, m);
    SumConcat(t, a, [order[i]] + b, m);
    SumConcat(t, a, b, m);
    assert ([order[i]] + b)[1..] == b;
    SumSame(s, t, a, m);
    SumSame(s, t, b, m);
  }

  lemma {:induction false} SumFramesPositive(c: Limits, streams: map<U64, Stream>, order: seq<U64>)
    requires forall id :: id in order ==> id in streams && StreamOk(c, id, streams[id])
    ensures Sum(streams, order, InFrames) >= |order|
  {
    if |order| > 0 {
      SumFramesPositive(c, streams, order[1..]);
    }
  }

  lemma {:induction false} QueueBytesAppend(queue: seq<Request>, r: Request)
    ensures QueueBytes(queue + [r]) == QueueBytes(queue) + r.Bytes()
  {
    if |queue| > 0 {
      assert (queue + [r])[1..] == queue[1..] + [r];
      QueueBytesAppend(queue[1..], r);
    }
  }

  // ----- Every operation keeps the invariant ------------------------------------------

  lemma EmptyValid(c: Limits)
    requires c.Ok()
    ensures Valid(c, EMPTY)
  {
  }

  lemma {:induction false} KeysOfOrder(order: seq<U64>, keys: set<U64>)
    requires NoDup(order) && forall id :: id in order <==> id in keys
    ensures |keys| == |order|
  {
    if |order| == 0 {
      assert keys == {};
    } else {
      KeysOfOrder(order[1..], keys - {order[0]});
    }
  }

  lemma PushStreamsOk(c: Limits, q: Queues, r: Request)
    requires c.Ok() && StreamsOk(c, q) && Fits(c, q, r)
    ensures StreamsOk(c, Push(q, r))
  {
    QueueBytesAppend(QueueOf(q, r.Id()), r);
    assert QueueBytes([]) == 0;
  }

  lemma PushCounted(q: Queues, r: Request)
    requires Enumerated(q) && Counted(q)
    ensures Counted(Push(q, r))
  {
    var p, id := Push(q, r), r.Id();
    if id in q.streams {
      var i :| 0 <= i < |q.order| && q.order[i] == id;
      SumUpdate(q.streams, p.streams, q.order, i, InBytes);
      SumUpdate(q.streams, p.streams, q.order, i, InFrames);
    } else {
      SumConcat(p.streams, q.order, [id], InBytes);
      SumConcat(p.streams, q.order, [id], InFrames);
      SumSame(q.streams, p.streams, q.order, InBytes);
      SumSame(q.streams, p.streams, q.order, InFrames);
      assert Sum(p.streams, [id], InBytes) == r.Bytes() && Sum(p.streams, [id], InFrames) == 1;
    }
  }

  lemma PushValid(c: Limits, q: Queues, r: Request)
    requires c.Ok() && Valid(c, q) && Fits(c, q, r)
    ensures Valid(c, Push(q, r))
  {
    KeysOfOrder(q.order, q.streams.Keys);
    PushStreamsOk(c, q, r);
    PushCounted(q, r);
  }

  lemma {:induction false} SumNonnegative(c: Limits, streams: map<U64, Stream>, order: seq<U64>)
    requires forall id :: id in order ==> id in streams && StreamOk(c, id, streams[id])
    ensures Sum(streams, order, InBytes) >= 0
  {
    if |order| > 0 {
      SumNonnegative(c, streams, order[1..]);
    }
  }

  /** A request fits exactly when the queues with it still respect every limit. */
  lemma FitsExactly(c: Limits, q: Queues, r: Request)
    requires c.Ok() && Valid(c, q)
    ensures Fits(c, q, r) <==> Valid(c, Push(q, r))
  {
    KeysOfOrder(q.order, q.streams.Keys);
    if Fits(c, q, r) {
      PushValid(c, q, r);
    }
    if Valid(c, Push(q, r)) {
      var id, p := r.Id(), Push(q, r);
      assert StreamOk(c, id, p.streams[id]);
      assert id in q.streams ==> StreamOk(c, id, q.streams[id]);
      SumNonnegative(c, q.streams, q.order);
    }
  }

  /** The bytes a frame takes in a queue. */
  function Weigh(f: Frame): nat {
    |f.payload| + 28
  }

  function Weights(queue: seq<Request>): nat {
    if |queue| == 0 then 0 else Weigh(queue[0].frame) + Weights(queue[1..])
  }

  lemma {:induction false} QueueBytesAre(queue: seq<Request>)
    ensures QueueBytes(queue) == Weights(queue)
  {
    if |queue| > 0 {
      QueueBytesAre(queue[1..]);
    }
  }

  /**
   * The four answers of send's locked pass, from what is queued and the configured limits alone: too large for any
   * queue, closed, no room now, or admitted.
   */
  lemma AdmitExactly(c: Limits, q: Queues, closed: bool, r: Request)
    requires c.Ok() && Valid(c, q)
    ensures
      var a, size, own := Admit(c, q, closed, r), Weigh(r.frame), QueueOf(q, r.frame.header.streamId);
      var large := size > c.perStreamQueueBytes || size > c.outboundQueueBytes;
      var room :=
        && Weights(own) + size <= c.perStreamQueueBytes && |own| + 1 <= c.perStreamQueueFrames
        && q.bytes + size <= c.outboundQueueBytes && q.frames + 1 <= c.outboundQueueFrames
        && (own == [] ==> |q.order| < c.maxActiveStreams);
      && (a == Oversized <==> large)
      && (a == Closed <==> !large && closed)
      && (a == Full <==> !large && !closed && !room)
      && (a == Admitted <==> !large && !closed && room)
  {
    var id := r.Id();
    KeysOfOrder(q.order, q.streams.Keys);
    QueueBytesAre(QueueOf(q, id));
    if id in q.streams {
      assert StreamOk(c, id, q.streams[id]);
    }
  }

  /** Admission puts a new stream at the end of the order list and leaves the list alone otherwise. */
  lemma PushOrder(c: Limits, q: Queues, r: Request)
    requires Valid(c, q)
    ensures Push(q, r).order == if QueueOf(q, r.Id()) == [] then q.order + [r.Id()] else q.order
    ensures Push(q, r).bytes == q.bytes + Weigh(r.frame) && Push(q, r).frames == q.frames + 1
  {
    assert r.Id() in q.streams ==> StreamOk(c, r.Id(), q.streams[r.Id()]);
  }

  lemma TakeAtEnumerated(q: Queues, i: nat)
    requires Enumerated(q) && i < |q.order| && q.order[i] in q.streams && |q.streams[q.order[i]].queue| > 0
    ensures Enumerated(TakeAt(q, i))
  {
    WithoutNoDup(q.order, i);
  }

  lemma TakeAtStreamsOk(c: Limits, q: Queues, i: nat)
    requires StreamsOk(c, q) && i < |q.order| && q.order[i] in q.streams && |q.streams[q.order[i]].queue| > 0
    ensures StreamsOk(c, TakeAt(q, i))
  {
    var id := q.order[i];
    assert StreamOk(c, id, q.streams[id]);
    assert q.streams[id].queue == [q.streams[id].queue[0]] + q.streams[id].queue[1..];
  }

  lemma TakeAtCounted(q: Queues, i: nat)
    requires Enumerated(q) && Counted(q)
    requires i < |q.order| && q.order[i] in q.streams && |q.streams[q.order[i]].queue| > 0
    requires q.streams[q.order[i]].bytes == QueueBytes(q.streams[q.order[i]].queue)
    ensures Counted(TakeAt(q, i))
  {
    var p := TakeAt(q, i);
    SumUpdate(q.streams, p.streams, q.order, i, InBytes);
    SumUpdate(q.streams, p.streams, q.order, i, InFrames);
    assert |q.streams[q.order[i]].queue| == 1 ==> QueueBytes(q.streams[q.order[i]].queue[1..]) == 0;
  }

  lemma TakeAtValid(c: Limits, q: Queues, i: nat)
    requires Valid(c, q) && i < |q.order|
    ensures q.order[i] in q.streams && |q.streams[q.order[i]].queue| > 0
    ensures Valid(c, TakeAt(q, i))
  {
    var id := q.order[i];
    assert id in q.order;
    assert StreamOk(c, id, q.streams[id]);
    TakeAtEnumerated(q, i);
    TakeAtStreamsOk(c, q, i);
    TakeAtCounted(q, i);
  }

  /** FIFO on admission: the request goes to the tail of its own stream and no other stream changes. */
  lemma PushAppends(q: Queues, r: Request, id: U64)
    ensures QueueOf(Push(q, r), id) == QueueOf(q, id) + (if id == r.Id() then [r] else [])
  {
  }

  lemma HeadOnOwnStream(c: Limits, q: Queues, i: nat)
    requires Valid(c, q) && i < |q.order| && q.order[i] in q.streams && |q.streams[q.order[i]].queue| > 0
    ensures Head(q, i).Id() == q.order[i]
  {
    var x := q.order[i];
    assert StreamOk(c, x, q.streams[x]);
    assert q.streams[x].queue[0] in q.streams[x].queue;
  }

  /** FIFO on service: what is taken is the head of its own stream and no other stream changes. */
  lemma TakeAtPops(q: Queues, i: nat, id: U64)
    requires i < |q.order| && q.order[i] in q.streams && |q.streams[q.order[i]].queue| > 0
    requires Head(q, i).Id() == q.order[i]
    ensures QueueOf(q, id) == (if id == Head(q, i).Id() then [Head(q, i)] else []) + QueueOf(TakeAt(q, i), id)
  {
    var x := q.order[i];
    assert q.streams[x].queue == [q.streams[x].queue[0]] + q.streams[x].queue[1..];
  }

  // ----- The scan --------------------------------------------------------------------

  lemma {:induction false} FirstReadyMisses(q: Queues, kind: TrafficClass, cursor: nat, checked: nat, k: nat)
    requires checked <= k < |q.order|
    requires FirstReady(q, kind, cursor, checked) == None
    ensures !Ready(q, kind, (cursor + k) % |q.order|)
    decreases k - checked
  {
    if checked < k {
      FirstReadyMisses(q, kind, cursor, checked + 1, k);
    }
  }

  /** Every position is visited: i is reached after (i - cursor) mod n steps. */
  lemma CyclicOffset(cursor: nat, n: nat, i: nat) returns (k: nat)
    requires i < n
    ensures k < n && (cursor + k) % n == i
  {
    k := (i + n - cursor % n) % n;
    var a, b := cursor / n, cursor % n;
    assert cursor == a * n + b;
    if i >= b {
      assert i + n - b == (i - b) + n;
      ModPlus(i - b, 1, n);
      assert cursor + k == a * n + i;
    } else {
      ModPlus(i + n - b, 0, n);
      assert cursor + k == (a + 1) * n + i;
      ModPlus(i, a + 1, n);
    }
    ModPlus(i, a, n);
  }

  lemma ModPlus(x: nat, a: nat, n: nat)
    requires x < n
    ensures (a * n + x) % n == x
  {
    var y := a * n + x;
    assert y == y / n * n + y % n;
    if a > y / n {
      MulGap(a, y / n, n);
    } else if a < y / n {
      MulGap(y / n, a, n);
    }
  }

  lemma MulGap(a: nat, d: nat, n: nat)
    requires a > d
    ensures a * n >= d * n + n
  {
    var k := a - d - 1;
    assert a * n == d * n + n + k * n;
  }

  /** A take of a class fails exactly when no stream head has that class, wherever the cursor is. */
  lemma TakeFailsExactly(q: Queues, kind: TrafficClass, cursor: nat)
    ensures Take(q, kind, cursor).request == None <==> !HasReady(q, kind)
    ensures Take(q, kind, cursor).request == None ==> Take(q, kind, cursor).queues == q
  {
    if |q.order| > 0 && FirstReady(q, kind, cursor, 0) == None && HasReady(q, kind) {
      var i :| 0 <= i < |q.order| && Ready(q, kind, i);
      var k := CyclicOffset(cursor, |q.order|, i);
      FirstReadyMisses(q, kind, cursor, 0, k);
      assert false;
    }
  }

  /** The position `j` steps after the cursor, going round a list of `n`. */
  function Around(cursor: nat, j: nat, n: nat): (i: nat)
    requires n > 0
    ensures i < n
  {
    (cursor + j) % n
  }

  /** Stream `i` has nothing of this class to give. */
  predicate Passed(q: Queues, kind: TrafficClass, i: nat)
    requires i < |q.order|
  {
    q.order[i] in q.streams && |q.streams[q.order[i]].queue| > 0 ==> q.streams[q.order[i]].queue[0].kind != kind
  }

  lemma {:induction false} FirstReadyFrom(q: Queues, kind: TrafficClass, cursor: nat, checked: nat) returns (k: nat)
    requires checked <= |q.order| && FirstReady(q, kind, cursor, checked).Some?
    ensures checked <= k < |q.order| && FirstReady(q, kind, cursor, checked).value == Around(cursor, k, |q.order|)
    ensures forall j :: checked <= j < k ==> Passed(q, kind, Around(cursor, j, |q.order|))
    decreases |q.order| - checked
  {
    FirstReadyStep(q, kind, cursor, checked);
    hide FirstReady, Around, Ready, Passed;
    if Ready(q, kind, Around(cursor, checked, |q.order|)) {
      k := checked;
    } else {
      k := FirstReadyFrom(q, kind, cursor, checked + 1);
    }
  }

  lemma FirstReadyStep(q: Queues, kind: TrafficClass, cursor: nat, checked: nat)
    requires checked <= |q.order| && FirstReady(q, kind, cursor, checked).Some?
    ensures checked < |q.order|
    ensures
      var i := Around(cursor, checked, |q.order|);
      && FirstReady(q, kind, cursor, checked)
         == (if Ready(q, kind, i) then Some(i) else FirstReady(q, kind, cursor, checked + 1))
      && (Ready(q, kind, i) <==> !Passed(q, kind, i))
  {
  }

  /**
   * The scan starts at the cursor and goes round: the stream served is the k-th from there, and no stream before it
   * has a head of this class. It leaves the order list if that was its last frame, and the others keep their order.
   */
  lemma TakeServesFirst(q: Queues, kind: TrafficClass, cursor: nat) returns (k: nat)
    requires Take(q, kind, cursor).request.Some?
    ensures k < |q.order|
    ensures
      var i, p := (cursor + k) % |q.order|, Take(q, kind, cursor);
      && q.order[i] in q.streams && |q.streams[q.order[i]].queue| > 0
      && p.request.value == q.streams[q.order[i]].queue[0] && p.request.value.kind == kind
      && p.queues.order
         == (if |q.streams[q.order[i]].queue| == 1 then q.order[..i] + q.order[i + 1..] else q.order)
    ensures forall j :: 0 <= j < k ==> Passed(q, kind, Around(cursor, j, |q.order|))
  {
    hide FirstReady;
    k := FirstReadyFrom(q, kind, cursor, 0);
  }

  /** A successful take serves some stream's head, of the class asked for. */
  lemma TakeServesAHead(q: Queues, kind: TrafficClass, cursor: nat) returns (i: nat)
    requires Take(q, kind, cursor).request.Some?
    ensures i < |q.order| && Ready(q, kind, i)
    ensures Take(q, kind, cursor).request == Some(Head(q, i))
    ensures Take(q, kind, cursor).queues == TakeAt(q, i)
  {
    i := FirstReady(q, kind, cursor, 0).value;
  }

  /**
   * The cursor survives in-place removal: it always ends on the stream that followed the served one,
   * and it stays inside the list.
   */
  lemma CursorFollowsServed(q: Queues, i: nat)
    requires i < |q.order| && q.order[i] in q.streams && |q.streams[q.order[i]].queue| > 0
    ensures
      var p := TakeAt(q, i);
      var next := NextCursor(|q.order|, i, |q.streams[q.order[i]].queue| == 1);
      if p.order == [] then next == 0
      else next < |p.order| && p.order[next] == q.order[(i + 1) % |q.order|]
  {
    var n := |q.order|;
    assert i + 1 < n ==> (i + 1) % n == i + 1;
    assert i + 1 == n ==> (i + 1) % n == 0;
  }

  /** Whatever a take finds or removes, the cursor it leaves is in range of the list it leaves. */
  lemma TakeCursorOk(q: Queues, kind: TrafficClass, cursor: nat)
    requires CursorOk(q, cursor)
    ensures CursorOk(Take(q, kind, cursor).queues, Take(q, kind, cursor).cursor)
  {
    hide TakeAt, NextCursor;
    if |q.order| > 0 && FirstReady(q, kind, cursor, 0).Some? {
      CursorFollowsServed(q, FirstReady(q, kind, cursor, 0).value);
    }
  }
}
