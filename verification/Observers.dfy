/**
 * Event observers: every subscription has its own bounded queue and worker, and a slow one is dropped without
 * touching the others (pty/manager.go, Subscribe, Subscription and emitLocked).
 */
module Observers {
  import opened Common
  import Lifecycle

  /** `kind` is None for attachment events; `data` is the payload of an output event. */
  datatype Event = Event(session: U64, kind: Option<Lifecycle.Kind>, data: seq<Byte>)

  /** eventBytes. */
  function EventBytes(e: Event): nat {
    if e.kind.Some? && e.kind.value.Output? then |e.data| + 64 else 128
  }

  function Bytes(queue: seq<Event>): nat {
    if |queue| == 0 then 0 else EventBytes(queue[0]) + Bytes(queue[1..])
  }

  lemma BytesHead(queue: seq<Event>)
    requires |queue| > 0
    ensures Bytes(queue) == EventBytes(queue[0]) + Bytes(queue[1..])
  {
  }

  lemma NoBytes()
    ensures Bytes([]) == 0
  {
  }

  lemma {:induction false} BytesAppend(queue: seq<Event>, e: Event)
    ensures Bytes(queue + [e]) == Bytes(queue) + EventBytes(e)
  {
    if |queue| > 0 {
      assert (queue + [e])[1..] == queue[1..] + [e];
      BytesAppend(queue[1..], e);
    }
  }

  /** The locked fields of a Subscription. */
  datatype Queue = Queue(items: seq<Event>, bytes: int, closed: bool)

  predicate Accepts(q: Queue, maxBytes: nat, e: Event) {
    !q.closed && EventBytes(e) <= maxBytes && q.bytes + EventBytes(e) <= maxBytes
  }

  function Enqueued(q: Queue, e: Event): Queue {
    q.(items := q.items + [e], bytes := q.bytes + EventBytes(e))
  }

  function Offered(q: Queue, maxBytes: nat, e: Event): Queue {
    if Accepts(q, maxBytes, e) then Enqueued(q, e) else q
  }

  function Taken(q: Queue): Queue
    requires |q.items| > 0
  {
    q.(items := q.items[1..], bytes := q.bytes - EventBytes(q.items[0]))
  }

  const FINISHED := Queue([], 0, true)

  /**
   * One subscription: whether the manager still lists it, its queue, the event its worker holds, whether the worker
   * has returned, how many events had been emitted when it joined and when it was taken off the list, and what its
   * reader received.
   */
  datatype Sub = Sub(
    listed: bool,
    queue: Queue,
    held: Option<Event>,
    stopped: bool,
    joined: nat,
    left: nat,
    received: seq<Event>)

  /** `canceled` once the manager's context is: its parent was canceled, or Close got that far. */
  datatype State = State(subs: map<nat, Sub>, next: nat, closing: bool, canceled: bool, emitted: seq<Event>)

  datatype Limits = Limits(maxBytes: nat, maxObservers: nat)

  const INIT := State(map[], 0, false, false, [])

  datatype Act =
    | Subscribe
    | Emit(event: Event)
    | Unlist(id: nat)       // Subscription.Close, its first half
    | Finish(id: nat)       // finish, after overflow, Close or Manager.Close
    | Take(id: nat)         // next, when an event is queued
    | Receive(id: nat)      // the reader takes the event the worker offers
    | Stop(id: nat)         // the worker sees the subscription closed or its context canceled, and returns
    | Cancel                // the manager's context is canceled
    | CloseAll              // Manager.Close

  function Listed(subs: map<nat, Sub>): set<nat> {
    set id | id in subs && subs[id].listed
  }

  /** emitLocked, seen from one subscription. */
  function Told(maxBytes: nat, x: Sub, e: Event, count: nat): Sub {
    if !x.listed then x
    else if Accepts(x.queue, maxBytes, e) then x.(queue := Enqueued(x.queue, e))
    else x.(listed := false, left := count)
  }

  function Unlisted(x: Sub, count: nat): Sub {
    if x.listed then x.(listed := false, left := count) else x
  }

  function Step(c: Limits, s: State, a: Act): State {
    match a
    case Subscribe =>
      if s.closing || |Listed(s.subs)| >= c.maxObservers then s
      else s.(next := s.next + 1,
              subs := s.subs[s.next + 1 := Sub(true, Queue([], 0, false), None, false, |s.emitted|, 0, [])])
    case Emit(e) =>
      s.(subs := map id | id in s.subs :: Told(c.maxBytes, s.subs[id], e, |s.emitted|), emitted := s.emitted + [e])
    case Cancel => s.(canceled := true)
    case CloseAll =>
      s.(closing := true, subs := map id | id in s.subs :: Unlisted(s.subs[id], |s.emitted|))
    case _ =>
      if a.id !in s.subs then s else s.(subs := s.subs[a.id := Own(s.subs[a.id], a, s.canceled, |s.emitted|)])
  }

  /** The steps that concern one subscription only. */
  function Own(x: Sub, a: Act, canceled: bool, count: nat): Sub {
    match a
    case Unlist(_) => Unlisted(x, count)
    case Finish(_) => if x.listed then x else x.(queue := FINISHED)
    case Take(_) =>
      if |x.queue.items| > 0 && x.held == None && !x.stopped
      then x.(queue := Taken(x.queue), held := Some(x.queue.items[0])) else x
    case Receive(_) =>
      if x.held.Some? && !x.stopped then x.(received := x.received + [x.held.value], held := None) else x
    case Stop(_) => if x.queue.closed || canceled then x.(stopped := true, held := None) else x
    case _ => x
  }

  function Run(c: Limits, acts: seq<Act>): State {
    if |acts| == 0 then INIT else Step(c, Run(c, acts[..|acts| - 1]), acts[|acts| - 1])
  }

  function Hand(x: Sub): seq<Event> {
    if x.held.Some? then [x.held.value] else []
  }

  /** Where the subscription's share of the emitted events ends. */
  function End(x: Sub, count: nat): nat {
    if x.listed then count else x.left
  }

  /**
   * While its worker runs, received, held and queued events are together exactly those emitted while the subscription
   * was listed; one that is finished or whose worker returned has lost only the tail. The byte count is the sum of the
   * queued sizes and never over.
   */
  ghost predicate SubOk(maxBytes: nat, x: Sub, emitted: seq<Event>) {
    && x.joined <= End(x, |emitted|) <= |emitted|
    && (x.listed ==> !x.queue.closed)
    && x.queue.bytes == Bytes(x.queue.items) <= maxBytes
    && (x.queue.closed ==> x.queue.items == [])
    && (x.stopped ==> x.held == None)
    && (!x.queue.closed && !x.stopped ==>
          x.received + Hand(x) + x.queue.items == emitted[x.joined..End(x, |emitted|)])
    && x.received + Hand(x) <= emitted[x.joined..End(x, |emitted|)]
  }

  ghost predicate Inv(c: Limits, s: State) {
    && (forall id :: id in s.subs ==> id <= s.next && SubOk(c.maxBytes, s.subs[id], s.emitted))
    && (forall id :: id in s.subs && s.subs[id].stopped ==> s.subs[id].queue.closed || s.canceled)
    && |Listed(s.subs)| <= c.maxObservers
    && (s.closing ==> Listed(s.subs) == {})
  }

  // ----- Steps -----------------------------------------------------------------------------------

  lemma ToldKeeps(maxBytes: nat, x: Sub, e: Event, emitted: seq<Event>)
    requires SubOk(maxBytes, x, emitted)
    ensures SubOk(maxBytes, Told(maxBytes, x, e, |emitted|), emitted + [e])
  {
    hide Bytes;
    var more := emitted + [e];
    BytesAppend(x.queue.items, e);
    var end := End(x, |emitted|);
    assert more[x.joined..end] == emitted[x.joined..end];
    assert more[x.joined..|emitted|] == emitted[x.joined..|emitted|] <= more[x.joined..|more|];
    if x.listed && Accepts(x.queue, maxBytes, e) {
      assert more[x.joined..|more|] == emitted[x.joined..|emitted|] + [e];
      var before := x.received + Hand(x);
      assert before + (x.queue.items + [e]) == before + x.queue.items + [e];
    }
  }

  lemma TakenKeeps(maxBytes: nat, x: Sub, emitted: seq<Event>)
    requires SubOk(maxBytes, x, emitted) && |x.queue.items| > 0 && x.held == None && !x.stopped
    ensures SubOk(maxBytes, x.(queue := Taken(x.queue), held := Some(x.queue.items[0])), emitted)
  {
    hide Bytes;
    var q := x.queue.items;
    BytesHead(q);
    assert x.received + [] + q == (x.received + [q[0]]) + q[1..];
  }

  lemma ReceivedKeeps(maxBytes: nat, x: Sub, emitted: seq<Event>)
    requires SubOk(maxBytes, x, emitted) && x.held.Some? && !x.stopped
    ensures SubOk(maxBytes, x.(received := x.received + [x.held.value], held := None), emitted)
  {
    hide Bytes;
    assert (x.received + [x.held.value]) + [] == x.received + Hand(x);
  }

  lemma StoppedKeeps(maxBytes: nat, x: Sub, emitted: seq<Event>)
    requires SubOk(maxBytes, x, emitted)
    ensures SubOk(maxBytes, x.(stopped := true, held := None), emitted)
  {
    hide Bytes;
    assert x.received <= x.received + Hand(x);
    assert x.received + [] == x.received;
  }

  lemma FinishedKeeps(maxBytes: nat, x: Sub, emitted: seq<Event>)
    requires SubOk(maxBytes, x, emitted) && !x.listed
    ensures SubOk(maxBytes, x.(queue := FINISHED), emitted)
  {
    hide Bytes;
    NoBytes();
  }

  lemma OwnKeeps(maxBytes: nat, x: Sub, a: Act, canceled: bool, emitted: seq<Event>)
    requires SubOk(maxBytes, x, emitted) && (x.stopped ==> x.queue.closed || canceled)
    ensures
      var y := Own(x, a, canceled, |emitted|);
      SubOk(maxBytes, y, emitted) && (y.listed ==> x.listed) && (y.stopped ==> y.queue.closed || canceled)
  {
    hide SubOk;
    match a
    case Unlist(_) => UnlistedKeeps(maxBytes, x, emitted);
    case Finish(_) =>
      if !x.listed {
        FinishedKeeps(maxBytes, x, emitted);
      }
    case Take(_) =>
      if |x.queue.items| > 0 && x.held == None && !x.stopped {
        TakenKeeps(maxBytes, x, emitted);
      }
    case Receive(_) =>
      if x.held.Some? && !x.stopped {
        ReceivedKeeps(maxBytes, x, emitted);
      }
    case Stop(_) => StoppedKeeps(maxBytes, x, emitted);
    case _ =>
  }

  lemma ListedShrinks(a: map<nat, Sub>, b: map<nat, Sub>)
    requires forall id :: id in b && b[id].listed ==> id in a && a[id].listed
    ensures Listed(b) <= Listed(a) && |Listed(b)| <= |Listed(a)|
  {
    assert Listed(b) <= Listed(a);
    CardinalityMonotone(Listed(b), Listed(a));
  }

  lemma FreshIsOk(maxBytes: nat, emitted: seq<Event>)
    ensures SubOk(maxBytes, Sub(true, Queue([], 0, false), None, false, |emitted|, 0, []), emitted)
  {
  }

  lemma SubscribeKeeps(c: Limits, s: State)
    requires Inv(c, s)
    ensures Inv(c, Step(c, s, Subscribe))
  {
    hide Own, Told, SubOk;
    var t := Step(c, s, Subscribe);
    if !s.closing && |Listed(s.subs)| < c.maxObservers {
      FreshIsOk(c.maxBytes, s.emitted);
      assert Listed(t.subs) == Listed(s.subs) + {s.next + 1};
    }
  }

  lemma EmitKeeps(c: Limits, s: State, e: Event)
    requires Inv(c, s)
    ensures Inv(c, Step(c, s, Emit(e)))
  {
    hide SubOk, Own, Told, Listed;
    var t := Step(c, s, Emit(e));
    forall id | id in t.subs
      ensures SubOk(c.maxBytes, t.subs[id], t.emitted) && (t.subs[id].listed ==> s.subs[id].listed)
      ensures t.subs[id].stopped == s.subs[id].stopped && t.subs[id].queue.closed == s.subs[id].queue.closed
    {
      ToldKeeps(c.maxBytes, s.subs[id], e, s.emitted);
      ToldListed(c.maxBytes, s.subs[id], e, |s.emitted|);
    }
    ListedShrinks(s.subs, t.subs);
  }

  lemma CloseAllKeeps(c: Limits, s: State)
    requires Inv(c, s)
    ensures Inv(c, Step(c, s, CloseAll))
  {
    hide SubOk, Own, Told;
    var t := Step(c, s, CloseAll);
    forall id | id in t.subs
      ensures SubOk(c.maxBytes, t.subs[id], t.emitted)
    {
      UnlistedKeeps(c.maxBytes, s.subs[id], s.emitted);
    }
    assert Listed(t.subs) == {};
  }

  lemma OneKeeps(c: Limits, s: State, id: nat, y: Sub)
    requires Inv(c, s) && id in s.subs && SubOk(c.maxBytes, y, s.emitted) && (y.listed ==> s.subs[id].listed)
    requires y.stopped ==> y.queue.closed || s.canceled
    ensures Inv(c, s.(subs := s.subs[id := y]))
  {
    hide SubOk, Listed;
    ListedShrinks(s.subs, s.subs[id := y]);
  }

  lemma StepKeeps(c: Limits, s: State, a: Act)
    requires Inv(c, s)
    ensures Inv(c, Step(c, s, a))
  {
    hide SubOk, Own, Told, Listed;
    match a
    case Subscribe => SubscribeKeeps(c, s);
    case Emit(e) => EmitKeeps(c, s, e);
    case Cancel =>
    case CloseAll => CloseAllKeeps(c, s);
    case _ =>
      if a.id in s.subs {
        OwnKeeps(c.maxBytes, s.subs[a.id], a, s.canceled, s.emitted);
        OneKeeps(c, s, a.id, Own(s.subs[a.id], a, s.canceled, |s.emitted|));
      }
  }

  lemma ToldListed(maxBytes: nat, x: Sub, e: Event, count: nat)
    ensures
      var y := Told(maxBytes, x, e, count);
      (y.listed ==> x.listed) && y.stopped == x.stopped && y.queue.closed == x.queue.closed
  {
  }

  lemma UnlistedKeeps(maxBytes: nat, x: Sub, emitted: seq<Event>)
    requires SubOk(maxBytes, x, emitted)
    ensures SubOk(maxBytes, Unlisted(x, |emitted|), emitted)
  {
  }

  lemma {:induction false} RunKeeps(c: Limits, acts: seq<Act>)
    ensures Inv(c, Run(c, acts))
  {
    hide Step;
    if |acts| == 0 {
      var none: map<nat, Sub> := map[];
      assert Listed(none) == {};
    } else {
      RunKeeps(c, acts[..|acts| - 1]);
      StepKeeps(c, Run(c, acts[..|acts| - 1]), acts[|acts| - 1]);
    }
  }

  // ----- What every run shows -----------------------------------------------------------------------

  /**
   * What an observer received is always a prefix of the events emitted since it subscribed. While it is listed and
   * its worker runs nothing is missing: received, held and queued events are all of them, within the byte limit. The
   * worker of a listed observer runs until the manager's context is canceled.
   */
  lemma ObserverReceivesPrefix(c: Limits, acts: seq<Act>, id: nat)
    requires id in Run(c, acts).subs
    ensures
      var s := Run(c, acts);
      var x := s.subs[id];
      && x.joined <= |s.emitted|
      && x.received <= s.emitted[x.joined..]
      && (x.listed && !x.stopped ==> x.received + Hand(x) + x.queue.items == s.emitted[x.joined..])
      && (x.listed && x.stopped ==> s.canceled)
      && x.queue.bytes == Bytes(x.queue.items) <= c.maxBytes
  {
    hide Run, Step, Bytes, Listed;
    RunKeeps(c, acts);
    var s := Run(c, acts);
    var x := s.subs[id];
    var end := End(x, |s.emitted|);
    assert s.emitted[x.joined..end] <= s.emitted[x.joined..];
    assert x.received <= x.received + Hand(x);
    PrefixTransitive(x.received, x.received + Hand(x), s.emitted[x.joined..end]);
    PrefixTransitive(x.received, s.emitted[x.joined..end], s.emitted[x.joined..]);
  }

  /** A listed observer is never closed, so only a full queue can make emitLocked drop it. */
  lemma OnlyOverflowDrops(c: Limits, acts: seq<Act>, id: nat, e: Event)
    requires id in Run(c, acts).subs && Run(c, acts).subs[id].listed
    ensures
      var x := Run(c, acts).subs[id];
      !Told(c.maxBytes, x, e, |Run(c, acts).emitted|).listed <==> Bytes(x.queue.items) + EventBytes(e) > c.maxBytes
  {
    hide Run, Step, Bytes, Listed;
    RunKeeps(c, acts);
  }

  /** Who may subscribe, and what an event costs: 64 bytes and its data for output, 128 for anything else. */
  lemma SubscribesExactly(c: Limits, s: State)
    requires Inv(c, s)
    ensures
      var t := Step(c, s, Subscribe);
      if !s.closing && |Listed(s.subs)| < c.maxObservers then
        && t.subs.Keys == s.subs.Keys + {s.next + 1} && s.next + 1 !in s.subs && t.subs[s.next + 1].listed
        && t.subs[s.next + 1].queue.items == [] && t.subs[s.next + 1].joined == |s.emitted|
      else t == s
    ensures forall e :: EventBytes(e) == if e.kind.Some? && e.kind.value.Output? then 64 + |e.data| else 128
  {
    hide SubOk, Listed;
  }

  // ----- What an observer can still be given --------------------------------------------------------

  lemma RunAppend(c: Limits, acts: seq<Act>, a: Act)
    ensures Run(c, acts + [a]) == Step(c, Run(c, acts), a)
    ensures Run(c, acts + [a]).emitted == Run(c, acts).emitted + if a.Emit? then [a.event] else []
  {
    hide Told, Own;
    DropLast(acts, a);
  }

  /** What later steps leave of a subscription: what was received stays, and all of it once the worker has returned. */
  ghost predicate Later(x: Sub, y: Sub) {
    && y.joined == x.joined && x.received <= y.received
    && (x.stopped ==> y.stopped && y.received == x.received)
  }

  lemma StepLater(c: Limits, s: State, a: Act, id: nat)
    requires id in s.subs && id <= s.next
    ensures id in Step(c, s, a).subs && Later(s.subs[id], Step(c, s, a).subs[id])
    ensures s.emitted <= Step(c, s, a).emitted
  {
    hide Listed;
  }

  lemma {:induction false} RunLater(c: Limits, acts: seq<Act>, more: seq<Act>, id: nat)
    requires id in Run(c, acts).subs
    ensures id in Run(c, acts + more).subs && Later(Run(c, acts).subs[id], Run(c, acts + more).subs[id])
    ensures Run(c, acts).emitted <= Run(c, acts + more).emitted
    decreases |more|
  {
    hide Run, Step, SubOk, Listed;
    if |more| == 0 {
      assert acts + more == acts;
    } else {
      var n := |more| - 1;
      RunLater(c, acts, more[..n], id);
      assert acts + more == acts + more[..n] + [more[n]];
      RunAppend(c, acts + more[..n], more[n]);
      RunKeeps(c, acts + more[..n]);
      StepLater(c, Run(c, acts + more[..n]), more[n], id);
    }
  }

  lemma DeliverStep(c: Limits, s: State, id: nat)
    requires id in s.subs
    ensures id in Step(c, s, Take(id)).subs && id in Step(c, s, Receive(id)).subs
    ensures Step(c, s, Take(id)).subs[id] == Own(s.subs[id], Take(id), s.canceled, |s.emitted|)
    ensures Step(c, s, Receive(id)).subs[id] == Own(s.subs[id], Receive(id), s.canceled, |s.emitted|)
  {
  }

  /** A running worker and a patient reader: the held event and then the queue, one by one. */
  lemma {:induction false} DrainQueue(c: Limits, acts: seq<Act>, id: nat) returns (more: seq<Act>)
    requires id in Run(c, acts).subs && !Run(c, acts).subs[id].stopped
    ensures id in Run(c, acts + more).subs
    ensures
      var x := Run(c, acts).subs[id];
      Run(c, acts + more).subs[id].received == x.received + Hand(x) + x.queue.items
    decreases |Run(c, acts).subs[id].queue.items|, |Hand(Run(c, acts).subs[id])|
  {
    hide Run, Step;
    var x := Run(c, acts).subs[id];
    DeliverStep(c, Run(c, acts), id);
    if x.held.Some? {
      RunAppend(c, acts, Receive(id));
      var rest := DrainQueue(c, acts + [Receive(id)], id);
      more := [Receive(id)] + rest;
      assert acts + more == acts + [Receive(id)] + rest;
      assert x.received + Hand(x) + [] + x.queue.items == x.received + Hand(x) + x.queue.items;
    } else if |x.queue.items| > 0 {
      RunAppend(c, acts, Take(id));
      var rest := DrainQueue(c, acts + [Take(id)], id);
      more := [Take(id)] + rest;
      assert acts + more == acts + [Take(id)] + rest;
      assert x.queue.items == [x.queue.items[0]] + x.queue.items[1..];
    } else {
      more := [];
      assert acts + [] == acts && x.received + [] + [] == x.received;
    }
  }

  /** Some continuation of the run gives the observer everything emitted so far since it subscribed. */
  ghost predicate CanReceiveAll(c: Limits, acts: seq<Act>, id: nat)
    requires id in Run(c, acts).subs && Run(c, acts).subs[id].joined <= |Run(c, acts).emitted|
  {
    exists more :: Receives(c, acts + more, id, Run(c, acts).emitted[Run(c, acts).subs[id].joined..])
  }

  ghost predicate Receives(c: Limits, acts: seq<Act>, id: nat, events: seq<Event>) {
    id in Run(c, acts).subs && events <= Run(c, acts).subs[id].received
  }

  /**
   * Exactly when a listed observer misses nothing: it can still be given everything emitted so far if and only if its
   * worker runs, which its reader sees by its open channel, or it already was given everything.
   */
  lemma ListedMissesNothingExactly(c: Limits, acts: seq<Act>, id: nat)
    requires id in Run(c, acts).subs && Run(c, acts).subs[id].listed
    ensures
      var s := Run(c, acts);
      var x := s.subs[id];
      && x.joined <= |s.emitted|
      && (CanReceiveAll(c, acts, id) <==> !x.stopped || x.received == s.emitted[x.joined..])
  {
    hide Run, Bytes;
    ObserverReceivesPrefix(c, acts, id);
    var s := Run(c, acts);
    var x := s.subs[id];
    var all := s.emitted[x.joined..];
    if !x.stopped {
      var more := DrainQueue(c, acts, id);
      assert Receives(c, acts + more, id, all);
    } else if x.received == all {
      assert acts + [] == acts;
      assert Receives(c, acts + [], id, all);
    } else if CanReceiveAll(c, acts, id) {
      var more :| Receives(c, acts + more, id, all);
      RunLater(c, acts, more, id);
    }
  }

  /** The step that loses the event a listed observer's worker holds is its return on the canceled context, no other. */
  lemma HeldIsLostExactly(c: Limits, acts: seq<Act>, id: nat, a: Act)
    requires id in Run(c, acts).subs && Run(c, acts).subs[id].listed
    ensures id in Run(c, acts + [a]).subs
    ensures
      var x, y := Run(c, acts).subs[id], Run(c, acts + [a]).subs[id];
      !(x.received + Hand(x) <= y.received + Hand(y)) <==> a == Stop(id) && Run(c, acts).canceled && x.held.Some?
  {
    hide Run, Listed, Bytes, Own, Told, Unlisted, Hand;
    RunKeeps(c, acts);
    RunAppend(c, acts, a);
    var s := Run(c, acts);
    HeldAfterOwn(s.subs[id], a, s.canceled, |s.emitted|);
    HeldAfterOthers(c.maxBytes, s.subs[id], if a.Emit? then a.event else Event(0, None, []), |s.emitted|);
  }

  lemma HeldAfterOwn(x: Sub, a: Act, canceled: bool, count: nat)
    ensures
      var y := Own(x, a, canceled, count);
      !(x.received + Hand(x) <= y.received + Hand(y)) <==> a.Stop? && (x.queue.closed || canceled) && x.held.Some?
  {
    var y := Own(x, a, canceled, count);
    if x.held.Some? {
      assert |x.received + Hand(x)| == |x.received| + 1;
      assert a.Receive? && !x.stopped ==> y.received + [] == x.received + Hand(x);
    } else {
      assert x.received + Hand(x) == x.received;
    }
  }

  lemma HeldAfterOthers(maxBytes: nat, x: Sub, e: Event, count: nat)
    ensures Told(maxBytes, x, e, count).received == Unlisted(x, count).received == x.received
    ensures Hand(Told(maxBytes, x, e, count)) == Hand(Unlisted(x, count)) == Hand(x)
  {
  }

  /** A run in which a listed observer loses the event its worker holds when the context is canceled. */
  lemma CanceledWorkerCanLoseAnEvent(c: Limits, e: Event)
    requires c.maxObservers > 0 && EventBytes(e) <= c.maxBytes
    ensures
      var s := Run(c, [Subscribe, Emit(e), Take(1), Cancel, Stop(1)]);
      && 1 in s.subs && s.subs[1].listed && s.subs[1].joined == 0 && s.emitted == [e]
      && s.subs[1].received == [] && s.subs[1].held == None && s.subs[1].queue.items == []
  {
    hide Run, Listed;
    var acts := [Subscribe, Emit(e), Take(1), Cancel, Stop(1)];
    OneEventQueued(c, e);
    assert [Subscribe, Emit(e)] == acts[..2];
    RunAppend(c, acts[..2], Take(1));
    assert acts[..2] + [Take(1)] == acts[..3];
    RunAppend(c, acts[..3], Cancel);
    assert acts[..3] + [Cancel] == acts[..4];
    RunAppend(c, acts[..4], Stop(1));
    assert acts[..4] + [Stop(1)] == acts;
  }

  lemma OneEventQueued(c: Limits, e: Event)
    requires c.maxObservers > 0 && EventBytes(e) <= c.maxBytes
    ensures
      var s := Run(c, [Subscribe, Emit(e)]);
      && 1 in s.subs && s.subs[1] == Sub(true, Queue([e], EventBytes(e), false), None, false, 0, 0, [])
      && s.emitted == [e]
  {
    hide Run;
    FirstSubscriber(c);
    RunAppend(c, [Subscribe], Emit(e));
    assert [Subscribe] + [Emit(e)] == [Subscribe, Emit(e)];
  }

  lemma FirstSubscriber(c: Limits)
    requires c.maxObservers > 0
    ensures
      var s := Run(c, [Subscribe]);
      && 1 in s.subs && s.subs[1] == Sub(true, Queue([], 0, false), None, false, 0, 0, [])
      && s.emitted == [] && !s.canceled
  {
    hide Run;
    NothingRun(c);
    assert Listed(INIT.subs) == {};
    RunAppend(c, [], Subscribe);
    assert [] + [Subscribe] == [Subscribe];
  }

  function EmitAll(events: seq<Event>): seq<Act> {
    if |events| == 0 then [] else EmitAll(events[..|events| - 1]) + [Emit(events[|events| - 1])]
  }

  /**
   * Runs in which it loses any number of events: its worker returned on the canceled context, and until Close takes
   * the lock emitLocked goes on queueing to it what nobody will take.
   */
  lemma {:induction false} StoppedWorkerCanLoseAll(c: Limits, events: seq<Event>)
    requires c.maxObservers > 0 && Bytes(events) <= c.maxBytes
    ensures
      var s := Run(c, [Subscribe, Cancel, Stop(1)] + EmitAll(events));
      && s.emitted == events && 1 in s.subs
      && s.subs[1] == Sub(true, Queue(events, Bytes(events), false), None, true, 0, 0, [])
  {
    hide Run, Step, Bytes;
    var acts := [Subscribe, Cancel, Stop(1)];
    if |events| == 0 {
      NoBytes();
      StoppedAtOnce(c);
      assert acts + [] == acts;
    } else {
      var init, last := events[..|events| - 1], events[|events| - 1];
      assert events == init + [last];
      BytesAppend(init, last);
      StoppedWorkerCanLoseAll(c, init);
      QueuedInVain(c, Run(c, acts + EmitAll(init)), last);
      RunAppend(c, acts + EmitAll(init), Emit(last));
      assert acts + EmitAll(events) == acts + EmitAll(init) + [Emit(last)];
    }
  }

  lemma StoppedAtOnce(c: Limits)
    requires c.maxObservers > 0
    ensures
      var s := Run(c, [Subscribe, Cancel, Stop(1)]);
      s.emitted == [] && 1 in s.subs && s.subs[1] == Sub(true, Queue([], 0, false), None, true, 0, 0, [])
  {
    hide Run, Listed;
    FirstSubscriber(c);
    RunAppend(c, [Subscribe], Cancel);
    assert [Subscribe] + [Cancel] == [Subscribe, Cancel];
    RunAppend(c, [Subscribe, Cancel], Stop(1));
    assert [Subscribe, Cancel] + [Stop(1)] == [Subscribe, Cancel, Stop(1)];
  }

  lemma QueuedInVain(c: Limits, s: State, e: Event)
    requires 1 in s.subs && s.subs[1].listed && Accepts(s.subs[1].queue, c.maxBytes, e)
    ensures
      var t := Step(c, s, Emit(e));
      1 in t.subs && t.subs[1] == s.subs[1].(queue := Enqueued(s.subs[1].queue, e))
  {
  }

  lemma NothingRun(c: Limits)
    ensures Run(c, []) == INIT
  {
  }

  // ----- What an observer learns about one session ---------------------------------------------------

  /** The lifecycle events among `events`, as the registry logs them. */
  function Visible(events: seq<Event>): seq<(U64, Lifecycle.Kind)> {
    if |events| == 0 then []
    else
      var last := events[|events| - 1];
      Visible(events[..|events| - 1]) + (if last.kind.Some? then [(last.session, last.kind.value)] else [])
  }

  lemma {:induction false} VisibleAppend(a: seq<Event>, b: seq<Event>)
    ensures Visible(a + b) == Visible(a) + Visible(b)
  {
    if |b| == 0 {
      assert a + b == a;
    } else {
      var n := |b| - 1;
      assert (a + b)[..|a + b| - 1] == a + b[..n];
      VisibleAppend(a, b[..n]);
    }
  }

  lemma {:induction false} TaleAppend(a: seq<(U64, Lifecycle.Kind)>, b: seq<(U64, Lifecycle.Kind)>, id: U64)
    ensures Lifecycle.Tale(a + b, id) == Lifecycle.Tale(a, id) + Lifecycle.Tale(b, id)
  {
    if |b| == 0 {
      assert a + b == a;
    } else {
      var n := |b| - 1;
      assert (a + b)[..|a + b| - 1] == a + b[..n];
      TaleAppend(a, b[..n], id);
    }
  }

  /** What one session's events look like in a list of mixed events. */
  function About(events: seq<Event>, id: U64): seq<Lifecycle.Kind> {
    Lifecycle.Tale(Visible(events), id)
  }

  lemma AboutAppend(a: seq<Event>, b: seq<Event>, id: U64)
    ensures About(a + b, id) == About(a, id) + About(b, id)
  {
    VisibleAppend(a, b);
    TaleAppend(Visible(a), Visible(b), id);
  }

  // ----- Registry and observers as one machine ----------------------------------------------------------

  /** Steps of the manager with its observers; `data` is the payload if the step publishes output. */
  datatype Joint =
    | Registry(event: Lifecycle.Event, data: seq<Byte>)
    | Attachment(session: U64)     // an attachment comes or goes
    | Observer(act: Act)           // anything the subscriptions do by themselves

  function EventsOf(joint: seq<Joint>): seq<Lifecycle.Event> {
    if |joint| == 0 then []
    else
      var last := joint[|joint| - 1];
      EventsOf(joint[..|joint| - 1]) + if last.Registry? then [last.event] else []
  }

  /** What one locked section of the registry does to the observers: emitLocked, and Close takes them all off. */
  function Tell(s: Lifecycle.State, t: Lifecycle.State, e: Lifecycle.Event, data: seq<Byte>): seq<Act> {
    (if |t.log.emitted| > |s.log.emitted| then
       var told := t.log.emitted[|t.log.emitted| - 1];
       [Emit(Event(told.0, Some(told.1), data))]
     else [])
    + if e.BeginClose? then [CloseAll] else []
  }

  function ActsOf(lc: Lifecycle.Limits, joint: seq<Joint>): seq<Act> {
    if |joint| == 0 then []
    else
      var before := joint[..|joint| - 1];
      ActsOf(lc, before) +
      match joint[|joint| - 1]
      case Registry(e, data) =>
        var s := Lifecycle.Run(lc, EventsOf(before));
        Tell(s, Lifecycle.Step(lc, s, e), e, data)
      case Attachment(id) => [Emit(Event(id, None, []))]
      case Observer(a) => if a.Emit? || a.CloseAll? then [] else [a]
  }

  lemma VisibleOne(events: seq<Event>, e: Event)
    ensures Visible(events + [e]) == Visible(events) + if e.kind.Some? then [(e.session, e.kind.value)] else []
  {
    DropLast(events, e);
  }

  lemma TellShows(c: Limits, lc: Lifecycle.Limits, acts: seq<Act>, s: Lifecycle.State, e: Lifecycle.Event,
                  data: seq<Byte>)
    requires Visible(Run(c, acts).emitted) == s.log.emitted
    ensures
      var t := Lifecycle.Step(lc, s, e);
      Visible(Run(c, acts + Tell(s, t, e, data)).emitted) == t.log.emitted
  {
    hide Run, Visible, Lifecycle.Step;
    var t := Lifecycle.Step(lc, s, e);
    Lifecycle.StepEmits(lc, s, e);
    var told, more := acts, t.log.emitted;
    if |more| > |s.log.emitted| {
      var last := more[|more| - 1];
      var ev := Event(last.0, Some(last.1), data);
      told := acts + [Emit(ev)];
      RunAppend(c, acts, Emit(ev));
      VisibleOne(Run(c, acts).emitted, ev);
      assert more == s.log.emitted + [last];
    }
    if e.BeginClose? {
      RunAppend(c, told, CloseAll);
      assert Run(c, told).emitted + [] == Run(c, told).emitted;
      assert told + [CloseAll] == acts + Tell(s, t, e, data);
    } else {
      assert told == acts + Tell(s, t, e, data);
    }
  }

  /** In the joint machine observers are told exactly what the registry emits, in that order. */
  lemma {:induction false} JointLog(c: Limits, lc: Lifecycle.Limits, joint: seq<Joint>)
    ensures Visible(Run(c, ActsOf(lc, joint)).emitted) == Lifecycle.Run(lc, EventsOf(joint)).log.emitted
  {
    hide Run, Step, Lifecycle.Step, Visible;
    if |joint| == 0 {
      NothingEmitted(c);
    } else {
      var before, last := joint[..|joint| - 1], joint[|joint| - 1];
      JointLog(c, lc, before);
      var acts, events := ActsOf(lc, before), EventsOf(before);
      match last
      case Registry(e, data) =>
        TellShows(c, lc, acts, Lifecycle.Run(lc, events), e, data);
        DropLast(events, e);
      case Attachment(id) =>
        RunAppend(c, acts, Emit(Event(id, None, [])));
        VisibleOne(Run(c, acts).emitted, Event(id, None, []));
        assert events + [] == events;
      case Observer(a) =>
        assert events + [] == events && acts + [] == acts;
        RunAppend(c, acts, a);
        assert Run(c, acts).emitted + [] == Run(c, acts).emitted;
    }
  }

  lemma NothingEmitted(c: Limits)
    ensures Visible(Run(c, []).emitted) == []
  {
  }

  /**
   * Registry and observers together: what had been told of a session before an observer subscribed, followed by what
   * that observer received of it, is nothing or a beginning of a grammatical story. So an observer that subscribed
   * before the session opened has itself received such a beginning.
   */
  lemma ObserverSeesGrammar(c: Limits, lc: Lifecycle.Limits, joint: seq<Joint>, id: nat, session: U64)
    requires id in Run(c, ActsOf(lc, joint)).subs
    ensures
      var s := Run(c, ActsOf(lc, joint));
      var x := s.subs[id];
      && x.joined <= |s.emitted|
      && var seen := About(s.emitted[..x.joined], session) + About(x.received, session);
         seen == [] || exists story :: Lifecycle.Grammatical(story) && seen <= story
  {
    hide Run, Step, Lifecycle.Run, Lifecycle.Grammatical, Lifecycle.Tale, Visible, About, ActsOf, EventsOf;
    var acts := ActsOf(lc, joint);
    var s := Run(c, acts);
    var x := s.subs[id];
    ObserverReceivesPrefix(c, acts, id);
    var before, since := s.emitted[..x.joined], s.emitted[x.joined..];
    assert s.emitted == before + since;
    AboutAppend(before, since, session);
    assert since == x.received + since[|x.received|..];
    AboutAppend(x.received, since[|x.received|..], session);
    JointLog(c, lc, joint);
    Lifecycle.SessionEventGrammar(lc, EventsOf(joint), session);
    AboutIs(s.emitted, session);
    var seen := About(before, session) + About(x.received, session);
    assert About(s.emitted, session) == seen + About(since[|x.received|..], session);
  }

  lemma AboutIs(events: seq<Event>, id: U64)
    ensures About(events, id) == Lifecycle.Tale(Visible(events), id)
  {
  }

  // ----- The objects ----------------------------------------------------------------------------------

  class Subscription {
    const maxBytes: nat
    var items: seq<Event>
    var bytes: int
    var closed: bool

    ghost function View(): Queue
      reads this
    {
      Queue(items, bytes, closed)
    }

    constructor (maxBytes: nat)
      ensures this.maxBytes == maxBytes && View() == Queue([], 0, false)
    {
      this.maxBytes := maxBytes;
      items, bytes, closed := [], 0, false;
    }

    method Enqueue(e: Event) returns (ok: bool)
      modifies this
      ensures ok == Accepts(old(View()), maxBytes, e)
      ensures View() == Offered(old(View()), maxBytes, e)
    {
      if closed {
        return false;
      }
      var size := EventBytes(e);
      if size > maxBytes || bytes + size > maxBytes {
        return false;
      }
      items := items + [e];
      bytes := bytes + size;
      ok := true;
    }

    /** One pass of `next`: an event, the end, or nothing yet; `canceled` is whether its wait ends by the context. */
    method Next(canceled: bool) returns (event: Option<Event>, end: bool)
      modifies this
      ensures event.Some? <==> |old(items)| > 0
      ensures event.Some? ==> event.value == old(items)[0] && View() == Taken(old(View())) && !end
      ensures event.None? ==> View() == old(View()) && end == (closed || canceled)
    {
      if |items| > 0 {
        event, end := Some(items[0]), false;
        bytes := bytes - EventBytes(items[0]);
        items := items[1..];
      } else {
        event, end := None, closed || canceled;
      }
    }

    method Finish()
      modifies this
      ensures View() == FINISHED
    {
      closed := true;
      items := [];
      bytes := 0;
    }
  }

  ghost predicate Distinct(observers: map<nat, Subscription>) {
    forall i, j :: i in observers && j in observers && i != j ==> observers[i] != observers[j]
  }

  lemma FewerObservers(all: map<nat, Subscription>, observers: map<nat, Subscription>)
    requires Distinct(all) && forall id :: id in observers ==> id in all && observers[id] == all[id]
    ensures Distinct(observers) && |observers| <= |all|
  {
    assert observers.Keys <= all.Keys;
    CardinalityMonotone(observers.Keys, all.Keys);
  }

  class Manager {
    const limits: Limits
    var observers: map<nat, Subscription>
    var next: nat
    var closing: bool
    ghost var repr: set<Subscription>

    ghost predicate Valid()
      reads this
    {
      && Distinct(observers)
      && (forall id :: id in observers ==> id <= next && observers[id] in repr)
      && |observers| <= limits.maxObservers
    }

    constructor (limits: Limits)
      ensures Valid() && this.limits == limits && observers == map[] && !closing
    {
      this.limits := limits;
      observers, next, closing, repr := map[], 0, false, {};
    }

    /** A new observer is listed exactly when the manager is open and below its limit. */
    method Subscribe() returns (s: Option<Subscription>)
      requires Valid()
      modifies this`observers, this`next, this`repr
      ensures Valid()
      ensures s.Some? <==> !closing && old(|observers|) < limits.maxObservers
      ensures s.Some? ==> fresh(s.value) && s.value.View() == Queue([], 0, false)
      ensures s.Some? ==> s.value.maxBytes == limits.maxBytes && next == old(next) + 1
      ensures s.Some? ==> observers == old(observers)[next := s.value]
      ensures s.None? ==> observers == old(observers)
    {
      if closing || |observers| >= limits.maxObservers {
        return None;
      }
      var added := new Subscription(limits.maxBytes);
      next := next + 1;
      observers := observers[next := added];
      assert forall id :: id in old(observers) ==> old(observers)[id] in old(repr);
      repr := repr + {added};
      return Some(added);
    }

    /** The first half of Subscription.Close. */
    method Unlist(id: nat)
      requires Valid()
      modifies this`observers
      ensures Valid() && observers == old(observers) - {id}
    {
      observers := observers - {id};
      FewerObservers(old(observers), observers);
    }

    /** One turn of emitLocked's loop. */
    method OfferTo(id: nat, e: Event, ghost all: map<nat, Subscription>) returns (ok: bool)
      requires id in observers && id in all && observers[id] == all[id] && Distinct(all)
      modifies this`observers, observers[id]
      ensures ok == Accepts(old(observers[id].View()), old(observers)[id].maxBytes, e)
      ensures old(observers)[id].View() == Offered(old(observers[id].View()), old(observers)[id].maxBytes, e)
      ensures forall x :: x in observers <==> x in old(observers) && (x != id || ok)
      ensures forall x :: x in observers ==> observers[x] == old(observers)[x]
      ensures forall x :: x in all && x != id ==> all[x].View() == old(all[x].View())
    {
      hide Accepts, Offered;
      ok := observers[id].Enqueue(e);
      if !ok {
        observers := observers - {id};
      }
    }

    /** emitLocked: every observer that has room gets the event, every other is taken off the list and returned. */
    method EmitLocked(e: Event) returns (failed: set<nat>)
      requires Valid()
      modifies this`observers, repr
      ensures Valid()
      ensures forall id :: id in old(observers) ==>
        var q := old(observers[id].View());
        && old(observers)[id].View() == Offered(q, old(observers)[id].maxBytes, e)
        && (id in observers <==> Accepts(q, old(observers)[id].maxBytes, e))
        && (id in failed <==> id !in observers)
      ensures forall id :: id in observers ==> id in old(observers) && observers[id] == old(observers)[id]
    {
      hide Accepts, Offered, Distinct;
      failed := OfferToAll(e);
      FewerObservers(old(observers), observers);
    }

    /** The loop of emitLocked, in whatever order the map gives. */
    method OfferToAll(e: Event) returns (failed: set<nat>)
      requires Distinct(observers) && forall id :: id in observers ==> observers[id] in repr
      modifies this`observers, repr
      ensures forall id :: id in old(observers) ==>
        var q := old(observers[id].View());
        && old(observers)[id].View() == Offered(q, old(observers)[id].maxBytes, e)
        && (id in observers <==> Accepts(q, old(observers)[id].maxBytes, e))
        && (id in failed <==> id !in observers)
      ensures forall id :: id in observers ==> id in old(observers) && observers[id] == old(observers)[id]
    {
      hide Accepts, Offered, Distinct;
      var all := observers;
      var todo := observers.Keys;
      failed := {};
      while todo != {}
        invariant forall id :: id in todo ==> id in all
        invariant forall id :: id in observers ==> id in all && observers[id] == all[id]
        invariant forall id :: id in todo ==> id in observers && id !in failed
        invariant forall id :: id in todo ==> all[id].View() == old(all[id].View())
        invariant forall id :: id in all && id !in todo ==>
          all[id].View() == Offered(old(all[id].View()), all[id].maxBytes, e)
        invariant forall id :: id in all && id !in todo ==>
          (id in observers <==> Accepts(old(all[id].View()), all[id].maxBytes, e))
        invariant forall id :: id in all && id !in todo ==> (id in failed <==> id !in observers)
      {
        var id :| id in todo;
        var ok := OfferTo(id, e, all);
        if !ok {
          failed := failed + {id};
        }
        todo := todo - {id};
      }
    }
  }
}
