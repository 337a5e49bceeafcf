/** Request correlation: pending calls, bounded tombstones and the wrapping id counter (peer.go, Call to resolve). */
module Correlation {
  import opened Common
  import opened Frames
  import opened PeerLimits

  /** Both fields are zero from reservation until the caller labels the record. */
  datatype Label = Label(messageType: U16, streamId: U64)

  const UNLABELLED := Label(0, 0)

  /** A peerPending record; `slot` names its capacity-one response channel. */
  datatype Call = Call(slot: nat, tag: Label)

  datatype Abandoned = Abandoned(id: U64, call: Call)

  /**
   * `unlabelled` holds reserved ids whose caller has not labelled them yet. Logs: `calls` counts records created,
   * `left` lists slots in the order their records left pending, `flying` are slots resolve has matched but not
   * yet filled, `filled` are slots that got a value, `abandons` lists every abandoned record, `stamps` gives each
   * tombstone of `order` its position in `abandons`, `absorbed` the positions whose late response has come.
   */
  datatype State = State(
    pending: map<U64, Call>,
    canceled: map<U64, Call>,
    order: seq<U64>,
    closed: bool,
    unlabelled: map<U64, nat>,
    panicked: bool,
    calls: nat,
    left: seq<nat>,
    flying: seq<nat>,
    filled: seq<nat>,
    abandons: seq<Abandoned>,
    stamps: seq<nat>,
    absorbed: set<nat>)

  const INIT := State(map[], map[], [], false, map[], false, 0, [], [], [], [], [], {})

  datatype Event =
    | Reserve(id: U64)                 // reservePending; ReservePending below shows which id it is
    | SetLabel(id: U64, tag: Label)  // the second locked section of Call
    | Abandon(id: U64)                 // abandonPending, by a caller that has labelled its record
    | Resolve(frame: Frame)            // the locked section of resolve
    | Fill(slot: nat)                  // resolve's send on the response channel, after unlocking
    | Fail

  function LabelOf(f: Frame): Label {
    Label(f.header.messageType, f.header.streamId)
  }

  function Insert(s: State, id: U64): State {
    s.(pending := s.pending[id := Call(s.calls, UNLABELLED)],
       unlabelled := s.unlabelled[id := s.calls],
       calls := s.calls + 1)
  }

  /** The record becomes the newest tombstone. */
  function Inter(s: State, id: U64): State
    requires id in s.pending
  {
    s.(pending := s.pending - {id},
       canceled := s.canceled[id := s.pending[id]],
       order := s.order + [id],
       stamps := s.stamps + [|s.abandons|],
       abandons := s.abandons + [Abandoned(id, s.pending[id])],
       left := s.left + [s.pending[id].slot])
  }

  function DropOldest(s: State): State
    requires |s.order| > 0 && |s.stamps| > 0
  {
    s.(canceled := s.canceled - {s.order[0]}, order := s.order[1..], stamps := s.stamps[1..])
  }

  function Bury(c: Limits, s: State, id: U64): State
    requires id in s.pending
  {
    var t := Inter(s, id);
    if |t.order| > c.maxCanceledRequests then DropOldest(t) else t
  }

  datatype Reply = Matched | Absorbed | Unexpected

  function Classify(s: State, f: Frame): Reply {
    var id := f.header.correlationId;
    if id in s.pending then (if s.pending[id].tag == LabelOf(f) then Matched else Unexpected)
    else if id in s.canceled && s.canceled[id].tag == LabelOf(f) then Absorbed
    else Unexpected
  }

  function Absorb(s: State, id: U64): State {
    var i := IndexOf(s.order, id);
    if i < |s.order| && i < |s.stamps| then
      s.(canceled := s.canceled - {id}, order := Without(s.order, i), stamps := Without(s.stamps, i),
         absorbed := s.absorbed + {s.stamps[i]})
    else s.(canceled := s.canceled - {id})
  }

  function Match(s: State, id: U64): State
    requires id in s.pending
  {
    s.(pending := s.pending - {id}, left := s.left + [s.pending[id].slot], flying := s.flying + [s.pending[id].slot])
  }

  /** The slots of all pending records, in the order the map happens to give them. */
  ghost function Slots(pending: map<U64, Call>): seq<nat>
    decreases |pending|
  {
    if pending == map[] then []
    else
      var id :| id in pending;
      [pending[id].slot] + Slots(pending - {id})
  }

  ghost function FailNow(s: State): State {
    if s.closed then s
    else s.(closed := true, pending := map[], canceled := map[], order := [], stamps := [],
            left := s.left + Slots(s.pending), filled := s.filled + Slots(s.pending))
  }

  predicate Free(s: State, id: U64) {
    id != 0 && id !in s.pending && id !in s.canceled
  }

  ghost function Step(c: Limits, s: State, e: Event): State {
    match e
    case Reserve(id) => if !s.closed && Free(s, id) then Insert(s, id) else s
    case SetLabel(id, tag) =>
      if id !in s.unlabelled then s
      else if id in s.pending then
        s.(pending := s.pending[id := s.pending[id].(tag := tag)], unlabelled := s.unlabelled - {id})
      else s.(panicked := true, unlabelled := s.unlabelled - {id})
    case Abandon(id) => if id in s.pending && id !in s.unlabelled then Bury(c, s, id) else s
    case Resolve(f) =>
      (match Classify(s, f)
       case Matched => Match(s, f.header.correlationId)
       case Absorbed => Absorb(s, f.header.correlationId)
       case Unexpected => s)
    case Fill(slot) =>
      if |s.flying| > 0 && s.flying[0] == slot then s.(flying := s.flying[1..], filled := s.filled + [slot]) else s
    case Fail => FailNow(s)
  }

  /** Frames come from ReadFrame, so their message type is never zero. */
  predicate Wellformed(e: Event) {
    e.Resolve? ==> e.frame.header.messageType != 0
  }

  ghost function Run(c: Limits, events: seq<Event>): State {
    if |events| == 0 then INIT else Step(c, Run(c, events[..|events| - 1]), events[|events| - 1])
  }

  // ----- What every step keeps -------------------------------------------------------

  /** Every record is in exactly one of pending and the list of departures. */
  ghost predicate Departures(pending: map<U64, Call>, left: seq<nat>, calls: nat) {
    && NoDup(left)
    && (forall id :: id in pending ==> pending[id].slot < calls && pending[id].slot !in left)
    && (forall a, b :: a in pending && b in pending && a != b ==> pending[a].slot != pending[b].slot)
    && (forall x :: x in left ==> x < calls)
    && (forall x :: 0 <= x < calls && x !in left ==> Holds(pending, x))
  }

  ghost predicate Holds(pending: map<U64, Call>, slot: nat) {
    exists id :: id in pending && pending[id].slot == slot
  }

  /** No slot is filled twice, and only slots of departed records are filled. */
  ghost predicate Fills(filled: seq<nat>, flying: seq<nat>, left: seq<nat>) {
    && NoDup(filled + flying)
    && forall x :: x in filled + flying ==> x in left
  }

  ghost predicate Increasing(s: seq<nat>) {
    forall i, j :: 0 <= i < j < |s| ==> s[i] < s[j]
  }

  /** Tombstones are enumerated once, oldest first, each with its place in the abandon log. */
  ghost predicate Tombs(order: seq<U64>, canceled: map<U64, Call>, stamps: seq<nat>, abandons: seq<Abandoned>) {
    && NoDup(order)
    && (forall id :: id in order <==> id in canceled)
    && |stamps| == |order| && Increasing(stamps)
    && forall k :: 0 <= k < |order| ==> Stamped(order[k], canceled, stamps[k], abandons)
  }

  ghost predicate Stamped(id: U64, canceled: map<U64, Call>, stamp: nat, abandons: seq<Abandoned>) {
    stamp < |abandons| && id in canceled && abandons[stamp] == Abandoned(id, canceled[id])
  }

  /** A tombstone is gone only if it was used or enough later calls were abandoned. */
  ghost predicate Remembered(c: Limits, abandons: seq<Abandoned>, stamps: seq<nat>, absorbed: set<nat>) {
    forall i :: 0 <= i < |abandons| ==>
      i in stamps || i in absorbed || |abandons| - 1 - i >= c.maxCanceledRequests
  }

  /** A reserved id still waits for its label unless the peer closed. */
  ghost predicate Labels(s: State) {
    && (s.closed ==> s.pending == map[])
    && (forall id :: id in s.unlabelled && !s.closed ==> id in s.pending)
    && (forall id :: id in s.unlabelled && id in s.pending ==> s.pending[id] == Call(s.unlabelled[id], UNLABELLED))
    && (s.panicked ==> s.closed)
  }

  ghost predicate Inv(c: Limits, s: State) {
    && Departures(s.pending, s.left, s.calls)
    && Fills(s.filled, s.flying, s.left)
    && Tombs(s.order, s.canceled, s.stamps, s.abandons) && |s.order| <= c.maxCanceledRequests
    && s.pending.Keys !! s.canceled.Keys
    && (!s.closed ==> Remembered(c, s.abandons, s.stamps, s.absorbed))
    && Labels(s)
  }

  lemma InsertDepartures(pending: map<U64, Call>, left: seq<nat>, calls: nat, id: U64)
    requires Departures(pending, left, calls) && id !in pending
    ensures Departures(pending[id := Call(calls, UNLABELLED)], left, calls + 1)
  {
    var p := pending[id := Call(calls, UNLABELLED)];
    forall x | 0 <= x < calls + 1 && x !in left
      ensures Holds(p, x)
    {
      if x < calls {
        var k :| k in pending && pending[k].slot == x;
        assert p[k].slot == x;
      } else {
        assert p[id].slot == x;
      }
    }
  }

  lemma RelabelDepartures(pending: map<U64, Call>, left: seq<nat>, calls: nat, id: U64, tag: Label)
    requires Departures(pending, left, calls) && id in pending
    ensures Departures(pending[id := pending[id].(tag := tag)], left, calls)
  {
    var p := pending[id := pending[id].(tag := tag)];
    forall x | 0 <= x < calls && x !in left
      ensures Holds(p, x)
    {
      var k :| k in pending && pending[k].slot == x;
      assert p[k].slot == x;
    }
  }

  /** Taking one record out of pending appends its slot to the departures. */
  lemma DepartOne(pending: map<U64, Call>, left: seq<nat>, calls: nat, id: U64)
    requires Departures(pending, left, calls) && id in pending
    ensures Departures(pending - {id}, left + [pending[id].slot], calls)
  {
    var slot := pending[id].slot;
    var p, l := pending - {id}, left + [slot];
    assert forall y :: y in l <==> y in left || y == slot;
    forall x | 0 <= x < calls && x !in l
      ensures Holds(p, x)
    {
      var k :| k in pending && pending[k].slot == x;
      assert k in p && p[k].slot == x;
    }
  }

  /** A strictly increasing list of n + 1 positions spans at least n. */
  lemma {:induction false} IncreasingGap(s: seq<nat>, n: nat)
    requires Increasing(s) && n < |s|
    ensures s[n] >= s[0] + n
  {
    if n > 0 {
      IncreasingGap(s, n - 1);
    }
  }

  lemma InterTombs(order: seq<U64>, canceled: map<U64, Call>, stamps: seq<nat>, abandons: seq<Abandoned>,
                   id: U64, call: Call)
    requires Tombs(order, canceled, stamps, abandons) && id !in canceled
    ensures Tombs(order + [id], canceled[id := call], stamps + [|abandons|], abandons + [Abandoned(id, call)])
  {
    var o, c, st, ab := order + [id], canceled[id := call], stamps + [|abandons|], abandons + [Abandoned(id, call)];
    forall k | 0 <= k < |o|
      ensures Stamped(o[k], c, st[k], ab)
    {
      if k < |order| {
        assert Stamped(order[k], canceled, stamps[k], abandons);
      }
    }
    assert forall k :: 0 <= k < |stamps| ==> Stamped(order[k], canceled, stamps[k], abandons);
    assert forall x :: x in o <==> x in order || x == id;
  }

  lemma DropOldestTombs(order: seq<U64>, canceled: map<U64, Call>, stamps: seq<nat>, abandons: seq<Abandoned>)
    requires Tombs(order, canceled, stamps, abandons) && |order| > 0
    ensures Tombs(order[1..], canceled - {order[0]}, stamps[1..], abandons)
  {
    assert order == [order[0]] + order[1..];
    forall k | 0 <= k < |order| - 1
      ensures Stamped(order[1..][k], canceled - {order[0]}, stamps[1..][k], abandons)
    {
      assert Stamped(order[k + 1], canceled, stamps[k + 1], abandons);
    }
  }

  lemma WithoutIncreasing(s: seq<nat>, i: nat)
    requires Increasing(s) && i < |s|
    ensures Increasing(Without(s, i))
  {
  }

  lemma RemoveTombs(order: seq<U64>, canceled: map<U64, Call>, stamps: seq<nat>, abandons: seq<Abandoned>, i: nat)
    requires Tombs(order, canceled, stamps, abandons) && i < |order|
    ensures Tombs(Without(order, i), canceled - {order[i]}, Without(stamps, i), abandons)
  {
    hide NoDup, Increasing;
    WithoutNoDup(order, i);
    WithoutIncreasing(stamps, i);
    var o, st := Without(order, i), Without(stamps, i);
    forall k | 0 <= k < |o|
      ensures Stamped(o[k], canceled - {order[i]}, st[k], abandons)
    {
      var was := if k < i then k else k + 1;
      assert Stamped(order[was], canceled, stamps[was], abandons) && o[k] == order[was] && st[k] == stamps[was];
      assert o[k] in o;
    }
  }

  /** One more abandoned call costs at most the oldest tombstone, and then only with enough younger ones. */
  lemma BuryRemembers(c: Limits, abandons: seq<Abandoned>, stamps: seq<nat>, absorbed: set<nat>, a: Abandoned)
    requires c.Ok() && Remembered(c, abandons, stamps, absorbed) && Increasing(stamps)
    requires forall k :: 0 <= k < |stamps| ==> stamps[k] < |abandons|
    ensures Remembered(c, abandons + [a], stamps + [|abandons|], absorbed)
    ensures |stamps| >= c.maxCanceledRequests ==>
              Remembered(c, abandons + [a], (stamps + [|abandons|])[1..], absorbed)
  {
    var st := stamps + [|abandons|];
    assert st[|stamps|] == |abandons|;
    assert forall i :: i in stamps ==> i in st;
    IncreasingGap(st, |stamps|);
    assert st == [st[0]] + st[1..];
  }

  lemma FillsStay(filled: seq<nat>, flying: seq<nat>, left: seq<nat>, slot: nat)
    requires Fills(filled, flying, left)
    ensures Fills(filled, flying, left + [slot])
  {
    hide NoDup;
  }

  lemma TombStamps(order: seq<U64>, canceled: map<U64, Call>, stamps: seq<nat>, abandons: seq<Abandoned>)
    requires Tombs(order, canceled, stamps, abandons)
    ensures |stamps| == |order| && Increasing(stamps) && forall k :: 0 <= k < |stamps| ==> stamps[k] < |abandons|
  {
    assert forall k :: 0 <= k < |stamps| ==> Stamped(order[k], canceled, stamps[k], abandons);
  }

  lemma BuryKeeps(c: Limits, s: State, id: U64)
    requires c.Ok() && Inv(c, s) && id in s.pending && id !in s.unlabelled
    ensures Inv(c, Bury(c, s, id))
  {
    hide Increasing, Departures, Remembered, Tombs, Fills;
    var call := s.pending[id];
    TombStamps(s.order, s.canceled, s.stamps, s.abandons);
    FillsStay(s.filled, s.flying, s.left, call.slot);
    DepartOne(s.pending, s.left, s.calls, id);
    InterTombs(s.order, s.canceled, s.stamps, s.abandons, id, call);
    var t := Inter(s, id);
    DropOldestTombs(t.order, t.canceled, t.stamps, t.abandons);
    if !s.closed {
      BuryRemembers(c, s.abandons, s.stamps, s.absorbed, Abandoned(id, call));
    }
  }

  lemma MatchKeeps(c: Limits, s: State, id: U64)
    requires Inv(c, s) && id in s.pending && id !in s.unlabelled
    ensures Inv(c, Match(s, id))
  {
    hide Tombs, Remembered;
    var slot := s.pending[id].slot;
    DepartOne(s.pending, s.left, s.calls, id);
    assert s.filled + (s.flying + [slot]) == (s.filled + s.flying) + [slot];
  }

  lemma AbsorbKeeps(c: Limits, s: State, id: U64)
    requires Inv(c, s) && id in s.canceled
    ensures Inv(c, Absorb(s, id))
  {
    var i := IndexOf(s.order, id);
    assert id in s.order;
    RemoveTombs(s.order, s.canceled, s.stamps, s.abandons, i);
    assert NoDup(s.stamps);
    WithoutNoDup(s.stamps, i);
    assert s.absorbed <= Absorb(s, id).absorbed;
  }

  lemma FillKeeps(c: Limits, s: State)
    requires Inv(c, s) && |s.flying| > 0
    ensures Inv(c, s.(flying := s.flying[1..], filled := s.filled + [s.flying[0]]))
  {
    hide Tombs, Remembered, Departures;
    assert (s.filled + [s.flying[0]]) + s.flying[1..] == s.filled + s.flying;
  }

  lemma {:induction false} SlotsEnumerate(pending: map<U64, Call>)
    requires forall a, b :: a in pending && b in pending && a != b ==> pending[a].slot != pending[b].slot
    ensures NoDup(Slots(pending))
    ensures forall x :: x in Slots(pending) <==> Holds(pending, x)
    decreases |pending|
  {
    if pending != map[] {
      var id :| id in pending && Slots(pending) == [pending[id].slot] + Slots(pending - {id});
      var rest := pending - {id};
      SlotsEnumerate(rest);
      assert pending[id].slot !in Slots(rest);
      NoDupConcat([pending[id].slot], Slots(rest));
      forall x
        ensures x in Slots(pending) <==> Holds(pending, x)
      {
        if Holds(pending, x) {
          var k :| k in pending && pending[k].slot == x;
          if k != id {
            assert k in rest && rest[k].slot == x;
          }
        }
      }
    }
  }

  lemma FailKeeps(c: Limits, s: State)
    requires c.Ok() && Inv(c, s)
    ensures Inv(c, FailNow(s))
  {
    if !s.closed {
      SlotsEnumerate(s.pending);
      var slots := Slots(s.pending);
      assert forall x :: x in slots ==> x !in s.left;
      NoDupConcat(s.left, slots);
      NoDupConcat(s.filled + s.flying, slots);
      Rotate(s.filled, s.flying, slots);
    }
  }

  lemma NoDupConcat<T>(a: seq<T>, b: seq<T>)
    requires NoDup(a) && NoDup(b) && forall x :: x in a ==> x !in b
    ensures NoDup(a + b)
  {
    forall i, j | 0 <= i < j < |a + b|
      ensures (a + b)[i] != (a + b)[j]
    {
      if i < |a| <= j {
        assert a[i] in a && b[j - |a|] in b;
      }
    }
  }

  lemma Rotate<T>(a: seq<T>, b: seq<T>, c: seq<T>)
    requires NoDup((a + b) + c)
    ensures NoDup((a + c) + b)
  {
    var s, t := (a + b) + c, (a + c) + b;
    var at := (i: int) => if i < |a| then i else if i < |a| + |c| then i + |b| else i - |c|;
    forall i, j | 0 <= i < j < |t|
      ensures t[i] != t[j]
    {
      assert t[i] == s[at(i)] && t[j] == s[at(j)] && at(i) != at(j);
    }
  }

  lemma StepKeeps(c: Limits, s: State, e: Event)
    requires c.Ok() && Inv(c, s) && Wellformed(e)
    ensures Inv(c, Step(c, s, e))
  {
    hide Tombs, Departures, Remembered, Fills;
    match e
    case Reserve(id) =>
      if id !in s.pending {
        InsertDepartures(s.pending, s.left, s.calls, id);
      }
    case SetLabel(id, tag) =>
      if id in s.pending {
        RelabelDepartures(s.pending, s.left, s.calls, id, tag);
      }
    case Abandon(id) =>
      if id in s.pending && id !in s.unlabelled {
        BuryKeeps(c, s, id);
      }
    case Resolve(f) =>
      match Classify(s, f) {
        case Matched => MatchKeeps(c, s, f.header.correlationId);
        case Absorbed => AbsorbKeeps(c, s, f.header.correlationId);
        case Unexpected =>
      }
    case Fill(slot) =>
      if |s.flying| > 0 && s.flying[0] == slot {
        FillKeeps(c, s);
      }
    case Fail => FailKeeps(c, s);
  }

  lemma {:induction false} RunKeeps(c: Limits, events: seq<Event>)
    requires c.Ok() && forall e :: e in events ==> Wellformed(e)
    ensures Inv(c, Run(c, events))
  {
    if |events| > 0 {
      RunKeeps(c, events[..|events| - 1]);
      StepKeeps(c, Run(c, events[..|events| - 1]), events[|events| - 1]);
    }
  }

  // ----- What the invariant gives ------------------------------------------------------

  /** Every record leaves pending at most once, and after fail every record has left. */
  lemma RecordsLeaveOnce(c: Limits, events: seq<Event>, slot: nat)
    requires c.Ok() && (forall e :: e in events ==> Wellformed(e)) && slot < Run(c, events).calls
    ensures
      var s := Run(c, events);
      && multiset(s.left)[slot] == (if Holds(s.pending, slot) then 0 else 1)
      && (s.closed ==> multiset(s.left)[slot] == 1)
  {
    RunKeeps(c, events);
    CountNoDup(Run(c, events).left, slot);
  }

  lemma {:induction false} CountNoDup<T>(s: seq<T>, x: T)
    requires NoDup(s)
    ensures multiset(s)[x] == if x in s then 1 else 0
  {
    if |s| > 0 {
      CountNoDup(s[1..], x);
      assert s == [s[0]] + s[1..];
    }
  }

  /** A response slot gets at most one value, so the sends into it (capacity one) never block. */
  lemma SlotsFilledAtMostOnce(c: Limits, events: seq<Event>, slot: nat)
    requires c.Ok() && forall e :: e in events ==> Wellformed(e)
    ensures multiset(Run(c, events).filled)[slot] <= 1
    ensures slot in Run(c, events).flying ==> multiset(Run(c, events).filled)[slot] == 0
    ensures Holds(Run(c, events).pending, slot) ==> multiset(Run(c, events).filled)[slot] == 0
  {
    RunKeeps(c, events);
    var s := Run(c, events);
    CountNoDup(s.filled + s.flying, slot);
    assert multiset(s.filled + s.flying)[slot] == multiset(s.filled)[slot] + multiset(s.flying)[slot];
    if multiset(s.filled)[slot] > 0 {
      assert slot in s.filled;
      assert slot in s.filled + s.flying;
    }
  }

  /**
   * Call's labelling step looks the record up a second time. It finds nothing, and dereferences nil, exactly
   * when the peer was closed after the id was reserved.
   */
  lemma LabelPanicsExactly(c: Limits, events: seq<Event>, id: U64, tag: Label)
    requires c.Ok() && (forall e :: e in events ==> Wellformed(e)) && id in Run(c, events).unlabelled
    requires !Run(c, events).panicked
    ensures Step(c, Run(c, events), SetLabel(id, tag)).panicked <==> Run(c, events).closed
  {
    RunKeeps(c, events);
  }

  /** The failing run: reserve, fail, label. */
  lemma LabelCanPanic(c: Limits, tag: Label)
    requires c.Ok()
    ensures Run(c, [Reserve(1), Fail, SetLabel(1, tag)]).panicked
  {
    var a, b, d := [Reserve(1)], [Reserve(1), Fail], [Reserve(1), Fail, SetLabel(1, tag)];
    assert a[..0] == [] && b[..1] == a && d[..2] == b;
    assert Run(c, a) == Insert(INIT, 1);
    assert Run(c, b) == FailNow(Insert(INIT, 1));
  }

  /**
   * Before any fail, a late response that matches an abandoned call is absorbed unless it was absorbed already
   * or at least maxCanceledRequests later calls were abandoned first.
   */
  lemma LateResponseAbsorbed(c: Limits, events: seq<Event>, i: nat, f: Frame)
    requires c.Ok() && (forall e :: e in events ==> Wellformed(e)) && !Run(c, events).closed
    requires i < |Run(c, events).abandons| && i !in Run(c, events).absorbed
    requires |Run(c, events).abandons| - 1 - i < c.maxCanceledRequests
    requires f.header.correlationId == Run(c, events).abandons[i].id
    requires LabelOf(f) == Run(c, events).abandons[i].call.tag
    ensures Classify(Run(c, events), f) == Absorbed
    ensures Step(c, Run(c, events), Resolve(f)).flying == Run(c, events).flying
    ensures i in Step(c, Run(c, events), Resolve(f)).absorbed
  {
    hide Run, Departures, Fills, Bury, FailNow, Match, Insert, Increasing;
    RunKeeps(c, events);
    var s := Run(c, events);
    assert i in s.stamps;
    var k :| 0 <= k < |s.stamps| && s.stamps[k] == i;
    assert Stamped(s.order[k], s.canceled, s.stamps[k], s.abandons);
    assert IndexOf(s.order, s.order[k]) == k;
  }

  /**
   * What resolve does with a response, from the two tables: the type and stream of a pending call must match its own,
   * and then its record leaves and its slot is to be filled; a tombstone absorbs once what matches it.
   */
  lemma ResolvesExactly(c: Limits, s: State, f: Frame)
    requires Inv(c, s)
    ensures
      var id, t := f.header.correlationId, Step(c, s, Resolve(f));
      var own := Label(f.header.messageType, f.header.streamId);
      var reply := Classify(s, f);
      && (reply == Matched <==> id in s.pending && s.pending[id].tag == own)
      && (reply == Absorbed <==> id !in s.pending && id in s.canceled && s.canceled[id].tag == own)
      && (reply == Matched ==> t.pending == s.pending - {id} && t.flying == s.flying + [s.pending[id].slot]
                               && t.canceled == s.canceled && t.order == s.order)
      && (reply == Absorbed ==> t.pending == s.pending && t.flying == s.flying && t.canceled == s.canceled - {id})
      && (reply == Unexpected ==> t == s)
  {
    hide Departures, Fills, Remembered;
  }

  /** The second section of Call labels its own record and no other, and only if the record is still there. */
  lemma LabelsExactly(c: Limits, s: State, id: U64, tag: Label)
    requires id in s.unlabelled
    ensures
      var t := Step(c, s, SetLabel(id, tag));
      && t.unlabelled == s.unlabelled - {id} && t.canceled == s.canceled && t.flying == s.flying
      && (if id in s.pending
          then t.pending == s.pending[id := Call(s.pending[id].slot, tag)] && t.panicked == s.panicked
          else t.pending == s.pending && t.panicked)
  {
  }

  /** Abandoning a labelled call buries it youngest, and only an excess oldest tombstone goes. */
  lemma AbandonsExactly(c: Limits, s: State, id: U64)
    requires Inv(c, s) && id in s.pending && id !in s.unlabelled
    ensures
      var t, order := Step(c, s, Event.Abandon(id)), s.order + [id];
      && t.pending == s.pending - {id} && t.flying == s.flying && t.filled == s.filled
      && (if |order| <= c.maxCanceledRequests
          then t.order == order && t.canceled == s.canceled[id := s.pending[id]]
          else t.order == order[1..] && t.canceled == s.canceled[id := s.pending[id]] - {order[0]})
  {
    hide Departures, Fills, Remembered;
  }

  /** Fail gives every call still pending its error, each once, and forgets all tombstones. */
  lemma FailsExactly(c: Limits, s: State, slot: nat)
    requires Inv(c, s) && !s.closed
    ensures
      var t := Step(c, s, Event.Fail);
      && t.closed && t.pending == map[] && t.canceled == map[] && t.order == []
      && multiset(t.filled)[slot] == multiset(s.filled)[slot] + if Holds(s.pending, slot) then 1 else 0
  {
    hide Tombs, Fills, Remembered;
    SlotsEnumerate(s.pending);
    CountNoDup(Slots(s.pending), slot);
    assert multiset(s.filled + Slots(s.pending)) == multiset(s.filled) + multiset(Slots(s.pending));
  }

  // ----- Fresh identifiers across wraparound --------------------------------------------

  /** The k-th value of the wrapping counter after `next`. */
  function Nth(next: U64, k: nat): U64 {
    (next + k) % TWO64
  }

  lemma NthNext(start: U64, k: nat)
    ensures Nth(start, 0) == start && Nth(start, k + 1) == (Nth(start, k) + 1) % TWO64
  {
  }

  /** Counting up from `start` reaches every other id within 2^64 - 1 steps. */
  lemma NthReaches(start: U64, id: U64) returns (k: nat)
    requires id != start
    ensures 0 < k < TWO64 && Nth(start, k) == id
  {
    k := if id > start then id - start else id + TWO64 - start;
  }

  predicate Taken(pending: map<U64, Call>, canceled: map<U64, Call>, id: U64) {
    id == 0 || id in pending || id in canceled
  }

  function Below(n: nat): set<U64>
    requires n <= TWO64
  {
    if n == 0 then {} else Below(n - 1) + {n - 1}
  }

  lemma {:induction false} CountBelow(n: nat)
    requires n <= TWO64
    ensures |Below(n)| == n && forall x: U64 :: x in Below(n) <==> x < n
  {
    if n > 0 {
      CountBelow(n - 1);
    }
  }

  /**
   * Pigeonhole over all `n` = 2^64 ids: fewer than 2^64 - 2 records leave one that is neither 0 nor the current
   * counter, which is when ReservePending succeeds.
   */
  lemma SomeIdIsFree(pending: map<U64, Call>, canceled: map<U64, Call>, next: U64, n: nat) returns (id: U64)
    requires |pending| + |canceled| < n - 2 && n == TWO64
    ensures id != next && !Taken(pending, canceled, id)
  {
    var all := Below(n);
    var used := pending.Keys + canceled.Keys + {0, next};
    CountBelow(n);
    assert |used| <= |pending.Keys| + |canceled.Keys| + |{0, next}|;
    if all <= used {
      CardinalityMonotone(all, used);
      assert false;
    }
    id :| id in all && id !in used;
  }

  /** Reserving can only fail with at least 2^64 - 2 records in use. */
  lemma FullTable(pending: map<U64, Call>, canceled: map<U64, Call>, next: U64)
    requires forall id: U64 :: id != next ==> Taken(pending, canceled, id)
    ensures |pending| + |canceled| >= TWO64 - 2
  {
    hide Below;
    if |pending| + |canceled| < TWO64 - 2 {
      var id := SomeIdIsFree(pending, canceled, next, TWO64);
    }
  }

  // ----- The Peer's correlation table ----------------------------------------------------

  class Table {
    const c: Limits
    var pending: map<U64, Call>
    var canceled: map<U64, Call>
    var canceledOrder: seq<U64>
    var next: U64
    var closed: bool
    var calls: nat
    ghost var model: State

    /** The real fields are those of the state machine. */
    ghost predicate Agrees()
      reads this
    {
      && pending == model.pending && canceled == model.canceled && canceledOrder == model.order
      && closed == model.closed && calls == model.calls && |model.stamps| == |model.order|
    }

    constructor (c: Limits)
      ensures this.c == c && Agrees() && model == INIT && next == 0
    {
      this.c := c;
      pending, canceled, canceledOrder := map[], map[], [];
      next, closed, calls, model := 0, false, 0, INIT;
    }

    /**
     * Counts up, wrapping, to the first id that is not 0 and not in use. It gives up exactly when every id but
     * 0 and the counter's own value is in use.
     */
    method ReservePending() returns (r: Option<U64>, ghost n: nat)
      requires Agrees()
      modifies this
      ensures Agrees()
      ensures old(closed) ==> r == None && next == old(next)
      ensures r == None ==> model == old(model)
      ensures !old(closed) && r == None ==>
                forall id: U64 :: id != old(next) ==> Taken(old(pending), old(canceled), id)
      ensures !old(closed) && |old(pending)| + |old(canceled)| < TWO64 - 2 ==> r.Some?
      ensures r.Some? ==> !old(closed) && !Taken(old(pending), old(canceled), r.value) && next == r.value
      ensures r.Some? ==> model == Step(c, old(model), Reserve(r.value))
      ensures r.Some? ==> n < TWO64 && r.value == Nth(old(next), n)
      ensures r.Some? ==> forall k :: 0 < k < n ==> Taken(old(pending), old(canceled), Nth(old(next), k))
    {
      hide Bury, Absorb, Match, FailNow, Classify, Nth;
      NthNext(next, 0);
      r, n := None, 0;
      if closed {
        return;
      }
      ghost var start := next;
      var attempts := 0;
      while attempts < TWO64 - 1
        invariant 0 <= attempts < TWO64 && next == Nth(start, attempts)
        invariant forall k :: 0 < k <= attempts ==> Taken(pending, canceled, Nth(start, k))
        invariant pending == old(pending) && canceled == old(canceled) && canceledOrder == old(canceledOrder)
        invariant calls == old(calls) && model == old(model) && !closed
      {
        NthNext(start, attempts);
        next := (next + 1) % TWO64;
        attempts := attempts + 1;
        if next != 0 && next !in pending && next !in canceled {
          pending := pending[next := Call(calls, UNLABELLED)];
          calls := calls + 1;
          model := Step(c, model, Reserve(next));
          return Some(next), attempts;
        }
      }
      forall id: U64 | id != start
        ensures Taken(pending, canceled, id)
      {
        var k := NthReaches(start, id);
      }
      FullTable(pending, canceled, start);
    }

    method AbandonPending(id: U64)
      requires Agrees() && id !in model.unlabelled
      modifies this
      ensures Agrees() && model == Step(c, old(model), Abandon(id)) && next == old(next)
    {
      hide Absorb, Match, FailNow, Classify;
      model := Step(c, model, Abandon(id));
      if id in pending {
        canceled := canceled[id := pending[id]];
        pending := pending - {id};
        canceledOrder := canceledOrder + [id];
        if |canceledOrder| > c.maxCanceledRequests {
          canceled := canceled - {canceledOrder[0]};
          canceledOrder := canceledOrder[1..];
        }
      }
    }

    /** The locked section of resolve; `slot` is where the frame must now be sent. */
    method ResolveLocked(f: Frame) returns (reply: Reply, slot: Option<nat>)
      requires Agrees()
      modifies this
      ensures Agrees() && next == old(next)
      ensures reply == Classify(old(model), f) && model == Step(c, old(model), Resolve(f))
      ensures slot.Some? <==> reply.Matched?
      ensures slot.Some? ==> model.flying == old(model.flying) + [slot.value]
    {
      hide Bury, FailNow, IndexOf, Without;
      var id := f.header.correlationId;
      ghost var after := Step(c, model, Resolve(f));
      if id in pending {
        if pending[id].tag != LabelOf(f) {
          return Unexpected, None;
        }
        slot := Some(pending[id].slot);
        pending := pending - {id};
        model := after;
        return Matched, slot;
      }
      if id in canceled && canceled[id].tag == LabelOf(f) {
        canceled := canceled - {id};
        for index := 0 to |canceledOrder|
          invariant canceledOrder == old(canceledOrder) && canceled == old(canceled) - {id}
          invariant pending == old(pending) && closed == old(closed) && calls == old(calls) && next == old(next)
          invariant model == old(model) && index <= IndexOf(canceledOrder, id)
        {
          if canceledOrder[index] == id {
            canceledOrder := Without(canceledOrder, index);
            model := after;
            return Absorbed, None;
          }
        }
        model := after;
        return Absorbed, None;
      }
      return Unexpected, None;
    }

    /** The correlation part of fail: every pending slot gets the error, in no fixed order. */
    method FailPending() returns (slots: seq<nat>)
      requires Agrees() && !closed
      requires forall a, b :: a in pending && b in pending && a != b ==> pending[a].slot != pending[b].slot
      modifies this
      ensures Agrees() && closed && model == Step(c, old(model), Fail)
      ensures NoDup(slots) && forall x :: x in slots <==> Holds(old(pending), x)
    {
      hide Slots, Holds, NoDup;
      slots := CollectSlots(pending);
      model := FailNow(model);
      pending, canceled, canceledOrder, closed := map[], map[], [], true;
    }
  }

  method CollectSlots(pending: map<U64, Call>) returns (slots: seq<nat>)
    requires forall a, b :: a in pending && b in pending && a != b ==> pending[a].slot != pending[b].slot
    ensures NoDup(slots) && forall x :: x in slots <==> Holds(pending, x)
  {
    slots := [];
    var todo, done := pending.Keys, map[];
    while todo != {}
      invariant todo <= pending.Keys && done == map id | id in pending.Keys - todo :: pending[id]
      invariant NoDup(slots)
      invariant forall x :: x in slots <==> Holds(done, x)
    {
      var id :| id in todo;
      ghost var slot := pending[id].slot;
      assert slot !in slots;
      NoDupConcat(slots, [slot]);
      ghost var was := done;
      slots, done, todo := slots + [pending[id].slot], done[id := pending[id]], todo - {id};
      forall x
        ensures x in slots <==> Holds(done, x)
      {
        if Holds(was, x) {
          var k :| k in was && was[k].slot == x;
          assert done[k].slot == x;
        }
        assert done[id].slot == slot;
      }
    }
    assert done == pending;
  }
}
