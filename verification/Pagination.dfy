/**
 * Listing sessions page by page: a snapshot sorted by id, a page shrunk until its reply fits a frame, and a cursor
 * bound to the registry generation (pty/protocol.go, handleList; pty/manager.go, ListSnapshot).
 */
module Pagination {
  import opened Common
  import opened Cursor
  import Lifecycle

  /** SessionInfo: its id and everything else it says. */
  datatype Info = Info(id: U64, detail: string)

  /** The length of the JSON reply for a page and its next cursor. */
  type Size = (seq<Info>, string) -> nat

  /** MaxListItems and the frame payload limit. */
  datatype Config = Config(maxItems: Index, maxFrameBytes: nat)

  datatype Reply =
    | Page(sessions: seq<Info>, next: string)
    | BadLimit
    | StaleCursor
    | BadPosition
    | EntryTooLarge
    | Crash            // the slice expression panics

  function Ids(all: seq<Info>): (ids: seq<U64>)
    ensures |ids| == |all| && forall i :: 0 <= i < |all| ==> ids[i] == all[i].id
  {
    seq(|all|, i requires 0 <= i < |all| => all[i].id)
  }

  ghost predicate Ascending(ids: seq<U64>) {
    forall i, j :: 0 <= i < j < |ids| ==> ids[i] < ids[j]
  }

  // ----- The snapshot ------------------------------------------------------------------------------

  /** A snapshot lists exactly the registered ids, ascending. */
  ghost predicate Snapshot(all: seq<Info>, keys: set<U64>) {
    Ascending(Ids(all)) && (forall id :: id in Ids(all) <==> id in keys)
  }

  function Insert(all: seq<Info>, x: Info): seq<Info> {
    if |all| == 0 || x.id < all[0].id then [x] + all else [all[0]] + Insert(all[1..], x)
  }

  function SortById(all: seq<Info>): seq<Info> {
    if |all| == 0 then [] else Insert(SortById(all[..|all| - 1]), all[|all| - 1])
  }

  lemma {:induction false} InsertMember(all: seq<Info>, x: Info, y: Info)
    ensures y in Insert(all, x) <==> y == x || y in all
  {
    if |all| > 0 && x.id >= all[0].id {
      InsertMember(all[1..], x, y);
      assert all == [all[0]] + all[1..];
    }
  }

  ghost predicate AscendingInfos(all: seq<Info>) {
    forall i, j :: 0 <= i < j < |all| ==> all[i].id < all[j].id
  }

  lemma {:induction false} InsertAscends(all: seq<Info>, x: Info)
    requires AscendingInfos(all) && forall y :: y in all ==> y.id != x.id
    ensures AscendingInfos(Insert(all, x))
  {
    if |all| > 0 && x.id > all[0].id {
      var rest := Insert(all[1..], x);
      assert AscendingInfos(rest) by {
        assert AscendingInfos(all[1..]);
        InsertAscends(all[1..], x);
      }
      forall j | 0 <= j < |rest|
        ensures all[0].id < rest[j].id
      {
        InsertMember(all[1..], x, rest[j]);
      }
    }
  }

  lemma {:induction false} SortSorts(all: seq<Info>)
    requires forall i, j :: 0 <= i < j < |all| ==> all[i].id != all[j].id
    ensures AscendingInfos(SortById(all)) && forall y :: y in SortById(all) <==> y in all
  {
    hide Insert;
    if |all| > 0 {
      var n := |all| - 1;
      SortSorts(all[..n]);
      assert all == all[..n] + [all[n]];
      forall y
        ensures y in SortById(all) <==> y in all
      {
        InsertMember(SortById(all[..n]), all[n], y);
      }
      InsertAscends(SortById(all[..n]), all[n]);
    }
  }

  /** Each of these sessions once, in any order, with its detail. */
  ghost predicate Collected(result: seq<Info>, sessions: map<U64, string>, ids: set<U64>) {
    && (forall x :: x in result ==> x.id in ids && x.id in sessions && x.detail == sessions[x.id])
    && (forall id :: id in ids && id in sessions ==> Info(id, sessions[id]) in result)
    && (forall i, j :: 0 <= i < j < |result| ==> result[i].id != result[j].id)
  }

  lemma CollectOne(result: seq<Info>, sessions: map<U64, string>, ids: set<U64>, id: U64)
    requires Collected(result, sessions, ids) && id in sessions && id !in ids
    ensures Collected(result + [Info(id, sessions[id])], sessions, ids + {id})
  {
    var more := result + [Info(id, sessions[id])];
    forall y | y in ids + {id} && y in sessions
      ensures Info(y, sessions[y]) in more
    {
      if y == id {
        assert more[|result|] == Info(id, sessions[id]);
      }
    }
    forall i, j | 0 <= i < j < |more|
      ensures more[i].id != more[j].id
    {
      assert result[i] in result;
    }
  }

  lemma SortedIsSnapshot(result: seq<Info>, sessions: map<U64, string>)
    requires Collected(result, sessions, sessions.Keys)
    ensures Snapshot(SortById(result), sessions.Keys)
    ensures forall x :: x in SortById(result) ==> x.id in sessions && x.detail == sessions[x.id]
  {
    hide SortById;
    var all := SortById(result);
    SortSorts(result);
    forall id
      ensures id in Ids(all) <==> id in sessions
    {
      if id in sessions {
        var k :| 0 <= k < |all| && all[k] == Info(id, sessions[id]);
        assert Ids(all)[k] == id;
      }
      if id in Ids(all) {
        var k :| 0 <= k < |all| && Ids(all)[k] == id;
        assert all[k] in all;
      }
    }
  }

  /** ListSnapshot: collect in map order, then sort by id. */
  method ListSnapshot(sessions: map<U64, string>) returns (all: seq<Info>)
    ensures Snapshot(all, sessions.Keys)
    ensures forall x :: x in all ==> x.id in sessions && x.detail == sessions[x.id]
  {
    hide SortById, Collected, Snapshot;
    var result: seq<Info> := [];
    var todo := sessions.Keys;
    NoneCollected(sessions);
    while todo != {}
      invariant todo <= sessions.Keys
      invariant Collected(result, sessions, sessions.Keys - todo)
    {
      var id :| id in todo;
      CollectOne(result, sessions, sessions.Keys - todo, id);
      assert sessions.Keys - todo + {id} == sessions.Keys - (todo - {id});
      result := result + [Info(id, sessions[id])];
      todo := todo - {id};
    }
    assert sessions.Keys - {} == sessions.Keys;
    all := SortById(result);
    SortedIsSnapshot(result, sessions);
  }

  lemma NoneCollected(sessions: map<U64, string>)
    ensures Collected([], sessions, sessions.Keys - sessions.Keys)
  {
  }

  // ----- One page ------------------------------------------------------------------------------------

  function NextCursor(generation: U64, end: Index, count: nat): string {
    if end < count then EncodeCursor(generation, end) else ""
  }

  predicate Fits(c: Config, size: Size, generation: U64, all: seq<Info>, position: nat, end: Index)
    requires position <= end <= |all|
  {
    size(all[position..end], NextCursor(generation, end, |all|)) <= c.maxFrameBytes
  }

  /** The end of the page after shrinking from `end`. */
  function ShrunkEnd(c: Config, size: Size, generation: U64, all: seq<Info>, position: nat, end: Index): (r: Index)
    requires position <= end <= |all|
    ensures position <= r <= end
  {
    if end == position || Fits(c, size, generation, all, position, end) then end
    else ShrunkEnd(c, size, generation, all, position, end - 1)
  }

  /** Shrinking finds the longest page that fits, and an empty one only when not even one entry fits. */
  lemma {:induction false} ShrunkEndIsGreatest(
      c: Config, size: Size, generation: U64, all: seq<Info>, position: nat, end: Index, other: Index)
    requires position < other <= end <= |all|
    ensures
      var r := ShrunkEnd(c, size, generation, all, position, end);
      && (r > position ==> Fits(c, size, generation, all, position, r))
      && (Fits(c, size, generation, all, position, other) ==> other <= r)
    decreases end
  {
    if !Fits(c, size, generation, all, position, end) && end - 1 > position {
      ShrunkEndIsGreatest(c, size, generation, all, position, end - 1, if other < end then other else end - 1);
    }
  }

  function Limit(c: Config, limit: int): int {
    if limit == 0 then c.maxItems else limit
  }

  /** Where the page starts; None when the cursor is malformed or of another generation. */
  function Start(generation: U64, cursor: string): Option<int> {
    if cursor == "" then Some(0)
    else match DecodeCursor(cursor)
      case None => None
      case Some(d) => if d.generation != generation then None else Some(d.position)
  }

  function PageFrom(c: Config, size: Size, generation: U64, all: seq<Info>, position: nat, limit: int): Reply
    requires position <= |all| <= MAX_INT && limit >= 1
  {
    if position + limit > MAX_INT then Crash
    else
      var wanted: Index := if position + limit > |all| then |all| else position + limit;
      var end := ShrunkEnd(c, size, generation, all, position, wanted);
      if end == position && position < |all| then EntryTooLarge
      else Page(all[position..end], NextCursor(generation, end, |all|))
  }

  function ListReply(c: Config, size: Size, generation: U64, all: seq<Info>, limit: int, cursor: string): Reply
    requires |all| <= MAX_INT
  {
    if Limit(c, limit) < 1 || Limit(c, limit) > c.maxItems then BadLimit
    else match Start(generation, cursor)
      case None => StaleCursor
      case Some(p) =>
        if p < 0 || p > |all| then BadPosition else PageFrom(c, size, generation, all, p, Limit(c, limit))
  }

  /** A valid limit and a cursor position inside the list whose sum no `int` holds. */
  predicate Overflows(c: Config, generation: U64, count: nat, limit: int, cursor: string) {
    && 1 <= Limit(c, limit) <= c.maxItems
    && Start(generation, cursor).Some?
    && 0 <= Start(generation, cursor).value <= count
    && Start(generation, cursor).value + Limit(c, limit) > MAX_INT
  }

  /** Addition of two 64-bit ints. */
  function AddInt(a: int, b: int): int {
    var sum := a + b;
    if sum > MAX_INT then sum - TWO64 else if sum < MIN_INT then sum + TWO64 else sum
  }

  /** The loop of handleList that gives up entries until the reply fits; it does nothing if `first` is not ahead. */
  method Shrink(c: Config, size: Size, generation: U64, all: seq<Info>, position: Index, first: int)
    returns (end: int)
    requires position <= |all| && first <= |all| <= MAX_INT
    ensures first < position ==> end == first
    ensures first >= position ==> end == ShrunkEnd(c, size, generation, all, position, first)
  {
    hide EncodeCursor;
    end := first;
    while end > position
      invariant end <= |all|
      invariant first < position ==> end == first
      invariant first >= position ==> position <= end <= first
      invariant first >= position ==>
        ShrunkEnd(c, size, generation, all, position, end) == ShrunkEnd(c, size, generation, all, position, first)
      decreases end
    {
      var candidate := if end < |all| then EncodeCursor(generation, end) else "";
      if size(all[position..end], candidate) <= c.maxFrameBytes {
        break;
      }
      end := end - 1;
    }
  }

  method HandleList(c: Config, size: Size, generation: U64, all: seq<Info>, limit: int, cursor: string)
    returns (r: Reply)
    requires |all| <= MAX_INT
    ensures r == ListReply(c, size, generation, all, limit, cursor)
    ensures r == Crash <==> Overflows(c, generation, |all|, limit, cursor)
  {
    hide DecodeCursor, EncodeCursor, NextCursor, ShrunkEnd, Overflows;
    ListCrashesExactly(c, size, generation, all, limit, cursor);
    var count := if limit == 0 then c.maxItems else limit;
    if count < 1 || count > c.maxItems {
      return BadLimit;
    }
    var position := 0;
    if cursor != "" {
      var decoded := DecodeCursor(cursor);
      if decoded.None? || decoded.value.generation != generation {
        return StaleCursor;
      }
      position := decoded.value.position;
    }
    if position < 0 || position > |all| {
      return BadPosition;
    }
    var end := AddInt(position, count);
    if end > |all| {
      end := |all|;
    }
    end := Shrink(c, size, generation, all, position, end);
    if end == position && position < |all| {
      return EntryTooLarge;
    }
    if end < position {
      return Crash;
    }
    r := Page(all[position..end], NextCursor(generation, end, |all|));
  }

  /** A request panics exactly when its position and limit overflow an int. */
  lemma ListCrashesExactly(c: Config, size: Size, generation: U64, all: seq<Info>, limit: int, cursor: string)
    requires |all| <= MAX_INT
    ensures ListReply(c, size, generation, all, limit, cursor) == Crash
       <==> Overflows(c, generation, |all|, limit, cursor)
  {
    hide ShrunkEnd, Start;
  }

  /** Such a request exists: one session, the cursor behind it and the largest limit, all valid. */
  lemma ListCanCrash(size: Size, frameBytes: nat, generation: U64, session: Info)
    ensures ListReply(Config(MAX_INT, frameBytes), size, generation, [session], MAX_INT, EncodeCursor(generation, 1))
         == Crash
  {
    hide EncodeCursor, Start, ListReply;
    CursorStart(generation, 1, generation);
    ListCrashesExactly(Config(MAX_INT, frameBytes), size, generation, [session], MAX_INT, EncodeCursor(generation, 1));
  }

  /** "One session entry exceeds frame payload limit" is said exactly when no nonempty page within the limit fits. */
  lemma PageRefusedExactly(c: Config, size: Size, generation: U64, all: seq<Info>, position: nat, limit: int)
    requires position <= |all| <= MAX_INT && 1 <= limit && position + limit <= MAX_INT
    ensures PageFrom(c, size, generation, all, position, limit) == EntryTooLarge <==>
      && position < |all|
      && forall end: Index :: position < end <= |all| && end <= position + limit
           ==> !Fits(c, size, generation, all, position, end)
  {
    hide Fits, ShrunkEnd;
    var wanted: Index := if position + limit > |all| then |all| else position + limit;
    var r := ShrunkEnd(c, size, generation, all, position, wanted);
    if position < |all| {
      forall end: Index | position < end <= |all| && end <= position + limit
        ensures Fits(c, size, generation, all, position, end) ==> end <= r
      {
        ShrunkEndIsGreatest(c, size, generation, all, position, wanted, end);
      }
      ShrunkEndIsGreatest(c, size, generation, all, position, wanted, wanted);
    }
  }

  /**
   * An accepted page fits the frame limit with its cursor unless it is empty at the end of the list, is within the
   * requested limit, and no longer page within that limit fits.
   */
  lemma PageIsLongest(c: Config, size: Size, generation: U64, all: seq<Info>, position: nat, limit: int, other: Index)
    requires position <= |all| <= MAX_INT && limit >= 1
    requires PageFrom(c, size, generation, all, position, limit).Page?
    ensures
      var r := PageFrom(c, size, generation, all, position, limit);
      var end := position + |r.sessions|;
      && end <= |all| && r.sessions == all[position..end] && |r.sessions| <= limit
      && r.next == (if end < |all| then EncodeCursor(generation, end) else "")
      && (position < |all| ==> |r.sessions| > 0 && size(r.sessions, r.next) <= c.maxFrameBytes)
      && (end < other <= |all| && other <= position + limit ==>
            size(all[position..other], if other < |all| then EncodeCursor(generation, other) else "") > c.maxFrameBytes)
  {
    hide EncodeCursor, ShrunkEnd;
    var wanted: Index := if position + limit > |all| then |all| else position + limit;
    if position < |all| {
      ShrunkEndIsGreatest(c, size, generation, all, position, wanted, wanted);
      if position < other <= wanted {
        ShrunkEndIsGreatest(c, size, generation, all, position, wanted, other);
      }
    }
  }

  /** The refusals of a list request, from the limit, the cursor and the snapshot. A limit of 0 asks for the most. */
  lemma RefusedExactly(c: Config, size: Size, generation: U64, all: seq<Info>, limit: int, cursor: string)
    requires |all| <= MAX_INT && c.maxItems >= 1
    ensures
      var r, d := ListReply(c, size, generation, all, limit, cursor), DecodeCursor(cursor);
      var valid := 0 <= limit <= c.maxItems;
      var current := cursor == "" || (d.Some? && d.value.generation == generation);
      var inside := cursor == "" || (d.Some? && 0 <= d.value.position <= |all|);
      && (r == BadLimit <==> !valid)
      && (r == StaleCursor <==> valid && !current)
      && (r == BadPosition <==> valid && current && !inside)
      && (valid && current && inside ==>
            r == PageFrom(c, size, generation, all, if cursor == "" then 0 else d.value.position,
                          if limit == 0 then c.maxItems else limit))
  {
    hide DecodeCursor, ShrunkEnd, NextCursor;
  }

  // ----- Following cursors -----------------------------------------------------------------------------

  /** What the server works on when one request arrives: everything may change between requests. */
  datatype Request = Request(limit: int, generation: U64, all: seq<Info>, size: Size)

  /** A client that asks again with the cursor it was given. */
  datatype Client = Client(cursor: string, ids: seq<U64>, more: bool, failed: bool)

  ghost predicate Requests(reqs: seq<Request>) {
    && (forall i :: 0 <= i < |reqs| ==> |reqs[i].all| <= MAX_INT)
    && (forall i, j :: 0 <= i < |reqs| && 0 <= j < |reqs| && reqs[i].generation == reqs[j].generation
          ==> Ids(reqs[i].all) == Ids(reqs[j].all))
  }

  function Ask(c: Config, k: Client, q: Request): Client
    requires |q.all| <= MAX_INT
  {
    if !k.more || k.failed then k
    else match ListReply(c, q.size, q.generation, q.all, q.limit, k.cursor)
      case Page(sessions, next) => Client(next, k.ids + Ids(sessions), next != "", false)
      case _ => k.(failed := true)
  }

  function Follow(c: Config, reqs: seq<Request>): Client
    requires forall i :: 0 <= i < |reqs| ==> |reqs[i].all| <= MAX_INT
  {
    if |reqs| == 0 then Client("", [], true, false)
    else Ask(c, Follow(c, reqs[..|reqs| - 1]), reqs[|reqs| - 1])
  }

  /** The client stands at position |k.ids| of the list `ids` of generation `g`. */
  ghost predicate At(k: Client, g: U64, ids: seq<U64>) {
    && k.ids <= ids
    && (!k.failed && k.more ==> |k.ids| < |ids| <= MAX_INT && k.cursor == EncodeCursor(g, |k.ids|))
    && (!k.failed && !k.more ==> k.ids == ids)
  }

  /** A page carries the next ids in order, at least one if any is left, and a cursor to the rest if there is one. */
  lemma PageAdvances(c: Config, size: Size, generation: U64, all: seq<Info>, position: nat, limit: int)
    requires position <= |all| <= MAX_INT && limit >= 1
    requires PageFrom(c, size, generation, all, position, limit).Page?
    ensures
      var r := PageFrom(c, size, generation, all, position, limit);
      var end := position + |r.sessions|;
      && end <= |all| && r.sessions == all[position..end] && |r.sessions| <= limit
      && Ids(all)[..position] + Ids(r.sessions) == Ids(all)[..end]
      && (position < |all| ==> |r.sessions| > 0)
      && r.next == NextCursor(generation, end, |all|)
      && (r.next != "" <==> end < |all|)
  {
    hide ShrunkEnd, EncodeCursor;
    var r := PageFrom(c, size, generation, all, position, limit);
    var end := position + |r.sessions|;
    if end < |all| {
      CursorRoundTrip(generation, end);
    }
  }

  /** A cursor is refused at any other generation than its own. */
  lemma CursorStart(g: U64, position: Index, generation: U64)
    ensures Start(generation, EncodeCursor(g, position)) == if g == generation then Some(position as int) else None
  {
    hide EncodeCursor, DecodeCursor;
    CursorRoundTrip(g, position);
  }

  lemma FirstAsk(c: Config, q: Request)
    requires |q.all| <= MAX_INT
    ensures
      var k := Ask(c, Client("", [], true, false), q);
      At(k, q.generation, Ids(q.all)) && (!k.failed && k.more ==> |k.ids| >= 1)
  {
    hide PageFrom, EncodeCursor;
    var l := Limit(c, q.limit);
    if 1 <= l <= c.maxItems && PageFrom(c, q.size, q.generation, q.all, 0, l).Page? {
      PageAdvances(c, q.size, q.generation, q.all, 0, l);
    }
  }

  lemma NextAsk(c: Config, k: Client, q: Request, g: U64, ids: seq<U64>)
    requires |q.all| <= MAX_INT && At(k, g, ids) && (q.generation == g ==> Ids(q.all) == ids)
    ensures
      var t := Ask(c, k, q);
      At(t, g, ids) && (!t.failed && t.more ==> !k.failed && k.more && |t.ids| > |k.ids|)
  {
    hide PageFrom, EncodeCursor, Start;
    if k.more && !k.failed {
      CursorStart(g, |k.ids|, q.generation);
      var l := Limit(c, q.limit);
      if q.generation == g && 1 <= l <= c.maxItems && PageFrom(c, q.size, g, q.all, |k.ids|, l).Page? {
        PageAdvances(c, q.size, g, q.all, |k.ids|, l);
      }
    }
  }

  /**
   * Following cursors, whatever the limits, the reply sizes and the registry do in between: what has been collected
   * is always a beginning of the list the first request saw, and when no cursor is left it is that list. Every
   * accepted page brings at least one id, so the client is done after at most as many pages as there are sessions.
   */
  lemma {:induction false} PagesCoverTheList(c: Config, reqs: seq<Request>)
    requires Requests(reqs) && |reqs| > 0
    ensures
      var k := Follow(c, reqs);
      var ids := Ids(reqs[0].all);
      && At(k, reqs[0].generation, ids)
      && (!k.failed && k.more ==> |reqs| <= |k.ids| < |ids|)
  {
    hide Ask, At;
    var n := |reqs| - 1;
    if n == 0 {
      assert Follow(c, reqs[..0]) == Client("", [], true, false);
      FirstAsk(c, reqs[0]);
    } else {
      PagesCoverTheList(c, reqs[..n]);
      NextAsk(c, Follow(c, reqs[..n]), reqs[n], reqs[0].generation, Ids(reqs[0].all));
    }
    AtMost(Follow(c, reqs), reqs[0].generation, Ids(reqs[0].all));
  }

  lemma AtMost(k: Client, g: U64, ids: seq<U64>)
    requires At(k, g, ids)
    ensures !k.failed && k.more ==> |k.ids| < |ids|
  {
  }

  // ----- The list never fails while the registry stands still -------------------------------------------

  predicate EntryFits(c: Config, q: Request, i: Index)
    requires i < |q.all| <= MAX_INT
  {
    Fits(c, q.size, q.generation, q.all, i, i + 1)
  }

  /** The limit is valid, nothing overflows and each single entry fits a frame with its cursor. */
  ghost predicate Servable(c: Config, q: Request) {
    && 1 <= Limit(c, q.limit) <= c.maxItems
    && |q.all| + c.maxItems <= MAX_INT
    && forall i: Index :: i < |q.all| ==> EntryFits(c, q, i)
  }

  lemma ServablePages(c: Config, q: Request, position: nat)
    requires Servable(c, q) && position <= |q.all|
    ensures PageFrom(c, q.size, q.generation, q.all, position, Limit(c, q.limit)).Page?
  {
    hide Fits;
    if position < |q.all| {
      var l := Limit(c, q.limit);
      var wanted: Index := if position + l > |q.all| then |q.all| else position + l;
      assert EntryFits(c, q, position);
      ShrunkEndIsGreatest(c, q.size, q.generation, q.all, position, wanted, position + 1);
    }
  }

  /**
   * If the generation stays and every request is servable, no request is refused, and after as many requests as
   * there are sessions (one if there is none) the client holds every id once, in ascending order.
   */
  lemma {:induction false} ListingCompletes(c: Config, reqs: seq<Request>)
    requires Requests(reqs) && forall i :: 0 <= i < |reqs| ==> Servable(c, reqs[i])
    requires forall i :: 0 <= i < |reqs| ==> reqs[i].generation == reqs[0].generation
    ensures !Follow(c, reqs).failed
    ensures |reqs| > 0 && |reqs| >= |reqs[0].all| ==> Follow(c, reqs).ids == Ids(reqs[0].all)
  {
    hide Servable, PageFrom, EncodeCursor, Start;
    if |reqs| > 0 {
      var n := |reqs| - 1;
      ListingCompletes(c, reqs[..n]);
      var k, q := Follow(c, reqs[..n]), reqs[n];
      if k.more {
        if n > 0 {
          PagesCoverTheList(c, reqs[..n]);
          CursorStart(q.generation, |k.ids|, q.generation);
        } else {
          StartEmpty(q.generation);
        }
        LimitServable(c, q);
        ServablePages(c, q, |k.ids|);
      }
      PagesCoverTheList(c, reqs);
    }
  }

  lemma StartEmpty(g: U64)
    ensures Start(g, "") == Some(0)
  {
  }

  lemma LimitServable(c: Config, q: Request)
    requires Servable(c, q)
    ensures 1 <= Limit(c, q.limit) <= c.maxItems
  {
  }

  // ----- Listing while the registry runs ------------------------------------------------------------------

  lemma SomeMember(s: seq<U64>)
    ensures |s| > 0 ==> exists x :: x in s
  {
    if |s| > 0 {
      assert s[0] in s;
    }
  }

  lemma {:induction false} SameSet(a: seq<U64>, b: seq<U64>)
    requires Ascending(a) && Ascending(b) && forall id :: id in a <==> id in b
    ensures a == b
  {
    if |a| == 0 {
      SomeMember(b);
    } else {
      assert a[0] in b && b[0] in a;
      assert a[0] == b[0];
      assert a == [a[0]] + a[1..] && b == [b[0]] + b[1..];
      assert a[0] !in a[1..] && b[0] !in b[1..];
      forall id
        ensures id in a[1..] <==> id in b[1..]
      {
        assert id in a <==> id == a[0] || id in a[1..];
        assert id in b <==> id == b[0] || id in b[1..];
      }
      SameSet(a[1..], b[1..]);
    }
  }

  /** Requests served at `moments` of one run of the registry, each from a snapshot taken at its moment. */
  ghost predicate Served(lc: Lifecycle.Limits, events: seq<Lifecycle.Event>, moments: seq<nat>, reqs: seq<Request>) {
    && |moments| == |reqs|
    && forall i :: 0 <= i < |reqs| ==>
         && moments[i] <= |events| && |reqs[i].all| <= MAX_INT
         && reqs[i].generation == Lifecycle.Run(lc, events[..moments[i]]).generation
         && Snapshot(reqs[i].all, Lifecycle.Run(lc, events[..moments[i]]).sessions.Keys)
  }

  lemma SameGenerationSameIds(lc: Lifecycle.Limits, events: seq<Lifecycle.Event>, m: nat, n: nat,
                              a: seq<Info>, b: seq<Info>)
    requires m <= n <= |events|
    requires Lifecycle.Run(lc, events[..m]).generation == Lifecycle.Run(lc, events[..n]).generation
    requires Snapshot(a, Lifecycle.Run(lc, events[..m]).sessions.Keys)
    requires Snapshot(b, Lifecycle.Run(lc, events[..n]).sessions.Keys)
    ensures Ids(a) == Ids(b)
  {
    hide Lifecycle.Run;
    assert events[..n] == events[..m] + events[m..n];
    Lifecycle.GenerationFixesIds(lc, events[..m], events[m..n]);
    SameSet(Ids(a), Ids(b));
  }

  lemma ServedIsConsistent(lc: Lifecycle.Limits, events: seq<Lifecycle.Event>, moments: seq<nat>, reqs: seq<Request>)
    requires Served(lc, events, moments, reqs)
    ensures Requests(reqs)
  {
    hide Lifecycle.Run, Snapshot;
    forall i, j | 0 <= i < |reqs| && 0 <= j < |reqs| && reqs[i].generation == reqs[j].generation
      ensures Ids(reqs[i].all) == Ids(reqs[j].all)
    {
      if moments[i] <= moments[j] {
        SameGenerationSameIds(lc, events, moments[i], moments[j], reqs[i].all, reqs[j].all);
      } else {
        SameGenerationSameIds(lc, events, moments[j], moments[i], reqs[j].all, reqs[i].all);
      }
    }
  }

  /**
   * The listing promise over a running registry: a listing that ends without an error has returned, in ascending
   * order and each exactly once, the ids registered when it began.
   */
  lemma ListingIsExact(c: Config, lc: Lifecycle.Limits, events: seq<Lifecycle.Event>, moments: seq<nat>,
                       reqs: seq<Request>)
    requires Served(lc, events, moments, reqs) && |reqs| > 0
    requires !Follow(c, reqs).failed && !Follow(c, reqs).more
    ensures
      var ids := Follow(c, reqs).ids;
      Ascending(ids) && forall id :: id in ids <==> id in Lifecycle.Run(lc, events[..moments[0]]).sessions
  {
    hide Lifecycle.Run, Follow;
    ServedIsConsistent(lc, events, moments, reqs);
    PagesCoverTheList(c, reqs);
    assert Snapshot(reqs[0].all, Lifecycle.Run(lc, events[..moments[0]]).sessions.Keys);
  }
}
