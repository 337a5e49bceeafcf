/**
 * The history store: per-session chunk lists under a per-session and a global quota, evicted by looking at list
 * heads only, refine one flat log (pty/manager.go, appendHistoryLocked to removeHistoryLocked).
 */
module History {
  import opened Common

  datatype Chunk = Chunk(session: U64, sequence: nat, data: seq<Byte>, order: nat)

  /** HistoryBytes and MaxTotalHistoryBytes; either being zero turns history off. */
  datatype Quota = Quota(perSession: nat, total: nat)
  {
    predicate Enabled() { perSession != 0 && total != 0 }
    function Limit(): nat { if perSession > total then total else perSession }
  }

  /** One global log in publication order, with the order counter and the loss counters. */
  datatype Flat = Flat(log: seq<Chunk>, next: nat, truncations: nat, truncatedBytes: nat)

  // ----- The flat specification ---------------------------------------------------------

  function Of(log: seq<Chunk>, id: U64): seq<Chunk> {
    if |log| == 0 then [] else (if log[0].session == id then [log[0]] else []) + Of(log[1..], id)
  }

  function Bytes(log: seq<Chunk>): nat {
    if |log| == 0 then 0 else |log[0].data| + Bytes(log[1..])
  }

  /** The log without the oldest chunk of one session. */
  function WithoutFirst(log: seq<Chunk>, id: U64): (r: seq<Chunk>)
    ensures |r| <= |log|
    ensures Of(log, id) != [] ==> |r| == |log| - 1
  {
    if |log| == 0 then []
    else if log[0].session == id then log[1..]
    else [log[0]] + WithoutFirst(log[1..], id)
  }

  function DropFirst(f: Flat, id: U64): Flat
    requires Of(f.log, id) != []
  {
    f.(log := WithoutFirst(f.log, id), truncations := f.truncations + 1,
       truncatedBytes := f.truncatedBytes + |Of(f.log, id)[0].data|)
  }

  /** Drop a session's oldest chunks until it fits its quota. */
  function TrimSession(f: Flat, id: U64, quota: nat): Flat
    decreases |f.log|
  {
    if Bytes(Of(f.log, id)) <= quota || Of(f.log, id) == [] then f else TrimSession(DropFirst(f, id), id, quota)
  }

  function DropHead(f: Flat): Flat
    requires f.log != []
  {
    f.(log := f.log[1..], truncations := f.truncations + 1, truncatedBytes := f.truncatedBytes + |f.log[0].data|)
  }

  /** Drop the oldest chunks of all until the log fits its quota. */
  function TrimTotal(f: Flat, quota: nat): Flat
    decreases |f.log|
  {
    if Bytes(f.log) <= quota || f.log == [] then f
    else TrimTotal(DropHead(f), quota)
  }

  /** What is kept of one published chunk: its last bytes, at most the limit. */
  function Kept(q: Quota, data: seq<Byte>): seq<Byte> {
    if |data| > q.Limit() then data[|data| - q.Limit()..] else data
  }

  function Add(q: Quota, f: Flat, id: U64, sequence: nat, data: seq<Byte>): Flat {
    var cut := |data| > q.Limit();
    f.(log := f.log + [Chunk(id, sequence, Kept(q, data), f.next + 1)], next := f.next + 1,
       truncations := f.truncations + (if cut then 1 else 0),
       truncatedBytes := f.truncatedBytes + (if cut then |data| - q.Limit() else 0))
  }

  function Append(q: Quota, f: Flat, id: U64, sequence: nat, data: seq<Byte>): Flat {
    if !q.Enabled() then f
    else TrimTotal(TrimSession(Add(q, f, id, sequence, data), id, q.perSession), q.total)
  }

  /** The log without any chunk of one session. */
  function Forget(log: seq<Chunk>, id: U64): seq<Chunk> {
    if |log| == 0 then [] else (if log[0].session == id then [] else [log[0]]) + Forget(log[1..], id)
  }

  // ----- Projections and sizes ------------------------------------------------------------

  lemma OfStep(log: seq<Chunk>, id: U64)
    ensures Of(log, id)
         == if |log| == 0 then [] else (if log[0].session == id then [log[0]] else []) + Of(log[1..], id)
  {
  }

  lemma {:induction false} OfConcat(a: seq<Chunk>, b: seq<Chunk>, id: U64)
    ensures Of(a + b, id) == Of(a, id) + Of(b, id)
  {
    hide Of;
    OfStep(a, id);
    OfStep(a + b, id);
    if |a| == 0 {
      assert a + b == b;
    } else {
      OfConcat(a[1..], b, id);
      assert (a + b)[1..] == a[1..] + b;
      var h := if a[0].session == id then [a[0]] else [];
      assert h + (Of(a[1..], id) + Of(b, id)) == (h + Of(a[1..], id)) + Of(b, id);
    }
  }

  lemma {:induction false} BytesConcat(a: seq<Chunk>, b: seq<Chunk>)
    ensures Bytes(a + b) == Bytes(a) + Bytes(b)
  {
    if |a| == 0 {
      assert a + b == b;
    } else {
      BytesConcat(a[1..], b);
      assert (a + b)[1..] == a[1..] + b;
    }
  }

  lemma OfAppend(log: seq<Chunk>, chunk: Chunk, id: U64)
    ensures Of(log + [chunk], id) == Of(log, id) + if chunk.session == id then [chunk] else []
    ensures Bytes(log + [chunk]) == Bytes(log) + |chunk.data|
  {
    OfConcat(log, [chunk], id);
    BytesConcat(log, [chunk]);
    assert Of([chunk], id) == if chunk.session == id then [chunk] else [];
    assert Bytes([chunk]) == |chunk.data|;
  }

  lemma {:induction false} OfWithoutFirst(log: seq<Chunk>, id: U64, x: U64)
    requires Of(log, id) != []
    ensures Of(WithoutFirst(log, id), x) == if x == id then Of(log, id)[1..] else Of(log, x)
    ensures Bytes(WithoutFirst(log, id)) == Bytes(log) - |Of(log, id)[0].data|
  {
    if log[0].session != id {
      OfWithoutFirst(log[1..], id, x);
      assert ([log[0]] + WithoutFirst(log[1..], id))[1..] == WithoutFirst(log[1..], id);
    }
  }

  lemma {:induction false} OfMember(log: seq<Chunk>, id: U64, c: Chunk)
    ensures c in Of(log, id) <==> c in log && c.session == id
  {
    if |log| > 0 {
      OfMember(log[1..], id, c);
      assert log == [log[0]] + log[1..];
    }
  }

  /** `s` is a suffix of `t`. */
  predicate SuffixOf<T(==)>(s: seq<T>, t: seq<T>) {
    |s| <= |t| && t[|t| - |s|..] == s
  }

  lemma SuffixTrans<T>(a: seq<T>, b: seq<T>, c: seq<T>)
    requires SuffixOf(a, b) && SuffixOf(b, c)
    ensures SuffixOf(a, c)
  {
    assert c[|c| - |a|..] == c[|c| - |b|..][|b| - |a|..];
  }

  lemma SuffixLast<T>(a: seq<T>, b: seq<T>)
    requires |a| > 0 && |b| > 0
    ensures SuffixOf(a, b) ==> a[|a| - 1] == b[|b| - 1]
    ensures |a| == 1 && a[0] == b[|b| - 1] ==> SuffixOf(a, b)
  {
  }

  lemma TailSuffix<T>(s: seq<T>)
    requires |s| > 0
    ensures SuffixOf(s[1..], s)
  {
  }

  // ----- What trimming does -------------------------------------------------------------------

  /** Trimming a session leaves the longest fitting suffix of it and every other session as it was. */
  lemma {:induction false} TrimSessionKeeps(f: Flat, id: U64, quota: nat, x: U64)
    ensures
      var t := TrimSession(f, id, quota);
      && SuffixOf(Of(t.log, id), Of(f.log, id))
      && Bytes(Of(t.log, id)) <= quota
      && (x != id ==> Of(t.log, x) == Of(f.log, x))
      && t.next == f.next
      && Bytes(t.log) + t.truncatedBytes == Bytes(f.log) + f.truncatedBytes
      && t.truncations - f.truncations == |f.log| - |t.log|
    decreases |f.log|
  {
    if Bytes(Of(f.log, id)) > quota && Of(f.log, id) != [] {
      OfWithoutFirst(f.log, id, x);
      OfWithoutFirst(f.log, id, id);
      TrimSessionKeeps(DropFirst(f, id), id, quota, x);
      TailSuffix(Of(f.log, id));
      SuffixTrans(Of(TrimSession(f, id, quota).log, id), Of(f.log, id)[1..], Of(f.log, id));
    }
  }

  /** It drops nothing more than it must. */
  lemma {:induction false} TrimSessionLongest(f: Flat, id: U64, quota: nat, s: seq<Chunk>)
    requires SuffixOf(s, Of(f.log, id)) && Bytes(s) <= quota
    ensures |s| <= |Of(TrimSession(f, id, quota).log, id)|
    decreases |f.log|
  {
    var o := Of(f.log, id);
    if Bytes(o) > quota && o != [] {
      OfWithoutFirst(f.log, id, id);
      assert |s| == |o| ==> s == o;
      assert o[1..][|o[1..]| - |s|..] == s;
      TrimSessionLongest(DropFirst(f, id), id, quota, s);
    }
  }

  lemma {:induction false} OfSuffix(a: seq<Chunk>, log: seq<Chunk>, id: U64)
    requires SuffixOf(a, log)
    ensures SuffixOf(Of(a, id), Of(log, id)) && Bytes(a) <= Bytes(log)
  {
    if |a| == |log| {
      assert a == log;
    } else {
      assert log[1..][|log[1..]| - |a|..] == a;
      OfSuffix(a, log[1..], id);
      assert SuffixOf(Of(log[1..], id), Of(log, id));
      SuffixTrans(Of(a, id), Of(log[1..], id), Of(log, id));
    }
  }

  lemma TrimTotalStep(f: Flat, quota: nat)
    ensures TrimTotal(f, quota) == if Bytes(f.log) <= quota || f.log == [] then f else TrimTotal(DropHead(f), quota)
  {
  }

  lemma SuffixSelf<T>(s: seq<T>)
    ensures SuffixOf(s, s)
  {
  }

  /** Trimming the whole log leaves a suffix of it that fits. */
  lemma {:induction false} TrimTotalKeeps(f: Flat, quota: nat)
    ensures
      var t := TrimTotal(f, quota);
      && SuffixOf(t.log, f.log)
      && Bytes(t.log) <= quota
      && t.next == f.next
      && Bytes(t.log) + t.truncatedBytes == Bytes(f.log) + f.truncatedBytes
      && t.truncations - f.truncations == |f.log| - |t.log|
    decreases |f.log|
  {
    hide TrimTotal, SuffixOf;
    TrimTotalStep(f, quota);
    if Bytes(f.log) > quota && f.log != [] {
      TrimTotalKeeps(DropHead(f), quota);
      TailSuffix(f.log);
      SuffixTrans(TrimTotal(f, quota).log, f.log[1..], f.log);
    } else {
      SuffixSelf(f.log);
    }
  }

  lemma {:induction false} TrimTotalLongest(f: Flat, quota: nat, s: seq<Chunk>)
    requires SuffixOf(s, f.log) && Bytes(s) <= quota
    ensures |s| <= |TrimTotal(f, quota).log|
    decreases |f.log|
  {
    if Bytes(f.log) > quota && f.log != [] {
      assert |s| == |f.log| ==> s == f.log;
      assert f.log[1..][|f.log[1..]| - |s|..] == s;
      TrimTotalLongest(DropHead(f), quota, s);
    }
  }

  // ----- What an append does ----------------------------------------------------------------------

  /** Every byte published is either in the log afterwards or counted as truncated. */
  lemma AppendConserves(q: Quota, f: Flat, id: U64, sequence: nat, data: seq<Byte>)
    requires q.Enabled()
    ensures
      var t := Append(q, f, id, sequence, data);
      Bytes(t.log) + t.truncatedBytes == Bytes(f.log) + f.truncatedBytes + |data|
  {
    hide TrimSession, TrimTotal;
    var a := Add(q, f, id, sequence, data);
    OfAppend(f.log, Chunk(id, sequence, Kept(q, data), f.next + 1), id);
    TrimSessionKeeps(a, id, q.perSession, id);
    TrimTotalKeeps(TrimSession(a, id, q.perSession), q.total);
  }

  /**
   * After an append every session's history is a suffix of what it was, with the new chunk added for its own
   * session; and both quotas hold.
   */
  lemma AppendIsSuffix(q: Quota, f: Flat, id: U64, sequence: nat, data: seq<Byte>, x: U64)
    requires q.Enabled()
    ensures
      var t := Append(q, f, id, sequence, data);
      var chunk := Chunk(id, sequence, Kept(q, data), f.next + 1);
      && SuffixOf(Of(t.log, x), Of(f.log, x) + if x == id then [chunk] else [])
      && Bytes(t.log) <= q.total
      && (Bytes(Of(f.log, x)) <= q.perSession ==> Bytes(Of(t.log, x)) <= q.perSession)
      && t.next == f.next + 1
  {
    hide TrimSession, TrimTotal, Of, Bytes, SuffixOf;
    var a := Add(q, f, id, sequence, data);
    var b := TrimSession(a, id, q.perSession);
    var t := TrimTotal(b, q.total);
    OfAppend(f.log, Chunk(id, sequence, Kept(q, data), f.next + 1), x);
    TrimSessionKeeps(a, id, q.perSession, x);
    TrimTotalKeeps(b, q.total);
    OfSuffix(t.log, b.log, x);
    SuffixBytes(Of(t.log, x), Of(b.log, x));
    if x == id {
      SuffixTrans(Of(t.log, x), Of(b.log, x), Of(a.log, x));
    } else {
      assert Of(f.log, x) + [] == Of(f.log, x);
    }
  }

  lemma SuffixBytes(a: seq<Chunk>, b: seq<Chunk>)
    requires SuffixOf(a, b)
    ensures Bytes(a) <= Bytes(b)
  {
    BytesConcat(b[..|b| - |a|], a);
    assert b == b[..|b| - |a|] + a;
  }

  /** The newest chunk is never dropped by its own append. */
  lemma AppendKeepsNewest(q: Quota, f: Flat, id: U64, sequence: nat, data: seq<Byte>)
    requires q.Enabled()
    ensures
      var t := Append(q, f, id, sequence, data);
      var chunk := Chunk(id, sequence, Kept(q, data), f.next + 1);
      && |t.log| > 0 && t.log[|t.log| - 1] == chunk
      && |Of(t.log, id)| > 0 && Of(t.log, id)[|Of(t.log, id)| - 1] == chunk
  {
    hide TrimTotal, TrimSession, Of, Bytes, SuffixOf;
    var chunk := Chunk(id, sequence, Kept(q, data), f.next + 1);
    var a := Add(q, f, id, sequence, data);
    var b := TrimSession(a, id, q.perSession);
    var t := TrimTotal(b, q.total);
    BytesOfOne([chunk]);
    assert |chunk.data| <= q.Limit();
    TrimSessionKeepsLast(a, id, q.perSession);
    TrimTotalKeeps(b, q.total);
    SuffixLast([chunk], b.log);
    TrimTotalLongest(b, q.total, [chunk]);
    SuffixLast(t.log, b.log);
    OfLast(t.log, id);
  }

  /** What is kept of a chunk is a suffix within both quotas, and no longer suffix is. */
  lemma KeptIsLongest(q: Quota, data: seq<Byte>, other: seq<Byte>)
    requires q.perSession != 0 && q.total != 0
    ensures SuffixOf(Kept(q, data), data) && |Kept(q, data)| <= q.perSession && |Kept(q, data)| <= q.total
    ensures SuffixOf(other, data) && |other| <= q.perSession && |other| <= q.total ==> |other| <= |Kept(q, data)|
  {
  }

  /** The newest chunk after an append: which session and number, its data the most that both quotas allow. */
  ghost predicate Newest(q: Quota, c: Chunk, id: U64, sequence: nat, data: seq<Byte>) {
    && c.session == id && c.sequence == sequence
    && SuffixOf(c.data, data)
    && |c.data| == (if |data| <= q.perSession && |data| <= q.total then |data|
                    else if q.perSession <= q.total then q.perSession else q.total)
  }

  /**
   * An append with history on: the last chunk of the log and of the session is the published one, whole if it fits both
   * quotas; every other chunk was there before; and every chunk cut or dropped is counted.
   */
  lemma AppendExactly(q: Quota, f: Flat, id: U64, sequence: nat, data: seq<Byte>, c: Chunk)
    requires q.perSession != 0 && q.total != 0
    ensures
      var t := Append(q, f, id, sequence, data);
      && |t.log| > 0 && Newest(q, t.log[|t.log| - 1], id, sequence, data)
      && |Of(t.log, id)| > 0 && Of(t.log, id)[|Of(t.log, id)| - 1] == t.log[|t.log| - 1]
      && t.log[|t.log| - 1].order == f.next + 1
      && (c in t.log ==> c in f.log || c == t.log[|t.log| - 1])
      && t.truncations == f.truncations + (if |data| > q.perSession || |data| > q.total then 1 else 0)
                          + (|f.log| + 1 - |t.log|)
  {
    hide Of, TrimSession, TrimTotal, Bytes;
    AppendKeepsNewest(q, f, id, sequence, data);
    KeptIsLongest(q, data, data);
    var a := Add(q, f, id, sequence, data);
    var b := TrimSession(a, id, q.perSession);
    TrimSessionKeeps(a, id, q.perSession, id);
    TrimTotalKeeps(b, q.total);
    AppendIsSuffix(q, f, id, sequence, data, c.session);
    var t := Append(q, f, id, sequence, data);
    OfMember(t.log, c.session, c);
    OfMember(f.log, c.session, c);
  }

  /** With either quota zero nothing is kept and nothing counted. */
  lemma AppendOff(q: Quota, f: Flat, id: U64, sequence: nat, data: seq<Byte>)
    requires q.perSession == 0 || q.total == 0
    ensures Append(q, f, id, sequence, data) == f
  {
  }

  lemma {:induction false} OfLast(log: seq<Chunk>, id: U64)
    requires |log| > 0 && log[|log| - 1].session == id
    ensures |Of(log, id)| > 0 && Of(log, id)[|Of(log, id)| - 1] == log[|log| - 1]
  {
    if |log| > 1 {
      OfLast(log[1..], id);
      assert Of(log, id) == (if log[0].session == id then [log[0]] else []) + Of(log[1..], id);
    } else {
      assert Of(log, id) == [log[0]] + Of([], id);
    }
  }

  lemma TrimSessionStep(f: Flat, id: U64, quota: nat)
    ensures TrimSession(f, id, quota)
         == if Bytes(Of(f.log, id)) <= quota || Of(f.log, id) == [] then f
            else TrimSession(DropFirst(f, id), id, quota)
  {
  }

  lemma BytesOfOne(o: seq<Chunk>)
    ensures |o| == 1 ==> Bytes(o) == |o[|o| - 1].data|
  {
  }

  /** A chunk that fits its session's quota by itself stays last. */
  lemma {:induction false} TrimSessionKeepsLast(f: Flat, id: U64, quota: nat)
    requires |f.log| > 0 && f.log[|f.log| - 1].session == id && |f.log[|f.log| - 1].data| <= quota
    ensures
      var t := TrimSession(f, id, quota);
      |t.log| > 0 && t.log[|t.log| - 1] == f.log[|f.log| - 1]
    decreases |f.log|
  {
    hide Of, Bytes, WithoutFirst, TrimSession;
    TrimSessionStep(f, id, quota);
    var o := Of(f.log, id);
    if Bytes(o) > quota && o != [] {
      OfLast(f.log, id);
      BytesOfOne(o);
      WithoutFirstKeepsLast(f.log, id);
      TrimSessionKeepsLast(DropFirst(f, id), id, quota);
    }
  }

  lemma {:induction false} WithoutFirstKeepsLast(log: seq<Chunk>, id: U64)
    requires |Of(log, id)| > 1
    ensures |WithoutFirst(log, id)| > 0
    ensures WithoutFirst(log, id)[|WithoutFirst(log, id)| - 1] == log[|log| - 1]
  {
    if log[0].session == id {
      assert |Of(log[1..], id)| > 0;
    } else {
      WithoutFirstKeepsLast(log[1..], id);
    }
  }

  lemma {:induction false} OfForget(log: seq<Chunk>, id: U64, x: U64)
    ensures Of(Forget(log, id), x) == if x == id then [] else Of(log, x)
    ensures Bytes(Forget(log, id)) == Bytes(log) - Bytes(Of(log, id))
  {
    if |log| > 0 {
      OfForget(log[1..], id, x);
      var rest := Forget(log[1..], id);
      if log[0].session == id {
        assert Forget(log, id) == rest;
        assert ([log[0]] + Of(log[1..], id))[1..] == Of(log[1..], id);
      } else {
        assert Forget(log, id) == [log[0]] + rest;
        assert ([log[0]] + rest)[1..] == rest;
        assert Of(log, id) == Of(log[1..], id);
      }
    }
  }

  // ----- The store as the manager keeps it -----------------------------------------------------

  /** One session's history list and its byte counter. */
  datatype List = List(history: seq<Chunk>, bytes: int)

  ghost predicate Sorted(log: seq<Chunk>) {
    forall i, j :: 0 <= i < j < |log| ==> log[i].order < log[j].order
  }

  /** Each session's list is that session's part of the log, and the log has no other chunks. */
  ghost predicate Represents(sessions: map<U64, List>, log: seq<Chunk>) {
    && (forall id :: id in sessions ==> ListOk(sessions[id], log, id))
    && (forall c :: c in log ==> c.session in sessions)
  }

  ghost predicate ListOk(l: List, log: seq<Chunk>, id: U64) {
    l.history == Of(log, id) && l.bytes == Bytes(l.history)
  }

  lemma {:induction false} WithoutFirstAt(log: seq<Chunk>, id: U64) returns (k: nat)
    requires Of(log, id) != []
    ensures k < |log| && log[k] == Of(log, id)[0] && WithoutFirst(log, id) == Without(log, k)
  {
    if log[0].session == id {
      k := 0;
    } else {
      k := WithoutFirstAt(log[1..], id);
      k := k + 1;
      assert Without(log, k) == [log[0]] + Without(log[1..], k - 1);
    }
  }

  lemma ListOf(sessions: map<U64, List>, log: seq<Chunk>, id: U64)
    requires Represents(sessions, log) && id in sessions
    ensures sessions[id].history == Of(log, id) && sessions[id].bytes == Bytes(Of(log, id))
  {
    assert ListOk(sessions[id], log, id);
  }

  lemma WithoutFirstMembers(log: seq<Chunk>, id: U64)
    requires Sorted(log) && Of(log, id) != []
    ensures Sorted(WithoutFirst(log, id)) && forall c :: c in WithoutFirst(log, id) ==> c in log
  {
    hide Of, WithoutFirst;
    var k := WithoutFirstAt(log, id);
  }

  lemma BytesTail(h: seq<Chunk>)
    requires |h| > 0
    ensures Bytes(h[1..]) == Bytes(h) - |h[0].data|
  {
  }

  lemma ListIs(l: List, log: seq<Chunk>, id: U64)
    requires l.history == Of(log, id) && l.bytes == Bytes(l.history)
    ensures ListOk(l, log, id)
  {
  }

  lemma DropRepresents(sessions: map<U64, List>, log: seq<Chunk>, id: U64)
    requires Represents(sessions, log) && Sorted(log) && id in sessions && Of(log, id) != []
    ensures
      var h := sessions[id].history;
      |h| > 0 && Represents(sessions[id := List(h[1..], sessions[id].bytes - |h[0].data|)], WithoutFirst(log, id))
    ensures Sorted(WithoutFirst(log, id)) && forall c :: c in WithoutFirst(log, id) ==> c in log
  {
    hide Of, WithoutFirst, Sorted, Bytes, ListOk;
    ListOf(sessions, log, id);
    var h := sessions[id].history;
    var t := sessions[id := List(h[1..], sessions[id].bytes - |h[0].data|)];
    WithoutFirstMembers(log, id);
    BytesTail(h);
    forall x | x in t
      ensures ListOk(t[x], WithoutFirst(log, id), x)
    {
      OfWithoutFirst(log, id, x);
      ListOf(sessions, log, x);
      ListIs(t[x], WithoutFirst(log, id), x);
    }
  }

  /** The head with the smallest order over all lists is the first chunk of the log. */
  lemma OldestIsFirst(sessions: map<U64, List>, log: seq<Chunk>, id: U64)
    requires Represents(sessions, log) && Sorted(log) && id in sessions && Of(log, id) != []
    requires forall x :: x in sessions && sessions[x].history != [] ==>
               Of(log, id)[0].order <= sessions[x].history[0].order
    ensures Of(log, id)[0] == log[0] && WithoutFirst(log, id) == log[1..]
  {
    var x := log[0].session;
    assert log[0] in log;
    assert ListOk(sessions[x], log, x);
    var k := WithoutFirstAt(log, id);
    assert Of(log, x)[0] == log[0];
    assert k == 0;
  }

  lemma FirstIsListed(sessions: map<U64, List>, log: seq<Chunk>)
    requires Represents(sessions, log) && |log| > 0
    ensures log[0].session in sessions && sessions[log[0].session].history != []
    ensures Of(log, log[0].session) != [] && Of(log, log[0].session)[0] == log[0]
  {
    assert log[0] in log;
    ListOf(sessions, log, log[0].session);
  }

  /** No list's head is older than the first chunk of the log. */
  lemma FirstIsOldest(sessions: map<U64, List>, log: seq<Chunk>, x: U64)
    requires Represents(sessions, log) && Sorted(log) && |log| > 0 && x in sessions && sessions[x].history != []
    ensures log[0].order <= sessions[x].history[0].order
  {
    ListOf(sessions, log, x);
    var k := WithoutFirstAt(log, x);
  }

  lemma {:induction false} NothingRetained(sessions: map<U64, List>, log: seq<Chunk>)
    requires Represents(sessions, log) && forall id :: id in sessions ==> sessions[id].history == []
    ensures log == []
  {
    if |log| > 0 {
      FirstIsListed(sessions, log);
    }
  }

  lemma NoChunks()
    ensures forall id :: Of([], id) == []
  {
  }

  /** The refinement is a function: lists stand for at most one sorted log. */
  lemma {:induction false} LogIsDetermined(sessions: map<U64, List>, a: seq<Chunk>, b: seq<Chunk>)
    requires Represents(sessions, a) && Sorted(a) && Represents(sessions, b) && Sorted(b)
    ensures a == b
    decreases |a|
  {
    hide WithoutFirst, Without, Represents, Sorted, Of;
    if |a| == 0 {
      NoChunks();
      forall id | id in sessions
        ensures sessions[id].history == []
      {
        ListOf(sessions, a, id);
      }
      NothingRetained(sessions, b);
    } else {
      var id := a[0].session;
      FirstIsListed(sessions, a);
      ListOf(sessions, a, id);
      ListOf(sessions, b, id);
      forall x | x in sessions && sessions[x].history != []
        ensures a[0].order <= sessions[x].history[0].order
      {
        FirstIsOldest(sessions, a, x);
      }
      OldestIsFirst(sessions, a, id);
      OldestIsFirst(sessions, b, id);
      DropRepresents(sessions, a, id);
      DropRepresents(sessions, b, id);
      var h := sessions[id].history;
      LogIsDetermined(sessions[id := List(h[1..], sessions[id].bytes - |h[0].data|)], a[1..], b[1..]);
      assert a == [a[0]] + a[1..] && b == [b[0]] + b[1..];
    }
  }

  lemma AddRepresents(sessions: map<U64, List>, log: seq<Chunk>, chunk: Chunk)
    requires Represents(sessions, log) && Sorted(log) && chunk.session in sessions
    requires forall c :: c in log ==> c.order < chunk.order
    ensures
      var l := sessions[chunk.session];
      Represents(sessions[chunk.session := List(l.history + [chunk], l.bytes + |chunk.data|)], log + [chunk])
    ensures Sorted(log + [chunk])
  {
    hide Of, Bytes;
    var l := sessions[chunk.session];
    var t := sessions[chunk.session := List(l.history + [chunk], l.bytes + |chunk.data|)];
    forall x | x in t
      ensures ListOk(t[x], log + [chunk], x)
    {
      hide Represents;
      OfAppend(log, chunk, x);
      OfAppend(sessions[x].history, chunk, x);
      ListOf(sessions, log, x);
    }
  }

  // ----- The manager's total -------------------------------------------------------------------

  /** The byte counts of all lists, added up in whatever order the map gives. */
  ghost function SumBytes(sessions: map<U64, List>): int
    decreases |sessions|
  {
    if sessions == map[] then 0
    else
      var id :| id in sessions;
      sessions[id].bytes + SumBytes(sessions - {id})
  }

  /** The order does not matter: any list can be taken first. */
  lemma {:induction false} SumTakes(sessions: map<U64, List>, id: U64)
    requires id in sessions
    ensures SumBytes(sessions) == sessions[id].bytes + SumBytes(sessions - {id})
    decreases |sessions|
  {
    var x :| x in sessions && SumBytes(sessions) == sessions[x].bytes + SumBytes(sessions - {x});
    if x != id {
      SumTakes(sessions - {x}, id);
      SumTakes(sessions - {id}, x);
      assert sessions - {x} - {id} == sessions - {id} - {x};
    }
  }

  /** The bytes of the whole log are the sum over the sessions' lists. */
  lemma {:induction false} TotalIsSum(sessions: map<U64, List>, log: seq<Chunk>)
    requires Represents(sessions, log)
    ensures Bytes(log) == SumBytes(sessions)
    decreases |sessions|
  {
    hide Of, Forget, Represents;
    if sessions == map[] {
      NothingRetained(sessions, log);
    } else {
      var id :| id in sessions && SumBytes(sessions) == sessions[id].bytes + SumBytes(sessions - {id});
      ListOf(sessions, log, id);
      OfForget(log, id, id);
      ForgetRepresents(sessions, log, id);
      TotalIsSum(sessions - {id}, Forget(log, id));
    }
  }

  /** Each of these sessions with its part of the log. */
  function Lists(log: seq<Chunk>, ids: set<U64>): map<U64, List> {
    map id | id in ids :: List(Of(log, id), Bytes(Of(log, id)))
  }

  lemma ListsRepresent(log: seq<Chunk>, ids: set<U64>)
    requires forall id :: id !in ids ==> Of(log, id) == []
    ensures Represents(Lists(log, ids), log) && Bytes(log) == SumBytes(Lists(log, ids))
  {
    hide Of, Bytes, SumBytes;
    forall c | c in log
      ensures c.session in ids
    {
      OfMember(log, c.session, c);
    }
    TotalIsSum(Lists(log, ids), log);
  }

  class Store {
    const q: Quota
    var sessions: map<U64, List>
    var next: nat
    var bytes: int
    var truncations: nat
    var truncatedBytes: nat
    ghost var flat: Flat

    /** The lists, looked at only through their heads, stand for the flat log, and the total is their sum. */
    ghost predicate Refines()
      reads this
    {
      && next == flat.next && truncations == flat.truncations && truncatedBytes == flat.truncatedBytes
      && bytes == Bytes(flat.log) == SumBytes(sessions)
      && Represents(sessions, flat.log) && Sorted(flat.log)
      && forall c :: c in flat.log ==> c.order <= next
    }

    constructor (q: Quota)
      ensures this.q == q && Refines() && sessions == map[] && flat == Flat([], 0, 0, 0)
    {
      this.q := q;
      sessions, next, bytes, truncations, truncatedBytes := map[], 0, 0, 0, 0;
      flat := Flat([], 0, 0, 0);
    }

    method DropFirstHistory(id: U64)
      requires Refines() && id in sessions && |sessions[id].history| > 0
      modifies this
      ensures Refines() && sessions.Keys == old(sessions.Keys)
      ensures Of(old(flat.log), id) != [] && flat == DropFirst(old(flat), id)
    {
      hide Of, Bytes, WithoutFirst, Represents, Sorted, SumBytes;
      ListOf(sessions, flat.log, id);
      DropRepresents(sessions, flat.log, id);
      OfWithoutFirst(flat.log, id, id);
      flat := DropFirst(flat, id);
      var size := |sessions[id].history[0].data|;
      sessions := sessions[id := List(sessions[id].history[1..], sessions[id].bytes - size)];
      bytes := bytes - size;
      truncations := truncations + 1;
      truncatedBytes := truncatedBytes + size;
      TotalIsSum(sessions, flat.log);
    }

    /** The scan over list heads, in whatever order the map gives. */
    method OldestSession() returns (oldest: Option<U64>)
      ensures oldest == None ==> forall id :: id in sessions ==> sessions[id].history == []
      ensures oldest.Some? ==> oldest.value in sessions && sessions[oldest.value].history != []
      ensures oldest.Some? ==> forall id :: id in sessions && sessions[id].history != [] ==>
                sessions[oldest.value].history[0].order <= sessions[id].history[0].order
    {
      oldest := None;
      var left := sessions.Keys;
      while left != {}
        invariant left <= sessions.Keys
        invariant oldest == None ==> forall id :: id in sessions && id !in left ==> sessions[id].history == []
        invariant oldest.Some? ==> oldest.value in sessions && sessions[oldest.value].history != []
        invariant oldest.Some? ==> forall id :: id in sessions && id !in left && sessions[id].history != [] ==>
                    sessions[oldest.value].history[0].order <= sessions[id].history[0].order
      {
        var id :| id in left;
        var h := sessions[id].history;
        if |h| > 0 && (oldest == None || h[0].order < sessions[oldest.value].history[0].order) {
          oldest := Some(id);
        }
        left := left - {id};
      }
    }

    /** Appending to the lists is appending to the flat log: same contents, same counters, and it terminates. */
    method AppendHistory(id: U64, sequence: nat, data: seq<Byte>)
      requires Refines() && id in sessions
      modifies this
      ensures Refines() && sessions.Keys == old(sessions.Keys)
      ensures flat == Append(q, old(flat), id, sequence, data)
    {
      hide Of, Bytes, WithoutFirst, Represents, Sorted, Add, SumBytes;
      if q.perSession == 0 || q.total == 0 {
        return;
      }
      AddChunk(id, sequence, data);
      ghost var added := flat;
      while sessions[id].bytes > q.perSession && |sessions[id].history| > 0
        invariant Refines() && id in sessions && sessions.Keys == old(sessions.Keys)
        invariant TrimSession(flat, id, q.perSession) == TrimSession(added, id, q.perSession)
        decreases |flat.log|
      {
        ListOf(sessions, flat.log, id);
        DropFirstHistory(id);
      }
      ListOf(sessions, flat.log, id);
      ghost var trimmed := flat;
      assert trimmed == TrimSession(added, id, q.perSession);
      EvictOldest();
    }

    /** The second loop: drop the globally oldest chunk while the total is over its quota. */
    method EvictOldest()
      requires Refines()
      modifies this
      ensures Refines() && sessions.Keys == old(sessions.Keys)
      ensures flat == TrimTotal(old(flat), q.total)
    {
      hide Of, Bytes, WithoutFirst, Represents, Sorted, SumBytes;
      while bytes > q.total
        invariant Refines() && sessions.Keys == old(sessions.Keys)
        invariant TrimTotal(flat, q.total) == TrimTotal(old(flat), q.total)
        decreases |flat.log|
      {
        var oldest := OldestSession();
        if oldest == None {
          NothingRetained(sessions, flat.log);
          break;
        }
        ListOf(sessions, flat.log, oldest.value);
        OldestIsFirst(sessions, flat.log, oldest.value);
        DropFirstHistory(oldest.value);
      }
    }

    /** Cuts the chunk to the limit and appends it, before any eviction. */
    method AddChunk(id: U64, sequence: nat, data: seq<Byte>)
      requires Refines() && id in sessions
      modifies this
      ensures Refines() && sessions.Keys == old(sessions.Keys)
      ensures flat == Add(q, old(flat), id, sequence, data)
    {
      hide Of, Bytes, Represents, Sorted, SumBytes;
      var limit := q.perSession;
      if limit > q.total {
        limit := q.total;
      }
      var kept := data;
      if |data| > limit {
        truncatedBytes := truncatedBytes + (|data| - limit);
        kept := data[|data| - limit..];
        truncations := truncations + 1;
      }
      next := next + 1;
      var chunk := Chunk(id, sequence, kept, next);
      AddRepresents(sessions, flat.log, chunk);
      OfAppend(flat.log, chunk, id);
      sessions := sessions[id := List(sessions[id].history + [chunk], sessions[id].bytes + |kept|)];
      bytes := bytes + |kept|;
      flat := Add(q, flat, id, sequence, data);
      TotalIsSum(sessions, flat.log);
    }

    method Open(id: U64)
      requires Refines() && id !in sessions
      modifies this
      ensures Refines() && sessions.Keys == old(sessions.Keys) + {id} && flat == old(flat)
    {
      hide SumBytes;
      assert forall c :: c in flat.log ==> c.session != id;
      OfNone(flat.log, id);
      sessions := sessions[id := List([], 0)];
      TotalIsSum(sessions, flat.log);
    }

    /** The session leaves the registry together with its history. */
    method Remove(id: U64)
      requires Refines() && id in sessions
      modifies this
      ensures Refines() && sessions.Keys == old(sessions.Keys) - {id}
      ensures flat == old(flat).(log := Forget(old(flat.log), id))
    {
      hide Of, Bytes, Represents, Sorted, Forget, SumBytes;
      ListOf(sessions, flat.log, id);
      OfForget(flat.log, id, id);
      ForgetRepresents(sessions, flat.log, id);
      bytes := bytes - sessions[id].bytes;
      sessions := sessions - {id};
      flat := flat.(log := Forget(flat.log, id));
      TotalIsSum(sessions, flat.log);
    }
  }

  lemma {:induction false} OfNone(log: seq<Chunk>, id: U64)
    requires forall c :: c in log ==> c.session != id
    ensures Of(log, id) == []
  {
    if |log| > 0 {
      assert log[0] in log;
      OfNone(log[1..], id);
    }
  }

  lemma {:induction false} ForgetMembers(log: seq<Chunk>, id: U64, c: Chunk)
    ensures c in Forget(log, id) <==> c in log && c.session != id
  {
    if |log| > 0 {
      ForgetMembers(log[1..], id, c);
      assert log == [log[0]] + log[1..];
    }
  }

  lemma {:induction false} ForgetSorted(log: seq<Chunk>, id: U64)
    requires Sorted(log)
    ensures Sorted(Forget(log, id))
  {
    if |log| > 0 {
      ForgetSorted(log[1..], id);
      var rest := Forget(log[1..], id);
      if log[0].session == id {
        assert Forget(log, id) == rest;
      } else {
        assert Forget(log, id) == [log[0]] + rest;
        forall j | 0 <= j < |rest|
          ensures log[0].order < rest[j].order
        {
          ForgetMembers(log[1..], id, rest[j]);
        }
      }
    }
  }

  lemma ForgetRepresents(sessions: map<U64, List>, log: seq<Chunk>, id: U64)
    requires Represents(sessions, log) && id in sessions
    ensures Represents(sessions - {id}, Forget(log, id)) && (Sorted(log) ==> Sorted(Forget(log, id)))
    ensures forall c :: c in Forget(log, id) ==> c in log
  {
    hide Of, Bytes, Sorted, Forget;
    if Sorted(log) {
      ForgetSorted(log, id);
    }
    forall c | c in Forget(log, id)
      ensures c in log && c.session != id
    {
      ForgetMembers(log, id, c);
    }
    forall x | x in sessions - {id}
      ensures ListOk((sessions - {id})[x], Forget(log, id), x)
    {
      OfForget(log, id, x);
      assert ListOk(sessions[x], log, x);
    }
  }
}
