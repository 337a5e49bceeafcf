/**
 * The session registry over whole runs: start, run, exit, retain, evict, remove and close, with the counters and
 * the events each step emits (pty/manager.go, Open, Session.run, Remove, Close and the retention helpers).
 */
module Lifecycle {
  import opened Common

  datatype Phase = Running | Stopping | Exited

  /** `settled` is set by the second locked section after exit, which retains or removes the session. */
  datatype Session = Session(phase: Phase, last: nat, settled: bool, retained: bool, removing: bool)

  datatype Kind = Opened | Output(sequence: nat) | Ended | Retained | Evicted | Removed

  datatype Limits = Limits(maxSessions: nat, retain: bool, maxRetained: nat)

  /**
   * What the manager does not store: sessions opened, ids being started, removals begun and not finished, the
   * sessions in the order they were retained, all events emitted, and each session's own events.
   */
  datatype Log = Log(
    created: nat,
    starts: set<U64>,
    removals: map<U64, Kind>,
    retentions: seq<U64>,
    emitted: seq<(U64, Kind)>,
    stories: map<U64, seq<Kind>>)

  datatype State = State(
    sessions: map<U64, Session>,
    retainedExited: seq<U64>,
    starting: int,
    active: int,
    next: U64,
    exhausted: bool,
    generation: nat,
    evicted: nat,
    removed: nat,
    closing: bool,
    cleared: bool,
    log: Log)

  const INIT := State(map[], [], 0, 0, 0, false, 0, 0, 0, false, false, Log(0, {}, map[], [], [], map[]))

  datatype Event =
    | BeginOpen                    // Open up to starting the process
    | StartFails(id: U64)          // startup failed or was canceled
    | FinishOpen(id: U64)          // Open after startup
    | Publish(id: U64)
    | Kill(id: U64)
    | Exit(id: U64)                // run, first locked section after the process ended
    | Settle(id: U64)              // run, second locked section after the attachments drained
    | Remove(id: U64)              // Manager.Remove
    | FinishRemoval(id: U64)       // finishRetainedRemoval after its attachments stopped
    | BeginClose
    | EndClose

  // ----- The locked sections --------------------------------------------------------------------

  function StoryOf(s: State, id: U64): seq<Kind> {
    if id in s.log.stories then s.log.stories[id] else []
  }

  function Emit(s: State, id: U64, k: Kind): State {
    s.(log := s.log.(emitted := s.log.emitted + [(id, k)], stories := s.log.stories[id := StoryOf(s, id) + [k]]))
  }

  /** removeRetainedIDLocked. */
  function RemoveId(list: seq<U64>, id: U64): seq<U64> {
    var i := IndexOf(list, id);
    if i < |list| then Without(list, i) else list
  }

  /** removeSessionLocked. */
  function Drop(s: State, id: U64): State {
    s.(sessions := s.sessions - {id}, retainedExited := RemoveId(s.retainedExited, id), generation := s.generation + 1)
  }

  predicate Removable(s: State, id: U64) {
    id in s.sessions && s.sessions[id].retained && !s.sessions[id].removing
  }

  /** beginRetainedRemovalLocked, when it returns true. */
  function BeginRemoval(s: State, id: U64, k: Kind): State
    requires Removable(s, id)
  {
    s.(sessions := s.sessions[id := s.sessions[id].(retained := false, removing := true)],
       retainedExited := RemoveId(s.retainedExited, id),
       log := s.log.(removals := s.log.removals[id := k]))
  }

  /** beginRetentionEvictionsLocked. A head that is retained and removing would make the source loop forever. */
  function Evictions(c: Limits, s: State): State
    decreases |s.retainedExited|
  {
    if |s.retainedExited| <= c.maxRetained then s
    else
      var id := s.retainedExited[0];
      if id !in s.sessions || !s.sessions[id].retained then
        Evictions(c, s.(retainedExited := s.retainedExited[1..]))
      else if s.sessions[id].removing then s
      else Evictions(c, BeginRemoval(s, id, Evicted))
  }

  function RetainNow(s: State, id: U64): State
    requires id in s.sessions
  {
    Emit(s.(sessions := s.sessions[id := s.sessions[id].(settled := true, retained := true)],
            retainedExited := s.retainedExited + [id], generation := s.generation + 1,
            log := s.log.(retentions := s.log.retentions + [id])), id, Retained)
  }

  function SettleNow(c: Limits, s: State, id: U64): State
    requires id in s.sessions
  {
    if !s.closing && c.retain then Evictions(c, RetainNow(s, id))
    else Emit(Drop(s, id).(removed := s.removed + 1), id, Removed)
  }

  function FinishRemovalNow(s: State, id: U64): State
    requires id in s.log.removals
  {
    var k := s.log.removals[id];
    var t := s.(log := s.log.(removals := s.log.removals - {id}));
    if id !in t.sessions || !t.sessions[id].removing then t
    else if k == Evicted then Emit(Drop(t, id).(evicted := t.evicted + 1), id, Evicted)
    else Emit(Drop(t, id).(removed := t.removed + 1), id, Removed)
  }

  /** Open takes the next id and holds a place for the session while its process starts. */
  function StartNow(s: State, id: U64): State {
    s.(next := id, starting := s.starting + 1, log := s.log.(starts := s.log.starts + {id}))
  }

  function Register(s: State, id: U64): State {
    Emit(s.(sessions := s.sessions[id := Session(Running, 0, false, false, false)], active := s.active + 1,
            generation := s.generation + 1, log := s.log.(created := s.log.created + 1)), id, Opened)
  }

  function StopAll(sessions: map<U64, Session>): map<U64, Session> {
    map id | id in sessions :: if sessions[id].phase == Running then sessions[id].(phase := Stopping) else sessions[id]
  }

  predicate AllSettled(sessions: map<U64, Session>) {
    forall id :: id in sessions ==> sessions[id].settled
  }

  function Step(c: Limits, s: State, e: Event): State {
    match e
    case BeginOpen =>
      if s.closing || s.active + s.starting >= c.maxSessions || s.exhausted then s
      else if s.next + 1 == TWO64 then s.(next := 0, exhausted := true)
      else StartNow(s, s.next + 1)
    case StartFails(id) =>
      if id !in s.log.starts then s
      else s.(starting := s.starting - 1, log := s.log.(starts := s.log.starts - {id}))
    case FinishOpen(id) =>
      if id !in s.log.starts then s
      else
        var t := s.(starting := s.starting - 1, log := s.log.(starts := s.log.starts - {id}));
        if s.closing || s.active >= c.maxSessions then t else Register(t, id)
    case Publish(id) =>
      if id !in s.sessions || s.sessions[id].phase == Exited then s
      else
        var n := s.sessions[id].last + 1;
        Emit(s.(sessions := s.sessions[id := s.sessions[id].(last := n)]), id, Output(n))
    case Kill(id) =>
      if id in s.sessions && s.sessions[id].phase == Running
      then s.(sessions := s.sessions[id := s.sessions[id].(phase := Stopping)]) else s
    case Exit(id) =>
      if id !in s.sessions || s.sessions[id].phase == Exited then s
      else Emit(s.(sessions := s.sessions[id := s.sessions[id].(phase := Exited)],
                   active := if s.active > 0 then s.active - 1 else s.active), id, Ended)
    case Settle(id) =>
      if id in s.sessions && s.sessions[id].phase == Exited && !s.sessions[id].settled then SettleNow(c, s, id) else s
    case Remove(id) => if !s.closing && Removable(s, id) then BeginRemoval(s, id, Removed) else s
    case FinishRemoval(id) => if id in s.log.removals then FinishRemovalNow(s, id) else s
    case BeginClose => s.(closing := true, sessions := StopAll(s.sessions))
    case EndClose =>
      if s.closing && !s.cleared && s.starting == 0 && AllSettled(s.sessions)
      then s.(sessions := map[], retainedExited := [], active := 0, generation := s.generation + 1, cleared := true)
      else s
  }

  function Run(c: Limits, events: seq<Event>): State {
    if |events| == 0 then INIT else Step(c, Run(c, events[..|events| - 1]), events[|events| - 1])
  }

  // ----- What every step keeps ------------------------------------------------------------------

  function Active(sessions: map<U64, Session>): set<U64> {
    set id | id in sessions && sessions[id].phase != Exited
  }

  /** The counters count, and the session limit holds. */
  ghost predicate Counted(c: Limits, sessions: map<U64, Session>, starts: set<U64>, starting: int, active: int) {
    active == |Active(sessions)| && starting == |starts| && active + starting <= c.maxSessions
  }

  /** A settled session is either retained or being removed, never both. */
  ghost predicate FlagsOk(x: Session) {
    && (x.settled ==> x.phase == Exited)
    && (x.settled <==> x.retained || x.removing)
    && !(x.retained && x.removing)
  }

  ghost predicate Flags(sessions: map<U64, Session>, removals: map<U64, Kind>) {
    && (forall id :: id in sessions ==> FlagsOk(sessions[id]))
    && (forall id :: id in sessions && sessions[id].removing ==> id in removals)
    && (forall id :: id in removals ==> removals[id] in {Evicted, Removed})
  }

  function RetainedSet(sessions: map<U64, Session>): set<U64> {
    set id | id in sessions && sessions[id].retained
  }

  /** The members of `kept` in the order of `list`. */
  function Keep(list: seq<U64>, kept: set<U64>): seq<U64> {
    if |list| == 0 then [] else (if list[0] in kept then [list[0]] else []) + Keep(list[1..], kept)
  }

  /** The retained list is exactly the retained sessions, in retention order. */
  ghost predicate Retention(sessions: map<U64, Session>, retainedExited: seq<U64>, retentions: seq<U64>) {
    && NoDup(retentions)
    && (forall id :: id in sessions && !sessions[id].settled ==> id !in retentions)
    && (forall id :: id in sessions && sessions[id].retained ==> id in retentions)
    && retainedExited == Keep(retentions, RetainedSet(sessions))
  }

  /** Ids are handed out in increasing order, never twice and never zero. */
  ghost predicate Ids(starts: set<U64>, told: set<U64>, registered: set<U64>, retentions: seq<U64>,
                      next: U64, exhausted: bool) {
    && starts !! told
    && registered <= told
    && (forall id :: id in retentions ==> id in told)
    && (forall id :: id in starts || id in told ==> 0 < id && (exhausted || id <= next))
  }

  ghost predicate IdsOk(s: State) {
    Ids(s.log.starts, s.log.stories.Keys, s.sessions.Keys, s.log.retentions, s.next, s.exhausted)
  }

  // ----- The event grammar ----------------------------------------------------------------------

  function Outputs(n: nat): (r: seq<Kind>)
    ensures |r| == n
  {
    if n == 0 then [] else Outputs(n - 1) + [Output(n)]
  }

  function Story(n: nat, tail: seq<Kind>): seq<Kind> {
    [Opened] + Outputs(n) + tail
  }

  /** Everything that can follow the outputs: Ended (Removed | Retained (Evicted | Removed)?), or a prefix of it. */
  const TAILS: set<seq<Kind>> := {
    [], [Ended], [Ended, Removed], [Ended, Retained], [Ended, Retained, Evicted], [Ended, Retained, Removed]}

  ghost predicate Grammatical(story: seq<Kind>) {
    exists n: nat, tail :: tail in TAILS && story == Story(n, tail)
  }

  function TailOf(x: Session): seq<Kind> {
    if x.phase != Exited then [] else if !x.settled then [Ended] else [Ended, Retained]
  }

  ghost predicate Stories(sessions: map<U64, Session>, stories: map<U64, seq<Kind>>) {
    && (forall id :: id in sessions ==> id in stories && stories[id] == Story(sessions[id].last, TailOf(sessions[id])))
    && (forall id :: id in stories ==> Grammatical(stories[id]))
  }

  /** Before Close empties the registry every opened session is registered, evicted or removed. */
  ghost predicate Balanced(s: State) {
    !s.cleared ==> s.log.created == |s.sessions| + s.evicted + s.removed
  }

  /** The invariant without the retention bound, which the eviction loop restores. */
  ghost predicate Loose(c: Limits, s: State) {
    && Counted(c, s.sessions, s.log.starts, s.starting, s.active)
    && Flags(s.sessions, s.log.removals)
    && Retention(s.sessions, s.retainedExited, s.log.retentions)
    && IdsOk(s)
    && Stories(s.sessions, s.log.stories)
    && Balanced(s)
    && (s.cleared ==> s.closing && s.sessions == map[])
  }

  ghost predicate Inv(c: Limits, s: State) {
    Loose(c, s) && |s.retainedExited| <= c.maxRetained
  }

  // ----- Lists ------------------------------------------------------------------------------------

  lemma {:induction false} KeepMember(list: seq<U64>, kept: set<U64>, id: U64)
    ensures id in Keep(list, kept) <==> id in list && id in kept
  {
    if |list| > 0 {
      KeepMember(list[1..], kept, id);
      assert list == [list[0]] + list[1..];
    }
  }

  lemma {:induction false} KeepSame(list: seq<U64>, a: set<U64>, b: set<U64>)
    requires forall id :: id in list ==> (id in a <==> id in b)
    ensures Keep(list, a) == Keep(list, b)
  {
    if |list| > 0 {
      KeepSame(list[1..], a, b);
    }
  }

  lemma {:induction false} KeepAppend(list: seq<U64>, kept: set<U64>, id: U64)
    ensures Keep(list + [id], kept) == Keep(list, kept) + if id in kept then [id] else []
  {
    if |list| == 0 {
      assert list + [id] == [id];
      assert Keep([], kept) == [];
    } else {
      KeepAppend(list[1..], kept, id);
      assert (list + [id])[1..] == list[1..] + [id];
      var h := if list[0] in kept then [list[0]] else [];
      var t := if id in kept then [id] else [];
      assert h + (Keep(list[1..], kept) + t) == (h + Keep(list[1..], kept)) + t;
    }
  }

  lemma RemoveIdHead(list: seq<U64>, id: U64)
    requires |list| > 0
    ensures list[0] == id ==> RemoveId(list, id) == list[1..]
    ensures list[0] != id ==> RemoveId(list, id) == [list[0]] + RemoveId(list[1..], id)
  {
    if list[0] != id {
      var i := IndexOf(list[1..], id);
      if i < |list[1..]| {
        assert Without(list, i + 1) == [list[0]] + Without(list[1..], i);
      } else {
        assert list == [list[0]] + list[1..];
      }
    }
  }

  lemma RemoveIdAbsent(list: seq<U64>, id: U64)
    requires id !in list
    ensures RemoveId(list, id) == list
  {
  }

  /** Dropping one member from the kept set removes it from the kept list. */
  lemma {:induction false} KeepRemove(list: seq<U64>, kept: set<U64>, id: U64)
    requires NoDup(list)
    ensures Keep(list, kept - {id}) == RemoveId(Keep(list, kept), id)
  {
    hide RemoveId;
    if |list| > 0 {
      KeepRemove(list[1..], kept, id);
      var rest := Keep(list[1..], kept);
      if list[0] == id {
        assert id !in list[1..];
        KeepSame(list[1..], kept, kept - {id});
        KeepMember(list[1..], kept, id);
        if id in kept {
          RemoveIdHead([id] + rest, id);
          assert ([id] + rest)[1..] == rest;
        } else {
          RemoveIdAbsent(rest, id);
          assert [] + rest == rest;
          assert Keep(list, kept) == rest;
          assert Keep(list, kept - {id}) == [] + Keep(list[1..], kept - {id});
        }
      } else if list[0] in kept {
        RemoveIdHead([list[0]] + rest, id);
        assert ([list[0]] + rest)[1..] == rest;
      } else {
        assert [] + rest == rest;
      }
    } else {
      RemoveIdAbsent([], id);
    }
  }

  lemma NotListed(sessions: map<U64, Session>, retainedExited: seq<U64>, retentions: seq<U64>, id: U64)
    requires Retention(sessions, retainedExited, retentions)
    ensures id in retainedExited <==> id in sessions && sessions[id].retained
    ensures !(id in sessions && sessions[id].retained) ==> RemoveId(retainedExited, id) == retainedExited
  {
    KeepMember(retentions, RetainedSet(sessions), id);
    if id !in retainedExited {
      RemoveIdAbsent(retainedExited, id);
    }
  }

  // ----- How one session's record shows in each part of the invariant ------------------------------

  function One(b: bool): nat {
    if b then 1 else 0
  }

  lemma ActiveMember(sessions: map<U64, Session>, id: U64)
    ensures id in Active(sessions) <==> id in sessions && sessions[id].phase != Exited
    ensures |Active(sessions) - {id}| == |Active(sessions)| - One(id in Active(sessions))
  {
    if id in Active(sessions) {
      assert Active(sessions) == (Active(sessions) - {id}) + {id};
    } else {
      assert Active(sessions) == Active(sessions) - {id};
    }
  }

  lemma ActiveCount(sessions: map<U64, Session>, id: U64, x: Session)
    ensures |Active(sessions[id := x])|
         == |Active(sessions)| + One(x.phase != Exited) - One(id in sessions && sessions[id].phase != Exited)
    ensures |Active(sessions - {id})| == |Active(sessions)| - One(id in sessions && sessions[id].phase != Exited)
  {
    ActiveSets(sessions, id, x);
    ActiveMember(sessions, id);
    hide Active;
  }

  lemma ActiveSets(sessions: map<U64, Session>, id: U64, x: Session)
    ensures Active(sessions - {id}) == Active(sessions) - {id}
    ensures Active(sessions[id := x]) == Active(sessions) - {id} + (if x.phase != Exited then {id} else {})
  {
  }

  lemma RegistrySize(sessions: map<U64, Session>, id: U64, x: Session)
    ensures |sessions[id := x]| == |sessions| + One(id !in sessions)
    ensures |sessions - {id}| == |sessions| - One(id in sessions)
  {
    assert sessions[id := x].Keys == sessions.Keys + {id};
    assert (sessions - {id}).Keys == sessions.Keys - {id};
  }

  lemma RetentionSame(sessions: map<U64, Session>, t: map<U64, Session>, list: seq<U64>, retentions: seq<U64>)
    requires Retention(sessions, list, retentions) && RetainedSet(t) == RetainedSet(sessions)
    requires forall id :: id in t && !t[id].settled ==> id !in retentions
    ensures Retention(t, list, retentions)
  {
    hide Keep;
    forall id | id in t && t[id].retained
      ensures id in retentions
    {
      assert id in RetainedSet(t);
    }
  }

  lemma RetentionPut(sessions: map<U64, Session>, list: seq<U64>, retentions: seq<U64>, id: U64, x: Session)
    requires Retention(sessions, list, retentions)
    requires x.retained == (id in sessions && sessions[id].retained)
    requires if id in sessions then x.settled == sessions[id].settled else id !in retentions
    ensures Retention(sessions[id := x], list, retentions)
  {
    hide Keep;
    assert RetainedSet(sessions[id := x]) == RetainedSet(sessions);
    RetentionSame(sessions, sessions[id := x], list, retentions);
  }

  lemma StoriesPut(sessions: map<U64, Session>, stories: map<U64, seq<Kind>>, id: U64, x: Session)
    requires Stories(sessions, stories) && TailOf(x) in TAILS
    ensures Stories(sessions[id := x], stories[id := Story(x.last, TailOf(x))])
  {
    hide Story;
    Told(x.last, TailOf(x));
  }

  lemma StoriesDrop(sessions: map<U64, Session>, stories: map<U64, seq<Kind>>, id: U64, n: nat, tail: seq<Kind>)
    requires Stories(sessions, stories) && tail in TAILS
    ensures Stories(sessions - {id}, stories[id := Story(n, tail)])
  {
    hide Story;
    Told(n, tail);
  }

  lemma StoryNow(s: State, id: U64)
    requires Stories(s.sessions, s.log.stories) && id in s.sessions
    ensures StoryOf(s, id) == Story(s.sessions[id].last, TailOf(s.sessions[id]))
  {
  }

  lemma StoryGrows(n: nat, tail: seq<Kind>, k: Kind)
    ensures Story(n, tail) + [k] == Story(n, tail + [k])
    ensures Story(n, []) + [Output(n + 1)] == Story(n + 1, [])
    ensures Story(0, []) == [] + [Opened]
  {
  }

  lemma Told(n: nat, tail: seq<Kind>)
    requires tail in TAILS
    ensures Grammatical(Story(n, tail))
  {
  }

  lemma FlagOf(s: State, id: U64)
    requires Flags(s.sessions, s.log.removals) && id in s.sessions
    ensures FlagsOk(s.sessions[id])
  {
  }

  lemma FlagsPut(sessions: map<U64, Session>, removals: map<U64, Kind>, id: U64, x: Session)
    requires Flags(sessions, removals) && FlagsOk(x) && (x.removing ==> id in removals)
    ensures Flags(sessions[id := x], removals)
  {
  }

  lemma Known(s: State, id: U64)
    requires IdsOk(s) && id in s.sessions
    ensures id in s.log.stories
  {
  }

  lemma InPlace(s: State, id: U64, x: Session, story: seq<Kind>)
    requires id in s.sessions && id in s.log.stories
    ensures s.sessions[id := x].Keys == s.sessions.Keys
    ensures s.log.stories[id := story].Keys == s.log.stories.Keys
  {
    assert s.log.stories[id := story].Keys == s.log.stories.Keys + {id};
  }

  // ----- Running -----------------------------------------------------------------------------------

  lemma PublishKeeps(c: Limits, s: State, id: U64)
    requires Loose(c, s) && id in s.sessions && s.sessions[id].phase != Exited
    ensures Loose(c, Step(c, s, Publish(id)))
  {
    hide Active, Retention, Stories, Story, Flags, SettleNow, FinishRemovalNow, BeginRemoval, StopAll, AllSettled;
    var x := s.sessions[id].(last := s.sessions[id].last + 1);
    FlagOf(s, id);
    FlagsPut(s.sessions, s.log.removals, id, x);
    Known(s, id);
    ActiveCount(s.sessions, id, x);
    RegistrySize(s.sessions, id, x);
    RetentionPut(s.sessions, s.retainedExited, s.log.retentions, id, x);
    StoryNow(s, id);
    StoryGrows(s.sessions[id].last, [], Opened);
    StoriesPut(s.sessions, s.log.stories, id, x);
    InPlace(s, id, x, Story(x.last, TailOf(x)));
  }

  lemma KillKeeps(c: Limits, s: State, id: U64)
    requires Loose(c, s) && id in s.sessions && s.sessions[id].phase == Running
    ensures Loose(c, s.(sessions := s.sessions[id := s.sessions[id].(phase := Stopping)]))
  {
    hide Active, Retention, Stories, Story, Flags;
    var x := s.sessions[id].(phase := Stopping);
    FlagOf(s, id);
    FlagsPut(s.sessions, s.log.removals, id, x);
    ActiveCount(s.sessions, id, x);
    RegistrySize(s.sessions, id, x);
    RetentionPut(s.sessions, s.retainedExited, s.log.retentions, id, x);
    StoryNow(s, id);
    Known(s, id);
    StoriesPut(s.sessions, s.log.stories, id, x);
    InPlace(s, id, x, Story(x.last, TailOf(x)));
    assert s.log.stories[id := Story(x.last, TailOf(x))] == s.log.stories;
  }

  /** The guarded decrement of activeSessions always happens. */
  lemma ExitKeeps(c: Limits, s: State, id: U64)
    requires Loose(c, s) && id in s.sessions && s.sessions[id].phase != Exited
    ensures Loose(c, Step(c, s, Exit(id)))
    ensures s.active > 0
  {
    hide Retention, Stories, Story, Flags, Active, SettleNow, FinishRemovalNow, BeginRemoval, StopAll, AllSettled;
    var x := s.sessions[id].(phase := Exited);
    ActiveMember(s.sessions, id);
    assert |Active(s.sessions)| > 0;
    FlagOf(s, id);
    FlagsPut(s.sessions, s.log.removals, id, x);
    ActiveCount(s.sessions, id, x);
    RegistrySize(s.sessions, id, x);
    RetentionPut(s.sessions, s.retainedExited, s.log.retentions, id, x);
    StoryNow(s, id);
    StoryGrows(s.sessions[id].last, [], Ended);
    assert [] + [Ended] == [Ended];
    StoriesPut(s.sessions, s.log.stories, id, x);
    Known(s, id);
    InPlace(s, id, x, Story(x.last, TailOf(x)));
  }

  // ----- Opening -------------------------------------------------------------------------------------

  lemma IdsStart(starts: set<U64>, told: set<U64>, registered: set<U64>, retentions: seq<U64>, id: U64)
    requires id > 0 && Ids(starts, told, registered, retentions, id - 1, false)
    ensures Ids(starts + {id}, told, registered, retentions, id, false)
    ensures |starts + {id}| == |starts| + 1
  {
    assert id !in starts && id !in told;
  }

  lemma IdsExhaust(starts: set<U64>, told: set<U64>, registered: set<U64>, retentions: seq<U64>, next: U64,
                   exhausted: bool)
    requires Ids(starts, told, registered, retentions, next, exhausted)
    ensures Ids(starts, told, registered, retentions, 0, true)
  {
  }

  lemma StartKeeps(c: Limits, s: State, id: U64)
    requires Loose(c, s) && !s.exhausted && s.next + 1 == id && s.active + s.starting < c.maxSessions
    ensures Loose(c, StartNow(s, id))
  {
    hide Active, Retention, Flags, Stories, Ids;
    IdsStart(s.log.starts, s.log.stories.Keys, s.sessions.Keys, s.log.retentions, id);
  }

  lemma BeginOpenKeeps(c: Limits, s: State)
    requires Loose(c, s)
    ensures Loose(c, Step(c, s, BeginOpen))
  {
    hide Active, Retention, Flags, Stories, SettleNow, FinishRemovalNow, BeginRemoval, StopAll, AllSettled, Ids,
      StartNow, Counted, Register, Emit;
    if !(s.closing || s.active + s.starting >= c.maxSessions || s.exhausted) {
      if s.next + 1 < TWO64 {
        StartKeeps(c, s, s.next + 1);
      } else {
        IdsExhaust(s.log.starts, s.log.stories.Keys, s.sessions.Keys, s.log.retentions, s.next, s.exhausted);
      }
    }
  }

  lemma StartFailsKeeps(c: Limits, s: State, id: U64)
    requires Loose(c, s) && id in s.log.starts
    ensures Loose(c, Step(c, s, StartFails(id)))
  {
    hide Active, Retention, Flags, Stories, SettleNow, FinishRemovalNow, BeginRemoval, StopAll, AllSettled, Grammatical;
  }

  /** The second limit test of Open can never fire: the start in progress already holds its place. */
  lemma SecondLimitTestIdle(c: Limits, s: State, id: U64)
    requires Loose(c, s) && id in s.log.starts
    ensures s.active < c.maxSessions
  {
    hide Active, Retention, Flags, Stories;
    assert |s.log.starts| > 0;
  }

  lemma RegisterKeeps(c: Limits, s: State, id: U64)
    requires Loose(c, s) && s.active + s.starting < c.maxSessions && !s.cleared
    requires id !in s.log.starts && id !in s.log.stories && 0 < id && (s.exhausted || id <= s.next)
    ensures Loose(c, Register(s, id))
  {
    hide Active, Retention, Stories, Story, Flags;
    var x := Session(Running, 0, false, false, false);
    assert id !in s.sessions && id !in s.log.retentions;
    FlagsPut(s.sessions, s.log.removals, id, x);
    ActiveCount(s.sessions, id, x);
    RegistrySize(s.sessions, id, x);
    RetentionPut(s.sessions, s.retainedExited, s.log.retentions, id, x);
    StoryGrows(0, [], Opened);
    StoriesPut(s.sessions, s.log.stories, id, x);
  }

  lemma FinishOpenKeeps(c: Limits, s: State, id: U64)
    requires Loose(c, s) && id in s.log.starts
    ensures Loose(c, Step(c, s, FinishOpen(id)))
  {
    hide Active, Retention, Stories, Flags, Balanced, Register, SettleNow, FinishRemovalNow, BeginRemoval, StopAll,
      AllSettled;
    StartFailsKeeps(c, s, id);
    var t := Step(c, s, StartFails(id));
    if !s.closing {
      SecondLimitTestIdle(c, s, id);
      RegisterKeeps(c, t, id);
    }
  }

  // ----- Leaving the registry ----------------------------------------------------------------------------

  lemma DropKeeps(c: Limits, s: State, id: U64, k: Kind, evicted: nat, removed: nat)
    requires Loose(c, s) && id in s.sessions && s.sessions[id].phase == Exited && !s.sessions[id].retained
    requires evicted + removed == s.evicted + s.removed + 1
    requires TailOf(s.sessions[id]) + [k] in TAILS
    ensures
      var t := Emit(Drop(s, id).(evicted := evicted, removed := removed), id, k);
      && Loose(c, t) && t.retainedExited == s.retainedExited
      && Loose(c, t.(log := t.log.(removals := t.log.removals - {id})))
  {
    hide Active, Retention, Stories, Story, RemoveId;
    var x := s.sessions[id];
    ActiveCount(s.sessions, id, x);
    RegistrySize(s.sessions, id, x);
    RetentionDrop(s.sessions, s.retainedExited, s.log.retentions, id);
    StoryNow(s, id);
    StoryGrows(x.last, TailOf(x), k);
    StoriesDrop(s.sessions, s.log.stories, id, x.last, TailOf(x) + [k]);
  }

  lemma RetentionDrop(sessions: map<U64, Session>, list: seq<U64>, retentions: seq<U64>, id: U64)
    requires Retention(sessions, list, retentions) && !(id in sessions && sessions[id].retained)
    ensures Retention(sessions - {id}, list, retentions) && RemoveId(list, id) == list
  {
    hide Keep;
    assert RetainedSet(sessions - {id}) == RetainedSet(sessions);
    RetentionSame(sessions, sessions - {id}, list, retentions);
    NotListed(sessions, list, retentions, id);
  }

  lemma FinishRemovalKeeps(c: Limits, s: State, id: U64)
    requires Loose(c, s) && id in s.log.removals
    ensures Loose(c, FinishRemovalNow(s, id)) && |FinishRemovalNow(s, id).retainedExited| <= |s.retainedExited|
  {
    hide Active, Retention, Stories, IdsOk, Balanced, RemoveId, Counted, Emit;
    var k := s.log.removals[id];
    assert k in {Evicted, Removed};
    if id in s.sessions && s.sessions[id].removing {
      FlagOf(s, id);
      assert [Ended, Retained] + [k] == [Ended, Retained, k];
      if k == Evicted {
        DropKeeps(c, s, id, k, s.evicted + 1, s.removed);
        RemovalCommutes(s, id, k, s.evicted + 1, s.removed);
      } else {
        DropKeeps(c, s, id, k, s.evicted, s.removed + 1);
        RemovalCommutes(s, id, k, s.evicted, s.removed + 1);
      }
    } else {
      ForgetRemoval(c, s, id);
    }
  }

  /** Taking the finished removal off the list first, as the machine does, comes to the same. */
  lemma RemovalCommutes(s: State, id: U64, k: Kind, e: nat, r: nat)
    ensures
      var t := s.(log := s.log.(removals := s.log.removals - {id}));
      var u := Emit(Drop(s, id).(evicted := e, removed := r), id, k);
      Emit(Drop(t, id).(evicted := e, removed := r), id, k) == u.(log := u.log.(removals := u.log.removals - {id}))
  {
  }

  lemma ForgetRemoval(c: Limits, s: State, id: U64)
    requires Loose(c, s) && !(id in s.sessions && s.sessions[id].removing)
    ensures Loose(c, s.(log := s.log.(removals := s.log.removals - {id})))
  {
    hide Active, Retention, Stories;
  }

  // ----- Retention and eviction -----------------------------------------------------------------------------

  lemma RetentionAdd(sessions: map<U64, Session>, list: seq<U64>, retentions: seq<U64>, id: U64, x: Session)
    requires Retention(sessions, list, retentions) && id in sessions && !sessions[id].settled && !sessions[id].retained
    requires x.settled && x.retained
    ensures Retention(sessions[id := x], list + [id], retentions + [id])
  {
    hide Keep;
    var t := sessions[id := x];
    assert RetainedSet(t) == RetainedSet(sessions) + {id};
    KeepAppend(retentions, RetainedSet(t), id);
    KeepSame(retentions, RetainedSet(sessions), RetainedSet(t));
    assert forall y :: y in retentions + [id] <==> y in retentions || y == id;
  }

  lemma RetentionRemove(sessions: map<U64, Session>, list: seq<U64>, retentions: seq<U64>, id: U64, x: Session)
    requires Retention(sessions, list, retentions) && id in sessions && sessions[id].retained
    requires x.settled && !x.retained
    ensures Retention(sessions[id := x], RemoveId(list, id), retentions)
    ensures |RemoveId(list, id)| == |list| - 1
  {
    hide Keep;
    var t := sessions[id := x];
    assert RetainedSet(t) == RetainedSet(sessions) - {id};
    KeepRemove(retentions, RetainedSet(sessions), id);
    NotListed(sessions, list, retentions, id);
  }

  lemma RetainKeeps(c: Limits, s: State, id: U64)
    requires Loose(c, s) && id in s.sessions && s.sessions[id].phase == Exited && !s.sessions[id].settled
    ensures Loose(c, RetainNow(s, id)) && RetainNow(s, id).sessions.Keys == s.sessions.Keys
  {
    hide Active, Retention, Stories, Story, Flags;
    var x := s.sessions[id].(settled := true, retained := true);
    FlagOf(s, id);
    FlagsPut(s.sessions, s.log.removals, id, x);
    Known(s, id);
    ActiveCount(s.sessions, id, x);
    RegistrySize(s.sessions, id, x);
    RetentionAdd(s.sessions, s.retainedExited, s.log.retentions, id, x);
    StoryNow(s, id);
    StoryGrows(x.last, [Ended], Retained);
    assert [Ended] + [Retained] == [Ended, Retained];
    StoriesPut(s.sessions, s.log.stories, id, x);
    InPlace(s, id, x, Story(x.last, TailOf(x)));
  }

  lemma BeginRemovalKeeps(c: Limits, s: State, id: U64, k: Kind)
    requires Loose(c, s) && Removable(s, id) && k in {Evicted, Removed}
    ensures Loose(c, BeginRemoval(s, id, k))
    ensures |BeginRemoval(s, id, k).retainedExited| == |s.retainedExited| - 1
    ensures BeginRemoval(s, id, k).sessions.Keys == s.sessions.Keys
  {
    hide Active, Retention, Stories, Story, RemoveId;
    var x := s.sessions[id].(retained := false, removing := true);
    FlagOf(s, id);
    Known(s, id);
    ActiveCount(s.sessions, id, x);
    RegistrySize(s.sessions, id, x);
    RetentionRemove(s.sessions, s.retainedExited, s.log.retentions, id, x);
    StoryNow(s, id);
    StoriesPut(s.sessions, s.log.stories, id, x);
    InPlace(s, id, x, Story(x.last, TailOf(x)));
    assert s.log.stories[id := Story(x.last, TailOf(x))] == s.log.stories;
  }

  /** The eviction loop stops, because no head is both retained and being removed, and it restores the bound. */
  lemma {:induction false} EvictionsKeep(c: Limits, s: State)
    requires Loose(c, s)
    ensures Loose(c, Evictions(c, s)) && |Evictions(c, s).retainedExited| <= c.maxRetained
    ensures Evictions(c, s).generation == s.generation && Evictions(c, s).sessions.Keys == s.sessions.Keys
    decreases |s.retainedExited|
  {
    hide Counted, Retention, IdsOk, Stories, Balanced, RemoveId;
    if |s.retainedExited| > c.maxRetained {
      var id := s.retainedExited[0];
      NotListed(s.sessions, s.retainedExited, s.log.retentions, id);
      FlagOf(s, id);
      BeginRemovalKeeps(c, s, id, Evicted);
      EvictionsKeep(c, BeginRemoval(s, id, Evicted));
    }
  }

  /** One retention too many evicts exactly the session retained longest ago. */
  lemma EvictsTheOldest(c: Limits, s: State)
    requires Loose(c, s) && |s.retainedExited| == c.maxRetained + 1
    ensures Removable(s, s.retainedExited[0])
    ensures Evictions(c, s) == BeginRemoval(s, s.retainedExited[0], Evicted)
  {
    hide Counted, Retention, IdsOk, Stories, Balanced, RemoveId;
    var id := s.retainedExited[0];
    NotListed(s.sessions, s.retainedExited, s.log.retentions, id);
    FlagOf(s, id);
    BeginRemovalKeeps(c, s, id, Evicted);
  }

  lemma SettleKeeps(c: Limits, s: State, id: U64)
    requires Inv(c, s) && id in s.sessions && s.sessions[id].phase == Exited && !s.sessions[id].settled
    ensures Inv(c, SettleNow(c, s, id))
  {
    hide Counted, Retention, IdsOk, Stories, Balanced, RemoveId, Evictions, RetainNow;
    FlagOf(s, id);
    if !s.closing && c.retain {
      RetainKeeps(c, s, id);
      EvictionsKeep(c, RetainNow(s, id));
    } else {
      assert [Ended] + [Removed] == [Ended, Removed];
      DropKeeps(c, s, id, Removed, s.evicted, s.removed + 1);
    }
  }

  // ----- Closing ------------------------------------------------------------------------------------------

  lemma StopAllKeeps(s: State)
    requires Flags(s.sessions, s.log.removals) && Retention(s.sessions, s.retainedExited, s.log.retentions)
    requires Stories(s.sessions, s.log.stories)
    ensures
      var t := StopAll(s.sessions);
      && t.Keys == s.sessions.Keys && |t| == |s.sessions| && Active(t) == Active(s.sessions)
      && Flags(t, s.log.removals) && Retention(t, s.retainedExited, s.log.retentions) && Stories(t, s.log.stories)
  {
    hide Flags, Retention, Stories, StopAll, Active;
    StopAllRetains(s);
    StopAllFlags(s.sessions, s.log.removals);
    StopAllStories(s.sessions, s.log.stories);
    var t := StopAll(s.sessions);
    assert |t.Keys| == |t|;
  }

  lemma StopAllRetains(s: State)
    requires Retention(s.sessions, s.retainedExited, s.log.retentions)
    ensures Retention(StopAll(s.sessions), s.retainedExited, s.log.retentions)
  {
    hide Keep;
    var t := StopAll(s.sessions);
    assert RetainedSet(t) == RetainedSet(s.sessions);
    RetentionSame(s.sessions, t, s.retainedExited, s.log.retentions);
  }

  lemma StopAllFlags(sessions: map<U64, Session>, removals: map<U64, Kind>)
    requires Flags(sessions, removals)
    ensures Flags(StopAll(sessions), removals)
  {
    forall id | id in sessions
      ensures FlagsOk(StopAll(sessions)[id])
    {
      assert FlagsOk(sessions[id]);
    }
  }

  lemma StopAllStories(sessions: map<U64, Session>, stories: map<U64, seq<Kind>>)
    requires Stories(sessions, stories)
    ensures Stories(StopAll(sessions), stories)
    ensures StopAll(sessions).Keys == sessions.Keys && Active(StopAll(sessions)) == Active(sessions)
  {
    hide Story, Grammatical;
  }

  lemma BeginCloseKeeps(c: Limits, s: State)
    requires Loose(c, s)
    ensures Loose(c, Step(c, s, BeginClose))
  {
    hide Story, Grammatical, Keep, SettleNow, FinishRemovalNow, BeginRemoval, Retention, Ids, StopAll, Active;
    var t := StopAll(s.sessions);
    StopAllKeeps(s);
  }

  lemma NothingRegistered(c: Limits, s: State, t: State)
    requires Loose(c, s) && s.starting == 0
    requires t == s.(sessions := map[], retainedExited := [], active := 0, generation := s.generation + 1,
                     cleared := true)
    ensures Counted(c, t.sessions, t.log.starts, t.starting, t.active)
    ensures Retention(t.sessions, t.retainedExited, t.log.retentions)
  {
    hide Stories, Flags, Ids, Keep;
    var none: map<U64, Session> := map[];
    assert Active(none) == {} && RetainedSet(none) == {};
    KeepNone(s.log.retentions);
  }

  lemma EndCloseKeeps(c: Limits, s: State)
    requires Loose(c, s)
    ensures Loose(c, Step(c, s, EndClose))
  {
    hide Story, Grammatical, SettleNow, FinishRemovalNow, BeginRemoval, StopAll, Counted, Retention;
    if s.closing && !s.cleared && s.starting == 0 && AllSettled(s.sessions) {
      NothingRegistered(c, s, Step(c, s, EndClose));
    }
  }

  lemma {:induction false} KeepNone(list: seq<U64>)
    ensures Keep(list, {}) == []
  {
    if |list| > 0 {
      KeepNone(list[1..]);
    }
  }

  // ----- Runs ----------------------------------------------------------------------------------------------

  lemma StepKeeps(c: Limits, s: State, e: Event)
    requires Inv(c, s)
    ensures Inv(c, Step(c, s, e))
  {
    hide Counted, Flags, Retention, IdsOk, Stories, Balanced, RemoveId, SettleNow, FinishRemovalNow, Drop;
    match e
    case BeginOpen => BeginOpenKeeps(c, s);
    case StartFails(id) =>
      if id in s.log.starts {
        StartFailsKeeps(c, s, id);
      }
    case FinishOpen(id) =>
      if id in s.log.starts {
        FinishOpenKeeps(c, s, id);
      }
    case Publish(id) =>
      if id in s.sessions && s.sessions[id].phase != Exited {
        PublishKeeps(c, s, id);
      }
    case Kill(id) =>
      if id in s.sessions && s.sessions[id].phase == Running {
        KillKeeps(c, s, id);
      }
    case Exit(id) =>
      if id in s.sessions && s.sessions[id].phase != Exited {
        ExitKeeps(c, s, id);
      }
    case Settle(id) =>
      if id in s.sessions && s.sessions[id].phase == Exited && !s.sessions[id].settled {
        SettleKeeps(c, s, id);
      }
    case Remove(id) =>
      if !s.closing && Removable(s, id) {
        BeginRemovalKeeps(c, s, id, Removed);
      }
    case FinishRemoval(id) =>
      if id in s.log.removals {
        FinishRemovalKeeps(c, s, id);
      }
    case BeginClose => BeginCloseKeeps(c, s);
    case EndClose => EndCloseKeeps(c, s);
  }

  lemma {:induction false} RunKeeps(c: Limits, events: seq<Event>)
    ensures Inv(c, Run(c, events))
  {
    if |events| == 0 {
      var none: map<U64, Session> := map[];
      assert Active(none) == {} && RetainedSet(none) == {};
      KeepNone([]);
    } else {
      RunKeeps(c, events[..|events| - 1]);
      StepKeeps(c, Run(c, events[..|events| - 1]), events[|events| - 1]);
    }
  }

  // ----- What every run shows --------------------------------------------------------------------------------

  /** The events of one session, in the order they were emitted. */
  function Tale(emitted: seq<(U64, Kind)>, id: U64): seq<Kind> {
    if |emitted| == 0 then []
    else
      var last := emitted[|emitted| - 1];
      Tale(emitted[..|emitted| - 1], id) + (if last.0 == id then [last.1] else [])
  }

  ghost predicate Recorded(s: State) {
    forall id :: StoryOf(s, id) == Tale(s.log.emitted, id)
  }

  lemma EmitRecords(s: State, id: U64, k: Kind)
    requires Recorded(s)
    ensures Recorded(Emit(s, id, k))
  {
    DropLast(s.log.emitted, (id, k));
  }

  /** Evictions are only begun here; their events come when they finish. */
  lemma {:induction false} EvictionsAreSilent(c: Limits, s: State)
    ensures Evictions(c, s).log.emitted == s.log.emitted && Evictions(c, s).log.stories == s.log.stories
    decreases |s.retainedExited|
  {
    hide RemoveId;
    if |s.retainedExited| > c.maxRetained {
      var id := s.retainedExited[0];
      if id !in s.sessions || !s.sessions[id].retained {
        EvictionsAreSilent(c, s.(retainedExited := s.retainedExited[1..]));
      } else if !s.sessions[id].removing {
        RemoveIdHead(s.retainedExited, id);
        EvictionsAreSilent(c, BeginRemoval(s, id, Evicted));
      }
    }
  }

  lemma Unchanged(s: State, t: State)
    requires Recorded(s) && t.log.emitted == s.log.emitted && t.log.stories == s.log.stories
    ensures Recorded(t)
  {
    hide Tale;
    forall id
      ensures StoryOf(t, id) == Tale(t.log.emitted, id)
    {
      assert StoryOf(s, id) == StoryOf(t, id);
    }
  }

  lemma SettleRecords(c: Limits, s: State, id: U64)
    requires Recorded(s) && id in s.sessions
    ensures Recorded(SettleNow(c, s, id))
  {
    hide Recorded, RemoveId, Emit, Evictions;
    if !s.closing && c.retain {
      var t := s.(sessions := s.sessions[id := s.sessions[id].(settled := true, retained := true)],
                  retainedExited := s.retainedExited + [id], generation := s.generation + 1,
                  log := s.log.(retentions := s.log.retentions + [id]));
      Unchanged(s, t);
      EmitRecords(t, id, Retained);
      EvictionsAreSilent(c, RetainNow(s, id));
      Unchanged(RetainNow(s, id), SettleNow(c, s, id));
    } else {
      DropRecords(s, id, Removed, s.evicted, s.removed + 1);
    }
  }

  lemma DropRecords(s: State, id: U64, k: Kind, evicted: nat, removed: nat)
    requires Recorded(s)
    ensures Recorded(Emit(Drop(s, id).(evicted := evicted, removed := removed), id, k))
  {
    hide Recorded;
    Unchanged(s, Drop(s, id).(evicted := evicted, removed := removed));
    EmitRecords(Drop(s, id).(evicted := evicted, removed := removed), id, k);
  }

  lemma FinishRemovalRecords(s: State, id: U64)
    requires Recorded(s) && id in s.log.removals
    ensures Recorded(FinishRemovalNow(s, id))
  {
    hide Recorded, RemoveId, Emit;
    var t := s.(log := s.log.(removals := s.log.removals - {id}));
    Unchanged(s, t);
    DropRecords(t, id, Evicted, t.evicted + 1, t.removed);
    DropRecords(t, id, Removed, t.evicted, t.removed + 1);
  }

  lemma FinishOpenRecords(c: Limits, s: State, id: U64)
    requires Recorded(s)
    ensures Recorded(Step(c, s, FinishOpen(id)))
  {
    hide Recorded, SettleNow, FinishRemovalNow, BeginRemoval, Emit, StopAll;
    if id in s.log.starts && !(s.closing || s.active >= c.maxSessions) {
      var t := s.(starting := s.starting - 1, log := s.log.(starts := s.log.starts - {id}));
      var u := t.(sessions := t.sessions[id := Session(Running, 0, false, false, false)], active := t.active + 1,
                  generation := t.generation + 1, log := t.log.(created := t.log.created + 1));
      Unchanged(s, u);
      EmitRecords(u, id, Opened);
    } else {
      Unchanged(s, Step(c, s, FinishOpen(id)));
    }
  }

  lemma StepRecords(c: Limits, s: State, e: Event)
    requires Recorded(s)
    ensures Recorded(Step(c, s, e))
  {
    hide Recorded, SettleNow, FinishRemovalNow, RemoveId, Register, StopAll;
    match e
    case FinishOpen(id) => FinishOpenRecords(c, s, id);
    case Publish(id) =>
      if id in s.sessions && s.sessions[id].phase != Exited {
        var n := s.sessions[id].last + 1;
        var t := s.(sessions := s.sessions[id := s.sessions[id].(last := n)]);
        Unchanged(s, t);
        EmitRecords(t, id, Output(n));
      }
    case Exit(id) =>
      if id in s.sessions && s.sessions[id].phase != Exited {
        var t := s.(sessions := s.sessions[id := s.sessions[id].(phase := Exited)],
                    active := if s.active > 0 then s.active - 1 else s.active);
        Unchanged(s, t);
        EmitRecords(t, id, Ended);
      }
    case Settle(id) =>
      if id in s.sessions && s.sessions[id].phase == Exited && !s.sessions[id].settled {
        SettleRecords(c, s, id);
      }
    case FinishRemoval(id) =>
      if id in s.log.removals {
        FinishRemovalRecords(s, id);
      }
    case _ => Unchanged(s, Step(c, s, e));
  }

  /** A locked section tells observers of at most one thing. */
  lemma StepEmits(c: Limits, s: State, e: Event)
    ensures s.log.emitted <= Step(c, s, e).log.emitted
    ensures |Step(c, s, e).log.emitted| <= |s.log.emitted| + 1
  {
    hide RemoveId, Evictions, StopAll, AllSettled;
    if e.Settle? && e.id in s.sessions {
      EvictionsAreSilent(c, RetainNow(s, e.id));
    }
  }

  lemma {:induction false} RunRecords(c: Limits, events: seq<Event>)
    ensures Recorded(Run(c, events))
  {
    hide Step;
    if |events| > 0 {
      RunRecords(c, events[..|events| - 1]);
      StepRecords(c, Run(c, events[..|events| - 1]), events[|events| - 1]);
    }
  }

  /**
   * In every run the events of every session, in the order observers are told of them, are none or a prefix of
   * Opened Output(1) .. Output(n) Ended (Removed | Retained (Evicted | Removed)?).
   */
  lemma SessionEventGrammar(c: Limits, events: seq<Event>, id: U64)
    ensures
      var tale := Tale(Run(c, events).log.emitted, id);
      tale == [] || Grammatical(tale)
  {
    hide Step, Run, Tale, Grammatical;
    RunKeeps(c, events);
    RunRecords(c, events);
    var s := Run(c, events);
    assert StoryOf(s, id) == Tale(s.log.emitted, id);
  }

  /** What a registered session has emitted says exactly where it is in its life. */
  lemma RegisteredSessionStory(c: Limits, events: seq<Event>, id: U64)
    requires id in Run(c, events).sessions
    ensures
      var s := Run(c, events);
      Tale(s.log.emitted, id) == Story(s.sessions[id].last, TailOf(s.sessions[id]))
  {
    hide Step, Run, Tale, Story;
    RunKeeps(c, events);
    RunRecords(c, events);
    StoryNow(Run(c, events), id);
    assert StoryOf(Run(c, events), id) == Tale(Run(c, events).log.emitted, id);
  }

  /** The counters count, the session limit holds, and the limit test after startup never fires. */
  lemma SessionLimits(c: Limits, events: seq<Event>)
    ensures
      var s := Run(c, events);
      && s.active == |Active(s.sessions)| && s.starting == |s.log.starts| && s.active + s.starting <= c.maxSessions
      && (forall id :: id in s.log.starts ==> s.active < c.maxSessions)
      && (!s.cleared ==> s.log.created == |s.sessions| + s.evicted + s.removed)
  {
    hide Step, Run;
    RunKeeps(c, events);
    var s := Run(c, events);
    forall id | id in s.log.starts
      ensures s.active < c.maxSessions
    {
      SecondLimitTestIdle(c, s, id);
    }
  }

  /** The retained list is exactly the retained sessions, each once, in the order they were retained, bounded. */
  lemma RetainedExactly(c: Limits, events: seq<Event>, id: U64)
    ensures
      var s := Run(c, events);
      && (id in s.retainedExited <==> id in s.sessions && s.sessions[id].retained)
      && s.retainedExited == Keep(s.log.retentions, RetainedSet(s.sessions))
      && NoDup(s.log.retentions) && |s.retainedExited| <= c.maxRetained
      && (id in s.sessions ==> !(s.sessions[id].retained && s.sessions[id].removing))
  {
    hide Step, Run, Keep;
    RunKeeps(c, events);
    var s := Run(c, events);
    NotListed(s.sessions, s.retainedExited, s.log.retentions, id);
    if id in s.sessions {
      FlagOf(s, id);
    }
  }

  // ----- What each section does --------------------------------------------------------------------------------

  /**
   * An exited session whose attachments drained is retained under the retain policy of an open manager and removed
   * otherwise. Retaining puts it last on the retained list; one too many starts the eviction of the first.
   */
  lemma SettleExactly(c: Limits, s: State, id: U64)
    requires Inv(c, s) && id in s.sessions && s.sessions[id].phase == Exited && !s.sessions[id].settled
    ensures
      var t, list := Step(c, s, Settle(id)), s.retainedExited + [id];
      if !s.closing && c.retain then
        && t.sessions.Keys == s.sessions.Keys && t.log.emitted == s.log.emitted + [(id, Retained)]
        && t.log.retentions == s.log.retentions + [id] && t.removed == s.removed && t.evicted == s.evicted
        && t.generation == s.generation + 1
        && (if |list| <= c.maxRetained then t.retainedExited == list && t.log.removals == s.log.removals
            else t.retainedExited == list[1..] && t.log.removals == s.log.removals[list[0] := Evicted])
      else
        && t.sessions == s.sessions - {id} && t.log.emitted == s.log.emitted + [(id, Removed)]
        && t.removed == s.removed + 1 && t.evicted == s.evicted && t.retainedExited == s.retainedExited
        && t.generation == s.generation + 1
  {
    hide Counted, Retention, IdsOk, Stories, Balanced, RemoveId, Evictions;
    FlagOf(s, id);
    if !s.closing && c.retain {
      var r := RetainNow(s, id);
      RetainKeeps(c, s, id);
      EvictionsKeep(c, r);
      if |r.retainedExited| <= c.maxRetained {
        NoEviction(c, r);
      } else {
        EvictsTheOldest(c, r);
        RemoveIdHead(r.retainedExited, r.retainedExited[0]);
      }
    } else {
      NotListed(s.sessions, s.retainedExited, s.log.retentions, id);
    }
  }

  lemma NoEviction(c: Limits, s: State)
    requires |s.retainedExited| <= c.maxRetained
    ensures Evictions(c, s) == s
  {
  }

  /** Remove starts the removal of exactly the retained sessions of an open manager, and changes nothing else. */
  lemma RemoveExactly(c: Limits, s: State, id: U64)
    requires Inv(c, s)
    ensures
      var t := Step(c, s, Event.Remove(id));
      if !s.closing && id in s.sessions && s.sessions[id].retained then
        && t.sessions == s.sessions[id := s.sessions[id].(retained := false, removing := true)]
        && t.log.removals == s.log.removals[id := Removed] && id !in t.retainedExited
        && t.log.emitted == s.log.emitted && t.generation == s.generation
      else t == s
  {
    hide Counted, IdsOk, Stories, Balanced, RemoveId, Retention;
    if id in s.sessions {
      FlagOf(s, id);
      if !s.closing && s.sessions[id].retained {
        BeginRemovalKeeps(c, s, id, Removed);
        var t := BeginRemoval(s, id, Removed);
        NotListed(t.sessions, t.retainedExited, t.log.retentions, id);
      }
    }
  }

  /** A removal ends once, under its own counter and event, and the session leaves the registry. */
  lemma FinishRemovalExactly(c: Limits, s: State, id: U64)
    requires Inv(c, s) && id in s.log.removals
    ensures
      var t, k := Step(c, s, FinishRemoval(id)), s.log.removals[id];
      && t.sessions == s.sessions - (if id in s.sessions && s.sessions[id].removing then {id} else {})
      && t.retainedExited == s.retainedExited
      && if id in s.sessions && s.sessions[id].removing then
           && t.log.emitted == s.log.emitted + [(id, k)] && t.generation == s.generation + 1
           && t.evicted == s.evicted + (if k == Evicted then 1 else 0)
           && t.removed == s.removed + (if k == Removed then 1 else 0)
         else t.log.emitted == s.log.emitted && t.evicted == s.evicted && t.removed == s.removed
  {
    hide Counted, IdsOk, Stories, Balanced, RemoveId, Retention;
    assert s.log.removals[id] in {Evicted, Removed};
    if id in s.sessions && s.sessions[id].removing {
      FlagOf(s, id);
      NotListed(s.sessions, s.retainedExited, s.log.retentions, id);
    } else {
      assert s.sessions - {} == s.sessions;
    }
  }

  /** Killing stops exactly a running session. */
  lemma KillsExactly(c: Limits, s: State, id: U64)
    requires id in s.sessions
    ensures
      var x, t := s.sessions[id], Step(c, s, Kill(id));
      if x.phase == Running then t.sessions == s.sessions[id := x.(phase := Stopping)] && t.log == s.log else t == s
  {
    hide SettleNow, FinishRemovalNow, BeginRemoval, Register, StartNow, StopAll, AllSettled, Emit;
  }

  /** A process ends once, with one event. */
  lemma ExitsExactly(c: Limits, s: State, id: U64)
    requires id in s.sessions
    ensures
      var x, t := s.sessions[id], Step(c, s, Exit(id));
      if x.phase == Exited then t == s
      else t.sessions == s.sessions[id := x.(phase := Exited)] && t.log.emitted == s.log.emitted + [(id, Ended)]
  {
    hide SettleNow, FinishRemovalNow, BeginRemoval, Register, StartNow, StopAll, AllSettled;
  }

  /** Output is numbered on from the last and told, until the process ends. */
  lemma PublishesExactly(c: Limits, s: State, id: U64)
    requires id in s.sessions
    ensures
      var x, t := s.sessions[id], Step(c, s, Publish(id));
      if x.phase == Exited then t == s
      else t.sessions == s.sessions[id := x.(last := x.last + 1)]
           && t.log.emitted == s.log.emitted + [(id, Output(x.last + 1))]
  {
    hide SettleNow, FinishRemovalNow, BeginRemoval, Register, StartNow, StopAll, AllSettled;
  }

  /** The two halves of Close: running sessions begin to stop, and once all have settled the registry is emptied. */
  lemma ClosesExactly(c: Limits, s: State, id: U64)
    requires id in s.sessions
    ensures
      var x, t := s.sessions[id], Step(c, s, BeginClose);
      && t.closing && t.sessions.Keys == s.sessions.Keys && t.log == s.log
      && t.sessions[id] == x.(phase := if x.phase == Running then Stopping else x.phase)
    ensures
      var t := Step(c, s, EndClose);
      if s.closing && !s.cleared && s.starting == 0 && forall y :: y in s.sessions ==> s.sessions[y].settled
      then t.sessions == map[] && t.retainedExited == [] && t.active == 0 && t.log == s.log else t == s
  {
    hide SettleNow, FinishRemovalNow, BeginRemoval, Register, StartNow, Emit;
  }

  // ----- Generations ---------------------------------------------------------------------------------------

  /** The generation never falls, and while it stays the registered ids stay. */
  ghost predicate SameUnlessNewer(s: State, t: State) {
    s.generation <= t.generation && (s.generation == t.generation ==> s.sessions.Keys == t.sessions.Keys)
  }

  lemma StepGeneration(c: Limits, s: State, e: Event)
    requires Inv(c, s)
    ensures SameUnlessNewer(s, Step(c, s, e))
  {
    hide Counted, Flags, Retention, IdsOk, Stories, Balanced, RemoveId, Evictions;
    match e
    case Settle(id) =>
      if id in s.sessions && s.sessions[id].phase == Exited && !s.sessions[id].settled && !s.closing && c.retain {
        RetainKeeps(c, s, id);
        EvictionsKeep(c, RetainNow(s, id));
      }
    case BeginClose => assert StopAll(s.sessions).Keys == s.sessions.Keys;
    case _ =>
  }

  /** Equal generations at two moments of one run mean equal sets of registered ids. */
  lemma {:induction false} GenerationFixesIds(c: Limits, events: seq<Event>, later: seq<Event>)
    ensures SameUnlessNewer(Run(c, events), Run(c, events + later))
    decreases |later|
  {
    hide Step, Inv;
    if |later| == 0 {
      assert events + later == events;
    } else {
      var n := |later| - 1;
      assert events + later == events + later[..n] + [later[n]];
      DropLast(events + later[..n], later[n]);
      GenerationFixesIds(c, events, later[..n]);
      RunKeeps(c, events + later[..n]);
      StepGeneration(c, Run(c, events + later[..n]), later[n]);
    }
  }

  // ----- The manager ---------------------------------------------------------------------------------------

  lemma Registers(s: State, id: U64)
    ensures id in Register(s, id).sessions
  {
  }

  datatype OpenResult = Granted(id: U64) | ManagerClosed | SessionLimit

  /** The registry fields of Manager, changed in place by its locked sections. */
  class Registry {
    const limits: Limits
    var sessions: map<U64, Session>
    var retainedExited: seq<U64>
    var starting: int
    var active: int
    var next: U64
    var exhausted: bool
    var generation: nat
    var evicted: nat
    var removed: nat
    var closing: bool
    var cleared: bool
    ghost var log: Log

    ghost function View(): State
      reads this
    {
      State(sessions, retainedExited, starting, active, next, exhausted, generation, evicted, removed, closing,
            cleared, log)
    }

    constructor (limits: Limits)
      ensures this.limits == limits && View() == INIT
    {
      this.limits := limits;
      sessions, retainedExited, starting, active, next, exhausted := map[], [], 0, 0, 0, false;
      generation, evicted, removed, closing, cleared := 0, 0, 0, false, false;
      log := INIT.log;
    }

    ghost method EmitEvent(id: U64, k: Kind)
      modifies this`log
      ensures View() == Emit(old(View()), id, k)
    {
      log := Emit(View(), id, k).log;
    }

    /** The locked part of Open before startup. */
    method BeginOpen() returns (r: OpenResult)
      modifies this
      ensures View() == Step(limits, old(View()), Event.BeginOpen)
      ensures r.Granted? <==> old(!closing && active + starting < limits.maxSessions && !exhausted && next + 1 < TWO64)
      ensures r.Granted? ==> r.id == old(next) + 1 && log.starts == old(log.starts) + {r.id}
      ensures r.ManagerClosed? <==> old(closing)
    {
      if closing {
        return ManagerClosed;
      }
      if active + starting >= limits.maxSessions || exhausted {
        return SessionLimit;
      }
      next := if next + 1 == TWO64 then 0 else next + 1;
      if next == 0 {
        exhausted := true;
        return SessionLimit;
      }
      starting := starting + 1;
      log := log.(starts := log.starts + {next});
      r := Granted(next);
    }

    /** The session enters the registry and observers are told. */
    method AddSession(id: U64)
      modifies this`sessions, this`active, this`generation, this`log
      ensures View() == Register(old(View()), id)
    {
      sessions := sessions[id := Session(Running, 0, false, false, false)];
      active := active + 1;
      generation := generation + 1;
      log := log.(created := log.created + 1);
      EmitEvent(id, Opened);
    }

    /** The locked part of Open after a successful startup. */
    method FinishOpen(id: U64) returns (r: OpenResult)
      requires id in log.starts
      modifies this
      ensures View() == Step(limits, old(View()), Event.FinishOpen(id))
      ensures r.Granted? <==> !old(closing) && old(active) < limits.maxSessions
      ensures r.Granted? ==> r.id == id && id in sessions
    {
      hide SettleNow, FinishRemovalNow, BeginRemoval, StopAll, AllSettled, StartNow, Emit, Register;
      starting := starting - 1;
      log := log.(starts := log.starts - {id});
      if closing || active >= limits.maxSessions {
        return if closing then ManagerClosed else SessionLimit;
      }
      ghost var t := View();
      AddSession(id);
      Registers(t, id);
      r := Granted(id);
    }

    method RemoveRetainedID(id: U64)
      modifies this`retainedExited
      ensures retainedExited == RemoveId(old(retainedExited), id)
    {
      var i := 0;
      while i < |retainedExited|
        invariant 0 <= i <= |retainedExited|
        invariant retainedExited == old(retainedExited)
        invariant forall j :: 0 <= j < i ==> retainedExited[j] != id
      {
        if retainedExited[i] == id {
          retainedExited := retainedExited[..i] + retainedExited[i + 1..];
          return;
        }
        i := i + 1;
      }
    }

    method BeginRetainedRemoval(id: U64, ghost k: Kind) returns (ok: bool)
      requires id in sessions
      modifies this`sessions, this`retainedExited, this`log
      ensures ok == Removable(old(View()), id)
      ensures View() == if ok then BeginRemoval(old(View()), id, k) else old(View())
    {
      if !sessions[id].retained || sessions[id].removing {
        return false;
      }
      RemoveRetainedID(id);
      sessions := sessions[id := sessions[id].(retained := false, removing := true)];
      log := log.(removals := log.removals[id := k]);
      ok := true;
    }

    /** The loop ends because no session is both retained and being removed, which every run keeps. */
    method BeginRetentionEvictions() returns (removals: seq<U64>)
      requires forall id :: id in sessions ==> !(sessions[id].retained && sessions[id].removing)
      modifies this`sessions, this`retainedExited, this`log
      ensures View() == Evictions(limits, old(View())) && |retainedExited| <= limits.maxRetained
      ensures forall id :: id in removals ==> id in log.removals && log.removals[id] == Evicted
    {
      removals := [];
      while |retainedExited| > limits.maxRetained
        invariant Evictions(limits, View()) == Evictions(limits, old(View()))
        invariant forall id :: id in sessions ==> !(sessions[id].retained && sessions[id].removing)
        invariant forall id :: id in removals ==> id in log.removals && log.removals[id] == Evicted
        decreases |retainedExited|
      {
        hide RemoveId;
        var id := retainedExited[0];
        if id !in sessions || !sessions[id].retained {
          retainedExited := retainedExited[1..];
        } else {
          RemoveIdHead(retainedExited, id);
          var ok := BeginRetainedRemoval(id, Evicted);
          if ok {
            removals := removals + [id];
          }
        }
      }
    }

    method RemoveSession(id: U64)
      modifies this`sessions, this`retainedExited, this`generation
      ensures View() == Drop(old(View()), id)
    {
      sessions := sessions - {id};
      RemoveRetainedID(id);
      generation := generation + 1;
    }

    /** Session.run after the process ended: its first locked section. */
    method ExitSession(id: U64)
      requires id in sessions && sessions[id].phase != Exited
      modifies this`sessions, this`active, this`log
      ensures View() == Step(limits, old(View()), Exit(id))
    {
      sessions := sessions[id := sessions[id].(phase := Exited)];
      if active > 0 {
        active := active - 1;
      }
      EmitEvent(id, Ended);
    }

    /** The session is retained and observers are told. */
    method RetainSession(id: U64)
      requires id in sessions
      modifies this`sessions, this`retainedExited, this`generation, this`log
      ensures View() == RetainNow(old(View()), id)
    {
      hide Emit;
      sessions := sessions[id := sessions[id].(settled := true, retained := true)];
      retainedExited := retainedExited + [id];
      generation := generation + 1;
      log := log.(retentions := log.retentions + [id]);
      EmitEvent(id, Retained);
    }

    /** removeSessionLocked, the counter and the event of a session that leaves the registry. */
    method DropSession(id: U64, k: Kind)
      modifies this`sessions, this`retainedExited, this`generation, this`evicted, this`removed, this`log
      ensures View() ==
        if k == Evicted then Emit(Drop(old(View()), id).(evicted := old(evicted) + 1), id, Evicted)
        else Emit(Drop(old(View()), id).(removed := old(removed) + 1), id, Removed)
    {
      hide RemoveId, Emit;
      RemoveSession(id);
      if k == Evicted {
        evicted := evicted + 1;
        EmitEvent(id, Evicted);
      } else {
        removed := removed + 1;
        EmitEvent(id, Removed);
      }
    }

    /** Session.run after its attachments drained: its second locked section. */
    method SettleSession(id: U64) returns (removals: seq<U64>)
      requires id in sessions && sessions[id].phase == Exited && !sessions[id].settled
      requires !sessions[id].removing
      requires forall y :: y in sessions ==> !(sessions[y].retained && sessions[y].removing)
      modifies this
      ensures View() == Step(limits, old(View()), Settle(id))
      ensures forall y :: y in removals ==> y in log.removals && log.removals[y] == Evicted
    {
      hide Evictions, RemoveId, Drop, Register, FinishRemovalNow, BeginRemoval, StopAll, AllSettled, StartNow;
      removals := [];
      if !closing && limits.retain {
        RetainSession(id);
        removals := BeginRetentionEvictions();
      } else {
        DropSession(id, Removed);
      }
    }

    method FinishRetainedRemoval(id: U64, k: Kind)
      requires id in log.removals && log.removals[id] == k
      modifies this
      ensures View() == Step(limits, old(View()), FinishRemoval(id))
    {
      hide RemoveId, Emit, Register, SettleNow, BeginRemoval, StopAll, AllSettled, StartNow;
      log := log.(removals := log.removals - {id});
      if id !in sessions || !sessions[id].removing {
        return;
      }
      DropSession(id, k);
    }
  }
}
