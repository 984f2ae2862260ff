/**
 * The shared task state of one thread and the unit of work of one turn over it
 * (app/conversation/task_state_repository.py, the Lua scripts of app/conversation/redis_store.py):
 * compare-and-swap commits, the three-way merge after a conflict, the atomic claim, the reset.
 */
module TaskStateRepository {
  import opened Options
  import opened DeviceCommand
  import opened TaskState

  datatype Record = Record(state: State, revision: nat, generation: nat)

  /** What one turn holds: the state it read, its own copy, and the version it read. */
  datatype Uow = Uow(baseline: State, local: State, revision: nat, generation: nat)

  function Opened(r: Record): Uow {
    Uow(r.state, r.state, r.revision, r.generation)
  }

  // ---- the three-way merge ----

  /** One field: keep the other side's value unless this side changed it; two different changes clash. */
  function MergeField<T(==)>(base: T, mine: T, theirs: T): Option<T> {
    if mine == base then Some(theirs)
    else if theirs != base && mine != theirs then None
    else Some(mine)
  }

  function RestKeys(base: map<string, string>, mine: map<string, string>, theirs: map<string, string>): set<string> {
    base.Keys + mine.Keys + theirs.Keys
  }

  function MergeKey(base: map<string, string>, mine: map<string, string>, theirs: map<string, string>, key: string)
    : Option<Option<string>>
  {
    MergeField(Get(base, key), Get(mine, key), Get(theirs, key))
  }

  function MergeRest(base: map<string, string>, mine: map<string, string>, theirs: map<string, string>)
    : (r: Option<map<string, string>>)
    ensures r.None? <==> exists key :: key in RestKeys(base, mine, theirs) && MergeKey(base, mine, theirs, key).None?
    ensures r.Some? ==> forall key ::
                MergeKey(base, mine, theirs, key) == Some(Get(r.value, key))
  {
    if exists key :: key in RestKeys(base, mine, theirs) && MergeKey(base, mine, theirs, key).None? then None
    else
      Some(map key | key in RestKeys(base, mine, theirs)
                     && MergeKey(base, mine, theirs, key).value.Some?
             :: MergeKey(base, mine, theirs, key).value.value)
  }

  /** `_merge_after_conflict` within one generation; `None` is the refused "field conflict". */
  function Merge(base: State, mine: State, theirs: State): Option<State> {
    var pending := MergeField(base.pending, mine.pending, theirs.pending);
    var action := MergeField(base.action, mine.action, theirs.action);
    var execution := MergeField(base.execution, mine.execution, theirs.execution);
    var active := MergeField(base.active, mine.active, theirs.active);
    var menuTask := MergeField(base.menuTask, mine.menuTask, theirs.menuTask);
    var clarification := MergeField(base.clarification, mine.clarification, theirs.clarification);
    var selected := MergeField(base.selected, mine.selected, theirs.selected);
    var focus := MergeField(base.focus, mine.focus, theirs.focus);
    var excluded := MergeField(base.excluded, mine.excluded, theirs.excluded);
    var rest := MergeRest(base.rest, mine.rest, theirs.rest);
    if pending.Some? && action.Some? && execution.Some? && active.Some? && menuTask.Some?
       && clarification.Some? && selected.Some? && focus.Some? && excluded.Some? && rest.Some?
    then Some(State(pending.value, action.value, execution.value, active.value, menuTask.value,
                    clarification.value, selected.value, focus.value, excluded.value, rest.value))
    else None
  }

  lemma MergeRestCommutes(base: map<string, string>, mine: map<string, string>, theirs: map<string, string>)
    ensures MergeRest(base, mine, theirs) == MergeRest(base, theirs, mine)
  {
    forall key ensures MergeKey(base, mine, theirs, key) == MergeKey(base, theirs, mine, key) {
    }
    assert RestKeys(base, mine, theirs) == RestKeys(base, theirs, mine);
    var a, b := MergeRest(base, mine, theirs), MergeRest(base, theirs, mine);
    if a.Some? && b.Some? {
      forall key ensures Get(a.value, key) == Get(b.value, key) {
        assert MergeKey(base, mine, theirs, key) == Some(Get(a.value, key));
      }
      SameGetsSameMap(a.value, b.value);
    }
  }

  lemma SameGetsSameMap(a: map<string, string>, b: map<string, string>)
    requires forall key :: Get(a, key) == Get(b, key)
    ensures a == b
  {
    forall key ensures key in a <==> key in b {
      assert Get(a, key) == Get(b, key);
    }
    forall key | key in a ensures a[key] == b[key] {
      assert Get(a, key) == Get(b, key);
    }
  }

  /** No turn's change is lost or preferred: merging in either order gives the same state or refusal. */
  lemma MergeCommutes(base: State, mine: State, theirs: State)
    ensures Merge(base, mine, theirs) == Merge(base, theirs, mine)
  {
    MergeRestCommutes(base.rest, mine.rest, theirs.rest);
  }

  lemma MergeRestUnits(base: map<string, string>, other: map<string, string>)
    ensures MergeRest(base, other, base) == Some(other)
    ensures MergeRest(base, base, other) == Some(other)
  {
    MergeRestCommutes(base, other, base);
    forall key ensures MergeKey(base, base, other, key) == Some(Get(other, key)) {
    }
    var r := MergeRest(base, base, other);
    forall key ensures Get(r.value, key) == Get(other, key) {
      assert MergeKey(base, base, other, key) == Some(Get(r.value, key));
    }
    SameGetsSameMap(r.value, other);
  }

  /** With only one side changed, the merge is that side. */
  lemma MergeUnits(base: State, other: State)
    ensures Merge(base, other, base) == Some(other)
    ensures Merge(base, base, other) == Some(other)
  {
    MergeRestUnits(base.rest, other.rest);
  }

  /** Both sides changed the value, and differently. */
  predicate Clash<T(==)>(base: T, mine: T, theirs: T) {
    mine != base && theirs != base && mine != theirs
  }

  predicate SomeFieldClashes(base: State, mine: State, theirs: State) {
    || Clash(base.pending, mine.pending, theirs.pending) || Clash(base.action, mine.action, theirs.action)
    || Clash(base.execution, mine.execution, theirs.execution) || Clash(base.active, mine.active, theirs.active)
    || Clash(base.menuTask, mine.menuTask, theirs.menuTask)
    || Clash(base.clarification, mine.clarification, theirs.clarification)
    || Clash(base.selected, mine.selected, theirs.selected) || Clash(base.focus, mine.focus, theirs.focus)
    || Clash(base.excluded, mine.excluded, theirs.excluded)
    || exists key :: key in base.rest.Keys + mine.rest.Keys + theirs.rest.Keys
                     && Clash(Get(base.rest, key), Get(mine.rest, key), Get(theirs.rest, key))
  }

  /** The value of the side that changed it, or of either, or the old one if neither did. */
  predicate Takes<T(==)>(base: T, mine: T, theirs: T, merged: T) {
    (mine != base ==> merged == mine) && (theirs != base ==> merged == theirs)
    && (mine == base && theirs == base ==> merged == base)
  }

  ghost predicate FieldsTaken(base: State, mine: State, theirs: State, merged: State) {
    && Takes(base.pending, mine.pending, theirs.pending, merged.pending)
    && Takes(base.action, mine.action, theirs.action, merged.action)
    && Takes(base.execution, mine.execution, theirs.execution, merged.execution)
    && Takes(base.active, mine.active, theirs.active, merged.active)
    && Takes(base.menuTask, mine.menuTask, theirs.menuTask, merged.menuTask)
    && Takes(base.clarification, mine.clarification, theirs.clarification, merged.clarification)
    && Takes(base.selected, mine.selected, theirs.selected, merged.selected)
    && Takes(base.focus, mine.focus, theirs.focus, merged.focus)
    && Takes(base.excluded, mine.excluded, theirs.excluded, merged.excluded)
    && forall key :: Takes(Get(base.rest, key), Get(mine.rest, key), Get(theirs.rest, key), Get(merged.rest, key))
  }

  lemma MergeRestIsExact(base: map<string, string>, mine: map<string, string>, theirs: map<string, string>)
    ensures MergeRest(base, mine, theirs).None? <==>
              exists key :: key in base.Keys + mine.Keys + theirs.Keys
                            && Clash(Get(base, key), Get(mine, key), Get(theirs, key))
    ensures MergeRest(base, mine, theirs).Some? ==>
              forall key :: Takes(Get(base, key), Get(mine, key), Get(theirs, key),
                                  Get(MergeRest(base, mine, theirs).value, key))
  {
    forall key
      ensures MergeKey(base, mine, theirs, key).None? <==> Clash(Get(base, key), Get(mine, key), Get(theirs, key))
    {
    }
    var r := MergeRest(base, mine, theirs);
    if r.Some? {
      forall key ensures Takes(Get(base, key), Get(mine, key), Get(theirs, key), Get(r.value, key)) {
        assert MergeKey(base, mine, theirs, key) == Some(Get(r.value, key));
      }
    }
  }

  /** A merge is refused exactly if both sides changed some field to different values. */
  lemma MergeClashesIff(base: State, mine: State, theirs: State)
    ensures Merge(base, mine, theirs).None? <==> SomeFieldClashes(base, mine, theirs)
  {
    MergeRestIsExact(base.rest, mine.rest, theirs.rest);
  }

  /** And otherwise loses no change: every field has the value of the side that changed it. */
  lemma MergeLosesNothing(base: State, mine: State, theirs: State)
    requires Merge(base, mine, theirs).Some?
    ensures FieldsTaken(base, mine, theirs, Merge(base, mine, theirs).value)
  {
    MergeRestIsExact(base.rest, mine.rest, theirs.rest);
  }

  /**
   * Exactly when a merge of two exclusive states loses the exclusion: one side brings a new pending
   * start and keeps the execution it read, while the other side's execution is unresolved; or the
   * other way round.
   */
  lemma MergeExclusiveIff(base: State, mine: State, theirs: State)
    requires Exclusive(mine) && Exclusive(theirs)
    requires Merge(base, mine, theirs).Some?
    ensures !Exclusive(Merge(base, mine, theirs).value) <==>
              || (mine.pending.Some? && mine.pending != base.pending && mine.execution == base.execution
                  && Unresolved(theirs.execution))
              || (theirs.pending.Some? && theirs.pending != base.pending && theirs.execution == base.execution
                  && Unresolved(mine.execution))
  {
  }

  // ---- the store ----

  function Commit(r: Record, s: State, revision: nat, generation: nat): Option<Record> {
    if r.revision == revision && r.generation == generation then Some(Record(s, revision + 1, generation)) else None
  }

  /** `_reset_short_term_state`: a new generation that keeps only what the device is really doing. */
  function Reset(r: Record): Record {
    Record(EMPTY.(active := r.state.active, execution := r.state.execution), r.revision + 1, r.generation + 1)
  }

  datatype ClaimStatus = Claimed | InProgress | Missing | Mismatch | Expired

  function ClaimStatusOf(s: State, expected: ActionId, now: int): ClaimStatus {
    if Unresolved(s.execution) then InProgress
    else if s.pending.None? then Missing
    else if s.pending.value.id.action != expected then Mismatch
    else if s.pending.value.ts <= 0 || now - s.pending.value.ts > PENDING_TTL then Expired
    else Claimed
  }

  function DispatchingFrom(p: Pending, now: int): Execution {
    Execution(p, Dispatching, None, Null, None, now)
  }

  /** The Lua claim: one atomic step on the stored record. */
  function ClaimRecord(r: Record, expected: ActionId, now: int): Record {
    match ClaimStatusOf(r.state, expected, now)
    case Claimed =>
      Record(ClearPending(r.state).(execution := Some(DispatchingFrom(r.state.pending.value, now))),
             r.revision + 1, r.generation)
    case Expired => Record(ClearPending(r.state), r.revision + 1, r.generation)
    case _ => r
  }

  // ---- the unit of work ----

  /** What happened to a flush: the record and the unit of work after it; `ok` is false when it raised. */
  datatype FlushOutcome = FlushOutcome(ok: bool, record: Record, uow: Uow)

  /** A flush that no other worker interrupts: compare-and-swap first, merge on conflict. */
  function FlushOnce(u: Uow, r: Record, now: int): FlushOutcome {
    var after := Settle(u.local, now);
    if after == u.baseline then FlushOutcome(true, r, u)
    else
      match Commit(r, after, u.revision, u.generation)
      case Some(committed) => FlushOutcome(true, committed, Opened(committed))
      case None =>
        if r.generation != u.generation then FlushOutcome(false, r, u)
        else
          match Merge(u.baseline, after, r.state)
          case None => FlushOutcome(false, r, u)
          case Some(merged) =>
            var next := if merged == r.state then r else Record(merged, r.revision + 1, r.generation);
            FlushOutcome(true, next, Opened(next))
  }

  /** The copy of a turn against the stored record: same revision means same content. */
  predicate Versioned(u: Uow, r: Record) {
    && u.revision <= r.revision && u.generation <= r.generation
    && (u.revision == r.revision ==> u.baseline == r.state && u.generation == r.generation)
  }

  /**
   * Whichever way a flush goes, it is refused exactly if there is something to save and a reset came over it or some
   * field clashes; then nothing changes. Else what is stored is the stored state with this turn's changes.
   */
  lemma FlushIsExact(u: Uow, r: Record, now: int)
    requires Versioned(u, r)
    ensures var after, o := Settle(u.local, now), FlushOnce(u, r, now);
      && (o.ok <==> after == u.baseline
                    || (u.generation == r.generation && !SomeFieldClashes(u.baseline, after, r.state)))
      && (!o.ok ==> o.record == r && o.uow == u)
      && (o.ok ==> o.record.generation == r.generation)
      && (o.ok && after == u.baseline ==> o.record == r && o.uow == u)
      && (o.ok && after != u.baseline ==>
            && FieldsTaken(u.baseline, after, r.state, o.record.state) && o.uow == Opened(o.record)
            && (o.record == r || o.record.revision == r.revision + 1))
  {
    var after := Settle(u.local, now);
    if after != u.baseline {
      MergeClashesIff(u.baseline, after, r.state);
      if u.revision == r.revision {
        MergeUnits(u.baseline, after);
        MergeLosesNothing(u.baseline, after, r.state);
      } else if Merge(u.baseline, after, r.state).Some? {
        MergeLosesNothing(u.baseline, after, r.state);
      }
    }
  }

  /** The claim wins exactly for a waiting start with that id that is not expired, beside no unresolved one. */
  lemma ClaimIsExact(r: Record, expected: ActionId, now: int)
    ensures var s, next, status := r.state, ClaimRecord(r, expected, now), ClaimStatusOf(r.state, expected, now);
      && (status == Claimed <==>
            && s.pending.Some? && s.pending.value.id.action == expected && !Unresolved(s.execution)
            && 0 < s.pending.value.ts && now - s.pending.value.ts <= PENDING_TTL)
      && (status == Claimed ==>
            && next.state.execution == Some(Execution(s.pending.value, Dispatching, None, Null, None, now))
            && next.state == s.(pending := None, action := next.state.action, execution := next.state.execution))
      && (status == Expired ==>
            next.state == s.(pending := None, action := next.state.action))
      && (status in {Claimed, Expired} ==>
            && next.revision == r.revision + 1 && next.generation == r.generation && !IsDeviceAction(next.state.action)
            && (!IsDeviceAction(s.action) ==> next.state.action == s.action))
      && (status == Expired <==>
            && s.pending.Some? && s.pending.value.id.action == expected && !Unresolved(s.execution)
            && !(0 < s.pending.value.ts && now - s.pending.value.ts <= PENDING_TTL))
      && (status !in {Claimed, Expired} ==> next == r)
      && (status == InProgress <==> Unresolved(s.execution))
      && (status == Missing <==> !Unresolved(s.execution) && s.pending.None?)
  {
  }

  /** A reset keeps running task and execution and nothing else, and what was read before it is never stored. */
  lemma ResetIsExact(r: Record, u: Uow, now: int)
    requires u.generation <= r.generation
    ensures var next := Reset(r);
      && next.state.active == r.state.active && next.state.execution == r.state.execution
      && next.state == State(None, None, r.state.execution, r.state.active, None, None, None, None, None, map[])
      && next.generation > r.generation && next.revision > r.revision
      && (u.revision <= r.revision ==> FlushOnce(u, next, now).record == next)
  {
  }

  /** A write by another worker: an ordinary commit, or a reset that opens the next generation. */
  datatype Rival = Rival(state: State, reset: bool)

  function Overwrite(r: Record, rival: Rival): Record {
    Record(rival.state, r.revision + 1, r.generation + if rival.reset then 1 else 0)
  }

  function Interfere(r: Record, rivals: seq<Rival>): Record
    decreases |rivals|
  {
    if rivals == [] then r else Interfere(Overwrite(r, rivals[0]), rivals[1..])
  }

  lemma {:induction false} InterfereMovesForward(r: Record, rivals: seq<Rival>)
    ensures Interfere(r, rivals).revision == r.revision + |rivals|
    ensures Interfere(r, rivals).generation >= r.generation
    decreases |rivals|
  {
    if rivals != [] {
      InterfereMovesForward(Overwrite(r, rivals[0]), rivals[1..]);
    }
  }

  datatype ClaimOutcome = ClaimOutcome(record: Record, uow: Uow, payload: Option<Pending>)

  /** The claim after its flush; a winner gets the start to run, everyone gets the stored state. */
  function ClaimStart(u: Uow, r: Record, expected: ActionId, now: int): ClaimOutcome {
    var next := ClaimRecord(r, expected, now);
    if next.generation != u.generation || ClaimStatusOf(r.state, expected, now) != Claimed then
      ClaimOutcome(next, Opened(next), None)
    else
      var own := DropStalePending(u.local, now).pending;
      var payload := if own.Some? && own.value.id.action == expected then own.value else r.state.pending.value;
      ClaimOutcome(next, Opened(next), Some(payload))
  }

  /** The payload goes to the winner in its own generation: its own waiting start of that id, else the stored one. */
  lemma PayloadIsExact(u: Uow, r: Record, expected: ActionId, now: int)
    ensures var o, status := ClaimStart(u, r, expected, now), ClaimStatusOf(r.state, expected, now);
      && o.record == ClaimRecord(r, expected, now) && o.uow == Opened(o.record)
      && (o.payload.Some? <==> status == Claimed && u.generation == r.generation)
      && (o.payload.Some? ==>
            && o.payload.value.id.action == expected
            && (o.payload == r.state.pending || o.payload == u.local.pending)
            && (u.local.pending == r.state.pending || u.local.pending.None? ==> o.payload == r.state.pending))
  {
  }

  // ---- the program ----

  /** The stored record; every method is one atomic step of the store. */
  class TaskStateStore {
    var record: Record

    constructor ()
      ensures record == Record(EMPTY, 0, 0)
    {
      record := Record(EMPTY, 0, 0);
    }

    method CommitRecord(s: State, revision: nat, generation: nat) returns (committed: Option<Record>)
      modifies this
      ensures committed == Commit(old(record), s, revision, generation)
      ensures record == if committed.Some? then committed.value else old(record)
    {
      if record.revision != revision || record.generation != generation { return None; }
      record := Record(s, revision + 1, generation);
      return Some(record);
    }

    method ClaimPendingDeviceStart(expected: ActionId, now: int) returns (status: ClaimStatus, payload: Option<Pending>)
      modifies this
      ensures record == ClaimRecord(old(record), expected, now)
      ensures status == ClaimStatusOf(old(record).state, expected, now)
      ensures payload == if status == Claimed then old(record).state.pending else None
    {
      payload := None;
      var s := record.state;
      if s.execution.Some? && UnresolvedStatus(s.execution.value.status) { return InProgress, None; }
      if s.pending.None? { return Missing, None; }
      var p := s.pending.value;
      if p.id.action != expected { return Mismatch, None; }
      if p.ts <= 0 || now - p.ts > PENDING_TTL {
        status := Expired;
      } else {
        status, payload := Claimed, Some(p);
        s := s.(execution := Some(Execution(p, Dispatching, None, Null, None, now)));
      }
      s := s.(pending := None);
      if s.action.Some? && (s.action.value.kind.ChooseDevice? || s.action.value.kind.ConfirmDeviceStart?) {
        s := s.(action := None);
      }
      record := Record(s, record.revision + 1, record.generation);
    }

    method ResetSession()
      modifies this
      ensures record == Reset(old(record))
    {
      var kept := EMPTY.(active := record.state.active);
      kept := kept.(execution := record.state.execution);
      record := Record(kept, record.revision + 1, record.generation + 1);
    }

    /** The writes other workers get in before this worker's next one. */
    method Elsewhere(rivals: seq<Rival>)
      modifies this
      ensures record == Interfere(old(record), rivals)
    {
      ghost var start := record;
      for i := 0 to |rivals|
        invariant Interfere(record, rivals[i..]) == Interfere(start, rivals)
      {
        assert rivals[i..][0] == rivals[i] && rivals[i..][1..] == rivals[i + 1..];
        record := Record(rivals[i].state, record.revision + 1, record.generation + if rivals[i].reset then 1 else 0);
      }
    }
  }

  class UnitOfWork {
    var baseline: State
    var local: State
    var revision: nat
    var generation: nat

    ghost function Contents(): Uow
      reads this
    {
      Uow(baseline, local, revision, generation)
    }

    constructor (r: Record)
      ensures Contents() == Opened(r)
    {
      baseline, local, revision, generation := r.state, r.state, r.revision, r.generation;
    }

    method Adopt(r: Record)
      modifies this
      ensures Contents() == Opened(r)
    {
      baseline, local, revision, generation := r.state, r.state, r.revision, r.generation;
    }

    /**
     * `_flush_uow` with its three attempts. `rivals[i]` is what other workers write before attempt `i`
     * (a write between a failed commit and the reload has the same effect as one just before that commit).
     * Whatever they do, the flush is one atomic `FlushOnce` at some moment among those writes,
     * or it raises and leaves the record as the others wrote it.
     */
    method Flush(store: TaskStateStore, rivals: seq<seq<Rival>>, now: int) returns (ok: bool, ghost seen: Record)
      requires |rivals| == 3
      requires revision <= store.record.revision
      modifies this, store
      ensures ok ==> FlushOutcome(true, store.record, Contents()) == FlushOnce(old(Contents()), seen, now)
      ensures !ok ==> Contents() == old(Contents()) && store.record == seen
      ensures || seen == old(store.record)
              || seen == Interfere(old(store.record), rivals[0])
              || seen == Interfere(Interfere(old(store.record), rivals[0]), rivals[1])
              || seen == Interfere(Interfere(Interfere(old(store.record), rivals[0]), rivals[1]), rivals[2])
    {
      seen := store.record;
      var after := Settle(local, now);
      if after == baseline { return true, seen; }
      var candidate, expectedRevision, expectedGeneration := after, revision, generation;
      ghost var first := store.record;
      var attempt := 0;
      while attempt < 3
        invariant 0 <= attempt <= 3
        invariant Contents() == old(Contents()) && seen == store.record
        invariant revision <= store.record.revision
        invariant attempt == 0 ==>
                    candidate == after && expectedRevision == revision && expectedGeneration == generation
        invariant attempt == 0 ==> seen == first
        invariant attempt == 1 ==> seen == Interfere(first, rivals[0])
        invariant attempt == 2 ==> seen == Interfere(Interfere(first, rivals[0]), rivals[1])
        invariant attempt == 3 ==> seen == Interfere(Interfere(Interfere(first, rivals[0]), rivals[1]), rivals[2])
        invariant 0 < attempt < 3 ==>
            && Commit(store.record, after, revision, generation).None?
            && store.record.generation == generation == expectedGeneration
            && expectedRevision == store.record.revision
            && Merge(baseline, after, store.record.state) == Some(candidate)
            && candidate != store.record.state
            && store.record.revision > revision
      {
        ghost var before := store.record;
        store.Elsewhere(rivals[attempt]);
        InterfereMovesForward(before, rivals[attempt]);
        seen := store.record;
        var committed := store.CommitRecord(candidate, expectedRevision, expectedGeneration);
        if committed.Some? {
          if attempt > 0 {
            assert rivals[attempt] == [] && seen == before;
          }
          Adopt(committed.value);
          return true, seen;
        }
        attempt := attempt + 1;
        if attempt < 3 {
          if store.record.generation != generation { return false, seen; }
          var merged := Merge(baseline, after, store.record.state);
          if merged.None? { return false, seen; }
          if merged.value == store.record.state {
            Adopt(store.record);
            return true, seen;
          }
          candidate := merged.value;
          expectedRevision, expectedGeneration := store.record.revision, store.record.generation;
        }
      }
      return false, seen;
    }

    /** `claim_pending_device_start` after its flush. */
    method Claim(store: TaskStateStore, expected: ActionId, now: int) returns (payload: Option<Pending>)
      modifies this, store
      ensures ClaimOutcome(store.record, Contents(), payload)
              == ClaimStart(old(Contents()), old(store.record), expected, now)
    {
      var readGeneration := generation;
      var status, stored := store.ClaimPendingDeviceStart(expected, now);
      if store.record.generation != readGeneration {
        Adopt(store.record);
        return None;
      }
      var own := None;
      if status == Claimed || status == Expired {
        if local.pending.Some? && now - local.pending.value.ts <= PENDING_TTL
           && local.pending.value.id.action == expected {
          own := local.pending;
        }
      }
      Adopt(store.record);
      if status == Claimed {
        return if own.Some? then own else stored;
      }
      return None;
    }
  }
}
