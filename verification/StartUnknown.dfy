/**
 * What racing turns cannot break: while the result of a start is not known it is not tried again, and nothing else
 * is started, until the device confirms a stop or the record is a day old.
 */
module StartUnknown {
  import opened Languages
  import opened Options
  import opened DeviceCommand
  import opened TaskState
  import opened TaskAnswers
  import opened TaskStateRepository
  import opened StartProtocol

  // ---- the events that release an execution ----

  predicate Aged(s: State, now: int) {
    s.execution.Some? && now - s.execution.value.updatedAt > EXECUTION_TTL
  }

  /** The turn reads its execution at this event and drops it for its age. */
  predicate Expires(w: World, e: Event) {
    Enabled(w, e) &&
    match e
    case Flush(i, now) => Aged(w.turns[i].uow.local, now)
    case AskPrepare(i, _, _, _, _, now) => Aged(w.turns[i].uow.local, now)
    case Return(i, _, now) => Aged(w.turns[i].uow.local, now)
    case Say(i, _, _, _, now) =>
      Aged(w.turns[i].uow.local, now) && DropStalePending(w.turns[i].uow.local, now).pending.None?
    case _ => false
  }

  /** The device confirms a stop of a running task. */
  predicate Stops(w: World, e: Event) {
    e.AskStop? && Enabled(w, e) && e.stopped && LiveActive(w.turns[e.turn].uow.local, e.now).Some?
  }

  predicate Releases(w: World, e: Event) {
    Expires(w, e) || Stops(w, e)
  }

  predicate Quiet(w: World, events: seq<Event>) {
    forall n :: 0 <= n < |events| ==> !Releases(Run(w, events[..n]), events[n])
  }

  // ---- who owes the answer ----

  /** The turn is sending a start, or has its answer and has not saved it. */
  predicate Owns(t: Turn) {
    t.phase.InFlight? || (!t.phase.Closed? && t.uow.local.execution != t.uow.baseline.execution)
  }

  ghost predicate OneOwner(w: World) {
    && (forall i :: 0 <= i < |w.turns| && Owns(w.turns[i]) ==>
          Unresolved(w.record.state.execution)
          && w.turns[i].uow.baseline.execution == w.record.state.execution)
    && (forall i, j :: 0 <= i < j < |w.turns| ==> !(Owns(w.turns[i]) && Owns(w.turns[j])))
  }

  predicate Unowned(w: World) {
    forall t :: t in w.turns ==> !Owns(t)
  }

  /** Only the owner changes the stored execution; while nobody owns it, it stays and nothing is sent. */
  predicate Frozen(w: World, v: World) {
    v.record.state.execution == w.record.state.execution && v.log == w.log && Unowned(v)
  }

  /** One turn changed: it owes no more than before, and changes the stored execution only by paying what it owes. */
  lemma OneTurnKeepsOwner(w: World, v: World, i: nat)
    requires OneOwner(w) && i < |w.turns| == |v.turns|
    requires forall x :: 0 <= x < |v.turns| && x != i ==> v.turns[x] == w.turns[x]
    requires Owns(v.turns[i]) ==>
               Owns(w.turns[i]) && v.turns[i].uow.baseline.execution == w.turns[i].uow.baseline.execution
    requires || v.record.state.execution == w.record.state.execution
             || (Owns(w.turns[i]) && !Owns(v.turns[i]))
    ensures OneOwner(v)
    ensures Unowned(w) ==> Unowned(v)
  {
    if Unowned(w) {
      forall t | t in v.turns ensures !Owns(t) {
        var x :| 0 <= x < |v.turns| && v.turns[x] == t;
        assert w.turns[x] in w.turns;
      }
    }
  }

  /** What a flush does to the stored execution, when the turn's copy is not expired. */
  lemma FlushedExecution(t: Turn, r: Record, now: int)
    requires Versioned(t.uow, r) && !Aged(t.uow.local, now)
    requires !t.phase.Closed? && !t.phase.InFlight?
    requires Owns(t) ==> t.uow.baseline.execution == r.state.execution
    ensures var o := FlushOnce(t.uow, r, now);
      && o.record.state.execution == (if o.ok && Owns(t) then t.uow.local.execution else r.state.execution)
      && (o.ok && o.record != r ==> o.uow.local.execution == o.uow.baseline.execution)
  {
  }

  lemma FlushKeepsOwner(w: World, i: nat, now: int)
    requires Inv(w) && OneOwner(w) && Enabled(w, Event.Flush(i, now)) && !Releases(w, Event.Flush(i, now))
    ensures OneOwner(AfterFlush(w, i, now))
    ensures Unowned(w) && Unresolved(w.record.state.execution) ==> Frozen(w, AfterFlush(w, i, now))
  {
    var t, v := w.turns[i], AfterFlush(w, i, now);
    assert t in w.turns && TurnOk(t, w.record, w.minted);
    FlushedExecution(t, w.record, now);
    if FlushOnce(t.uow, w.record, now).ok && v.record != w.record {
      assert !Owns(v.turns[i]);
    }
    OneTurnKeepsOwner(w, v, i);
  }

  lemma ClaimKeepsOwner(w: World, i: nat, now: int)
    requires Inv(w) && OneOwner(w) && Enabled(w, Claim(i, now))
    ensures OneOwner(AfterClaim(w, i, now))
    ensures Unowned(w) && Unresolved(w.record.state.execution) ==> Frozen(w, AfterClaim(w, i, now))
  {
    var v := AfterClaim(w, i, now);
    forall x | 0 <= x < |v.turns| && x != i ensures v.turns[x] == w.turns[x] {
    }
    if v.turns[i].phase.InFlight? {
      assert forall x :: 0 <= x < |w.turns| ==> !Owns(w.turns[x]);
    }
  }

  /** A message, an abandonment, a preparation and a stop touch only their own turn's copy. */
  predicate OnlyOwnCopy(w: World, v: World, i: nat) {
    && i < |w.turns| && |v.turns| == |w.turns|
    && v.record == w.record && v.log == w.log
    && (forall x :: 0 <= x < |w.turns| && x != i ==> v.turns[x] == w.turns[x])
    && v.turns[i].uow.local.execution == w.turns[i].uow.local.execution
    && v.turns[i].uow.baseline == w.turns[i].uow.baseline
    && !w.turns[i].phase.Closed? && !w.turns[i].phase.InFlight?
    && !v.turns[i].phase.Closed? && !v.turns[i].phase.InFlight?
  }

  lemma AnswersKeepTheRest(s: State, m: Message, voice: bool, id: Identity, now: int)
    ensures var after := AnswerPending(s, m, voice, id, now).s;
            && after.active == s.active
            && ((Aged(s, now) && DropStalePending(s, now).pending.None?) || after.execution == s.execution)
  {
  }

  /** A message changes its own turn's copy as `AnswerPending` says, and nothing else but the mints. */
  lemma SayIsItsOwn(w: World, i: nat, m: Message, voice: bool, id: Identity, now: int)
    requires Enabled(w, Say(i, m, voice, id, now))
    ensures var v := AfterSay(w, i, m, voice, id, now);
            && v.record == w.record && v.log == w.log && |v.turns| == |w.turns|
            && (forall x :: 0 <= x < |w.turns| && x != i ==> v.turns[x] == w.turns[x])
            && v.turns[i].uow == w.turns[i].uow.(local := AnswerPending(w.turns[i].uow.local, m, voice, id, now).s)
            && !v.turns[i].phase.Closed? && !v.turns[i].phase.InFlight?
  {
  }

  lemma SayIsLocal(w: World, i: nat, m: Message, voice: bool, id: Identity, now: int)
    requires var e := Say(i, m, voice, id, now); Enabled(w, e) && !Releases(w, e)
    ensures OnlyOwnCopy(w, Next(w, Say(i, m, voice, id, now)), i)
  {
    SayIsItsOwn(w, i, m, voice, id, now);
    AnswersKeepTheRest(w.turns[i].uow.local, m, voice, id, now);
  }

  lemma PrepareIsLocal(
    w: World, i: nat, recipe: Recipe, online: seq<Device>, id: Identity, lang: Option<Lang>, now: int)
    requires var e := AskPrepare(i, recipe, online, id, lang, now); Enabled(w, e) && !Releases(w, e)
    ensures OnlyOwnCopy(w, Next(w, AskPrepare(i, recipe, online, id, lang, now)), i)
  {
  }

  lemma OwnCopyKeepsOwner(w: World, v: World, i: nat)
    requires OneOwner(w) && OnlyOwnCopy(w, v, i)
    ensures OneOwner(v)
    ensures Unowned(w) ==> Frozen(w, v)
  {
    OneTurnKeepsOwner(w, v, i);
  }

  predicate LocalEvent(e: Event) {
    e.Touch? || e.GiveUp? || e.Say? || e.AskPrepare? || e.AskStop?
  }

  lemma LocalEventsAreLocal(w: World, e: Event)
    requires Enabled(w, e) && LocalEvent(e) && !Releases(w, e)
    ensures OnlyOwnCopy(w, Next(w, e), e.turn)
  {
    match e
    case Say(i, m, voice, id, now) => SayIsLocal(w, i, m, voice, id, now);
    case AskPrepare(i, recipe, online, id, lang, now) => PrepareIsLocal(w, i, recipe, online, id, lang, now);
    case _ =>
  }

  /** A return or a crash is an event of an owner. */
  lemma AnswersKeepOwner(w: World, e: Event)
    requires Inv(w) && OneOwner(w) && Enabled(w, e) && (e.Return? || e.Crash?) && !Releases(w, e)
    ensures OneOwner(Next(w, e)) && !Unowned(w)
  {
    assert w.turns[e.turn] in w.turns && Owns(w.turns[e.turn]);
    OneTurnKeepsOwner(w, Next(w, e), e.turn);
  }

  lemma QuietStep(w: World, e: Event)
    requires Inv(w) && OneOwner(w) && !Releases(w, e)
    ensures OneOwner(Next(w, e))
    ensures Unowned(w) && Unresolved(w.record.state.execution) ==> Frozen(w, Next(w, e))
  {
    if Enabled(w, e) {
      if LocalEvent(e) {
        LocalEventsAreLocal(w, e);
        OwnCopyKeepsOwner(w, Next(w, e), e.turn);
      } else if e.Return? || e.Crash? {
        AnswersKeepOwner(w, e);
      } else {
        match e
        case Flush(i, now) => FlushKeepsOwner(w, i, now);
        case Claim(i, now) => ClaimKeepsOwner(w, i, now);
        case _ =>
      }
    }
  }

  lemma QuietInit(w: World, events: seq<Event>)
    requires Quiet(w, events) && events != []
    ensures var init := events[..|events| - 1];
            Quiet(w, init) && !Releases(Run(w, init), events[|events| - 1])
  {
    var init := events[..|events| - 1];
    assert forall k :: 0 <= k < |init| ==> init[..k] == events[..k];
  }

  /** While no stop is confirmed and nothing expires, at most one turn owes an answer, whichever turns race. */
  lemma {:induction false} QuietRunsHaveOneOwner(w: World, events: seq<Event>)
    requires Inv(w) && OneOwner(w) && Quiet(w, events)
    ensures OneOwner(Run(w, events))
    decreases |events|
  {
    if events != [] {
      var init := events[..|events| - 1];
      QuietInit(w, events);
      QuietRunsHaveOneOwner(w, init);
      RunsKeepInv(w, init);
      QuietStep(Run(w, init), events[|events| - 1]);
    }
  }

  /** From any state in which no answer is owed, at most one of the racing turns is ever sending a start. */
  lemma OneStartInFlight(w: World, events: seq<Event>, i: nat, j: nat)
    requires Inv(w) && Unowned(w) && Quiet(w, events)
    requires i < j < |Run(w, events).turns|
    ensures !(Run(w, events).turns[i].phase.InFlight? && Run(w, events).turns[j].phase.InFlight?)
  {
    QuietRunsHaveOneOwner(w, events);
  }

  // ---- unknown is never retried ----

  /**
   * From the moment the stored execution is unresolved and no turn owes it an answer, nothing is sent, whatever
   * turns open, race, confirm, prepare or reset, until the device confirms a stop or the record expires.
   */
  lemma {:induction false} UnknownIsNeverRetried(w: World, events: seq<Event>)
    requires Inv(w) && Unowned(w) && Unresolved(w.record.state.execution) && Quiet(w, events)
    ensures Frozen(w, Run(w, events))
    decreases |events|
  {
    if events != [] {
      var init := events[..|events| - 1];
      QuietInit(w, events);
      UnknownIsNeverRetried(w, init);
      RunsKeepInv(w, init);
      QuietStep(Run(w, init), events[|events| - 1]);
    }
  }

  /** The same of every history of the thread, whatever stops and expiries came before that moment. */
  lemma UnknownIsNeverRetriedInHistory(before: seq<Event>, after: seq<Event>)
    requires var w := Run(INITIAL, before);
             Unowned(w) && Unresolved(w.record.state.execution) && Quiet(w, after)
    ensures Frozen(Run(INITIAL, before), Run(INITIAL, before + after))
  {
    EveryRunKeepsInv(before);
    UnknownIsNeverRetried(Run(INITIAL, before), after);
    RunInParts(INITIAL, before, after);
  }

  /** No running task is known: not to the store, and not to any open turn. */
  predicate Idle(w: World) {
    && w.record.state.active.None?
    && forall t :: t in w.turns && !t.phase.Closed? ==> t.uow.local.active.None? && t.uow.baseline.active.None?
  }

  predicate Unexpired(w: World, events: seq<Event>) {
    forall n :: 0 <= n < |events| ==> !Expires(Run(w, events[..n]), events[n])
  }

  lemma OneTurnStaysIdle(w: World, v: World, i: nat)
    requires Idle(w) && i < |w.turns| == |v.turns| && v.record.state.active.None?
    requires forall x :: 0 <= x < |v.turns| && x != i ==> v.turns[x] == w.turns[x]
    requires v.turns[i].uow.local.active.None? && v.turns[i].uow.baseline.active.None?
    ensures Idle(v)
  {
    forall t | t in v.turns && !t.phase.Closed? ensures t.uow.local.active.None? && t.uow.baseline.active.None? {
      var x :| 0 <= x < |v.turns| && v.turns[x] == t;
      assert x != i ==> w.turns[x] in w.turns;
    }
  }

  lemma FlushStaysIdle(w: World, i: nat, now: int)
    requires Idle(w) && Enabled(w, Event.Flush(i, now))
    ensures Idle(AfterFlush(w, i, now))
  {
    assert w.turns[i] in w.turns;
    var u := w.turns[i].uow;
    assert Settle(u.local, now).active.None?;
    var o := FlushOnce(u, w.record, now);
    assert o.record.state.active.None? && o.uow.local.active.None? && o.uow.baseline.active.None?;
    OneTurnStaysIdle(w, AfterFlush(w, i, now), i);
  }

  lemma AnswersStayIdle(w: World, e: Event)
    requires Idle(w) && Enabled(w, e) && (e.Say? || e.AskPrepare?)
    ensures Idle(Next(w, e))
  {
    assert w.turns[e.turn] in w.turns;
    if e.Say? {
      SayIsItsOwn(w, e.turn, e.m, e.voice, e.minted, e.now);
      AnswersKeepTheRest(w.turns[e.turn].uow.local, e.m, e.voice, e.minted, e.now);
    }
    OneTurnStaysIdle(w, Next(w, e), e.turn);
  }

  lemma ClaimStaysIdle(w: World, i: nat, now: int)
    requires Idle(w) && Enabled(w, Claim(i, now))
    ensures Idle(AfterClaim(w, i, now))
  {
    assert w.turns[i] in w.turns;
    OneTurnStaysIdle(w, AfterClaim(w, i, now), i);
  }

  lemma PlainEventsStayIdle(w: World, e: Event)
    requires Idle(w) && Enabled(w, e) && (e.Touch? || e.Refresh? || e.GiveUp? || e.AskStop? || e.Close?)
    ensures Idle(Next(w, e))
  {
    if w.turns[e.turn].phase.Closed? {
      assert Next(w, e) == w;
    } else {
      assert w.turns[e.turn] in w.turns;
      OneTurnStaysIdle(w, Next(w, e), e.turn);
    }
  }

  /** An unresolved start brings up no running task, and without one a stop has nothing to confirm. */
  lemma IdleStep(w: World, e: Event)
    requires Unowned(w) && Idle(w)
    ensures Idle(Next(w, e)) && !Stops(w, e)
  {
    if Enabled(w, e) {
      match e
      case Open =>
      case ResetThread =>
      case Flush(i, now) => FlushStaysIdle(w, i, now);
      case Claim(i, now) => ClaimStaysIdle(w, i, now);
      case Say(_, _, _, _, _) => AnswersStayIdle(w, e);
      case AskPrepare(_, _, _, _, _, _) => AnswersStayIdle(w, e);
      case _ =>
        assert w.turns[e.turn] in w.turns && !Owns(w.turns[e.turn]);
        PlainEventsStayIdle(w, e);
    }
  }

  lemma UnexpiredInit(w: World, events: seq<Event>)
    requires Unexpired(w, events) && events != []
    ensures var init := events[..|events| - 1];
            Unexpired(w, init) && !Expires(Run(w, init), events[|events| - 1])
  {
    var init := events[..|events| - 1];
    assert forall k :: 0 <= k < |init| ==> init[..k] == events[..k];
  }

  /** With no running task known, stops do not matter either: nothing is sent until the record expires. */
  lemma {:induction false} UnknownOutlivesStops(w: World, events: seq<Event>)
    requires Inv(w) && Unowned(w) && Unresolved(w.record.state.execution) && Idle(w) && Unexpired(w, events)
    ensures Frozen(w, Run(w, events)) && Idle(Run(w, events))
    decreases |events|
  {
    if events != [] {
      var init, e := events[..|events| - 1], events[|events| - 1];
      UnexpiredInit(w, events);
      UnknownOutlivesStops(w, init);
      RunsKeepInv(w, init);
      IdleStep(Run(w, init), e);
      QuietStep(Run(w, init), e);
    }
  }

  // ---- from the answer of the device on ----

  /** The device was asked and is not known to have started: the call was sent, or may have been. */
  predicate LeavesUnknown(attempt: Attempt) {
    ExecuteCook(attempt).sent != No && !ExecuteCook(attempt).ok
  }

  /** The execution of turn `i` is unresolved, under the id it sent, and `i` owes nothing but to save it. */
  predicate RecordedUnknown(w: World, i: nat, a: ActionId, now: int)
    requires i < |w.turns|
  {
    var t := w.turns[i];
    && t.phase == Answered && Unresolved(t.uow.local.execution)
    && t.uow.local.execution.value.start.id.action == a && t.uow.local.execution.value.updatedAt == now
  }

  lemma ReturnRecordsUnknown(w: World, i: nat, attempt: Attempt, now: int)
    requires Inv(w) && Enabled(w, Return(i, attempt, now)) && !Aged(w.turns[i].uow.local, now) && LeavesUnknown(attempt)
    ensures var v, p := AfterReturn(w, i, attempt, now), w.turns[i].phase.start;
      && |v.turns| == |w.turns| && RecordedUnknown(v, i, p.id.action, now)
      && (forall x :: 0 <= x < |w.turns| && x != i ==> v.turns[x] == w.turns[x])
      && v.record == w.record && v.turns[i].uow.baseline == w.turns[i].uow.baseline
      && v.log == w.log + [Dispatch(i, p, ExecuteCook(attempt).sent)]
  {
    var t := w.turns[i];
    assert TurnOk(t, w.record, w.minted);
    AnswerIsRecorded(t.uow.local, t.phase.start, attempt, t.phase.lang, now);
  }

  /** The stored execution is unresolved, under this id. */
  predicate StoredUnknown(r: Record, a: ActionId) {
    Unresolved(r.state.execution) && r.state.execution.value.start.id.action == a
  }

  /** Saved or refused, the store says that the outcome is not known, and the turn owes nothing more. */
  lemma UnknownIsSaved(w: World, i: nat, a: ActionId, now: int, later: int)
    requires i < |w.turns| && TurnOk(w.turns[i], w.record, w.minted) && RecordedUnknown(w, i, a, now)
    requires later - now <= EXECUTION_TTL
    requires StoredUnknown(w.record, a) && w.turns[i].uow.baseline.execution == w.record.state.execution
    ensures var v := AfterFlush(w, i, later);
            StoredUnknown(v.record, a) && !Owns(v.turns[i]) && v.log == w.log
  {
    var u := w.turns[i].uow;
    FlushIsExact(u, w.record, later);
    ExportKeepsStarts(u.local, later);
  }

  lemma OnlyOwner(w: World, v: World, i: nat)
    requires OneOwner(w) && i < |w.turns| == |v.turns| && Owns(w.turns[i]) && !Owns(v.turns[i])
    requires forall x :: 0 <= x < |w.turns| && x != i ==> v.turns[x] == w.turns[x]
    ensures Unowned(v)
  {
    forall t | t in v.turns ensures !Owns(t) {
      var x :| 0 <= x < |v.turns| && v.turns[x] == t;
      assert x != i ==> x < i || i < x;
    }
  }

  /** After the device's answer and the save of it. */
  function AnswerSaved(w: World, i: nat, attempt: Attempt, now: int, later: int): World {
    Next(Next(w, Return(i, attempt, now)), Event.Flush(i, later))
  }

  lemma FlushTouchesOne(w: World, i: nat, now: int)
    requires Enabled(w, Event.Flush(i, now))
    ensures var v := AfterFlush(w, i, now);
            Next(w, Event.Flush(i, now)) == v && |v.turns| == |w.turns|
            && forall x :: 0 <= x < |w.turns| && x != i ==> v.turns[x] == w.turns[x]
  {
  }

  /** A turn in flight is the only one that owes an answer, for the start on record. */
  lemma FlyingOwns(w: World, i: nat)
    requires Inv(w) && OneOwner(w) && i < |w.turns| && w.turns[i].phase.InFlight?
    ensures Owns(w.turns[i]) && StoredUnknown(w.record, w.turns[i].phase.start.id.action)
    ensures w.turns[i].uow.baseline.execution == w.record.state.execution
  {
    assert TurnOk(w.turns[i], w.record, w.minted);
  }

  lemma UnknownAnswerIsStored(w: World, i: nat, attempt: Attempt, now: int, later: int)
    requires Inv(w) && OneOwner(w) && Enabled(w, Return(i, attempt, now)) && !Aged(w.turns[i].uow.local, now)
    requires LeavesUnknown(attempt) && later - now <= EXECUTION_TTL
    ensures var v, p := AnswerSaved(w, i, attempt, now, later), w.turns[i].phase.start;
      && v.log == w.log + [Dispatch(i, p, ExecuteCook(attempt).sent)]
      && StoredUnknown(v.record, p.id.action) && Unowned(v)
  {
    var mid, p := Next(w, Return(i, attempt, now)), w.turns[i].phase.start;
    FlyingOwns(w, i);
    ReturnRecordsUnknown(w, i, attempt, now);
    EveryEventKeepsInv(w, Return(i, attempt, now));
    FlushTouchesOne(mid, i, later);
    UnknownIsSaved(mid, i, p.id.action, now, later);
    OnlyOwner(w, AfterFlush(mid, i, later), i);
  }

  /**
   * An answer that leaves the outcome open is never retried: once it is back and its turn has tried to save it, the
   * store says so, and nothing is sent any more by any turn, until the device confirms a stop or the record expires.
   */
  lemma UnknownAnswerIsNeverRetried(
    w: World, i: nat, attempt: Attempt, now: int, later: int, events: seq<Event>)
    requires Inv(w) && OneOwner(w) && Enabled(w, Return(i, attempt, now)) && !Aged(w.turns[i].uow.local, now)
    requires LeavesUnknown(attempt) && later - now <= EXECUTION_TTL
    requires Quiet(AnswerSaved(w, i, attempt, now, later), events)
    ensures var v := AnswerSaved(w, i, attempt, now, later);
            StoredUnknown(v.record, w.turns[i].phase.start.id.action) && Frozen(v, Run(v, events))
  {
    var v := AnswerSaved(w, i, attempt, now, later);
    UnknownAnswerIsStored(w, i, attempt, now, later);
    EveryEventKeepsInv(w, Return(i, attempt, now));
    EveryEventKeepsInv(Next(w, Return(i, attempt, now)), Event.Flush(i, later));
    UnknownIsNeverRetried(v, events);
  }

  /** Nor is a start whose turn died while it was sending it. */
  lemma CrashIsNeverRetried(w: World, i: nat, sent: Sent, events: seq<Event>)
    requires Inv(w) && OneOwner(w) && Enabled(w, Crash(i, sent)) && Quiet(Next(w, Crash(i, sent)), events)
    ensures var v, p := Next(w, Crash(i, sent)), w.turns[i].phase.start;
            && v.log == w.log + [Dispatch(i, p, sent)] && v.turns[i].phase.Closed?
            && StoredUnknown(v.record, p.id.action) && Frozen(v, Run(v, events))
  {
    var v := Next(w, Crash(i, sent));
    FlyingOwns(w, i);
    OnlyOwner(w, v, i);
    EveryEventKeepsInv(w, Crash(i, sent));
    UnknownIsNeverRetried(v, events);
  }

  /** The turns between any moment at which no answer is owed and the answer, however they race, do not matter. */
  lemma UnknownAnswerInHistory(
    w: World, before: seq<Event>, i: nat, attempt: Attempt, now: int, later: int, events: seq<Event>)
    requires Inv(w) && Unowned(w) && Quiet(w, before)
    requires var m := Run(w, before);
             && Enabled(m, Return(i, attempt, now)) && !Aged(m.turns[i].uow.local, now)
             && Quiet(AnswerSaved(m, i, attempt, now, later), events)
    requires LeavesUnknown(attempt) && later - now <= EXECUTION_TTL
    ensures var v := AnswerSaved(Run(w, before), i, attempt, now, later); Frozen(v, Run(v, events))
  {
    RunsKeepInv(w, before);
    QuietRunsHaveOneOwner(w, before);
    UnknownAnswerIsNeverRetried(Run(w, before), i, attempt, now, later, events);
  }
}
