/**
 * A start that was taken down is gone: once a cancel is saved, no command with its id follows, whatever turns open,
 * race, confirm or prepare afterwards.
 */
module StartCancelled {
  import opened Options
  import opened DeviceCommand
  import opened TaskState
  import opened TaskAnswers
  import opened TaskStateRepository
  import opened StartProtocol
  import opened StartOrder
  import opened StartUnknown

  /** The id was given out, and neither the store nor any turn can send it any more. */
  ghost predicate Gone(w: World, a: ActionId) {
    a in w.minted && !Stored(w.record, a) && forall x :: 0 <= x < |w.turns| ==> !Holds(w.turns[x], a)
  }

  /** The log of `v` goes on from that of `w` without a command under the id. */
  predicate NoMoreOf(w: World, v: World, a: ActionId) {
    w.log <= v.log && forall k :: |w.log| <= k < |v.log| ==> v.log[k].start.id.action != a
  }

  lemma OneTurnStaysGone(w: World, v: World, i: nat, a: ActionId)
    requires Gone(w, a) && a in v.minted && !Stored(v.record, a) && i < |w.turns| == |v.turns|
    requires forall x :: 0 <= x < |v.turns| && x != i ==> v.turns[x] == w.turns[x]
    requires !Holds(v.turns[i], a)
    ensures Gone(v, a)
  {
  }

  lemma FlushStaysGone(w: World, i: nat, now: int, a: ActionId)
    requires Inv(w) && Gone(w, a) && Enabled(w, Event.Flush(i, now))
    ensures Gone(AfterFlush(w, i, now), a)
  {
    var t, v := w.turns[i], AfterFlush(w, i, now);
    assert TurnOk(t, w.record, w.minted);
    var o := FlushOnce(t.uow, w.record, now);
    if o.ok && o.record != w.record {
      FlushedPending(t.uow, w.record, now);
    }
    OneTurnStaysGone(w, v, i, a);
  }

  lemma ClaimStaysGone(w: World, i: nat, now: int, a: ActionId)
    requires Inv(w) && Gone(w, a) && Enabled(w, Claim(i, now))
    ensures Gone(AfterClaim(w, i, now), a)
  {
    PayloadIsExact(w.turns[i].uow, w.record, w.turns[i].phase.expected, now);
    ClaimIsExact(w.record, w.turns[i].phase.expected, now);
    OneTurnStaysGone(w, AfterClaim(w, i, now), i, a);
  }

  lemma AnswersPutUpNew(s: State, m: Message, voice: bool, id: Identity, now: int)
    ensures var p := AnswerPending(s, m, voice, id, now).s.pending;
            p.None? || p == s.pending || p.value.id == id
  {
  }

  lemma SayStaysGone(w: World, i: nat, m: Message, voice: bool, id: Identity, now: int, a: ActionId)
    requires Inv(w) && Gone(w, a) && Enabled(w, Say(i, m, voice, id, now))
    ensures Gone(AfterSay(w, i, m, voice, id, now), a)
  {
    SayIsItsOwn(w, i, m, voice, id, now);
    AnswersPutUpNew(w.turns[i].uow.local, m, voice, id, now);
    OneTurnStaysGone(w, AfterSay(w, i, m, voice, id, now), i, a);
  }

  lemma PrepareStaysGone(w: World, e: Event, a: ActionId)
    requires Gone(w, a) && Enabled(w, e) && e.AskPrepare?
    ensures Gone(Next(w, e), a)
  {
    OneTurnStaysGone(w, Next(w, e), e.turn, a);
  }

  lemma ReturnStaysGone(w: World, i: nat, attempt: Attempt, now: int, a: ActionId)
    requires Inv(w) && Gone(w, a) && Enabled(w, Return(i, attempt, now))
    ensures Gone(AfterReturn(w, i, attempt, now), a)
  {
    var t := w.turns[i];
    AnswerRearms(t.uow.local, t.phase.start, attempt, t.phase.lang, now);
    OneTurnStaysGone(w, AfterReturn(w, i, attempt, now), i, a);
  }

  lemma PlainEventsStayGone(w: World, e: Event, a: ActionId)
    requires Gone(w, a) && Enabled(w, e) && (e.Touch? || e.Refresh? || e.GiveUp? || e.AskStop? || e.Close? || e.Crash?)
    ensures Gone(Next(w, e), a)
  {
    OneTurnStaysGone(w, Next(w, e), e.turn, a);
  }

  lemma EventStaysGone(w: World, e: Event, a: ActionId)
    requires Inv(w) && Gone(w, a)
    ensures Gone(Next(w, e), a) && NoMoreOf(w, Next(w, e), a)
  {
    OnlyClaimedStartsAreSent(w, e);
    if Enabled(w, e) {
      match e
      case Open =>
      case ResetThread =>
      case Flush(i, now) => FlushStaysGone(w, i, now, a);
      case Claim(i, now) => ClaimStaysGone(w, i, now, a);
      case Say(i, m, voice, id, now) => SayStaysGone(w, i, m, voice, id, now, a);
      case AskPrepare(_, _, _, _, _, _) => PrepareStaysGone(w, e, a);
      case Return(i, attempt, now) => ReturnStaysGone(w, i, attempt, now, a);
      case _ => PlainEventsStayGone(w, e, a);
    }
  }

  /** An id that is nowhere is never sent, in any continuation. */
  lemma {:induction false} GoneIsForever(w: World, events: seq<Event>, a: ActionId)
    requires Inv(w) && Gone(w, a)
    ensures Gone(Run(w, events), a) && NoMoreOf(w, Run(w, events), a)
    decreases |events|
  {
    if events != [] {
      var v := Run(w, events[..|events| - 1]);
      GoneIsForever(w, events[..|events| - 1], a);
      RunsKeepInv(w, events[..|events| - 1]);
      EventStaysGone(v, events[|events| - 1], a);
    }
  }

  /** A turn hears a cancel, a stop, a request for details or that the user gives up, while the start `a` waits. */
  predicate Cancels(w: World, e: Event, a: ActionId) {
    && (e.GiveUp? || (e.Say? && (e.m.cancelOrStop || e.m.detail)))
    && Enabled(w, e) && Waits(w.turns[e.turn].uow.local, e.now)
    && w.turns[e.turn].uow.local.pending.value.id.action == a
  }

  lemma CancelledLocally(w: World, e: Event, a: ActionId)
    requires Inv(w) && Cancels(w, e, a)
    ensures var v := Next(w, e);
      && v.record == w.record && v.log == w.log && |v.turns| == |w.turns| && a in v.minted
      && (forall x :: 0 <= x < |w.turns| && x != e.turn ==> v.turns[x] == w.turns[x])
      && v.turns[e.turn].phase == Answered && v.turns[e.turn].uow.local.pending.None?
      && v.turns[e.turn].uow == w.turns[e.turn].uow.(local := v.turns[e.turn].uow.local)
  {
    var t := w.turns[e.turn];
    assert TurnOk(t, w.record, w.minted);
    if e.Say? {
      CancelTakesDown(t.uow.local, e.m, e.voice, e.minted, e.now);
    } else {
      GivingUpTakesDown(t.uow.local, e.now);
    }
  }

  /** Saving a copy without the start takes it from the store. */
  lemma SaveTakesDown(u: Uow, p: Pending, r: Record, now: int)
    requires Versioned(u, r) && u.local.pending.None? && FlushOnce(u, r, now).ok
    requires u.baseline.pending == Some(p) || r.state.pending.None? || r.state.pending.value.id.action != p.id.action
    ensures !Stored(FlushOnce(u, r, now).record, p.id.action)
    ensures FlushOnce(u, r, now).uow.local.pending == FlushOnce(u, r, now).uow.baseline.pending
            || FlushOnce(u, r, now).uow.local.pending.None?
  {
    FlushIsExact(u, r, now);
    ExportKeepsStarts(u.local, now);
  }

  /** After the cancel and the save that follows it. */
  function CancelSaved(w: World, e: Event, later: int): World
    requires e.Say? || e.GiveUp?
  {
    Next(Next(w, e), Event.Flush(e.turn, later))
  }

  /** The save is not refused. */
  predicate SavesCancel(w: World, e: Event, later: int)
    requires e.Say? || e.GiveUp?
  {
    var v := CancelSaved(w, e, later);
    e.turn < |v.turns| && !v.turns[e.turn].phase.Closed?
  }

  lemma TurnsStay(w: World, e: Event, later: int, a: ActionId)
    requires Inv(w) && Cancels(w, e, a)
    ensures |CancelSaved(w, e, later).turns| == |w.turns| && CancelSaved(w, e, later).log == w.log
  {
    CancelledLocally(w, e, a);
  }

  lemma SaveIs(w: World, i: nat, later: int)
    requires i < |w.turns| && w.turns[i].phase == Answered && !AfterFlush(w, i, later).turns[i].phase.Closed?
    ensures var o := FlushOnce(w.turns[i].uow, w.record, later);
            o.ok && AfterFlush(w, i, later) == SetTurn(w.(record := o.record), i, Turn(o.uow, Answered))
  {
  }

  lemma SaveLeavesGone(w: World, i: nat, p: Pending, later: int)
    requires i < |w.turns| && w.turns[i].phase == Answered && Versioned(w.turns[i].uow, w.record)
    requires w.turns[i].uow.local.pending.None? && p.id.action in w.minted
    requires w.turns[i].uow.baseline.pending == Some(p) || !Stored(w.record, p.id.action)
    requires forall x :: 0 <= x < |w.turns| && x != i ==> !Holds(w.turns[x], p.id.action)
    requires !AfterFlush(w, i, later).turns[i].phase.Closed?
    ensures Gone(AfterFlush(w, i, later), p.id.action)
  {
    SaveIs(w, i, later);
    SaveTakesDown(w.turns[i].uow, p, w.record, later);
  }

  lemma CancelAndSave(w: World, e: Event, later: int, a: ActionId)
    requires Inv(w) && Cancels(w, e, a) && SavesCancel(w, e, later)
    requires forall x :: 0 <= x < |w.turns| && x != e.turn ==> !Holds(w.turns[x], a)
    ensures Gone(CancelSaved(w, e, later), a)
  {
    var v, t := Next(w, e), w.turns[e.turn];
    var p := t.uow.local.pending.value;
    assert TurnOk(t, w.record, w.minted);
    CancelledLocally(w, e, a);
    assert Holds(t, a) || t.uow.baseline.pending == Some(p);
    SaveLeavesGone(v, e.turn, p, later);
  }

  /**
   * A cancel that is saved is final: unless another turn had taken the start already, no command with its id is
   * ever logged again.
   */
  lemma CancelIsFinal(w: World, e: Event, later: int, a: ActionId, events: seq<Event>)
    requires Inv(w) && Cancels(w, e, a) && SavesCancel(w, e, later)
    requires forall x :: 0 <= x < |w.turns| && x != e.turn ==> !Holds(w.turns[x], a)
    ensures NoMoreOf(w, Run(CancelSaved(w, e, later), events), a)
  {
    TurnsStay(w, e, later, a);
    CancelAndSave(w, e, later, a);
    EveryEventKeepsInv(w, e);
    EveryEventKeepsInv(Next(w, e), Event.Flush(e.turn, later));
    GoneIsForever(CancelSaved(w, e, later), events, a);
  }

  /** With one turn at a time no other turn can have taken it. */
  lemma SerialCancelIsFinal(before: seq<Event>, e: Event, later: int, a: ActionId, events: seq<Event>)
    requires Serial(before)
    requires var w := Run(INITIAL, before);
             Cancels(w, e, a) && SavesCancel(w, e, later)
    ensures NoMoreOf(Run(INITIAL, before), Run(CancelSaved(Run(INITIAL, before), e, later), events), a)
  {
    EveryRunKeepsInv(before);
    SerialRuns(before);
    CancelIsFinal(Run(INITIAL, before), e, later, a, events);
  }

  // ---- a reset forgets what waits ----

  /** A start put up before the last reset, and not being sent. */
  predicate Outdated(w: World, a: ActionId) {
    && a in w.minted && w.minted[a].generation < w.record.generation
    && forall t :: t in w.turns && t.phase.InFlight? ==> t.phase.start.id.action != a
  }

  lemma OutdatedIsNotStored(w: World, a: ActionId)
    requires Inv(w) && Outdated(w, a)
    ensures !Stored(w.record, a)
  {
  }

  lemma FlyersOf(w: World, e: Event)
    requires Inv(w) && !e.Claim?
    ensures forall t :: t in Next(w, e).turns && t.phase.InFlight? ==>
              exists x :: 0 <= x < |w.turns| && w.turns[x].phase == t.phase
  {
    var v := Next(w, e);
    forall t | t in v.turns && t.phase.InFlight? ensures exists x :: 0 <= x < |w.turns| && w.turns[x].phase == t.phase {
      var x :| 0 <= x < |v.turns| && v.turns[x] == t;
      OthersTakeNothingOff(w, e, x);
      FlyersStay(w, e, x);
    }
  }

  lemma FlyersStay(w: World, e: Event, x: nat)
    requires !e.Claim? && x < |w.turns| && x < |Next(w, e).turns|
    requires w.turns[x].phase.InFlight? && Next(w, e).turns[x].phase.InFlight?
    ensures Next(w, e).turns[x].phase == w.turns[x].phase
  {
  }

  lemma GenerationRises(w: World, e: Event)
    ensures Next(w, e).record.generation >= w.record.generation
  {
  }

  lemma MintsStay(w: World, e: Event, a: ActionId)
    requires Inv(w) && a in w.minted
    ensures a in Next(w, e).minted && Next(w, e).minted[a] == w.minted[a]
    ensures Next(w, e).record.generation >= w.record.generation
  {
    GenerationRises(w, e);
  }

  lemma OutdatedStays(w: World, e: Event, a: ActionId)
    requires Inv(w) && Outdated(w, a)
    ensures Outdated(Next(w, e), a) && NoMoreOf(w, Next(w, e), a)
  {
    MintsStay(w, e, a);
    OutdatedIsNotStored(w, a);
    OnlyClaimedStartsAreSent(w, e);
    if (e.Return? || e.Crash?) && e.turn < |w.turns| && w.turns[e.turn].phase.InFlight? {
      assert w.turns[e.turn] in w.turns;
    }
    if e.Claim? && Enabled(w, e) {
      ClaimOfOther(w, e.turn, e.now, a);
    } else if e.Claim? {
      assert Next(w, e) == w;
    } else {
      FlyersOf(w, e);
      forall t | t in Next(w, e).turns && t.phase.InFlight? ensures t.phase.start.id.action != a {
        var x :| 0 <= x < |w.turns| && w.turns[x].phase == t.phase;
        assert w.turns[x] in w.turns;
      }
    }
  }

  lemma ClaimOfOther(w: World, i: nat, now: int, a: ActionId)
    requires Inv(w) && Outdated(w, a) && !Stored(w.record, a) && Enabled(w, Claim(i, now))
    ensures forall t :: t in AfterClaim(w, i, now).turns && t.phase.InFlight? ==> t.phase.start.id.action != a
  {
    var v := AfterClaim(w, i, now);
    PayloadIsExact(w.turns[i].uow, w.record, w.turns[i].phase.expected, now);
    ClaimIsExact(w.record, w.turns[i].phase.expected, now);
    forall t | t in v.turns && t.phase.InFlight? ensures t.phase.start.id.action != a {
      var x :| 0 <= x < |v.turns| && v.turns[x] == t;
      assert x != i ==> w.turns[x] in w.turns;
    }
  }

  lemma {:induction false} OutdatedIsForever(w: World, events: seq<Event>, a: ActionId)
    requires Inv(w) && Outdated(w, a)
    ensures Outdated(Run(w, events), a) && NoMoreOf(w, Run(w, events), a)
    decreases |events|
  {
    if events != [] {
      OutdatedIsForever(w, events[..|events| - 1], a);
      RunsKeepInv(w, events[..|events| - 1]);
      OutdatedStays(Run(w, events[..|events| - 1]), events[|events| - 1], a);
    }
  }

  /** After a reset nothing that was put up before is sent, in no turn, but for what is being sent already. */
  lemma ResetForgetsStarts(w: World, a: ActionId, events: seq<Event>)
    requires Inv(w) && a in w.minted
    requires forall t :: t in w.turns && t.phase.InFlight? ==> t.phase.start.id.action != a
    ensures NoMoreOf(w, Run(Next(w, ResetThread), events), a)
  {
    assert MintOk(w, a);
    ResetIsExact(w.record, Opened(w.record), 0);
    EveryEventKeepsInv(w, ResetThread);
    OutdatedIsForever(Next(w, ResetThread), events, a);
  }
}
