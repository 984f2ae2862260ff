/**
 * What racing turns break: a start can come to wait beside a start in flight. Exactly which saves do this, and a
 * run of ordinary turns that does.
 */
module StartRaces {
  import opened Languages
  import opened Options
  import opened TaskState
  import opened TaskStateRepository
  import opened StartProtocol
  import opened StartOrder

  // ---- the saves that break it ----

  /** No start waits beside an unresolved one: not in the store, and not in any open turn. */
  ghost predicate AllExclusive(w: World) {
    && Exclusive(w.record.state)
    && forall i :: 0 <= i < |w.turns| && !w.turns[i].phase.Closed? ==>
         Exclusive(w.turns[i].uow.local) && Exclusive(w.turns[i].uow.baseline)
  }

  /** One side brings a new start and keeps the execution it read, while the other side's execution is unresolved. */
  predicate BringsBeside(base: State, one: State, other: State) {
    one.pending.Some? && one.pending != base.pending && one.execution == base.execution && Unresolved(other.execution)
  }

  /** A save that has to be merged with the saves of others, in which one side's start meets the other's execution. */
  predicate CollidingSave(u: Uow, r: Record, after: State) {
    && after != u.baseline && u.generation == r.generation && u.revision != r.revision
    && Merge(u.baseline, after, r.state).Some?
    && (BringsBeside(u.baseline, after, r.state) || BringsBeside(u.baseline, r.state, after))
  }

  predicate Collides(w: World, e: Event) {
    e.Flush? && Enabled(w, e) && CollidingSave(w.turns[e.turn].uow, w.record, Settle(w.turns[e.turn].uow.local, e.now))
  }

  lemma OneTurnStaysExclusive(w: World, v: World, i: nat)
    requires AllExclusive(w) && i < |w.turns| == |v.turns|
    requires forall x :: 0 <= x < |v.turns| && x != i ==> v.turns[x] == w.turns[x]
    requires Exclusive(v.record.state)
    requires !v.turns[i].phase.Closed? ==> Exclusive(v.turns[i].uow.local) && Exclusive(v.turns[i].uow.baseline)
    ensures AllExclusive(v)
  {
  }

  lemma FlushOnceExclusiveIff(u: Uow, r: Record, now: int)
    requires Exclusive(u.local) && Exclusive(u.baseline) && Exclusive(r.state) && Versioned(u, r)
    ensures var after, o := Settle(u.local, now), FlushOnce(u, r, now);
            && (Exclusive(o.record.state) <==> !CollidingSave(u, r, after))
            && (Exclusive(o.record.state) ==> Exclusive(o.uow.local) && Exclusive(o.uow.baseline))
  {
    var after := Settle(u.local, now);
    SettleKeepsExclusive(u.local, now);
    if Merge(u.baseline, after, r.state).Some? {
      MergeExclusiveIff(u.baseline, after, r.state);
    }
  }

  lemma FlushExclusiveIff(w: World, e: Event)
    requires Inv(w) && AllExclusive(w) && Enabled(w, e) && e.Flush?
    ensures AllExclusive(Next(w, e)) <==> !Collides(w, e)
  {
    var t, v := w.turns[e.turn], Next(w, e);
    assert TurnOk(t, w.record, w.minted);
    FlushOnceExclusiveIff(t.uow, w.record, e.now);
    assert forall x :: 0 <= x < |v.turns| && x != e.turn ==> v.turns[x] == w.turns[x];
    if Exclusive(v.record.state) {
      OneTurnStaysExclusive(w, v, e.turn);
    }
  }

  lemma AnswersStayExclusive(w: World, e: Event)
    requires Inv(w) && AllExclusive(w) && Enabled(w, e) && (e.Say? || e.AskPrepare?)
    ensures AllExclusive(Next(w, e))
  {
    var s := w.turns[e.turn].uow.local;
    if e.Say? {
      AnswerKeepsExclusive(s, e.m, e.voice, e.minted, e.now);
    } else {
      PrepareKeepsExclusive(s, e.recipe, e.online, e.minted, e.lang, e.now);
    }
    OneTurnStaysExclusive(w, Next(w, e), e.turn);
  }

  lemma StartsStayExclusive(w: World, e: Event)
    requires Inv(w) && AllExclusive(w) && Enabled(w, e) && (e.Claim? || e.Return? || e.Crash?)
    ensures AllExclusive(Next(w, e))
  {
    var t := w.turns[e.turn];
    assert TurnOk(t, w.record, w.minted);
    if e.Return? {
      FinishKeepsExclusive(t.uow.local, t.phase.start, e.attempt, t.phase.lang, e.now);
    }
    OneTurnStaysExclusive(w, Next(w, e), e.turn);
  }

  lemma PlainEventsStayExclusive(w: World, e: Event)
    requires AllExclusive(w) && Enabled(w, e) && (e.Touch? || e.Refresh? || e.GiveUp? || e.AskStop? || e.Close?)
    ensures AllExclusive(Next(w, e))
  {
    OneTurnStaysExclusive(w, Next(w, e), e.turn);
  }

  /** Of all events of racing turns, exactly such a save loses the exclusion. */
  lemma EventKeepsExclusiveIff(w: World, e: Event)
    requires Inv(w) && AllExclusive(w)
    ensures AllExclusive(Next(w, e)) <==> !Collides(w, e)
  {
    if Enabled(w, e) {
      if e.Flush? {
        FlushExclusiveIff(w, e);
      } else if e.Say? || e.AskPrepare? {
        AnswersStayExclusive(w, e);
      } else if e.Claim? || e.Return? || e.Crash? {
        StartsStayExclusive(w, e);
      } else if !e.Open? && !e.ResetThread? {
        PlainEventsStayExclusive(w, e);
      }
    }
  }

  ghost predicate ExclusiveThroughout(w: World, events: seq<Event>) {
    forall n :: 0 <= n <= |events| ==> AllExclusive(Run(w, events[..n]))
  }

  predicate Collisionless(w: World, events: seq<Event>) {
    forall n :: 0 <= n < |events| ==> !Collides(Run(w, events[..n]), events[n])
  }

  lemma ExclusiveOneMore(w: World, init: seq<Event>, e: Event)
    ensures ExclusiveThroughout(w, init + [e]) <==> ExclusiveThroughout(w, init) && AllExclusive(Run(w, init + [e]))
  {
    var events := init + [e];
    assert forall n :: 0 <= n <= |init| ==> events[..n] == init[..n];
    assert events[..|events|] == events;
  }

  lemma CollisionlessOneMore(w: World, init: seq<Event>, e: Event)
    ensures Collisionless(w, init + [e]) <==> Collisionless(w, init) && !Collides(Run(w, init), e)
  {
    var events := init + [e];
    assert forall n :: 0 <= n <= |init| ==> events[..n] == init[..n];
    assert init[..|init|] == init;
  }

  /** A run of racing turns keeps the exclusion throughout exactly when no save in it is such a save. */
  lemma {:induction false} RunsStayExclusiveIff(w: World, events: seq<Event>)
    requires Inv(w) && AllExclusive(w)
    ensures ExclusiveThroughout(w, events) <==> Collisionless(w, events)
    decreases |events|
  {
    if events != [] {
      var k := |events| - 1;
      var init, e := events[..k], events[k];
      assert events == init + [e];
      ExclusiveOneMore(w, init, e);
      CollisionlessOneMore(w, init, e);
      RunsStayExclusiveIff(w, init);
      RunsKeepInv(w, init);
      var v := Run(w, init);
      assert init[..|init|] == init;
      assert ExclusiveThroughout(w, init) ==> AllExclusive(v);
      if AllExclusive(v) {
        EventKeepsExclusiveIff(v, e);
      }
    }
  }

  // ---- a race that loses it ----

  const RECIPE := Recipe("r1", "soup")
  const POT := Device("d1", "pot")
  const FIRST := Pending("r1", "soup", Some("d1"), [], Identity(1, 11), Some(Zh), 100)
  const CHAT := Message(false, false, false, None)
  const CONFIRM := Message(true, false, false, None)
  const CHOOSE := PendingAction(OtherKind("select_recipe"), "", "", None, 10)

  /** After a search whose answer has been followed by a web reference: candidates, and nothing to do next. */
  const SHOWN := EMPTY.(rest := map["candidate_recipes" := "first"])
  /** Prepared from them: selection, focus, device action and waiting start. */
  const PROMPTED := Prompted(Identity(1, 11), 100)
  /** A new search: other candidates, the choice among them next, no selection or focus; the start still waits. */
  const SEARCHED := PROMPTED.(
    selected := None, focus := None, action := Some(CHOOSE.(ts := 110)), rest := map["candidate_recipes" := "second"])
  /** A web reference clears the next action only. */
  const REFERRED := SEARCHED.(action := None)
  /** The start is claimed: its dispatching execution stands alone. */
  const CLAIMED := REFERRED.(pending := None, execution := Some(DispatchingFrom(FIRST, 120)))
  const LATE := Prompted(Identity(2, 12), 140)

  /** A turn that leaves the given state. */
  function Saving(turn: nat, s: State, now: int): seq<Event> {
    [Open, Touch(turn, s), Event.Flush(turn, now)]
  }

  lemma RunOfTwo(w: World, a: Event, b: Event)
    ensures Run(w, [a]) == Next(w, a)
    ensures Run(w, [a, b]) == Next(Next(w, a), b)
  {
    assert [a, b][..1] == [a] && [a][..0] == [];
    assert Run(w, [a]) == Next(Run(w, []), a);
  }

  lemma ThreeEvents(w: World, a: Event, b: Event, c: Event)
    ensures Run(w, [a, b, c]) == Next(Next(Next(w, a), b), c)
  {
    assert [a, b, c][..2] == [a, b];
    RunOfTwo(w, a, b);
  }

  lemma FirstSave(r: Record, s: State, now: int)
    requires Settle(s, now) == s != r.state
    ensures var v := Record(s, r.revision + 1, r.generation);
            FlushOnce(Opened(r).(local := s), r, now) == FlushOutcome(true, v, Opened(v))
  {
  }

  lemma SaveIsStored(w: World, i: nat, s: State, now: int)
    requires i < |w.turns| && w.turns[i] == Turn(Opened(w.record).(local := s), Listening)
    requires Settle(s, now) == s != w.record.state
    ensures var v := Record(s, w.record.revision + 1, w.record.generation);
            Next(w, Event.Flush(i, now)) == SetTurn(w.(record := v), i, Turn(Opened(v), Listening))
  {
    FirstSave(w.record, s, now);
  }

  lemma OpenedTurn(w: World, s: State)
    requires OtherHandlerMay(w.record.state, s)
    ensures Next(Next(w, Open), Touch(|w.turns|, s))
         == w.(turns := w.turns + [Turn(Opened(w.record).(local := s), Listening)])
  {
  }

  lemma SavedTurn(w: World, s: State, now: int)
    requires OtherHandlerMay(w.record.state, s) && Settle(s, now) == s != w.record.state
    ensures var v := Run(w, Saving(|w.turns|, s, now));
            v.record == Record(s, w.record.revision + 1, w.record.generation)
            && v.turns == w.turns + [Turn(Opened(v.record), Listening)] && v.minted == w.minted && v.log == w.log
  {
    var n := |w.turns|;
    ThreeEvents(w, Open, Touch(n, s), Event.Flush(n, now));
    OpenedTurn(w, s);
    SaveIsStored(Next(Next(w, Open), Touch(n, s)), n, s, now);
  }

  /** Open, an unrelated message, a preparation with one device, and the save. */
  function Preparing(turn: nat, id: Identity, now: int): seq<Event> {
    [Say(turn, CHAT, false, Identity(9, 9), now), AskPrepare(turn, RECIPE, [POT], id, Some(Zh), now),
     Event.Flush(turn, now)]
  }

  lemma ChatIsLeftToOthers(w: World, i: nat, now: int)
    requires i < |w.turns| && w.turns[i].phase.Listening? && w.turns[i].uow.local == SHOWN && 9 !in w.minted
    ensures Next(w, Say(i, CHAT, false, Identity(9, 9), now)) == SetTurn(w, i, Turn(w.turns[i].uow, Working))
  {
    assert AnswerPending(SHOWN, CHAT, false, Identity(9, 9), now) == NotHandled(SHOWN);
  }

  /** The copy of a turn that prepares the recipe from what is shown. */
  function Prompted(id: Identity, now: int): State {
    SetPending(Select(SHOWN, RECIPE, now), Pending("r1", "soup", Some("d1"), [], id, Some(Zh), now))
  }

  lemma RecipeIsPrepared(w: World, i: nat, id: Identity, now: int)
    requires i < |w.turns| && w.turns[i].phase.Working? && w.turns[i].uow.local == SHOWN && id.action !in w.minted
    ensures var v := Next(w, AskPrepare(i, RECIPE, [POT], id, Some(Zh), now));
            && v.record == w.record && v.minted.Keys == w.minted.Keys + {id.action}
            && v.turns == w.turns[i := Turn(w.turns[i].uow.(local := Prompted(id, now)), Working)]
  {
    assert Prepare(SHOWN, RECIPE, [POT], id, Some(Zh), now) == Prompted(id, now);
  }

  lemma FlushIsItsOwn(w: World, i: nat, now: int)
    requires i < |w.turns| && w.turns[i].phase.Working?
    ensures var v := Next(w, Event.Flush(i, now));
            && v.record == FlushOnce(w.turns[i].uow, w.record, now).record && v.minted == w.minted
            && |v.turns| == |w.turns| && (forall x :: 0 <= x < |w.turns| && x != i ==> v.turns[x] == w.turns[x])
  {
  }

  lemma PreparedTurn(w: World, i: nat, id: Identity, now: int)
    requires i < |w.turns| && w.turns[i].phase.Listening? && w.turns[i].uow.local == SHOWN
    requires 9 !in w.minted && id.action !in w.minted
    ensures var v := Run(w, Preparing(i, id, now));
            && v.record == FlushOnce(w.turns[i].uow.(local := Prompted(id, now)), w.record, now).record
            && |v.turns| == |w.turns| && (forall x :: 0 <= x < |w.turns| && x != i ==> v.turns[x] == w.turns[x])
            && v.minted.Keys == w.minted.Keys + {id.action}
  {
    var say, prepare := Say(i, CHAT, false, Identity(9, 9), now), AskPrepare(i, RECIPE, [POT], id, Some(Zh), now);
    ThreeEvents(w, say, prepare, Event.Flush(i, now));
    ChatIsLeftToOthers(w, i, now);
    RecipeIsPrepared(Next(w, say), i, id, now);
    FlushIsItsOwn(Next(Next(w, say), prepare), i, now);
  }

  /** Open, a plain confirmation, the save before the claim, and the claim. */
  function ConfirmingTurn(turn: nat, now: int): seq<Event> {
    [Say(turn, CONFIRM, false, Identity(9, 9), now), Event.Flush(turn, now), Claim(turn, now)]
  }

  lemma ClaimSucceeds(w: World, i: nat)
    requires i < |w.turns| && w.turns[i] == Turn(Opened(w.record), Confirming(1, Some(Zh), true))
    requires w.record.state == REFERRED
    ensures Next(w, Claim(i, 120)).record == Record(CLAIMED, w.record.revision + 1, w.record.generation)
  {
    assert ClaimStatusOf(REFERRED, 1, 120) == Claimed;
    assert ClaimRecord(w.record, 1, 120).state == CLAIMED;
  }

  lemma ConfirmationIsSaved(w: World, i: nat)
    requires i < |w.turns| && w.turns[i] == Turn(Opened(w.record), Confirming(1, Some(Zh), false))
    requires w.record.state == REFERRED
    ensures Next(w, Event.Flush(i, 120)) == SetTurn(w, i, Turn(Opened(w.record), Confirming(1, Some(Zh), true)))
  {
    assert Settle(REFERRED, 120) == REFERRED;
  }

  lemma ConfirmationIsHeard(w: World, i: nat)
    requires i < |w.turns| && w.turns[i] == Turn(Opened(w.record), Listening)
    requires w.record.state == REFERRED && 9 !in w.minted
    ensures Next(w, Say(i, CONFIRM, false, Identity(9, 9), 120))
         == SetTurn(w, i, Turn(Opened(w.record), Confirming(1, Some(Zh), false)))
  {
    assert AnswerPending(REFERRED, CONFIRM, false, Identity(9, 9), 120) == Claiming(REFERRED, FIRST);
  }

  lemma ConfirmedTurn(w: World, i: nat)
    requires i < |w.turns| && w.turns[i] == Turn(Opened(w.record), Listening)
    requires w.record.state == REFERRED && 9 !in w.minted
    ensures var v := Run(w, ConfirmingTurn(i, 120));
            && v.record == Record(CLAIMED, w.record.revision + 1, w.record.generation)
            && |v.turns| == |w.turns| && (forall x :: 0 <= x < |w.turns| && x != i ==> v.turns[x] == w.turns[x])
            && v.minted == w.minted
  {
    var say, save, claim := Say(i, CONFIRM, false, Identity(9, 9), 120), Event.Flush(i, 120), Claim(i, 120);
    ThreeEvents(w, say, save, claim);
    ConfirmationIsHeard(w, i);
    ConfirmationIsSaved(Next(w, say), i);
    ClaimSucceeds(Next(Next(w, say), save), i);
  }

  /** Two turns open on the same state; one of them lags behind. */
  const BEFORE := Saving(0, SHOWN.(action := Some(CHOOSE)), 10) + Saving(1, SHOWN, 20) + [Open, Open]
  const AMID := Saving(4, SEARCHED, 110) + Saving(5, REFERRED, 115) + [Open]
  const RACE :=
    BEFORE + Preparing(3, Identity(1, 11), 100) + AMID + ConfirmingTurn(6, 120) + Preparing(2, Identity(2, 12), 140)

  lemma RaceOpens()
    ensures Run(INITIAL, BEFORE).record == Record(SHOWN, 2, 0)
    ensures var w := Run(INITIAL, BEFORE);
            |w.turns| == 4 && w.minted == map[]
            && w.turns[2] == Turn(Opened(w.record), Listening) && w.turns[3] == w.turns[2]
  {
    var first, second := Saving(0, SHOWN.(action := Some(CHOOSE)), 10), Saving(1, SHOWN, 20);
    RunInParts(INITIAL, first + second, [Open, Open]);
    RunInParts(INITIAL, first, second);
    SavedTurn(INITIAL, SHOWN.(action := Some(CHOOSE)), 10);
    SavedTurn(Run(INITIAL, first), SHOWN, 20);
    RunOfTwo(Run(INITIAL, first + second), Open, Open);
  }

  lemma RacePrompts()
    ensures var w := Run(INITIAL, BEFORE + Preparing(3, Identity(1, 11), 100));
            && w.record == Record(PROMPTED, 3, 0) && |w.turns| == 4 && w.minted.Keys == {1}
            && w.turns[2] == Turn(Opened(Record(SHOWN, 2, 0)), Listening)
  {
    var w := Run(INITIAL, BEFORE);
    RunInParts(INITIAL, BEFORE, Preparing(3, Identity(1, 11), 100));
    RaceOpens();
    PreparedTurn(w, 3, Identity(1, 11), 100);
    FirstSave(w.record, PROMPTED, 100);
  }

  lemma StartIsKept()
    ensures OtherHandlerMay(PROMPTED, SEARCHED) && Settle(SEARCHED, 110) == SEARCHED != PROMPTED
    ensures OtherHandlerMay(SEARCHED, REFERRED) && Settle(REFERRED, 115) == REFERRED != SEARCHED
  {
    assert SEARCHED.rest["candidate_recipes"] == "second";
  }

  /** The search and the web reference leave the waiting start as it is and take away what else the prompt had set. */
  lemma RaceMovesOn(w: World)
    requires w.record == Record(PROMPTED, 3, 0) && |w.turns| == 4
    ensures var v := Run(w, AMID);
            && v.record == Record(REFERRED, 5, 0) && v.minted == w.minted && |v.turns| == 7
            && v.turns[2] == w.turns[2] && v.turns[6] == Turn(Opened(v.record), Listening)
  {
    var search, reference := Saving(4, SEARCHED, 110), Saving(5, REFERRED, 115);
    var v := Run(w, search);
    RunInParts(w, search + reference, [Open]);
    RunInParts(w, search, reference);
    StartIsKept();
    SavedTurn(w, SEARCHED, 110);
    SavedTurn(v, REFERRED, 115);
    RunOfTwo(Run(v, reference), Open, Open);
  }

  lemma LateMerge()
    ensures Settle(LATE, 140) == LATE
    ensures Merge(SHOWN, LATE, CLAIMED) == Some(LATE.(execution := CLAIMED.execution, rest := CLAIMED.rest))
  {
    MergeRestUnits(SHOWN.rest, CLAIMED.rest);
  }

  lemma LateSave(r: Record)
    requires r.state == CLAIMED && r.revision != 2 && r.generation == 0
    ensures !Exclusive(FlushOnce(Opened(Record(SHOWN, 2, 0)).(local := LATE), r, 140).record.state)
  {
    LateMerge();
  }

  /**
   * One turn lags behind; meanwhile another prepares a start, a search and a web reference follow, and the start is
   * confirmed and claimed. The late turn then saves a start of its own: no field clashes.
   */
  lemma RacingTurnsBreakExclusion()
    ensures !Exclusive(Run(INITIAL, RACE).record.state)
  {
    var early := BEFORE + Preparing(3, Identity(1, 11), 100);
    RunInParts(INITIAL, early + AMID + ConfirmingTurn(6, 120), Preparing(2, Identity(2, 12), 140));
    RunInParts(INITIAL, early + AMID, ConfirmingTurn(6, 120));
    RunInParts(INITIAL, early, AMID);
    RacePrompts();
    RaceMovesOn(Run(INITIAL, early));
    ConfirmedTurn(Run(INITIAL, early + AMID), 6);
    var w := Run(INITIAL, early + AMID + ConfirmingTurn(6, 120));
    PreparedTurn(w, 2, Identity(2, 12), 140);
    LateSave(w.record);
  }
}
