/**
 * A confirmed start is carried through: the turn that hears the yes saves, claims, sends exactly that start once, and
 * records what the device answered.
 */
module StartCarried {
  import opened Languages
  import opened Options
  import opened DeviceCommand
  import opened TaskState
  import opened TaskAnswers
  import opened TaskStateRepository
  import opened StartProtocol

  /** Start `p` waits in the store, settled on its device, beside no unresolved one, and turn `i` has just read it. */
  predicate Offered(w: World, i: nat, p: Pending, now: int) {
    && i < |w.turns| && w.turns[i] == Turn(Opened(w.record), Listening)
    && w.record.state.pending == Some(p) && p.devices == [] && 0 < p.ts && now - p.ts <= PENDING_TTL
    && !Unresolved(w.record.state.execution)
  }

  function LangOf(p: Pending): Option<Lang> {
    Some(p.lang.GetOr(Zh))
  }

  /** The turn is about to claim `p`, with a copy in which it waits. */
  predicate AboutToClaim(w: World, i: nat, p: Pending, flushed: bool) {
    && i < |w.turns| && w.turns[i].phase == Confirming(p.id.action, LangOf(p), flushed)
    && w.turns[i].uow.local.pending == Some(p) && w.turns[i].uow.generation == w.record.generation
    && w.record.state.pending == Some(p) && !Unresolved(w.record.state.execution)
  }

  lemma YesIsHeard(w: World, i: nat, p: Pending, m: Message, voice: bool, id: Identity, now: int)
    requires Offered(w, i, p, now) && id.action !in w.minted && m.confirm && !m.cancelOrStop && !m.detail
    ensures var v := Next(w, Say(i, m, voice, id, now));
      && AboutToClaim(v, i, p, false) && v.record == w.record && v.log == w.log && v.minted == w.minted
      && v.turns[i].uow == Opened(w.record).(local := w.record.state.(clarification := None))
  {
    YesClaims(w.record.state, m, voice, id, now);
  }

  lemma YesIsSaved(w: World, i: nat, p: Pending, later: int)
    requires AboutToClaim(w, i, p, false) && later - p.ts <= PENDING_TTL
    requires w.turns[i].uow == Opened(w.record).(local := w.record.state.(clarification := None))
    ensures var v := Next(w, Event.Flush(i, later)); AboutToClaim(v, i, p, true) && v.log == w.log
  {
    var u := w.turns[i].uow;
    FlushIsExact(u, w.record, later);
    ExportKeepsStarts(u.local, later);
    MergeRestIsExact(u.baseline.rest, Settle(u.local, later).rest, w.record.state.rest);
    assert !SomeFieldClashes(u.baseline, Settle(u.local, later), w.record.state);
  }

  lemma ClaimIsWon(w: World, i: nat, p: Pending, later: int)
    requires AboutToClaim(w, i, p, true) && 0 < p.ts && later - p.ts <= PENDING_TTL
    ensures var v := Next(w, Claim(i, later));
      && i < |v.turns| && v.turns[i].phase == InFlight(p, LangOf(p)) && v.turns[i].uow == Opened(v.record)
      && v.record.state.pending.None? && v.log == w.log
      && v.record.state.execution == Some(Execution(p, Dispatching, None, Null, None, later))
  {
    ClaimIsExact(w.record, p.id.action, later);
    PayloadIsExact(w.turns[i].uow, w.record, p.id.action, later);
  }

  lemma AnswerIsLogged(w: World, i: nat, p: Pending, attempt: Attempt, now: int)
    requires i < |w.turns| && w.turns[i].phase == InFlight(p, LangOf(p))
    requires Executing(w.turns[i].uow.local, p, now)
    ensures var v, r := Next(w, Return(i, attempt, now)), ExecuteCook(attempt);
      && v.log == w.log + [Dispatch(i, p, r.sent)] && v.record == w.record
      && i < |v.turns| && v.turns[i].phase == Answered
      && v.turns[i].uow.local.execution.Some? && v.turns[i].uow.local.execution.value.sent == r.sent
      && (v.turns[i].uow.local.execution.value.status == Running <==> r.ok)
  {
    AnswerIsRecorded(w.turns[i].uow.local, p, attempt, LangOf(p), now);
  }

  function Confirmed(w: World, i: nat, m: Message, voice: bool, id: Identity, t1: int, t2: int, t3: int): World {
    Next(Next(Next(w, Say(i, m, voice, id, t1)), Event.Flush(i, t2)), Claim(i, t3))
  }

  /** A yes to a start that waits, in time and undisturbed, sends exactly that start, once, and records the answer. */
  lemma YesIsCarriedThrough(
    w: World, i: nat, p: Pending, m: Message, voice: bool, id: Identity, t1: int, t2: int, t3: int,
    attempt: Attempt, t4: int)
    requires Offered(w, i, p, t1) && id.action !in w.minted && m.confirm && !m.cancelOrStop && !m.detail
    requires t2 - p.ts <= PENDING_TTL && t3 - p.ts <= PENDING_TTL && t4 - t3 <= EXECUTION_TTL
    ensures var v := Confirmed(w, i, m, voice, id, t1, t2, t3);
      && v.log == w.log && v.record.state.pending.None?
      && v.record.state.execution == Some(Execution(p, Dispatching, None, Null, None, t3))
    ensures var v := Next(Confirmed(w, i, m, voice, id, t1, t2, t3), Return(i, attempt, t4));
      v.log == w.log + [Dispatch(i, p, ExecuteCook(attempt).sent)]
  {
    var heard := Next(w, Say(i, m, voice, id, t1));
    YesIsHeard(w, i, p, m, voice, id, t1);
    YesIsSaved(heard, i, p, t2);
    ClaimIsWon(Next(heard, Event.Flush(i, t2)), i, p, t3);
    AnswerIsLogged(Confirmed(w, i, m, voice, id, t1, t2, t3), i, p, attempt, t4);
  }

  // ---- what other turns carry through ----

  /** Turn `i` has just read the store and is past the device handler. */
  predicate JustRead(w: World, i: nat) {
    i < |w.turns| && w.turns[i] == Turn(Opened(w.record), Working)
  }

  /** Saving a copy of what was just read stores it, as far as it has not expired. */
  lemma FirstSaveStores(u: Uow, r: Record, now: int)
    requires u.baseline == r.state && u.revision == r.revision && u.generation == r.generation
    ensures FlushOnce(u, r, now).ok && FlushOnce(u, r, now).record.state == Settle(u.local, now)
  {
  }

  function PreparedAndSaved(
    w: World, i: nat, recipe: Recipe, online: seq<Device>, id: Identity, lang: Option<Lang>, now: int, later: int)
    : World
  {
    Next(Next(w, AskPrepare(i, recipe, online, id, lang, now)), Event.Flush(i, later))
  }

  /** A recipe prepared for one device waits in the store as its prompt, under the new id, which is then given out. */
  lemma PromptIsCarriedThrough(
    w: World, i: nat, recipe: Recipe, device: Device, id: Identity, lang: Option<Lang>, now: int, later: int)
    requires JustRead(w, i) && Preparable(w.record.state, recipe, now) && id.action !in w.minted
    requires later - now <= PENDING_TTL
    ensures var v := PreparedAndSaved(w, i, recipe, [device], id, lang, now, later);
            var p := Pending(recipe.cookId, recipe.name, Some(device.id), [], id, lang, now);
      && v.record.state.pending == Some(p) && v.log == w.log
      && id.action in v.minted && v.minted[id.action] == Mint(p, i, w.record.generation, None)
  {
    var mid := Next(w, AskPrepare(i, recipe, [device], id, lang, now));
    PrepareIsExact(w.record.state, recipe, [device], id, lang, now);
    assert mid.record == w.record && mid.turns[i].uow.baseline == w.record.state;
    FirstSaveStores(mid.turns[i].uow, mid.record, later);
    ExportKeepsStarts(mid.turns[i].uow.local, later);
  }

  /** A stop the device confirmed takes running task and execution out of the store. */
  lemma StopIsCarriedThrough(w: World, i: nat, now: int, later: int)
    requires JustRead(w, i) && w.record.state.active.Some? && now - w.record.state.active.value.ts <= ACTIVE_TTL
    ensures var v := Next(Next(w, AskStop(i, true, now)), Event.Flush(i, later));
            v.record.state.active.None? && v.record.state.execution.None? && v.log == w.log
  {
    var mid := Next(w, AskStop(i, true, now));
    StopIsExact(w.record.state, true, now);
    assert mid.record == w.record && mid.turns[i].uow.baseline == w.record.state;
    FirstSaveStores(mid.turns[i].uow, mid.record, later);
    ExportKeepsStarts(mid.turns[i].uow.local, later);
    ExportKeepsActive(mid.turns[i].uow.local, later);
  }

  /** Turns open on what is stored, and a refresh brings a turn back to it. */
  lemma TurnsReadTheStore(w: World, i: nat)
    ensures Next(w, Open) == w.(turns := w.turns + [Turn(Opened(w.record), Listening)])
    ensures i < |w.turns| && w.turns[i].phase.Listening? ==>
              Next(w, Refresh(i)) == SetTurn(w, i, Turn(Opened(w.record), Listening))
  {
  }
}
