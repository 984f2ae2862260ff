/**
 * What each device handler does, branch by branch: the answer to a waiting start, the answer of the device, the
 * preparation of a start and the export of the state, field by field.
 */
module TaskAnswers {
  import opened Languages
  import opened Options
  import opened DeviceCommand
  import opened TaskState

  // ---- the answer to a waiting start ----

  // times are in seconds: a start waits for five minutes, topics and next actions last for a quarter of an hour, a
  // running task for six hours, an execution for a day

  /** A start waits that has not expired. */
  predicate Waits(s: State, now: int) {
    s.pending.Some? && now - s.pending.value.ts <= 300
  }

  /** `t` differs from `s` at most in the waiting start and the next action; the clarification is gone. */
  predicate OnlyTheStart(s: State, t: State) {
    t == s.(pending := t.pending, action := t.action, clarification := None)
  }

  /** A cancel, a stop or a request for details takes the waiting start down, with its action, and nothing else. */
  lemma CancelTakesDown(s: State, m: Message, voice: bool, minted: Identity, now: int)
    requires Waits(s, now) && (m.cancelOrStop || m.detail)
    ensures var step := AnswerPending(s, m, voice, minted, now);
            && step.Replied? && OnlyTheStart(s, step.s) && step.s.pending.None? && !IsDeviceAction(step.s.action)
            && (!IsDeviceAction(s.action) ==> step.s.action == s.action)
  {
  }

  /** A plain yes to a start whose device is settled goes on to claim that start, which is still in place. */
  lemma YesClaims(s: State, m: Message, voice: bool, minted: Identity, now: int)
    requires Waits(s, now) && s.pending.value.devices == [] && m.confirm && !m.cancelOrStop && !m.detail
    ensures AnswerPending(s, m, voice, minted, now) == Claiming(s.(clarification := None), s.pending.value)
  {
  }

  /** The choice of a listed device puts up the start for it, under a new id, to be confirmed. */
  lemma ChoicePutsUp(s: State, m: Message, voice: bool, minted: Identity, now: int)
    requires Waits(s, now) && !m.cancelOrStop && !m.detail
    requires m.choice.Some? && m.choice.value < |s.pending.value.devices|
    ensures var step, p := AnswerPending(s, m, voice, minted, now), s.pending.value;
            && step.Replied? && OnlyTheStart(s, step.s)
            && step.s.pending == Some(Pending(p.cookId, p.name, Some(p.devices[m.choice.value].id), [], minted,
                                              Some(p.lang.GetOr(Zh)), now))
            && step.s.action == Some(PendingAction(ConfirmDeviceStart, p.cookId, p.name, Some(minted), now))
  {
  }

  /** Any other answer leaves the start as it is: asked again after a voice or a yes too early, else left to others. */
  lemma OtherAnswersKeepIt(s: State, m: Message, voice: bool, minted: Identity, now: int)
    requires Waits(s, now) && !m.cancelOrStop && !m.detail
    requires if s.pending.value.devices == [] then !m.confirm
             else m.choice.None? || m.choice.value >= |s.pending.value.devices|
    ensures var step, t := AnswerPending(s, m, voice, minted, now), s.(clarification := None);
            step == if voice || m.confirm then Replied(t) else NotHandled(t)
  {
  }

  /** Without a waiting start a yes is answered only while a start is unresolved; nothing is put up or claimed. */
  lemma NothingWaits(s: State, m: Message, voice: bool, minted: Identity, now: int)
    requires !Waits(s, now)
    ensures var step := AnswerPending(s, m, voice, minted, now);
            && !step.Claiming? && step.s.pending.None? && (s.pending.Some? ==> !IsDeviceAction(step.s.action))
            && step.s == s.(pending := None, action := step.s.action, execution := step.s.execution)
            && step.s.execution == (if s.execution.Some? && now - s.execution.value.updatedAt > 86_400 then None
                                    else s.execution)
            && (step.Replied? <==> m.confirm && Unresolved(step.s.execution))
  {
  }

  /** Giving up takes down the waiting start, or else whatever was next with its menu, and always the clarification. */
  lemma GivingUpTakesDown(s: State, now: int)
    ensures var t := Abandon(s, now);
      && t.pending.None? && t.clarification.None? && !IsDeviceAction(t.action)
      && (Waits(s, now) ==> OnlyTheStart(s, t) && t.menuTask == s.menuTask)
      && (Waits(s, now) && !IsDeviceAction(s.action) ==> t.action == s.action)
      && (!Waits(s, now) ==> t.action.None?)
      && t == s.(pending := None, action := t.action, menuTask := t.menuTask, clarification := None)
      && (t.menuTask == s.menuTask || t.menuTask.None?)
      && (s.pending.None? && s.action.Some? && now - s.action.value.ts <= 900 ==> t.menuTask.None?)
      && (s.pending.None? && s.action.None? ==> t.menuTask == s.menuTask)
  {
  }

  // ---- the answer of the device ----

  /** The execution of the claimed start is there, and not a day old. */
  predicate Executing(s: State, p: Pending, now: int) {
    && s.execution.Some? && s.execution.value.start.id.action == p.id.action
    && now - s.execution.value.updatedAt <= 86_400
  }

  /**
   * Whatever the device answered is on the record: the start is kept, and it is unresolved exactly if a command was or
   * may have been sent and was not seen to work.
   */
  lemma AnswerIsRecorded(s: State, p: Pending, a: Attempt, lang: Option<Lang>, now: int)
    requires Executing(s, p, now)
    ensures var r, e := ExecuteCook(a), Finish(s, p, ExecuteCook(a), lang, now).execution;
      && e.Some? && e.value == Execution(s.execution.value.start, e.value.status, Some(r.code), r.sent, r.started, now)
      && (e.value.status == Running <==> r.ok)
      && (e.value.status == SubmittedUnverified <==> r.sent == Yes && !r.ok)
      && (e.value.status == OutcomeUnknown <==> r.sent == Null)
      && (e.value.status == RetryableFailed <==> r.sent == No && r.retryable)
      && (e.value.status == Rejected <==> r.sent == No && !r.retryable)
      && (Unresolved(e) <==> r.sent != No && !r.ok)
  {
    ExecuteCookContract(a);
  }

  /** The execution of another start is not touched. */
  lemma OtherExecutionsStay(s: State, p: Pending, a: Attempt, lang: Option<Lang>, now: int)
    requires s.execution.Some? && s.execution.value.start.id.action != p.id.action
    ensures Finish(s, p, ExecuteCook(a), lang, now).execution
         == if now - s.execution.value.updatedAt > 86_400 then None else s.execution
  {
  }

  /** A running task is known exactly if a command was surely sent, and verified exactly if it was seen to run. */
  lemma AnswerSetsActive(s: State, p: Pending, a: Attempt, lang: Option<Lang>, now: int)
    ensures var r := ExecuteCook(a);
            Finish(s, p, r, lang, now).active ==
            if r.sent != Yes then s.active
            else Some(Active(p.cookId, p.name, p.deviceId, p.id, lang,
                             if r.ok then VerifiedRunning else Unverified, now))
  {
    ExecuteCookContract(a);
  }

  lemma AnswerKeepsTheRest(s: State, p: Pending, r: CookResult, lang: Option<Lang>, now: int)
    ensures var t := Finish(s, p, r, lang, now);
            t == s.(pending := t.pending, action := t.action, execution := t.execution, active := t.active)
  {
  }

  /** A start goes up again, to be confirmed, exactly if the device was found not ready; else start and action stay. */
  lemma AnswerRearms(s: State, p: Pending, a: Attempt, lang: Option<Lang>, now: int)
    ensures var r, t := ExecuteCook(a), Finish(s, p, ExecuteCook(a), lang, now);
      if NotReady(r.code) then
        && t.pending == Some(Pending(p.cookId, p.name, p.deviceId, [], p.id, lang, now))
        && t.action == Some(PendingAction(ConfirmDeviceStart, p.cookId, p.name, Some(p.id), now))
      else t.pending == s.pending && t.action == s.action
  {
    ExecuteCookContract(a);
  }

  /** A stop counts only for a task that still runs, and clears it together with its execution. */
  lemma StopIsExact(s: State, stopped: bool, now: int)
    ensures Stop(s, stopped, now) ==
      if stopped && s.active.Some? && now - s.active.value.ts <= 21_600 then s.(active := None, execution := None)
      else s
  {
  }

  // ---- preparing a start ----

  /** Beside an unresolved start of the last day nothing is prepared. */
  lemma UnresolvedRefuses(
    s: State, recipe: Recipe, online: seq<Device>, minted: Identity, lang: Option<Lang>, now: int)
    requires Unresolved(s.execution) && now - s.execution.value.updatedAt <= 86_400
    ensures Prepare(s, recipe, online, minted, lang, now) == s
  {
  }

  /** The recipe can be prepared: it is named, and no unresolved start of the last day is on record. */
  predicate Preparable(s: State, recipe: Recipe, now: int) {
    && recipe.cookId != "" && recipe.name != ""
    && (Unresolved(s.execution) ==> now - s.execution.value.updatedAt > 86_400)
  }

  /**
   * Preparing selects the recipe, makes it the focus and rules it out no longer; then one device is asked to be
   * confirmed, several to be chosen from, and with none there is nothing to do next.
   */
  lemma PrepareIsExact(
    s: State, recipe: Recipe, online: seq<Device>, minted: Identity, lang: Option<Lang>, now: int)
    requires Preparable(s, recipe, now)
    ensures var t := Prepare(s, recipe, online, minted, lang, now);
      && t.selected == Some(Selection(recipe.cookId, recipe.name, now))
      && t.focus == Some(Focus(recipe.name, true, now))
      && t.active == s.active && t.menuTask == s.menuTask && t.clarification == s.clarification && t.rest == s.rest
      && t.execution == (if s.execution.Some? && now - s.execution.value.updatedAt > 86_400 then None
                         else s.execution)
      && (online == [] ==> t.pending == s.pending && t.action.None?)
      && (|online| == 1 ==>
            && t.pending == Some(Pending(recipe.cookId, recipe.name, Some(online[0].id), [], minted, lang, now))
            && t.action == Some(PendingAction(ConfirmDeviceStart, recipe.cookId, recipe.name, Some(minted), now)))
      && (|online| > 1 ==>
            && t.pending == Some(Pending(recipe.cookId, recipe.name, None, online, minted, lang, now))
            && t.action == Some(PendingAction(ChooseDevice, recipe.cookId, recipe.name, Some(minted), now)))
  {
  }

  /** What is left of a list without one id: the others, in order and as often as before. */
  lemma {:induction false} WithoutIsOthers(ids: seq<string>, id: string)
    ensures id !in WithoutId(ids, id)
    ensures multiset(WithoutId(ids, id)) == multiset(ids)[id := 0]
  {
    if ids != [] {
      var n := |ids| - 1;
      WithoutIsOthers(ids[..n], id);
      assert ids == ids[..n] + [ids[n]];
    }
  }

  /** And the others stay in their order. */
  lemma WithoutKeepsOrder(ids: seq<string>, last: string, id: string)
    ensures WithoutId(ids + [last], id) == WithoutId(ids, id) + if last == id then [] else [last]
    ensures WithoutId([], id) == []
  {
    assert (ids + [last])[..|ids|] == ids;
  }

  /** The chosen candidate is ruled out no longer; the last twenty of the others are, if there are others. */
  lemma ChosenIsReadmitted(
    s: State, recipe: Recipe, online: seq<Device>, minted: Identity, lang: Option<Lang>, now: int)
    requires Preparable(s, recipe, now)
    ensures var ids := WithoutId(if s.excluded.Some? then s.excluded.value.ids else [], recipe.cookId);
            Prepare(s, recipe, online, minted, lang, now).excluded
            == if ids == [] then None
               else Some(Excluded(if |ids| <= 20 then ids else ids[|ids| - 20..], now))
  {
  }

  // ---- exporting the state ----

  predicate Fresh(ts: int, now: int, ttl: int) {
    now - ts <= ttl
  }

  /** The export keeps the waiting start and the execution until they expire; so it does with a running task. */
  lemma ExportKeepsStarts(s: State, now: int)
    ensures var t := Settle(s, now);
      && t.pending == (if s.pending.Some? && Fresh(s.pending.value.ts, now, 300) then s.pending else None)
      && t.execution == (if s.execution.Some? && Fresh(s.execution.value.updatedAt, now, 86_400) then s.execution
                         else None)
  {
  }

  lemma ExportKeepsActive(s: State, now: int)
    ensures Settle(s, now).active
         == if s.active.Some? && Fresh(s.active.value.ts, now, 21_600) then s.active else None
  {
  }

  /** And what the conversation is about until it expires. */
  lemma ExportKeepsTopics(s: State, now: int)
    ensures var t := Settle(s, now);
      && t.selected == (if s.selected.Some? && Fresh(s.selected.value.ts, now, 900) then s.selected else None)
      && t.focus == (if s.focus.Some? && Fresh(s.focus.value.ts, now, 900) then s.focus else None)
      && t.excluded == (if s.excluded.Some? && Fresh(s.excluded.value.ts, now, 900) then s.excluded else None)
  {
  }

  lemma ExportKeepsMenu(s: State, now: int)
    ensures Settle(s, now).menuTask
         == if s.menuTask.Some? && Fresh(s.menuTask.value.ts, now, 900) then s.menuTask else None
  {
  }

  lemma ExportKeepsRest(s: State, now: int)
    ensures Settle(s, now).clarification == s.clarification && Settle(s, now).rest == s.rest
  {
  }

  /** The next action goes with its own time, or with the start it belongs to. */
  lemma ExportedAction(s: State, now: int)
    ensures Settle(s, now).action ==
      if s.action.Some? && Fresh(s.action.value.ts, now, 900)
         && !(IsDeviceAction(s.action) && s.pending.Some? && !Fresh(s.pending.value.ts, now, 300))
      then s.action
      else None
  {
  }
}
