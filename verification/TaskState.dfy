/**
 * One thread's device task state (app/conversation/task_state_workspace.py) and what the device
 * handlers of app/agent/participle_agent.py do to it. Each handler has a function from state to
 * state; class `Workspace` is the field-by-field program proved equal to those functions.
 */
module TaskState {
  import opened Languages
  import opened Options
  import opened DeviceCommand

  type ActionId = nat
  datatype Device = Device(id: string, name: string)

  /** `new_device_action_identity()`: the key of one start and the id sent along with its command. */
  datatype Identity = Identity(action: ActionId, msgId: nat)

  const PENDING_TTL := 300
  const PENDING_ACTION_TTL := 900
  const ACTIVE_TTL := 21_600
  const EXECUTION_TTL := 86_400
  const FOCUS_TTL := 900

  datatype Pending = Pending(
    cookId: string, name: string, deviceId: Option<string>, devices: seq<Device>,
    id: Identity, lang: Option<Lang>, ts: int)

  datatype Status =
    | Dispatching | Running | SubmittedUnverified | OutcomeUnknown | RetryableFailed | Rejected

  datatype Execution = Execution(
    start: Pending, status: Status, code: Option<Code>, sent: Sent, started: Option<bool>, updatedAt: int)

  datatype ActionKind = ChooseDevice | ConfirmDeviceStart | OtherKind(kind: string)
  datatype PendingAction = PendingAction(kind: ActionKind, cookId: string, name: string, id: Option<Identity>, ts: int)

  datatype Verification = VerifiedRunning | Unverified
  datatype Active = Active(
    cookId: string, name: string, deviceId: Option<string>, id: Identity, lang: Option<Lang>,
    verification: Verification, ts: int)

  datatype MenuTask = MenuTask(content: string, ts: int)

  datatype Selection = Selection(cookId: string, name: string, ts: int)

  /** What the conversation is about: a recipe known to be real, or a topic. */
  datatype Focus = Focus(topic: string, verified: bool, ts: int)

  /** Candidates the user has ruled out. */
  datatype Excluded = Excluded(ids: seq<string>, ts: int)

  /** `rest` holds the managed fields the device handlers never touch, by field name. */
  datatype State = State(
    pending: Option<Pending>, action: Option<PendingAction>, execution: Option<Execution>,
    active: Option<Active>, menuTask: Option<MenuTask>, clarification: Option<string>,
    selected: Option<Selection>, focus: Option<Focus>, excluded: Option<Excluded>, rest: map<string, string>)

  const EMPTY := State(None, None, None, None, None, None, None, None, None, map[])

  predicate UnresolvedStatus(status: Status) {
    status in {Dispatching, SubmittedUnverified, OutcomeUnknown}
  }

  predicate Unresolved(execution: Option<Execution>) {
    execution.Some? && UnresolvedStatus(execution.value.status)
  }

  /** A start waiting for the user never stands beside a start whose result is not known. */
  predicate Exclusive(s: State) {
    Unresolved(s.execution) ==> s.pending.None?
  }

  predicate IsDeviceAction(action: Option<PendingAction>) {
    action.Some? && (action.value.kind.ChooseDevice? || action.value.kind.ConfirmDeviceStart?)
  }

  // ---- the workspace operations ----

  function ClearPending(s: State): State {
    s.(pending := None, action := if IsDeviceAction(s.action) then None else s.action)
  }

  function SetPending(s: State, p: Pending): State {
    s.(pending := Some(p),
       action := Some(PendingAction(if p.devices != [] then ChooseDevice else ConfirmDeviceStart,
                                    p.cookId, p.name, Some(p.id), p.ts)))
  }

  /** `get_pending`: a confirmation older than its time to live is removed by the reader. */
  function DropStalePending(s: State, now: int): State {
    if s.pending.Some? && now - s.pending.value.ts > PENDING_TTL then ClearPending(s) else s
  }

  function DropStaleExecution(s: State, now: int): State {
    if s.execution.Some? && now - s.execution.value.updatedAt > EXECUTION_TTL then s.(execution := None) else s
  }

  function DropStaleAction(s: State, now: int): State {
    if s.action.Some? && now - s.action.value.ts > PENDING_ACTION_TTL then s.(action := None) else s
  }

  function DropStaleMenu(s: State, now: int): State {
    if s.menuTask.Some? && now - s.menuTask.value.ts > PENDING_ACTION_TTL then s.(menuTask := None) else s
  }

  function LiveActive(s: State, now: int): Option<Active> {
    if s.active.Some? && now - s.active.value.ts > ACTIVE_TTL then None else s.active
  }

  function LiveSelection(s: State, now: int): Option<Selection> {
    if s.selected.Some? && now - s.selected.value.ts > FOCUS_TTL then None else s.selected
  }

  function LiveFocus(s: State, now: int): Option<Focus> {
    if s.focus.Some? && now - s.focus.value.ts > FOCUS_TTL then None else s.focus
  }

  function LiveExcluded(s: State, now: int): Option<Excluded> {
    if s.excluded.Some? && now - s.excluded.value.ts > FOCUS_TTL then None else s.excluded
  }

  /** `snapshot_thread_state`: what is exported at the end of a turn, every getter applied. */
  function Settle(s: State, now: int): State {
    var dropped := DropStalePending(DropStaleAction(s, now), now);
    var kept := DropStaleExecution(DropStaleMenu(dropped, now), now);
    kept.(active := LiveActive(kept, now), selected := LiveSelection(s, now), focus := LiveFocus(s, now),
          excluded := LiveExcluded(s, now))
  }

  // ---- preparing a start ----

  datatype Recipe = Recipe(cookId: string, name: string)

  function WithoutId(ids: seq<string>, id: string): seq<string> {
    if ids == [] then []
    else
      var before, last := WithoutId(ids[..|ids| - 1], id), ids[|ids| - 1];
      if last == id then before else before + [last]
  }

  function LastTwenty(ids: seq<string>): seq<string> {
    if |ids| <= 20 then ids else ids[|ids| - 20..]
  }

  /** The candidates still ruled out once this one is chosen. */
  function Readmit(excluded: Option<Excluded>, id: string, now: int): Option<Excluded> {
    var ids := WithoutId(if excluded.Some? then excluded.value.ids else [], id);
    if ids == [] then None else Some(Excluded(LastTwenty(ids), now))
  }

  /** `set_selected_recipe`: the recipe becomes selection and focus, and is ruled out no longer. */
  function Select(s: State, recipe: Recipe, now: int): State {
    s.(selected := Some(Selection(recipe.cookId, recipe.name, now)),
       excluded := Readmit(s.excluded, recipe.cookId, now),
       focus := Some(Focus(recipe.name, true, now)))
  }

  function Prepare(
    s: State, recipe: Recipe, online: seq<Device>, minted: Identity, lang: Option<Lang>, now: int): State
  {
    var s1 := DropStaleExecution(s, now);
    if Unresolved(s1.execution) || recipe.cookId == "" || recipe.name == "" then s1
    else
      var s2 := Select(s1, recipe, now);
      if online == [] then s2.(action := None)
      else if |online| == 1 then
        SetPending(s2, Pending(recipe.cookId, recipe.name, Some(online[0].id), [], minted, lang, now))
      else
        SetPending(s2, Pending(recipe.cookId, recipe.name, None, online, minted, lang, now))
  }

  // ---- answering while a start is pending ----

  /** The classified user message; `choice` is the index `resolve_device_choice` found, if any. */
  datatype Message = Message(confirm: bool, cancelOrStop: bool, detail: bool, choice: Option<nat>)

  datatype PendingStep =
    | NotHandled(s: State)
    | Replied(s: State)
    | Claiming(s: State, p: Pending)  // goes on to claim `p` and start it

  function Choose(p: Pending, index: nat, minted: Identity, now: int): Pending
    requires index < |p.devices|
  {
    Pending(p.cookId, p.name, Some(p.devices[index].id), [], minted, Some(p.lang.GetOr(Zh)), now)
  }

  /**
   * `_handle_qq_device_pending` up to the claim. A message that only asks for clarification
   * (an unclear voice reply, "choose a device first") replies and changes nothing.
   */
  function AnswerPending(s: State, m: Message, voice: bool, minted: Identity, now: int): PendingStep {
    var s0 := DropStalePending(s, now);
    if s0.pending.None? then
      var s1 := DropStaleExecution(s0, now);
      if Unresolved(s1.execution) && m.confirm then Replied(s1) else NotHandled(s1)
    else
      var p := s0.pending.value;
      var s1 := s0.(clarification := None);
      if m.cancelOrStop || m.detail then Replied(ClearPending(s1))
      else if p.devices != [] then
        if m.choice.Some? && m.choice.value < |p.devices| then
          Replied(SetPending(s1, Choose(p, m.choice.value, minted, now)))
        else if m.confirm || voice then Replied(s1)
        else NotHandled(s1)
      else if m.confirm then Claiming(s1, p)
      else if voice then Replied(s1)
      else NotHandled(s1)
  }

  /** `_resolve_abandonment`: "never mind" drops the pending start, else the pending action. */
  function Abandon(s: State, now: int): State {
    var s0 := DropStalePending(s, now).(clarification := None);
    if s0.pending.Some? then ClearPending(s0)
    else
      var s1 := DropStaleAction(s0, now);
      if s1.action.Some? then s1.(action := None, menuTask := None) else s1
  }

  // ---- the answer of the device ----

  /** The status `_cook_and_format` writes for an answer. */
  function Classify(r: CookResult): Status {
    if r.ok && r.started == Some(true) then Running
    else if r.sent == Yes then SubmittedUnverified
    else if r.code == DEVICE_OUTCOME_UNKNOWN || r.sent == Null then OutcomeUnknown
    else if r.retryable then RetryableFailed
    else Rejected
  }

  /** `update_device_execution`: only the execution with the expected action id is written. */
  function Record(s: State, id: ActionId, r: CookResult, now: int): State {
    var s1 := DropStaleExecution(s, now);
    if s1.execution.Some? && s1.execution.value.start.id.action == id then
      s1.(execution := Some(s1.execution.value.(
            status := Classify(r), code := Some(r.code), sent := r.sent, started := r.started, updatedAt := now)))
    else s1
  }

  function ActiveFrom(p: Pending, lang: Option<Lang>, verification: Verification, now: int): Active {
    Active(p.cookId, p.name, p.deviceId, p.id, lang, verification, now)
  }

  function Finish(s: State, p: Pending, r: CookResult, lang: Option<Lang>, now: int): State {
    var s1 := Record(s, p.id.action, r, now);
    if r.ok then s1.(active := Some(ActiveFrom(p, lang, VerifiedRunning, now)))
    else if r.code == DEVICE_STATE_UNVERIFIED || r.sent == Yes then
      s1.(active := Some(ActiveFrom(p, lang, Unverified, now)))
    else if NotReady(r.code) then
      SetPending(s1, Pending(p.cookId, p.name, p.deviceId, [], p.id, lang, now))
    else s1
  }

  /** `_stop_and_format`; `stopped` is the answer of `stop_cook`. */
  function Stop(s: State, stopped: bool, now: int): State {
    if LiveActive(s, now).Some? && stopped then s.(active := None, execution := None) else s
  }

  // ---- what the handlers keep ----

  /** A start is claimed only on a plain confirmation, for the waiting start as it is, with its device settled. */
  lemma ClaimNeedsConfirmation(s: State, m: Message, voice: bool, minted: Identity, now: int)
    requires AnswerPending(s, m, voice, minted, now).Claiming?
    ensures m.confirm && !m.cancelOrStop && !m.detail
    ensures s.pending == Some(AnswerPending(s, m, voice, minted, now).p) && s.pending.value.devices == []
    ensures now - s.pending.value.ts <= PENDING_TTL
  {
  }

  /** An answer puts up a new start only for the device chosen, under the new id, and changes no other start. */
  lemma ChoiceIsHonoured(s: State, m: Message, voice: bool, minted: Identity, now: int)
    requires s.pending != AnswerPending(s, m, voice, minted, now).s.pending
    ensures var after := AnswerPending(s, m, voice, minted, now).s.pending;
            after.Some? ==>
              && s.pending.Some? && m.choice.Some? && m.choice.value < |s.pending.value.devices|
              && after.value.deviceId == Some(s.pending.value.devices[m.choice.value].id)
              && after.value.cookId == s.pending.value.cookId && after.value.name == s.pending.value.name
              && after.value.id == minted && after.value.devices == []
  {
  }

  /** Giving up never touches what the device is doing, and neither does a stop the device did not confirm. */
  lemma GivingUpNeverStops(s: State, now: int)
    ensures Abandon(s, now).active == s.active && Abandon(s, now).execution == s.execution
    ensures Stop(s, false, now).execution == s.execution && Stop(s, false, now).pending == s.pending
  {
  }

  lemma SettleKeepsExclusive(s: State, now: int)
    requires Exclusive(s)
    ensures Exclusive(Settle(s, now))
  {
  }

  lemma PrepareKeepsExclusive(
    s: State, recipe: Recipe, online: seq<Device>, minted: Identity, lang: Option<Lang>, now: int)
    requires Exclusive(s)
    ensures Exclusive(Prepare(s, recipe, online, minted, lang, now))
  {
  }

  /** The answer to a claimed start leaves the exclusion in place, whatever the device said. */
  lemma FinishKeepsExclusive(s: State, p: Pending, a: Attempt, lang: Option<Lang>, now: int)
    requires s.pending.None?
    requires s.execution.Some? && s.execution.value.start.id.action == p.id.action
    requires s.execution.value.status == Dispatching
    ensures Exclusive(Finish(s, p, ExecuteCook(a), lang, now))
  {
    ExecuteCookContract(a);
  }

  /**
   * A start is offered again under its old identity exactly when the device was never asked:
   * after an answer with `command_sent` true or unknown nothing is pending.
   */
  lemma RearmOnlyUnsent(s: State, p: Pending, a: Attempt, lang: Option<Lang>, now: int)
    requires s.pending.None?
    ensures var r := ExecuteCook(a);
            var after := Finish(s, p, r, lang, now);
            && (after.pending.Some? <==> NotReady(r.code))
            && (after.pending.Some? ==>
                  && r.sent == No
                  && after.pending.value.(lang := p.lang, ts := p.ts) == p.(devices := []))
  {
    ExecuteCookContract(a);
  }

  // ---- the program ----

  /** The per-thread dictionaries of the workspace, for one thread. */
  class Workspace {
    var pending: Option<Pending>
    var action: Option<PendingAction>
    var execution: Option<Execution>
    var active: Option<Active>
    var menuTask: Option<MenuTask>
    var clarification: Option<string>
    var selected: Option<Selection>
    var focus: Option<Focus>
    var excluded: Option<Excluded>
    var rest: map<string, string>

    function Contents(): State
      reads this
    {
      State(pending, action, execution, active, menuTask, clarification, selected, focus, excluded, rest)
    }

    constructor (s: State)
      ensures Contents() == s
    {
      pending, action, execution, active := s.pending, s.action, s.execution, s.active;
      menuTask, clarification, selected := s.menuTask, s.clarification, s.selected;
      focus, excluded, rest := s.focus, s.excluded, s.rest;
    }

    method ClearPendingStart()
      modifies this`pending, this`action
      ensures Contents() == ClearPending(old(Contents()))
    {
      pending := None;
      if action.Some? && (action.value.kind.ChooseDevice? || action.value.kind.ConfirmDeviceStart?) {
        action := None;
      }
    }

    method SetPendingStart(p: Pending)
      modifies this`pending, this`action
      ensures Contents() == SetPending(old(Contents()), p)
    {
      pending := Some(p);
      var kind := if p.devices != [] then ChooseDevice else ConfirmDeviceStart;
      action := Some(PendingAction(kind, p.cookId, p.name, Some(p.id), p.ts));
    }

    method GetPending(now: int) returns (p: Option<Pending>)
      modifies this`pending, this`action
      ensures Contents() == DropStalePending(old(Contents()), now) && p == pending
    {
      if pending.Some? && now - pending.value.ts > PENDING_TTL {
        ClearPendingStart();
        return None;
      }
      return pending;
    }

    method GetExecution(now: int) returns (e: Option<Execution>)
      modifies this`execution
      ensures Contents() == DropStaleExecution(old(Contents()), now) && e == execution
    {
      if execution.Some? && now - execution.value.updatedAt > EXECUTION_TTL {
        execution := None;
      }
      return execution;
    }

    method SetSelectedRecipe(recipe: Recipe, now: int)
      modifies this`selected, this`focus, this`excluded
      ensures Contents() == Select(old(Contents()), recipe, now)
    {
      selected := Some(Selection(recipe.cookId, recipe.name, now));
      var known := if excluded.Some? then excluded.value.ids else [];
      var ids: seq<string> := [];
      for n := 0 to |known|
        invariant ids == WithoutId(known[..n], recipe.cookId)
      {
        assert known[..n + 1][..n] == known[..n];
        if known[n] != recipe.cookId { ids := ids + [known[n]]; }
      }
      assert known[..|known|] == known;
      if ids != [] {
        excluded := Some(Excluded(LastTwenty(ids), now));
      } else {
        excluded := None;
      }
      focus := Some(Focus(recipe.name, true, now));
    }

    method PrepareRecipe(recipe: Recipe, online: seq<Device>, minted: Identity, lang: Option<Lang>, now: int)
      modifies this
      ensures Contents() == Prepare(old(Contents()), recipe, online, minted, lang, now)
    {
      var e := GetExecution(now);
      if e.Some? && UnresolvedStatus(e.value.status) { return; }
      if recipe.cookId == "" || recipe.name == "" { return; }
      SetSelectedRecipe(recipe, now);
      if online == [] {
        action := None;
      } else if |online| == 1 {
        SetPendingStart(Pending(recipe.cookId, recipe.name, Some(online[0].id), [], minted, lang, now));
      } else {
        SetPendingStart(Pending(recipe.cookId, recipe.name, None, online, minted, lang, now));
      }
    }

    method HandlePending(m: Message, voice: bool, minted: Identity, now: int) returns (step: PendingStep)
      modifies this
      ensures step == AnswerPending(old(Contents()), m, voice, minted, now)
      ensures Contents() == step.s
    {
      var pend := GetPending(now);
      if pend.None? {
        var e := GetExecution(now);
        var here := Contents();
        if e.Some? && UnresolvedStatus(e.value.status) && m.confirm {
          return Replied(here);
        }
        return NotHandled(here);
      }
      clarification := None;
      var handled := true;
      if m.cancelOrStop {
        ClearPendingStart();
      } else if m.detail {
        ClearPendingStart();
      } else if pend.value.devices != [] {
        if m.choice.Some? && m.choice.value < |pend.value.devices| {
          var lang := if pend.value.lang.Some? then pend.value.lang.value else Zh;
          SetPendingStart(Pending(pend.value.cookId, pend.value.name,
                                  Some(pend.value.devices[m.choice.value].id), [], minted, Some(lang), now));
        } else if !m.confirm {
          handled := voice;
        }
      } else if m.confirm {
        return Claiming(Contents(), pend.value);
      } else {
        handled := voice;
      }
      var here := Contents();
      return if handled then Replied(here) else NotHandled(here);
    }

    method ResolveAbandonment(now: int)
      modifies this
      ensures Contents() == Abandon(old(Contents()), now)
    {
      var pend := GetPending(now);
      clarification := None;
      if pend.Some? {
        ClearPendingStart();
        return;
      }
      if action.Some? && now - action.value.ts > PENDING_ACTION_TTL { action := None; }
      if action.Some? {
        action := None;
        menuTask := None;
      }
    }

    method CookAndFormat(p: Pending, r: CookResult, lang: Option<Lang>, now: int)
      modifies this
      ensures Contents() == Finish(old(Contents()), p, r, lang, now)
    {
      var status;
      if r.ok && r.started == Some(true) {
        status := Running;
      } else if r.sent == Yes {
        status := SubmittedUnverified;
      } else if r.code == DEVICE_OUTCOME_UNKNOWN || r.sent == Null {
        status := OutcomeUnknown;
      } else if r.retryable {
        status := RetryableFailed;
      } else {
        status := Rejected;
      }
      var e := GetExecution(now);
      if e.Some? && e.value.start.id.action == p.id.action {
        execution := Some(Execution(e.value.start, status, Some(r.code), r.sent, r.started, now));
      }
      if r.ok {
        active := Some(Active(p.cookId, p.name, p.deviceId, p.id, lang, VerifiedRunning, now));
        return;
      }
      if r.code == DEVICE_STATE_UNVERIFIED || r.sent == Yes {
        active := Some(Active(p.cookId, p.name, p.deviceId, p.id, lang, Unverified, now));
        return;
      }
      if NotReady(r.code) {
        SetPendingStart(Pending(p.cookId, p.name, p.deviceId, [], p.id, lang, now));
      }
    }

    method StopCooking(stopped: bool, now: int)
      modifies this
      ensures Contents() == Stop(old(Contents()), stopped, now)
    {
      if active.None? || now - active.value.ts > ACTIVE_TTL { return; }
      if stopped {
        active := None;
        execution := None;
      }
    }
  }
}
