/**
 * Running the one step of a validated plan (app/orchestrator/planning/plan_executor.py) and leaving the planner without
 * doing things twice (app/agent/participle_agent.py). What a handler does is an input.
 */
module PlanExecution {
  import opened Options

  /** The state of the thread: what kind of action it waits for, and the rest. */
  datatype State = State(pending: Option<string>, rest: string)

  const CLARIFICATION := "planner_clarification"
  const CLARIFY := "conversation.clarify"

  type Tool = string

  /** What running a handler does: tool calls and a new thread state, then it raises, answers nonsense or answers. */
  datatype Answer = Raises | Invalid | Envelope(text: string)

  datatype Behaviour = Behaviour(tools: seq<Tool>, state: State, answer: Answer)

  datatype Status = Rejected | ExecutionError | Executed(envelope: string)

  datatype Reply = Planner(text: string) | FailClosed | Legacy(text: string)

  /** The thread state and the tool results of one turn. */
  class Turn {
    var state: State
    var tools: seq<Tool>

    constructor (state: State)
      ensures this.state == state && tools == []
    {
      this.state, tools := state, [];
    }

    method Act(b: Behaviour)
      modifies this
      ensures state == b.state && tools == old(tools) + b.tools
    {
      state, tools := b.state, tools + b.tools;
    }

    /** The bounded executor: a single allowed step with a registered handler, run once at most. */
    method Execute(steps: seq<string>, allowed: set<string>, handlers: map<string, Behaviour>) returns (status: Status)
      modifies this
      ensures status.Rejected? <==> Step(steps, allowed, handlers).None?
      ensures status.Rejected? ==> state == old(state) && tools == old(tools)
      ensures !status.Rejected? ==>
                var b := Step(steps, allowed, handlers).value;
                && state == b.state && tools == old(tools) + b.tools
                && status == if b.answer.Envelope? then Executed(b.answer.text) else ExecutionError
    {
      if |steps| != 1 { return Rejected; }
      var action := steps[0];
      if action !in allowed { return Rejected; }
      if action !in handlers { return Rejected; }
      var b := handlers[action];
      Act(b);
      match b.answer
      case Raises => return ExecutionError;
      case Invalid => return ExecutionError;
      case Envelope(text) => return Executed(text);
    }

    /** The planner's part of a turn; `None` passes the turn on to the handlers that follow. */
    method Plan(steps: seq<string>, allowed: set<string>, handlers: map<string, Behaviour>)
      returns (reply: Option<Reply>)
      modifies this
      ensures reply.None? ==> state == old(state) && tools == old(tools)
      ensures reply == PlanReply(steps, allowed, handlers, old(state))
      ensures reply.Some? ==>
                var b := Step(steps, allowed, handlers).GetOr(Behaviour([], old(state), Raises));
                && tools == old(tools) + b.tools
                && state == if reply.value.Planner? && |steps| == 1 then Answered(old(state), b.state, steps[0])
                            else b.state
    {
      ghost var before := tools;
      var stateBefore, cursor := state, |tools|;
      var status := Execute(steps, allowed, handlers);
      if !status.Executed? {
        var hasToolCall, stateChanged := |tools[cursor..]| > 0, state != stateBefore;
        if !hasToolCall && !stateChanged {
          assert tools == before + tools[cursor..];
          return None;
        }
        return Some(FailClosed);
      }
      var waited := stateBefore.pending == Some(CLARIFICATION);
      if waited && state.pending == Some(CLARIFICATION) && steps[0] != CLARIFY {
        state := state.(pending := None);
      }
      return Some(Planner(status.envelope));
    }

    /** A turn: the planner first, then, if it passes, the handler that would have answered without it. */
    method Answer(steps: seq<string>, allowed: set<string>, handlers: map<string, Behaviour>, legacy: Behaviour)
      returns (reply: Reply)
      modifies this
      ensures reply.Legacy? <==> PlanReply(steps, allowed, handlers, old(state)).None?
      ensures tools == old(tools) + if reply.Legacy? then legacy.tools
                                    else Step(steps, allowed, handlers).GetOr(Behaviour([], old(state), Raises)).tools
      ensures !reply.Legacy? ==> Some(reply) == PlanReply(steps, allowed, handlers, old(state))
    {
      var planned := Plan(steps, allowed, handlers);
      if planned.Some? { return planned.value; }
      Act(legacy);
      return Legacy(if legacy.answer.Envelope? then legacy.answer.text else "");
    }
  }

  /** The behaviour the executor runs, if it runs any. */
  function Step(steps: seq<string>, allowed: set<string>, handlers: map<string, Behaviour>): Option<Behaviour> {
    if |steps| == 1 && steps[0] in allowed then Get(handlers, steps[0]) else None
  }

  /** A successful step other than a clarification answers the clarification that was asked before. */
  function Answered(before: State, after: State, step: string): State {
    if before.pending == Some(CLARIFICATION) && after.pending == Some(CLARIFICATION) && step != CLARIFY
    then after.(pending := None)
    else after
  }

  predicate HasEffect(b: Behaviour, state: State) {
    b.tools != [] || b.state != state
  }

  /** The planner answers when it succeeded or when it may have done something; else it leaves the turn to others. */
  function PlanReply(steps: seq<string>, allowed: set<string>, handlers: map<string, Behaviour>, state: State)
    : Option<Reply>
  {
    var b := Step(steps, allowed, handlers);
    if b.None? then None
    else if b.value.answer.Envelope? then Some(Planner(b.value.answer.text))
    else if HasEffect(b.value, state) then Some(FailClosed)
    else None
  }

  /** A step runs exactly if the plan has one step, which is allowed and has a handler. */
  lemma StepIsExact(steps: seq<string>, allowed: set<string>, handlers: map<string, Behaviour>)
    ensures Step(steps, allowed, handlers).Some? <==> |steps| == 1 && steps[0] in allowed && steps[0] in handlers
    ensures Step(steps, allowed, handlers).Some? ==> Step(steps, allowed, handlers).value == handlers[steps[0]]
  {
  }

  /**
   * The planner answers with what its step answered; it gives the turn up if the step failed after doing something, and
   * passes the turn on exactly if nothing ran or nothing was done.
   */
  lemma PlanIsExact(steps: seq<string>, allowed: set<string>, handlers: map<string, Behaviour>, state: State)
    ensures var reply, b := PlanReply(steps, allowed, handlers, state), Step(steps, allowed, handlers);
      && (reply.None? <==> b.None? || (!b.value.answer.Envelope? && b.value.tools == [] && b.value.state == state))
      && (reply == Some(FailClosed) <==>
            b.Some? && !b.value.answer.Envelope? && (b.value.tools != [] || b.value.state != state))
      && (b.Some? && b.value.answer.Envelope? ==> reply == Some(Planner(b.value.answer.text)))
  {
  }

  /** A clarification asked before is settled by any other step that succeeds, and by that alone. */
  lemma ClarificationIsSettled(before: State, after: State, step: string)
    ensures var t := Answered(before, after, step);
      && t.rest == after.rest
      && (t.pending != after.pending ==> before.pending == Some(CLARIFICATION) && after.pending == Some(CLARIFICATION))
      && (before.pending == Some(CLARIFICATION) && step != CLARIFY ==> t.pending != Some(CLARIFICATION))
      && (step == CLARIFY ==> t == after)
  {
  }
}
