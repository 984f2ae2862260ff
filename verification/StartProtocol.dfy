/**
 * Many turns on one thread, interleaved in any order: what a history of `Event`s does to the stored
 * record, to every open turn and to the log of commands handed to the device.
 */
module StartProtocol {
  import opened Languages
  import opened Options
  import opened DeviceCommand
  import opened TaskState
  import opened TaskStateRepository

  datatype Phase =
    | Listening                                                              // before the device handler
    | Working                                                                // later handlers of the turn
    | Confirming(expected: ActionId, lang: Option<Lang>, flushed: bool)      // about to claim
    | InFlight(start: Pending, lang: Option<Lang>)                           // claimed, inside execute_cook
    | Answered                                                               // only saving is left
    | Closed

  datatype Turn = Turn(uow: Uow, phase: Phase)

  /** Where a start came from: the prompt shown for it, the turn that showed it, the device question before it. */
  datatype Mint = Mint(start: Pending, turn: nat, generation: nat, from: Option<ActionId>)

  /** One return of `execute_cook`, or a crash inside it. */
  datatype Dispatch = Dispatch(turn: nat, start: Pending, sent: Sent)

  datatype World = World(record: Record, turns: seq<Turn>, minted: map<ActionId, Mint>, log: seq<Dispatch>)

  const INITIAL := World(Record(EMPTY, 0, 0), [], map[], [])

  datatype Event =
    | Open
    | Touch(turn: nat, s: State)
    | Refresh(turn: nat)
    | GiveUp(turn: nat, now: int)
    | Say(turn: nat, m: Message, voice: bool, minted: Identity, now: int)
    | AskPrepare(turn: nat, recipe: Recipe, online: seq<Device>, minted: Identity, lang: Option<Lang>, now: int)
    | AskStop(turn: nat, stopped: bool, now: int)
    | Flush(turn: nat, now: int)
    | Claim(turn: nat, now: int)
    | Return(turn: nat, attempt: Attempt, now: int)
    | Crash(turn: nat, sent: Sent)
    | Close(turn: nat)
    | ResetThread

  function SetTurn(w: World, i: nat, t: Turn): World
    requires i < |w.turns|
  {
    w.(turns := w.turns[i := t])
  }

  function SetLocal(w: World, i: nat, s: State, phase: Phase): World
    requires i < |w.turns|
  {
    SetTurn(w, i, Turn(w.turns[i].uow.(local := s), phase))
  }

  predicate IsNow(s: State, id: Identity) {
    s.pending.Some? && s.pending.value.id == id
  }

  /** Registers the start a handler has just put up, if it put one up. */
  function Register(w: World, i: nat, id: Identity, from: Option<ActionId>): World
    requires i < |w.turns|
  {
    var u := w.turns[i].uow;
    if IsNow(u.local, id) then
      w.(minted := w.minted[id.action := Mint(u.local.pending.value, i, u.generation, from)])
    else w
  }

  predicate InPhase(w: World, i: nat, phase: Phase) {
    i < |w.turns| && w.turns[i].phase == phase
  }

  /** Searches, edits of search conditions and chat may drop the pending start but never put one up. */
  predicate OtherHandlerMay(before: State, after: State) {
    && (after.pending == before.pending || after.pending.None?)
    && after.execution == before.execution && after.active == before.active
  }

  /** Whether an event can happen; one that cannot leaves the world as it is. */
  predicate Enabled(w: World, e: Event) {
    match e
    case Open => true
    case ResetThread => true
    case Touch(i, s) =>
      (InPhase(w, i, Listening) || InPhase(w, i, Working)) && OtherHandlerMay(w.turns[i].uow.local, s)
    case Refresh(i) => InPhase(w, i, Listening)
    case GiveUp(i, _) => InPhase(w, i, Listening)
    case Say(i, _, _, id, _) => InPhase(w, i, Listening) && id.action !in w.minted
    case AskPrepare(i, _, _, id, _, _) => InPhase(w, i, Working) && id.action !in w.minted
    case AskStop(i, _, _) => InPhase(w, i, Working)
    case Flush(i, _) => i < |w.turns| && !w.turns[i].phase.Closed? && !w.turns[i].phase.InFlight?
    case Claim(i, _) => i < |w.turns| && w.turns[i].phase.Confirming? && w.turns[i].phase.flushed
    case Return(i, _, _) => i < |w.turns| && w.turns[i].phase.InFlight?
    case Crash(i, _) => i < |w.turns| && w.turns[i].phase.InFlight?
    case Close(i) => i < |w.turns| && !w.turns[i].phase.InFlight?
  }

  function AfterSay(w: World, i: nat, m: Message, voice: bool, id: Identity, now: int): World
    requires i < |w.turns|
  {
    var before := w.turns[i].uow.local;
    match AnswerPending(before, m, voice, id, now)
    case NotHandled(s) => SetLocal(w, i, s, Working)
    case Replied(s) =>
      Register(SetLocal(w, i, s, Answered), i, id,
               if before.pending.Some? then Some(before.pending.value.id.action) else None)
    case Claiming(s, p) => SetLocal(w, i, s, Confirming(p.id.action, Some(p.lang.GetOr(Zh)), false))
  }

  function AfterFlush(w: World, i: nat, now: int): World
    requires i < |w.turns|
  {
    var t := w.turns[i];
    var o := FlushOnce(t.uow, w.record, now);
    var phase := if t.phase.Confirming? then t.phase.(flushed := true) else t.phase;
    if o.ok then SetTurn(w.(record := o.record), i, Turn(o.uow, phase))
    else if t.phase.Confirming? then SetTurn(w, i, t.(phase := Answered))   // caught; the turn goes on to its last save
    else SetTurn(w, i, t.(phase := Closed))   // the conflict is raised and the turn's copy discarded
  }

  function AfterClaim(w: World, i: nat, now: int): World
    requires i < |w.turns| && w.turns[i].phase.Confirming?
  {
    var t := w.turns[i];
    var o := ClaimStart(t.uow, w.record, t.phase.expected, now);
    SetTurn(w.(record := o.record), i,
            Turn(o.uow, if o.payload.Some? then InFlight(o.payload.value, t.phase.lang) else Answered))
  }

  function AfterReturn(w: World, i: nat, attempt: Attempt, now: int): World
    requires i < |w.turns| && w.turns[i].phase.InFlight?
  {
    var t := w.turns[i];
    var r := ExecuteCook(attempt);
    SetLocal(w, i, Finish(t.uow.local, t.phase.start, r, t.phase.lang, now), Answered)
    .(log := w.log + [Dispatch(i, t.phase.start, r.sent)])
  }

  function Next(w: World, e: Event): World {
    if !Enabled(w, e) then w
    else
      match e
      case Open => w.(turns := w.turns + [Turn(Opened(w.record), Listening)])
      case ResetThread => w.(record := Reset(w.record))
      case Touch(i, s) => SetLocal(w, i, s, w.turns[i].phase)
      case Refresh(i) => SetTurn(w, i, Turn(Opened(w.record), Listening))
      case GiveUp(i, now) => SetLocal(w, i, Abandon(w.turns[i].uow.local, now), Answered)
      case Say(i, m, voice, id, now) => AfterSay(w, i, m, voice, id, now)
      case AskPrepare(i, recipe, online, id, lang, now) =>
        Register(SetLocal(w, i, Prepare(w.turns[i].uow.local, recipe, online, id, lang, now), Working), i, id, None)
      case AskStop(i, stopped, now) => SetLocal(w, i, Stop(w.turns[i].uow.local, stopped, now), Working)
      case Flush(i, now) => AfterFlush(w, i, now)
      case Claim(i, now) => AfterClaim(w, i, now)
      case Return(i, attempt, now) => AfterReturn(w, i, attempt, now)
      case Crash(i, sent) =>
        SetTurn(w, i, w.turns[i].(phase := Closed)).(log := w.log + [Dispatch(i, w.turns[i].phase.start, sent)])
      case Close(i) => SetTurn(w, i, w.turns[i].(phase := Closed))
  }

  function Run(w: World, events: seq<Event>): World
    decreases |events|
  {
    if events == [] then w else Next(Run(w, events[..|events| - 1]), events[|events| - 1])
  }

  // ---- the invariant ----

  /** `p` is the start that was prompted under its id; only language and time may have moved since. */
  predicate Bound(p: Pending, minted: map<ActionId, Mint>, generation: nat) {
    && p.id.action in minted
    && p.(lang := minted[p.id.action].start.lang, ts := minted[p.id.action].start.ts) == minted[p.id.action].start
    && minted[p.id.action].generation == generation
  }

  predicate BoundState(s: State, minted: map<ActionId, Mint>, generation: nat) {
    s.pending.Some? ==> Bound(s.pending.value, minted, generation)
  }

  predicate PhaseOk(t: Turn, minted: map<ActionId, Mint>) {
    match t.phase
    case Confirming(expected, _, _) =>
      expected in minted && minted[expected].start.devices == [] && minted[expected].generation == t.uow.generation
    case InFlight(p, _) =>
      && Bound(p, minted, t.uow.generation) && p.devices == []
      && t.uow.local == t.uow.baseline && t.uow.local.pending.None?
      && t.uow.local.execution.Some?
      && t.uow.local.execution.value.start.id.action == p.id.action
      && t.uow.local.execution.value.status == Dispatching
    case _ => true
  }

  predicate TurnOk(t: Turn, r: Record, minted: map<ActionId, Mint>) {
    !t.phase.Closed? ==>
      && Versioned(t.uow, r)
      && BoundState(t.uow.local, minted, t.uow.generation)
      && BoundState(t.uow.baseline, minted, t.uow.generation)
      && PhaseOk(t, minted)
  }

  /** The turn has put up a start that the store does not know yet, or is sending one. */
  predicate Holds(t: Turn, a: ActionId) {
    || (t.phase.InFlight? && t.phase.start.id.action == a)
    || (!t.phase.Closed? && t.uow.local.pending.Some? && t.uow.local.pending.value.id.action == a
        && t.uow.local.pending != t.uow.baseline.pending)
  }

  predicate Stored(r: Record, a: ActionId) {
    r.state.pending.Some? && r.state.pending.value.id.action == a
  }

  /** Some command with this id was sent, or may have been. */
  predicate Spent(log: seq<Dispatch>, a: ActionId) {
    exists i :: 0 <= i < |log| && log[i].start.id.action == a && log[i].sent != No
  }

  /** Each id lies in at most one place from which it can still be sent, and in none once spent. */
  ghost predicate Tokens(w: World) {
    && (forall a, i, j {:trigger Holds(w.turns[i], a), Holds(w.turns[j], a)} ::
          0 <= i < j < |w.turns| ==> !(Holds(w.turns[i], a) && Holds(w.turns[j], a)))
    && (forall a, i {:trigger Holds(w.turns[i], a)} ::
          0 <= i < |w.turns| && Holds(w.turns[i], a) ==> !Stored(w.record, a) && !Spent(w.log, a))
    && (w.record.state.pending.Some? ==> !Spent(w.log, w.record.state.pending.value.id.action))
  }

  predicate HasNotMinted(phase: Phase) {
    phase.Listening? || phase.Confirming? || phase.InFlight?
  }

  predicate MintOk(w: World, a: ActionId)
    requires a in w.minted
  {
    var m := w.minted[a];
    && m.start.id.action == a
    && m.turn < |w.turns| && m.generation <= w.record.generation
    && !HasNotMinted(w.turns[m.turn].phase)
    && (m.from.Some? ==> SelectedFrom(w.minted, m))
  }

  /** A start for a chosen device continues the device question of another turn. */
  predicate SelectedFrom(minted: map<ActionId, Mint>, m: Mint)
    requires m.from.Some?
  {
    && m.from.value in minted
    && var asked := minted[m.from.value];
       && asked.turn != m.turn
       && m.start.devices == [] && asked.start.devices != []
       && m.start.cookId == asked.start.cookId && m.start.name == asked.start.name
       && (exists d :: d in asked.start.devices && m.start.deviceId == Some(d.id))
  }

  ghost predicate Mints(w: World) {
    forall a :: a in w.minted ==> MintOk(w, a)
  }

  predicate EntryOk(w: World, d: Dispatch) {
    && d.turn < |w.turns|
    && d.start.devices == []
    && d.start.id.action in w.minted
    && Bound(d.start, w.minted, w.minted[d.start.id.action].generation)
    && w.minted[d.start.id.action].turn != d.turn
  }

  ghost predicate Logged(w: World) {
    && (forall d :: d in w.log ==> EntryOk(w, d))
    && (forall i, j :: 0 <= i < j < |w.log| && w.log[i].start.id.action == w.log[j].start.id.action
          ==> w.log[i].sent == No)
  }

  ghost predicate Inv(w: World) {
    && (forall i :: 0 <= i < |w.turns| ==> TurnOk(w.turns[i], w.record, w.minted))
    && BoundState(w.record.state, w.minted, w.record.generation)
    && Tokens(w) && Mints(w) && Logged(w)
  }

  // ---- every event keeps it ----

  /** A turn that drops starts but puts up no new one keeps the invariant. */
  lemma LocalKeepsInv(w: World, i: nat, t: Turn)
    requires Inv(w) && i < |w.turns| && !w.turns[i].phase.Closed? && !w.turns[i].phase.InFlight?
    requires TurnOk(t, w.record, w.minted)
    requires forall a :: Holds(t, a) ==> Holds(w.turns[i], a)
    requires HasNotMinted(t.phase) ==> HasNotMinted(w.turns[i].phase)
    ensures Inv(SetTurn(w, i, t))
  {
    var v := SetTurn(w, i, t);
    forall a | a in v.minted ensures MintOk(v, a) {
      assert MintOk(w, a);
    }
    forall d | d in v.log ensures EntryOk(v, d) {
      assert EntryOk(w, d);
    }
    forall a, x | 0 <= x < |v.turns| ensures Holds(v.turns[x], a) ==> Holds(w.turns[x], a) {
    }
  }

  lemma TurnOkGrows(t: Turn, r: Record, minted: map<ActionId, Mint>, a: ActionId, m: Mint)
    requires TurnOk(t, r, minted) && a !in minted
    ensures TurnOk(t, r, minted[a := m])
  {
  }

  /** Nobody holds, stores or has sent an id that was never minted. */
  lemma FreshIsNowhere(w: World, a: ActionId)
    requires Inv(w) && a !in w.minted
    ensures !Stored(w.record, a) && !Spent(w.log, a)
    ensures forall i :: 0 <= i < |w.turns| ==> !Holds(w.turns[i], a)
  {
    forall i | 0 <= i < |w.turns| ensures !Holds(w.turns[i], a) {
      assert TurnOk(w.turns[i], w.record, w.minted);
    }
    forall i | 0 <= i < |w.log| ensures w.log[i].start.id.action != a {
      assert EntryOk(w, w.log[i]);
    }
  }

  /** A turn that puts up one new start under a new id, registered for it, keeps the invariant. */
  lemma MintKeepsInv(w: World, i: nat, s: State, phase: Phase, id: Identity, from: Option<ActionId>)
    requires Inv(w) && i < |w.turns| && !w.turns[i].phase.Closed? && !w.turns[i].phase.InFlight?
    requires id.action !in w.minted && IsNow(s, id)
    requires phase.Working? || phase.Answered?
    requires from.Some? ==>
               SelectedFrom(w.minted, Mint(s.pending.value, i, w.turns[i].uow.generation, from))
    ensures Inv(Register(SetLocal(w, i, s, phase), i, id, from))
  {
    var u := w.turns[i].uow;
    var m := Mint(s.pending.value, i, u.generation, from);
    var v := Register(SetLocal(w, i, s, phase), i, id, from);
    assert v.minted == w.minted[id.action := m];
    FreshIsNowhere(w, id.action);
    forall x | 0 <= x < |v.turns| ensures TurnOk(v.turns[x], v.record, v.minted) {
      TurnOkGrows(w.turns[x], w.record, w.minted, id.action, m);
    }
    forall a | a in v.minted ensures MintOk(v, a) {
      if a != id.action {
        assert MintOk(w, a);
      }
    }
    forall d | d in v.log ensures EntryOk(v, d) {
      assert EntryOk(w, d);
    }
    forall a, x | 0 <= x < |v.turns|
      ensures Holds(v.turns[x], a) <==> if x == i then a == id.action else Holds(w.turns[x], a)
    {
      if x == i {
        assert TurnOk(w.turns[i], w.record, w.minted);
      }
    }
  }

  /** The device chosen among those of the question puts up a new start. */
  lemma ChoiceKeepsInv(w: World, i: nat, m: Message, voice: bool, id: Identity, now: int)
    requires Inv(w) && Enabled(w, Say(i, m, voice, id, now))
    requires var step := AnswerPending(w.turns[i].uow.local, m, voice, id, now); step.Replied? && IsNow(step.s, id)
    ensures Inv(AfterSay(w, i, m, voice, id, now))
  {
    var u := w.turns[i].uow;
    assert TurnOk(w.turns[i], w.record, w.minted);
    var p := u.local.pending.value;
    assert MintOk(w, p.id.action);
    assert p.devices[m.choice.value] in p.devices;
    MintKeepsInv(w, i, AnswerPending(u.local, m, voice, id, now).s, Answered, id, Some(p.id.action));
  }

  function PhaseAfter(step: PendingStep): Phase {
    match step
    case NotHandled(_) => Working
    case Replied(_) => Answered
    case Claiming(_, p) => Confirming(p.id.action, Some(p.lang.GetOr(Zh)), false)
  }

  lemma AnswerTurnOk(t: Turn, r: Record, minted: map<ActionId, Mint>, m: Message, voice: bool, id: Identity, now: int)
    requires TurnOk(t, r, minted) && t.phase.Listening?
    requires !IsNow(AnswerPending(t.uow.local, m, voice, id, now).s, id)
    ensures var step := AnswerPending(t.uow.local, m, voice, id, now);
            && TurnOk(Turn(t.uow.(local := step.s), PhaseAfter(step)), r, minted)
            && (step.s.pending == t.uow.local.pending || step.s.pending.None?)
  {
  }

  lemma SayKeepsInv(w: World, i: nat, m: Message, voice: bool, id: Identity, now: int)
    requires Inv(w) && Enabled(w, Say(i, m, voice, id, now))
    ensures Inv(AfterSay(w, i, m, voice, id, now))
  {
    var t := w.turns[i];
    var step := AnswerPending(t.uow.local, m, voice, id, now);
    assert TurnOk(t, w.record, w.minted);
    if IsNow(step.s, id) {
      StartsAreMinted(t, w.record, w.minted);
      ChoiceKeepsInv(w, i, m, voice, id, now);
    } else {
      AnswerTurnOk(t, w.record, w.minted, m, voice, id, now);
      LocalKeepsInv(w, i, Turn(t.uow.(local := step.s), PhaseAfter(step)));
    }
  }

  lemma StartsAreMinted(t: Turn, r: Record, minted: map<ActionId, Mint>)
    requires TurnOk(t, r, minted) && !t.phase.Closed? && t.uow.local.pending.Some?
    ensures t.uow.local.pending.value.id.action in minted
  {
  }

  lemma PrepareKeepsInv(
    w: World, i: nat, recipe: Recipe, online: seq<Device>, id: Identity, lang: Option<Lang>, now: int)
    requires Inv(w) && Enabled(w, AskPrepare(i, recipe, online, id, lang, now))
    ensures Inv(Next(w, AskPrepare(i, recipe, online, id, lang, now)))
  {
    var u := w.turns[i].uow;
    assert TurnOk(w.turns[i], w.record, w.minted);
    var s := Prepare(u.local, recipe, online, id, lang, now);
    if IsNow(s, id) {
      MintKeepsInv(w, i, s, Working, id, None);
    } else {
      LocalKeepsInv(w, i, Turn(u.(local := s), Working));
    }
  }

  /** A new stored record and one changed turn, whose unsaved start may move into the store. */
  lemma StoreKeepsInv(w: World, i: nat, t: Turn, r: Record)
    requires Inv(w) && i < |w.turns|
    requires r.revision > w.record.revision && r.generation == w.record.generation
    requires TurnOk(t, r, w.minted) && BoundState(r.state, w.minted, r.generation)
    requires forall a :: Holds(t, a) ==> (Holds(w.turns[i], a) || Stored(w.record, a)) && !Stored(r, a)
    requires forall a :: Stored(r, a) ==> Holds(w.turns[i], a) || Stored(w.record, a)
    requires HasNotMinted(t.phase) ==> HasNotMinted(w.turns[i].phase)
    ensures Inv(SetTurn(w.(record := r), i, t))
  {
    var v := SetTurn(w.(record := r), i, t);
    forall x | 0 <= x < |v.turns| ensures TurnOk(v.turns[x], v.record, v.minted) {
      assert TurnOk(w.turns[x], w.record, w.minted);
    }
    forall a | a in v.minted ensures MintOk(v, a) {
      assert MintOk(w, a);
    }
    forall d | d in v.log ensures EntryOk(v, d) {
      assert EntryOk(w, d);
    }
    forall a, x | 0 <= x < |v.turns| && x != i ensures Holds(v.turns[x], a) <==> Holds(w.turns[x], a) {
    }
    forall a, x, y | 0 <= x < y < |v.turns| ensures !(Holds(v.turns[x], a) && Holds(v.turns[y], a)) {
      if x == i && Holds(t, a) {
        assert Holds(w.turns[i], a) || Stored(w.record, a);
        assert !Holds(w.turns[y], a);
      }
      if y == i && Holds(t, a) {
        assert Holds(w.turns[i], a) || Stored(w.record, a);
        assert !Holds(w.turns[x], a);
      }
    }
    forall a, x | 0 <= x < |v.turns|
      ensures Holds(v.turns[x], a) ==> !Stored(v.record, a) && !Spent(v.log, a)
    {
      if x == i {
        assert Holds(t, a) ==> Holds(w.turns[i], a) || Stored(w.record, a);
      } else if Holds(v.turns[x], a) {
        assert Holds(w.turns[x], a) && !Holds(w.turns[i], a) && !Stored(w.record, a);
      }
    }
    if r.state.pending.Some? {
      var a := r.state.pending.value.id.action;
      assert Stored(r, a);
    }
  }

  /** The start a flush stores is the turn's own new one, the one stored before, or none. */
  lemma FlushedPending(u: Uow, r: Record, now: int)
    requires Versioned(u, r) && FlushOnce(u, r, now).ok && FlushOnce(u, r, now).record != r
    ensures var o := FlushOnce(u, r, now);
            && o.record.revision == r.revision + 1 && o.record.generation == r.generation == u.generation
            && o.uow == Opened(o.record)
            && (o.record.state.pending.None? || o.record.state.pending == r.state.pending
                || (o.record.state.pending == u.local.pending && u.local.pending != u.baseline.pending))
  {
  }

  lemma FlushStores(w: World, i: nat, now: int)
    requires Inv(w) && Enabled(w, Event.Flush(i, now))
    requires FlushOnce(w.turns[i].uow, w.record, now).ok && FlushOnce(w.turns[i].uow, w.record, now).record != w.record
    ensures Inv(AfterFlush(w, i, now))
  {
    var t := w.turns[i];
    assert TurnOk(t, w.record, w.minted);
    var o := FlushOnce(t.uow, w.record, now);
    FlushedPending(t.uow, w.record, now);
    StoreKeepsInv(w, i, Turn(o.uow, if t.phase.Confirming? then t.phase.(flushed := true) else t.phase), o.record);
  }

  lemma FlushKeepsInv(w: World, i: nat, now: int)
    requires Inv(w) && Enabled(w, Event.Flush(i, now))
    ensures Inv(AfterFlush(w, i, now))
  {
    var t := w.turns[i];
    assert TurnOk(t, w.record, w.minted);
    var u := t.uow;
    var o := FlushOnce(u, w.record, now);
    var phase := if t.phase.Confirming? then t.phase.(flushed := true) else t.phase;
    var after := Settle(u.local, now);
    if !o.ok {
      LocalKeepsInv(w, i, t.(phase := if t.phase.Confirming? then Answered else Closed));
    } else if after == u.baseline || o.record == w.record {
      LocalKeepsInv(w, i, Turn(o.uow, phase));
    } else {
      FlushStores(w, i, now);
    }
  }

  /** A claim that wins is never a claim across a reset, and claims what was prompted under that id. */
  lemma WonClaim(w: World, i: nat, now: int)
    requires Inv(w) && Enabled(w, Claim(i, now))
    requires ClaimStatusOf(w.record.state, w.turns[i].phase.expected, now) == Claimed
    ensures var t := w.turns[i];
            var o := ClaimStart(t.uow, w.record, t.phase.expected, now);
            && t.uow.generation == w.record.generation
            && o.payload.Some?
            && Bound(o.payload.value, w.minted, w.record.generation) && o.payload.value.devices == []
            && o.payload.value.id.action == t.phase.expected
  {
    assert TurnOk(w.turns[i], w.record, w.minted);
  }

  lemma ClaimKeepsInv(w: World, i: nat, now: int)
    requires Inv(w) && Enabled(w, Claim(i, now))
    ensures Inv(AfterClaim(w, i, now))
  {
    var t := w.turns[i];
    assert TurnOk(t, w.record, w.minted);
    var o := ClaimStart(t.uow, w.record, t.phase.expected, now);
    var status := ClaimStatusOf(w.record.state, t.phase.expected, now);
    if status == Claimed {
      WonClaim(w, i, now);
      StoreKeepsInv(w, i, Turn(o.uow, InFlight(o.payload.value, t.phase.lang)), o.record);
    } else if status == Expired {
      StoreKeepsInv(w, i, Turn(o.uow, Answered), o.record);
    } else {
      LocalKeepsInv(w, i, Turn(o.uow, Answered));
    }
  }

  /** One more log entry for the start in flight; its turn may put it up again only if nothing was sent. */
  lemma DispatchKeepsInv(w: World, i: nat, s: State, phase: Phase, sent: Sent)
    requires Inv(w) && i < |w.turns| && w.turns[i].phase.InFlight?
    requires phase.Answered? || phase.Closed?
    requires var u := w.turns[i].uow;
             TurnOk(Turn(u.(local := s), phase), w.record, w.minted)
    requires s.pending.Some? && phase.Answered? ==>
               sent == No && s.pending.value.id.action == w.turns[i].phase.start.id.action
    ensures Inv(SetLocal(w, i, s, phase).(log := w.log + [Dispatch(i, w.turns[i].phase.start, sent)]))
  {
    var p := w.turns[i].phase.start;
    var d := Dispatch(i, p, sent);
    var v := SetLocal(w, i, s, phase).(log := w.log + [d]);
    assert TurnOk(w.turns[i], w.record, w.minted) && Holds(w.turns[i], p.id.action);
    forall a | a in v.minted ensures MintOk(v, a) {
      assert MintOk(w, a);
    }
    forall e | e in v.log ensures EntryOk(v, e) {
      assert MintOk(w, p.id.action);
      if e != d {
        assert EntryOk(w, e);
      }
    }
    forall a, x | 0 <= x < |v.turns| ensures Holds(v.turns[x], a) ==> Holds(w.turns[x], a) {
    }
    forall a | Spent(v.log, a) ensures Spent(w.log, a) || (a == p.id.action && sent != No) {
      var k :| 0 <= k < |v.log| && v.log[k].start.id.action == a && v.log[k].sent != No;
      assert k < |w.log| ==> w.log[k] == v.log[k];
    }
    forall j, k | 0 <= j < k < |v.log| && v.log[j].start.id.action == v.log[k].start.id.action
      ensures v.log[j].sent == No
    {
      assert !Spent(w.log, p.id.action);
      assert v.log[j] == w.log[j];
    }
  }

  lemma ReturnKeepsInv(w: World, i: nat, attempt: Attempt, now: int)
    requires Inv(w) && Enabled(w, Return(i, attempt, now))
    ensures Inv(AfterReturn(w, i, attempt, now))
  {
    var t := w.turns[i];
    assert TurnOk(t, w.record, w.minted);
    var r := ExecuteCook(attempt);
    RearmOnlyUnsent(t.uow.local, t.phase.start, attempt, t.phase.lang, now);
    DispatchKeepsInv(w, i, Finish(t.uow.local, t.phase.start, r, t.phase.lang, now), Answered, r.sent);
  }

  lemma OpenKeepsInv(w: World)
    requires Inv(w)
    ensures Inv(Next(w, Open))
  {
    var v := Next(w, Open);
    forall a | a in v.minted ensures MintOk(v, a) {
      assert MintOk(w, a);
    }
    forall d | d in v.log ensures EntryOk(v, d) {
      assert EntryOk(w, d);
    }
    forall a, x | 0 <= x < |v.turns| ensures Holds(v.turns[x], a) ==> x < |w.turns| && Holds(w.turns[x], a) {
    }
  }

  lemma ResetKeepsInv(w: World)
    requires Inv(w)
    ensures Inv(Next(w, ResetThread))
  {
    var v := Next(w, ResetThread);
    forall x | 0 <= x < |v.turns| ensures TurnOk(v.turns[x], v.record, v.minted) {
      assert TurnOk(w.turns[x], w.record, w.minted);
    }
    forall a | a in v.minted ensures MintOk(v, a) {
      assert MintOk(w, a);
    }
    forall d | d in v.log ensures EntryOk(v, d) {
      assert EntryOk(w, d);
    }
  }

  /** Events that only change one turn's copy, and put up nothing. */
  lemma PlainEventKeepsInv(w: World, e: Event)
    requires Inv(w) && Enabled(w, e) && (e.Touch? || e.Refresh? || e.GiveUp? || e.AskStop? || e.Close?)
    ensures Inv(Next(w, e))
  {
    var t := w.turns[e.turn];
    assert TurnOk(t, w.record, w.minted);
    match e
    case Touch(i, s) => LocalKeepsInv(w, i, Turn(t.uow.(local := s), t.phase));
    case Refresh(i) => LocalKeepsInv(w, i, Turn(Opened(w.record), Listening));
    case GiveUp(i, now) => LocalKeepsInv(w, i, Turn(t.uow.(local := Abandon(t.uow.local, now)), Answered));
    case AskStop(i, stopped, now) =>
      LocalKeepsInv(w, i, Turn(t.uow.(local := Stop(t.uow.local, stopped, now)), Working));
    case Close(i) =>
      if !t.phase.Closed? {
        LocalKeepsInv(w, i, t.(phase := Closed));
      } else {
        assert Next(w, e) == w;
      }
  }

  lemma EveryEventKeepsInv(w: World, e: Event)
    requires Inv(w)
    ensures Inv(Next(w, e))
  {
    if Enabled(w, e) {
      match e
      case Open => OpenKeepsInv(w);
      case ResetThread => ResetKeepsInv(w);
      case Say(i, m, voice, id, now) => SayKeepsInv(w, i, m, voice, id, now);
      case AskPrepare(i, recipe, online, id, lang, now) => PrepareKeepsInv(w, i, recipe, online, id, lang, now);
      case Flush(i, now) => FlushKeepsInv(w, i, now);
      case Claim(i, now) => ClaimKeepsInv(w, i, now);
      case Return(i, attempt, now) => ReturnKeepsInv(w, i, attempt, now);
      case Crash(i, sent) => DispatchKeepsInv(w, i, w.turns[i].uow.local, Closed, sent);
      case _ => PlainEventKeepsInv(w, e);
    }
  }

  lemma {:induction false} RunsKeepInv(w: World, events: seq<Event>)
    requires Inv(w)
    ensures Inv(Run(w, events))
    decreases |events|
  {
    if events != [] {
      RunsKeepInv(w, events[..|events| - 1]);
      EveryEventKeepsInv(Run(w, events[..|events| - 1]), events[|events| - 1]);
    }
  }

  lemma EveryRunKeepsInv(events: seq<Event>)
    ensures Inv(Run(INITIAL, events))
  {
    RunsKeepInv(INITIAL, events);
  }

  /** A run can be taken in two parts. */
  lemma {:induction false} RunInParts(w: World, a: seq<Event>, b: seq<Event>)
    ensures Run(w, a + b) == Run(Run(w, a), b)
    decreases |b|
  {
    if b == [] {
      assert a + b == a;
    } else {
      assert (a + b)[..|a + b| - 1] == a + b[..|b| - 1];
      RunInParts(w, a, b[..|b| - 1]);
    }
  }

  // ---- what follows for every run ----

  /**
   * At most once. However the turns interleave, an id that was sent, or may have been sent, has exactly
   * one such command, it is the last command with that id, and the id can never be sent again:
   * it is neither stored nor held by any turn.
   */
  lemma AtMostOnce(events: seq<Event>, i: nat)
    requires i < |Run(INITIAL, events).log| && Run(INITIAL, events).log[i].sent != No
    ensures var w := Run(INITIAL, events);
            var a := w.log[i].start.id.action;
            && (forall j :: i < j < |w.log| ==> w.log[j].start.id.action != a)
            && (forall j :: 0 <= j < i && w.log[j].start.id.action == a ==> w.log[j].sent == No)
            && !Stored(w.record, a)
            && (forall k :: 0 <= k < |w.turns| ==> !Holds(w.turns[k], a))
  {
    var w := Run(INITIAL, events);
    EveryRunKeepsInv(events);
    var a := w.log[i].start.id.action;
    assert Spent(w.log, a);
    forall k | 0 <= k < |w.turns| ensures !Holds(w.turns[k], a) {
    }
  }

  /**
   * Two-step authorisation. Every command that leaves, in every run, is for the recipe and the one device of
   * the prompt shown under its id, and another turn showed that prompt. If the device was
   * chosen among several, a third turn asked which, about the same recipe, and listed that device.
   */
  lemma TwoStepAuthorisation(events: seq<Event>, d: Dispatch)
    requires d in Run(INITIAL, events).log
    ensures var w := Run(INITIAL, events);
            && d.start.id.action in w.minted
            && var prompt := w.minted[d.start.id.action];
               && prompt.turn != d.turn
               && d.start.id == prompt.start.id
               && d.start.cookId == prompt.start.cookId && d.start.name == prompt.start.name
               && d.start.deviceId == prompt.start.deviceId
               && prompt.start.devices == []
               && (prompt.from.Some? ==> SelectedFrom(w.minted, prompt))
  {
    EveryRunKeepsInv(events);
    var w := Run(INITIAL, events);
    assert EntryOk(w, d);
    assert MintOk(w, d.start.id.action);
  }

  /**
   * The log grows only when a turn that won the claim leaves `execute_cook`: no message handler, stop, abandonment,
   * save, reset or losing claim ever adds a command.
   */
  lemma OnlyClaimedStartsAreSent(w: World, e: Event)
    ensures Next(w, e).log == w.log
            || ((e.Return? || e.Crash?) && e.turn < |w.turns| && w.turns[e.turn].phase.InFlight?
                && |Next(w, e).log| == |w.log| + 1 && Next(w, e).log[..|w.log|] == w.log
                && Next(w, e).log[|w.log|].start == w.turns[e.turn].phase.start)
  {
  }

  /** No other event puts a turn in flight. */
  lemma OthersTakeNothingOff(w: World, e: Event, i: nat)
    requires !e.Claim? && i < |Next(w, e).turns| && Next(w, e).turns[i].phase.InFlight?
    ensures i < |w.turns| && w.turns[i].phase.InFlight?
  {
  }

  /** And a turn is in flight only by winning the atomic claim of a start with one device. */
  lemma OnlyTheClaimTakesOff(w: World, e: Event, i: nat)
    requires Inv(w) && i < |Next(w, e).turns|
    requires Next(w, e).turns[i].phase.InFlight? && !(i < |w.turns| && w.turns[i].phase.InFlight?)
    ensures e.Claim? && e.turn == i && i < |w.turns| && w.turns[i].phase.Confirming?
            && ClaimStatusOf(w.record.state, w.turns[i].phase.expected, e.now) == Claimed
            && Next(w, e).record.state.pending.None?
  {
    if !e.Claim? {
      OthersTakeNothingOff(w, e, i);
    }
  }
}
