/**
 * What more holds of the start protocol when one turn runs at a time, as under the Web turn lock.
 */
module StartOrder {
  import opened DeviceCommand
  import opened TaskState
  import opened TaskStateRepository
  import opened StartProtocol

  // ---- one turn at a time ----

  predicate AllClosed(turns: seq<Turn>) {
    forall t :: t in turns ==> t.phase.Closed?
  }

  /** A turn opens only while no other is open; a reset may come at any time, as it does inside a turn. */
  predicate OneAtATime(w: World, e: Event) {
    e.Open? ==> AllClosed(w.turns)
  }

  predicate Serial(events: seq<Event>) {
    forall n :: 0 <= n < |events| ==> OneAtATime(Run(INITIAL, events[..n]), events[n])
  }

  predicate Ordered(w: World) {
    && (forall d :: d in w.log ==> d.start.id.action in w.minted && w.minted[d.start.id.action].turn < d.turn)
    && (forall a :: a in w.minted && w.minted[a].from.Some? ==>
          w.minted[a].from.value in w.minted && w.minted[w.minted[a].from.value].turn < w.minted[a].turn)
  }

  /** The turn knows the stored record, or a reset has come over it. */
  predicate Current(u: Uow, r: Record) {
    u.revision == r.revision || u.generation < r.generation
  }

  ghost predicate SerialInv(w: World) {
    && (forall i :: 0 <= i < |w.turns| && !w.turns[i].phase.Closed? ==>
          && i == |w.turns| - 1
          && Current(w.turns[i].uow, w.record)
          && Exclusive(w.turns[i].uow.local))
    && Exclusive(w.record.state)
    && Ordered(w)
  }

  /** `v` has at most what turn `i` added to the mints and the log of `w`. */
  predicate GrownBy(w: World, v: World, i: nat) {
    && |v.turns| == |w.turns|
    && (forall a :: a in w.minted ==> a in v.minted && v.minted[a] == w.minted[a])
    && (forall a :: a in v.minted && a !in w.minted ==> v.minted[a].turn == i)
    && (forall d :: d in v.log && d !in w.log ==> d.turn == i)
  }

  lemma TurnEventGrows(w: World, e: Event)
    requires Enabled(w, e) && !e.Open? && !e.ResetThread?
    ensures GrownBy(w, Next(w, e), e.turn)
  {
  }

  lemma GrowthStaysOrdered(w: World, v: World, i: nat)
    requires Ordered(w) && Inv(v) && GrownBy(w, v, i) && i == |w.turns| - 1
    ensures Ordered(v)
  {
    forall d | d in v.log ensures d.start.id.action in v.minted && v.minted[d.start.id.action].turn < d.turn {
      assert EntryOk(v, d);
      assert MintOk(v, d.start.id.action);
    }
    forall a | a in v.minted && v.minted[a].from.Some?
      ensures v.minted[a].from.value in v.minted && v.minted[v.minted[a].from.value].turn < v.minted[a].turn
    {
      assert MintOk(v, a);
      assert MintOk(v, v.minted[a].from.value);
    }
  }

  /** Turn `i` stays current and exclusive, or closes; the other turns stay as they are. */
  ghost predicate OwnTurnOk(w: World, v: World, i: nat)
    requires i < |w.turns|
  {
    && |v.turns| == |w.turns|
    && (forall x :: 0 <= x < |v.turns| && x != i ==> v.turns[x] == w.turns[x])
    && Exclusive(v.record.state)
    && (!v.turns[i].phase.Closed? ==>
          Current(v.turns[i].uow, v.record) && Exclusive(v.turns[i].uow.local))
  }

  lemma FlushOwnTurn(w: World, i: nat, now: int)
    requires Inv(w) && SerialInv(w) && Enabled(w, Event.Flush(i, now))
    ensures OwnTurnOk(w, AfterFlush(w, i, now), i)
  {
    assert TurnOk(w.turns[i], w.record, w.minted);
    SettleKeepsExclusive(w.turns[i].uow.local, now);
  }

  lemma ClaimOwnTurn(w: World, i: nat, now: int)
    requires Inv(w) && SerialInv(w) && Enabled(w, Claim(i, now))
    ensures OwnTurnOk(w, AfterClaim(w, i, now), i)
  {
  }

  lemma ReturnOwnTurn(w: World, i: nat, attempt: Attempt, now: int)
    requires Inv(w) && SerialInv(w) && Enabled(w, Return(i, attempt, now))
    ensures OwnTurnOk(w, AfterReturn(w, i, attempt, now), i)
  {
    assert TurnOk(w.turns[i], w.record, w.minted);
    FinishKeepsExclusive(w.turns[i].uow.local, w.turns[i].phase.start, attempt, w.turns[i].phase.lang, now);
  }

  lemma AnswerKeepsExclusive(s: State, m: Message, voice: bool, id: Identity, now: int)
    requires Exclusive(s)
    ensures Exclusive(AnswerPending(s, m, voice, id, now).s)
  {
  }

  lemma SayOwnTurn(w: World, i: nat, m: Message, voice: bool, id: Identity, now: int)
    requires Inv(w) && SerialInv(w) && Enabled(w, Say(i, m, voice, id, now))
    ensures OwnTurnOk(w, AfterSay(w, i, m, voice, id, now), i)
  {
    AnswerKeepsExclusive(w.turns[i].uow.local, m, voice, id, now);
  }

  lemma PlainOwnTurn(w: World, e: Event)
    requires SerialInv(w) && Enabled(w, e) && !e.Open? && !e.ResetThread? && !w.turns[e.turn].phase.Closed?
    requires !e.Say? && !e.Flush? && !e.Claim? && !e.Return?
    ensures OwnTurnOk(w, Next(w, e), e.turn)
  {
    if e.AskPrepare? {
      PrepareKeepsExclusive(w.turns[e.turn].uow.local, e.recipe, e.online, e.minted, e.lang, e.now);
    }
  }

  lemma OwnTurnStep(w: World, e: Event)
    requires Inv(w) && SerialInv(w) && Enabled(w, e) && !e.Open? && !e.ResetThread? && !w.turns[e.turn].phase.Closed?
    ensures OwnTurnOk(w, Next(w, e), e.turn)
  {
    match e
    case Say(i, m, voice, id, now) => SayOwnTurn(w, i, m, voice, id, now);
    case Flush(i, now) => FlushOwnTurn(w, i, now);
    case Claim(i, now) => ClaimOwnTurn(w, i, now);
    case Return(i, attempt, now) => ReturnOwnTurn(w, i, attempt, now);
    case _ => PlainOwnTurn(w, e);
  }

  lemma SerialTurnStep(w: World, e: Event)
    requires Inv(w) && SerialInv(w) && Enabled(w, e) && !e.Open? && !e.ResetThread?
    ensures SerialInv(Next(w, e))
  {
    var v := Next(w, e);
    if w.turns[e.turn].phase.Closed? {
      assert v == w;
    } else {
      EveryEventKeepsInv(w, e);
      TurnEventGrows(w, e);
      GrowthStaysOrdered(w, v, e.turn);
      OwnTurnStep(w, e);
    }
  }

  /** Every event keeps it: an opening, a reset in or between turns, and whatever the open turn does. */
  lemma SerialStep(w: World, e: Event)
    requires Inv(w) && SerialInv(w) && OneAtATime(w, e)
    ensures SerialInv(Next(w, e))
  {
    if e.ResetThread? {
      var v := Next(w, e);
      forall i | 0 <= i < |v.turns| && !v.turns[i].phase.Closed? ensures Current(v.turns[i].uow, v.record) {
        assert TurnOk(w.turns[i], w.record, w.minted);
      }
    } else if Enabled(w, e) && !e.Open? {
      SerialTurnStep(w, e);
    }
  }

  lemma {:induction false} SerialRuns(events: seq<Event>)
    requires Serial(events)
    ensures SerialInv(Run(INITIAL, events))
    decreases |events|
  {
    if events != [] {
      var n := |events| - 1;
      var init := events[..n];
      forall k | 0 <= k < |init| ensures OneAtATime(Run(INITIAL, init[..k]), init[k]) {
        assert init[..k] == events[..k];
      }
      SerialRuns(init);
      EveryRunKeepsInv(init);
      SerialStep(Run(INITIAL, init), events[n]);
    }
  }

  /** With one turn at a time no start ever waits beside a start whose result is not known. */
  lemma SerialRunsStayExclusive(events: seq<Event>)
    requires Serial(events)
    ensures var w := Run(INITIAL, events);
            && Exclusive(w.record.state)
            && (forall t :: t in w.turns && !t.phase.Closed? ==> Exclusive(t.uow.local))
  {
    SerialRuns(events);
  }

  /**
   * With one turn at a time the prompt of every command came in an earlier turn; after a choice
   * among several devices two earlier turns, the device question first and the prompt second.
   */
  lemma SerialAuthorisation(events: seq<Event>, d: Dispatch)
    requires Serial(events) && d in Run(INITIAL, events).log
    ensures var w := Run(INITIAL, events);
            && d.start.id.action in w.minted
            && var prompt := w.minted[d.start.id.action];
               && prompt.turn < d.turn
               && (prompt.from.Some? ==>
                     prompt.from.value in w.minted && w.minted[prompt.from.value].turn < prompt.turn)
  {
    SerialRuns(events);
  }
}
