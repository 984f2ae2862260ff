/**
 * Turn-scoped dialogue state (app/conversation/dialogue_state_workspace.py) over the shared workspace of all threads
 * (app/conversation/task_state_workspace.py). A slot holds its dictionary as one value.
 */
module TurnPorts {
  import opened Options

  type Key = string
  type Value = string

  datatype Slot =
    | Candidates | Pending | ActiveCooking | Focus | Clarification | PendingAction | MenuTask | Selected | Excluded
    | ActiveSearch | DeviceExecution

  /** The state of one thread. */
  type State = map<Slot, Value>

  /** The shared stores, one entry per slot and thread key. */
  type Shared = map<(Slot, Key), Value>

  const SLOTS := [Candidates, Pending, ActiveCooking, Focus, Clarification, PendingAction, MenuTask, Selected, Excluded,
                  ActiveSearch, DeviceExecution]

  /** The slots `clear_thread` empties. */
  const CLEARED :=
    [Candidates, Pending, Focus, Selected, Excluded, Clarification, PendingAction, MenuTask, ActiveSearch]

  function Of(shared: Shared, key: Key): State {
    map slot: Slot | (slot, key) in shared :: shared[(slot, key)]
  }

  function With(shared: Shared, key: Key, state: State): Shared {
    (map e | e in shared && e.1 != key :: shared[e]) + map slot | slot in state :: (slot, key) := state[slot]
  }

  /** A change of one thread's state. */
  datatype Op = Put(slot: Slot, value: Value) | Drop(slot: Slot) | ClearThread

  /** Clearing a conversation keeps what stands for a real device task. */
  function Do(state: State, op: Op): State {
    match op
    case Put(slot, value) => state[slot := value]
    case Drop(slot) => state - {slot}
    case ClearThread => map slot | slot in state && (slot == ActiveCooking || slot == DeviceExecution) :: state[slot]
  }

  /** Slot by slot: a put sets one, a drop takes one, clearing takes all but running task and execution. */
  lemma DoIsExact(state: State, op: Op, slot: Slot)
    ensures op.Put? ==> Get(Do(state, op), slot) == if slot == op.slot then Some(op.value) else Get(state, slot)
    ensures op.Drop? ==> Get(Do(state, op), slot) == if slot == op.slot then None else Get(state, slot)
    ensures op.ClearThread? ==>
              Get(Do(state, op), slot) == if slot in {ActiveCooking, DeviceExecution} then Get(state, slot) else None
  {
  }

  lemma WithOf(shared: Shared, key: Key, state: State)
    ensures Of(With(shared, key, state), key) == state
  {
    assert Of(With(shared, key, state), key).Keys == state.Keys;
  }

  lemma WithOfOther(shared: Shared, key: Key, state: State, other: Key)
    requires other != key
    ensures Of(With(shared, key, state), other) == Of(shared, other)
  {
    assert Of(With(shared, key, state), other).Keys == Of(shared, other).Keys;
  }

  lemma SameStates(s: Shared, t: Shared)
    requires forall k :: Of(s, k) == Of(t, k)
    ensures s == t
  {
    forall e | e in s ensures e in t && t[e] == s[e] {
      assert e == (e.0, e.1) && e.0 in Of(s, e.1) && e.0 in Of(t, e.1);
    }
    forall e | e in t ensures e in s {
      assert e == (e.0, e.1) && e.0 in Of(t, e.1) && e.0 in Of(s, e.1);
    }
  }

  /** The stores `after` differ from `before` in one thread, which now has the given state. */
  ghost predicate Becomes(before: Shared, after: Shared, key: Key, state: State) {
    forall e: (Slot, Key) :: Get(after, e) == if e.1 == key then Get(state, e.0) else Get(before, e)
  }

  lemma BecomesIsWith(before: Shared, after: Shared, key: Key, state: State)
    requires Becomes(before, after, key, state)
    ensures after == With(before, key, state)
  {
    var with := With(before, key, state);
    forall e ensures Get(after, e) == Get(with, e) {
      assert e == (e.0, e.1);
    }
    forall e | e in after ensures e in with && with[e] == after[e] { assert Get(after, e) == Get(with, e); }
    forall e | e in with ensures e in after { assert Get(after, e) == Get(with, e); }
  }

  lemma PutIsWith(shared: Shared, key: Key, slot: Slot, value: Value)
    ensures shared[(slot, key) := value] == With(shared, key, Of(shared, key)[slot := value])
  {
    forall e: (Slot, Key) | e.1 == key ensures e == (e.0, key) {
    }
    BecomesIsWith(shared, shared[(slot, key) := value], key, Of(shared, key)[slot := value]);
  }

  lemma DropIsWith(shared: Shared, key: Key, slot: Slot)
    ensures shared - {(slot, key)} == With(shared, key, Of(shared, key) - {slot})
  {
    forall e: (Slot, Key) | e.1 == key ensures e == (e.0, key) {
    }
    BecomesIsWith(shared, shared - {(slot, key)}, key, Of(shared, key) - {slot});
  }

  /** The last state a thread is given is the one it has. */
  lemma WithWith(shared: Shared, key: Key, first: State, second: State)
    ensures With(With(shared, key, first), key, second) == With(shared, key, second)
  {
    var with := With(shared, key, first);
    forall e: (Slot, Key)
      ensures Get(With(with, key, second), e) == if e.1 == key then Get(second, e.0) else Get(shared, e)
    {
      assert e == (e.0, e.1);
    }
    BecomesIsWith(shared, With(with, key, second), key, second);
  }

  class Workspace {
    var stores: Shared

    constructor (existing: Shared)
      ensures stores == existing
    {
      stores := existing;
    }

    method Pop(slot: Slot, key: Key)
      modifies this
      ensures stores == old(stores) - {(slot, key)}
    {
      stores := stores - {(slot, key)};
    }

    /** Takes a list of slots of one thread out of the stores. */
    method PopAll(slots: seq<Slot>, key: Key)
      modifies this
      ensures forall e :: Get(stores, e) == if e.1 == key && e.0 in slots then None else Get(old(stores), e)
    {
      for n := 0 to |slots|
        invariant forall e :: Get(stores, e) == if e.1 == key && e.0 in slots[..n] then None else Get(old(stores), e)
      {
        Pop(slots[n], key);
        assert slots[..n + 1] == slots[..n] + [slots[n]];
      }
      assert slots[..|slots|] == slots;
    }

    method Set(slot: Slot, key: Key, value: Value)
      modifies this
      ensures stores == old(stores)[(slot, key) := value]
    {
      stores := stores[(slot, key) := value];
    }

    /** `clear_thread`. */
    method Clear(key: Key)
      modifies this
      ensures stores == With(old(stores), key, Do(Of(old(stores), key), ClearThread))
    {
      PopAll(CLEARED, key);
      forall e: (Slot, Key) | e.1 == key
        ensures Get(stores, e) == Get(Do(Of(old(stores), key), ClearThread), e.0)
      {
        ClearedSlots(e.0);
        assert e == (e.0, key);
      }
      BecomesIsWith(old(stores), stores, key, Do(Of(old(stores), key), ClearThread));
    }

    method Apply(key: Key, op: Op)
      modifies this
      ensures stores == With(old(stores), key, Do(Of(old(stores), key), op))
    {
      match op
      case Put(slot, value) =>
        Set(slot, key, value);
        PutIsWith(old(stores), key, slot, value);
      case Drop(slot) =>
        Pop(slot, key);
        DropIsWith(old(stores), key, slot);
      case ClearThread =>
        Clear(key);
    }

    /** `restore_thread_state`: every slot is emptied, then those of the state are set. */
    method Restore(key: Key, state: State)
      modifies this
      ensures stores == With(old(stores), key, state)
    {
      AllSlots();
      PopAll(SLOTS, key);
      for n := 0 to |SLOTS|
        invariant forall e: (Slot, Key) :: e.1 != key ==> Get(stores, e) == Get(old(stores), e)
        invariant forall e: (Slot, Key) :: e.1 == key ==>
                    Get(stores, e) == if e.0 in SLOTS[..n] then Get(state, e.0) else None
      {
        if SLOTS[n] in state { Set(SLOTS[n], key, state[SLOTS[n]]); }
        assert SLOTS[..n + 1] == SLOTS[..n] + [SLOTS[n]];
        forall e: (Slot, Key) | e.1 == key ensures e == (e.0, key) {
        }
      }
      assert SLOTS[..|SLOTS|] == SLOTS;
      BecomesIsWith(old(stores), stores, key, state);
    }
  }

  lemma AllSlots()
    ensures forall slot: Slot :: slot in SLOTS
  {
    forall slot: Slot ensures slot in SLOTS {
      match slot
      case Candidates => assert SLOTS[0] == slot;
      case Pending => assert SLOTS[1] == slot;
      case ActiveCooking => assert SLOTS[2] == slot;
      case Focus => assert SLOTS[3] == slot;
      case Clarification => assert SLOTS[4] == slot;
      case PendingAction => assert SLOTS[5] == slot;
      case MenuTask => assert SLOTS[6] == slot;
      case Selected => assert SLOTS[7] == slot;
      case Excluded => assert SLOTS[8] == slot;
      case ActiveSearch => assert SLOTS[9] == slot;
      case DeviceExecution => assert SLOTS[10] == slot;
    }
  }

  lemma ClearedSlots(slot: Slot)
    ensures slot in CLEARED <==> slot != ActiveCooking && slot != DeviceExecution
  {
    match slot
    case Candidates => assert CLEARED[0] == slot;
    case Pending => assert CLEARED[1] == slot;
    case Focus => assert CLEARED[2] == slot;
    case Selected => assert CLEARED[3] == slot;
    case Excluded => assert CLEARED[4] == slot;
    case Clarification => assert CLEARED[5] == slot;
    case PendingAction => assert CLEARED[6] == slot;
    case MenuTask => assert CLEARED[7] == slot;
    case ActiveSearch => assert CLEARED[8] == slot;
    case ActiveCooking =>
    case DeviceExecution =>
  }

  lemma SparedAreCleared(shared: Shared, key: Key, spared: State)
    requires spared.Keys <= {ActiveCooking, DeviceExecution}
    ensures With(shared, key, spared) - {(ActiveCooking, key)} - {(DeviceExecution, key)} == With(shared, key, map[])
  {
    WithOf(shared, key, spared);
    DropIsWith(With(shared, key, spared), key, ActiveCooking);
    WithWith(shared, key, spared, spared - {ActiveCooking});
    var rest := spared - {ActiveCooking};
    WithOf(shared, key, rest);
    DropIsWith(With(shared, key, rest), key, DeviceExecution);
    WithWith(shared, key, rest, rest - {DeviceExecution});
    assert rest - {DeviceExecution} == map[];
  }

  // ---- one port ----

  datatype Refusal = Closed | OtherThread

  datatype Outcome<T> = Ok(value: T) | Refused(why: Refusal)

  class TurnPort {
    const workspace: Workspace
    const thread: Key
    const internalKey: Key
    var closed: bool

    constructor (workspace: Workspace, thread: Key, internalKey: Key, initial: State)
      modifies workspace
      ensures this.workspace == workspace && this.thread == thread && this.internalKey == internalKey && !closed
      ensures workspace.stores == With(old(workspace.stores), internalKey, initial)
    {
      this.workspace, this.thread, this.internalKey, closed := workspace, thread, internalKey, false;
      new;
      workspace.Restore(internalKey, initial);
    }

    function Translated(asked: Key): Outcome<Key>
      reads this
    {
      if closed then Refused(Closed) else if asked != thread then Refused(OtherThread) else Ok(internalKey)
    }

    /** A state operation the port passes on; a refused one changes nothing. */
    method Call(asked: Key, op: Op) returns (r: Outcome<State>)
      modifies workspace
      ensures closed ==> r == Refused(Closed)
      ensures !closed && asked != thread ==> r == Refused(OtherThread)
      ensures r.Refused? ==> workspace.stores == old(workspace.stores)
      ensures !closed && asked == thread ==>
                && r == Ok(Do(Of(old(workspace.stores), internalKey), op))
                && workspace.stores == With(old(workspace.stores), internalKey, r.value)
    {
      var key := Translated(asked);
      if key.Refused? { return Refused(key.why); }
      r := Ok(Do(Of(workspace.stores, key.value), op));
      workspace.Apply(key.value, op);
    }

    method Snapshot() returns (r: Outcome<State>)
      ensures r == if closed then Refused(Closed) else Ok(Of(workspace.stores, internalKey))
    {
      if closed { return Refused(Closed); }
      return Ok(Of(workspace.stores, internalKey));
    }

    /** Clearing a conversation spares two slots, which are cleared by name. */
    method ClearInternal()
      modifies workspace
      ensures workspace.stores == With(old(workspace.stores), internalKey, map[])
    {
      ghost var was := workspace.stores;
      ghost var spared := Do(Of(was, internalKey), ClearThread);
      workspace.Clear(internalKey);
      workspace.Pop(ActiveCooking, internalKey);
      workspace.Pop(DeviceExecution, internalKey);
      SparedAreCleared(was, internalKey, spared);
    }

    method Replace(state: State) returns (r: Outcome<()>)
      modifies workspace
      ensures r == if closed then Refused(Closed) else Ok(())
      ensures closed ==> workspace.stores == old(workspace.stores)
      ensures !closed ==> workspace.stores == With(old(workspace.stores), internalKey, state)
    {
      if closed { return Refused(Closed); }
      ClearInternal();
      WithWith(old(workspace.stores), internalKey, map[], state);
      workspace.Restore(internalKey, state);
      return Ok(());
    }

    method Close()
      modifies this, workspace
      ensures closed
      ensures old(closed) ==> workspace.stores == old(workspace.stores)
      ensures !old(closed) ==> workspace.stores == With(old(workspace.stores), internalKey, map[])
    {
      if closed { return; }
      ClearInternal();
      closed := true;
    }
  }

  // ---- many ports ----

  datatype Port = Port(thread: Key, closed: bool)

  datatype World = World(shared: Shared, ports: map<nat, Port>)

  /** One step of the process: something done through port `id`, or through the default port. */
  datatype Event =
    | Open(id: nat, thread: Key, initial: State)
    | Call(id: nat, asked: Key, op: Op)
    | Replace(id: nat, state: State)
    | Close(id: nat)
    | Outside(thread: Key, op: Op)

  predicate IsOpen(w: World, id: nat) {
    id in w.ports && !w.ports[id].closed
  }

  /** The key an event is about; `keys` gives every port its internal key. */
  function Target(e: Event, keys: nat -> Key): Key {
    if e.Outside? then e.thread else keys(e.id)
  }

  /** The state an event gives that key, if it gives it a new one. */
  function NewState(w: World, e: Event, keys: nat -> Key): Option<State> {
    match e
    case Open(_, _, initial) => Some(initial)
    case Call(id, asked, op) =>
      if IsOpen(w, id) && asked == w.ports[id].thread then Some(Do(Of(w.shared, keys(id)), op)) else None
    case Replace(id, state) => if IsOpen(w, id) then Some(state) else None
    case Close(id) => if IsOpen(w, id) then Some(map[]) else None
    case Outside(thread, op) => Some(Do(Of(w.shared, thread), op))
  }

  function NewPorts(w: World, e: Event): map<nat, Port> {
    match e
    case Open(id, thread, _) => w.ports[id := Port(thread, false)]
    case Close(id) => if IsOpen(w, id) then w.ports[id := w.ports[id].(closed := true)] else w.ports
    case _ => w.ports
  }

  function Next(w: World, e: Event, keys: nat -> Key): World {
    var state := NewState(w, e, keys);
    World(if state.Some? then With(w.shared, Target(e, keys), state.value) else w.shared, NewPorts(w, e))
  }

  function Run(shared: Shared, events: seq<Event>, keys: nat -> Key): World {
    if events == [] then World(shared, map[])
    else Next(Run(shared, events[..|events| - 1], keys), events[|events| - 1], keys)
  }

  /** Ports by number, on one workspace and each under its own key. */
  ghost predicate Held(workspace: Workspace, ports: map<nat, TurnPort>, keys: nat -> Key) {
    && (forall id :: id in ports ==> ports[id].workspace == workspace && ports[id].internalKey == keys(id))
    && (forall a, b :: a in ports && b in ports && ports[a] == ports[b] ==> a == b)
  }

  /** The stores and the ports are as `w` says. */
  ghost predicate Shows(workspace: Workspace, ports: map<nat, TurnPort>, w: World)
    reads workspace, ports.Values
  {
    && workspace.stores == w.shared && w.ports.Keys == ports.Keys
    && forall id :: id in ports ==> w.ports[id] == Port(ports[id].thread, ports[id].closed)
  }

  /** The state machine is what the ports do: opening a port is one step of it. */
  method OpenPort(workspace: Workspace, ports: map<nat, TurnPort>, e: Event, keys: nat -> Key, ghost w: World)
    returns (after: map<nat, TurnPort>)
    requires e.Open? && Held(workspace, ports, keys) && Shows(workspace, ports, w)
    modifies workspace
    ensures Held(workspace, after, keys) && Shows(workspace, after, Next(w, e, keys))
  {
    var port := new TurnPort(workspace, e.thread, keys(e.id), e.initial);
    after := ports[e.id := port];
    assert port !in ports.Values;
  }

  /** And so is whatever is done through a port, refusals included. */
  method Through(workspace: Workspace, ports: map<nat, TurnPort>, e: Event, keys: nat -> Key, ghost w: World)
    requires (e.Call? || e.Replace? || e.Close?) && e.id in ports
    requires Held(workspace, ports, keys) && Shows(workspace, ports, w)
    modifies workspace, ports[e.id]
    ensures Shows(workspace, ports, Next(w, e, keys))
  {
    match e
    case Call(id, asked, op) => var _ := ports[id].Call(asked, op);
    case Replace(id, state) => var _ := ports[id].Replace(state);
    case Close(id) => ports[id].Close();
  }

  /** How one event changes the private copy of its own port. */
  function CopyNext(before: Option<(Key, State)>, e: Event): Option<(Key, State)> {
    match e
    case Open(_, thread, initial) => Some((thread, initial))
    case Call(_, asked, op) =>
      if before.Some? && before.value.0 == asked then Some((asked, Do(before.value.1, op))) else before
    case Replace(_, state) => if before.Some? then Some((before.value.0, state)) else before
    case Close(_) => None
    case Outside(_, _) => before
  }

  /** What a private copy of the state of port `id` would hold, changed by the events of that port alone. */
  function Copy(events: seq<Event>, id: nat): Option<(Key, State)> {
    if events == [] then None
    else
      var before, e := Copy(events[..|events| - 1], id), events[|events| - 1];
      if !e.Outside? && e.id == id then CopyNext(before, e) else before
  }

  function AloneNext(shared: Shared, e: Event): Shared {
    if e.Outside? then With(shared, e.thread, Do(Of(shared, e.thread), e.op)) else shared
  }

  /** The stores as they would be without any port. */
  function Alone(shared: Shared, events: seq<Event>): Shared {
    if events == [] then shared else AloneNext(Alone(shared, events[..|events| - 1]), events[|events| - 1])
  }

  /** Internal keys differ from each other, from the keys in the stores and from those the default port is asked for. */
  ghost predicate OwnKeys(shared: Shared, events: seq<Event>, keys: nat -> Key) {
    && (forall a, b :: keys(a) == keys(b) ==> a == b)
    && (forall id :: Of(shared, keys(id)) == map[])
    && forall k, id :: 0 <= k < |events| && events[k].Outside? ==> events[k].thread != keys(id)
  }

  lemma OwnKeysBefore(shared: Shared, events: seq<Event>, keys: nat -> Key)
    requires events != [] && OwnKeys(shared, events, keys)
    ensures OwnKeys(shared, events[..|events| - 1], keys)
    ensures events[|events| - 1].Outside? ==> forall id :: events[|events| - 1].thread != keys(id)
  {
    assert forall k :: 0 <= k < |events| - 1 ==> events[..|events| - 1][k] == events[k];
  }

  /** The port shows what its private copy holds; without a copy it is closed, or was never open, and holds nothing. */
  predicate Agrees(w: World, id: nat, key: Key, copy: Option<(Key, State)>) {
    if copy.Some? then IsOpen(w, id) && copy.value == (w.ports[id].thread, Of(w.shared, key))
    else !IsOpen(w, id) && Of(w.shared, key) == map[]
  }

  /** A step touches one key only. */
  lemma StepKeepsOthers(w: World, e: Event, keys: nat -> Key, key: Key)
    requires key != Target(e, keys)
    ensures Of(Next(w, e, keys).shared, key) == Of(w.shared, key)
  {
    var state := NewState(w, e, keys);
    if state.Some? {
      WithOfOther(w.shared, Target(e, keys), state.value, key);
    }
  }

  lemma OwnStep(w: World, e: Event, keys: nat -> Key, copy: Option<(Key, State)>)
    requires !e.Outside? && Agrees(w, e.id, keys(e.id), copy)
    ensures Agrees(Next(w, e, keys), e.id, keys(e.id), CopyNext(copy, e))
  {
    var state := NewState(w, e, keys);
    if state.Some? {
      WithOf(w.shared, keys(e.id), state.value);
    }
  }

  lemma OtherStep(w: World, e: Event, keys: nat -> Key, id: nat, copy: Option<(Key, State)>)
    requires e.Outside? || e.id != id
    requires keys(id) != Target(e, keys)
    requires Agrees(w, id, keys(id), copy)
    ensures Agrees(Next(w, e, keys), id, keys(id), copy)
  {
    StepKeepsOthers(w, e, keys, keys(id));
  }

  /** Every port behaves as a private copy, however its events mix with those of others. */
  lemma {:induction false} PortsArePrivate(shared: Shared, events: seq<Event>, keys: nat -> Key, id: nat)
    requires OwnKeys(shared, events, keys)
    ensures Agrees(Run(shared, events, keys), id, keys(id), Copy(events, id))
  {
    if events != [] {
      var init, e := events[..|events| - 1], events[|events| - 1];
      OwnKeysBefore(shared, events, keys);
      PortsArePrivate(shared, init, keys, id);
      if !e.Outside? && e.id == id {
        OwnStep(Run(shared, init, keys), e, keys, Copy(init, id));
      } else {
        OtherStep(Run(shared, init, keys), e, keys, id, Copy(init, id));
      }
    }
  }

  lemma SameOwnStep(w: World, alone: Shared, thread: Key, op: Op, keys: nat -> Key)
    requires Of(w.shared, thread) == Of(alone, thread)
    ensures Of(Next(w, Outside(thread, op), keys).shared, thread) == Of(AloneNext(alone, Outside(thread, op)), thread)
  {
    var e, state := Outside(thread, op), Do(Of(w.shared, thread), op);
    assert Target(e, keys) == thread && NewState(w, e, keys) == Some(state);
    assert Next(w, e, keys).shared == With(w.shared, thread, state);
    WithOf(w.shared, thread, state);
    WithOf(alone, thread, state);
  }

  lemma AloneKeepsOthers(alone: Shared, e: Event, thread: Key)
    requires e.Outside? ==> e.thread != thread
    ensures Of(AloneNext(alone, e), thread) == Of(alone, thread)
  {
    if e.Outside? {
      WithOfOther(alone, e.thread, Do(Of(alone, e.thread), e.op), thread);
    }
  }

  lemma SameStep(w: World, alone: Shared, e: Event, keys: nat -> Key, thread: Key)
    requires Of(w.shared, thread) == Of(alone, thread) && (!e.Outside? ==> thread != keys(e.id))
    ensures Of(Next(w, e, keys).shared, thread) == Of(AloneNext(alone, e), thread)
  {
    if e.Outside? && e.thread == thread {
      SameOwnStep(w, alone, thread, e.op, keys);
    } else {
      StepKeepsOthers(w, e, keys, thread);
      AloneKeepsOthers(alone, e, thread);
    }
  }

  /** A thread that is no port's sees the stores as if there were no ports. */
  lemma {:induction false} OthersSeeNoPorts(shared: Shared, events: seq<Event>, keys: nat -> Key, thread: Key)
    requires forall id :: thread != keys(id)
    ensures Of(Run(shared, events, keys).shared, thread) == Of(Alone(shared, events), thread)
  {
    if events != [] {
      var init, e := events[..|events| - 1], events[|events| - 1];
      OthersSeeNoPorts(shared, init, keys, thread);
      SameStep(Run(shared, init, keys), Alone(shared, init), e, keys, thread);
    }
  }

  lemma {:induction false} AloneHasNoPortKeys(shared: Shared, events: seq<Event>, keys: nat -> Key, id: nat)
    requires OwnKeys(shared, events, keys)
    ensures Of(Alone(shared, events), keys(id)) == map[]
  {
    if events != [] {
      var init, e := events[..|events| - 1], events[|events| - 1];
      OwnKeysBefore(shared, events, keys);
      AloneHasNoPortKeys(shared, init, keys, id);
      var alone := Alone(shared, init);
      if e.Outside? { WithOfOther(alone, e.thread, Do(Of(alone, e.thread), e.op), keys(id)); }
    }
  }

  /** Once every port is closed, the stores are exactly as if there had been no ports. */
  lemma ClosingRestoresTheStores(shared: Shared, events: seq<Event>, keys: nat -> Key)
    requires OwnKeys(shared, events, keys) && forall id :: !IsOpen(Run(shared, events, keys), id)
    ensures Run(shared, events, keys).shared == Alone(shared, events)
  {
    var w := Run(shared, events, keys);
    forall thread ensures Of(w.shared, thread) == Of(Alone(shared, events), thread) {
      if id :| thread == keys(id) {
        PortsArePrivate(shared, events, keys, id);
        AloneHasNoPortKeys(shared, events, keys, id);
      } else {
        OthersSeeNoPorts(shared, events, keys, thread);
      }
    }
    SameStates(w.shared, Alone(shared, events));
  }
}
